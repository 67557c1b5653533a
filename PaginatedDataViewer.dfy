/**
 * The paginated record list of enhancements/pagination/PaginatedDataViewer.tsx:
 * the search of the plain viewer, ten records per page, a guarded page
 * change, and the strip of page buttons with ellipses over the gaps.
 */
module PaginatedDataViewer {
  import opened Outcomes
  import opened Strings
  import opened DataViewer

  const RecordsPerPage: nat := 10

  /** `Math.ceil(n / RECORDS_PER_PAGE)` */
  function TotalPages(n: nat): (t: nat)
    ensures t * RecordsPerPage >= n
    ensures t > 0 ==> (t - 1) * RecordsPerPage < n
    ensures t == 0 <==> n == 0
  {
    (n + RecordsPerPage - 1) / RecordsPerPage
  }

  function Min(a: int, b: int): int {
    if a <= b then a else b
  }

  /** `filtered.slice((page - 1) * 10, (page - 1) * 10 + 10)`; `slice` clamps to the length. */
  function PageRecords<T>(filtered: seq<T>, page: int): (visible: seq<T>)
    requires page >= 1
    ensures |visible| <= RecordsPerPage
    ensures |visible| == if (page - 1) * RecordsPerPage >= |filtered| then 0
                         else Min(RecordsPerPage, |filtered| - (page - 1) * RecordsPerPage)
    ensures forall i :: 0 <= i < |visible| ==> visible[i] == filtered[(page - 1) * RecordsPerPage + i]
  {
    var start := Min((page - 1) * RecordsPerPage, |filtered|);
    var end := Min(page * RecordsPerPage, |filtered|);
    filtered[start..end]
  }

  /** The pages `from`, `from + 1`, ..., `last`, one after the other. */
  function PagesConcat<T>(filtered: seq<T>, from: int, last: int): seq<T>
    requires from >= 1
    decreases last - from + 1
  {
    if from > last then [] else PageRecords(filtered, from) + PagesConcat(filtered, from + 1, last)
  }

  /** Every filtered record is shown on exactly one page: the pages, in order, are the filtered list. */
  lemma PagesPartition<T>(filtered: seq<T>)
    ensures PagesConcat(filtered, 1, TotalPages(|filtered|)) == filtered
  {
    PagesSuffix(filtered, 1);
  }

  lemma {:induction false} PagesSuffix<T>(filtered: seq<T>, from: int)
    requires from >= 1
    ensures PagesConcat(filtered, from, TotalPages(|filtered|))
            == filtered[Min((from - 1) * RecordsPerPage, |filtered|)..]
    decreases TotalPages(|filtered|) - from + 1
  {
    var last := TotalPages(|filtered|);
    if from <= last {
      PagesSuffix(filtered, from + 1);
      var a := Min((from - 1) * RecordsPerPage, |filtered|);
      var b := Min(from * RecordsPerPage, |filtered|);
      assert filtered[a..b] + filtered[b..] == filtered[a..];
    }
  }

  // ------------------------------------------------------- page buttons

  /** The page-list filter: first, last, and the pages next to the current one. */
  predicate ShowPage(page: int, total: int, current: int) {
    page == 1 || page == total || (page - current <= 1 && current - page <= 1)
  }

  function PagesFrom(k: int, total: int, current: int): seq<int>
    decreases total - k + 1
  {
    if k > total then [] else (if ShowPage(k, total, current) then [k] else []) + PagesFrom(k + 1, total, current)
  }

  /** `Array.from({ length: totalPages }, (_, i) => i + 1).filter(...)` */
  function ShownPages(total: int, current: int): seq<int> {
    PagesFrom(1, total, current)
  }

  /** One fragment of the strip: an optional ellipsis, then the link to `page`. */
  datatype PageEntry = PageEntry(page: int, ellipsisBefore: bool, active: bool)

  /** The `.map((page, index, array) => ...)` over the shown pages. */
  function PageEntries(total: int, current: int): (entries: seq<PageEntry>)
    ensures |entries| == |ShownPages(total, current)|
    ensures forall i :: 0 <= i < |entries| ==> entries[i].page == ShownPages(total, current)[i]
    ensures forall i :: 0 <= i < |entries| ==> (entries[i].active <==> entries[i].page == current)
  {
    var shown := ShownPages(total, current);
    seq(|shown|, i requires 0 <= i < |shown| =>
      PageEntry(shown[i], GapBefore(shown, i), shown[i] == current))
  }

  /** `prevPage && page - prevPage > 1`: `prevPage` is undefined for the first page shown. */
  predicate GapBefore(shown: seq<int>, i: int)
    requires 0 <= i < |shown|
  {
    i > 0 && shown[i] - shown[i - 1] > 1
  }

  predicate StrictlyIncreasing(s: seq<int>) {
    forall i, j :: 0 <= i < j < |s| ==> s[i] < s[j]
  }

  lemma {:induction false} PagesFromSpec(k: int, total: int, current: int)
    ensures StrictlyIncreasing(PagesFrom(k, total, current))
    ensures forall p :: p in PagesFrom(k, total, current) <==> k <= p <= total && ShowPage(p, total, current)
    decreases total - k + 1
  {
    if k <= total {
      var rest := PagesFrom(k + 1, total, current);
      PagesFromSpec(k + 1, total, current);
      if ShowPage(k, total, current) {
        var r := [k] + rest;
        forall i, j | 0 <= i < j < |r|
          ensures r[i] < r[j]
        {
          assert r[j] == rest[j - 1] && rest[j - 1] in rest;
          if i > 0 { assert r[i] == rest[i - 1]; }
        }
      }
    }
  }

  /**
   * The shown pages are strictly increasing; page 1 and the last page are
   * always there, and any other page is there exactly when it is within one
   * of the current page.
   */
  lemma ShownPagesSpec(total: int, current: int)
    ensures StrictlyIncreasing(ShownPages(total, current))
    ensures total >= 1 ==> 1 in ShownPages(total, current) && total in ShownPages(total, current)
    ensures forall p :: 1 < p < total ==>
              (p in ShownPages(total, current) <==> p - current <= 1 && current - p <= 1)
    ensures forall p :: p in ShownPages(total, current) ==> 1 <= p <= total
  {
    PagesFromSpec(1, total, current);
  }

  /** In a strictly increasing list, nothing lies strictly between two neighbours. */
  lemma NothingBetween(s: seq<int>, i: int, x: int)
    requires StrictlyIncreasing(s)
    requires 0 < i < |s| && s[i - 1] < x < s[i]
    ensures x !in s
  {
    forall j | 0 <= j < |s|
      ensures s[j] != x
    {
      if j < i - 1 { assert s[j] < s[i - 1]; }
      if j > i { assert s[i] < s[j]; }
    }
  }

  /** A gap before entry `i`, in a list of pages that starts at page 1, means the page below is hidden. */
  lemma GapIffHidden(s: seq<int>, i: int)
    requires StrictlyIncreasing(s) && 0 <= i < |s|
    requires 1 in s && forall x :: x in s ==> x >= 1
    ensures GapBefore(s, i) <==> s[i] - 1 >= 1 && s[i] - 1 !in s
  {
    if i == 0 {
      var j :| 0 <= j < |s| && s[j] == 1;
      if j > 0 { assert s[0] < s[j]; }
    } else if s[i] - s[i - 1] > 1 {
      assert s[i - 1] in s;
      NothingBetween(s, i, s[i] - 1);
    } else {
      assert s[i - 1] == s[i] - 1;
    }
  }

  /** An ellipsis stands before a shown page exactly when the page just below it is hidden. */
  lemma EllipsisMarksHiddenPage(total: int, current: int, i: int)
    requires 0 <= i < |PageEntries(total, current)|
    ensures PageEntries(total, current)[i].ellipsisBefore <==>
              var p := PageEntries(total, current)[i].page;
              p - 1 >= 1 && p - 1 !in ShownPages(total, current)
  {
    var shown := ShownPages(total, current);
    ShownPagesSpec(total, current);
    GapIffHidden(shown, i);
  }

  /** A page with an ellipsis before it is the one below the current page, or the last page. */
  lemma EllipsisPages(total: int, current: int, i: int)
    requires 1 <= current <= total
    requires 0 <= i < |PageEntries(total, current)| && PageEntries(total, current)[i].ellipsisBefore
    ensures PageEntries(total, current)[i].page in {current - 1, total}
  {
    var shown := ShownPages(total, current);
    ShownPagesSpec(total, current);
    GapIffHidden(shown, i);
    var p := shown[i];
    assert p in shown;
    assert current in shown;
    assert current - 1 >= 1 ==> current - 1 in shown;
  }

  /** With the current page in range, exactly one entry of the strip is marked active. */
  lemma ExactlyOneActive(total: int, current: int)
    requires 1 <= current <= total
    ensures exists i :: 0 <= i < |PageEntries(total, current)| && PageEntries(total, current)[i].active
    ensures forall i, j ::
              (0 <= i < |PageEntries(total, current)| && 0 <= j < |PageEntries(total, current)| &&
               PageEntries(total, current)[i].active && PageEntries(total, current)[j].active) ==> i == j
  {
    var shown := ShownPages(total, current);
    var entries := PageEntries(total, current);
    ShownPagesSpec(total, current);
    assert current in shown;
    var k :| 0 <= k < |shown| && shown[k] == current;
    assert entries[k].active;
    forall i, j | 0 <= i < |entries| && 0 <= j < |entries| && entries[i].active && entries[j].active
      ensures i == j
    {
      assert shown[i] == current && shown[j] == current;
    }
  }

  function CountEllipses(entries: seq<PageEntry>): nat {
    if entries == [] then 0 else (if entries[0].ellipsisBefore then 1 else 0) + CountEllipses(entries[1..])
  }

  /** For a current page in range, at most two ellipses appear. */
  lemma AtMostTwoEllipses(total: int, current: int)
    requires 1 <= current <= total
    ensures CountEllipses(PageEntries(total, current)) <= 2
  {
    var entries := PageEntries(total, current);
    var shown := ShownPages(total, current);
    ShownPagesSpec(total, current);
    forall i | 0 <= i < |entries| && entries[i].ellipsisBefore
      ensures entries[i].page == current - 1 || entries[i].page == total
    {
      EllipsisPages(total, current, i);
    }
    forall i | 0 <= i < |entries|
      ensures entries[i].page > 0
    {
      assert shown[i] in shown;
    }
    CountBound(entries, 0, current - 1, total);
  }

  function Above(lo: int, a: int, b: int): nat {
    (if a > lo then 1 else 0) + (if b > lo then 1 else 0)
  }

  lemma {:induction false} CountBound(entries: seq<PageEntry>, lo: int, a: int, b: int)
    requires a != b
    requires forall i :: 0 <= i < |entries| ==> entries[i].page > lo
    requires forall i, j :: 0 <= i < j < |entries| ==> entries[i].page < entries[j].page
    requires forall i :: 0 <= i < |entries| && entries[i].ellipsisBefore ==> entries[i].page == a || entries[i].page == b
    ensures CountEllipses(entries) <= Above(lo, a, b)
  {
    if entries != [] {
      var rest := entries[1..];
      forall i | 0 <= i < |rest|
        ensures rest[i].page > entries[0].page
      {
        assert rest[i] == entries[i + 1];
      }
      CountBound(rest, entries[0].page, a, b);
    }
  }

  // -------------------------------------------------------------- the view

  class PaginatedViewer {
    var records: seq<TransformedRecord>
    var filteredRecords: seq<TransformedRecord>
    var searchTerm: string
    var currentPage: int
    /** The terms passed to `Analytics.trackDataSearch`, oldest first. */
    var trackedSearches: seq<string>

    /**
     * After the filter effect the list is the matching records, and the
     * current page is 1 or a page that exists.
     */
    ghost predicate Valid()
      reads this
    {
      && filteredRecords == FilterRecords(records, searchTerm)
      && 1 <= currentPage
      && (currentPage == 1 || currentPage <= TotalPages(|filteredRecords|))
    }

    /** Mounting runs the filter effect once with the empty term, which tracks nothing. */
    constructor (records: seq<TransformedRecord>)
      ensures Valid()
      ensures this.records == records && searchTerm == "" && currentPage == 1 && trackedSearches == []
      ensures filteredRecords == records
    {
      this.records := records;
      searchTerm := "";
      FilterEmptyTermKeepsAll(records);
      filteredRecords := FilterRecords(records, "");
      currentPage := 1;
      trackedSearches := [];
    }

    /** The filter effect: re-filter, go back to page 1, track a non-empty term. */
    method RunFilterEffect()
      modifies this`filteredRecords, this`currentPage, this`trackedSearches
      ensures Valid()
      ensures filteredRecords == FilterRecords(records, searchTerm) && currentPage == 1
      ensures trackedSearches == old(trackedSearches) + (if searchTerm != "" then [searchTerm] else [])
    {
      filteredRecords := FilterRecords(records, searchTerm);
      currentPage := 1;
      if searchTerm != "" {
        trackedSearches := trackedSearches + [searchTerm];
      }
    }

    /** Typing in the search box; React skips the effect when the term is unchanged. */
    method SetSearchTerm(term: string)
      requires Valid()
      modifies this
      ensures Valid()
      ensures records == old(records) && searchTerm == term
      ensures term != old(searchTerm) ==>
                currentPage == 1 && trackedSearches == old(trackedSearches) + (if term != "" then [term] else [])
      ensures term == old(searchTerm) ==>
                currentPage == old(currentPage) && trackedSearches == old(trackedSearches)
    {
      if term != searchTerm {
        searchTerm := term;
        RunFilterEffect();
      }
    }

    /** New `records` from the parent: the effect always re-runs. */
    method SetRecords(rs: seq<TransformedRecord>)
      modifies this
      ensures Valid()
      ensures records == rs && searchTerm == old(searchTerm) && currentPage == 1
      ensures trackedSearches == old(trackedSearches) + (if searchTerm != "" then [searchTerm] else [])
    {
      records := rs;
      RunFilterEffect();
    }

    /** Only an existing page is accepted; with no records every page is rejected. */
    method HandlePageChange(page: int)
      requires Valid()
      modifies this`currentPage
      ensures Valid()
      ensures 1 <= page <= TotalPages(|filteredRecords|) ==> currentPage == page
      ensures !(1 <= page <= TotalPages(|filteredRecords|)) ==> currentPage == old(currentPage)
      ensures filteredRecords == [] ==> currentPage == old(currentPage)
    {
      if page >= 1 && page <= TotalPages(|filteredRecords|) {
        currentPage := page;
      }
    }

    function CurrentRecords(): (visible: seq<TransformedRecord>)
      requires Valid()
      reads this
      ensures |visible| <= RecordsPerPage
      ensures (currentPage - 1) * RecordsPerPage + |visible| <= |filteredRecords|
      ensures |visible| == Min(RecordsPerPage, |filteredRecords| - (currentPage - 1) * RecordsPerPage)
      ensures visible == [] <==> filteredRecords == []
      ensures forall i :: 0 <= i < |visible| ==>
                visible[i] == filteredRecords[(currentPage - 1) * RecordsPerPage + i]
    {
      PageRecords(filteredRecords, currentPage)
    }

    /** The empty state replaces the table when the visible page is empty, which is exactly when nothing matches. */
    function EmptyState(): (message: Option<string>)
      requires Valid()
      reads this
      ensures message.Some? <==> filteredRecords == []
      ensures message.Some? && searchTerm != "" ==> message.value == "Try adjusting your search terms."
      ensures message.Some? && searchTerm == "" ==> message.value == "Upload some CSV files to see data here."
    {
      if |CurrentRecords()| == 0 then
        Some(if searchTerm != "" then "Try adjusting your search terms." else "Upload some CSV files to see data here.")
      else None
    }

    /** "Showing x to y of n records": y - x + 1 is the number of visible records. */
    function ShowingRange(): (range: (int, int, int))
      requires Valid()
      reads this
      ensures range.0 == (currentPage - 1) * RecordsPerPage + 1
      ensures filteredRecords != [] ==> range.1 - range.0 + 1 == |CurrentRecords()|
      ensures filteredRecords != [] ==> range.1 == (currentPage - 1) * RecordsPerPage + |CurrentRecords()|
      ensures range.2 == |filteredRecords|
    {
      var start := (currentPage - 1) * RecordsPerPage;
      (start + 1, Min(start + RecordsPerPage, |filteredRecords|), |filteredRecords|)
    }

    /** The page strip, drawn only when there is more than one page. */
    function PageStrip(): (strip: Option<seq<PageEntry>>)
      reads this
      ensures strip.Some? <==> TotalPages(|filteredRecords|) > 1
      ensures strip.Some? ==> strip.value == PageEntries(TotalPages(|filteredRecords|), currentPage)
    {
      var total := TotalPages(|filteredRecords|);
      if total > 1 then Some(PageEntries(total, currentPage)) else None
    }

    /** The export covers every filtered record, on every page. */
    function ExportText(localeDate: string -> string): (csv: string)
      reads this
      ensures NoLineBreaks(filteredRecords, localeDate) ==>
                Split(csv, '\n') == Lines(filteredRecords, localeDate)
    {
      var csv := ExportCsv(filteredRecords, localeDate);
      assert NoLineBreaks(filteredRecords, localeDate) ==> Split(csv, '\n') == Lines(filteredRecords, localeDate) by {
        if NoLineBreaks(filteredRecords, localeDate) {
          ExportLines(filteredRecords, localeDate);
        }
      }
      csv
    }

    function ExportDisabled(): (disabled: bool)
      reads this
      ensures disabled <==> filteredRecords == []
    {
      |filteredRecords| == 0
    }
  }

  /** While the viewer is valid, the strip keeps at most two ellipses. */
  lemma StripEllipses(v: PaginatedViewer)
    requires v.Valid()
    requires v.PageStrip().Some?
    ensures CountEllipses(v.PageStrip().value) <= 2
  {
    AtMostTwoEllipses(TotalPages(|v.filteredRecords|), v.currentPage);
  }

  /** A drawn strip of a valid viewer marks exactly the current page as active. */
  lemma StripActivePage(v: PaginatedViewer)
    requires v.Valid()
    requires v.PageStrip().Some?
    ensures exists i :: 0 <= i < |v.PageStrip().value| && v.PageStrip().value[i].active
    ensures forall i :: 0 <= i < |v.PageStrip().value| ==>
              (v.PageStrip().value[i].active <==> v.PageStrip().value[i].page == v.currentPage)
    ensures forall i, j ::
              (0 <= i < |v.PageStrip().value| && 0 <= j < |v.PageStrip().value| &&
               v.PageStrip().value[i].active && v.PageStrip().value[j].active) ==> i == j
  {
    ExactlyOneActive(TotalPages(|v.filteredRecords|), v.currentPage);
  }
}
