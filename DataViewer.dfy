/**
 * The record list of components/DataViewer.tsx: a case-insensitive search
 * over name and email, a CSV export without quoting, and the score badge.
 * The paginated viewer reuses these definitions unchanged.
 *
 * `toLocaleDateString` is locale- and clock-dependent; the export takes it
 * as the function `localeDate`.
 */
module DataViewer {
  import opened Outcomes
  import opened Strings

  datatype TransformedRecord = TransformedRecord(id: string, name: string, email: string, score: int, createdAt: string)

  datatype BadgeVariant = Default | Secondary | Outline

  // -------------------------------------------------------------- search

  /** The search predicate: the lower-cased term occurs in the lower-cased name or email. */
  predicate Matches(r: TransformedRecord, term: string) {
    Contains(Lower(r.name), Lower(term)) || Contains(Lower(r.email), Lower(term))
  }

  /** `records.filter(...)` with `Matches`. */
  function FilterRecords(records: seq<TransformedRecord>, term: string): (out: seq<TransformedRecord>)
    ensures |out| <= |records|
    ensures forall r :: r in out ==> r in records && Matches(r, term)
    ensures forall r :: multiset(out)[r] == if Matches(r, term) then multiset(records)[r] else 0
  {
    if records == [] then []
    else
      assert records == [records[0]] + records[1..];
      (if Matches(records[0], term) then [records[0]] else []) + FilterRecords(records[1..], term)
  }

  /** `sub` is `s` with some elements left out, the rest in their order. */
  predicate IsSubsequence<T(==)>(sub: seq<T>, s: seq<T>) {
    if sub == [] then true
    else if s == [] then false
    else if sub[0] == s[0] then IsSubsequence(sub[1..], s[1..])
    else IsSubsequence(sub, s[1..])
  }

  /**
   * Filtering keeps the order of the records and drops exactly those that do
   * not match; a matching record is kept as many times as it occurs.
   */
  lemma {:induction false} FilterIsOrderedSelection(records: seq<TransformedRecord>, term: string)
    ensures IsSubsequence(FilterRecords(records, term), records)
    ensures forall r :: r in records && Matches(r, term) ==> r in FilterRecords(records, term)
    ensures forall r :: multiset(FilterRecords(records, term))[r] == if Matches(r, term) then multiset(records)[r] else 0
  {
    if records != [] {
      FilterIsOrderedSelection(records[1..], term);
      var rest := FilterRecords(records[1..], term);
      if Matches(records[0], term) {
        assert ([records[0]] + rest)[1..] == rest;
      } else {
        assert FilterRecords(records, term) == rest;
        SubsequenceOfTail(rest, records);
      }
    }
  }

  /** A subsequence of the tail is a subsequence of the whole. */
  lemma {:induction false} SubsequenceOfTail<T>(sub: seq<T>, s: seq<T>)
    requires s != [] && IsSubsequence(sub, s[1..])
    ensures IsSubsequence(sub, s)
    decreases |s| - 1, 1
  {
    if sub != [] && sub[0] == s[0] {
      SubsequenceDropHead(sub, s[1..]);
    }
  }

  /** Dropping the first element of a subsequence keeps it a subsequence. */
  lemma {:induction false} SubsequenceDropHead<T>(sub: seq<T>, t: seq<T>)
    requires sub != [] && IsSubsequence(sub, t)
    ensures IsSubsequence(sub[1..], t)
    decreases |t|, 0
  {
    if sub[0] == t[0] {
      SubsequenceOfTail(sub[1..], t);
    } else {
      SubsequenceDropHead(sub, t[1..]);
      SubsequenceOfTail(sub[1..], t);
    }
  }

  /** The empty search term keeps every record. */
  lemma {:induction false} FilterEmptyTermKeepsAll(records: seq<TransformedRecord>)
    ensures FilterRecords(records, "") == records
  {
    if records != [] {
      ContainsEmpty(Lower(records[0].name));
      assert Lower("") == "";
      FilterEmptyTermKeepsAll(records[1..]);
    }
  }

  /** Filtering is empty exactly when no record matches. */
  lemma {:induction false} FilterEmptyIff(records: seq<TransformedRecord>, term: string)
    ensures FilterRecords(records, term) == [] <==> forall r :: r in records ==> !Matches(r, term)
  {
    if records != [] {
      FilterEmptyIff(records[1..], term);
    }
  }

  // -------------------------------------------------------------- badge

  function ScoreBadgeVariant(score: int): (v: BadgeVariant)
    ensures v == Default <==> score >= 90
    ensures v == Secondary <==> 80 <= score < 90
    ensures v == Outline <==> score < 80
  {
    if score >= 90 then Default
    else if score >= 80 then Secondary
    else Outline
  }

  // ---------------------------------------------------------- CSV export

  const CsvHeader := ["Name", "Email", "Score", "Created At"]

  /**
   * The four fields of one exported row, in column order: the name, the
   * email, the score as text and the formatted creation date.
   */
  function RowFields(r: TransformedRecord, localeDate: string -> string): (fields: seq<string>)
    ensures |fields| == 4
  {
    [r.name, r.email, IntToString(r.score), localeDate(r.createdAt)]
  }

  function Lines(records: seq<TransformedRecord>, localeDate: string -> string): (lines: seq<string>)
    ensures |lines| == |records| + 1
    ensures lines[0] == Join(CsvHeader, ',')
    ensures forall i :: 0 <= i < |records| ==> lines[i + 1] == Join(RowFields(records[i], localeDate), ',')
  {
    [Join(CsvHeader, ',')] + seq(|records|, i requires 0 <= i < |records| => Join(RowFields(records[i], localeDate), ','))
  }

  /** `handleExport`'s text: rows joined by ',', lines by '\n', nothing quoted. */
  function ExportCsv(records: seq<TransformedRecord>, localeDate: string -> string): string {
    Join(Lines(records, localeDate), '\n')
  }

  /** No field of any record, nor any formatted date, holds a line break. */
  predicate NoLineBreaks(records: seq<TransformedRecord>, localeDate: string -> string) {
    forall i :: 0 <= i < |records| ==>
      '\n' !in records[i].name && '\n' !in records[i].email && '\n' !in localeDate(records[i].createdAt)
  }

  lemma {:induction false} IntToStringPlain(n: int)
    ensures ',' !in IntToString(n) && '\n' !in IntToString(n)
  {
    var s := IntToString(n);
    forall i | 0 <= i < |s|
      ensures s[i] != ',' && s[i] != '\n'
    {
    }
  }

  lemma JoinFree(parts: seq<string>, sep: char, c: char)
    requires c != sep
    requires forall k :: 0 <= k < |parts| ==> c !in parts[k]
    ensures c !in Join(parts, sep)
  {
    if |parts| > 1 {
      JoinFree(parts[1..], sep, c);
    }
  }

  /**
   * Read back line by line, the export is the header followed by exactly one
   * row per record, in order, as long as no field holds a line break.
   */
  lemma ExportLines(records: seq<TransformedRecord>, localeDate: string -> string)
    requires NoLineBreaks(records, localeDate)
    ensures Split(ExportCsv(records, localeDate), '\n') == Lines(records, localeDate)
    ensures |Split(ExportCsv(records, localeDate), '\n')| == |records| + 1
  {
    var lines := Lines(records, localeDate);
    JoinFree(CsvHeader, ',', '\n');
    forall k | 0 <= k < |lines|
      ensures '\n' !in lines[k]
    {
      if k > 0 {
        IntToStringPlain(records[k - 1].score);
        JoinFree(RowFields(records[k - 1], localeDate), ',', '\n');
      }
    }
    SplitJoin(lines, '\n');
  }

  /** A row splits back into its four fields when no field holds a comma. */
  lemma RowFieldsRoundTrip(r: TransformedRecord, localeDate: string -> string)
    requires ',' !in r.name && ',' !in r.email && ',' !in localeDate(r.createdAt)
    ensures Split(Join(RowFields(r, localeDate), ','), ',') == RowFields(r, localeDate)
  {
    IntToStringPlain(r.score);
    SplitJoin(RowFields(r, localeDate), ',');
  }

  /** Without quoting, every comma inside a field adds a column to the row. */
  lemma RowColumns(r: TransformedRecord, localeDate: string -> string)
    ensures |Split(Join(RowFields(r, localeDate), ','), ',')|
            == 4 + Count(r.name, ',') + Count(r.email, ',') + Count(localeDate(r.createdAt), ',')
  {
    var fields := RowFields(r, localeDate);
    CountJoin(fields, ',');
    IntToStringPlain(r.score);
    CountZero(IntToString(r.score), ',');
    assert SumCounts(fields[3..], ',') == Count(fields[3], ',') by {
      assert fields[3..][1..] == [];
    }
    assert fields[2..][1..] == fields[3..];
    assert SumCounts(fields[2..], ',') == Count(fields[2], ',') + SumCounts(fields[3..], ',');
    assert fields[1..][1..] == fields[2..];
    assert SumCounts(fields[1..], ',') == Count(fields[1], ',') + SumCounts(fields[2..], ',');
    assert SumCounts(fields, ',') == Count(fields[0], ',') + Count(fields[1], ',') + Count(fields[2], ',')
                                     + Count(fields[3], ',');
  }

  // ------------------------------------------------------------- the view

  /** The footer under a non-empty list: "Showing x of y records" and two buttons. */
  datatype Footer = Footer(shown: nat, total: nat, previousDisabled: bool, nextDisabled: bool)

  class DataViewer {
    var records: seq<TransformedRecord>
    var filteredRecords: seq<TransformedRecord>
    var searchTerm: string

    /** After every effect has run, the list shows the records the term matches. */
    ghost predicate Valid()
      reads this
    {
      filteredRecords == FilterRecords(records, searchTerm)
    }

    constructor ()
      ensures Valid()
      ensures records == [] && filteredRecords == [] && searchTerm == ""
    {
      records := [];
      filteredRecords := [];
      searchTerm := "";
    }

    /**
     * The mount effect loads `mock` into both lists; the filter effect then
     * runs again because `records` changed.
     */
    method LoadRecords(mock: seq<TransformedRecord>)
      modifies this
      ensures Valid()
      ensures records == mock && searchTerm == old(searchTerm)
    {
      records := mock;
      filteredRecords := mock;
      filteredRecords := FilterRecords(records, searchTerm);
    }

    /** Typing in the search box: the filter effect re-runs. */
    method SetSearchTerm(term: string)
      modifies this
      ensures Valid()
      ensures searchTerm == term && records == old(records)
      ensures filteredRecords == FilterRecords(records, term)
    {
      searchTerm := term;
      filteredRecords := FilterRecords(records, searchTerm);
    }

    /**
     * `handleExport`'s text over the filtered records; read back line by
     * line it is the header and one row per listed record.
     */
    function ExportText(localeDate: string -> string): (csv: string)
      reads this
      ensures NoLineBreaks(filteredRecords, localeDate) ==>
                Split(csv, '\n') == Lines(filteredRecords, localeDate)
                && |Split(csv, '\n')| == |filteredRecords| + 1
    {
      var csv := ExportCsv(filteredRecords, localeDate);
      assert NoLineBreaks(filteredRecords, localeDate) ==> Split(csv, '\n') == Lines(filteredRecords, localeDate) by {
        if NoLineBreaks(filteredRecords, localeDate) {
          ExportLines(filteredRecords, localeDate);
        }
      }
      csv
    }

    /** Export is disabled, and the empty state shown, exactly when no record is listed. */
    function ExportDisabled(): (disabled: bool)
      reads this
      ensures disabled <==> filteredRecords == []
    {
      |filteredRecords| == 0
    }

    function EmptyState(): (message: Option<string>)
      reads this
      ensures message.Some? <==> filteredRecords == []
      ensures message.Some? && searchTerm != "" ==> message.value == "Try adjusting your search terms."
      ensures message.Some? && searchTerm == "" ==> message.value == "Upload some CSV files to see data here."
    {
      if |filteredRecords| == 0 then
        Some(if searchTerm != "" then "Try adjusting your search terms." else "Upload some CSV files to see data here.")
      else None
    }

    /** The footer; this viewer never pages, so both buttons are always disabled. */
    function ShownFooter(): (f: Option<Footer>)
      requires Valid()
      reads this
      ensures f.Some? <==> filteredRecords != []
      ensures f.Some? ==> f.value.shown == |filteredRecords| && f.value.total == |records|
      ensures f.Some? ==> f.value.shown <= f.value.total
      ensures f.Some? ==> f.value.previousDisabled && f.value.nextDisabled
    {
      if |filteredRecords| > 0 then Some(Footer(|filteredRecords|, |records|, true, true)) else None
    }
  }
}
