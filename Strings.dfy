/**
 * The JavaScript string operations the application relies on, over
 * ASCII-like characters: `toLowerCase`/`toUpperCase`, `includes`,
 * `split(c)`, `join(c)`, `trim()` (as far as emptiness is concerned),
 * `replace(c, '')` with a one-character pattern, and `Number.toString()`
 * for integers.
 */
module Strings {

  // ---------------------------------------------------------------- case

  function LowerChar(c: char): char {
    if 'A' <= c <= 'Z' then (c as int + 32) as char else c
  }

  function UpperChar(c: char): char {
    if 'a' <= c <= 'z' then (c as int - 32) as char else c
  }

  /** `s.toLowerCase()` for ASCII letters; every other character is kept. */
  function Lower(s: string): (r: string)
    ensures |r| == |s|
    ensures forall i :: 0 <= i < |s| ==> r[i] == LowerChar(s[i])
  {
    seq(|s|, i requires 0 <= i < |s| => LowerChar(s[i]))
  }

  /** `s.toUpperCase()` for ASCII letters; every other character is kept. */
  function Upper(s: string): (r: string)
    ensures |r| == |s|
    ensures forall i :: 0 <= i < |s| ==> r[i] == UpperChar(s[i])
  {
    seq(|s|, i requires 0 <= i < |s| => UpperChar(s[i]))
  }

  // ----------------------------------------------------------- substring

  predicate IsPrefix(t: string, s: string) {
    |t| <= |s| && s[..|t|] == t
  }

  /** `s.includes(t)`: `t` occurs in `s` at some offset. */
  predicate Contains(s: string, t: string) {
    exists i :: 0 <= i <= |s| - |t| && IsPrefix(t, s[i..])
  }

  /** Every string includes the empty string. */
  lemma ContainsEmpty(s: string)
    ensures Contains(s, "")
  {
    assert IsPrefix("", s[0..]);
  }

  // ---------------------------------------------------------- split/join

  /** Number of occurrences of `c` in `s`. */
  function Count(s: string, c: char): nat {
    if s == [] then 0 else (if s[0] == c then 1 else 0) + Count(s[1..], c)
  }

  /** `s.split(c)` for a one-character separator: never empty, one more part than separators. */
  function Split(s: string, c: char): (parts: seq<string>)
    ensures |parts| == Count(s, c) + 1
  {
    if s == [] then [""]
    else if s[0] == c then [""] + Split(s[1..], c)
    else
      var rest := Split(s[1..], c);
      [[s[0]] + rest[0]] + rest[1..]
  }

  /** `parts.join(c)` */
  function Join(parts: seq<string>, c: char): string {
    if parts == [] then ""
    else if |parts| == 1 then parts[0]
    else parts[0] + [c] + Join(parts[1..], c)
  }

  /** The part of `s` before the first `c` (all of `s` when there is none): `s.split(c)[0]`. */
  function FirstSegment(s: string, c: char): string {
    Split(s, c)[0]
  }

  /** No part of `s.split(c)` contains `c`. */
  lemma {:induction false} SplitPartsFree(s: string, c: char)
    ensures forall k :: 0 <= k < |Split(s, c)| ==> c !in Split(s, c)[k]
  {
    if s != [] {
      SplitPartsFree(s[1..], c);
    }
  }

  /** Splitting and joining again gives back the string. */
  lemma {:induction false} JoinSplit(s: string, c: char)
    ensures Join(Split(s, c), c) == s
  {
    if s == [] {
    } else if s[0] == c {
      JoinSplit(s[1..], c);
      assert s == [c] + s[1..];
    } else {
      var rest := Split(s[1..], c);
      JoinSplit(s[1..], c);
      if |rest| == 1 {
        assert s == [s[0]] + s[1..];
      } else {
        assert Join(rest, c) == rest[0] + [c] + Join(rest[1..], c);
        assert Join([[s[0]] + rest[0]] + rest[1..], c) == [s[0]] + rest[0] + [c] + Join(rest[1..], c) by {
          assert ([[s[0]] + rest[0]] + rest[1..])[1..] == rest[1..];
        }
        assert s == [s[0]] + s[1..];
      }
    }
  }

  /** Joining parts that are free of `c` and splitting again gives back the parts. */
  lemma {:induction false} SplitJoin(parts: seq<string>, c: char)
    requires |parts| > 0
    requires forall k :: 0 <= k < |parts| ==> c !in parts[k]
    ensures Split(Join(parts, c), c) == parts
  {
    if |parts| == 1 {
      SplitFree(parts[0], c);
    } else {
      var tail := Join(parts[1..], c);
      SplitJoin(parts[1..], c);
      SplitPrefixFree(parts[0], [c] + tail, c);
      assert Join(parts, c) == parts[0] + ([c] + tail);
      assert ([c] + tail)[0] == c;
      assert ([c] + tail)[1..] == tail;
      assert parts == [parts[0]] + parts[1..];
    }
  }

  /** A string without `c` splits into itself. */
  lemma {:induction false} SplitFree(s: string, c: char)
    requires c !in s
    ensures Split(s, c) == [s]
  {
    if s != [] {
      SplitFree(s[1..], c);
      assert s == [s[0]] + s[1..];
    }
  }

  /** Splitting `a + b` where `a` is free of `c` and `b` starts with `c`. */
  lemma {:induction false} SplitPrefixFree(a: string, b: string, c: char)
    requires c !in a
    requires |b| > 0 && b[0] == c
    ensures Split(a + b, c) == [a] + Split(b[1..], c)
  {
    if a == [] {
      assert a + b == b;
    } else {
      SplitPrefixFree(a[1..], b, c);
      assert (a + b)[1..] == a[1..] + b;
      assert [a[0]] + a[1..] == a;
    }
  }

  /** Occurrences of `c` in a join: those of every part, plus one per separator. */
  lemma {:induction false} CountJoin(parts: seq<string>, c: char)
    requires |parts| > 0
    ensures Count(Join(parts, c), c) == SumCounts(parts, c) + |parts| - 1
  {
    if |parts| > 1 {
      var tail := Join(parts[1..], c);
      CountJoin(parts[1..], c);
      assert Join(parts, c) == parts[0] + ([c] + tail);
      CountAppend(parts[0], [c] + tail, c);
      CountAppend([c], tail, c);
      assert [c][1..] == [];
    }
  }

  function SumCounts(parts: seq<string>, c: char): nat {
    if parts == [] then 0 else Count(parts[0], c) + SumCounts(parts[1..], c)
  }

  lemma {:induction false} CountAppend(a: string, b: string, c: char)
    ensures Count(a + b, c) == Count(a, c) + Count(b, c)
  {
    if a == [] {
      assert a + b == b;
    } else {
      CountAppend(a[1..], b, c);
      assert (a + b)[0] == a[0];
      assert (a + b)[1..] == a[1..] + b;
    }
  }

  lemma {:induction false} CountZero(s: string, c: char)
    ensures Count(s, c) == 0 <==> c !in s
  {
    if s != [] {
      CountZero(s[1..], c);
      assert s == [s[0]] + s[1..];
    }
  }

  /** `s.split(c)[0]` is the longest prefix of `s` free of `c`. */
  lemma {:induction false} FirstSegmentIsPrefix(s: string, c: char)
    ensures IsPrefix(FirstSegment(s, c), s)
    ensures c !in FirstSegment(s, c)
    ensures |FirstSegment(s, c)| < |s| ==> s[|FirstSegment(s, c)|] == c
  {
    SplitPartsFree(s, c);
    if s != [] && s[0] != c {
      FirstSegmentIsPrefix(s[1..], c);
    }
  }

  // ----------------------------------------------------------- replace

  /** `s.replace(c, '')` with a one-character string pattern: drops the first `c` only. */
  function RemoveFirst(s: string, c: char): string {
    if s == [] then []
    else if s[0] == c then s[1..]
    else [s[0]] + RemoveFirst(s[1..], c)
  }

  /** A string starting with `c` loses exactly that character. */
  lemma RemoveFirstLeading(s: string, c: char)
    requires |s| > 0 && s[0] == c
    ensures RemoveFirst(s, c) == s[1..]
  {
  }

  /** A string without `c` is left as it is; otherwise it gets one character shorter. */
  lemma {:induction false} RemoveFirstLength(s: string, c: char)
    ensures c !in s ==> RemoveFirst(s, c) == s
    ensures c in s ==> |RemoveFirst(s, c)| == |s| - 1
  {
    if s != [] {
      RemoveFirstLength(s[1..], c);
      assert s == [s[0]] + s[1..];
    }
  }

  // -------------------------------------------------------------- trim

  /** The characters `trim()` removes, restricted to ASCII. */
  predicate IsWhitespace(c: char) {
    c == ' ' || c == '\t' || c == '\n' || c == '\r' || c == '\U{000B}' || c == '\U{000C}'
  }

  function TrimStart(s: string): string {
    if s != [] && IsWhitespace(s[0]) then TrimStart(s[1..]) else s
  }

  function TrimEnd(s: string): string {
    if s != [] && IsWhitespace(s[|s| - 1]) then TrimEnd(s[..|s| - 1]) else s
  }

  /** `s.trim()` */
  function Trim(s: string): string {
    TrimEnd(TrimStart(s))
  }

  predicate IsBlank(s: string) {
    forall i :: 0 <= i < |s| ==> IsWhitespace(s[i])
  }

  /** `s.trim()` is empty exactly when every character of `s` is whitespace. */
  lemma {:induction false} TrimEmptyIffBlank(s: string)
    ensures Trim(s) == "" <==> IsBlank(s)
  {
    TrimStartBlank(s);
    var t := TrimStart(s);
    if t != [] {
      assert !IsWhitespace(t[0]);
      TrimEndKeepsHead(t);
    }
  }

  lemma {:induction false} TrimStartBlank(s: string)
    ensures TrimStart(s) == "" <==> IsBlank(s)
    ensures TrimStart(s) != "" ==> !IsWhitespace(TrimStart(s)[0])
  {
    if s != [] && IsWhitespace(s[0]) {
      TrimStartBlank(s[1..]);
      if !IsBlank(s) {
        var i :| 0 <= i < |s| && !IsWhitespace(s[i]);
        assert s[1..][i - 1] == s[i];
      }
    }
  }

  lemma {:induction false} TrimEndKeepsHead(t: string)
    requires t != [] && !IsWhitespace(t[0])
    ensures TrimEnd(t) != ""
  {
    if IsWhitespace(t[|t| - 1]) {
      TrimEndKeepsHead(t[..|t| - 1]);
    }
  }

  // ---------------------------------------------------- number to text

  function DigitChar(d: nat): char
    requires d < 10
  {
    "0123456789"[d]
  }

  function NatToString(n: nat): (s: string)
    ensures |s| > 0
    ensures forall i :: 0 <= i < |s| ==> '0' <= s[i] <= '9'
  {
    if n < 10 then [DigitChar(n)] else NatToString(n / 10) + [DigitChar(n % 10)]
  }

  /** `n.toString()` for an integer `n`: optional minus sign, then decimal digits. */
  function IntToString(n: int): (s: string)
    ensures |s| > 0
    ensures forall i :: 0 <= i < |s| ==> s[i] == '-' || '0' <= s[i] <= '9'
  {
    if n < 0 then "-" + NatToString(-n) else NatToString(n)
  }
}
