/**
 * String operations the source takes from the JavaScript and Python runtimes:
 * substring search, String.prototype.replaceAll with a string pattern,
 * trim, join, and ASCII case mapping.
 */
module Strings {
  import opened Wrappers

  /** `pat` occurs in `s` starting at index `i`. */
  predicate OccursAt(s: string, pat: string, i: nat)
  {
    i + |pat| <= |s| && s[i..i + |pat|] == pat
  }

  /** Index of the first occurrence of `pat` in `s` at or after `from` (JavaScript indexOf). */
  function FindFrom(s: string, pat: string, from: nat): (r: Option<nat>)
    decreases |s| - from
    ensures r.Some? ==> from <= r.value && OccursAt(s, pat, r.value)
    ensures r.Some? ==> forall j :: from <= j < r.value ==> !OccursAt(s, pat, j)
    ensures r.None? ==> forall j :: from <= j ==> !OccursAt(s, pat, j)
  {
    if from + |pat| > |s| then None
    else if s[from..from + |pat|] == pat then Some(from)
    else FindFrom(s, pat, from + 1)
  }

  /** An occurrence with none before it, from `from` on, is the one indexOf finds. */
  lemma FindFromAt(s: string, pat: string, from: nat, at: nat)
    requires from <= at && OccursAt(s, pat, at)
    requires forall j :: from <= j < at ==> !OccursAt(s, pat, j)
    ensures FindFrom(s, pat, from) == Some(at)
  {
  }

  /** `s.includes(pat)` in JavaScript, `pat in s` in Python. */
  predicate Contains(s: string, pat: string)
  {
    FindFrom(s, pat, 0).Some?
  }

  lemma ContainsIff(s: string, pat: string)
    ensures Contains(s, pat) <==> exists i :: OccursAt(s, pat, i)
  {
    if !Contains(s, pat) {
      forall i: nat ensures !OccursAt(s, pat, i) { }
    }
  }

  /** `pat` does not occur where no character of `s` is followed by the first two of `pat`. */
  lemma NotContainsByPair(s: string, pat: string)
    requires |pat| >= 2
    requires forall j :: 0 <= j < |s| - 1 ==> s[j] != pat[0] || s[j + 1] != pat[1]
    ensures !Contains(s, pat)
  {
    ContainsIff(s, pat);
    forall j: nat ensures !OccursAt(s, pat, j) {
      if j + |pat| <= |s| {
        assert s[j..j + |pat|][0] == s[j];
        assert s[j..j + |pat|][1] == s[j + 1];
      }
    }
  }

  /** A string that occurs inside a part of `s` occurs in `s`. */
  lemma {:induction false} ContainsInfix(a: string, b: string, c: string, pat: string)
    requires Contains(b, pat)
    ensures Contains(a + b + c, pat)
  {
    var i := FindFrom(b, pat, 0).value;
    assert (a + b + c)[|a| + i..|a| + i + |pat|] == b[i..i + |pat|];
    assert OccursAt(a + b + c, pat, |a| + i);
    ContainsIff(a + b + c, pat);
  }

  /** Whitespace and line terminators as JavaScript's trim() and `\s` define them. */
  predicate IsSpace(c: char)
  {
    c == ' ' || c == '\t' || c == '\n' || c == '\r' || c == '\U{B}' || c == '\U{C}'
    || c == '\U{A0}' || c == '\U{1680}' || ('\U{2000}' <= c <= '\U{200A}')
    || c == '\U{2028}' || c == '\U{2029}' || c == '\U{202F}' || c == '\U{205F}'
    || c == '\U{3000}' || c == '\U{FEFF}'
  }

  function TrimStart(s: string): (r: string)
    ensures |r| <= |s| && r == s[|s| - |r|..]
    ensures r != [] ==> !IsSpace(r[0])
    ensures forall i :: 0 <= i < |s| - |r| ==> IsSpace(s[i])
  {
    if s != [] && IsSpace(s[0]) then TrimStart(s[1..]) else s
  }

  function TrimEnd(s: string): (r: string)
    ensures |r| <= |s| && r == s[..|r|]
    ensures r != [] ==> !IsSpace(r[|r| - 1])
    ensures forall i :: |r| <= i < |s| ==> IsSpace(s[i])
  {
    if s != [] && IsSpace(s[|s| - 1]) then TrimEnd(s[..|s| - 1]) else s
  }

  /** `s.trim()`: the longest infix of `s` that neither starts nor ends with whitespace. */
  function Trim(s: string): (r: string)
  {
    TrimEnd(TrimStart(s))
  }

  /** Trimming a trimmed string changes nothing. */
  lemma TrimTwice(s: string)
    ensures Trim(Trim(s)) == Trim(s)
  {
    var r := Trim(s);
    if r != [] {
      assert r[0] == TrimStart(s)[0];
    }
    assert TrimStart(r) == r;
    assert TrimEnd(r) == r;
  }

  lemma TrimNoSpace(s: string)
    requires forall i :: 0 <= i < |s| ==> !IsSpace(s[i])
    ensures Trim(s) == s
  {
  }

  /** `parts.join(sep)`. */
  function Join(parts: seq<string>, sep: string): (r: string)
    ensures parts == [] ==> r == []
  {
    if parts == [] then []
    else if |parts| == 1 then parts[0]
    else parts[0] + sep + Join(parts[1..], sep)
  }

  /** The pieces of `s` between single `sep` characters, the inverse of Join. */
  function SplitOn(s: string, sep: char): (r: seq<string>)
    ensures |r| >= 1
    decreases |s|
  {
    if s == [] then [[]]
    else
      var rest := SplitOn(s[1..], sep);
      if s[0] == sep then [[]] + rest
      else [[s[0]] + rest[0]] + rest[1..]
  }

  lemma {:induction false} SplitOnAppend(a: string, sep: char, b: string)
    requires sep !in a
    ensures SplitOn(a + [sep] + b, sep) == [a] + SplitOn(b, sep)
    decreases |a|
  {
    if a == [] {
      assert a + [sep] + b == [sep] + b;
      assert ([sep] + b)[1..] == b;
    } else {
      SplitOnAppend(a[1..], sep, b);
      assert (a + [sep] + b)[1..] == a[1..] + [sep] + b;
      assert [a[0]] + a[1..] == a;
    }
  }

  lemma {:induction false} SplitOnPlain(a: string, sep: char)
    requires sep !in a
    ensures SplitOn(a, sep) == [a]
    decreases |a|
  {
    if a != [] {
      SplitOnPlain(a[1..], sep);
      assert [a[0]] + a[1..] == a;
    }
  }

  /** Splitting a join of non-empty, separator-free parts gives the parts back. */
  lemma {:induction false} SplitJoin(parts: seq<string>, sep: char)
    requires parts != []
    requires forall i :: 0 <= i < |parts| ==> sep !in parts[i]
    ensures SplitOn(Join(parts, [sep]), sep) == parts
    decreases |parts|
  {
    if |parts| == 1 {
      SplitOnPlain(parts[0], sep);
    } else {
      var rest := Join(parts[1..], [sep]);
      assert Join(parts, [sep]) == parts[0] + [sep] + rest;
      SplitJoin(parts[1..], sep);
      SplitOnAppend(parts[0], sep, rest);
      assert [parts[0]] + parts[1..] == parts;
    }
  }

  /** Decimal rendering of a natural number, as JavaScript's String(n) for a non-negative integer. */
  function NatToString(n: nat): (r: string)
    ensures |r| >= 1
    ensures forall i :: 0 <= i < |r| ==> '0' <= r[i] <= '9'
    ensures r[0] == '0' ==> n == 0
  {
    if n < 10 then [Digit(n)] else NatToString(n / 10) + [Digit(n % 10)]
  }

  /** `String(n)` for an integer. */
  function IntToString(n: int): string
  {
    if n < 0 then "-" + NatToString(-n) else NatToString(n)
  }

  function Digit(d: nat): (c: char)
    requires d < 10
    ensures '0' <= c <= '9'
  {
    ('0' as int + d) as char
  }

  predicate IsDigit(c: char) { '0' <= c <= '9' }

  function DigitValue(c: char): (d: nat)
    requires IsDigit(c)
    ensures d < 10
  {
    c as int - '0' as int
  }

  /** Value of a string of decimal digits (parseInt of a URL port). */
  function DigitsValue(s: string): (n: nat)
    requires forall i :: 0 <= i < |s| ==> IsDigit(s[i])
  {
    if s == [] then 0 else DigitsValue(s[..|s| - 1]) * 10 + DigitValue(s[|s| - 1])
  }

  lemma {:induction false} DigitsValueOfNatToString(n: nat)
    ensures DigitsValue(NatToString(n)) == n
  {
    if n >= 10 {
      var q, d := n / 10, n % 10;
      DigitsValueOfNatToString(q);
      var s := NatToString(q) + [Digit(d)];
      assert s[..|s| - 1] == NatToString(q);
      assert DigitsValue(s) == q * 10 + d;
    }
  }

  lemma NatToStringInjective(m: nat, n: nat)
    requires NatToString(m) == NatToString(n)
    ensures m == n
  {
    DigitsValueOfNatToString(m);
    DigitsValueOfNatToString(n);
  }

  function ToLowerChar(c: char): char
  {
    if 'A' <= c <= 'Z' then (c as int + 32) as char else c
  }

  function ToUpperChar(c: char): char
  {
    if 'a' <= c <= 'z' then (c as int - 32) as char else c
  }

  /** `s.toLowerCase()`, on the ASCII letters. */
  function ToLower(s: string): (r: string)
    ensures |r| == |s|
    ensures forall i :: 0 <= i < |s| ==> r[i] == ToLowerChar(s[i])
  {
    seq(|s|, i requires 0 <= i < |s| => ToLowerChar(s[i]))
  }

  /** `s.toUpperCase()`, on the ASCII letters. */
  function ToUpper(s: string): (r: string)
    ensures |r| == |s|
    ensures forall i :: 0 <= i < |s| ==> r[i] == ToUpperChar(s[i])
  {
    seq(|s|, i requires 0 <= i < |s| => ToUpperChar(s[i]))
  }

  lemma ToLowerIdempotent(s: string)
    ensures ToLower(ToLower(s)) == ToLower(s)
  {
  }

  // ---------------------------------------------------------------------------
  // String.prototype.replaceAll(pattern: string, replacement: string)
  // ---------------------------------------------------------------------------

  /**
   * GetSubstitution of ECMA-262 for a string pattern (no capture groups):
   * `$$` is a dollar sign, `$&` the matched text, `$`` the text before the
   * match and `$'` the text after it; every other `$` is literal.
   */
  function Expand(v: string, matched: string, before: string, after: string): (r: string)
    decreases |v|
  {
    if v == [] then []
    else if v[0] == '$' && |v| >= 2 && v[1] == '$' then "$" + Expand(v[2..], matched, before, after)
    else if v[0] == '$' && |v| >= 2 && v[1] == '&' then matched + Expand(v[2..], matched, before, after)
    else if v[0] == '$' && |v| >= 2 && v[1] == '`' then before + Expand(v[2..], matched, before, after)
    else if v[0] == '$' && |v| >= 2 && v[1] == '\'' then after + Expand(v[2..], matched, before, after)
    else [v[0]] + Expand(v[1..], matched, before, after)
  }

  /** A replacement value without `$` is inserted verbatim. */
  lemma {:induction false} ExpandLiteral(v: string, matched: string, before: string, after: string)
    requires '$' !in v
    ensures Expand(v, matched, before, after) == v
    decreases |v|
  {
    if v != [] {
      assert v[0] in v;
      assert forall c :: c in v[1..] ==> c in v;
      ExpandLiteral(v[1..], matched, before, after);
      assert [v[0]] + v[1..] == v;
    }
  }

  /**
   * replaceAll over the unscanned part `rest` of a string whose scanned part
   * is `before`: matches are found left to right and do not overlap, and the
   * `$` patterns see the text before and after each match.
   */
  function ReplaceAllFrom(before: string, rest: string, pat: string, v: string): string
    requires |pat| > 0
    decreases |rest|
  {
    if |rest| < |pat| then rest
    else if rest[..|pat|] == pat then
      Expand(v, pat, before, rest[|pat|..]) + ReplaceAllFrom(before + pat, rest[|pat|..], pat, v)
    else [rest[0]] + ReplaceAllFrom(before + [rest[0]], rest[1..], pat, v)
  }

  /** `s.replaceAll(pat, v)` for a non-empty string pattern. */
  function ReplaceAll(s: string, pat: string, v: string): string
    requires |pat| > 0
  {
    ReplaceAllFrom([], s, pat, v)
  }

  /** Literal replacement, scanning the string from the front. */
  function ReplaceLiteral(s: string, pat: string, v: string): (r: string)
    requires |pat| > 0
    decreases |s|
  {
    if |s| < |pat| then s
    else if s[..|pat|] == pat then v + ReplaceLiteral(s[|pat|..], pat, v)
    else [s[0]] + ReplaceLiteral(s[1..], pat, v)
  }

  lemma {:induction false} ReplaceAllFromLiteral(before: string, rest: string, pat: string, v: string)
    requires |pat| > 0 && '$' !in v
    ensures ReplaceAllFrom(before, rest, pat, v) == ReplaceLiteral(rest, pat, v)
    decreases |rest|
  {
    if |rest| < |pat| {
    } else if rest[..|pat|] == pat {
      ExpandLiteral(v, pat, before, rest[|pat|..]);
      ReplaceAllFromLiteral(before + pat, rest[|pat|..], pat, v);
    } else {
      ReplaceAllFromLiteral(before + [rest[0]], rest[1..], pat, v);
    }
  }

  /** Without `$` in the value, replaceAll is plain literal substitution. */
  lemma ReplaceAllIsLiteral(s: string, pat: string, v: string)
    requires |pat| > 0 && '$' !in v
    ensures ReplaceAll(s, pat, v) == ReplaceLiteral(s, pat, v)
  {
    ReplaceAllFromLiteral([], s, pat, v);
  }

  /** A string long enough for the pattern but without it: no match at 0, none in the tail. */
  lemma AbsentTail(s: string, pat: string)
    requires |pat| > 0 && |s| >= |pat| && !Contains(s, pat)
    ensures s[..|pat|] != pat && !Contains(s[1..], pat)
  {
    ContainsIff(s, pat);
    assert !OccursAt(s, pat, 0);
    assert s[..|pat|] == s[0..|pat|];
    forall i: nat ensures !OccursAt(s[1..], pat, i) {
      assert !OccursAt(s, pat, i + 1);
      if i + |pat| <= |s[1..]| {
        assert s[1..][i..i + |pat|] == s[i + 1..i + 1 + |pat|];
      }
    }
    ContainsIff(s[1..], pat);
  }

  /** A string without an occurrence of the pattern is left as it is. */
  lemma {:induction false} ReplaceLiteralAbsent(s: string, pat: string, v: string)
    requires |pat| > 0 && !Contains(s, pat)
    ensures ReplaceLiteral(s, pat, v) == s
    decreases |s|
  {
    if |s| >= |pat| {
      AbsentTail(s, pat);
      ReplaceLiteralAbsent(s[1..], pat, v);
      assert [s[0]] + s[1..] == s;
    }
  }

  lemma {:induction false} ReplaceAllFromAbsent(before: string, rest: string, pat: string, v: string)
    requires |pat| > 0 && !Contains(rest, pat)
    ensures ReplaceAllFrom(before, rest, pat, v) == rest
    decreases |rest|
  {
    if |rest| >= |pat| {
      AbsentTail(rest, pat);
      ReplaceAllFromAbsent(before + [rest[0]], rest[1..], pat, v);
      assert [rest[0]] + rest[1..] == rest;
    }
  }

  /** replaceAll leaves a string without the pattern unchanged, whatever the value. */
  lemma ReplaceAllAbsent(s: string, pat: string, v: string)
    requires |pat| > 0 && !Contains(s, pat)
    ensures ReplaceAll(s, pat, v) == s
  {
    ReplaceAllFromAbsent([], s, pat, v);
  }

  /**
   * The first occurrence is replaced and the scan resumes right after it:
   * with `a` free of any occurrence that starts before the one at |a|, the
   * result is `a`, then `v`, then the replacement of the rest.
   */
  lemma {:induction false} ReplaceLiteralFirst(a: string, pat: string, b: string, v: string)
    requires |pat| > 0
    requires forall j :: 0 <= j < |a| ==> !OccursAt(a + pat + b, pat, j)
    ensures ReplaceLiteral(a + pat + b, pat, v) == a + v + ReplaceLiteral(b, pat, v)
    decreases |a|
  {
    var s := a + pat + b;
    if a == [] {
      assert s == pat + b;
      assert s[..|pat|] == pat;
      assert s[|pat|..] == b;
    } else {
      assert !OccursAt(s, pat, 0);
      assert s[..|pat|] == s[0..|pat|];
      assert s[1..] == a[1..] + pat + b;
      NoOccurrenceInTail(a, pat, b);
      assert ReplaceLiteral(s, pat, v) == [a[0]] + ReplaceLiteral(a[1..] + pat + b, pat, v);
      ReplaceLiteralFirst(a[1..], pat, b, v);
      assert [a[0]] + (a[1..] + v + ReplaceLiteral(b, pat, v)) == ([a[0]] + a[1..]) + v + ReplaceLiteral(b, pat, v);
      assert [a[0]] + a[1..] == a;
    }
  }

  /** No occurrence of `pat` in `a + p + b` overlaps `p` (or, with `p` empty, straddles `a` and `b`). */
  predicate NoneOverlaps(a: string, p: string, b: string, pat: string)
  {
    forall i :: 0 <= i < |a| + |p| && |a| < i + |pat| ==> !OccursAt(a + p + b, pat, i)
  }

  /** An occurrence in a suffix is an occurrence in the whole string, shifted. */
  lemma OccursShift(s: string, k: nat, pat: string, i: nat)
    requires k <= |s|
    ensures OccursAt(s[k..], pat, i) <==> OccursAt(s, pat, i + k)
  {
    if i + |pat| <= |s| - k {
      assert s[k..][i..i + |pat|] == s[i + k..i + k + |pat|];
    }
  }

  /** Dropping the first `k` characters of `a` keeps the piece unoverlapped. */
  lemma NoneOverlapsDrop(a: string, p: string, b: string, pat: string, k: nat)
    requires NoneOverlaps(a, p, b, pat) && k <= |a|
    ensures NoneOverlaps(a[k..], p, b, pat)
  {
    var s := a + p + b;
    assert s[k..] == a[k..] + p + b;
    forall i | 0 <= i < |a[k..]| + |p| && |a[k..]| < i + |pat|
      ensures !OccursAt(a[k..] + p + b, pat, i)
    {
      OccursShift(s, k, pat, i);
    }
  }

  /** Dropping the first character of a piece with nothing before it keeps it unoverlapped. */
  lemma NoneOverlapsPieceTail(p: string, b: string, pat: string)
    requires NoneOverlaps([], p, b, pat) && p != []
    ensures NoneOverlaps([], p[1..], b, pat)
  {
    var s := [] + p + b;
    assert s[1..] == [] + p[1..] + b;
    forall i | 0 <= i < |p[1..]| && 0 < i + |pat|
      ensures !OccursAt([] + p[1..] + b, pat, i)
    {
      OccursShift(s, 1, pat, i);
    }
  }

  /**
   * Literal replacement around a piece `p` that no occurrence of the pattern
   * overlaps: the text before and the text after are replaced on their own
   * and `p` is kept as it is.
   */
  lemma {:induction false} ReplaceLiteralAround(a: string, p: string, b: string, pat: string, v: string)
    requires |pat| > 0 && NoneOverlaps(a, p, b, pat)
    ensures ReplaceLiteral(a + p + b, pat, v) == ReplaceLiteral(a, pat, v) + p + ReplaceLiteral(b, pat, v)
    decreases |a| + |p|, 1
  {
    var s := a + p + b;
    if |s| < |pat| {
    } else if a == [] && p == [] {
      assert s == b;
    } else if s[..|pat|] == pat {
      AroundMatch(a, p, b, pat, v);
    } else if a != [] {
      AroundSkipBefore(a, p, b, pat, v);
    } else {
      AroundSkipPiece(p, b, pat, v);
    }
  }

  /** The scan finds the pattern at the front of `a`. */
  lemma {:induction false} AroundMatch(a: string, p: string, b: string, pat: string, v: string)
    requires |pat| > 0 && NoneOverlaps(a, p, b, pat) && |a| + |p| > 0
    requires |a + p + b| >= |pat| && (a + p + b)[..|pat|] == pat
    ensures ReplaceLiteral(a + p + b, pat, v) == ReplaceLiteral(a, pat, v) + p + ReplaceLiteral(b, pat, v)
    decreases |a| + |p|, 0
  {
    var s := a + p + b;
    assert OccursAt(s, pat, 0);
    var a2 := a[|pat|..];
    var x := ReplaceLiteral(a2, pat, v);
    var y := ReplaceLiteral(b, pat, v);
    assert ReplaceLiteral(s, pat, v) == v + (x + p + y) by {
      assert s[|pat|..] == a2 + p + b;
      NoneOverlapsDrop(a, p, b, pat, |pat|);
      ReplaceLiteralAround(a2, p, b, pat, v);
    }
    assert ReplaceLiteral(a, pat, v) == v + x by {
      assert a[..|pat|] == s[..|pat|];
    }
    assert v + (x + p + y) == (v + x) + p + y;
  }

  /** The scan passes over the first character of `a`. */
  lemma {:induction false} AroundSkipBefore(a: string, p: string, b: string, pat: string, v: string)
    requires |pat| > 0 && NoneOverlaps(a, p, b, pat) && a != []
    requires |a + p + b| >= |pat| && (a + p + b)[..|pat|] != pat
    ensures ReplaceLiteral(a + p + b, pat, v) == ReplaceLiteral(a, pat, v) + p + ReplaceLiteral(b, pat, v)
    decreases |a| + |p|, 0
  {
    var s := a + p + b;
    var x := ReplaceLiteral(a[1..], pat, v);
    var y := ReplaceLiteral(b, pat, v);
    assert ReplaceLiteral(s, pat, v) == [a[0]] + (x + p + y) by {
      assert s[1..] == a[1..] + p + b;
      NoneOverlapsDrop(a, p, b, pat, 1);
      ReplaceLiteralAround(a[1..], p, b, pat, v);
    }
    assert ReplaceLiteral(a, pat, v) == [a[0]] + x by {
      if |a| >= |pat| {
        assert a[..|pat|] == s[..|pat|];
      } else {
        assert [a[0]] + a[1..] == a;
      }
    }
    assert [a[0]] + (x + p + y) == ([a[0]] + x) + p + y;
  }

  /** With nothing before it, the scan passes over the first character of the piece. */
  lemma {:induction false} AroundSkipPiece(p: string, b: string, pat: string, v: string)
    requires |pat| > 0 && NoneOverlaps([], p, b, pat) && p != []
    requires |p + b| >= |pat| && (p + b)[..|pat|] != pat
    ensures ReplaceLiteral([] + p + b, pat, v) == ReplaceLiteral([], pat, v) + p + ReplaceLiteral(b, pat, v)
    decreases |p|, 0
  {
    var s := [] + p + b;
    var y := ReplaceLiteral(b, pat, v);
    assert ReplaceLiteral(s, pat, v) == [p[0]] + (p[1..] + y) by {
      assert s[1..] == [] + p[1..] + b;
      NoneOverlapsPieceTail(p, b, pat);
      ReplaceLiteralAround([], p[1..], b, pat, v);
      assert ReplaceLiteral([], pat, v) == [];
    }
    assert ReplaceLiteral([], pat, v) == [];
    assert [p[0]] + (p[1..] + y) == [] + p + y;
  }

  /** Dropping the first character keeps the earliest occurrence the earliest. */
  lemma NoOccurrenceInTail(a: string, pat: string, b: string)
    requires |pat| > 0 && a != []
    requires forall j :: 0 <= j < |a| ==> !OccursAt(a + pat + b, pat, j)
    ensures forall j :: 0 <= j < |a[1..]| ==> !OccursAt(a[1..] + pat + b, pat, j)
  {
    var s := a + pat + b;
    assert s[1..] == a[1..] + pat + b;
    forall j | 0 <= j < |a[1..]| ensures !OccursAt(a[1..] + pat + b, pat, j) {
      assert !OccursAt(s, pat, j + 1);
      assert s[j + 1..j + 1 + |pat|] == (a[1..] + pat + b)[j..j + |pat|];
    }
  }

  /** Replacing a pattern by itself changes nothing. */
  lemma {:induction false} ReplaceLiteralSelf(s: string, pat: string)
    requires |pat| > 0
    ensures ReplaceLiteral(s, pat, pat) == s
    decreases |s|
  {
    if |s| < |pat| {
    } else if s[..|pat|] == pat {
      ReplaceLiteralSelf(s[|pat|..], pat);
      assert s[..|pat|] + s[|pat|..] == s;
    } else {
      ReplaceLiteralSelf(s[1..], pat);
      assert [s[0]] + s[1..] == s;
    }
  }
}
