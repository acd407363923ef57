/** Python `str` operations used by the chat system, on `string` (a sequence of
    Unicode scalar values). Each function follows the CPython method it names. */
module Strings {

  datatype Option<T> = None | Some(value: T)

  /** The characters for which Python's `str.isspace()` (and the `\s` class of
      its `re` module on `str` patterns) is true. */
  predicate IsSpace(c: char) {
    c == ' ' || ('\t' <= c <= '\r') || ('\U{1c}' <= c <= '\U{1f}') ||
    c == '\U{85}' || c == '\U{a0}' || c == '\U{1680}' ||
    ('\U{2000}' <= c <= '\U{200a}') || c == '\U{2028}' || c == '\U{2029}' ||
    c == '\U{202f}' || c == '\U{205f}' || c == '\U{3000}'
  }

  predicate IsDigit(c: char) {
    '0' <= c <= '9'
  }

  predicate StartsWith(s: string, p: string) {
    |p| <= |s| && s[..|p|] == p
  }

  /** `pat` occurs in `s` starting at index `j`. */
  predicate OccursAt(s: string, pat: string, j: nat) {
    j + |pat| <= |s| && s[j..j + |pat|] == pat
  }

  // ---------------------------------------------------------------- strip

  /** `s.lstrip()`: drops the leading whitespace. */
  function LStrip(s: string): (r: string)
    ensures |r| <= |s| && r == s[|s| - |r|..]
    ensures forall i :: 0 <= i < |s| - |r| ==> IsSpace(s[i])
    ensures r == [] || !IsSpace(r[0])
  {
    if s != [] && IsSpace(s[0]) then
      var r := LStrip(s[1..]);
      assert s[1..][|s| - 1 - |r|..] == s[|s| - |r|..];
      r
    else s
  }

  /** `s.rstrip()`: drops the trailing whitespace. */
  function RStrip(s: string): (r: string)
    ensures |r| <= |s| && r == s[..|r|]
    ensures forall i :: |r| <= i < |s| ==> IsSpace(s[i])
    ensures r == [] || !IsSpace(r[|r| - 1])
  {
    if s != [] && IsSpace(s[|s| - 1]) then
      var r := RStrip(s[..|s| - 1]);
      assert s[..|s| - 1][..|r|] == s[..|r|];
      r
    else s
  }

  /** `s.strip()`. */
  function Strip(s: string): string {
    RStrip(LStrip(s))
  }

  /** Stripping removes exactly surrounding whitespace: the result is a
      contiguous piece of `s`, everything cut off is whitespace, and the result
      neither starts nor ends with whitespace. */
  lemma StripSpec(s: string) returns (k: nat, t: string)
    ensures t == Strip(s)
    ensures k + |t| <= |s| && t == s[k..k + |t|]
    ensures forall i :: 0 <= i < k ==> IsSpace(s[i])
    ensures forall i :: k + |t| <= i < |s| ==> IsSpace(s[i])
    ensures t == [] || (!IsSpace(t[0]) && !IsSpace(t[|t| - 1]))
  {
    var l := LStrip(s);
    t := RStrip(l);
    k := |s| - |l|;
    StripPieces(s, l, t);
  }

  /** The argument of `StripSpec` over the two halves, kept apart from the
      recursive definitions. */
  lemma StripPieces(s: string, l: string, r: string)
    requires |l| <= |s| && l == s[|s| - |l|..]
    requires forall i :: 0 <= i < |s| - |l| ==> IsSpace(s[i])
    requires l == [] || !IsSpace(l[0])
    requires |r| <= |l| && r == l[..|r|]
    requires forall i :: |r| <= i < |l| ==> IsSpace(l[i])
    requires r == [] || !IsSpace(r[|r| - 1])
    ensures var k := |s| - |l|; k + |r| <= |s| && r == s[k..k + |r|]
    ensures forall i :: |s| - |l| + |r| <= i < |s| ==> IsSpace(s[i])
    ensures r == [] || (!IsSpace(r[0]) && !IsSpace(r[|r| - 1]))
  {
    var k := |s| - |l|;
    forall i | k + |r| <= i < |s| ensures IsSpace(s[i]) {
      assert s[i] == l[i - k];
    }
    if r != [] {
      assert r[0] == l[0];
    }
  }

  /** A string without surrounding whitespace is its own strip. */
  lemma StripNoSpace(s: string)
    requires s == [] || (!IsSpace(s[0]) && !IsSpace(s[|s| - 1]))
    ensures Strip(s) == s
  {
  }

  /** Leading whitespace never changes the strip. */
  lemma StripLeadingSpace(w: string, s: string)
    requires forall i :: 0 <= i < |w| ==> IsSpace(w[i])
    ensures Strip(w + s) == Strip(s)
  {
    LStripLeadingSpace(w, s);
  }

  lemma {:induction false} LStripLeadingSpace(w: string, s: string)
    requires forall i :: 0 <= i < |w| ==> IsSpace(w[i])
    ensures LStrip(w + s) == LStrip(s)
  {
    if w == [] {
      assert w + s == s;
    } else {
      var t := w + s;
      var w' := w[1..];
      assert IsSpace(t[0]) by { assert t[0] == w[0]; }
      assert t[1..] == w' + s;
      forall i | 0 <= i < |w'| ensures IsSpace(w'[i]) { assert w'[i] == w[i + 1]; }
      LStripLeadingSpace(w', s);
    }
  }

  // ---------------------------------------------------------------- search

  /** `s.find(pat, i)` when it succeeds: the first occurrence at or after `i`. */
  function FindFrom(s: string, pat: string, i: nat): (r: Option<nat>)
    requires i <= |s|
    ensures r.Some? ==> i <= r.value && OccursAt(s, pat, r.value)
    ensures r.Some? ==> forall j :: i <= j < r.value ==> !OccursAt(s, pat, j)
    ensures r.None? ==> forall j :: i <= j <= |s| ==> !OccursAt(s, pat, j)
    decreases |s| - i
  {
    if i + |pat| > |s| then None
    else if s[i..i + |pat|] == pat then Some(i)
    else if i == |s| then None
    else FindFrom(s, pat, i + 1)
  }

  /** `s.find(pat)`, with `None` for -1. */
  function Find(s: string, pat: string): Option<nat> {
    FindFrom(s, pat, 0)
  }

  /** `pat in s`. */
  predicate Contains(s: string, pat: string) {
    Find(s, pat).Some?
  }

  lemma ContainsIff(s: string, pat: string)
    ensures Contains(s, pat) <==> exists j :: OccursAt(s, pat, j)
  {
    if exists j :: OccursAt(s, pat, j) {
      var j: nat :| OccursAt(s, pat, j);
      assert j <= |s|;
    }
  }

  /** Index of the first `c` in `s`, if any. */
  function IndexOf(s: string, c: char): (r: Option<nat>)
    ensures r.Some? ==> r.value < |s| && s[r.value] == c && c !in s[..r.value]
    ensures r.None? <==> c !in s
  {
    if c !in s then None
    else if s[0] == c then Some(0)
    else
      var k := IndexOf(s[1..], c).value;
      assert s[..k + 1] == [s[0]] + s[1..][..k];
      Some(k + 1)
  }

  /** The text before the first `c`, or all of `s` when `c` is absent:
      `s.split(c)[0]` and the head of `s.partition(c)`. */
  function Before(s: string, c: char): (r: string)
    ensures c !in r && StartsWith(s, r)
    ensures c in s ==> |r| < |s| && s[|r|] == c
    ensures c !in s ==> r == s
  {
    match IndexOf(s, c)
    case None => s
    case Some(k) => s[..k]
  }

  /** The text after the first `c` (`s.split(c, 1)[1]`), requires `c in s`. */
  function After(s: string, c: char): (r: string)
    requires c in s
    ensures s == Before(s, c) + [c] + r
  {
    s[IndexOf(s, c).value + 1..]
  }

  // ---------------------------------------------------------------- split

  /** `s.split(sep)` for a one-character separator. */
  function Split(s: string, sep: char): (r: seq<string>)
    ensures |r| >= 1
    ensures forall i :: 0 <= i < |r| ==> sep !in r[i]
    ensures Join(r, sep) == s
    decreases |s|
  {
    if sep !in s then [s]
    else [Before(s, sep)] + Split(After(s, sep), sep)
  }

  /** `sep.join(parts)`. */
  function Join(parts: seq<string>, sep: char): string {
    if parts == [] then []
    else if |parts| == 1 then parts[0]
    else parts[0] + [sep] + Join(parts[1..], sep)
  }

  /** Splitting is the inverse of joining pieces that do not contain the
      separator. */
  lemma {:induction false} SplitJoin(parts: seq<string>, sep: char)
    requires |parts| >= 1
    requires forall i :: 0 <= i < |parts| ==> sep !in parts[i]
    ensures Split(Join(parts, sep), sep) == parts
  {
    if |parts| > 1 {
      var s := Join(parts, sep);
      var rest := Join(parts[1..], sep);
      assert s == parts[0] + [sep] + rest;
      assert sep in s by { assert s[|parts[0]|] == sep; }
      BeforeOfJoin(parts[0], sep, rest);
      SplitJoin(parts[1..], sep);
    }
  }

  lemma BeforeOfJoin(a: string, sep: char, b: string)
    requires sep !in a
    ensures sep in a + [sep] + b
    ensures Before(a + [sep] + b, sep) == a && After(a + [sep] + b, sep) == b
  {
    var s := a + [sep] + b;
    assert s[|a|] == sep;
    var k := IndexOf(s, sep).value;
    assert s[..|a|] == a;
    assert k <= |a| ==> s[..k] == a[..k];
  }

  // ---------------------------------------------------------------- replace

  /** `s.replace(pat, rep)`: every non-overlapping occurrence, left to right. */
  function ReplaceAll(s: string, pat: string, rep: string): string
    requires pat != []
    decreases |s|
  {
    if |s| < |pat| then s
    else if s[..|pat|] == pat then rep + ReplaceAll(s[|pat|..], pat, rep)
    else [s[0]] + ReplaceAll(s[1..], pat, rep)
  }

  /** Replacing a pattern that does not occur changes nothing. */
  lemma {:induction false} ReplaceAbsent(s: string, pat: string, rep: string)
    requires pat != []
    requires !Contains(s, pat)
    ensures ReplaceAll(s, pat, rep) == s
  {
    if |s| >= |pat| {
      assert !OccursAt(s, pat, 0);
      assert s[..|pat|] != pat;
      ShiftNoOccurrence(s, pat);
      ReplaceAbsent(s[1..], pat, rep);
    }
  }

  lemma ShiftNoOccurrence(s: string, pat: string)
    requires s != [] && !Contains(s, pat)
    ensures !Contains(s[1..], pat)
  {
    if Contains(s[1..], pat) {
      ContainsIff(s[1..], pat);
      var j: nat :| OccursAt(s[1..], pat, j);
      assert s[j + 1..j + 1 + |pat|] == s[1..][j..j + |pat|];
      assert OccursAt(s, pat, j + 1);
      ContainsIff(s, pat);
    }
  }

  /** When the pattern occurs, the replacement text occurs in the result. */
  lemma {:induction false} ReplacePresent(s: string, pat: string, rep: string)
    requires pat != []
    requires Contains(s, pat)
    ensures Contains(ReplaceAll(s, pat, rep), rep)
  {
    if s[..|pat|] == pat {
      assert OccursAt(ReplaceAll(s, pat, rep), rep, 0);
      ContainsIff(ReplaceAll(s, pat, rep), rep);
    } else {
      ContainsIff(s, pat);
      var j: nat :| OccursAt(s, pat, j);
      assert j != 0;
      assert s[1..][j - 1..j - 1 + |pat|] == s[j..j + |pat|];
      assert OccursAt(s[1..], pat, j - 1);
      ContainsIff(s[1..], pat);
      ReplacePresent(s[1..], pat, rep);
      var t := ReplaceAll(s[1..], pat, rep);
      ContainsIff(t, rep);
      var k: nat :| OccursAt(t, rep, k);
      assert ([s[0]] + t)[k + 1..k + 1 + |rep|] == t[k..k + |rep|];
      assert OccursAt([s[0]] + t, rep, k + 1);
      ContainsIff([s[0]] + t, rep);
    }
  }

  /** Replacing at the first occurrence: the text before it is kept, the
      occurrence becomes the replacement, and the rest is replaced on its
      own. */
  lemma {:induction false} ReplaceAtFirst(a: string, pat: string, rep: string, b: string)
    requires pat != []
    requires forall j :: 0 <= j < |a| ==> !OccursAt(a + pat + b, pat, j)
    ensures ReplaceAll(a + pat + b, pat, rep) == a + rep + ReplaceAll(b, pat, rep)
  {
    var s := a + pat + b;
    if a == [] {
      assert s == pat + b;
      assert s[..|pat|] == pat && s[|pat|..] == b;
    } else {
      assert !OccursAt(s, pat, 0);
      assert s[1..] == a[1..] + pat + b;
      forall j | 0 <= j < |a[1..]| ensures !OccursAt(a[1..] + pat + b, pat, j) {
        assert !OccursAt(s, pat, j + 1);
        assert s[j + 1..j + 1 + |pat|] == s[1..][j..j + |pat|];
      }
      ReplaceAtFirst(a[1..], pat, rep, b);
      assert [a[0]] + (a[1..] + rep + ReplaceAll(b, pat, rep)) == a + rep + ReplaceAll(b, pat, rep);
    }
  }

  // ---------------------------------------------------------------- lines

  /** The line boundaries of Python's `str.splitlines()`. */
  predicate IsLineBreak(c: char) {
    c == '\n' || c == '\r' || c == '\U{b}' || c == '\U{c}' ||
    c == '\U{1c}' || c == '\U{1d}' || c == '\U{1e}' || c == '\U{85}' ||
    c == '\U{2028}' || c == '\U{2029}'
  }

  /** Length of the leading run of characters that are not line boundaries. */
  function LineLength(s: string): (k: nat)
    ensures k <= |s|
    ensures forall i :: 0 <= i < k ==> !IsLineBreak(s[i])
    ensures k < |s| ==> IsLineBreak(s[k])
  {
    if s == [] || IsLineBreak(s[0]) then 0 else 1 + LineLength(s[1..])
  }

  /** `s.splitlines()`: `\r\n` counts as one boundary, no trailing empty line. */
  function SplitLines(s: string): (r: seq<string>)
    ensures forall i, j :: 0 <= i < |r| && 0 <= j < |r[i]| ==> !IsLineBreak(r[i][j])
    decreases |s|
  {
    if s == [] then []
    else
      var k := LineLength(s);
      if k == |s| then [s]
      else
        var w := if s[k] == '\r' && k + 1 < |s| && s[k + 1] == '\n' then 2 else 1;
        [s[..k]] + SplitLines(s[k + w..])
  }

  /** A line without boundaries followed by `\r\n` is split off whole. */
  lemma SplitLinesCRLF(a: string, b: string)
    requires forall i :: 0 <= i < |a| ==> !IsLineBreak(a[i])
    ensures SplitLines(a + "\r\n" + b) == [a] + SplitLines(b)
  {
    var s := a + "\r\n" + b;
    LineLengthBreak(a, "\r\n" + b);
    assert s == a + ("\r\n" + b);
    assert s[|a|] == '\r' && s[|a| + 1] == '\n';
    assert s[..|a|] == a;
    assert s[|a| + 2..] == b;
  }

  lemma {:induction false} LineLengthBreak(a: string, t: string)
    requires forall i :: 0 <= i < |a| ==> !IsLineBreak(a[i])
    requires t != [] && IsLineBreak(t[0])
    ensures LineLength(a + t) == |a|
  {
    if a == [] {
      assert a + t == t;
    } else {
      assert (a + t)[0] == a[0];
      assert (a + t)[1..] == a[1..] + t;
      LineLengthBreak(a[1..], t);
    }
  }

  // ---------------------------------------------------------------- integers

  function DigitValue(c: char): nat
    requires IsDigit(c)
  {
    (c as int - '0' as int) as nat
  }

  /** Decimal value of a run of digits and underscores, underscores ignored. */
  function DigitsValue(s: string): nat
    requires forall i :: 0 <= i < |s| ==> IsDigit(s[i]) || s[i] == '_'
  {
    if s == [] then 0
    else if s[|s| - 1] == '_' then DigitsValue(s[..|s| - 1])
    else 10 * DigitsValue(s[..|s| - 1]) + DigitValue(s[|s| - 1])
  }

  /** The digit part accepted by `int(text)` in base 10: digits, with single
      underscores allowed between digits. */
  predicate ValidDigits(s: string) {
    s != [] && IsDigit(s[0]) && IsDigit(s[|s| - 1]) &&
    (forall i :: 0 <= i < |s| ==> IsDigit(s[i]) || s[i] == '_') &&
    (forall i :: 0 <= i < |s| - 1 ==> !(s[i] == '_' && s[i + 1] == '_'))
  }

  /** Python's `int(text)` on a `str`: surrounding whitespace, an optional sign,
      then digits; `None` where Python raises `ValueError`. */
  function PyInt(text: string): Option<int> {
    SignedValue(Strip(text))
  }

  /** `int(t)` once the whitespace is gone: an optional sign, then digits. */
  function SignedValue(t: string): Option<int> {
    if t == [] then None
    else if t[0] == '-' then Negated(DigitsPart(t[1..]))
    else if t[0] == '+' then DigitsPart(t[1..])
    else DigitsPart(t)
  }

  function DigitsPart(digits: string): Option<int> {
    if ValidDigits(digits) then Some(DigitsValue(digits) as int) else None
  }

  function Negated(v: Option<int>): Option<int> {
    if v.Some? then Some(-v.value) else None
  }

  /** `str(n)` for a natural number. */
  function Decimal(n: nat): (r: string)
    ensures r != [] && IsDigit(r[0]) && IsDigit(r[|r| - 1])
    ensures forall i :: 0 <= i < |r| ==> IsDigit(r[i])
  {
    if n < 10 then [('0' as int + n) as char]
    else Decimal(n / 10) + [('0' as int + n % 10) as char]
  }

  /** `str(i)` for any integer. */
  function IntToString(i: int): string {
    if i < 0 then "-" + Decimal(-i) else Decimal(i)
  }

  lemma {:induction false} DecimalValue(n: nat)
    ensures DigitsValue(Decimal(n)) == n
  {
    var r := Decimal(n);
    if n >= 10 {
      assert r[..|r| - 1] == Decimal(n / 10);
      DecimalValue(n / 10);
    }
  }

  /** `int(str(i)) == i`: the decimal rendering parses back. */
  lemma IntRoundTrip(i: int)
    ensures PyInt(IntToString(i)) == Some(i)
  {
    var s := IntToString(i);
    if i < 0 {
      NegativeShape(i);
      NegativeParses(s);
      DecimalValue(-i);
      assert DigitsValue(s[1..]) == -i;
    } else {
      PlainParses(s);
      DecimalValue(i);
      assert DigitsValue(s) == i;
    }
    assert PyInt(s) == Some(i);
  }

  lemma NegativeShape(i: int)
    requires i < 0
    ensures var s := IntToString(i);
      |s| >= 2 && s[0] == '-' && s[1..] == Decimal(-i) &&
      forall k :: 1 <= k < |s| ==> IsDigit(s[k])
  {
    var d := Decimal(-i);
    var s := "-" + d;
    assert s[1..] == d;
    forall k | 1 <= k < |s| ensures IsDigit(s[k]) { assert s[k] == d[k - 1]; }
  }

  lemma PlainParses(d: string)
    requires d != [] && forall k :: 0 <= k < |d| ==> IsDigit(d[k])
    ensures PyInt(d) == Some(DigitsValue(d) as int)
  {
    NoSpaceAround(d);
    DigitsAccepted(d);
    assert d[0] != '-' && d[0] != '+';
    assert SignedValue(d) == DigitsPart(d);
  }

  lemma NegativeParses(s: string)
    requires |s| >= 2 && s[0] == '-'
    requires forall k :: 1 <= k < |s| ==> IsDigit(s[k])
    ensures PyInt(s) == Some(-(DigitsValue(s[1..]) as int))
  {
    SignNoSpaceAround(s);
    DigitsAccepted(s[1..]);
  }

  lemma SignNoSpaceAround(s: string)
    requires |s| >= 2 && s[0] == '-' && IsDigit(s[|s| - 1])
    ensures Strip(s) == s
  {
    StripNoSpace(s);
  }

  lemma NoSpaceAround(d: string)
    requires d != [] && forall k :: 0 <= k < |d| ==> IsDigit(d[k])
    ensures Strip(d) == d
  {
    assert IsDigit(d[0]) && IsDigit(d[|d| - 1]);
    StripNoSpace(d);
  }

  lemma DigitsAccepted(d: string)
    requires d != [] && forall k :: 0 <= k < |d| ==> IsDigit(d[k])
    ensures DigitsPart(d) == Some(DigitsValue(d) as int)
  {
    assert ValidDigits(d);
  }
}
