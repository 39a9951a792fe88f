/**
 * JavaScript string primitives that the dashboard's text handling is built on:
 * the `\s` character class, `trim`, `split`/`join`, `indexOf`, `toLowerCase`,
 * `toUpperCase`, number-to-text conversion and `parseInt`.
 */
module Strings {

  datatype Option<T> = None | Some(value: T)

  /** JavaScript's WhiteSpace and LineTerminator code points: what `\s` matches and what `trim` removes. */
  predicate IsSpace(c: char) {
    || c == ' ' || c == '\t' || c == '\n' || c == '\r' || c == '\U{B}' || c == '\U{C}'
    || c == '\U{A0}' || c == '\U{1680}' || ('\U{2000}' <= c <= '\U{200A}')
    || c == '\U{2028}' || c == '\U{2029}' || c == '\U{202F}' || c == '\U{205F}'
    || c == '\U{3000}' || c == '\U{FEFF}'
  }

  /** The characters that `.` does not match in a JavaScript regular expression. */
  predicate IsLineTerminator(c: char) {
    c == '\n' || c == '\r' || c == '\U{2028}' || c == '\U{2029}'
  }

  predicate IsDigit(c: char) { '0' <= c <= '9' }

  /** `[a-z0-9]` */
  predicate IsLowerAlnum(c: char) { 'a' <= c <= 'z' || IsDigit(c) }

  /** `\w` */
  predicate IsWordChar(c: char) { 'a' <= c <= 'z' || 'A' <= c <= 'Z' || IsDigit(c) || c == '_' }

  predicate AllSpace(s: string) { forall i :: 0 <= i < |s| ==> IsSpace(s[i]) }

  predicate NoLineTerminator(s: string) { forall i :: 0 <= i < |s| ==> !IsLineTerminator(s[i]) }

  function LowerChar(c: char): char { if 'A' <= c <= 'Z' then (c as int + 32) as char else c }

  function UpperChar(c: char): char { if 'a' <= c <= 'z' then (c as int - 32) as char else c }

  /** `toLowerCase`, on the ASCII letters. */
  function Lower(s: string): (r: string)
    ensures |r| == |s|
    ensures forall i :: 0 <= i < |s| ==> r[i] == LowerChar(s[i])
  {
    seq(|s|, i requires 0 <= i < |s| => LowerChar(s[i]))
  }

  /** `toUpperCase`, on the ASCII letters. */
  function Upper(s: string): (r: string)
    ensures |r| == |s|
    ensures forall i :: 0 <= i < |s| ==> r[i] == UpperChar(s[i])
  {
    seq(|s|, i requires 0 <= i < |s| => UpperChar(s[i]))
  }

  /** `replace(/[^a-z0-9]/g, c)` */
  function ReplaceNonAlnum(s: string, c: char): (r: string)
    ensures |r| == |s|
    ensures forall i :: 0 <= i < |s| ==> r[i] == if IsLowerAlnum(s[i]) then s[i] else c
  {
    seq(|s|, i requires 0 <= i < |s| => if IsLowerAlnum(s[i]) then s[i] else c)
  }

  /** The first index at or after `i` that does not hold white space, or `|s|`. */
  function SkipSpace(s: string, i: nat): (k: nat)
    requires i <= |s|
    ensures i <= k <= |s| && (k == |s| || !IsSpace(s[k]))
    decreases |s| - i
  {
    if i < |s| && IsSpace(s[i]) then SkipSpace(s, i + 1) else i
  }

  /** The end of `s[lo..hi]` once its trailing white space is dropped. */
  function SkipSpaceBack(s: string, lo: nat, hi: nat): (k: nat)
    requires lo <= hi <= |s|
    ensures lo <= k <= hi && (k == lo || !IsSpace(s[k - 1]))
    ensures lo < hi && !IsSpace(s[lo]) ==> lo < k
    decreases hi
  {
    if hi > lo && IsSpace(s[hi - 1]) then SkipSpaceBack(s, lo, hi - 1) else hi
  }

  /** `trim`: the white space at both ends dropped; the result neither starts nor ends with white space. */
  function Trim(s: string): (r: string)
    ensures |r| <= |s|
    ensures r == [] || (!IsSpace(r[0]) && !IsSpace(r[|r| - 1]))
  {
    var lo := SkipSpace(s, 0);
    s[lo..SkipSpaceBack(s, lo, |s|)]
  }

  /** What `SkipSpace` skips is white space. */
  lemma {:induction false} SkipSpaceSkipsSpace(s: string, i: nat)
    requires i <= |s|
    ensures AllSpace(s[i..SkipSpace(s, i)])
    decreases |s| - i
  {
    if i < |s| && IsSpace(s[i]) {
      SkipSpaceSkipsSpace(s, i + 1);
      assert s[i..SkipSpace(s, i)] == [s[i]] + s[i + 1..SkipSpace(s, i)];
      AllSpaceCons(s[i], s[i + 1..SkipSpace(s, i)]);
    }
  }

  /** What `SkipSpaceBack` drops is white space. */
  lemma {:induction false} SkipSpaceBackSkipsSpace(s: string, lo: nat, hi: nat)
    requires lo <= hi <= |s|
    ensures forall k :: SkipSpaceBack(s, lo, hi) <= k < hi ==> IsSpace(s[k])
    decreases hi
  {
    if hi > lo && IsSpace(s[hi - 1]) {
      SkipSpaceBackSkipsSpace(s, lo, hi - 1);
    }
  }

  /**
   * The trim is the middle of the input: the input is blank before it and blank after it,
   * and the trim neither starts nor ends with white space.
   */
  lemma TrimMeaning(s: string)
    ensures exists lo, hi ::
      (0 <= lo <= hi <= |s| && Trim(s) == s[lo..hi] &&
       (forall k :: 0 <= k < lo ==> IsSpace(s[k])) && (forall k :: hi <= k < |s| ==> IsSpace(s[k])))
  {
    var lo := SkipSpace(s, 0);
    var hi := SkipSpaceBack(s, lo, |s|);
    SkipSpaceSkipsSpace(s, 0);
    SkipSpaceBackSkipsSpace(s, lo, |s|);
    forall k | 0 <= k < lo
      ensures IsSpace(s[k])
    {
      assert s[0..lo][k] == s[k];
    }
    assert Trim(s) == s[lo..hi];
  }

  /** The trim is empty exactly for blank input. */
  lemma TrimBlank(s: string)
    ensures Trim(s) == [] <==> AllSpace(s)
  {
    var lo := SkipSpace(s, 0);
    SkipSpaceSkipsSpace(s, 0);
    if lo == |s| {
      assert s[0..lo] == s;
    }
  }

  /** A string with no white space at either end is its own trim. */
  lemma TrimOfTrimmed(s: string)
    requires s == [] || (!IsSpace(s[0]) && !IsSpace(s[|s| - 1]))
    ensures Trim(s) == s
  {
    if s != [] {
      assert SkipSpace(s, 0) == 0;
      assert SkipSpaceBack(s, 0, |s|) == |s|;
      assert s[0..|s|] == s;
    }
  }

  /** Trimming is idempotent. */
  lemma TrimIdempotent(s: string)
    ensures Trim(Trim(s)) == Trim(s)
  {
    TrimOfTrimmed(Trim(s));
  }

  /** Trimming adds no character. */
  lemma TrimKeepsOut(s: string, c: char)
    requires c !in s
    ensures c !in Trim(s)
  {
    var lo := SkipSpace(s, 0);
    var r := Trim(s);
    forall i | 0 <= i < |r| ensures r[i] != c {
      assert r[i] == s[lo + i];
    }
  }

  /** A string is blank exactly when its first character and the rest are. */
  lemma AllSpaceCons(c: char, r: string)
    ensures AllSpace([c] + r) <==> IsSpace(c) && AllSpace(r)
  {
    var x := [c] + r;
    assert x[0] == c;
    assert forall i :: 0 <= i < |r| ==> x[i + 1] == r[i];
    if IsSpace(c) && AllSpace(r) {
      forall i | 0 <= i < |x| ensures IsSpace(x[i]) {
        if i > 0 { assert x[i] == r[i - 1]; }
      }
    }
  }

  lemma {:induction false} SkipSpaceAppend(w: string, t: string, j: nat)
    requires j <= |t|
    ensures SkipSpace(w + t, |w| + j) == |w| + SkipSpace(t, j)
    decreases |t| - j
  {
    if j < |t| {
      assert (w + t)[|w| + j] == t[j];
      SkipSpaceAppend(w, t, j + 1);
    }
  }

  lemma {:induction false} SkipSpaceBackAppend(w: string, t: string, lo: nat, hi: nat)
    requires lo <= hi <= |t|
    ensures SkipSpaceBack(w + t, |w| + lo, |w| + hi) == |w| + SkipSpaceBack(t, lo, hi)
    decreases hi
  {
    if hi > lo {
      assert (w + t)[|w| + hi - 1] == t[hi - 1];
      SkipSpaceBackAppend(w, t, lo, hi - 1);
    }
  }

  lemma {:induction false} SkipSpacePrefix(w: string, t: string, i: nat)
    requires i <= |w| && AllSpace(w)
    ensures SkipSpace(w + t, i) == |w| + SkipSpace(t, 0)
    decreases |w| - i
  {
    if i < |w| {
      assert (w + t)[i] == w[i];
      SkipSpacePrefix(w, t, i + 1);
    } else {
      SkipSpaceAppend(w, t, 0);
    }
  }

  /** Leading white space never changes the trim. */
  lemma TrimOfSpacePrefix(w: string, t: string)
    requires AllSpace(w)
    ensures Trim(w + t) == Trim(t)
  {
    var wt := w + t;
    var lo := SkipSpace(t, 0);
    var hi := SkipSpaceBack(t, lo, |t|);
    var a := SkipSpace(wt, 0);
    assert a == |w| + lo by {
      SkipSpacePrefix(w, t, 0);
    }
    var b := SkipSpaceBack(wt, a, |wt|);
    SkipSpaceBackAppendAll(w, t, lo);
    TrimAt(wt, a, b);
    TrimAt(t, lo, hi);
    SliceOfAppend(w, t, lo, hi);
  }

  lemma SkipSpaceBackAppendAll(w: string, t: string, lo: nat)
    requires lo <= |t|
    ensures SkipSpaceBack(w + t, |w| + lo, |w + t|) == |w| + SkipSpaceBack(t, lo, |t|)
  {
    SkipSpaceBackAppend(w, t, lo, |t|);
  }

  /** The trim as the slice between the skipped ends. */
  lemma TrimAt(s: string, lo: nat, hi: nat)
    requires lo == SkipSpace(s, 0) && hi == SkipSpaceBack(s, lo, |s|)
    ensures Trim(s) == s[lo..hi]
  {
  }

  /** A trimmed text padded with one space on each side trims back to itself. */
  lemma TrimPadded(t: string)
    requires Trim(t) == t
    ensures Trim([' '] + t + [' ']) == t
  {
    var s := [' '] + t + [' '];
    if t == [] {
      assert AllSpace(s) by {
        assert forall i :: 0 <= i < |s| ==> s[i] == ' ';
      }
      TrimBlank(s);
    } else {
      assert s[0] == ' ' && s[1] == t[0] && s[|s| - 1] == ' ' && s[|s| - 2] == t[|t| - 1];
      assert SkipSpace(s, 1) == 1;
      assert SkipSpace(s, 0) == 1;
      assert SkipSpaceBack(s, 1, |s| - 1) == |s| - 1;
      assert SkipSpaceBack(s, 1, |s|) == |s| - 1;
      assert s[1..|s| - 1] == t;
    }
  }

  /** A trimmed text followed by one space trims back to itself. */
  lemma TrimSpaceAfter(t: string)
    requires Trim(t) == t
    ensures Trim(t + [' ']) == t
  {
    TrimPadded(t);
    TrimOfSpacePrefix([' '], t + [' ']);
    assert [' '] + t + [' '] == [' '] + (t + [' ']);
  }

  lemma SliceOfAppend<T>(w: seq<T>, t: seq<T>, lo: nat, hi: nat)
    requires lo <= hi <= |t|
    ensures (w + t)[|w| + lo..|w| + hi] == t[lo..hi]
  {
  }

  // ---------------------------------------------------------------- split / join

  /** `split(sep)` with a one-character separator. */
  function Split(s: string, sep: char): (parts: seq<string>)
    ensures |parts| >= 1
    decreases |s|
  {
    if s == [] then [[]]
    else
      var rest := Split(s[1..], sep);
      if s[0] == sep then [[]] + rest else [[s[0]] + rest[0]] + rest[1..]
  }

  /** `split('\n')` */
  function Lines(s: string): (parts: seq<string>)
    ensures |parts| >= 1
  {
    Split(s, '\n')
  }

  /** `join(sep)` */
  function Join(parts: seq<string>, sep: string): string
  {
    if |parts| == 0 then []
    else if |parts| == 1 then parts[0]
    else parts[0] + sep + Join(parts[1..], sep)
  }

  /** No part contains the separator. */
  lemma {:induction false} SplitParts(s: string, sep: char)
    ensures forall i :: 0 <= i < |Split(s, sep)| ==> sep !in Split(s, sep)[i]
    decreases |s|
  {
    if s != [] {
      SplitParts(s[1..], sep);
    }
  }

  /** Splitting and joining with the same separator gives back the input. */
  lemma {:induction false} JoinSplit(s: string, sep: char)
    ensures Join(Split(s, sep), [sep]) == s
    decreases |s|
  {
    if s != [] {
      var rest := Split(s[1..], sep);
      JoinSplit(s[1..], sep);
      if s[0] == sep {
        assert Split(s, sep) == [[]] + rest;
        assert (([[]] + rest)[1..]) == rest;
      } else {
        var parts := [[s[0]] + rest[0]] + rest[1..];
        assert Split(s, sep) == parts;
        if |rest| == 1 {
          assert Join(parts, [sep]) == [s[0]] + rest[0];
        } else {
          assert parts[1..] == rest[1..];
          assert Join(rest, [sep]) == rest[0] + [sep] + Join(rest[1..], [sep]);
        }
      }
    }
  }

  /** A string without the separator is a single piece. */
  lemma {:induction false} SplitWithoutSeparator(s: string, sep: char)
    requires sep !in s
    ensures Split(s, sep) == [s]
    decreases |s|
  {
    if s != [] {
      assert sep !in s[1..];
      SplitWithoutSeparator(s[1..], sep);
      assert [s[0]] + s[1..] == s;
    }
  }

  /** A separator after a separator-free prefix ends the first piece. */
  lemma {:induction false} SplitAfterPrefix(a: string, sep: char, b: string)
    requires sep !in a
    ensures Split(a + [sep] + b, sep) == [a] + Split(b, sep)
    decreases |a|
  {
    if a == [] {
      assert a + [sep] + b == [sep] + b;
      assert ([sep] + b)[1..] == b;
    } else {
      assert (a + [sep] + b)[1..] == a[1..] + [sep] + b;
      SplitAfterPrefix(a[1..], sep, b);
      var rest := Split(a[1..] + [sep] + b, sep);
      assert rest == [a[1..]] + Split(b, sep);
      assert (a + [sep] + b)[0] == a[0] != sep;
      assert Split(a + [sep] + b, sep) == [[a[0]] + rest[0]] + rest[1..];
      assert [a[0]] + a[1..] == a;
    }
  }

  /** Joining pieces that hold no separator and splitting again gives back the pieces. */
  lemma {:induction false} SplitJoin(parts: seq<string>, sep: char)
    requires |parts| >= 1 && forall i :: 0 <= i < |parts| ==> sep !in parts[i]
    ensures Split(Join(parts, [sep]), sep) == parts
    decreases |parts|
  {
    if |parts| == 1 {
      SplitWithoutSeparator(parts[0], sep);
    } else {
      var rest := parts[1..];
      assert forall i :: 0 <= i < |rest| ==> rest[i] == parts[i + 1];
      SplitJoin(rest, sep);
      SplitAfterPrefix(parts[0], sep, Join(rest, [sep]));
      assert [parts[0]] + rest == parts;
    }
  }

  /** `split(sep)` with a separator of several characters (used for `split('##')`). */
  function SplitOn(s: string, sep: string): (parts: seq<string>)
    requires |sep| > 0
    ensures |parts| >= 1
    decreases |s|
  {
    var k := IndexOf(s, sep, 0);
    if k < 0 then [s] else [s[..k]] + SplitOn(s[k + |sep|..], sep)
  }

  // ---------------------------------------------------------------- search

  predicate OccursAt(s: string, pat: string, i: int) {
    0 <= i && i + |pat| <= |s| && s[i..i + |pat|] == pat
  }

  /** `indexOf(pat, from)`: the first occurrence at or after `from`, or -1. */
  function IndexOf(s: string, pat: string, from: nat): (r: int)
    ensures r == -1 || (from <= r && OccursAt(s, pat, r))
    ensures r == -1 ==> forall i :: from <= i ==> !OccursAt(s, pat, i)
    ensures r >= 0 ==> forall i :: from <= i < r ==> !OccursAt(s, pat, i)
    decreases |s| - from
  {
    if from + |pat| > |s| then -1
    else if OccursAt(s, pat, from) then from
    else IndexOf(s, pat, from + 1)
  }

  /** `includes(pat)` */
  predicate Contains(s: string, pat: string) {
    IndexOf(s, pat, 0) >= 0
  }

  lemma ContainsAt(s: string, pat: string, i: int)
    requires OccursAt(s, pat, i)
    ensures Contains(s, pat)
  {
  }

  /** An occurrence inside a part is an occurrence in any string that has that part. */
  lemma ContainsInfix(a: string, b: string, c: string, pat: string)
    requires Contains(b, pat)
    ensures Contains(a + b + c, pat)
  {
    var k := IndexOf(b, pat, 0);
    assert (a + b + c)[|a| + k..|a| + k + |pat|] == b[k..k + |pat|];
    ContainsAt(a + b + c, pat, |a| + k);
  }

  /** `startsWith(pat)` */
  predicate StartsWith(s: string, pat: string) {
    |pat| <= |s| && s[..|pat|] == pat
  }

  /** `s.substring(0, n)` / `s.slice(0, n)` for `n >= 0`. */
  function Prefix(s: string, n: nat): (r: string)
    ensures |r| <= n && |r| <= |s|
    ensures r == s[..|r|]
    ensures |s| <= n ==> r == s
  {
    if |s| <= n then s else s[..n]
  }

  /** Where `slice(start)` starts, for an array or string of length `len`. */
  function SliceStart(len: nat, start: int): (k: nat)
    ensures k <= len
  {
    if start < 0 then (if len + start < 0 then 0 else len + start)
    else if start > len then len else start
  }

  // ---------------------------------------------------------------- numbers

  function DigitChar(d: nat): (c: char)
    requires d < 10
    ensures IsDigit(c)
  {
    ('0' as int + d) as char
  }

  /** `String(n)` for a non-negative integer. */
  function NatToString(n: nat): (r: string)
    ensures |r| >= 1
    ensures forall i :: 0 <= i < |r| ==> IsDigit(r[i])
    ensures |r| > 1 ==> r[0] != '0'
    decreases n
  {
    if n < 10 then [DigitChar(n)] else NatToString(n / 10) + [DigitChar(n % 10)]
  }

  /** `String(i)` for any integer. */
  function IntToString(i: int): string {
    if i < 0 then "-" + NatToString(-i) else NatToString(i)
  }

  /** The value of a digit in base 10 or 16, or -1. */
  function DigitValue(c: char, base: nat): int {
    if '0' <= c <= '9' && (c as int - '0' as int) < base then c as int - '0' as int
    else if base == 16 && 'a' <= c <= 'f' then c as int - 'a' as int + 10
    else if base == 16 && 'A' <= c <= 'F' then c as int - 'A' as int + 10
    else -1
  }

  predicate IsDigitIn(c: char, base: nat) { DigitValue(c, base) >= 0 }

  /** The number a run of digits stands for. */
  function DigitsValue(ds: string, base: nat): nat
    requires forall i :: 0 <= i < |ds| ==> IsDigitIn(ds[i], base)
    decreases |ds|
  {
    if ds == [] then 0
    else
      assert IsDigitIn(ds[|ds| - 1], base);
      var high: nat := DigitsValue(ds[..|ds| - 1], base);
      ProductNat(high, base);
      high * base + DigitValue(ds[|ds| - 1], base)
  }

  lemma ProductNat(a: nat, b: nat)
    ensures a * b >= 0
  {
  }

  /** The length of the longest prefix made of digits. */
  function DigitRun(s: string, base: nat): (n: nat)
    ensures n <= |s|
    ensures forall i :: 0 <= i < n ==> IsDigitIn(s[i], base)
    ensures n < |s| ==> !IsDigitIn(s[n], base)
    decreases |s|
  {
    if s != [] && IsDigitIn(s[0], base) then 1 + DigitRun(s[1..], base) else 0
  }

  /**
   * `parseInt(s)` (`hexPrefix`: no radix given, so `0x` switches to base 16) and
   * `parseInt(s, 10)`. `None` stands for NaN.
   */
  function ParseInt(s: string, hexPrefix: bool): (r: Option<int>)
  {
    var t := s[SkipSpace(s, 0)..];
    var negative := |t| > 0 && t[0] == '-';
    var u := if |t| > 0 && (t[0] == '-' || t[0] == '+') then t[1..] else t;
    var hex := hexPrefix && |u| >= 2 && u[0] == '0' && (u[1] == 'x' || u[1] == 'X');
    var base := if hex then 16 else 10;
    var body := if hex then u[2..] else u;
    var n := DigitRun(body, base);
    if n == 0 then None
    else
      var v: int := DigitsValue(body[..n], base);
      Some(if negative then -v else v)
  }

  /** `parseInt(s) || fallback`: NaN and 0 both give the fallback. */
  function ParsedOr(p: Option<int>, fallback: int): (r: int)
    ensures p.Some? && p.value != 0 ==> r == p.value
    ensures (p.None? || p.value == 0) ==> r == fallback
  {
    if p.Some? && p.value != 0 then p.value else fallback
  }

  lemma {:induction false} DigitsValueOfNatToString(n: nat)
    ensures forall i :: 0 <= i < |NatToString(n)| ==> IsDigitIn(NatToString(n)[i], 10)
    ensures DigitsValue(NatToString(n), 10) == n
    decreases n
  {
    var s := NatToString(n);
    forall i | 0 <= i < |s| ensures IsDigitIn(s[i], 10) {
      assert IsDigit(s[i]);
    }
    if n >= 10 {
      DigitsValueOfNatToString(n / 10);
      assert s[..|s| - 1] == NatToString(n / 10);
    }
  }

  /** Writing a counter as text and reading it back with `parseInt` gives the counter. */
  lemma ParseIntOfNatToString(n: nat, hexPrefix: bool)
    ensures ParseInt(NatToString(n), hexPrefix) == Some(n)
  {
    var s := NatToString(n);
    DigitsValueOfNatToString(n);
    assert !IsSpace(s[0]);
    assert SkipSpace(s, 0) == 0;
    assert s[0..] == s;
    assert |s| >= 2 ==> s[1] != 'x' && s[1] != 'X';
    assert DigitRun(s, 10) == |s| by {
      DigitRunOfDigits(s, 10);
    }
    assert s[..|s|] == s;
  }

  /** `String(i)` read back with `parseInt(s, 10)` gives `i`, negative or not. */
  lemma ParseIntOfIntToString(i: int)
    ensures ParseInt(IntToString(i), false) == Some(i)
  {
    if i >= 0 {
      ParseIntOfNatToString(i, false);
    } else {
      var u := NatToString(-i);
      var s := IntToString(i);
      assert s == "-" + u;
      DigitsValueOfNatToString(-i);
      assert SkipSpace(s, 0) == 0;
      assert s[0..] == s;
      assert s[1..] == u;
      DigitRunOfDigits(u, 10);
      assert u[..|u|] == u;
    }
  }

  lemma {:induction false} DigitRunOfDigits(s: string, base: nat)
    requires forall i :: 0 <= i < |s| ==> IsDigitIn(s[i], base)
    ensures DigitRun(s, base) == |s|
    decreases |s|
  {
    if s != [] {
      DigitRunOfDigits(s[1..], base);
    }
  }
}
