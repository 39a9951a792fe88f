/**
 * Hand-written matchers for the regular-expression fragments that recur in the
 * dashboard's markdown and log grammars. Each matcher follows JavaScript's
 * backtracking semantics for its fragment: `\s` is `Strings.IsSpace`, `.` is any
 * character except a line terminator, `*`/`+` are greedy and `*?`/`+?` lazy.
 */
module Patterns {
  import opened Strings

  /** The number of `\s` characters starting at `p`. */
  function SpaceRun(s: string, p: nat): (n: nat)
    requires p <= |s|
    ensures p + n <= |s|
    ensures forall i :: p <= i < p + n ==> IsSpace(s[i])
    ensures p + n == |s| || !IsSpace(s[p + n])
    decreases |s| - p
  {
    if p < |s| && IsSpace(s[p]) then 1 + SpaceRun(s, p + 1) else 0
  }

  /** The number of `c` characters starting at `p`. */
  function CharRun(s: string, p: nat, c: char): (n: nat)
    requires p <= |s|
    ensures p + n <= |s|
    ensures forall i :: p <= i < p + n ==> s[i] == c
    ensures p + n == |s| || s[p + n] != c
    decreases |s| - p
  {
    if p < |s| && s[p] == c then 1 + CharRun(s, p + 1, c) else 0
  }

  /** The first line terminator at or after `k`, or the end of the string: where a greedy `.+` stops. */
  function LineEnd(s: string, k: nat): (t: nat)
    requires k <= |s|
    ensures k <= t <= |s|
    ensures NoLineTerminator(s[k..t])
    ensures t == |s| || IsLineTerminator(s[t])
    decreases |s| - k
  {
    if k < |s| && !IsLineTerminator(s[k]) then LineEnd(s, k + 1) else k
  }

  // ------------------------------------------------------------ `\s+(.+)$`

  /** `r = W + G` with `W` one or more white-space characters and `G` a non-empty single-line rest. */
  predicate SpacedSplit(r: string, k: int) {
    1 <= k < |r| && AllSpace(r[..k]) && NoLineTerminator(r[k..])
  }

  /**
   * `\s+(.+)$` matched at the start of `r` (with `$` the end of the input): the
   * captured group, or None.
   */
  function SpacedRestToEnd(r: string): (g: Option<string>)
    ensures g.Some? ==> |g.value| >= 1 && NoLineTerminator(g.value)
  {
    var e := SpaceRun(r, 0);
    if e == 0 then None
    else if e < |r| then (if NoLineTerminator(r[e..]) then Some(r[e..]) else None)
    else if |r| >= 2 && !IsLineTerminator(r[|r| - 1]) then Some([r[|r| - 1]])
    else None
  }

  /**
   * The matcher agrees with the regular expression's meaning: it succeeds exactly
   * when some split exists, and then captures the rest after the longest white-space
   * prefix (`\s+` is greedy).
   */
  lemma SpacedRestToEndMeaning(r: string)
    ensures SpacedRestToEnd(r).Some? <==> exists k :: SpacedSplit(r, k)
    ensures SpacedRestToEnd(r).Some? ==>
      exists k :: SpacedSplit(r, k) && SpacedRestToEnd(r).value == r[k..] &&
        forall k' :: SpacedSplit(r, k') ==> k' <= k
  {
    var e := SpaceRun(r, 0);
    assert r[..e] == r[0..e];
    if e == 0 {
      forall k | SpacedSplit(r, k) ensures false {
      }
    } else if e < |r| {
      assert SpacedRestToEnd(r).Some? <==> NoLineTerminator(r[e..]);
      forall k | SpacedSplit(r, k) ensures k <= e && NoLineTerminator(r[e..]) {
        forall i | 0 <= i < |r[e..]| ensures !IsLineTerminator(r[e..][i]) {
          assert r[e..][i] == r[k..][i + e - k];
        }
      }
      if NoLineTerminator(r[e..]) {
        assert SpacedSplit(r, e);
      }
    } else {
      var n := |r|;
      forall k | SpacedSplit(r, k) ensures k <= n - 1 && !IsLineTerminator(r[n - 1]) {
        assert r[k..][n - 1 - k] == r[n - 1];
      }
      if n >= 2 && !IsLineTerminator(r[n - 1]) {
        assert r[n - 1..] == [r[n - 1]];
        assert SpacedSplit(r, n - 1);
      }
    }
  }

  /** The captured text, once trimmed, is the whole tail trimmed. */
  lemma SpacedRestToEndTrim(r: string)
    requires SpacedRestToEnd(r).Some?
    ensures Trim(SpacedRestToEnd(r).value) == Trim(r)
  {
    var e := SpaceRun(r, 0);
    assert r == r[..e] + r[e..];
    assert AllSpace(r[..e]);
    TrimOfSpacePrefix(r[..e], r[e..]);
    if e == |r| {
      var g := [r[|r| - 1]];
      assert AllSpace(g);
      assert AllSpace(r) by { assert r == r[..e]; }
    }
  }

  // ------------------------------------------------------------ `\s*(.+)`

  /** The largest `k` in `[lo, hi)` holding a character that is not a line terminator, or -1. */
  function LastNonTerminator(s: string, lo: nat, hi: nat): (k: int)
    requires lo <= hi <= |s|
    ensures k == -1 || (lo <= k < hi && !IsLineTerminator(s[k]))
    ensures forall i :: (if k < 0 then lo else k + 1) <= i < hi ==> IsLineTerminator(s[i])
    decreases hi
  {
    if hi <= lo then -1
    else if !IsLineTerminator(s[hi - 1]) then hi - 1
    else LastNonTerminator(s, lo, hi - 1)
  }

  /**
   * `\s*(.+)` matched at `p` with nothing after it: greedy white space, then the
   * rest of the line. When the white space runs into a line terminator (or the
   * end), the engine gives back white space until `.` can match one character.
   */
  function SpacedRest(s: string, p: nat): (g: Option<string>)
    requires p <= |s|
    ensures g.Some? ==> |g.value| >= 1 && NoLineTerminator(g.value)
  {
    var e := p + SpaceRun(s, p);
    if e < |s| && !IsLineTerminator(s[e]) then Some(s[e..LineEnd(s, e)])
    else
      var k := LastNonTerminator(s, p, e);
      if k < 0 then None else Some(s[k..LineEnd(s, k)])
  }

  // ------------------------------------------------------------ `X(.+?)Y`

  /**
   * The end of a lazy group that starts at `from` and is closed by `close`:
   * `(.*?)` when `minLen` is 0 and `(.+?)` when it is 1. It is the smallest
   * `j >= from + minLen` where `close` occurs with no line terminator in
   * `s[from..j]`, or -1.
   */
  function LazyClose(s: string, from: nat, minLen: nat, close: string): (j: int)
    requires from <= |s| && minLen <= 1 && |close| > 0
    ensures j == -1 || (from + minLen <= j && OccursAt(s, close, j) && NoLineTerminator(s[from..j]))
    ensures j >= 0 ==> forall j' :: from + minLen <= j' < j ==> !OccursAt(s, close, j')
    ensures j == -1 ==> forall j' :: from + minLen <= j' <= |s| && NoLineTerminator(s[from..j']) ==> !OccursAt(s, close, j')
  {
    if minLen == 0 then LazyCloseFrom(s, from, from, close)
    else if from < |s| && !IsLineTerminator(s[from]) then
      assert s[from..from + 1] == [s[from]];
      LazyCloseFrom(s, from, from + 1, close)
    else if from < |s| then
      LazyCloseBlocked(s, from, from + 1);
      -1
    else -1
  }

  function LazyCloseFrom(s: string, from: nat, j: nat, close: string): (r: int)
    requires from <= j <= |s| && |close| > 0
    requires NoLineTerminator(s[from..j])
    ensures r == -1 || (j <= r && OccursAt(s, close, r) && NoLineTerminator(s[from..r]))
    ensures r >= 0 ==> forall j' :: j <= j' < r ==> !OccursAt(s, close, j')
    ensures r == -1 ==> forall j' :: j <= j' <= |s| && NoLineTerminator(s[from..j']) ==> !OccursAt(s, close, j')
    decreases |s| - j
  {
    if j + |close| > |s| then -1
    else if OccursAt(s, close, j) then j
    else if IsLineTerminator(s[j]) then
      LazyCloseBlocked(s, from, j + 1);
      -1
    else
      NoLineTerminatorExtend(s, from, j + 1);
      LazyCloseFrom(s, from, j + 1, close)
  }

  lemma NoLineTerminatorExtend(s: string, from: nat, j: nat)
    requires from < j <= |s| && NoLineTerminator(s[from..j - 1]) && !IsLineTerminator(s[j - 1])
    ensures NoLineTerminator(s[from..j])
  {
    assert s[from..j] == s[from..j - 1] + [s[j - 1]];
  }

  lemma LazyCloseBlocked(s: string, from: nat, j: nat)
    requires from < j <= |s| && IsLineTerminator(s[j - 1])
    ensures forall j' :: j <= j' <= |s| ==> !NoLineTerminator(s[from..j'])
  {
    forall j' | j <= j' <= |s| ensures !NoLineTerminator(s[from..j']) {
      assert s[from..j'][j - 1 - from] == s[j - 1];
    }
  }

  /** A group without the closing delimiter's first character and without terminators closes right after itself. */
  lemma LazyCloseOfPlain(a: string, t: string, close: string, b: string)
    requires |t| >= 1 && |close| > 0
    requires close[0] !in t && NoLineTerminator(t)
    ensures LazyClose(a + t + close + b, |a|, 1, close) == |a| + |t|
  {
    var s := a + t + close + b;
    var j := |a| + |t|;
    assert s[j..j + |close|] == close;
    assert s[|a|..j] == t;
    forall j' | |a| < j' < j ensures !OccursAt(s, close, j') {
      assert s[j'] == t[j' - |a|];
    }
    var r := LazyClose(s, |a|, 1, close);
    assert OccursAt(s, close, j);
    if r != -1 {
      assert !(r < j);
      assert !(r > j);
    }
  }

  // ------------------------------------------------------------ text before the match

  /** The white-space run at a position does not depend on the text before it. */
  lemma {:induction false} SpaceRunShift(w: string, s: string, p: nat)
    requires p <= |s|
    ensures SpaceRun(w + s, |w| + p) == SpaceRun(s, p)
    decreases |s| - p
  {
    if p < |s| {
      assert (w + s)[|w| + p] == s[p];
      if IsSpace(s[p]) {
        SpaceRunShift(w, s, p + 1);
      }
    }
  }

  /** A run of white space before the text lengthens the leading white-space run by its length. */
  lemma {:induction false} SpaceRunOverSpace(w: string, s: string, i: nat)
    requires i <= |w| && AllSpace(w)
    ensures SpaceRun(w + s, i) == |w| - i + SpaceRun(s, 0)
    decreases |w| - i
  {
    if i == |w| {
      SpaceRunShift(w, s, 0);
    } else {
      assert (w + s)[i] == w[i];
      SpaceRunOverSpace(w, s, i + 1);
    }
  }

  // ------------------------------------------------------------ case-insensitive literals

  /** `pat` occurs at `i` when both are lower-cased (the `i` flag, on ASCII letters). */
  predicate OccursAtFolded(s: string, pat: string, i: int) {
    0 <= i && i + |pat| <= |s| && Lower(s[i..i + |pat|]) == Lower(pat)
  }
}
