/**
 * Array helpers shared by the model: `filter`, counting, bounded buffers and
 * `slice(-n)`.
 */
module Seqs {
  import opened Strings

  /** `filter(p)`: keeps the elements satisfying `p`, in their original order. */
  function Filter<T(!new)>(s: seq<T>, p: T -> bool): (r: seq<T>)
    ensures |r| <= |s|
    ensures forall x :: x in r <==> x in s && p(x)
    decreases |s|
  {
    if s == [] then []
    else if p(s[0]) then [s[0]] + Filter(s[1..], p)
    else Filter(s[1..], p)
  }

  /** Filtering distributes over concatenation, so the kept elements keep their order. */
  lemma {:induction false} FilterAppend<T(!new)>(a: seq<T>, b: seq<T>, p: T -> bool)
    ensures Filter(a + b, p) == Filter(a, p) + Filter(b, p)
    decreases |a|
  {
    if a != [] {
      assert (a + b)[0] == a[0];
      assert (a + b)[1..] == a[1..] + b;
      FilterAppend(a[1..], b, p);
      if p(a[0]) {
        calc {
          Filter(a + b, p);
          [a[0]] + Filter(a[1..] + b, p);
          [a[0]] + (Filter(a[1..], p) + Filter(b, p));
          ([a[0]] + Filter(a[1..], p)) + Filter(b, p);
        }
      } else {
        calc {
          Filter(a + b, p);
          Filter(a[1..] + b, p);
          Filter(a[1..], p) + Filter(b, p);
        }
      }
    } else {
      assert a + b == b;
    }
  }

  /** Filtering a sequence whose every element passes leaves it unchanged. */
  lemma {:induction false} FilterAll<T(!new)>(s: seq<T>, p: T -> bool)
    requires forall i :: 0 <= i < |s| ==> p(s[i])
    ensures Filter(s, p) == s
    decreases |s|
  {
    if s != [] {
      FilterAll(s[1..], p);
    }
  }

  /** Filtering a sequence none of whose elements passes leaves nothing. */
  lemma {:induction false} FilterNone<T(!new)>(s: seq<T>, p: T -> bool)
    requires forall i :: 0 <= i < |s| ==> !p(s[i])
    ensures Filter(s, p) == []
    decreases |s|
  {
    if s != [] {
      FilterNone(s[1..], p);
    }
  }

  /** The values of the present elements, in order (a `forEach` that pushes each match). */
  function Somes<T>(s: seq<Option<T>>): (r: seq<T>)
    ensures |r| <= |s|
    decreases |s|
  {
    if s == [] then []
    else
      var front := Somes(s[..|s| - 1]);
      if s[|s| - 1].Some? then front + [s[|s| - 1].value] else front
  }

  /** Collecting distributes over concatenation. */
  lemma {:induction false} SomesAppend<T>(a: seq<Option<T>>, b: seq<Option<T>>)
    ensures Somes(a + b) == Somes(a) + Somes(b)
    decreases |b|
  {
    if b != [] {
      var b' := b[..|b| - 1];
      SomesAppend(a, b');
      assert (a + b)[..|a + b| - 1] == a + b';
      assert (a + b)[|a + b| - 1] == b[|b| - 1];
    } else {
      assert a + b == a;
    }
  }

  /** A value is collected exactly when some element holds it. */
  lemma {:induction false} SomesMeaning<T>(s: seq<Option<T>>, x: T)
    ensures x in Somes(s) <==> exists i :: 0 <= i < |s| && s[i] == Some(x)
    decreases |s|
  {
    if s != [] {
      var front := s[..|s| - 1];
      SomesMeaning(front, x);
      assert forall i :: 0 <= i < |front| ==> front[i] == s[i];
      if exists i :: 0 <= i < |s| && s[i] == Some(x) {
        var i :| 0 <= i < |s| && s[i] == Some(x);
        if i < |front| {
          assert front[i] == Some(x);
        }
      }
    }
  }

  /** The number of elements satisfying `p`. */
  function Count<T>(s: seq<T>, p: T -> bool): (n: nat)
    ensures n <= |s|
    decreases |s|
  {
    if s == [] then 0 else (if p(s[0]) then 1 else 0) + Count(s[1..], p)
  }

  lemma {:induction false} CountIsFilterLength<T(!new)>(s: seq<T>, p: T -> bool)
    ensures Count(s, p) == |Filter(s, p)|
    decreases |s|
  {
    if s != [] {
      CountIsFilterLength(s[1..], p);
    }
  }

  lemma {:induction false} CountAppend<T>(a: seq<T>, b: seq<T>, p: T -> bool)
    ensures Count(a + b, p) == Count(a, p) + Count(b, p)
    decreases |a|
  {
    if a != [] {
      assert (a + b)[0] == a[0];
      assert (a + b)[1..] == a[1..] + b;
      CountAppend(a[1..], b, p);
    } else {
      assert a + b == b;
    }
  }

  lemma CountSnoc<T>(s: seq<T>, x: T, p: T -> bool)
    ensures Count(s + [x], p) == Count(s, p) + if p(x) then 1 else 0
  {
    CountAppend(s, [x], p);
    assert [x][1..] == [];
  }

  /** `s.slice(-n)` for `n >= 1`, and the last `n` elements in general. */
  function LastN<T>(s: seq<T>, n: nat): (r: seq<T>)
    ensures |r| == if |s| <= n then |s| else n
    ensures r == s[|s| - |r|..]
  {
    if |s| <= n then s else s[|s| - n..]
  }

  /** `push` followed by `shift` while the length exceeds `cap`. */
  function PushCapped<T>(s: seq<T>, x: T, cap: nat): (r: seq<T>)
    requires cap >= 1
    ensures |s| <= cap ==> |r| <= cap && r == LastN(s + [x], cap)
    ensures |r| > 0 && r[|r| - 1] == x
  {
    var t := s + [x];
    if |t| > cap then t[1..] else t
  }

  /** `unshift` followed by `pop` while the length exceeds `cap`: newest first. */
  function UnshiftCapped<T>(s: seq<T>, x: T, cap: nat): (r: seq<T>)
    requires cap >= 1
    ensures |r| == if |s| + 1 > cap then |s| else |s| + 1
    ensures |s| <= cap ==> |r| <= cap
    ensures |r| > 0 && r[0] == x
    ensures forall i :: 1 <= i < |r| ==> r[i] == s[i - 1]
  {
    var t := [x] + s;
    if |t| > cap then t[..|t| - 1] else t
  }

  /** A non-empty sequence appended to `a` is `a`, the sequence's front, then its last element. */
  lemma SnocSplit<T>(a: seq<T>, b: seq<T>)
    requires b != []
    ensures a + b == (a + b[..|b| - 1]) + [b[|b| - 1]]
  {
  }

  /** The first `m + 1` elements are the first `m` and then element `m`. */
  lemma TakeSnoc<T>(s: seq<T>, m: nat)
    requires m < |s|
    ensures s[..m + 1] == s[..m] + [s[m]]
  {
  }

  lemma SliceSnoc<T>(s: seq<T>, lo: nat, m: nat)
    requires lo <= m < |s|
    ensures s[lo..m + 1] == s[lo..m] + [s[m]]
  {
  }

  lemma TakeTake<T>(s: seq<T>, i: nat)
    requires i < |s|
    ensures s[..i + 1][..i] == s[..i] && s[..i + 1][i] == s[i]
  {
  }

  lemma TakeAll<T>(s: seq<T>)
    ensures s[..|s|] == s
  {
  }

  /** An element of `s + [x]` is an element of `s` or `x` itself. */
  lemma InSnoc<T>(s: seq<T>, x: T, y: T)
    requires y in s + [x]
    ensures y in s || y == x
  {
  }

  /** `t` lies in `s` starting at position `lo`. */
  predicate LiesAt<T(==)>(s: seq<T>, lo: int, t: seq<T>) {
    0 <= lo && lo + |t| <= |s| && forall i :: 0 <= i < |t| ==> s[lo + i] == t[i]
  }

  /** `t` is the slice of `s` it covers. */
  lemma LiesAtSlice<T>(s: seq<T>, lo: int, t: seq<T>)
    requires LiesAt(s, lo, t)
    ensures s[lo..lo + |t|] == t
  {
    forall i | 0 <= i < |t|
      ensures s[lo..lo + |t|][i] == t[i]
    {
      assert s[lo + i] == t[i];
    }
  }

  /** The middle part of `a + m + b` lies after `a`. */
  lemma LiesMiddle<T>(a: seq<T>, m: seq<T>, b: seq<T>)
    ensures LiesAt(a + m + b, |a|, m)
  {
  }

  /** What lies in `b` lies in `a + b`, shifted by `|a|`. */
  lemma LiesShift<T>(a: seq<T>, b: seq<T>, lo: int, t: seq<T>)
    requires LiesAt(b, lo, t)
    ensures LiesAt(a + b, |a| + lo, t)
  {
    forall i | 0 <= i < |t|
      ensures (a + b)[|a| + lo + i] == t[i]
    {
      assert b[lo + i] == t[i];
    }
  }

  /** What lies in `a` lies in `a + b` at the same place. */
  lemma LiesExtend<T>(a: seq<T>, b: seq<T>, lo: int, t: seq<T>)
    requires LiesAt(a, lo, t)
    ensures LiesAt(a + b, lo, t)
  {
    forall i | 0 <= i < |t|
      ensures (a + b)[lo + i] == t[i]
    {
      assert a[lo + i] == t[i];
    }
  }

  /** Taking out what was put in at `q` gives back the original. */
  lemma SpliceOut<T>(s: seq<T>, x: seq<T>, q: nat)
    requires q <= |s|
    ensures var w := s[..q] + x + s[q..]; w[..q] + w[q + |x|..] == s
  {
    var w := s[..q] + x + s[q..];
    assert w[..q] == s[..q];
    assert w[q + |x|..] == s[q..];
  }
}
