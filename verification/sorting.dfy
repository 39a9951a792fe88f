/**
 * `Array.prototype.sort` with a comparator, as the dashboard uses it on small lists: a
 * stable sort, written here as insertion from the left, for an order `le` ("may come
 * before") given as a function.
 */
module Sorting {

  /** Any two elements can be ordered. */
  ghost predicate Total<T(!new)>(le: (T, T) -> bool) {
    forall a, b :: le(a, b) || le(b, a)
  }

  ghost predicate Transitive<T(!new)>(le: (T, T) -> bool) {
    forall a, b, c :: le(a, b) && le(b, c) ==> le(a, c)
  }

  /** The elements are in `le` order, every pair of them. */
  predicate SortedBy<T>(s: seq<T>, le: (T, T) -> bool) {
    forall i, j :: 0 <= i < j < |s| ==> le(s[i], s[j])
  }

  /** Where `x` goes in `r`: after the last element that may come before it, scanning from the end. */
  function InsertPos<T>(r: seq<T>, x: T, le: (T, T) -> bool): (k: nat)
    ensures k <= |r|
    ensures k == 0 || le(r[k - 1], x)
    ensures forall i :: k <= i < |r| ==> !le(r[i], x)
  {
    if r == [] || le(r[|r| - 1], x) then |r| else InsertPos(r[..|r| - 1], x, le)
  }

  /** The insertion point is the one place that splits `r` into what may come before `x` and what may not. */
  lemma InsertPosUnique<T>(r: seq<T>, x: T, le: (T, T) -> bool, k0: nat)
    requires k0 <= |r|
    requires forall i :: 0 <= i < k0 ==> le(r[i], x)
    requires forall i :: k0 <= i < |r| ==> !le(r[i], x)
    ensures InsertPos(r, x, le) == k0
  {
    var k := InsertPos(r, x, le);
    assert k0 == 0 || le(r[k0 - 1], x);
    assert k == 0 || le(r[k - 1], x);
  }

  /** One step of the insertion sort: `x` put in after every element that may come before it. */
  function Insert<T>(r: seq<T>, x: T, le: (T, T) -> bool): seq<T> {
    var k := InsertPos(r, x, le);
    r[..k] + [x] + r[k..]
  }

  /** Inserting adds exactly `x`. */
  lemma InsertPermutes<T>(r: seq<T>, x: T, le: (T, T) -> bool)
    ensures multiset(Insert(r, x, le)) == multiset(r) + multiset{x}
  {
    var k := InsertPos(r, x, le);
    assert r == r[..k] + r[k..];
  }

  /** In a sorted list the elements before the insertion point may come before `x`, the others after it. */
  lemma InsertSplits<T(!new)>(r: seq<T>, x: T, le: (T, T) -> bool)
    requires Total(le) && Transitive(le) && SortedBy(r, le)
    ensures var k := InsertPos(r, x, le);
      (forall i :: 0 <= i < k ==> le(r[i], x)) && (forall i :: k <= i < |r| ==> le(x, r[i]))
  {
    var k := InsertPos(r, x, le);
    forall i | 0 <= i < k
      ensures le(r[i], x)
    {
      if i < k - 1 {
        assert le(r[i], r[k - 1]);
      }
    }
  }

  /** Inserting into a sorted list keeps it sorted. */
  lemma InsertSorted<T(!new)>(r: seq<T>, x: T, le: (T, T) -> bool)
    requires Total(le) && Transitive(le) && SortedBy(r, le)
    ensures SortedBy(Insert(r, x, le), le)
  {
    InsertSplits(r, x, le);
    SplitInsertSorted(r, x, le, InsertPos(r, x, le));
  }

  /** Putting `x` between the two halves of a sorted list that it splits gives a sorted list. */
  lemma SplitInsertSorted<T>(r: seq<T>, x: T, le: (T, T) -> bool, k: nat)
    requires k <= |r| && SortedBy(r, le)
    requires forall i :: 0 <= i < k ==> le(r[i], x)
    requires forall i :: k <= i < |r| ==> le(x, r[i])
    ensures SortedBy(r[..k] + [x] + r[k..], le)
  {
    var r' := r[..k] + [x] + r[k..];
    forall i | 0 <= i < |r'|
      ensures r'[i] == if i < k then r[i] else if i == k then x else r[i - 1]
    {
    }
    forall i, j | 0 <= i < j < |r'|
      ensures le(r'[i], r'[j])
    {
      if j < k {
        assert le(r[i], r[j]);
      } else if j == k {
        assert le(r[i], x);
      } else if i < k {
        assert le(r[i], r[j - 1]);
      } else if i == k {
        assert le(x, r[j - 1]);
      } else {
        assert le(r[i - 1], r[j - 1]);
      }
    }
  }

  /** `sort(compare)`: insertion from the left, each element after those equal to it. */
  function SortBy<T>(s: seq<T>, le: (T, T) -> bool): seq<T> {
    if s == [] then [] else Insert(SortBy(s[..|s| - 1], le), s[|s| - 1], le)
  }

  /** The sorted list is a permutation of the input. */
  lemma {:induction false} SortByPermutes<T>(s: seq<T>, le: (T, T) -> bool)
    ensures multiset(SortBy(s, le)) == multiset(s)
    decreases |s|
  {
    if s != [] {
      var front := s[..|s| - 1];
      SortByPermutes(front, le);
      InsertPermutes(SortBy(front, le), s[|s| - 1], le);
      assert s == front + [s[|s| - 1]];
    }
  }

  /** For a total, transitive order the sorted list is in order. */
  lemma {:induction false} SortBySorted<T(!new)>(s: seq<T>, le: (T, T) -> bool)
    requires Total(le) && Transitive(le)
    ensures SortedBy(SortBy(s, le), le)
    decreases |s|
  {
    if s != [] {
      SortBySorted(s[..|s| - 1], le);
      InsertSorted(SortBy(s[..|s| - 1], le), s[|s| - 1], le);
    }
  }
}
