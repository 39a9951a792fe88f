/**
 * The list rules of `src/components/InsightsPanel.tsx`: the streak's next milestone,
 * dismissing an insight, the type filter and the counts on its buttons. The timestamps,
 * projects, actions and metrics of an insight play no part and are left out.
 */
module Insights {

  datatype InsightType = Critical | Warning | Info | Success

  datatype Insight = Insight(id: string, kind: InsightType, title: string, description: string)

  /** The streak milestones, in increasing order. */
  const Milestones: seq<int> := [7, 14, 30, 50, 100]

  /** Each milestone is larger than the one before. */
  predicate Increasing(ms: seq<int>) {
    forall i, j :: 0 <= i < j < |ms| ==> ms[i] < ms[j]
  }

  /**
   * `find(m => current < m) || last`: the first value above `current`, else `last`; a
   * found `0` is falsy, so it gives `last` too.
   */
  function FirstAbove(ms: seq<int>, current: int, last: int): (r: int)
    requires Increasing(ms)
    ensures (r == last && forall m :: m in ms ==> m <= current) ||
      (r in ms && r != 0 && current < r && forall m :: m in ms && current < m ==> r <= m) ||
      (r == last && 0 in ms && current < 0 && forall m :: m in ms && current < m ==> 0 <= m)
  {
    if ms == [] then last
    else
      HeadSmallest(ms);
      if current < ms[0] then (if ms[0] != 0 then ms[0] else last)
      else
        assert Increasing(ms[1..]);
        FirstAbove(ms[1..], current, last)
  }

  /** The head of an increasing list is its smallest value, and the rest holds the others. */
  lemma HeadSmallest(ms: seq<int>)
    requires Increasing(ms) && ms != []
    ensures forall m :: m in ms ==> ms[0] <= m && (m == ms[0] || m in ms[1..])
  {
    forall m | m in ms
      ensures ms[0] <= m && (m == ms[0] || m in ms[1..])
    {
      var k :| 0 <= k < |ms| && ms[k] == m;
      if k > 0 {
        assert ms[1..][k - 1] == m;
      }
    }
  }

  /** The milestone the streak is heading for: the smallest one above `current`, else 100. */
  function Milestone(current: int): (r: int)
    ensures r in Milestones
    ensures current < 100 ==> current < r && forall m :: m in Milestones && current < m ==> r <= m
    ensures current >= 100 ==> r == 100
  {
    FirstAbove(Milestones, current, Milestones[|Milestones| - 1])
  }

  /** The days left to the milestone, positive exactly while the streak is under 100. */
  lemma DaysToNext(current: int)
    ensures Milestone(current) - current > 0 <==> current < 100
  {
  }

  /** `dismissInsight`: the insights without the given id, in their order. */
  function Dismiss(insights: seq<Insight>, id: string): (r: seq<Insight>)
    ensures forall x :: x in r ==> x in insights && x.id != id
    ensures forall x :: x in insights && x.id != id ==> x in r
    ensures |r| <= |insights|
  {
    if insights == [] then []
    else if insights[0].id == id then Dismiss(insights[1..], id)
    else [insights[0]] + Dismiss(insights[1..], id)
  }

  /** Dismissing works piece by piece, so the kept insights keep their order. */
  lemma {:induction false} DismissAppend(a: seq<Insight>, b: seq<Insight>, id: string)
    ensures Dismiss(a + b, id) == Dismiss(a, id) + Dismiss(b, id)
    decreases |a|
  {
    if a == [] {
      assert a + b == b;
    } else {
      assert (a + b)[1..] == a[1..] + b;
      DismissAppend(a[1..], b, id);
    }
  }

  /** Dismissing an id nobody has changes nothing. */
  lemma {:induction false} DismissAbsent(insights: seq<Insight>, id: string)
    requires forall x :: x in insights ==> x.id != id
    ensures Dismiss(insights, id) == insights
    decreases |insights|
  {
    if insights != [] {
      assert insights[0] in insights;
      assert forall x :: x in insights[1..] ==> x in insights;
      DismissAbsent(insights[1..], id);
      assert [insights[0]] + insights[1..] == insights;
    }
  }

  /** Dismissing twice is dismissing once. */
  lemma DismissIdempotent(insights: seq<Insight>, id: string)
    ensures Dismiss(Dismiss(insights, id), id) == Dismiss(insights, id)
  {
    DismissAbsent(Dismiss(insights, id), id);
  }

  /** The insights of one type, in their order. */
  function OfType(insights: seq<Insight>, t: InsightType): (r: seq<Insight>)
    ensures forall x :: x in r ==> x in insights && x.kind == t
    ensures forall x :: x in insights && x.kind == t ==> x in r
    ensures |r| <= |insights|
  {
    if insights == [] then []
    else if insights[0].kind == t then [insights[0]] + OfType(insights[1..], t)
    else OfType(insights[1..], t)
  }

  /** The filter: `all`, or one type. */
  datatype Filter = All | Only(kind: InsightType)

  /** The insights shown under a filter. */
  function Shown(insights: seq<Insight>, f: Filter): (r: seq<Insight>)
    ensures f == All ==> r == insights
    ensures f.Only? ==> forall x :: x in r <==> x in insights && x.kind == f.kind
  {
    if f == All then insights else OfType(insights, f.kind)
  }

  /** How many insights a filter shows. */
  function Count(insights: seq<Insight>, f: Filter): nat {
    |Shown(insights, f)|
  }

  /** A filter button: its key, its label (`name`) and its count. */
  datatype Button = Button(key: Filter, name: string, count: nat)

  /** All, Critical, Warning and Info; successes have no button of their own. */
  function Buttons(insights: seq<Insight>): (bs: seq<Button>)
    ensures |bs| == 4 && bs[0].count == |insights|
    ensures forall i :: 0 <= i < |bs| ==> bs[i].count == |Shown(insights, bs[i].key)|
  {
    [Button(All, "All", |insights|),
     Button(Only(Critical), "Critical", Count(insights, Only(Critical))),
     Button(Only(Warning), "Warning", Count(insights, Only(Warning))),
     Button(Only(Info), "Info", Count(insights, Only(Info)))]
  }

  /** The four types split the insights: their counts add up to the total. */
  lemma {:induction false} CountsPartition(insights: seq<Insight>)
    ensures Count(insights, Only(Critical)) + Count(insights, Only(Warning)) +
      Count(insights, Only(Info)) + Count(insights, Only(Success)) == |insights|
    decreases |insights|
  {
    if insights != [] {
      CountsPartition(insights[1..]);
    }
  }

  /** What the All button counts beyond the three other buttons is the successes. */
  lemma SuccessesUncounted(insights: seq<Insight>)
    ensures var bs := Buttons(insights);
      bs[0].count - bs[1].count - bs[2].count - bs[3].count == Count(insights, Only(Success))
  {
    CountsPartition(insights);
  }
}
