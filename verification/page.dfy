/**
 * What the dashboard page (`src/app/page.tsx`) derives from the fetched snapshot: the
 * subagents, the lead agent `sam`, and the tasks sorted in place by priority. The fetch
 * and the React state around it are left out; the snapshot is a parameter.
 */
module Dashboard {
  import opened Strings
  import opened Types
  import opened Seqs
  import opened Sorting

  /** An agent other than `sam` and `kevin`. */
  predicate IsSubagent(a: Agent) {
    a.id != "sam" && a.id != "kevin"
  }

  /** `data?.agents.filter(...) || []`: the agents that are neither `sam` nor `kevin`, in order. */
  function Subagents(data: Option<MissionControlData>): (r: seq<Agent>)
    ensures data.None? ==> r == []
    ensures data.Some? ==> forall a :: a in r <==> a in data.value.agents && IsSubagent(a)
  {
    if data.None? then [] else Filter(data.value.agents, IsSubagent)
  }

  /** The position of the first agent with the id, or `|agents|` when there is none. */
  function FirstWithId(agents: seq<Agent>, id: string): (i: nat)
    ensures i <= |agents|
    ensures i < |agents| ==> agents[i].id == id
    ensures forall j :: 0 <= j < i ==> agents[j].id != id
  {
    if agents == [] then 0
    else if agents[0].id == id then 0
    else FirstWithId(agents[1..], id) + 1
  }

  /** `data?.agents.find(a => a.id === 'sam')`: the first agent with id `sam`, if any. */
  function Sam(data: Option<MissionControlData>): (r: Option<Agent>)
    ensures data.None? ==> r.None?
    ensures data.Some? ==> (r.None? <==> forall a :: a in data.value.agents ==> a.id != "sam")
    ensures r.Some? ==> r.value.id == "sam" && r.value in data.value.agents
  {
    if data.None? then None
    else
      var agents := data.value.agents;
      var i := FirstWithId(agents, "sam");
      if i < |agents| then Some(agents[i]) else None
  }

  /** `sam` is never among the subagents. */
  lemma SamNotSubagent(data: Option<MissionControlData>)
    requires Sam(data).Some?
    ensures Sam(data).value !in Subagents(data)
  {
  }

  /** The priority's weight in the comparator: high 3, medium (or none) 2, low 1. */
  function Weight(t: Task): (w: int)
    ensures 1 <= w <= 3
  {
    match t.priority
    case None => 2
    case Some(High) => 3
    case Some(Medium) => 2
    case Some(Low) => 1
  }

  /** The tasks of one weight, in their order. */
  function OfWeight(tasks: seq<Task>, w: int): (r: seq<Task>)
    ensures |r| <= |tasks|
  {
    if tasks == [] then []
    else
      var front, last := tasks[..|tasks| - 1], tasks[|tasks| - 1];
      if Weight(last) == w then OfWeight(front, w) + [last] else OfWeight(front, w)
  }

  /** A task is kept exactly when it is one of the tasks and has the weight. */
  lemma {:induction false} OfWeightMeaning(tasks: seq<Task>, w: int)
    ensures forall x :: x in OfWeight(tasks, w) <==> x in tasks && Weight(x) == w
    decreases |tasks|
  {
    if tasks != [] {
      var front := tasks[..|tasks| - 1];
      OfWeightMeaning(front, w);
      assert tasks == front + [tasks[|tasks| - 1]];
    }
  }

  /** Every kept task has the weight. */
  lemma OfWeightUniform(tasks: seq<Task>, w: int)
    ensures forall i :: 0 <= i < |OfWeight(tasks, w)| ==> Weight(OfWeight(tasks, w)[i]) == w
  {
    OfWeightMeaning(tasks, w);
    var r := OfWeight(tasks, w);
    forall i | 0 <= i < |r|
      ensures Weight(r[i]) == w
    {
      assert r[i] in r;
    }
  }

  /** Appending a task appends it to its own weight's list only. */
  lemma OfWeightSnoc(tasks: seq<Task>, x: Task, w: int)
    ensures Weight(x) == w ==> OfWeight(tasks + [x], w) == OfWeight(tasks, w) + [x]
    ensures Weight(x) != w ==> OfWeight(tasks + [x], w) == OfWeight(tasks, w)
  {
    var s := tasks + [x];
    assert s[..|s| - 1] == tasks;
  }

  /** The three weights together hold every task once. */
  lemma {:induction false} OfWeightPartition(tasks: seq<Task>)
    ensures multiset(OfWeight(tasks, 3) + OfWeight(tasks, 2) + OfWeight(tasks, 1)) == multiset(tasks)
    decreases |tasks|
  {
    if tasks != [] {
      var front := tasks[..|tasks| - 1];
      OfWeightPartition(front);
      assert tasks == front + [tasks[|tasks| - 1]];
    }
  }

  /**
   * The result of the comparator sort, which is stable: high tasks, then medium and
   * unprioritised ones, then low ones, each in their original order.
   */
  function ByPriority(tasks: seq<Task>): seq<Task> {
    OfWeight(tasks, 3) + OfWeight(tasks, 2) + OfWeight(tasks, 1)
  }

  /** The sorted tasks are the same tasks. */
  lemma ByPriorityPermutes(tasks: seq<Task>)
    ensures multiset(ByPriority(tasks)) == multiset(tasks)
    ensures |ByPriority(tasks)| == |tasks|
  {
    OfWeightPartition(tasks);
    assert |multiset(ByPriority(tasks))| == |multiset(tasks)|;
  }

  /** The sorted tasks come by non-increasing weight: high, then medium, then low. */
  lemma ByPrioritySorted(tasks: seq<Task>)
    ensures var r := ByPriority(tasks);
      forall i, j :: 0 <= i < j < |r| ==> Weight(r[i]) >= Weight(r[j])
  {
    ByPriorityWeights(tasks);
  }

  /** Tasks of equal priority keep their relative order: sorting leaves each weight's list as it was. */
  lemma ByPriorityStable(tasks: seq<Task>, w: int)
    requires 1 <= w <= 3
    ensures OfWeight(ByPriority(tasks), w) == OfWeight(tasks, w)
  {
    var a, b, c := OfWeight(tasks, 3), OfWeight(tasks, 2), OfWeight(tasks, 1);
    OfWeightUniform(tasks, 3);
    OfWeightUniform(tasks, 2);
    OfWeightUniform(tasks, 1);
    OfWeightAppend(a + b, c, w);
    OfWeightAppend(a, b, w);
    OfWeightOnly(a, 3, w);
    OfWeightOnly(b, 2, w);
    OfWeightOnly(c, 1, w);
    if w == 3 {
      assert a + [] + [] == a;
    } else if w == 2 {
      assert [] + b + [] == b;
    } else {
      assert [] + [] + c == c;
    }
  }

  /** The comparator's order: `a` may come before `b` when its priority is at least as high. */
  predicate PriorityLe(a: Task, b: Task) {
    Weight(a) >= Weight(b)
  }

  /**
   * The stable sort with the page's comparator gives exactly the high, medium, low
   * concatenation.
   */
  lemma {:induction false} SortByPriority(tasks: seq<Task>)
    ensures SortBy(tasks, PriorityLe) == ByPriority(tasks)
    decreases |tasks|
  {
    if tasks != [] {
      SortByPriority(tasks[..|tasks| - 1]);
      InsertByPriority(tasks);
    }
  }

  /** Inserting a task into the sorted tasks puts it at the end of its own weight. */
  lemma InsertByPriority(s: seq<Task>)
    requires s != []
    ensures Insert(ByPriority(s[..|s| - 1]), s[|s| - 1], PriorityLe) == ByPriority(s)
  {
    var tasks, x := s[..|s| - 1], s[|s| - 1];
    var a, b, c := OfWeight(tasks, 3), OfWeight(tasks, 2), OfWeight(tasks, 1);
    var k := InsertPos(ByPriority(tasks), x, PriorityLe);
    InsertPoint(tasks, x);
    if Weight(x) == 3 {
      InsertSegments(a, b, c, x, k, 0);
    } else if Weight(x) == 2 {
      InsertSegments(a, b, c, x, k, 1);
    } else {
      InsertSegments(a, b, c, x, k, 2);
    }
  }

  /** The insertion point is the end of the new task's weight in the sorted tasks. */
  lemma InsertPoint(tasks: seq<Task>, x: Task)
    ensures var a, b := OfWeight(tasks, 3), OfWeight(tasks, 2);
      InsertPos(ByPriority(tasks), x, PriorityLe) ==
        if Weight(x) == 3 then |a| else if Weight(x) == 2 then |a| + |b| else |ByPriority(tasks)|
  {
    var a, b, r := OfWeight(tasks, 3), OfWeight(tasks, 2), ByPriority(tasks);
    ByPriorityWeights(tasks);
    var k0 := if Weight(x) == 3 then |a| else if Weight(x) == 2 then |a| + |b| else |r|;
    InsertPosUnique(r, x, PriorityLe, k0);
  }

  /** `x` put in at the end of segment `seg` of three segments. */
  lemma InsertSegments(a: seq<Task>, b: seq<Task>, c: seq<Task>, x: Task, k: int, seg: int)
    requires 0 <= seg <= 2
    requires k == if seg == 0 then |a| else if seg == 1 then |a| + |b| else |a| + |b| + |c|
    ensures var r := a + b + c;
      r[..k] + [x] + r[k..] ==
        if seg == 0 then (a + [x]) + b + c else if seg == 1 then a + (b + [x]) + c else a + b + (c + [x])
  {
    var r := a + b + c;
    if seg == 0 {
      assert r[..k] == a && r[k..] == b + c;
    } else if seg == 1 {
      assert r[..k] == a + b && r[k..] == c;
    } else {
      assert r[..k] == r && r[k..] == [];
    }
  }

  /** The sorted tasks hold the high ones, then the medium ones, then the low ones. */
  lemma ByPriorityWeights(tasks: seq<Task>)
    ensures var a, b, r := OfWeight(tasks, 3), OfWeight(tasks, 2), ByPriority(tasks);
      forall i :: 0 <= i < |r| ==> Weight(r[i]) == if i < |a| then 3 else if i < |a| + |b| then 2 else 1
  {
    var a, b, c := OfWeight(tasks, 3), OfWeight(tasks, 2), OfWeight(tasks, 1);
    OfWeightUniform(tasks, 3);
    OfWeightUniform(tasks, 2);
    OfWeightUniform(tasks, 1);
    var r := ByPriority(tasks);
    forall i | 0 <= i < |r|
      ensures Weight(r[i]) == if i < |a| then 3 else if i < |a| + |b| then 2 else 1
    {
      if i < |a| {
        assert r[i] == a[i];
      } else if i < |a| + |b| {
        assert r[i] == b[i - |a|];
      } else {
        assert r[i] == c[i - |a| - |b|];
      }
    }
  }

  /** Keeping one weight distributes over concatenation. */
  lemma {:induction false} OfWeightAppend(a: seq<Task>, b: seq<Task>, w: int)
    ensures OfWeight(a + b, w) == OfWeight(a, w) + OfWeight(b, w)
    decreases |b|
  {
    if b == [] {
      assert a + b == a;
    } else {
      var b' := b[..|b| - 1];
      assert (a + b)[..|a + b| - 1] == a + b';
      assert (a + b)[|a + b| - 1] == b[|b| - 1];
      OfWeightAppend(a, b', w);
    }
  }

  /** A list of one weight keeps everything for that weight and nothing for another. */
  lemma {:induction false} OfWeightOnly(s: seq<Task>, v: int, w: int)
    requires forall i :: 0 <= i < |s| ==> Weight(s[i]) == v
    ensures OfWeight(s, w) == if v == w then s else []
    decreases |s|
  {
    if s != [] {
      var front := s[..|s| - 1];
      assert forall i :: 0 <= i < |front| ==> front[i] == s[i];
      OfWeightOnly(front, v, w);
      assert s == front + [s[|s| - 1]];
    }
  }

  /** One pass over the array, collecting the tasks of each weight in order. */
  method Buckets(a: array<Task>) returns (high: seq<Task>, medium: seq<Task>, low: seq<Task>)
    ensures high == OfWeight(a[..], 3) && medium == OfWeight(a[..], 2) && low == OfWeight(a[..], 1)
  {
    high, medium, low := [], [], [];
    var i := 0;
    while i < a.Length
      invariant 0 <= i <= a.Length
      invariant high == OfWeight(a[..i], 3) && medium == OfWeight(a[..i], 2) && low == OfWeight(a[..i], 1)
    {
      assert a[..i + 1] == a[..i] + [a[i]];
      OfWeightSnoc(a[..i], a[i], 3);
      OfWeightSnoc(a[..i], a[i], 2);
      OfWeightSnoc(a[..i], a[i], 1);
      var w := Weight(a[i]);
      if w == 3 {
        high := high + [a[i]];
      } else if w == 2 {
        medium := medium + [a[i]];
      } else {
        low := low + [a[i]];
      }
      i := i + 1;
    }
    assert a[..a.Length] == a[..];
  }

  /**
   * `data.tasks.sort(...)`: reorders the fetched array in place into the stable priority
   * order.
   */
  method SortTasks(a: array<Task>)
    modifies a
    ensures a[..] == ByPriority(old(a[..]))
  {
    var high, medium, low := Buckets(a);
    var sorted := high + medium + low;
    ByPriorityPermutes(a[..]);
    var j := 0;
    while j < a.Length
      invariant 0 <= j <= a.Length
      invariant forall k :: 0 <= k < j ==> a[k] == sorted[k]
    {
      a[j] := sorted[j];
      j := j + 1;
    }
    assert a[..] == sorted;
  }

  /** `sortedTasks`: the snapshot's tasks in priority order, or none without a snapshot. */
  function SortedTasks(data: Option<MissionControlData>): (r: seq<Task>)
    ensures data.None? ==> r == []
  {
    if data.None? then [] else ByPriority(data.value.tasks)
  }
}
