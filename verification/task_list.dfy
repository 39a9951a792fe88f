/**
 * The section rules of `src/components/TaskList.tsx`: tasks are grouped by section (a
 * `reduce` into a record), the section names are sorted by a fixed order of well-known
 * sections, and an empty list shows the empty state instead.
 */
module TaskList {
  import opened Strings
  import opened Types
  import opened Sorting
  import Objects

  /** The section a task is listed under: its own, or `Uncategorized` when it has none. */
  function SectionName(t: Task): (n: string)
    ensures n != []
  {
    if t.section != [] then t.section else "Uncategorized"
  }

  /** The tasks of one section, in their order (what the group's array holds). */
  function TasksIn(tasks: seq<Task>, name: string): (r: seq<Task>)
    ensures |r| <= |tasks|
  {
    if tasks == [] then []
    else
      var front, last := tasks[..|tasks| - 1], tasks[|tasks| - 1];
      if SectionName(last) == name then TasksIn(front, name) + [last] else TasksIn(front, name)
  }

  /** A task is in a section's list exactly when it is one of the tasks and belongs there. */
  lemma {:induction false} TasksInMeaning(tasks: seq<Task>, name: string, x: Task)
    ensures x in TasksIn(tasks, name) <==> x in tasks && SectionName(x) == name
    decreases |tasks|
  {
    if tasks != [] {
      var front := tasks[..|tasks| - 1];
      TasksInMeaning(front, name, x);
      assert tasks == front + [tasks[|tasks| - 1]];
    }
  }

  /** The record built by the `reduce`: its keys in insertion order, and each key's tasks. */
  datatype Grouped = Grouped(order: seq<string>, members: map<string, seq<Task>>)

  /** One step of the `reduce`: a new key starts a one-task list, a known key gets the task pushed. */
  function AddTask(g: Grouped, t: Task): Grouped {
    var name := SectionName(t);
    if name in g.members then Grouped(g.order, g.members[name := g.members[name] + [t]])
    else Grouped(g.order + [name], g.members[name := [t]])
  }

  /** `tasks.reduce(...)` from the empty record. */
  function GroupAll(tasks: seq<Task>): Grouped {
    if tasks == [] then Grouped([], map[])
    else AddTask(GroupAll(tasks[..|tasks| - 1]), tasks[|tasks| - 1])
  }

  /** Some task's section is a name the record inherits, such as `toString`. */
  predicate InheritedSection(tasks: seq<Task>) {
    exists i :: 0 <= i < |tasks| && SectionName(tasks[i]) in Objects.InheritedNames
  }

  /**
   * The `reduce` as it runs: for a section that is an inherited name, `!acc[section]` is
   * false, so no list is made, and `acc[section].push` throws (`None`). Otherwise every
   * step is `AddTask`, and the record is `GroupAll`.
   */
  function Reduce(tasks: seq<Task>): (r: Option<Grouped>)
    ensures r.None? <==> InheritedSection(tasks)
    ensures r.Some? ==> r.value == GroupAll(tasks)
    decreases |tasks|
  {
    if tasks == [] then Some(Grouped([], map[]))
    else
      var front, last := tasks[..|tasks| - 1], tasks[|tasks| - 1];
      var before := Reduce(front);
      assert forall i :: 0 <= i < |front| ==> front[i] == tasks[i];
      if before.None? || SectionName(last) in Objects.InheritedNames then None
      else Some(AddTask(before.value, last))
  }

  /** No name occurs twice. */
  predicate Distinct(names: seq<string>) {
    forall i, j :: 0 <= i < j < |names| ==> names[i] != names[j]
  }

  /**
   * `g` groups `tasks`: its keys, listed once each in `order`, are the sections of the
   * tasks, and each key holds exactly that section's tasks in input order.
   */
  ghost predicate GroupsOf(g: Grouped, tasks: seq<Task>) {
    (forall n :: n in g.members <==> n in g.order) &&
    Distinct(g.order) &&
    (forall n :: n in g.members ==> g.members[n] == TasksIn(tasks, n) && g.members[n] != []) &&
    (forall i :: 0 <= i < |tasks| ==> SectionName(tasks[i]) in g.members)
  }

  /** A task appended to the list is appended to its own section's tasks and to no other. */
  lemma TasksInSnoc(tasks: seq<Task>, t: Task, name: string)
    ensures SectionName(t) == name ==> TasksIn(tasks + [t], name) == TasksIn(tasks, name) + [t]
    ensures SectionName(t) != name ==> TasksIn(tasks + [t], name) == TasksIn(tasks, name)
  {
    var s := tasks + [t];
    assert s[..|s| - 1] == tasks;
  }

  /** Each `reduce` step keeps the grouping exact. */
  lemma AddTaskStep(g: Grouped, s: seq<Task>)
    requires s != [] && GroupsOf(g, s[..|s| - 1])
    ensures GroupsOf(AddTask(g, s[|s| - 1]), s)
  {
    var tasks, t := s[..|s| - 1], s[|s| - 1];
    assert s == tasks + [t];
    var g' := AddTask(g, t);
    AddTaskKeys(g, t);
    forall n | n in g'.members
      ensures g'.members[n] == TasksIn(tasks + [t], n) && g'.members[n] != []
    {
      AddTaskMember(g, tasks, t, n);
    }
    AddTaskCovers(g, tasks, t);
  }

  /** A step appends the task to its section's list, which is new when no earlier task had it. */
  lemma AddTaskMember(g: Grouped, tasks: seq<Task>, t: Task, n: string)
    requires n in AddTask(g, t).members
    requires n in g.members ==> g.members[n] == TasksIn(tasks, n) && g.members[n] != []
    requires forall i :: 0 <= i < |tasks| ==> SectionName(tasks[i]) in g.members
    ensures AddTask(g, t).members[n] == TasksIn(tasks + [t], n) && AddTask(g, t).members[n] != []
  {
    TasksInSnoc(tasks, t, n);
    if n !in g.members {
      TasksInNone(tasks, n);
    }
  }

  /** A section no task has lists nothing. */
  lemma {:induction false} TasksInNone(tasks: seq<Task>, n: string)
    requires forall i :: 0 <= i < |tasks| ==> SectionName(tasks[i]) != n
    ensures TasksIn(tasks, n) == []
    decreases |tasks|
  {
    if tasks != [] {
      var front := tasks[..|tasks| - 1];
      assert forall i :: 0 <= i < |front| ==> front[i] == tasks[i];
      TasksInNone(front, n);
    }
  }

  /** A step keeps the keys and the insertion order in step, each key listed once. */
  lemma AddTaskKeys(g: Grouped, t: Task)
    requires forall n :: n in g.members <==> n in g.order
    requires Distinct(g.order)
    ensures var g' := AddTask(g, t);
      (forall n :: n in g'.members <==> n in g'.order) && Distinct(g'.order)
  {
  }

  /** After a step every task's section, the new one's included, is a key. */
  lemma AddTaskCovers(g: Grouped, tasks: seq<Task>, t: Task)
    requires forall i :: 0 <= i < |tasks| ==> SectionName(tasks[i]) in g.members
    ensures var s, g' := tasks + [t], AddTask(g, t);
      forall i :: 0 <= i < |s| ==> SectionName(s[i]) in g'.members
  {
    var s, g' := tasks + [t], AddTask(g, t);
    forall i | 0 <= i < |s|
      ensures SectionName(s[i]) in g'.members
    {
      if i < |tasks| {
        assert s[i] == tasks[i];
      }
    }
  }

  /** The `reduce` groups every task: one key per section, each with its tasks in order. */
  lemma {:induction false} GroupAllGroups(tasks: seq<Task>)
    ensures GroupsOf(GroupAll(tasks), tasks)
    decreases |tasks|
  {
    if tasks != [] {
      var front := tasks[..|tasks| - 1];
      GroupAllGroups(front);
      AddTaskStep(GroupAll(front), tasks);
    }
  }

  /** When the `reduce` does not throw, its record groups every task as `GroupsOf` says. */
  lemma ReduceGroups(tasks: seq<Task>)
    requires !InheritedSection(tasks)
    ensures Reduce(tasks).Some? && GroupsOf(Reduce(tasks).value, tasks)
  {
    GroupAllGroups(tasks);
  }

  /** Every task lands in exactly one group: the one of its section. */
  lemma TaskInOneGroup(tasks: seq<Task>, i: int, name: string)
    requires 0 <= i < |tasks|
    requires name in GroupAll(tasks).members
    ensures tasks[i] in GroupAll(tasks).members[name] <==> name == SectionName(tasks[i])
    ensures SectionName(tasks[i]) in GroupAll(tasks).members
  {
    GroupAllGroups(tasks);
    TasksInMeaning(tasks, name, tasks[i]);
  }

  /** The well-known sections, in display order. */
  const SectionOrder: seq<string> := ["In Progress", "To Do", "Blocked", "Done", "Completed"]

  /** The well-known section at `j` appears, ignoring case, inside `name`. */
  predicate Mentions(name: string, j: int)
    requires 0 <= j < |SectionOrder|
  {
    Contains(Lower(name), Lower(SectionOrder[j]))
  }

  /** The first well-known section at or after `j` that `name` mentions, or -1. */
  function RankFrom(name: string, j: nat): (r: int)
    requires j <= |SectionOrder|
    ensures r == -1 || (j <= r < |SectionOrder| && Mentions(name, r))
    ensures forall k :: j <= k < |SectionOrder| && (r == -1 || k < r) ==> !Mentions(name, k)
    decreases |SectionOrder| - j
  {
    if j == |SectionOrder| then -1
    else if Mentions(name, j) then j
    else RankFrom(name, j + 1)
  }

  /** `sectionOrder.findIndex(...)`: the first well-known section the name mentions, or -1. */
  function Rank(name: string): (r: int)
    ensures -1 <= r < |SectionOrder|
    ensures r >= 0 ==> Mentions(name, r) && forall k :: 0 <= k < r ==> !Mentions(name, k)
    ensures r == -1 <==> forall k :: 0 <= k < |SectionOrder| ==> !Mentions(name, k)
  {
    RankFrom(name, 0)
  }

  /**
   * Code-point order of two texts, -1, 0 or 1: it stands for `localeCompare`, whose
   * collation depends on the locale.
   */
  function LexCompare(a: string, b: string): (c: int)
    ensures -1 <= c <= 1
    ensures c == 0 <==> a == b
  {
    if a == [] && b == [] then 0
    else if a == [] then -1
    else if b == [] then 1
    else if a[0] < b[0] then -1
    else if a[0] > b[0] then 1
    else
      assert a == [a[0]] + a[1..] && b == [b[0]] + b[1..];
      LexCompare(a[1..], b[1..])
  }

  /** Swapping the texts flips the comparison. */
  lemma {:induction false} LexAntisymmetric(a: string, b: string)
    ensures LexCompare(b, a) == -LexCompare(a, b)
    decreases |a|
  {
    if a != [] && b != [] && a[0] == b[0] {
      LexAntisymmetric(a[1..], b[1..]);
    }
  }

  /** Code-point order is transitive. */
  lemma {:induction false} LexTransitive(a: string, b: string, c: string)
    requires LexCompare(a, b) <= 0 && LexCompare(b, c) <= 0
    ensures LexCompare(a, c) <= 0
    decreases |a|
  {
    if a != [] && b != [] && c != [] && a[0] == b[0] && b[0] == c[0] {
      LexTransitive(a[1..], b[1..], c[1..]);
    }
  }

  /** The comparator given to `sort`: ranked sections by rank and before the others, which compare as text. */
  function Compare(a: string, b: string): int {
    var ra, rb := Rank(a), Rank(b);
    if ra != -1 && rb != -1 then ra - rb
    else if ra != -1 then -1
    else if rb != -1 then 1
    else LexCompare(a, b)
  }

  /** `a` may come before `b`. */
  predicate Le(a: string, b: string) {
    Compare(a, b) <= 0
  }

  /**
   * The comparator is consistent: swapping flips it, equal ranks compare equal, and a
   * ranked section always comes before an unranked one.
   */
  lemma CompareMeaning(a: string, b: string)
    ensures Compare(b, a) == -Compare(a, b)
    ensures Rank(a) != -1 && Rank(a) == Rank(b) ==> Compare(a, b) == 0
    ensures Rank(a) != -1 && Rank(b) == -1 ==> Compare(a, b) < 0
    ensures Rank(a) == -1 && Rank(b) == -1 ==> (Compare(a, b) == 0 <==> a == b)
  {
    LexAntisymmetric(a, b);
  }

  /** Any two sections can be ordered. */
  lemma LeTotal(a: string, b: string)
    ensures Le(a, b) || Le(b, a)
  {
    CompareMeaning(a, b);
  }

  /** The order is transitive. */
  lemma LeTransitive(a: string, b: string, c: string)
    requires Le(a, b) && Le(b, c)
    ensures Le(a, c)
  {
    if Rank(a) == -1 && Rank(b) == -1 && Rank(c) == -1 {
      LexTransitive(a, b, c);
    }
  }

  /** The comparator orders all section names: totally and transitively. */
  lemma LePreorder()
    ensures Total(Le) && Transitive(Le)
  {
    forall a, b
      ensures Le(a, b) || Le(b, a)
    {
      LeTotal(a, b);
    }
    forall a, b, c | Le(a, b) && Le(b, c)
      ensures Le(a, c)
    {
      LeTransitive(a, b, c);
    }
  }

  /** `Object.keys(grouped).sort(...)`. */
  function SortSections(names: seq<string>): seq<string> {
    SortBy(names, Le)
  }

  /** The sorted names are the same names, in comparator order. */
  lemma SortSectionsSorted(names: seq<string>)
    ensures multiset(SortSections(names)) == multiset(names)
    ensures SortedBy(SortSections(names), Le)
  {
    LePreorder();
    SortByPermutes(names, Le);
    SortBySorted(names, Le);
  }

  /** A rendered section: its name and its tasks. */
  datatype Section = Section(name: string, tasks: seq<Task>)

  /** What the list shows; `RenderError` is the error the `reduce` throws while rendering. */
  datatype View = NoTasks | Sections(sections: seq<Section>) | RenderError

  /** The sections for sorted keys, each with its group's tasks. */
  function SectionsOf(names: seq<string>, members: map<string, seq<Task>>): seq<Section>
    requires forall n :: n in names ==> n in members
  {
    if names == [] then [] else [Section(names[0], members[names[0]])] + SectionsOf(names[1..], members)
  }

  /** Section `i` is the `i`-th name with its group. */
  lemma {:induction false} SectionsOfAt(names: seq<string>, members: map<string, seq<Task>>)
    requires forall n :: n in names ==> n in members
    ensures var ss := SectionsOf(names, members);
      |ss| == |names| && forall i :: 0 <= i < |ss| ==> ss[i] == Section(names[i], members[names[i]])
    decreases |names|
  {
    if names != [] {
      SectionsOfAt(names[1..], members);
    }
  }

  /** The grouped keys, sorted. */
  function SortedKeys(tasks: seq<Task>): (names: seq<string>)
    ensures forall n :: n in names ==> n in GroupAll(tasks).members
  {
    var g := GroupAll(tasks);
    GroupAllGroups(tasks);
    SortSectionsSorted(g.order);
    assert forall n :: n in SortSections(g.order) ==> n in multiset(g.order);
    SortSections(g.order)
  }

  /**
   * `TaskList`: the `reduce` runs first and throws on an inherited section name; then the
   * empty state for no tasks, else the groups in section order.
   */
  function Render(tasks: seq<Task>): (v: View)
    ensures v == NoTasks <==> tasks == []
    ensures v == RenderError <==> InheritedSection(tasks)
  {
    if Reduce(tasks).None? then RenderError
    else if tasks == [] then NoTasks
    else Sections(SectionsOf(SortedKeys(tasks), GroupAll(tasks).members))
  }

  /** The sorted keys are the tasks' sections, once each, in comparator order. */
  lemma SortedKeysMeaning(tasks: seq<Task>)
    ensures var names := SortedKeys(tasks);
      SortedBy(names, Le) && Distinct(names) &&
      (forall n :: n in names ==> n in GroupAll(tasks).members) &&
      (forall k :: 0 <= k < |tasks| ==> SectionName(tasks[k]) in names)
  {
    var g := GroupAll(tasks);
    GroupAllGroups(tasks);
    var names := SortedKeys(tasks);
    SortSectionsSorted(g.order);
    DistinctPermutation(g.order, names);
    forall k | 0 <= k < |tasks|
      ensures SectionName(tasks[k]) in names
    {
      assert SectionName(tasks[k]) in multiset(g.order);
    }
  }

  /**
   * The rendered sections are the sorted keys: the tasks' sections, once each, in comparator
   * order; each holds exactly its own tasks, in input order.
   */
  lemma RenderMeaning(tasks: seq<Task>)
    requires tasks != []
    ensures Render(tasks).Sections? <==> !InheritedSection(tasks)
    ensures Render(tasks).Sections? ==> var ss, names := Render(tasks).sections, SortedKeys(tasks);
      |ss| == |names| && SortedBy(names, Le) && Distinct(names) &&
      (forall i :: 0 <= i < |ss| ==>
        ss[i].name == names[i] && ss[i].tasks == TasksIn(tasks, names[i]) && ss[i].tasks != []) &&
      (forall k :: 0 <= k < |tasks| ==> SectionName(tasks[k]) in names)
  {
    var g := GroupAll(tasks);
    SortedKeysMeaning(tasks);
    GroupAllGroups(tasks);
    SectionsOfAt(SortedKeys(tasks), g.members);
  }

  /** A permutation of distinct names is distinct. */
  lemma DistinctPermutation(a: seq<string>, b: seq<string>)
    requires Distinct(a) && multiset(a) == multiset(b)
    ensures Distinct(b)
  {
    forall i, j | 0 <= i < j < |b|
      ensures b[i] != b[j]
    {
      if b[i] == b[j] {
        TwiceCounted(b, i, j);
        DistinctCount(a, b[i]);
      }
    }
  }

  /** A name at two positions occurs at least twice. */
  lemma TwiceCounted(b: seq<string>, i: nat, j: nat)
    requires i < j < |b| && b[i] == b[j]
    ensures multiset(b)[b[i]] >= 2
  {
    var x := b[i];
    assert b == b[..j] + b[j..];
    assert multiset(b) == multiset(b[..j]) + multiset(b[j..]);
    assert b[..j][i] == x && b[j..][0] == x;
    assert x in multiset(b[..j]) && x in multiset(b[j..]);
  }

  /** A name occurs at most once in a distinct list. */
  lemma {:induction false} DistinctCount(a: seq<string>, x: string)
    requires Distinct(a)
    ensures multiset(a)[x] <= 1
    decreases |a|
  {
    if a != [] {
      DistinctCount(a[1..], x);
      assert a == [a[0]] + a[1..];
      if a[0] == x {
        assert x !in a[1..];
      }
    }
  }
}
