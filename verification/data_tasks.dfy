/**
 * The task reader of the data layer (`data-layer-server.js`): the `Last updated:`
 * date, the task-line pattern and the four fixed task buckets of `active-tasks.md`.
 */
module DataTasks {
  import opened Strings
  import opened Patterns
  import opened Seqs

  // ------------------------------------------------------------ extractDate

  const LastUpdatedLabel := "Last updated:"

  /** `\d{4}-\d{2}-\d{2}` */
  predicate DateShaped(d: string) {
    |d| == 10 && d[4] == '-' && d[7] == '-' &&
    forall i :: 0 <= i < 10 && i != 4 && i != 7 ==> IsDigit(d[i])
  }

  /**
   * `Last updated:\s*(\d{4}-\d{2}-\d{2})` tried at `i`. The greedy `\s*` never has to
   * give white space back, since a white-space character is not a digit.
   */
  function DateAt(s: string, i: nat): (g: Option<string>)
    ensures g.Some? ==> DateShaped(g.value)
  {
    if !OccursAt(s, LastUpdatedLabel, i) then None
    else
      var e := i + 13 + SpaceRun(s, i + 13);
      if e + 10 <= |s| && DateShaped(s[e..e + 10]) then Some(s[e..e + 10]) else None
  }

  /** The leftmost match at or after `i`. */
  function DateFrom(s: string, i: nat): (g: Option<string>)
    ensures g.Some? ==> DateShaped(g.value)
    decreases |s| - i
  {
    if i >= |s| then None
    else if DateAt(s, i).Some? then DateAt(s, i)
    else DateFrom(s, i + 1)
  }

  /** `extractDate`: the date after the first `Last updated:` label that is followed by one, or null. */
  function ExtractDate(content: string): (d: Option<string>)
    ensures d.Some? ==> DateShaped(d.value)
  {
    DateFrom(content, 0)
  }

  /** The search finds the leftmost position where the pattern matches, and fails only when it matches nowhere. */
  lemma DateFromMeaning(s: string, i: nat)
    ensures DateFrom(s, i).None? <==> forall k :: i <= k < |s| ==> DateAt(s, k).None?
    ensures DateFrom(s, i).Some? ==>
      exists k :: i <= k < |s| && DateAt(s, k) == DateFrom(s, i) && forall k' :: i <= k' < k ==> DateAt(s, k').None?
  {
    DateFromNone(s, i);
    if DateFrom(s, i).Some? {
      var k := DateFromLeftmost(s, i);
    }
  }

  lemma {:induction false} DateFromNone(s: string, i: nat)
    ensures DateFrom(s, i).None? <==> forall k :: i <= k < |s| ==> DateAt(s, k).None?
    decreases |s| - i
  {
    if i >= |s| {
      assert DateFrom(s, i).None?;
    } else if DateAt(s, i).Some? {
      assert DateFrom(s, i) == DateAt(s, i);
    } else {
      assert DateFrom(s, i) == DateFrom(s, i + 1);
      DateFromNone(s, i + 1);
    }
  }

  /** The position of the match the search returns, with no match before it. */
  lemma {:induction false} DateFromLeftmost(s: string, i: nat) returns (k: nat)
    requires DateFrom(s, i).Some?
    ensures i <= k < |s| && DateAt(s, k) == DateFrom(s, i)
    ensures forall k' :: i <= k' < k ==> DateAt(s, k').None?
    decreases |s| - i
  {
    if DateAt(s, i).Some? {
      k := i;
    } else {
      assert DateFrom(s, i) == DateFrom(s, i + 1);
      k := DateFromLeftmost(s, i + 1);
      forall k' | i <= k' < k
        ensures DateAt(s, k').None?
      {
        if k' == i {
          assert DateAt(s, i).None?;
        }
      }
    }
  }

  /** A document that opens with `Last updated: ` and a date is dated by that date. */
  lemma ExtractDateOfLabel(d: string, rest: string)
    requires DateShaped(d)
    ensures ExtractDate(LastUpdatedLabel + " " + d + rest) == Some(d)
  {
    var s := LastUpdatedLabel + " " + d + rest;
    assert s[..13] == LastUpdatedLabel;
    assert s[13] == ' ' && s[14] == d[0];
    assert SpaceRun(s, 14) == 0;
    assert s[14..24] == d;
  }

  // ------------------------------------------------------------ parseTaskLine

  /** What `parseTaskLine` returns: the task's fields, or the trimmed raw line. */
  datatype TaskLine = ParsedTask(title: string, completed: bool, details: Option<string>) | RawLine(raw: string)

  /** A match of the task pattern: the box character, the title group's bounds and the details group. */
  datatype TaskMatch = TaskMatch(box: char, lo: nat, hi: nat, details: Option<string>)

  /**
   * `\s*(?:—\s*(.+))?` at `p`. The optional group is tried first; white space given back
   * by the first `\s*` cannot make the em dash match, so the group is empty exactly when
   * no em dash follows the white space or nothing follows the em dash on the line.
   */
  function DetailsAfter(s: string, p: nat): (g: Option<string>)
    requires p <= |s|
  {
    var e := p + SpaceRun(s, p);
    if e < |s| && s[e] == '—' then SpacedRest(s, e + 1) else None
  }

  /** `-\s*\[([ x])\]\s*\*\*(.+?)\*\*\s*(?:—\s*(.+))?` tried at `i`. */
  function TaskMatchAt(s: string, i: nat): (m: Option<TaskMatch>)
    ensures m.Some? ==> i < m.value.lo < m.value.hi <= |s| && (m.value.box == ' ' || m.value.box == 'x')
  {
    if i >= |s| || s[i] != '-' then None
    else
      var a := i + 1 + SpaceRun(s, i + 1);
      if a + 3 > |s| || s[a] != '[' || !(s[a + 1] == ' ' || s[a + 1] == 'x') || s[a + 2] != ']' then None
      else
        var b := a + 3 + SpaceRun(s, a + 3);
        if !OccursAt(s, "**", b) then None
        else
          var j := LazyClose(s, b + 2, 1, "**");
          if j < 0 then None
          else Some(TaskMatch(s[a + 1], b + 2, j, DetailsAfter(s, j + 2)))
  }

  /** The leftmost match at or after `i`. */
  function TaskMatchFrom(s: string, i: nat): (m: Option<TaskMatch>)
    ensures m.Some? ==> m.value.lo < m.value.hi <= |s| && (m.value.box == ' ' || m.value.box == 'x')
    decreases |s| - i
  {
    if i >= |s| then None
    else if TaskMatchAt(s, i).Some? then TaskMatchAt(s, i)
    else TaskMatchFrom(s, i + 1)
  }

  /** `details?.trim() || null` */
  function DetailsValue(g: Option<string>): (d: Option<string>)
    ensures d.Some? ==> d.value != [] && Trim(d.value) == d.value
    ensures d.None? <==> g.None? || Trim(g.value) == []
  {
    if g.None? || Trim(g.value) == [] then None
    else
      TrimIdempotent(g.value);
      Some(Trim(g.value))
  }

  /** `parseTaskLine`: never fails; a line the pattern does not match gives its trimmed text. */
  function ParseTaskLine(line: string): (t: TaskLine)
    ensures t.RawLine? <==> forall i :: 0 <= i < |line| ==> TaskMatchAt(line, i).None?
  {
    TaskMatchFromNone(line, 0);
    match TaskMatchFrom(line, 0)
    case Some(m) => ParsedTask(Trim(line[m.lo..m.hi]), m.box == 'x', DetailsValue(m.details))
    case None => RawLine(Trim(line))
  }

  lemma {:induction false} TaskMatchFromNone(s: string, i: nat)
    ensures TaskMatchFrom(s, i).None? <==> forall k :: i <= k < |s| ==> TaskMatchAt(s, k).None?
    decreases |s| - i
  {
    if i >= |s| {
      assert TaskMatchFrom(s, i).None?;
    } else if TaskMatchAt(s, i).Some? {
      assert TaskMatchFrom(s, i) == TaskMatchAt(s, i);
    } else {
      assert TaskMatchFrom(s, i) == TaskMatchFrom(s, i + 1);
      TaskMatchFromNone(s, i + 1);
    }
  }

  /** The task line `- [box] **title**`, followed by ` — details` when there are details. */
  function TaskText(box: char, title: string, details: string): string {
    "- [" + [box] + "] **" + title + "**" + (if details == [] then [] else " — " + details)
  }

  /** Where the title of a task line closes. */
  lemma TaskTextTitle(box: char, title: string, tail: string)
    requires title != [] && '*' !in title && NoLineTerminator(title)
    ensures var s := "- [" + [box] + "] **" + title + "**" + tail;
      |s| == 10 + |title| + |tail| && s[0] == '-' && s[1] == ' ' && s[2] == '[' && s[3] == box && s[4] == ']' &&
      s[5] == ' ' && s[6] == '*' && s[7] == '*' &&
      LazyClose(s, 8, 1, "**") == 8 + |title| && s[8..8 + |title|] == title && s[10 + |title|..] == tail
  {
    var pre := "- [" + [box] + "] **";
    var s := pre + title + "**" + tail;
    assert s == pre + title + "**" + tail;
    LazyCloseOfPlain(pre, title, "**", tail);
    assert s[8..8 + |title|] == title;
    assert s[10 + |title|..] == tail;
  }

  /** The optional details part of a task line: nothing, or ` — ` and the details. */
  lemma DetailsAfterOf(s: string, p: nat, details: string)
    requires p <= |s| && s[p..] == (if details == [] then [] else " — " + details)
    requires details == [] || (!IsSpace(details[0]) && NoLineTerminator(details))
    ensures DetailsAfter(s, p) == if details == [] then None else Some(details)
  {
    if details != [] {
      DashTailChars(s, p, details);
      DetailsAfterDash(s, p, details);
    }
  }

  /** ` — ` and the details, character by character. */
  lemma DashTailChars(s: string, p: nat, details: string)
    requires p <= |s| && s[p..] == " — " + details && details != []
    ensures p + 3 < |s| && s[p] == ' ' && s[p + 1] == '—' && s[p + 2] == ' ' && s[p + 3..] == details
  {
    assert s[p..][3..] == details;
  }

  lemma DetailsAfterDash(s: string, p: nat, details: string)
    requires p + 3 < |s| && s[p] == ' ' && s[p + 1] == '—' && s[p + 2] == ' ' && s[p + 3..] == details
    requires !IsSpace(details[0]) && NoLineTerminator(details)
    ensures DetailsAfter(s, p) == Some(details)
  {
    assert s[p + 3] == details[0];
    assert SpaceRun(s, p) == 1;
    assert SpaceRun(s, p + 2) == 1;
    LineEndOfPlain(s, p + 3);
    assert s[p + 3..|s|] == details;
  }

  /** The head `- [box] **` of a task line. */
  lemma TaskTextHead(s: string, box: char)
    requires |s| >= 8 && s[0] == '-' && s[1] == ' ' && s[2] == '[' && s[3] == box && s[4] == ']'
    requires s[5] == ' ' && s[6] == '*' && s[7] == '*'
    ensures SpaceRun(s, 1) == 1 && SpaceRun(s, 5) == 1 && OccursAt(s, "**", 6)
  {
    assert s[6..8] == "**";
  }

  /** A line opening with `- [box] **` whose title closes at `j` matches at its first character. */
  lemma TaskMatchAtHead(s: string, box: char, j: nat)
    requires |s| >= 8 && s[0] == '-' && s[1] == ' ' && s[2] == '[' && s[3] == box && s[4] == ']'
    requires s[5] == ' ' && s[6] == '*' && s[7] == '*' && (box == ' ' || box == 'x')
    requires LazyClose(s, 8, 1, "**") == j
    ensures j + 2 <= |s| && TaskMatchAt(s, 0) == Some(TaskMatch(box, 8, j, DetailsAfter(s, j + 2)))
  {
    TaskTextHead(s, box);
  }

  /** The pattern matches a task line at its first character. */
  lemma TaskTextMatch(box: char, title: string, details: string)
    requires box == ' ' || box == 'x'
    requires title != [] && '*' !in title && NoLineTerminator(title)
    requires details == [] || (!IsSpace(details[0]) && NoLineTerminator(details))
    ensures var s := TaskText(box, title, details);
      TaskMatchAt(s, 0) == Some(TaskMatch(box, 8, 8 + |title|, if details == [] then None else Some(details))) &&
      s[8..8 + |title|] == title
  {
    var tail: string := if details == [] then [] else " — " + details;
    var s := TaskText(box, title, details);
    TaskTextTitle(box, title, tail);
    TaskMatchAtHead(s, box, 8 + |title|);
    DetailsAfterOf(s, 10 + |title|, details);
  }

  /** On a suffix without line terminators, `.+` runs to the end. */
  lemma LineEndOfPlain(s: string, k: nat)
    requires k <= |s| && NoLineTerminator(s[k..])
    ensures LineEnd(s, k) == |s|
  {
    forall i | k <= i < |s|
      ensures !IsLineTerminator(s[i])
    {
      assert s[k..][i - k] == s[i];
    }
  }

  /**
   * A task line written with a plain title (no '*', one line) reads back with its
   * trimmed title, completed exactly when the box holds 'x', and its details.
   */
  lemma TaskTextRoundTrip(box: char, title: string, details: string)
    requires box == ' ' || box == 'x'
    requires title != [] && '*' !in title && NoLineTerminator(title)
    requires details == [] || (!IsSpace(details[0]) && NoLineTerminator(details))
    ensures ParseTaskLine(TaskText(box, title, details)) ==
      ParsedTask(Trim(title), box == 'x', if details == [] then None else Some(Trim(details)))
  {
    var s := TaskText(box, title, details);
    TaskTextMatch(box, title, details);
    assert TaskMatchFrom(s, 0) == TaskMatchAt(s, 0);
    if details != [] {
      TrimBlank(details);
    }
  }

  // ------------------------------------------------------------ parseActiveTasks

  /** The four fixed task buckets. */
  datatype Bucket = RecentlyCompleted | InProgress | Blocked | Backlog

  datatype Buckets = Buckets(recentlyCompleted: seq<TaskLine>, inProgress: seq<TaskLine>, blocked: seq<TaskLine>, backlog: seq<TaskLine>)

  const EmptyBuckets := Buckets([], [], [], [])

  function TasksIn(bs: Buckets, b: Bucket): seq<TaskLine> {
    match b
    case RecentlyCompleted => bs.recentlyCompleted
    case InProgress => bs.inProgress
    case Blocked => bs.blocked
    case Backlog => bs.backlog
  }

  /** `sections[b].push(t)`: bucket `b` gains `t` at its end and the other buckets stay. */
  function PushTask(bs: Buckets, b: Bucket, t: TaskLine): (r: Buckets)
    ensures TasksIn(r, b) == TasksIn(bs, b) + [t]
    ensures forall c :: c != b ==> TasksIn(r, c) == TasksIn(bs, c)
  {
    match b
    case RecentlyCompleted => bs.(recentlyCompleted := bs.recentlyCompleted + [t])
    case InProgress => bs.(inProgress := bs.inProgress + [t])
    case Blocked => bs.(blocked := bs.blocked + [t])
    case Backlog => bs.(backlog := bs.backlog + [t])
  }

  /** What `parseActiveTasks` returns: `{lastUpdated: null, sections: {}}`, or the date and the four buckets. */
  datatype ActiveTasksData = NoActiveTasks | ActiveTasksData(lastUpdated: Option<string>, sections: Buckets)

  /** A line holding '##' selects the first bucket whose name it contains, or none. */
  function HeadingBucket(line: string): (b: Option<Bucket>)
    ensures b == Some(RecentlyCompleted) <==> Contains(line, "Recently Completed")
    ensures b == Some(InProgress) <==> !Contains(line, "Recently Completed") && Contains(line, "In Progress")
  {
    if Contains(line, "Recently Completed") then Some(RecentlyCompleted)
    else if Contains(line, "In Progress") then Some(InProgress)
    else if Contains(line, "Blocked") then Some(Blocked)
    else if Contains(line, "Backlog") then Some(Backlog)
    else None
  }

  /** `line.trim().startsWith('- [')` */
  predicate IsTaskItem(line: string) {
    StartsWith(Trim(line), "- [")
  }

  predicate IsHeadingLine(line: string) {
    Contains(line, "##")
  }

  /** The loop's state: `currentSection` and the buckets. */
  datatype TaskScan = TaskScan(current: Option<Bucket>, sections: Buckets)

  /** One iteration of the line loop. */
  function TaskStep(st: TaskScan, line: string): TaskScan {
    if IsHeadingLine(line) then TaskScan(HeadingBucket(line), st.sections)
    else if st.current.Some? && IsTaskItem(line) then
      TaskScan(st.current, PushTask(st.sections, st.current.value, ParseTaskLine(line)))
    else st
  }

  /** The state after the first `n` lines. */
  function ScanTasks(lines: seq<string>, n: nat): TaskScan
    requires n <= |lines|
  {
    if n == 0 then TaskScan(None, EmptyBuckets) else TaskStep(ScanTasks(lines, n - 1), lines[n - 1])
  }

  /** `parseActiveTasks`: a missing or empty document gives no buckets; otherwise the date and the four buckets. */
  function ActiveTasksOf(content: Option<string>): (r: ActiveTasksData)
    ensures r.NoActiveTasks? <==> content.None? || content.value == []
    ensures r.ActiveTasksData? ==> r.lastUpdated == ExtractDate(content.value)
  {
    if content.None? || content.value == [] then NoActiveTasks
    else
      var lines := Lines(content.value);
      ActiveTasksData(ExtractDate(content.value), ScanTasks(lines, |lines|).sections)
  }

  // ------------------------------------------------------------ what the loop builds

  /** The index of the last line before `n` that holds '##', or -1. */
  function LastHeading(lines: seq<string>, n: nat): (k: int)
    requires n <= |lines|
    ensures -1 <= k < n
    ensures k >= 0 ==> IsHeadingLine(lines[k])
    ensures forall j :: k < j < n ==> !IsHeadingLine(lines[j])
  {
    if n == 0 then -1 else if IsHeadingLine(lines[n - 1]) then n - 1 else LastHeading(lines, n - 1)
  }

  /** The bucket of the nearest line above `n` that holds '##'; none before the first such line. */
  function BucketAbove(lines: seq<string>, n: nat): Option<Bucket>
    requires n <= |lines|
  {
    var k := LastHeading(lines, n);
    if k < 0 then None else HeadingBucket(lines[k])
  }

  /** The task items before `n` whose nearest heading above selects bucket `b`, parsed, in order. */
  function TasksUnder(lines: seq<string>, b: Bucket, n: nat): seq<TaskLine>
    requires n <= |lines|
  {
    if n == 0 then []
    else
      var line := lines[n - 1];
      TasksUnder(lines, b, n - 1) +
      (if !IsHeadingLine(line) && IsTaskItem(line) && BucketAbove(lines, n - 1) == Some(b) then [ParseTaskLine(line)] else [])
  }

  /**
   * The loop's invariant: `currentSection` is the bucket of the nearest heading, and
   * every bucket holds exactly the parsed task items under headings that select it.
   * Items before the first heading, or under a heading that names no bucket, are dropped.
   */
  lemma {:induction false} ScanTasksMeaning(lines: seq<string>, n: nat)
    requires n <= |lines|
    ensures ScanTasks(lines, n).current == BucketAbove(lines, n)
    ensures forall b :: TasksIn(ScanTasks(lines, n).sections, b) == TasksUnder(lines, b, n)
    decreases n
  {
    if n > 0 {
      ScanTasksMeaning(lines, n - 1);
    }
  }

  /** A document without a '##' line has four empty buckets. */
  lemma {:induction false} NoHeadingNoTasks(lines: seq<string>, n: nat, b: Bucket)
    requires n <= |lines| && forall j :: 0 <= j < n ==> !IsHeadingLine(lines[j])
    ensures TasksUnder(lines, b, n) == []
    decreases n
  {
    if n > 0 {
      NoHeadingNoTasks(lines, n - 1, b);
    }
  }

  // ------------------------------------------------------------ the loop

  method ParseActiveTasks(content: Option<string>) returns (r: ActiveTasksData)
    ensures r == ActiveTasksOf(content)
  {
    if content.None? || content.value == [] {
      return NoActiveTasks;
    }
    var lines := Lines(content.value);
    var current: Option<Bucket> := None;
    var sections := EmptyBuckets;
    var i := 0;
    while i < |lines|
      invariant i <= |lines| && ScanTasks(lines, i) == TaskScan(current, sections)
    {
      var line := lines[i];
      assert ScanTasks(lines, i + 1) == TaskStep(TaskScan(current, sections), line);
      if IsHeadingLine(line) {
        current := HeadingBucket(line);
      } else if current.Some? && IsTaskItem(line) {
        sections := PushTask(sections, current.value, ParseTaskLine(line));
      }
      i := i + 1;
    }
    r := ActiveTasksData(ExtractDate(content.value), sections);
  }
}
