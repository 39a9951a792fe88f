/**
 * The task-file kernel of the small task API (`api-server.js`): the section-less
 * checkbox reader `parseActiveTasksMarkdown` and the line edit of `upsertActiveTask`.
 * The file read is a parameter (an unreadable file reads as the empty text) and the
 * written text is the result.
 */
module ApiTasks {
  import opened Strings
  import opened Patterns
  import opened Seqs
  import DataTasks

  const ActiveTasksSource := "active-tasks.md"

  /** One task of `parseActiveTasksMarkdown`. */
  datatype ActiveTask = ActiveTask(completed: bool, title: string, description: string, source: string)

  // ------------------------------------------------------------ parseActiveTasksMarkdown

  /**
   * `^\s*-\s*\[([ x])\]\s*\*\*(.+?)\*\*(?:\s*—\s*(.+))?` on one line. The leading `\s*`
   * cannot give white space back to `-`, so the rest of the pattern is matched on the
   * text after the leading white space. That rest is the task pattern of the data layer,
   * whose `\s*` before the optional em-dash group captures the same group.
   */
  function LineTask(line: string): (t: Option<ActiveTask>)
    ensures t.Some? ==> t.value.source == ActiveTasksSource && t.value.title != []
    ensures t.Some? ==> var m := DataTasks.TaskMatchAt(Unindented(line), 0); m.Some? && (t.value.completed <==> m.value.box == 'x')
  {
    var rest := Unindented(line);
    match DataTasks.TaskMatchAt(rest, 0)
    case None => None
    case Some(m) =>
      var description := if m.details.Some? then m.details.value else "";
      Some(ActiveTask(m.box == 'x', rest[m.lo..m.hi], description, ActiveTasksSource))
  }

  /** The line after its leading white space. */
  function Unindented(line: string): (rest: string)
    ensures |rest| <= |line| && (rest == [] || !IsSpace(rest[0]))
  {
    line[SpaceRun(line, 0)..]
  }

  /** Each line's task, or None. */
  function LineTasks(lines: seq<string>): (r: seq<Option<ActiveTask>>)
    ensures |r| == |lines| && forall i :: 0 <= i < |lines| ==> r[i] == LineTask(lines[i])
  {
    seq(|lines|, i requires 0 <= i < |lines| => LineTask(lines[i]))
  }

  /** The tasks of the lines, in line order. */
  function TasksOfLines(lines: seq<string>): seq<ActiveTask> {
    Somes(LineTasks(lines))
  }

  /** `parseActiveTasksMarkdown`: one task per matching line of the file, wherever it stands. */
  function ParseActiveTasksMarkdown(content: string): seq<ActiveTask> {
    TasksOfLines(Lines(content))
  }

  /** Reading two runs of lines one after the other gives the tasks of both, in order. */
  lemma TasksOfLinesAppend(a: seq<string>, b: seq<string>)
    ensures TasksOfLines(a + b) == TasksOfLines(a) + TasksOfLines(b)
  {
    var both, la, lb := LineTasks(a + b), LineTasks(a), LineTasks(b);
    forall i | 0 <= i < |a + b|
      ensures both[i] == (la + lb)[i]
    {
      if i < |a| {
        assert (a + b)[i] == a[i];
      } else {
        assert (a + b)[i] == b[i - |a|];
      }
    }
    assert both == la + lb;
    SomesAppend(la, lb);
  }

  /** One line gives its task, or nothing. */
  lemma TasksOfOneLine(line: string)
    ensures TasksOfLines([line]) == if LineTask(line).Some? then [LineTask(line).value] else []
  {
    assert LineTasks([line])[..0] == [];
  }

  /** A task is read exactly when some line describes it; there is no section to be in. */
  lemma TasksOfLinesMeaning(lines: seq<string>, t: ActiveTask)
    ensures t in TasksOfLines(lines) <==> exists i :: 0 <= i < |lines| && LineTask(lines[i]) == Some(t)
  {
    SomesMeaning(LineTasks(lines), t);
  }

  /** The `forEach` over the lines, pushing each match. */
  method ParseMarkdownTasks(content: string) returns (tasks: seq<ActiveTask>)
    ensures tasks == ParseActiveTasksMarkdown(content)
  {
    var lines := Lines(content);
    tasks := [];
    var i := 0;
    while i < |lines|
      invariant 0 <= i <= |lines|
      invariant tasks == TasksOfLines(lines[..i])
    {
      var t := LineTask(lines[i]);
      TakeSnoc(lines, i);
      TasksOfLinesAppend(lines[..i], [lines[i]]);
      TasksOfOneLine(lines[i]);
      if t.Some? {
        tasks := tasks + [t.value];
      }
      i := i + 1;
    }
    TakeAll(lines);
  }

  // ------------------------------------------------------------ reading a written line

  /** The task line `- [b] **title** — description` that `upsertActiveTask` writes. */
  function UpsertLine(done: bool, title: string, description: string): string {
    "- [" + [if done then 'x' else ' '] + "] **" + title + "** — " + description
  }

  /** The description read back from a written line: an empty one comes back as the single space after the em dash. */
  function ReadBackDescription(description: string): (d: string)
    ensures d != []
    ensures description != [] ==> d == description
  {
    if description == [] then " " else description
  }

  /** After the closing `**`, ` — ` with nothing after it captures the space after the em dash. */
  lemma DetailsOfBareDash(s: string, p: nat)
    requires p <= |s| && s[p..] == " — "
    ensures DataTasks.DetailsAfter(s, p) == Some(" ")
  {
    assert s[p] == ' ' && s[p + 1] == '—' && s[p + 2] == ' ' && |s| == p + 3;
    assert SpaceRun(s, p) == 1;
    assert SpaceRun(s, p + 2) == 1;
    assert LastNonTerminator(s, p + 2, p + 3) == p + 2;
    assert LineEnd(s, p + 3) == p + 3;
    assert s[p + 2..p + 3] == " ";
  }

  /** The task pattern matches a written line at its dash, with the title and the description read back. */
  lemma UpsertLineMatch(done: bool, title: string, description: string)
    requires title != [] && '*' !in title && NoLineTerminator(title)
    requires description == [] || (!IsSpace(description[0]) && NoLineTerminator(description))
    ensures var s := UpsertLine(done, title, description);
      DataTasks.TaskMatchAt(s, 0) ==
        Some(DataTasks.TaskMatch(if done then 'x' else ' ', 8, 8 + |title|, Some(ReadBackDescription(description)))) &&
      s[8..8 + |title|] == title
  {
    var b := if done then 'x' else ' ';
    var tail := " — " + description;
    var s := UpsertLine(done, title, description);
    assert s == "- [" + [b] + "] **" + title + "**" + tail;
    DataTasks.TaskTextTitle(b, title, tail);
    DataTasks.TaskMatchAtHead(s, b, 8 + |title|);
    if description == [] {
      DetailsOfBareDash(s, 10 + |title|);
    } else {
      DataTasks.DetailsAfterOf(s, 10 + |title|, description);
    }
  }

  /**
   * A written task line reads back as one task with the title as written, completed
   * exactly when it was written done, and the description (a single space when it was
   * empty, the space the em dash is followed by).
   */
  lemma UpsertLineTask(done: bool, title: string, description: string)
    requires title != [] && '*' !in title && NoLineTerminator(title)
    requires description == [] || (!IsSpace(description[0]) && NoLineTerminator(description))
    ensures LineTask(UpsertLine(done, title, description)) ==
      Some(ActiveTask(done, title, ReadBackDescription(description), ActiveTasksSource))
  {
    var s := UpsertLine(done, title, description);
    UpsertLineMatch(done, title, description);
    UnindentedAtDash(s);
  }

  /** White space before a line is dropped with the line's own. */
  lemma UnindentedIndent(w: string, s: string)
    requires AllSpace(w)
    ensures Unindented(w + s) == Unindented(s)
  {
    SpaceRunOverSpace(w, s, 0);
    assert (w + s)[|w| + SpaceRun(s, 0)..] == s[SpaceRun(s, 0)..];
  }

  /** A line that starts with its dash has nothing to drop. */
  lemma UnindentedAtDash(s: string)
    requires s != [] && s[0] == '-'
    ensures Unindented(s) == s
  {
    assert SpaceRun(s, 0) == 0;
  }

  /** White space before a line does not change what it reads as. */
  lemma LineTaskIndent(w: string, s: string)
    requires AllSpace(w)
    ensures LineTask(w + s) == LineTask(s)
  {
    UnindentedIndent(w, s);
  }

  /** A written task line, indented by any white space, reads back as the line itself does. */
  lemma IndentedLineTask(w: string, done: bool, title: string, description: string)
    requires AllSpace(w)
    requires title != [] && '*' !in title && NoLineTerminator(title)
    requires description == [] || (!IsSpace(description[0]) && NoLineTerminator(description))
    ensures LineTask(w + UpsertLine(done, title, description)) ==
      Some(ActiveTask(done, title, ReadBackDescription(description), ActiveTasksSource))
  {
    LineTaskIndent(w, UpsertLine(done, title, description));
    UpsertLineTask(done, title, description);
  }

  // ------------------------------------------------------------ upsertActiveTask

  /** `loadActiveTasks`: the file's text, or the empty text when it cannot be read. */
  function ActiveTasksText(file: Option<string>): (content: string)
    ensures file.None? ==> content == []
    ensures file.Some? ==> content == file.value
  {
    if file.Some? then file.value else ""
  }

  /** The index of the first line containing `title` (`includes`), or -1. */
  function FirstContaining(lines: seq<string>, title: string, from: nat): (k: int)
    requires from <= |lines|
    ensures k == -1 || (from <= k < |lines| && Contains(lines[k], title))
    ensures forall j :: from <= j < (if k < 0 then |lines| else k) ==> !Contains(lines[j], title)
    decreases |lines| - from
  {
    if from == |lines| then -1
    else if Contains(lines[from], title) then from
    else FirstContaining(lines, title, from + 1)
  }

  /** `lines.findIndex(l => l.match(/^## In Progress/))` */
  function FirstInProgress(lines: seq<string>, from: nat): (k: int)
    requires from <= |lines|
    ensures k == -1 || (from <= k < |lines| && StartsWith(lines[k], "## In Progress"))
    ensures forall j :: from <= j < (if k < 0 then |lines| else k) ==> !StartsWith(lines[j], "## In Progress")
    decreases |lines| - from
  {
    if from == |lines| then -1
    else if StartsWith(lines[from], "## In Progress") then from
    else FirstInProgress(lines, from + 1)
  }

  /** `/## (In Progress|Backlog|Recently Completed)/.exec(content)` finds a match somewhere in the file. */
  predicate HasTaskSection(content: string) {
    Contains(content, "## In Progress") || Contains(content, "## Backlog") || Contains(content, "## Recently Completed")
  }

  /** `lines.splice(at, 0, line)`, with `at` beyond the end meaning the end. */
  function SpliceIn(lines: seq<string>, at: nat, line: string): (r: seq<string>)
    ensures |r| == |lines| + 1
    ensures var p := if at < |lines| then at else |lines|;
      r[p] == line && r[..p] == lines[..p] && r[p + 1..] == lines[p..]
  {
    var p := if at < |lines| then at else |lines|;
    lines[..p] + [line] + lines[p..]
  }

  /** The lines `upsertActiveTask` writes back. */
  function Upserted(content: string, title: string, description: string, status: string): seq<string> {
    var lines := Lines(content);
    var line := UpsertLine(status == "done", title, description);
    var k := FirstContaining(lines, title, 0);
    if k >= 0 then (if HasTaskSection(content) then lines[k := line] else lines)
    else if status == "done" then lines
    else
      var h := FirstInProgress(lines, 0);
      if h < 0 then lines else SpliceIn(lines, h + 2, line)
  }

  /**
   * Whether `upsertActiveTask` writes its line: over the first line holding the title when
   * the file has a task section, or, when no line holds it and the task is not done, below
   * the first `## In Progress` heading.
   */
  predicate Edits(content: string, title: string, status: string) {
    var lines := Lines(content);
    var k := FirstContaining(lines, title, 0);
    if k >= 0 then HasTaskSection(content) else status != "done" && FirstInProgress(lines, 0) >= 0
  }

  /**
   * A task whose title is found stays where it is: the line count is unchanged, every
   * other line is kept, and the found line becomes the task line exactly when the file has
   * a task section. A done task is not moved to the completed section.
   */
  lemma UpsertFoundMeaning(content: string, title: string, description: string, status: string)
    requires FirstContaining(Lines(content), title, 0) >= 0
    ensures var lines, k, r := Lines(content), FirstContaining(Lines(content), title, 0), Upserted(content, title, description, status);
      |r| == |lines| && Contains(lines[k], title) &&
      (forall j :: 0 <= j < |lines| && j != k ==> r[j] == lines[j]) &&
      (r[k] == UpsertLine(status == "done", title, description) <==> HasTaskSection(content) || lines[k] == UpsertLine(status == "done", title, description)) &&
      (Edits(content, title, status) <==> HasTaskSection(content))
  {
  }

  /**
   * A new task that is not done goes two lines below the first `## In Progress` heading
   * (at the end when the file is shorter), after the heading itself; taking the new line
   * out again gives back the file's lines.
   */
  lemma UpsertInsertMeaning(content: string, title: string, description: string, status: string)
    requires FirstContaining(Lines(content), title, 0) < 0 && status != "done"
    requires FirstInProgress(Lines(content), 0) >= 0
    ensures var lines, h, r := Lines(content), FirstInProgress(Lines(content), 0), Upserted(content, title, description, status);
      var p := if h + 2 < |lines| then h + 2 else |lines|;
      |r| == |lines| + 1 && h < p && r[h] == lines[h] && StartsWith(r[h], "## In Progress") &&
      r[p] == UpsertLine(false, title, description) && r[..p] + r[p + 1..] == lines &&
      Edits(content, title, status)
  {
    var lines, h := Lines(content), FirstInProgress(Lines(content), 0);
    var p := if h + 2 < |lines| then h + 2 else |lines|;
    var r := Upserted(content, title, description, status);
    assert r == SpliceIn(lines, h + 2, UpsertLine(false, title, description));
    assert r[h] == r[..p][h] == lines[..p][h];
    assert lines == lines[..p] + lines[p..];
  }

  /** When nothing is edited the file is written back as it was read. */
  lemma UpsertUnchanged(content: string, title: string, description: string, status: string)
    requires !Edits(content, title, status)
    ensures Join(Upserted(content, title, description, status), "\n") == content
  {
    assert Upserted(content, title, description, status) == Lines(content);
    JoinSplit(content, '\n');
  }

  /** The written line is one line of the file. */
  lemma UpsertLineOneLine(done: bool, title: string, description: string)
    requires NoLineTerminator(title) && NoLineTerminator(description)
    ensures '\n' !in UpsertLine(done, title, description)
  {
    var s := UpsertLine(done, title, description);
    assert s == "- [" + [if done then 'x' else ' '] + "] **" + title + "** — " + description;
    assert '\n' !in title && '\n' !in description;
  }

  /** Reading the written file splits it into exactly the lines that were joined. */
  lemma UpsertedLines(content: string, title: string, description: string, status: string)
    requires NoLineTerminator(title) && NoLineTerminator(description)
    ensures Lines(Join(Upserted(content, title, description, status), "\n")) == Upserted(content, title, description, status)
  {
    var lines, r := Lines(content), Upserted(content, title, description, status);
    SplitParts(content, '\n');
    UpsertLineOneLine(status == "done", title, description);
    assert forall j :: 0 <= j < |r| ==> r[j] in lines || r[j] == UpsertLine(status == "done", title, description);
    SplitJoin(r, '\n');
  }

  /**
   * Round trip: whenever the task line is written, reading the written file back finds the
   * task with its title, done exactly when the status was `done`, and its description (a
   * single space for an empty one).
   */
  lemma UpsertRoundTrip(file: Option<string>, title: string, description: string, status: string)
    requires title != [] && '*' !in title && NoLineTerminator(title)
    requires description == [] || (!IsSpace(description[0]) && NoLineTerminator(description))
    requires Edits(ActiveTasksText(file), title, status)
    ensures ActiveTask(status == "done", title, ReadBackDescription(description), ActiveTasksSource) in
      ParseActiveTasksMarkdown(Join(Upserted(ActiveTasksText(file), title, description, status), "\n"))
  {
    var content := ActiveTasksText(file);
    var line := UpsertLine(status == "done", title, description);
    var r := Upserted(content, title, description, status);
    var k := FirstContaining(Lines(content), title, 0);
    var i := if k >= 0 then k else (var h := FirstInProgress(Lines(content), 0); if h + 2 < |Lines(content)| then h + 2 else |Lines(content)|);
    if k >= 0 {
      UpsertFoundMeaning(content, title, description, status);
    } else {
      UpsertInsertMeaning(content, title, description, status);
    }
    assert 0 <= i < |r| && r[i] == line;
    UpsertedLines(content, title, description, status);
    UpsertLineTask(status == "done", title, description);
    TasksOfLinesMeaning(r, ActiveTask(status == "done", title, ReadBackDescription(description), ActiveTasksSource));
  }

  /** The first line containing the title, found by its place. */
  lemma FirstContainingAt(lines: seq<string>, title: string, i: nat)
    requires i < |lines| && Contains(lines[i], title)
    requires forall j :: 0 <= j < i ==> !Contains(lines[j], title)
    ensures FirstContaining(lines, title, 0) == i
  {
  }

  /** With the title found at line `i`, that line is rewritten when the file has a task section. */
  lemma UpsertedFoundAt(content: string, title: string, description: string, status: string, i: nat)
    requires i < |Lines(content)| && Contains(Lines(content)[i], title)
    requires forall j :: 0 <= j < i ==> !Contains(Lines(content)[j], title)
    ensures Upserted(content, title, description, status) ==
      if HasTaskSection(content) then Lines(content)[i := UpsertLine(status == "done", title, description)] else Lines(content)
  {
    FirstContainingAt(Lines(content), title, i);
  }

  /** With the title on no line, a task that is not done goes two lines below the first `## In Progress` heading. */
  lemma UpsertedNotFound(content: string, title: string, description: string, status: string)
    requires forall j :: 0 <= j < |Lines(content)| ==> !Contains(Lines(content)[j], title)
    ensures var lines, h := Lines(content), FirstInProgress(Lines(content), 0);
      Upserted(content, title, description, status) ==
      if status == "done" || h < 0 then lines else SpliceIn(lines, h + 2, UpsertLine(status == "done", title, description))
  {
    assert FirstContaining(Lines(content), title, 0) == -1;
  }

  /** `upsertActiveTask` as the source writes it: the index loop with `break`, then the splice. */
  method UpsertActiveTask(file: Option<string>, title: string, description: string, status: string) returns (written: string)
    ensures written == Join(Upserted(ActiveTasksText(file), title, description, status), "\n")
  {
    var content := ActiveTasksText(file);
    var lines := Lines(content);
    var newTaskLine := UpsertLine(status == "done", title, description);
    var found := false;
    var i := 0;
    while i < |lines|
      invariant 0 <= i <= |lines|
      invariant lines == Lines(content)
      invariant forall j :: 0 <= j < i ==> !Contains(lines[j], title)
    {
      if Contains(lines[i], title) {
        UpsertedFoundAt(content, title, description, status, i);
        if HasTaskSection(content) {
          lines := lines[i := newTaskLine];
        }
        found := true;
        break;
      }
      i := i + 1;
    }
    if !found {
      UpsertedNotFound(content, title, description, status);
      if status != "done" {
        var insertIdx := FirstInProgress(lines, 0);
        if insertIdx != -1 {
          lines := SpliceIn(lines, insertIdx + 2, newTaskLine);
        }
      }
    }
    written := Join(lines, "\n");
  }
}
