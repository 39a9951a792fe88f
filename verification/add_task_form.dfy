/**
 * The task-line generator of `src/components/AddTaskForm.tsx`: `handleGenerate` turns the
 * form's title, description and priority into the markdown line that is copied to the
 * clipboard. The section chosen in the form is never part of the line.
 */
module TaskForm {
  import opened Strings
  import opened Types
  import opened Patterns
  import opened Records

  /** ` [PRIORITY]` upper-cased, for any priority but the default. */
  function PriorityTag(p: Priority): string {
    if p != Medium then " [" + Upper(PriorityName(p)) + "]" else ""
  }

  /** Only `high` and `low` are tagged, as ` [HIGH]` and ` [LOW]`. */
  lemma PriorityTagText(p: Priority)
    ensures PriorityTag(p) == match p
      case High => " [HIGH]"
      case Medium => ""
      case Low => " [LOW]"
  {
  }

  /** A second line indented two spaces holding the trimmed description, when it is not blank. */
  function DescriptionLine(description: string): string {
    if Trim(description) != [] then "\n  " + Trim(description) else ""
  }

  /** The first line: the open box and the trimmed title in bold, then the tag. */
  function FirstLine(title: string, priority: Priority): string {
    "- [ ] **" + Trim(title) + "**" + PriorityTag(priority)
  }

  /** `handleGenerate`: nothing for a blank title, otherwise the task text. */
  function Generate(title: string, description: string, priority: Priority): (r: Option<string>)
    ensures r.None? <==> AllSpace(title)
  {
    TrimBlank(title);
    if Trim(title) == [] then None
    else Some(FirstLine(title, priority) + DescriptionLine(description))
  }

  /** Trimming keeps a text free of line terminators. */
  lemma TrimNoLineTerminator(s: string)
    requires NoLineTerminator(s)
    ensures NoLineTerminator(Trim(s))
  {
    var lo := SkipSpace(s, 0);
    var r := Trim(s);
    forall i | 0 <= i < |r|
      ensures !IsLineTerminator(r[i])
    {
      assert r[i] == s[lo + i];
    }
  }

  /** The first line holds no newline when the title holds no line terminator. */
  lemma FirstLineOneLine(title: string, priority: Priority)
    requires NoLineTerminator(title)
    ensures '\n' !in FirstLine(title, priority)
  {
    TrimNoLineTerminator(title);
    PriorityTagText(priority);
    assert '\n' !in Trim(title);
  }

  /**
   * For single-line inputs the text has one line, or two when the description is not
   * blank: the first line, and the trimmed description after two spaces.
   */
  lemma GenerateLines(title: string, description: string, priority: Priority)
    requires !AllSpace(title) && NoLineTerminator(title) && NoLineTerminator(description)
    ensures Lines(Generate(title, description, priority).value) ==
      [FirstLine(title, priority)] + (if AllSpace(description) then [] else ["  " + Trim(description)])
  {
    if AllSpace(description) {
      GenerateOneLine(title, description, priority);
    } else {
      GenerateTwoLines(title, description, priority);
    }
  }

  lemma GenerateOneLine(title: string, description: string, priority: Priority)
    requires !AllSpace(title) && NoLineTerminator(title) && AllSpace(description)
    ensures Lines(Generate(title, description, priority).value) == [FirstLine(title, priority)]
  {
    var first := FirstLine(title, priority);
    assert Generate(title, description, priority).value == first by {
      TrimBlank(description);
    }
    FirstLineOneLine(title, priority);
    TextLines(first, []);
  }

  lemma GenerateTwoLines(title: string, description: string, priority: Priority)
    requires !AllSpace(title) && NoLineTerminator(title) && NoLineTerminator(description) && !AllSpace(description)
    ensures Lines(Generate(title, description, priority).value) == [FirstLine(title, priority), "  " + Trim(description)]
  {
    GenerateTwoParts(title, description, priority);
    TextLines(FirstLine(title, priority), ["  " + Trim(description)]);
  }

  /** With a description the text is the first line, a newline and the description line. */
  lemma GenerateTwoParts(title: string, description: string, priority: Priority)
    requires !AllSpace(title) && NoLineTerminator(title) && NoLineTerminator(description) && !AllSpace(description)
    ensures var first, second := FirstLine(title, priority), "  " + Trim(description);
      Generate(title, description, priority).value == first + ['\n'] + second &&
      '\n' !in first && '\n' !in second
  {
    var first, second := FirstLine(title, priority), "  " + Trim(description);
    DescriptionSplit(description);
    assert first + (['\n'] + second) == first + ['\n'] + second;
    FirstLineOneLine(title, priority);
  }

  /** A description line is a newline and a second line free of newlines. */
  lemma DescriptionSplit(d: string)
    requires NoLineTerminator(d) && !AllSpace(d)
    ensures DescriptionLine(d) == ['\n'] + ("  " + Trim(d)) && '\n' !in "  " + Trim(d)
  {
    TrimBlank(d);
    TrimNoLineTerminator(d);
    assert '\n' !in Trim(d);
    assert "\n  " + Trim(d) == ['\n'] + ("  " + Trim(d));
  }

  /** A line, or a line, a newline and a second line, split back into those lines. */
  lemma TextLines(a: string, more: seq<string>)
    requires '\n' !in a && |more| <= 1 && (|more| == 1 ==> '\n' !in more[0])
    ensures Lines(if more == [] then a else a + ['\n'] + more[0]) == [a] + more
  {
    if more == [] {
      SplitWithoutSeparator(a, '\n');
    } else {
      SplitAfterPrefix(a, '\n', more[0]);
      SplitWithoutSeparator(more[0], '\n');
    }
  }

  /** The shape of a line built like the first line, up to its title. */
  lemma BoxLineShape(t: string, tag: string)
    ensures var line := "- [ ] **" + t + "**" + tag;
      |line| >= 8 && line[..3] == "- [" && line[3] == ' ' && line[4] == ']' && line[5] == ' ' &&
      OccursAt(line, "**", 6) && SpaceRun(line, 6) == 0
  {
    var line := "- [ ] **" + t + "**" + tag;
    assert line[6..8] == "**";
  }

  /** Its bold title closes at the first `**` after it. */
  lemma BoxLineClose(t: string, tag: string)
    requires t != [] && '*' !in t && NoLineTerminator(t)
    ensures var line := "- [ ] **" + t + "**" + tag;
      LazyClose(line, 8, 1, "**") == 8 + |t| && line[8..8 + |t|] == t
  {
    LazyCloseOfPlain("- [ ] **", t, "**", tag);
    var line := "- [ ] **" + t + "**" + tag;
    assert line[8..8 + |t|] == t;
  }

  /** The task pattern matches the first line: an open box and the trimmed title. */
  lemma FirstLineMatch(title: string, priority: Priority)
    requires !AllSpace(title) && '*' !in title && NoLineTerminator(title)
    ensures TaskLineMatch(FirstLine(title, priority)) == Some((false, Trim(title)))
  {
    var t := Trim(title);
    assert t != [] && '*' !in t && NoLineTerminator(t) by {
      TrimBlank(title);
      TrimKeepsOut(title, '*');
      TrimNoLineTerminator(title);
    }
    var line := FirstLine(title, priority);
    assert line == "- [ ] **" + t + "**" + PriorityTag(priority);
    BoxLineShape(t, PriorityTag(priority));
    BoxLineClose(t, PriorityTag(priority));
    BoxMatch(line, t);
  }

  /** A line with an open box, one space and a bold title matches the task pattern. */
  lemma BoxMatch(line: string, t: string)
    requires |line| >= 8 && line[..3] == "- [" && line[3] == ' ' && line[4] == ']' && line[5] == ' '
    requires OccursAt(line, "**", 6) && SpaceRun(line, 6) == 0
    requires LazyClose(line, 8, 1, "**") == 8 + |t| && line[8..8 + |t|] == t
    ensures TaskLineMatch(line) == Some((false, t))
  {
    assert SpaceRun(line, 5) == 1;
  }

  /** The first line is read as an open task titled by the trimmed title. */
  lemma FirstLineTask(title: string, priority: Priority)
    requires !AllSpace(title) && '*' !in title && NoLineTerminator(title)
    ensures ClassifyTaskLine(FirstLine(title, priority)) == TaskItemLine(false, Trim(title))
  {
    var line := FirstLine(title, priority);
    assert CharRun(line, 0, '#') == 0 by {
      assert line[0] == '-';
    }
    FirstLineMatch(title, priority);
  }

  /** The indented description line is neither a heading nor a task. */
  lemma IndentedOther(d: string)
    ensures ClassifyTaskLine("  " + d) == OtherLine
  {
    var line := "  " + d;
    assert line[0] == ' ';
    assert CharRun(line, 0, '#') == 0;
  }

  /**
   * Round trip with `parseActiveTasks` of `src/lib/parser.ts`: the generated text is read
   * as exactly one open task, `task-0`, with the trimmed title and no section.
   */
  lemma GenerateRoundTrip(title: string, description: string, priority: Priority)
    requires !AllSpace(title) && '*' !in title && NoLineTerminator(title) && NoLineTerminator(description)
    ensures ActiveTasks(Generate(title, description, priority).value) == [MakeTask(0, false, Trim(title), "")]
  {
    var task := TaskItemLine(false, Trim(title));
    GenerateKinds(title, description, priority);
    if AllSpace(description) {
      TaskAlone(task);
    } else {
      TaskThenOther(task);
    }
  }

  /** The reader sees the task line, then, with a description, one other line. */
  lemma GenerateKinds(title: string, description: string, priority: Priority)
    requires !AllSpace(title) && '*' !in title && NoLineTerminator(title) && NoLineTerminator(description)
    ensures var task := TaskItemLine(false, Trim(title));
      ClassifyTaskLines(Lines(Generate(title, description, priority).value)) ==
        if AllSpace(description) then [task] else [task, OtherLine]
  {
    GenerateLines(title, description, priority);
    FirstLineTask(title, priority);
    if !AllSpace(description) {
      IndentedOther(Trim(description));
    }
  }

  /** A single task line gives `task-0`, with no section. */
  lemma TaskAlone(k: TaskLineKind)
    requires k.TaskItemLine?
    ensures TasksUpTo([k], 1) == [MakeTask(0, k.done, k.title, "")]
  {
    assert TaskIndices([k], 1) == [0];
  }

  /** A task line then another line give `task-0` alone, with no section. */
  lemma TaskThenOther(k: TaskLineKind)
    requires k.TaskItemLine?
    ensures TasksUpTo([k, OtherLine], 2) == [MakeTask(0, k.done, k.title, "")]
  {
    assert TaskIndices([k, OtherLine], 1) == [0];
    assert TaskIndices([k, OtherLine], 2) == [0];
  }
}
