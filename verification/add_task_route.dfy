/**
 * The `POST` handler of `src/app/api/add-task/route.ts`: it checks the title, builds the
 * task entry and splices it into `active-tasks.md` under the section heading. The parsed
 * request body (or its failure), the file's text (or its absence), the date and the
 * success of the write are parameters.
 */
module AddTaskRoute {
  import opened Strings
  import opened Seqs
  import opened Requests

  /** The request body; a section or priority given as an empty string counts as absent. */
  datatype Body = Body(title: Field, section: Option<string>, priority: Option<string>)

  const DefaultSection := "Next Up (Backlog)"
  const DefaultPriority := "medium"

  /** The text an unreadable tasks file is replaced by. */
  const NewFileText := "# Active Tasks - Current Work\n\n"

  const TitleRequired := "Title is required and must be a non-empty string"

  /** `- [ ] **title** — Added DATE (priority: p)` and a newline. */
  function Entry(title: string, date: string, priority: string): string {
    "- [ ] **" + title + "** — Added " + date + " (priority: " + priority + ")\n"
  }

  /** The entry is one line, ended by its newline, when its parts hold none. */
  lemma EntryOneLine(title: string, date: string, priority: string)
    requires '\n' !in title && '\n' !in date && '\n' !in priority
    ensures var e := Entry(title, date, priority);
      e[|e| - 1] == '\n' && '\n' !in e[..|e| - 1] && e[..8] == "- [ ] **"
  {
    var e := Entry(title, date, priority);
    var body := "- [ ] **" + title + "** — Added " + date + " (priority: " + priority + ")";
    assert e == body + "\n";
    assert e[..|e| - 1] == body;
  }

  /** `## SECTION` */
  function Header(section: string): string {
    "## " + section
  }

  /** The separator whose newline ends a section: a newline before the next `## ` heading. */
  const NextHeading := "\n## "

  /**
   * The text written: the entry goes in front of the newline that precedes the first
   * `\n## ` after the first occurrence of the header, or after a newline at the end when
   * no heading follows; a missing header is appended, with a blank line, before the entry.
   */
  function Inserted(content: string, section: string, entry: string): string {
    var header := Header(section);
    var k := IndexOf(content, header, 0);
    if k < 0 then content + "\n" + header + "\n\n" + entry
    else
      var n := IndexOf(content, NextHeading, k + |header|);
      if n < 0 then content + "\n" + entry else content[..n] + entry + content[n..]
  }

  /**
   * Section found at `k` and followed by another heading at `n`: the entry is spliced in at
   * the newline before that heading, after the whole header, and taking it out gives back
   * the file.
   */
  lemma InsertedBeforeNext(content: string, section: string, entry: string, k: int, n: int)
    requires k == IndexOf(content, Header(section), 0) && k >= 0
    requires n == IndexOf(content, NextHeading, k + |Header(section)|) && n >= 0
    ensures k + |Header(section)| <= n < |content| && content[n] == '\n'
    ensures var w := Inserted(content, section, entry);
      w == content[..n] + entry + content[n..] && w[..n] + w[n + |entry|..] == content
  {
    assert content[n..n + 4] == NextHeading;
    assert content[n] == content[n..n + 4][0];
    SpliceOut(content, entry, n);
  }

  /** Section found at `k` with no heading after it: a newline and the entry are appended. */
  lemma InsertedAtEnd(content: string, section: string, entry: string, k: int)
    requires k == IndexOf(content, Header(section), 0) && k >= 0
    requires IndexOf(content, NextHeading, k + |Header(section)|) < 0
    ensures Inserted(content, section, entry) == content + "\n" + entry
  {
  }

  /** Section missing: the heading with a blank line after it, then the entry, are appended. */
  lemma InsertedMissing(content: string, section: string, entry: string)
    requires !Contains(content, Header(section))
    ensures Inserted(content, section, entry) == content + "\n## " + section + "\n\n" + entry
  {
  }

  /** An occurrence before `n` survives text put in at `n`. */
  lemma OccursKept(s: string, pat: string, i: int, n: nat, x: string)
    requires OccursAt(s, pat, i) && i + |pat| <= n <= |s|
    ensures Contains(s[..n] + x + s[n..], pat)
  {
    var w := s[..n] + x + s[n..];
    assert w[i..i + |pat|] == s[i..i + |pat|];
    ContainsAt(w, pat, i);
  }

  /** A part of a text is contained in it. */
  lemma PartContained(a: string, x: string, b: string)
    ensures Contains(a + x + b, x)
  {
    ContainsAt(x, x, 0);
    ContainsInfix(a, x, b, x);
  }

  /** A missing section's heading and the entry are both in the appended text. */
  lemma MissingHolds(content: string, section: string, entry: string)
    ensures var w := content + "\n## " + section + "\n\n" + entry;
      Contains(w, Header(section)) && Contains(w, entry)
  {
    var w := content + "\n## " + section + "\n\n" + entry;
    var h := Header(section);
    assert w[|content| + 1..|content| + 1 + |h|] == h;
    ContainsAt(w, h, |content| + 1);
    assert w[|w| - |entry|..] == entry;
    ContainsAt(w, entry, |w| - |entry|);
  }

  /** The found header and the entry are both in the file with the entry appended. */
  lemma AtEndHolds(content: string, header: string, entry: string, k: int)
    requires OccursAt(content, header, k)
    ensures Contains(content + "\n" + entry, header) && Contains(content + "\n" + entry, entry)
  {
    OccursKept(content, header, k, |content|, "\n" + entry);
    assert content[..|content|] + ("\n" + entry) + content[|content|..] == content + "\n" + entry;
    PartContained(content + "\n", entry, []);
    assert content + "\n" + entry == (content + "\n") + entry + [];
  }

  /** Whatever the case, the written text holds the section's header and the entry. */
  lemma InsertedHolds(content: string, section: string, entry: string)
    ensures Contains(Inserted(content, section, entry), Header(section))
    ensures Contains(Inserted(content, section, entry), entry)
  {
    var header := Header(section);
    var k := IndexOf(content, header, 0);
    if k < 0 {
      InsertedMissing(content, section, entry);
      MissingHolds(content, section, entry);
    } else {
      var n := IndexOf(content, NextHeading, k + |header|);
      if n < 0 {
        InsertedAtEnd(content, section, entry, k);
        AtEndHolds(content, header, entry, k);
      } else {
        InsertedBeforeNext(content, section, entry, k, n);
        OccursKept(content, header, k, n, entry);
        PartContained(content[..n], entry, content[n..]);
      }
    }
  }

  /** Any heading whose text has `## SECTION` inside it counts as the section, `### SECTION` among them. */
  lemma DeeperHeadingCounts(a: string, b: string, section: string)
    ensures Contains(a + "#" + Header(section) + b, Header(section))
  {
    PartContained(a + "#", Header(section), b);
  }

  /**
   * `POST /api/add-task`. A body that does not parse, or a failed write, is a 500; a bad
   * title is a 400 and nothing is read or written.
   */
  function Post(body: Option<Body>, file: Option<string>, date: string, writeOk: bool): (o: Outcome)
    ensures o.written.Some? <==> o.response.status == 200
    ensures o.response.success <==> o.response.status == 200
  {
    if body.None? then Outcome(Response(500, false, InternalError), None)
    else
      var b := body.value;
      var t := CheckedText(b.title);
      if t.None? then Outcome(Response(400, false, TitleRequired), None)
      else
        var title := t.value;
        var section := OrDefault(b.section, DefaultSection);
        var priority := OrDefault(b.priority, DefaultPriority);
        var content := if file.Some? then file.value else NewFileText;
        var text := Inserted(content, section, Entry(title, date, priority));
        if !writeOk then Outcome(Response(500, false, InternalError), None)
        else Outcome(Response(200, true, "Task \"" + title + "\" added to " + section), Some(text))
  }

  /** A missing, non-string or blank title is a 400 with nothing written, whatever the file and the write. */
  lemma PostRejectsTitle(b: Body, file: Option<string>, date: string, writeOk: bool)
    ensures var o := Post(Some(b), file, date, writeOk);
      (o.response.status == 400 <==> !b.title.Text? || AllSpace(b.title.value)) &&
      (o.response.status == 400 ==> o.written.None? && o.response.message == TitleRequired)
  {
  }

  /**
   * A written file holds the trimmed title's entry, with the default section and priority
   * filling in for absent ones, spliced into the file's text or into the new-file header.
   */
  lemma PostWrites(b: Body, file: Option<string>, date: string)
    requires b.title.Text? && !AllSpace(b.title.value)
    ensures var o := Post(Some(b), file, date, true);
      var title := Trim(b.title.value);
      var section := OrDefault(b.section, DefaultSection);
      var content := if file.Some? then file.value else NewFileText;
      o.response.status == 200 &&
      o.written == Some(Inserted(content, section, Entry(title, date, OrDefault(b.priority, DefaultPriority)))) &&
      Contains(o.written.value, Header(section)) &&
      Contains(o.written.value, Entry(title, date, OrDefault(b.priority, DefaultPriority)))
  {
    var title := Trim(b.title.value);
    var section := OrDefault(b.section, DefaultSection);
    var content := if file.Some? then file.value else NewFileText;
    InsertedHolds(content, section, Entry(title, date, OrDefault(b.priority, DefaultPriority)));
  }

  /** An unparsable body, or a failed write after a good title, is a 500 and nothing is written. */
  lemma PostFails(body: Option<Body>, file: Option<string>, date: string)
    requires body.None? || (body.value.title.Text? && !AllSpace(body.value.title.value))
    ensures var o := Post(body, file, date, false);
      o.response == Response(500, false, InternalError) && o.written.None?
  {
  }
}
