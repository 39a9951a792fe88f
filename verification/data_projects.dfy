/**
 * The project reader of the data layer (`data-layer-server.js`, `parseProjectsData`):
 * `## ` headings open projects keyed by their squeezed, lower-cased name, and the
 * lines under a heading set its status and URL or add to its details.
 */
module DataProjects {
  import opened Strings
  import opened Patterns
  import opened Seqs

  /** A project record: the heading's name, the status (default 'Unknown'), the URL if any and the detail lines. */
  datatype DataProject = DataProject(name: string, status: string, url: Option<string>, details: seq<string>)

  /** `^##\s+(.+)$` on one line (no `m` flag: `$` is the end of the line): the captured name, or None. */
  function ProjectHeading(line: string): Option<string> {
    if StartsWith(line, "##") then SpacedRestToEnd(line[2..]) else None
  }

  function NotSpace(c: char): bool { !IsSpace(c) }

  /** `name.trim().replace(/\s+/g, '').toLowerCase()`. */
  function ProjectKey(name: string): string {
    Lower(Filter(Trim(name), NotSpace))
  }

  /** A key holds no white space and no upper-case ASCII letter. */
  lemma ProjectKeyShape(name: string)
    ensures var key := ProjectKey(name);
      forall i :: 0 <= i < |key| ==> !IsSpace(key[i]) && !('A' <= key[i] <= 'Z')
  {
    var squeezed := Filter(Trim(name), NotSpace);
    var key := Lower(squeezed);
    forall i | 0 <= i < |key|
      ensures !IsSpace(key[i]) && !('A' <= key[i] <= 'Z')
    {
      assert key[i] == LowerChar(squeezed[i]) && squeezed[i] in squeezed;
    }
  }

  /**
   * A heading starts with `##` and its key is the text after the `##`, trimmed, without
   * white space and lower-cased: the spaces the pattern skips do not reach the key.
   */
  lemma HeadingKey(line: string)
    requires ProjectHeading(line).Some?
    ensures |line| >= 2 && line[0] == '#' && line[1] == '#'
    ensures ProjectKey(ProjectHeading(line).value) == Lower(Filter(Trim(line[2..]), NotSpace))
  {
    SpacedRestToEndTrim(line[2..]);
  }

  const StatusLabel := "**Status:**"
  const UrlLabel := "**URL:**"

  /** The record a heading opens. */
  function NewProject(name: string): DataProject {
    DataProject(name, "Unknown", None, [])
  }

  /** What a line can do to the current project, decided by the line alone; the first test that holds wins. */
  datatype ProjectLine =
    | HeadingLine(name: string, key: string)
    | StatusLine(status: string)
    | UrlLine(url: string)
    | DetailLine(detail: string)
    | OtherLine

  /** The heading test, then `**Status:**`, `**URL:**`, and a non-blank line not starting with '#'. */
  function ClassifyProjectLine(line: string): (kind: ProjectLine)
    ensures kind.HeadingLine? <==> ProjectHeading(line).Some?
    ensures kind.HeadingLine? ==> kind.name == ProjectHeading(line).value && kind.key == ProjectKey(kind.name)
  {
    match ProjectHeading(line)
    case Some(name) => HeadingLine(name, ProjectKey(name))
    case None =>
      if StartsWith(line, StatusLabel) then StatusLine(Trim(line[11..]))
      else if StartsWith(line, UrlLabel) then UrlLine(Trim(line[8..]))
      else if Trim(line) != [] && !StartsWith(line, "#") then DetailLine(Trim(line))
      else OtherLine
  }

  function ClassifyProjectLines(lines: seq<string>): (kinds: seq<ProjectLine>)
    ensures |kinds| == |lines|
    decreases |lines|
  {
    if lines == [] then [] else [ClassifyProjectLine(lines[0])] + ClassifyProjectLines(lines[1..])
  }

  lemma {:induction false} ClassifyProjectLinesAt(lines: seq<string>, i: nat)
    requires i < |lines|
    ensures ClassifyProjectLines(lines)[i] == ClassifyProjectLine(lines[i])
    decreases i
  {
    if i > 0 {
      ClassifyProjectLinesAt(lines[1..], i - 1);
    }
  }

  /** What a line under a project does to its record. */
  function UnderHeading(p: DataProject, kind: ProjectLine): DataProject {
    match kind
    case StatusLine(status) => p.(status := status)
    case UrlLine(url) => p.(url := Some(url))
    case DetailLine(detail) => p.(details := p.details + [detail])
    case _ => p
  }

  /** The loop's state: `currentProject` (None for `null`) and the projects object. */
  datatype ProjectScan = ProjectScan(current: Option<string>, projects: map<string, DataProject>)

  /** One iteration: a heading opens (or reopens, from scratch) its project; under a truthy key a line updates it. */
  function ProjectStep(st: ProjectScan, kind: ProjectLine): ProjectScan {
    if kind.HeadingLine? then ProjectScan(Some(kind.key), st.projects[kind.key := NewProject(kind.name)])
    else if st.current.Some? && st.current.value != [] && st.current.value in st.projects then
      var key := st.current.value;
      ProjectScan(st.current, st.projects[key := UnderHeading(st.projects[key], kind)])
    else st
  }

  /** The state after the first `n` lines. */
  function ScanProjects(kinds: seq<ProjectLine>, n: nat): ProjectScan
    requires n <= |kinds|
  {
    if n == 0 then ProjectScan(None, map[]) else ProjectStep(ScanProjects(kinds, n - 1), kinds[n - 1])
  }

  /** `parseProjectsData`: a missing or empty document gives `{}`. */
  function ProjectsData(content: Option<string>): (r: map<string, DataProject>)
    ensures content.None? || content.value == [] ==> r == map[]
  {
    if content.None? || content.value == [] then map[]
    else
      var kinds := ClassifyProjectLines(Lines(content.value));
      ScanProjects(kinds, |kinds|).projects
  }

  // ------------------------------------------------------------ what the loop builds

  /** The key of the last heading before `n`, or None. */
  function LastProjectKey(kinds: seq<ProjectLine>, n: nat): (k: Option<string>)
    requires n <= |kinds|
    ensures k.Some? <==> exists i :: 0 <= i < n && kinds[i].HeadingLine?
  {
    if n == 0 then None
    else if kinds[n - 1].HeadingLine? then Some(kinds[n - 1].key)
    else LastProjectKey(kinds, n - 1)
  }

  /** The loop's invariant: `currentProject` is the key of the last heading, and that key holds a record. */
  lemma {:induction false} ScanProjectsState(kinds: seq<ProjectLine>, n: nat)
    requires n <= |kinds|
    ensures var st := ScanProjects(kinds, n);
      st.current == LastProjectKey(kinds, n) && (st.current.Some? ==> st.current.value in st.projects)
    decreases n
  {
    if n > 0 {
      ScanProjectsState(kinds, n - 1);
    }
  }

  /** A key holds a project exactly when some heading has that key; lines before the first heading add nothing. */
  lemma {:induction false} ScanProjectsKeys(kinds: seq<ProjectLine>, n: nat, key: string)
    requires n <= |kinds|
    ensures key in ScanProjects(kinds, n).projects <==>
      exists i :: 0 <= i < n && kinds[i].HeadingLine? && kinds[i].key == key
    decreases n
  {
    if n > 0 {
      ScanProjectsKeys(kinds, n - 1, key);
      if key in ScanProjects(kinds, n).projects {
        if !(kinds[n - 1].HeadingLine? && kinds[n - 1].key == key) {
          var i :| 0 <= i < n - 1 && kinds[i].HeadingLine? && kinds[i].key == key;
          assert 0 <= i < n;
        }
      }
    }
  }

  /** Without a heading there are no projects. */
  lemma {:induction false} NoHeadingNoProjects(kinds: seq<ProjectLine>, n: nat)
    requires n <= |kinds| && forall i :: 0 <= i < n ==> !kinds[i].HeadingLine?
    ensures ScanProjects(kinds, n) == ProjectScan(None, map[])
    decreases n
  {
    if n > 0 {
      NoHeadingNoProjects(kinds, n - 1);
    }
  }

  /** The last status line of `[lo, n)`, or None. */
  function LastStatus(kinds: seq<ProjectLine>, lo: nat, n: nat): Option<string>
    requires lo <= n <= |kinds|
    decreases n
  {
    if n == lo then None
    else if kinds[n - 1].StatusLine? then Some(kinds[n - 1].status)
    else LastStatus(kinds, lo, n - 1)
  }

  /** The last URL line of `[lo, n)`, or None. */
  function LastUrl(kinds: seq<ProjectLine>, lo: nat, n: nat): Option<string>
    requires lo <= n <= |kinds|
    decreases n
  {
    if n == lo then None
    else if kinds[n - 1].UrlLine? then Some(kinds[n - 1].url)
    else LastUrl(kinds, lo, n - 1)
  }

  /** The status is 'Unknown' exactly when no line of the block sets it. */
  lemma {:induction false} LastStatusNone(kinds: seq<ProjectLine>, lo: nat, n: nat)
    requires lo <= n <= |kinds|
    ensures LastStatus(kinds, lo, n).None? <==> forall j :: lo <= j < n ==> !kinds[j].StatusLine?
    decreases n
  {
    if n > lo {
      LastStatusNone(kinds, lo, n - 1);
    }
  }

  /** The detail lines of `[lo, n)`, in order. */
  function DetailLines(kinds: seq<ProjectLine>, lo: nat, n: nat): seq<string>
    requires lo <= n <= |kinds|
    decreases n
  {
    if n == lo then []
    else
      var kind := kinds[n - 1];
      DetailLines(kinds, lo, n - 1) + (if kind.DetailLine? then [kind.detail] else [])
  }

  /** Every detail comes from a line, in order: there are no more details than lines. */
  lemma {:induction false} DetailLinesFrom(kinds: seq<ProjectLine>, lo: nat, n: nat)
    requires lo <= n <= |kinds|
    ensures var d := DetailLines(kinds, lo, n);
      |d| <= n - lo && forall x :: x in d <==> exists j :: lo <= j < n && kinds[j] == DetailLine(x)
    decreases n
  {
    if n > lo {
      DetailLinesFrom(kinds, lo, n - 1);
      var d := DetailLines(kinds, lo, n);
      forall x
        ensures x in d <==> exists j :: lo <= j < n && kinds[j] == DetailLine(x)
      {
        if x in d && !(kinds[n - 1] == DetailLine(x)) {
          assert x in DetailLines(kinds, lo, n - 1);
          var j :| lo <= j < n - 1 && kinds[j] == DetailLine(x);
          assert lo <= j < n;
        }
      }
    }
  }

  /** A detail line's text is non-blank and trimmed. */
  lemma DetailShape(line: string)
    requires ClassifyProjectLine(line).DetailLine?
    ensures var d := ClassifyProjectLine(line).detail; d != [] && Trim(d) == d
  {
    TrimIdempotent(line);
  }

  function OrUnknown(s: Option<string>): string {
    if s.Some? then s.value else "Unknown"
  }

  /** The record built from lines `[lo, n)` under a heading: a truthy key collects them, the empty key none. */
  function ProjectBlock(name: string, key: string, kinds: seq<ProjectLine>, lo: nat, n: nat): DataProject
    requires lo <= n <= |kinds|
  {
    if key == [] then NewProject(name)
    else DataProject(name, OrUnknown(LastStatus(kinds, lo, n)), LastUrl(kinds, lo, n), DetailLines(kinds, lo, n))
  }

  /** A line that is not a heading carries the current project's record from `n - 1` lines to `n`. */
  lemma BlockStep(prev: ProjectScan, name: string, key: string, kinds: seq<ProjectLine>, lo: nat, n: nat)
    requires lo < n <= |kinds| && !kinds[n - 1].HeadingLine?
    requires prev.current == Some(key) && key in prev.projects
    requires prev.projects[key] == ProjectBlock(name, key, kinds, lo, n - 1)
    ensures var st := ProjectStep(prev, kinds[n - 1]);
      st.current == Some(key) && key in st.projects && st.projects[key] == ProjectBlock(name, key, kinds, lo, n)
  {
  }

  /**
   * The last heading before `n` owns the lines after it: its status is the last status
   * line's text ('Unknown' without one), its URL the last URL line's, and its details the
   * other non-blank lines not starting with '#', in order. A heading that repeats a key
   * starts the record over.
   */
  lemma {:induction false} LastHeadingBlock(kinds: seq<ProjectLine>, i: nat, n: nat)
    requires i < n <= |kinds| && kinds[i].HeadingLine?
    requires forall j :: i < j < n ==> !kinds[j].HeadingLine?
    ensures var st, h := ScanProjects(kinds, n), kinds[i];
      st.current == Some(h.key) && h.key in st.projects &&
      st.projects[h.key] == ProjectBlock(h.name, h.key, kinds, i + 1, n)
    decreases n
  {
    if n > i + 1 {
      LastHeadingBlock(kinds, i, n - 1);
      BlockStep(ScanProjects(kinds, n - 1), kinds[i].name, kinds[i].key, kinds, i + 1, n);
    }
  }

  /** Lines with no heading for `key` after a point where `key` is not current leave its record alone. */
  lemma {:induction false} OtherHeadingsKeep(kinds: seq<ProjectLine>, m: nat, n: nat, key: string)
    requires m <= n <= |kinds| && ScanProjects(kinds, m).current != Some(key)
    requires forall j :: m <= j < n ==> !(kinds[j].HeadingLine? && kinds[j].key == key)
    ensures var before, after := ScanProjects(kinds, m), ScanProjects(kinds, n);
      after.current != Some(key) && (key in before.projects ==> key in after.projects && after.projects[key] == before.projects[key])
    decreases n
  {
    if n > m {
      OtherHeadingsKeep(kinds, m, n - 1, key);
    }
  }

  /**
   * The record a key ends with: when line `i` is the last heading with that key and line
   * `m` the next heading (or the end), the record holds the block `(i, m)`.
   */
  lemma ProjectRecord(kinds: seq<ProjectLine>, i: nat, m: nat)
    requires i < m <= |kinds| && kinds[i].HeadingLine?
    requires forall j :: i < j < m ==> !kinds[j].HeadingLine?
    requires m < |kinds| ==> kinds[m].HeadingLine?
    requires forall j :: i < j < |kinds| ==> !(kinds[j].HeadingLine? && kinds[j].key == kinds[i].key)
    ensures var st, h := ScanProjects(kinds, |kinds|), kinds[i];
      h.key in st.projects && st.projects[h.key] == ProjectBlock(h.name, h.key, kinds, i + 1, m)
  {
    var key := kinds[i].key;
    LastHeadingBlock(kinds, i, m);
    if m < |kinds| {
      assert ScanProjects(kinds, m + 1).current == Some(kinds[m].key);
      OtherHeadingsKeep(kinds, m + 1, |kinds|, key);
    }
  }

  /** Line `i` is a `##` heading whose key is `key`. */
  predicate HeadingWithKey(lines: seq<string>, i: int, key: string)
    requires 0 <= i < |lines|
  {
    ProjectHeading(lines[i]).Some? && ProjectKey(ProjectHeading(lines[i]).value) == key
  }

  /** Line `i` is classified as a heading with key `key` exactly when it is a `##` heading with that key. */
  lemma HeadingKindAt(lines: seq<string>, i: nat, key: string)
    requires i < |lines|
    ensures var kind := ClassifyProjectLines(lines)[i];
      kind.HeadingLine? && kind.key == key <==> HeadingWithKey(lines, i, key)
  {
    ClassifyProjectLinesAt(lines, i);
  }

  /** A key names a project of the document exactly when some `##` heading of it has that key. */
  lemma ProjectsDataKeys(content: string, key: string)
    requires content != []
    ensures key in ProjectsData(Some(content)) <==>
      exists i :: 0 <= i < |Lines(content)| && HeadingWithKey(Lines(content), i, key)
  {
    var lines := Lines(content);
    var kinds := ClassifyProjectLines(lines);
    assert ProjectsData(Some(content)) == ScanProjects(kinds, |kinds|).projects;
    ScanProjectsKeys(kinds, |kinds|, key);
    forall i | 0 <= i < |lines|
      ensures kinds[i].HeadingLine? && kinds[i].key == key <==> HeadingWithKey(lines, i, key)
    {
      HeadingKindAt(lines, i, key);
    }
  }

  /** A document whose lines hold no heading has no projects. */
  lemma ProjectsDataNoHeading(content: string)
    requires content != []
    requires forall i :: 0 <= i < |Lines(content)| ==> ProjectHeading(Lines(content)[i]).None?
    ensures ProjectsData(Some(content)) == map[]
  {
    var lines := Lines(content);
    var kinds := ClassifyProjectLines(lines);
    forall i | 0 <= i < |kinds|
      ensures !kinds[i].HeadingLine?
    {
      ClassifyProjectLinesAt(lines, i);
    }
    NoHeadingNoProjects(kinds, |kinds|);
    assert ProjectsData(Some(content)) == ScanProjects(kinds, |kinds|).projects;
  }

  // ------------------------------------------------------------ the loop

  method ParseProjectsData(content: Option<string>) returns (projects: map<string, DataProject>)
    ensures projects == ProjectsData(content)
  {
    if content.None? || content.value == [] {
      return map[];
    }
    var lines := Lines(content.value);
    ghost var kinds := ClassifyProjectLines(lines);
    var current: Option<string> := None;
    projects := map[];
    for i := 0 to |lines|
      invariant ScanProjects(kinds, i) == ProjectScan(current, projects)
    {
      ClassifyProjectLinesAt(lines, i);
      assert ScanProjects(kinds, i + 1) == ProjectStep(ScanProjects(kinds, i), kinds[i]);
      current, projects := ProjectLineStep(current, projects, lines[i]);
    }
  }

  /** The loop body: the heading test, then the three tests under a truthy current key. */
  method ProjectLineStep(current: Option<string>, projects: map<string, DataProject>, line: string)
    returns (current': Option<string>, projects': map<string, DataProject>)
    ensures ProjectScan(current', projects') == ProjectStep(ProjectScan(current, projects), ClassifyProjectLine(line))
  {
    current', projects' := current, projects;
    var heading := ProjectHeading(line);
    if heading.Some? {
      var key := ProjectKey(heading.value);
      current' := Some(key);
      projects' := projects[key := NewProject(heading.value)];
    } else if current.Some? && current.value != [] && current.value in projects {
      var p := projects[current.value];
      if StartsWith(line, StatusLabel) {
        p := p.(status := Trim(line[11..]));
      } else if StartsWith(line, UrlLabel) {
        p := p.(url := Some(Trim(line[8..])));
      } else if Trim(line) != [] && !StartsWith(line, "#") {
        p := p.(details := p.details + [Trim(line)]);
      }
      projects' := projects[current.value := p];
    }
  }
}
