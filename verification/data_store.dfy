/**
 * The data access layer of the dashboard (`src/lib/data.ts`): the five-second memory cache
 * in front of the snapshot file, and `addTask`, which writes a task line under a section
 * heading of `active-tasks.md`. The clock readings, the snapshot file's text, its JSON
 * decoding and the markdown build are parameters.
 */
module DataStore {
  import opened Strings
  import opened Patterns
  import opened Types
  import opened Seqs

  // ------------------------------------------------------------ the memory cache

  /** `CACHE_TTL` */
  const CacheTtlMs := 5000

  /** The module-level `dataCache` and `lastCacheTime`. */
  datatype CacheState = CacheState(data: Option<MissionControlData>, time: int)

  /** Where `loadData` took the document it returns from. */
  datatype Source = FromMemory | FromFile | Rebuilt

  datatype Loaded = Loaded(data: MissionControlData, source: Source, state: CacheState)

  /** The cache answers at `now`: it holds a document stored less than five seconds earlier. */
  predicate Fresh(s: CacheState, now: int) {
    s.data.Some? && now - s.time < CacheTtlMs
  }

  /** `clearCache` */
  const Cleared := CacheState(None, 0)

  /**
   * `loadData` at `now`: the cached document while it is fresh; otherwise the snapshot
   * file when it exists and decodes, stored with `now`; otherwise `rebuildData`, which
   * stores the built document with the clock reading `later` taken after the build.
   */
  function Load(s: CacheState, now: int, file: Option<string>, decode: string -> Option<MissionControlData>,
                built: MissionControlData, later: int): Loaded
  {
    if Fresh(s, now) then Loaded(s.data.value, FromMemory, s)
    else if file.Some? && decode(file.value).Some? then
      var d := decode(file.value).value;
      Loaded(d, FromFile, CacheState(Some(d), now))
    else Loaded(built, Rebuilt, CacheState(Some(built), later))
  }

  /** The cache answers exactly when it is fresh, and then nothing is read and nothing changes. */
  lemma LoadFromMemory(s: CacheState, now: int, file: Option<string>, decode: string -> Option<MissionControlData>,
                       built: MissionControlData, later: int)
    ensures var r := Load(s, now, file, decode, built, later);
      (r.source == FromMemory <==> Fresh(s, now)) &&
      (r.source == FromMemory ==> r.state == s && s.data == Some(r.data))
  {
  }

  /** A stale or empty cache reads the snapshot file when it decodes, and rebuilds otherwise. */
  lemma LoadStale(s: CacheState, now: int, file: Option<string>, decode: string -> Option<MissionControlData>,
                  built: MissionControlData, later: int)
    requires !Fresh(s, now)
    ensures var r := Load(s, now, file, decode, built, later);
      (r.source == FromFile <==> file.Some? && decode(file.value).Some?) &&
      (r.source == FromFile ==> decode(file.value) == Some(r.data) && r.state == CacheState(Some(r.data), now)) &&
      (r.source == Rebuilt ==> r.data == built && r.state == CacheState(Some(built), later))
  {
  }

  /** Every load leaves the returned document in the cache. */
  lemma LoadCaches(s: CacheState, now: int, file: Option<string>, decode: string -> Option<MissionControlData>,
                   built: MissionControlData, later: int)
    ensures var r := Load(s, now, file, decode, built, later); r.state.data == Some(r.data)
  {
  }

  /** A second load less than five seconds after the first stored its document returns that document from memory. */
  lemma LoadAgain(s: CacheState, now: int, file: Option<string>, decode: string -> Option<MissionControlData>,
                  built: MissionControlData, later: int,
                  now2: int, file2: Option<string>, built2: MissionControlData, later2: int)
    requires var r := Load(s, now, file, decode, built, later); now2 - r.state.time < CacheTtlMs
    ensures var r := Load(s, now, file, decode, built, later);
      var r2 := Load(r.state, now2, file2, decode, built2, later2);
      r2.source == FromMemory && r2.data == r.data && r2.state == r.state
  {
    LoadCaches(s, now, file, decode, built, later);
  }

  /** After `clearCache` there is no cached document, and the next load cannot be answered from memory. */
  lemma ClearedMisses(now: int, file: Option<string>, decode: string -> Option<MissionControlData>,
                      built: MissionControlData, later: int)
    ensures Cleared.data == None && !Fresh(Cleared, now)
    ensures Load(Cleared, now, file, decode, built, later).source != FromMemory
  {
  }

  // ------------------------------------------------------------ addTask: the line

  /** The task `addTask` is given: every field of a task except its id. */
  datatype NewTask = NewTask(
    title: string,
    status: TaskStatus,
    agent: Option<string>,
    priority: Option<Priority>,
    description: Option<string>,
    section: string)

  /** `task.section || 'To Do'` */
  function SectionOf(task: NewTask): (sec: string)
    ensures sec != []
    ensures task.section != [] ==> sec == task.section
  {
    if task.section == [] then "To Do" else task.section
  }

  /** The two characters backslash and `n` that the template literals write where a newline was meant. */
  const EscapedNewline := ['\\', 'n']

  /** ` [PRIORITY]`, the priority's name upper-cased, when a priority is given. */
  function PriorityTag(p: Option<Priority>): (t: string)
    ensures p.None? <==> t == []
    ensures '\n' !in t
  {
    if p.None? then ""
    else
      match p.value
      case High => " [HIGH]"
      case Medium => " [MEDIUM]"
      case Low => " [LOW]"
  }

  /** The tag is the priority's name, upper-cased, in brackets after a space. */
  lemma PriorityTagUpper(p: Priority)
    ensures PriorityTag(Some(p)) == " [" + Upper(PriorityName(p)) + "]"
  {
    var u := Upper(PriorityName(p));
    match p
    case High => assert u == "HIGH" by { assert u[0] == 'H' && u[1] == 'I' && u[2] == 'G' && u[3] == 'H'; }
    case Medium => assert u == "MEDIUM" by { assert u[0] == 'M' && u[1] == 'E' && u[2] == 'D' && u[3] == 'I' && u[4] == 'U' && u[5] == 'M'; }
    case Low => assert u == "LOW" by { assert u[0] == 'L' && u[1] == 'O' && u[2] == 'W'; }
  }

  /** ` @agent` when an agent is given (an empty name counts as none). */
  function AgentTag(a: Option<string>): (t: string)
    ensures '\n' in t ==> a.Some? && '\n' in a.value
  {
    if a.Some? && a.value != [] then " @" + a.value else ""
  }

  /** The escaped newline and two spaces, then the description, when one is given. */
  function DescriptionTag(d: Option<string>): (t: string)
    ensures '\n' in t ==> d.Some? && '\n' in d.value
  {
    if d.Some? && d.value != [] then EscapedNewline + "  " + d.value else ""
  }

  /** `- [ ] **title**`, the tags, and the escaped newline. */
  function TaskEntry(task: NewTask): string {
    "- [ ] **" + task.title + "**" + PriorityTag(task.priority) + AgentTag(task.agent) + DescriptionTag(task.description) + EscapedNewline
  }

  /** The entry opens with the unchecked box and the bold title and ends with a backslash and `n`. */
  lemma TaskEntryEnds(task: NewTask)
    ensures var e, head := TaskEntry(task), "- [ ] **" + task.title + "**";
      |head| + 2 <= |e| && e[..|head|] == head && e[|e| - 2..] == EscapedNewline
  {
    var head := "- [ ] **" + task.title + "**";
    var tags := PriorityTag(task.priority) + AgentTag(task.agent) + DescriptionTag(task.description);
    assert TaskEntry(task) == head + (tags + EscapedNewline);
  }

  /**
   * The entry holds no newline unless the title, the agent or the description does: the
   * whole entry, description included, lies on one line.
   */
  lemma TaskEntryOneLine(task: NewTask)
    requires '\n' !in task.title
    requires task.agent.Some? ==> '\n' !in task.agent.value
    requires task.description.Some? ==> '\n' !in task.description.value
    ensures '\n' !in TaskEntry(task)
  {
    var open, close := "- [ ] **", "**";
    assert '\n' !in open && '\n' !in close && '\n' !in EscapedNewline;
    var tags := PriorityTag(task.priority) + AgentTag(task.agent) + DescriptionTag(task.description);
    assert TaskEntry(task) == open + task.title + close + tags + EscapedNewline;
  }

  /** The section heading appended when none is found, with escaped newlines around it. */
  function HeadingText(sec: string): (t: string)
    ensures t != [] && t[0] == '\\'
    ensures '\n' in t ==> '\n' in sec
  {
    EscapedNewline + EscapedNewline + "## " + sec + EscapedNewline + EscapedNewline
  }

  // ------------------------------------------------------------ addTask: the heading pattern

  /** Two characters are equal, or equal up to ASCII case under the `i` flag. */
  predicate SameChar(a: char, b: char, ci: bool) {
    if ci then LowerChar(a) == LowerChar(b) else a == b
  }

  /** The section name stands at `a`. */
  predicate SectionAt(s: string, a: nat, sec: string, ci: bool) {
    a + |sec| <= |s| && forall j :: 0 <= j < |sec| ==> SameChar(s[a + j], sec[j], ci)
  }

  /** The end of the last newline in `s[lo..hi]`, or -1: where a greedy `\s*\n` over white space stops. */
  function NewlineEnd(s: string, lo: nat, hi: nat): (e: int)
    requires lo <= hi <= |s|
    ensures e == -1 || (lo < e <= hi && s[e - 1] == '\n')
    ensures forall j :: (if e < 0 then lo else e) <= j < hi ==> s[j] != '\n'
    decreases hi - lo
  {
    if lo == hi then -1 else if s[hi - 1] == '\n' then hi else NewlineEnd(s, lo, hi - 1)
  }

  /** At least two `#` start at `i`. */
  predicate Opens(s: string, i: nat)
    requires i <= |s|
  {
    CharRun(s, i, '#') >= 2
  }

  /** Where the section name is looked for: after the whole run of `#` and the white space after it. */
  function NameStart(s: string, i: nat): (a: nat)
    requires i <= |s|
    ensures i <= a <= |s|
  {
    var h := CharRun(s, i, '#');
    i + h + SpaceRun(s, i + h)
  }

  /** `\s*\n` after the name ending at `b`: the end of the last newline of the white space there, or -1. */
  function TailEnd(s: string, b: nat): (e: int)
    requires b <= |s|
    ensures e == -1 || (b < e <= |s| && s[e - 1] == '\n')
  {
    NewlineEnd(s, b, b + SpaceRun(s, b))
  }

  /**
   * `##+\s*SECTION\s*\n` tried at `i`: the end of the match, or -1. Both runs are taken
   * whole, which is the only way the pattern can match when the section name starts with
   * neither `#` nor white space; the closing `\s*\n` gives back white space up to the last
   * newline of the run after the name.
   */
  function HeadingEnd(s: string, i: nat, sec: string, ci: bool): (e: int)
    requires i <= |s|
    ensures e == -1 || (i < e <= |s| && s[e - 1] == '\n')
  {
    if !Opens(s, i) then -1
    else
      var a := NameStart(s, i);
      if !SectionAt(s, a, sec, ci) then -1 else TailEnd(s, a + |sec|)
  }

  /** The pattern tried at every place of `s`, the end of the text included. */
  function HeadingEnds(s: string, sec: string, ci: bool): (r: seq<int>)
    ensures |r| == |s| + 1
  {
    seq(|s| + 1, i requires 0 <= i <= |s| => HeadingEnd(s, i, sec, ci))
  }

  /** Each place of `HeadingEnds` holds the pattern tried there. */
  lemma HeadingEndsAt(s: string, sec: string, ci: bool, i: nat)
    requires i <= |s|
    ensures HeadingEnds(s, sec, ci)[i] == HeadingEnd(s, i, sec, ci)
  {
  }

  /** The first index at or after `from` holding a value that is not negative, or -1. */
  function FirstFound(ends: seq<int>, from: nat): (k: int)
    requires from <= |ends|
    ensures k == -1 || (from <= k < |ends| && ends[k] >= 0)
    decreases |ends| - from
  {
    if from == |ends| then -1 else if ends[from] >= 0 then from else FirstFound(ends, from + 1)
  }

  /** Any found place bounds the first one. */
  lemma {:induction false} FirstFoundFinds(ends: seq<int>, from: nat, j: nat)
    requires from <= j < |ends| && ends[j] >= 0
    ensures 0 <= FirstFound(ends, from) <= j
    decreases j - from
  {
    if ends[from] < 0 {
      FirstFoundFinds(ends, from + 1, j);
    }
  }

  /** The leftmost place the heading pattern matches, or -1: where `test` and `match` find it. */
  function FirstHeading(s: string, sec: string, ci: bool): (i: int)
    ensures i == -1 || 0 <= i <= |s|
  {
    FirstFound(HeadingEnds(s, sec, ci), 0)
  }

  /** The first heading found is a match. */
  lemma FirstHeadingMatches(s: string, sec: string, ci: bool)
    ensures FirstHeading(s, sec, ci) >= 0 ==> HeadingEnd(s, FirstHeading(s, sec, ci), sec, ci) >= 0
  {
    var i := FirstHeading(s, sec, ci);
    if i >= 0 {
      HeadingEndsAt(s, sec, ci, i);
    }
  }

  /** A match anywhere is found, at its place or before: no match lies before the first one. */
  lemma FirstHeadingFinds(s: string, sec: string, ci: bool, j: nat)
    requires j <= |s| && HeadingEnd(s, j, sec, ci) >= 0
    ensures 0 <= FirstHeading(s, sec, ci) <= j
  {
    HeadingEndsAt(s, sec, ci, j);
    FirstFoundFinds(HeadingEnds(s, sec, ci), 0, j);
  }

  /** A case-exact match is also a match under the `i` flag, ending at the same place. */
  lemma HeadingEndCaseless(s: string, i: nat, sec: string)
    requires i <= |s| && HeadingEnd(s, i, sec, false) >= 0
    ensures HeadingEnd(s, i, sec, true) == HeadingEnd(s, i, sec, false)
  {
    assert SectionAt(s, NameStart(s, i), sec, true);
  }

  /** A case-exact heading exists only where the caseless test succeeds. */
  lemma CaseExactFound(s: string, sec: string)
    requires FirstHeading(s, sec, false) >= 0
    ensures FirstHeading(s, sec, true) >= 0
  {
    var i := FirstHeading(s, sec, false);
    FirstHeadingMatches(s, sec, false);
    HeadingEndCaseless(s, i, sec);
    FirstHeadingFinds(s, sec, true, i);
  }

  // ------------------------------------------------------------ the pattern after appended text

  /** After text that does not start with `#`, runs of `#` inside `s` are the same. */
  lemma CharRunAppend(s: string, t: string, p: nat)
    requires p <= |s| && (t == [] || t[0] != '#')
    ensures CharRun(s + t, p, '#') == CharRun(s, p, '#')
  {
    var u := s + t;
    var n, m := CharRun(u, p, '#'), CharRun(s, p, '#');
    assert forall k :: p <= k < p + m ==> u[k] == '#';
    assert p + m == |u| || u[p + m] != '#' by {
      if p + m < |s| {
        assert u[p + m] == s[p + m];
      }
    }
  }

  /** After text that does not start with white space, white-space runs inside `s` are the same. */
  lemma SpaceRunAppend(s: string, t: string, p: nat)
    requires p <= |s| && (t == [] || !IsSpace(t[0]))
    ensures SpaceRun(s + t, p) == SpaceRun(s, p)
  {
    var u := s + t;
    var n, m := SpaceRun(u, p), SpaceRun(s, p);
    assert forall k :: p <= k < p + m ==> IsSpace(u[k]);
    assert p + m == |u| || !IsSpace(u[p + m]) by {
      if p + m < |s| {
        assert u[p + m] == s[p + m];
      }
    }
  }

  /** The last newline of a range inside `s` is the same in `s + t`. */
  lemma NewlineEndAppend(s: string, t: string, lo: nat, hi: nat)
    requires lo <= hi <= |s|
    ensures NewlineEnd(s + t, lo, hi) == NewlineEnd(s, lo, hi)
  {
    var u := s + t;
    var e := NewlineEnd(s, lo, hi);
    assert forall k :: lo <= k < hi ==> u[k] == s[k];
  }

  /** The run of `#` and the name search inside `s` are the same after such text. */
  lemma NameStartAppend(s: string, t: string, i: nat)
    requires i <= |s| && t != [] && t[0] != '#' && !IsSpace(t[0])
    ensures Opens(s + t, i) == Opens(s, i) && NameStart(s + t, i) == NameStart(s, i)
  {
    CharRunAppend(s, t, i);
    SpaceRunAppend(s, t, i + CharRun(s, i, '#'));
  }

  /** The tail after a name ending inside `s` is the same after such text. */
  lemma TailEndAppend(s: string, t: string, b: nat)
    requires b <= |s| && t != [] && !IsSpace(t[0])
    ensures TailEnd(s + t, b) == TailEnd(s, b)
  {
    SpaceRunAppend(s, t, b);
    NewlineEndAppend(s, t, b, b + SpaceRun(s, b));
  }

  /** A name that ends inside `s` stands there in `s` exactly when it does in `s + t`. */
  lemma SectionAtAppend(s: string, t: string, a: nat, sec: string, ci: bool)
    requires a + |sec| <= |s|
    ensures SectionAt(s + t, a, sec, ci) == SectionAt(s, a, sec, ci)
  {
    forall j | 0 <= j < |sec|
      ensures SameChar((s + t)[a + j], sec[j], ci) == SameChar(s[a + j], sec[j], ci)
    {
    }
  }

  /** A newline of `s + t` lies in `s` when `t` holds none. */
  lemma NewlineInside(s: string, t: string, e: nat)
    requires '\n' !in t && 0 < e <= |s + t| && (s + t)[e - 1] == '\n'
    ensures e <= |s|
  {
    assert forall k :: |s| <= k < |s + t| ==> (s + t)[k] == t[k - |s|];
  }

  /** A name and a tail found in `s + t` lie in `s`, and are the same there, when `t` holds no newline. */
  lemma NameTailAppend(s: string, t: string, a: nat, sec: string, ci: bool)
    requires t != [] && !IsSpace(t[0]) && '\n' !in t
    requires SectionAt(s + t, a, sec, ci) && TailEnd(s + t, a + |sec|) >= 0
    ensures a + |sec| < |s| && SectionAt(s, a, sec, ci) && TailEnd(s, a + |sec|) == TailEnd(s + t, a + |sec|)
  {
    NewlineInside(s, t, TailEnd(s + t, a + |sec|));
    SectionAtAppend(s, t, a, sec, ci);
    TailEndAppend(s, t, a + |sec|);
  }

  /**
   * An opening run, a name and a tail found in `s + t` lie in `s`, and are the same there,
   * when `t` holds no newline and starts with neither `#` nor white space.
   */
  lemma MatchPartsAppend(s: string, t: string, i: nat, sec: string, ci: bool)
    requires t != [] && t[0] != '#' && !IsSpace(t[0]) && '\n' !in t && i <= |s + t|
    requires Opens(s + t, i) && SectionAt(s + t, NameStart(s + t, i), sec, ci)
    requires TailEnd(s + t, NameStart(s + t, i) + |sec|) >= 0
    ensures i < |s| && Opens(s, i) && SectionAt(s, NameStart(s, i), sec, ci)
    ensures TailEnd(s, NameStart(s, i) + |sec|) == TailEnd(s + t, NameStart(s + t, i) + |sec|)
  {
    NameTailAppend(s, t, NameStart(s + t, i), sec, ci);
    NameStartAppend(s, t, i);
  }

  /**
   * Text that starts with neither `#` nor white space and holds no newline, appended to `s`,
   * adds no heading match: every match in `s + t` is a match in `s`, ending at the same place.
   */
  lemma HeadingEndAppend(s: string, t: string, i: nat, sec: string, ci: bool)
    requires t != [] && t[0] != '#' && !IsSpace(t[0]) && '\n' !in t
    requires i <= |s + t| && HeadingEnd(s + t, i, sec, ci) >= 0
    ensures i < |s| && HeadingEnd(s, i, sec, ci) == HeadingEnd(s + t, i, sec, ci)
  {
    MatchPartsAppend(s, t, i, sec, ci);
  }

  /** With no heading found even under the `i` flag, the appended heading text adds no case-exact match either. */
  lemma NoHeadingAfterAppend(s: string, sec: string)
    requires FirstHeading(s, sec, true) < 0 && '\n' !in sec
    ensures FirstHeading(s + HeadingText(sec), sec, false) < 0
  {
    var t := HeadingText(sec);
    var i := FirstHeading(s + t, sec, false);
    if i >= 0 {
      FirstHeadingMatches(s + t, sec, false);
      HeadingEndAppend(s, t, i, sec, false);
      HeadingEndCaseless(s, i, sec);
      FirstHeadingFinds(s, sec, true, i);
    }
  }

  // ------------------------------------------------------------ addTask: the text written

  /**
   * `addTask`'s text: a heading is appended when the caseless test finds none; the entry
   * then goes right after the first case-exact heading match, or at the end.
   */
  function AddedText(content: string, task: NewTask): string {
    var sec := SectionOf(task);
    var c := if FirstHeading(content, sec, true) < 0 then content + HeadingText(sec) else content;
    var entry := TaskEntry(task);
    var i := FirstHeading(c, sec, false);
    FirstHeadingMatches(c, sec, false);
    if i >= 0 then
      var q := HeadingEnd(c, i, sec, false);
      c[..q] + entry + c[q..]
    else c + entry
  }

  /**
   * With a case-exact heading, the entry is inserted right after the first one, behind the
   * last newline after the section name.
   */
  lemma AddTaskFound(content: string, task: NewTask)
    requires FirstHeading(content, SectionOf(task), false) >= 0
    ensures var sec := SectionOf(task);
      var i := FirstHeading(content, sec, false);
      var q := HeadingEnd(content, i, sec, false);
      i < q <= |content| && content[q - 1] == '\n' &&
      AddedText(content, task) == content[..q] + TaskEntry(task) + content[q..]
  {
    var sec := SectionOf(task);
    CaseExactFound(content, sec);
    FirstHeadingMatches(content, sec, false);
  }

  /** A heading that matches only up to case gets no new heading: the entry is appended at the end. */
  lemma AddTaskCaseOnly(content: string, task: NewTask)
    requires FirstHeading(content, SectionOf(task), true) >= 0
    requires FirstHeading(content, SectionOf(task), false) < 0
    ensures AddedText(content, task) == content + TaskEntry(task)
  {
  }

  /** With no heading at all, the heading text and then the entry are appended. */
  lemma AddTaskMissing(content: string, task: NewTask)
    requires FirstHeading(content, SectionOf(task), true) < 0 && '\n' !in SectionOf(task)
    ensures AddedText(content, task) == content + HeadingText(SectionOf(task)) + TaskEntry(task)
  {
    NoHeadingAfterAppend(content, SectionOf(task));
  }

  /** The heading `addTask` evidently means to append: real newlines around `## SECTION`. */
  function NewlineHeadingText(sec: string): (t: string)
    ensures |t| == |sec| + 7 && t[2..5] == "## " && t[5..5 + |sec|] == sec
  {
    "\n\n## " + sec + "\n\n"
  }

  /**
   * With real newlines, the appended heading is found by the case-exact pattern, so the
   * entry would go under it, whenever the section name starts with neither `#` nor white
   * space.
   */
  lemma NewlineHeadingFound(s: string, sec: string)
    requires sec != [] && sec[0] != '#' && !IsSpace(sec[0])
    ensures FirstHeading(s + NewlineHeadingText(sec), sec, false) >= 0
  {
    var u := s + NewlineHeadingText(sec);
    NewlineHeadingOpens(s, sec);
    NewlineHeadingName(s, sec);
    assert HeadingEnd(u, |s| + 2, sec, false) >= 0;
    FirstHeadingFinds(u, sec, false, |s| + 2);
  }

  /** The name search after the appended `##` starts right after its space. */
  lemma NewlineHeadingOpens(s: string, sec: string)
    requires sec != [] && !IsSpace(sec[0])
    ensures var u, p := s + NewlineHeadingText(sec), |s| + 2; Opens(u, p) && NameStart(u, p) == p + 3
  {
    var u := s + NewlineHeadingText(sec);
    var p := |s| + 2;
    assert u[p] == '#' && u[p + 1] == '#' && u[p + 2] == ' ' && u[p + 3] == sec[0];
    assert CharRun(u, p, '#') == 2;
    assert SpaceRun(u, p + 2) == 1;
  }

  /** The name stands after the appended `## `, and the two newlines after it end the match. */
  lemma NewlineHeadingName(s: string, sec: string)
    ensures var u, a := s + NewlineHeadingText(sec), |s| + 5;
      SectionAt(u, a, sec, false) && TailEnd(u, a + |sec|) == |u|
  {
    var u := s + NewlineHeadingText(sec);
    var a := |s| + 5;
    var b := a + |sec|;
    forall j | 0 <= j < |sec|
      ensures SameChar(u[a + j], sec[j], false)
    {
      assert u[a + j] == NewlineHeadingText(sec)[5 + j];
    }
    assert u[b] == '\n' && u[b + 1] == '\n' && |u| == b + 2;
    assert SpaceRun(u, b) == 2;
  }

  // ------------------------------------------------------------ addTask: the result

  datatype AddOutcome = TasksFileMissing | Added(written: string, task: Task)

  /**
   * `data.tasks[data.tasks.length - 1] || { ...task, id }`: the last task of the rebuilt
   * data, whichever task that is, or the given task with the id `task-<stamp>`.
   */
  function ReturnedTask(built: MissionControlData, task: NewTask, stamp: nat): (t: Task)
    ensures |built.tasks| > 0 ==> t == built.tasks[|built.tasks| - 1]
    ensures |built.tasks| == 0 ==> t.id == "task-" + NatToString(stamp) && t.title == task.title && t.section == task.section
  {
    if |built.tasks| > 0 then built.tasks[|built.tasks| - 1]
    else Task("task-" + NatToString(stamp), task.title, task.status, task.agent, task.priority, task.description, task.section)
  }

  /** The returned task need not be the one added: the rebuilt data's last task is returned whatever its title. */
  lemma ReturnedTaskNotAdded(built: MissionControlData, task: NewTask, stamp: nat)
    requires |built.tasks| > 0 && built.tasks[|built.tasks| - 1].title != task.title
    ensures ReturnedTask(built, task, stamp).title != task.title
  {
  }

  class Store {
    var dataCache: Option<MissionControlData>
    var lastCacheTime: int

    function State(): CacheState
      reads this
    {
      CacheState(dataCache, lastCacheTime)
    }

    /** The module as it is loaded: no document, time 0. */
    constructor ()
      ensures State() == Cleared
    {
      dataCache := None;
      lastCacheTime := 0;
    }

    /** `rebuildData`: the built document is stored with the clock reading after the build, and returned. */
    method RebuildData(built: MissionControlData, later: int) returns (d: MissionControlData)
      modifies this
      ensures d == built && State() == CacheState(Some(built), later)
    {
      dataCache := Some(built);
      lastCacheTime := later;
      d := built;
    }

    /** `loadData` */
    method LoadData(now: int, file: Option<string>, decode: string -> Option<MissionControlData>,
                    built: MissionControlData, later: int) returns (d: MissionControlData)
      modifies this
      ensures var r := Load(old(State()), now, file, decode, built, later); d == r.data && State() == r.state
    {
      if dataCache.Some? && now - lastCacheTime < CacheTtlMs {
        return dataCache.value;
      }
      if file.Some? {
        var parsed := decode(file.value);
        if parsed.Some? {
          dataCache := parsed;
          lastCacheTime := now;
          return parsed.value;
        }
      }
      d := RebuildData(built, later);
    }

    /** `getCachedData` */
    method GetCachedData() returns (d: Option<MissionControlData>)
      ensures d == State().data
    {
      d := dataCache;
    }

    /** `clearCache` */
    method ClearCache()
      modifies this
      ensures State() == Cleared
    {
      dataCache := None;
      lastCacheTime := 0;
    }

    /**
     * `addTask`: throws before writing when the tasks file is missing; otherwise builds the
     * text step by step, writes it, rebuilds the data and returns its last task.
     */
    method AddTask(file: Option<string>, task: NewTask, built: MissionControlData, later: int, stamp: nat)
      returns (r: AddOutcome)
      modifies this
      ensures file.None? ==> r == TasksFileMissing && State() == old(State())
      ensures file.Some? ==>
        r == Added(AddedText(file.value, task), ReturnedTask(built, task, stamp)) && State() == CacheState(Some(built), later)
    {
      if file.None? {
        return TasksFileMissing;
      }
      var content := file.value;
      var section := SectionOf(task);
      if FirstHeading(content, section, true) < 0 {
        content := content + HeadingText(section);
      }
      var taskLine := TaskEntry(task);
      var at := FirstHeading(content, section, false);
      FirstHeadingMatches(content, section, false);
      if at >= 0 {
        var insertPos := HeadingEnd(content, at, section, false);
        content := content[..insertPos] + taskLine + content[insertPos..];
      } else {
        content := content + taskLine;
      }
      var data := RebuildData(built, later);
      r := Added(content, ReturnedTask(data, task, stamp));
    }
  }
}
