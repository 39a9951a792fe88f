/**
 * The file watcher's build and cache in `data-layer-server.js`: `safeRead`,
 * `readAllSoulFiles`, `buildDataJson` with its cache update, the WebSocket `broadcast`
 * to open clients, and the `scheduleRebuild` debounce.
 *
 * The file system is a parameter: what reading each path gives, and the listing of the
 * `agents` directory. Clock readings are parameters, and WebSocket clients are
 * identities, with the set of those whose `readyState` is OPEN passed to each broadcast.
 */
module DataCache {
  import opened Strings
  import Roster
  import DataTasks
  import DataProjects
  import DataGit

  // ------------------------------------------------------------ reading the workspace

  /** What reading one path gives: its text, ENOENT, or another error with its message. */
  datatype FileRead = Content(text: string) | NotFound | Failed(message: string)

  /** A call that returns a value or throws an error with a message. */
  datatype Outcome<T> = Done(value: T) | Thrown(message: string)

  /** `safeRead`: the text, or null for a missing file; any other error is thrown again. */
  function SafeRead(r: FileRead): Outcome<Option<string>> {
    match r
    case Content(t) => Done(Some(t))
    case NotFound => Done(None)
    case Failed(m) => Thrown(m)
  }

  /** `path.join` of a directory and a relative path made of plain names. */
  function PathJoin(dir: string, rel: string): string {
    dir + "/" + rel
  }

  /** An entry of the `agents` directory listing. */
  datatype DirEntry = DirEntry(name: string, isDirectory: bool)

  /** What `buildGitAnalytics` sees: `.git`, the two `git log` outputs (None when the command fails), the date conversion. */
  datatype GitInput = GitInput(hasGitDir: bool, log: Option<string>, numstat: Option<string>, iso: DataGit.IsoDate)

  /** The workspace: its root, what reading each path gives, and the `agents` listing (None when it does not exist). */
  datatype Workspace = Workspace(root: string, read: string -> FileRead, agentsListing: Option<seq<DirEntry>>, git: GitInput)

  /** `filter(dirent => dirent.isDirectory()).map(dirent => dirent.name)` */
  function Directories(entries: seq<DirEntry>): (names: seq<string>)
    ensures forall n :: n in names <==> DirEntry(n, true) in entries
    decreases |entries|
  {
    if entries == [] then []
    else if entries[0].isDirectory then [entries[0].name] + Directories(entries[1..])
    else Directories(entries[1..])
  }

  /** The three places a directory's SOUL.md may be, in the order they are tried. */
  function SoulCandidates(agentsDir: string, dir: string): seq<string> {
    var d := PathJoin(agentsDir, dir);
    [PathJoin(d, "SOUL.md"), PathJoin(d, "agent/SOUL.md"), PathJoin(d, "agents/SOUL.md")]
  }

  /** A path the candidate loop passes over: missing, or read as the empty (falsy) text. */
  predicate Skipped(r: FileRead) {
    r.NotFound? || r == Content([])
  }

  /** The candidate loop: the first path with non-empty text, none, or the first read error. */
  function FirstSoul(read: string -> FileRead, paths: seq<string>): Outcome<Option<Roster.SoulFile>>
    decreases |paths|
  {
    if paths == [] then Done(None)
    else
      match SafeRead(read(paths[0]))
      case Thrown(m) => Thrown(m)
      case Done(c) =>
        if c.Some? && c.value != [] then Done(Some(Roster.SoulFile(paths[0], c.value)))
        else FirstSoul(read, paths[1..])
  }

  /** The index of the first path the candidate loop does not pass over, or the number of paths. */
  function FirstTaken(read: string -> FileRead, paths: seq<string>): (k: nat)
    ensures k <= |paths|
    ensures forall j :: 0 <= j < k ==> Skipped(read(paths[j]))
    ensures k < |paths| ==> !Skipped(read(paths[k]))
    decreases |paths|
  {
    if paths == [] then 0
    else if Skipped(read(paths[0])) then
      var k := FirstTaken(read, paths[1..]);
      assert forall j :: 1 <= j < k + 1 ==> paths[j] == paths[1..][j - 1];
      k + 1
    else 0
  }

  /**
   * The candidate loop stops at the first path it does not pass over, taking its text or
   * its error; when it passes over every path it finds none.
   */
  lemma {:induction false} FirstSoulMeaning(read: string -> FileRead, paths: seq<string>)
    ensures var k := FirstTaken(read, paths);
      FirstSoul(read, paths) == if k == |paths| then Done(None) else FirstSoul(read, [paths[k]])
    decreases |paths|
  {
    if paths != [] {
      if Skipped(read(paths[0])) {
        FirstSoulMeaning(read, paths[1..]);
        var k := FirstTaken(read, paths[1..]);
        if k < |paths[1..]| {
          assert paths[1..][k] == paths[k + 1];
        }
      } else {
        assert [paths[0]][1..] == [];
      }
    }
  }

  /** The directory loop over the first directories: one entry per directory that has a SOUL.md, or the first error. */
  function SoulsOf(read: string -> FileRead, agentsDir: string, dirs: seq<string>): Outcome<seq<(string, Roster.SoulFile)>>
    decreases |dirs|
  {
    if dirs == [] then Done([])
    else
      var front := SoulsOf(read, agentsDir, dirs[..|dirs| - 1]);
      var d := dirs[|dirs| - 1];
      if front.Thrown? then front
      else
        match FirstSoul(read, SoulCandidates(agentsDir, d))
        case Thrown(m) => Thrown(m)
        case Done(found) => if found.Some? then Done(front.value + [(d, found.value)]) else front
  }

  /** `readAllSoulFiles`: `{}` without an `agents` directory. */
  function SoulFiles(ws: Workspace): Outcome<seq<(string, Roster.SoulFile)>> {
    match ws.agentsListing
    case None => Done([])
    case Some(entries) => SoulsOf(ws.read, PathJoin(ws.root, "agents"), Directories(entries))
  }

  /** Once a directory throws, the loop has ended: the later directories are never read. */
  lemma {:induction false} SoulsThrownStays(read: string -> FileRead, agentsDir: string, dirs: seq<string>, k: nat)
    requires k <= |dirs| && SoulsOf(read, agentsDir, dirs[..k]).Thrown?
    ensures SoulsOf(read, agentsDir, dirs) == SoulsOf(read, agentsDir, dirs[..k])
    decreases |dirs| - k
  {
    if k < |dirs| {
      assert dirs[..k + 1][..k] == dirs[..k];
      SoulsThrownStays(read, agentsDir, dirs, k + 1);
    } else {
      assert dirs[..k] == dirs;
    }
  }

  /** The candidate loop of directory `d` ends without throwing. */
  predicate ReadsWell(read: string -> FileRead, agentsDir: string, d: string) {
    FirstSoul(read, SoulCandidates(agentsDir, d)).Done?
  }

  /** The candidate loop of directory `d` finds `f`. */
  predicate Finds(read: string -> FileRead, agentsDir: string, d: string, f: Roster.SoulFile) {
    FirstSoul(read, SoulCandidates(agentsDir, d)) == Done(Some(f))
  }

  /** Reading the soul files fails exactly when some directory's candidate loop throws. */
  lemma {:induction false} SoulsOfDone(read: string -> FileRead, agentsDir: string, dirs: seq<string>)
    ensures SoulsOf(read, agentsDir, dirs).Done? <==> forall i :: 0 <= i < |dirs| ==> ReadsWell(read, agentsDir, dirs[i])
    decreases |dirs|
  {
    if dirs != [] {
      var front := dirs[..|dirs| - 1];
      SoulsOfDone(read, agentsDir, front);
      assert forall i :: 0 <= i < |front| ==> front[i] == dirs[i];
    }
  }

  /** Every soul entry is a listed directory with the file its candidate loop finds, and there are no more entries than directories. */
  lemma {:induction false} SoulsOfEntries(read: string -> FileRead, agentsDir: string, dirs: seq<string>)
    requires SoulsOf(read, agentsDir, dirs).Done?
    ensures var v := SoulsOf(read, agentsDir, dirs).value;
      |v| <= |dirs| && forall k :: 0 <= k < |v| ==> v[k].0 in dirs && Finds(read, agentsDir, v[k].0, v[k].1)
    decreases |dirs|
  {
    if dirs != [] {
      var front := dirs[..|dirs| - 1];
      SoulsOfEntries(read, agentsDir, front);
      assert forall x :: x in front ==> x in dirs;
    }
  }

  /**
   * A directory listing names each directory once, so no directory has two entries:
   * the entries keep the listing's order and take at most one per position.
   */
  lemma {:induction false} SoulsOfDistinct(read: string -> FileRead, agentsDir: string, dirs: seq<string>)
    requires SoulsOf(read, agentsDir, dirs).Done?
    requires forall i, j :: 0 <= i < j < |dirs| ==> dirs[i] != dirs[j]
    ensures var v := SoulsOf(read, agentsDir, dirs).value;
      forall j, k :: 0 <= j < k < |v| ==> v[j].0 != v[k].0
    decreases |dirs|
  {
    if dirs != [] {
      var front := dirs[..|dirs| - 1];
      var d := dirs[|dirs| - 1];
      assert forall i, j :: 0 <= i < j < |front| ==> front[i] != front[j];
      SoulsOfDistinct(read, agentsDir, front);
      SoulsOfEntries(read, agentsDir, front);
      assert d !in front by {
        forall i | 0 <= i < |front| ensures front[i] != d {
          assert front[i] == dirs[i];
        }
      }
    }
  }

  /** Every listed directory whose candidate loop finds a file has its entry. */
  lemma {:induction false} SoulsOfComplete(read: string -> FileRead, agentsDir: string, dirs: seq<string>, i: nat, f: Roster.SoulFile)
    requires SoulsOf(read, agentsDir, dirs).Done?
    requires i < |dirs| && Finds(read, agentsDir, dirs[i], f)
    ensures (dirs[i], f) in SoulsOf(read, agentsDir, dirs).value
    decreases |dirs|
  {
    var front := dirs[..|dirs| - 1];
    if i < |front| {
      assert front[i] == dirs[i];
      SoulsOfComplete(read, agentsDir, front, i, f);
    }
  }

  /** `readAllSoulFiles` as the source writes it: a loop over the directories and, inside, over the candidates. */
  method ReadAllSoulFiles(ws: Workspace) returns (r: Outcome<seq<(string, Roster.SoulFile)>>)
    ensures r == SoulFiles(ws)
  {
    if ws.agentsListing.None? {
      return Done([]);
    }
    var dirs := Directories(ws.agentsListing.value);
    var agentsDir := PathJoin(ws.root, "agents");
    var souls: seq<(string, Roster.SoulFile)> := [];
    var i := 0;
    while i < |dirs|
      invariant 0 <= i <= |dirs|
      invariant SoulsOf(ws.read, agentsDir, dirs[..i]) == Done(souls)
    {
      var paths := SoulCandidates(agentsDir, dirs[i]);
      var found: Option<Roster.SoulFile> := None;
      var j := 0;
      while j < |paths|
        invariant 0 <= j <= |paths|
        invariant FirstSoul(ws.read, paths) == FirstSoul(ws.read, paths[j..])
        decreases |paths| - j
      {
        var content := SafeRead(ws.read(paths[j]));
        if content.Thrown? {
          assert FirstSoul(ws.read, paths) == Thrown(content.message);
          assert dirs[..i + 1][..i] == dirs[..i];
          SoulsThrownStays(ws.read, agentsDir, dirs, i + 1);
          return Thrown(content.message);
        }
        if content.value.Some? && content.value.value != [] {
          found := Some(Roster.SoulFile(paths[j], content.value.value));
          break;
        }
        assert paths[j..][1..] == paths[j + 1..];
        j := j + 1;
      }
      assert found.Some? ==> FirstSoul(ws.read, paths) == Done(found);
      assert found.None? ==> FirstSoul(ws.read, paths) == Done(None);
      assert dirs[..i + 1][..i] == dirs[..i];
      if found.Some? {
        souls := souls + [(dirs[i], found.value)];
      }
      i := i + 1;
    }
    assert dirs[..|dirs|] == dirs;
    return Done(souls);
  }

  // ------------------------------------------------------------ the build

  /** The clock readings of one build: its start, `generatedAt`, the two later `Date.now()` calls, `lastModified` and the error timestamp. */
  datatype BuildClock = BuildClock(startMs: int, generatedAt: string, stampedMs: int, finishedMs: int, modifiedAt: string, failedAt: string)

  datatype Metadata = Metadata(
    generatedAt: string,
    version: string,
    workspace: string,
    lastGitCommit: string,
    lastGitCommitDate: string,
    buildTimeMs: int)

  /** The document `data.json` holds; the constant configuration blocks are left out. */
  datatype Snapshot = Snapshot(
    metadata: Metadata,
    agents: Roster.RosterMap,
    activeTasks: DataTasks.ActiveTasksData,
    projects: map<string, DataProjects.DataProject>,
    gitAnalytics: DataGit.Parsed<DataGit.GitReport>)

  /** `gitAnalytics.lastCommit?.hash || 'unknown'`: never empty; the short hash of the newest commit, or 'unknown'. */
  function LastGitCommit(g: DataGit.Parsed<DataGit.GitReport>): (s: string)
    ensures s != []
    ensures s == "unknown" || (g.Ok? && g.value.lastCommit.Some? && s == g.value.lastCommit.value.hash)
  {
    if g.Ok? && g.value.lastCommit.Some? && g.value.lastCommit.value.hash != [] then g.value.lastCommit.value.hash
    else "unknown"
  }

  /** `gitAnalytics.lastCommit?.date || 'unknown'`: never empty; the date of the newest commit, or 'unknown'. */
  function LastGitCommitDate(g: DataGit.Parsed<DataGit.GitReport>): (s: string)
    ensures s != []
    ensures s == "unknown" || (g.Ok? && g.value.lastCommit.Some? && s == g.value.lastCommit.value.date)
  {
    if g.Ok? && g.value.lastCommit.Some? && g.value.lastCommit.value.date != [] then g.value.lastCommit.value.date
    else "unknown"
  }

  function AgentsPath(ws: Workspace): string { PathJoin(ws.root, "AGENTS.md") }
  function TasksPath(ws: Workspace): string { PathJoin(ws.root, "active-tasks.md") }
  function ProjectsPath(ws: Workspace): string { PathJoin(ws.root, "projects.md") }

  /** The git analytics of the workspace. */
  function GitOf(ws: Workspace): DataGit.Parsed<DataGit.GitReport> {
    DataGit.GitAnalytics(ws.git.hasGitDir, ws.git.log, ws.git.numstat, ws.git.iso)
  }

  /** The document built from texts that were read. */
  function SnapshotOf(ws: Workspace, clock: BuildClock, agentsMd: Option<string>, tasksMd: Option<string>,
                      projectsMd: Option<string>, souls: seq<(string, Roster.SoulFile)>): Snapshot
  {
    var git := GitOf(ws);
    Snapshot(
      Metadata(clock.generatedAt, "1.0.0", ws.root, LastGitCommit(git), LastGitCommitDate(git), clock.stampedMs - clock.startMs),
      Roster.AgentsData(agentsMd, souls),
      DataTasks.ActiveTasksOf(tasksMd),
      DataProjects.ProjectsData(projectsMd),
      git)
  }

  /**
   * The `try` block of `buildDataJson` up to the write of `data.json`: the three reads, the
   * soul files, the analytics, and the write (`writeError` is the message the write throws).
   */
  function BuildData(ws: Workspace, clock: BuildClock, writeError: Option<string>): (r: Outcome<Snapshot>)
    ensures r.Thrown? <==>
      ws.read(AgentsPath(ws)).Failed? || ws.read(TasksPath(ws)).Failed? || ws.read(ProjectsPath(ws)).Failed? ||
      SoulFiles(ws).Thrown? || writeError.Some?
    ensures ws.read(AgentsPath(ws)).Failed? ==> r == Thrown(ws.read(AgentsPath(ws)).message)
    ensures r.Done? ==> (r.value.metadata.version == "1.0.0" && r.value.metadata.workspace == ws.root &&
      r.value.metadata.buildTimeMs == clock.stampedMs - clock.startMs && r.value.gitAnalytics == GitOf(ws))
  {
    var agentsMd := SafeRead(ws.read(AgentsPath(ws)));
    var tasksMd := SafeRead(ws.read(TasksPath(ws)));
    var projectsMd := SafeRead(ws.read(ProjectsPath(ws)));
    if agentsMd.Thrown? then Thrown(agentsMd.message)
    else if tasksMd.Thrown? then Thrown(tasksMd.message)
    else if projectsMd.Thrown? then Thrown(projectsMd.message)
    else
      var souls := SoulFiles(ws);
      if souls.Thrown? then Thrown(souls.message)
      else if writeError.Some? then Thrown(writeError.value)
      else Done(SnapshotOf(ws, clock, agentsMd.value, tasksMd.value, projectsMd.value, souls.value))
  }

  /** Without a repository the metadata names no commit. */
  lemma NoRepositoryUnknown(ws: Workspace, clock: BuildClock)
    requires !ws.git.hasGitDir
    ensures var s := SnapshotOf(ws, clock, None, None, None, []);
      s.metadata.lastGitCommit == "unknown" && s.metadata.lastGitCommitDate == "unknown" &&
      s.gitAnalytics == DataGit.Err(DataGit.NotARepository)
  {
  }

  /** A missing AGENTS.md, active-tasks.md or projects.md gives no agents, no task buckets and no projects. */
  lemma MissingFilesEmpty(ws: Workspace, clock: BuildClock, writeError: Option<string>)
    requires ws.read(AgentsPath(ws)).NotFound? && ws.read(TasksPath(ws)).NotFound? && ws.read(ProjectsPath(ws)).NotFound?
    requires BuildData(ws, clock, writeError).Done?
    ensures var s := BuildData(ws, clock, writeError).value;
      s.agents.keys == [] && s.agents.agents == map[] && s.activeTasks == DataTasks.NoActiveTasks && s.projects == map[]
  {
    Roster.AgentsDataWellFormed(None, SoulFiles(ws).value);
  }

  /** The `try` block of `buildDataJson` up to the write, as a method over the readers' own loops. */
  method BuildSnapshot(ws: Workspace, clock: BuildClock, writeError: Option<string>) returns (r: Outcome<Snapshot>)
    ensures r == BuildData(ws, clock, writeError)
  {
    var agentsMd := SafeRead(ws.read(AgentsPath(ws)));
    if agentsMd.Thrown? {
      return Thrown(agentsMd.message);
    }
    var tasksMd := SafeRead(ws.read(TasksPath(ws)));
    if tasksMd.Thrown? {
      return Thrown(tasksMd.message);
    }
    var projectsMd := SafeRead(ws.read(ProjectsPath(ws)));
    if projectsMd.Thrown? {
      return Thrown(projectsMd.message);
    }
    var souls := ReadAllSoulFiles(ws);
    if souls.Thrown? {
      return Thrown(souls.message);
    }
    var git := DataGit.BuildGitAnalytics(ws.git.hasGitDir, ws.git.log, ws.git.numstat, ws.git.iso);
    var agents := Roster.ParseAgentsData(agentsMd.value, souls.value);
    var tasks := DataTasks.ParseActiveTasks(tasksMd.value);
    var projects := DataProjects.ParseProjectsData(projectsMd.value);
    var metadata := Metadata(clock.generatedAt, "1.0.0", ws.root, LastGitCommit(git), LastGitCommitDate(git), clock.stampedMs - clock.startMs);
    if writeError.Some? {
      return Thrown(writeError.value);
    }
    return Done(Snapshot(metadata, agents, tasks, projects, git));
  }

  // ------------------------------------------------------------ clients and broadcast

  /** A WebSocket client, by identity. */
  type Client = nat

  datatype Message =
    | Connected(version: nat, data: Snapshot)
    | DataRebuilt(version: nat, timestamp: string, buildTimeMs: int)
    | BuildError(error: string, timestamp: string)
    | FileChange(event: string, path: string, timestamp: string)

  /** One `ws.send`: the client and the message. */
  datatype Delivery = Delivery(to: Client, message: Message)

  /** `cache.subscribers.forEach(...)`: in insertion order, the open subscribers get the message. */
  function Deliveries(subs: seq<Client>, open: set<Client>, m: Message): seq<Delivery>
    decreases |subs|
  {
    if subs == [] then []
    else
      var rest := Deliveries(subs[..|subs| - 1], open, m);
      if subs[|subs| - 1] in open then rest + [Delivery(subs[|subs| - 1], m)] else rest
  }

  /** The number of messages sent to `c`. */
  function SentTo(ds: seq<Delivery>, c: Client): nat
    decreases |ds|
  {
    if ds == [] then 0
    else SentTo(ds[..|ds| - 1], c) + (if ds[|ds| - 1].to == c then 1 else 0)
  }

  lemma {:induction false} SentToAppend(a: seq<Delivery>, b: seq<Delivery>, c: Client)
    ensures SentTo(a + b, c) == SentTo(a, c) + SentTo(b, c)
    decreases |b|
  {
    if b == [] {
      assert a + b == a;
    } else {
      assert (a + b)[..|a + b| - 1] == a + b[..|b| - 1];
      SentToAppend(a, b[..|b| - 1], c);
    }
  }

  /** No client is listed twice: the subscribers form a Set. */
  predicate NoDuplicates(subs: seq<Client>) {
    forall i, j :: 0 <= i < j < |subs| ==> subs[i] != subs[j]
  }

  /** A broadcast sends only this message, and only to subscribers that are open. */
  lemma {:induction false} DeliveriesMeaning(subs: seq<Client>, open: set<Client>, m: Message, d: Delivery)
    ensures d in Deliveries(subs, open, m) <==> d.message == m && d.to in subs && d.to in open
    decreases |subs|
  {
    if subs != [] {
      var front := subs[..|subs| - 1];
      DeliveriesMeaning(front, open, m, d);
      assert subs == front + [subs[|subs| - 1]];
    }
  }

  /** A broadcast reaches each open subscriber exactly once and no one else. */
  lemma {:induction false} DeliveriesOnce(subs: seq<Client>, open: set<Client>, m: Message, c: Client)
    requires NoDuplicates(subs)
    ensures SentTo(Deliveries(subs, open, m), c) == if c in subs && c in open then 1 else 0
    decreases |subs|
  {
    if subs != [] {
      var front, last := subs[..|subs| - 1], subs[|subs| - 1];
      DeliveriesOnce(front, open, m, c);
      assert subs == front + [last];
      assert last !in front by {
        forall i | 0 <= i < |front|
          ensures front[i] != last
        {
          assert subs[i] != subs[|subs| - 1];
        }
      }
      if last in open {
        var rest := Deliveries(front, open, m);
        assert (rest + [Delivery(last, m)])[..|rest|] == rest;
      }
    }
  }

  // ------------------------------------------------------------ the cache

  /** The cache, the subscriber Set in insertion order, and every message sent so far. */
  datatype CacheState = CacheState(
    data: Option<Snapshot>,
    lastModified: Option<string>,
    version: nat,
    subscribers: seq<Client>,
    sent: seq<Delivery>)

  /** `broadcast(m)`: only the sent messages change. */
  function Broadcasted(s: CacheState, m: Message, open: set<Client>): CacheState {
    s.(sent := s.sent + Deliveries(s.subscribers, open, m))
  }

  /**
   * The cache after `buildDataJson` ends with `r`. On success the data and `lastModified`
   * are replaced, the version goes up by one and a `data-rebuilt` message is broadcast;
   * on an error only a `build-error` message is broadcast.
   */
  function Built(s: CacheState, r: Outcome<Snapshot>, clock: BuildClock, open: set<Client>): CacheState {
    if r.Done? then
      var v := s.version + 1;
      Broadcasted(s.(data := Some(r.value), lastModified := Some(clock.modifiedAt), version := v),
                DataRebuilt(v, clock.modifiedAt, clock.finishedMs - clock.startMs), open)
    else Broadcasted(s, BuildError(r.message, clock.failedAt), open)
  }

  /** A build changes the version by exactly one on success and leaves the cache alone on an error; the subscribers never change. */
  lemma BuiltCache(s: CacheState, r: Outcome<Snapshot>, clock: BuildClock, open: set<Client>)
    ensures var t := Built(s, r, clock, open);
      t.subscribers == s.subscribers &&
      t.version == (if r.Done? then s.version + 1 else s.version) &&
      (r.Done? ==> t.data == Some(r.value) && t.lastModified == Some(clock.modifiedAt)) &&
      (r.Thrown? ==> t.data == s.data && t.lastModified == s.lastModified)
  {
  }

  /**
   * A build sends one message to each open subscriber and nothing to anyone else: the new
   * version on success, the error on failure.
   */
  lemma BuiltNotifies(s: CacheState, r: Outcome<Snapshot>, clock: BuildClock, open: set<Client>, c: Client)
    requires NoDuplicates(s.subscribers)
    ensures var t := Built(s, r, clock, open);
      SentTo(t.sent, c) == SentTo(s.sent, c) + (if c in s.subscribers && c in open then 1 else 0) &&
      forall d :: d in t.sent[|s.sent|..] ==> (d.to in s.subscribers && d.to in open &&
        d.message == if r.Done? then DataRebuilt(s.version + 1, clock.modifiedAt, clock.finishedMs - clock.startMs)
                     else BuildError(r.message, clock.failedAt))
  {
    var t := Built(s, r, clock, open);
    var m := if r.Done? then DataRebuilt(s.version + 1, clock.modifiedAt, clock.finishedMs - clock.startMs)
             else BuildError(r.message, clock.failedAt);
    var ds := Deliveries(s.subscribers, open, m);
    assert t.sent == s.sent + ds;
    SentToAppend(s.sent, ds, c);
    DeliveriesOnce(s.subscribers, open, m, c);
    assert t.sent[|s.sent|..] == ds;
    forall d | d in ds
      ensures d.to in s.subscribers && d.to in open && d.message == m
    {
      DeliveriesMeaning(s.subscribers, open, m, d);
    }
  }

  /** `wss.on('connection')`: the client joins the Set and, when there is data, gets it with the version. */
  function Joined(s: CacheState, c: Client): CacheState {
    s.(subscribers := if c in s.subscribers then s.subscribers else s.subscribers + [c],
       sent := if s.data.Some? then s.sent + [Delivery(c, Connected(s.version, s.data.value))] else s.sent)
  }

  /** `cache.subscribers.delete(ws)`. */
  function Without(subs: seq<Client>, c: Client): (r: seq<Client>)
    ensures forall x :: x in r <==> x in subs && x != c
    decreases |subs|
  {
    if subs == [] then []
    else if subs[0] == c then Without(subs[1..], c)
    else [subs[0]] + Without(subs[1..], c)
  }

  /** Deleting from the Set keeps it a Set, and the others in their order. */
  lemma {:induction false} WithoutKeeps(subs: seq<Client>, c: Client)
    requires NoDuplicates(subs)
    ensures NoDuplicates(Without(subs, c))
    decreases |subs|
  {
    if subs != [] {
      var rest := subs[1..];
      assert NoDuplicates(rest) by {
        forall i, j | 0 <= i < j < |rest|
          ensures rest[i] != rest[j]
        {
          assert subs[i + 1] != subs[j + 1];
        }
      }
      WithoutKeeps(rest, c);
      assert subs[0] !in rest by {
        forall i | 0 <= i < |rest|
          ensures rest[i] != subs[0]
        {
          assert subs[0] != subs[i + 1];
        }
      }
      if subs[0] != c {
        var w := Without(rest, c);
        var r := [subs[0]] + w;
        forall i, j | 0 <= i < j < |r|
          ensures r[i] != r[j]
        {
          assert r[j] == w[j - 1];
          if i > 0 {
            assert r[i] == w[i - 1];
          }
        }
      }
    }
  }

  /** Joining keeps the subscribers a Set, holding the client, and sends it the current data only when there is some. */
  lemma ConnectMeaning(s: CacheState, c: Client)
    requires NoDuplicates(s.subscribers)
    ensures var t := Joined(s, c);
      NoDuplicates(t.subscribers) && (forall x :: x in t.subscribers <==> x in s.subscribers || x == c) &&
      SentTo(t.sent, c) == SentTo(s.sent, c) + (if s.data.Some? then 1 else 0) &&
      t.data == s.data && t.version == s.version
  {
    var t := Joined(s, c);
    if s.data.Some? {
      SentToAppend(s.sent, [Delivery(c, Connected(s.version, s.data.value))], c);
      assert [Delivery(c, Connected(s.version, s.data.value))][..0] == [];
    }
  }

  class Cache {
    var data: Option<Snapshot>
    var lastModified: Option<string>
    var version: nat
    /** The subscriber Set, in insertion order. */
    var subscribers: seq<Client>
    /** Every message sent so far, in order. */
    var sent: seq<Delivery>

    function State(): CacheState
      reads this
    {
      CacheState(data, lastModified, version, subscribers, sent)
    }

    ghost predicate Valid()
      reads this
    {
      NoDuplicates(subscribers)
    }

    /** The module-level `cache` as the server starts: no data, version 0, no subscribers. */
    constructor ()
      ensures Valid()
      ensures State() == CacheState(None, None, 0, [], [])
    {
      data := None;
      lastModified := None;
      version := 0;
      subscribers := [];
      sent := [];
    }

    /** `broadcast(message)`: the loop over the subscribers, sending to the open ones. */
    method Broadcast(m: Message, open: set<Client>)
      modifies this`sent
      ensures State() == Broadcasted(old(State()), m, open)
    {
      var i := 0;
      while i < |subscribers|
        invariant 0 <= i <= |subscribers|
        invariant sent == old(sent) + Deliveries(subscribers[..i], open, m)
      {
        var c := subscribers[i];
        assert subscribers[..i + 1][..i] == subscribers[..i];
        if c in open {
          sent := sent + [Delivery(c, m)];
        }
        i := i + 1;
      }
      assert subscribers[..|subscribers|] == subscribers;
    }

    /** The cache update and the broadcast that end `buildDataJson`, after the build returned or threw. */
    method Commit(r: Outcome<Snapshot>, clock: BuildClock, open: set<Client>)
      modifies this
      ensures State() == Built(old(State()), r, clock, open)
    {
      if r.Done? {
        data := Some(r.value);
        lastModified := Some(clock.modifiedAt);
        version := version + 1;
        Broadcast(DataRebuilt(version, clock.modifiedAt, clock.finishedMs - clock.startMs), open);
      } else {
        Broadcast(BuildError(r.message, clock.failedAt), open);
      }
    }

    /** `buildDataJson`: the error, if any, is returned to the caller, which rethrows it. */
    method BuildDataJson(ws: Workspace, clock: BuildClock, writeError: Option<string>, open: set<Client>) returns (r: Outcome<Snapshot>)
      requires Valid()
      modifies this
      ensures Valid()
      ensures r == BuildData(ws, clock, writeError)
      ensures State() == Built(old(State()), r, clock, open)
    {
      r := BuildSnapshot(ws, clock, writeError);
      Commit(r, clock, open);
    }

    /** A client connects. */
    method Connect(c: Client)
      requires Valid()
      modifies this
      ensures Valid()
      ensures State() == Joined(old(State()), c)
    {
      ConnectMeaning(State(), c);
      if c !in subscribers {
        subscribers := subscribers + [c];
      }
      if data.Some? {
        sent := sent + [Delivery(c, Connected(version, data.value))];
      }
    }

    /** A client closes. */
    method Disconnect(c: Client)
      requires Valid()
      modifies this`subscribers
      ensures Valid()
      ensures State() == old(State()).(subscribers := Without(old(subscribers), c))
    {
      WithoutKeeps(subscribers, c);
      subscribers := Without(subscribers, c);
    }
  }

  // ------------------------------------------------------------ the rebuild debounce

  /** `setTimeout(..., 1000)` */
  const RebuildDelayMs := 1000

  /** What reaches the watcher: a file event at a time, or the clock reaching a time. */
  datatype TimerEvent = Watch(at: int) | Clock(at: int)

  /** The armed timer fires once the clock reaches its deadline. */
  predicate Fires(deadline: Option<int>, now: int) {
    deadline.Some? && now >= deadline.value
  }

  /** The deadline after an event: an event clears the timer and arms a fresh one; a firing timer is spent. */
  function NextDeadline(deadline: Option<int>, e: TimerEvent): Option<int> {
    match e
    case Watch(t) => Some(t + RebuildDelayMs)
    case Clock(t) => if Fires(deadline, t) then None else deadline
  }

  /** The deadline after a run of events, starting with no timer. */
  function Deadline(events: seq<TimerEvent>): Option<int>
    decreases |events|
  {
    if events == [] then None
    else NextDeadline(Deadline(events[..|events| - 1]), events[|events| - 1])
  }

  /** The number of builds a run of events starts. */
  function Builds(events: seq<TimerEvent>): nat
    decreases |events|
  {
    if events == [] then 0
    else
      var front := events[..|events| - 1];
      var e := events[|events| - 1];
      Builds(front) + (if e.Clock? && Fires(Deadline(front), e.at) then 1 else 0)
  }

  /** The time of the last file event, if any. */
  function LastWatch(events: seq<TimerEvent>): Option<int>
    decreases |events|
  {
    if events == [] then None
    else if events[|events| - 1].Watch? then Some(events[|events| - 1].at)
    else LastWatch(events[..|events| - 1])
  }

  /** A burst: every clock event comes less than the delay after the file event before it, or before any. */
  predicate Burst(events: seq<TimerEvent>) {
    forall i :: 0 <= i < |events| && events[i].Clock? && LastWatch(events[..i]).Some? ==>
      events[i].at < LastWatch(events[..i]).value + RebuildDelayMs
  }

  /** During a burst no build starts, and the timer stands at the last event plus the delay. */
  lemma {:induction false} BurstDefers(events: seq<TimerEvent>)
    requires Burst(events)
    ensures Builds(events) == 0
    ensures Deadline(events) == if LastWatch(events).Some? then Some(LastWatch(events).value + RebuildDelayMs) else None
    decreases |events|
  {
    if events != [] {
      var front := events[..|events| - 1];
      assert Burst(front) by {
        forall i | 0 <= i < |front|
          ensures front[..i] == events[..i] && front[i] == events[i]
        {
        }
      }
      BurstDefers(front);
    }
  }

  /** After a burst, the first clock event at or after the last file event plus the delay starts exactly one build. */
  lemma BurstBuildsOnce(events: seq<TimerEvent>, t: int, later: int)
    requires Burst(events) && LastWatch(events).Some?
    requires t >= LastWatch(events).value + RebuildDelayMs
    ensures Builds(events + [Clock(t)]) == 1
    ensures Builds(events + [Clock(t)] + [Clock(later)]) == 1
    ensures Deadline(events + [Clock(t)] + [Clock(later)]).None?
  {
    BurstDefers(events);
    var once := events + [Clock(t)];
    assert once[..|once| - 1] == events;
    assert (once + [Clock(later)])[..|once|] == once;
  }

  /** The watcher's `rebuildTimeout`, as the deadline of the armed timer. */
  class Watcher {
    const cache: Cache
    var deadline: Option<int>

    constructor (cache: Cache)
      ensures this.cache == cache && deadline.None?
    {
      this.cache := cache;
      deadline := None;
    }

    /** `scheduleRebuild`: clear and re-arm the timer, then broadcast the change at once. */
    method ScheduleRebuild(event: string, relPath: string, now: int, stamp: string, open: set<Client>)
      modifies this, cache`sent
      ensures deadline == NextDeadline(old(deadline), Watch(now))
      ensures cache.State() == Broadcasted(old(cache.State()), FileChange(event, relPath, stamp), open)
    {
      deadline := Some(now + RebuildDelayMs);
      cache.Broadcast(FileChange(event, relPath, stamp), open);
    }

    /**
     * The clock reaching `now`: when the timer fires, the build runs, and an error it
     * throws is returned uncaught.
     */
    method Tick(now: int, ws: Workspace, clock: BuildClock, writeError: Option<string>, open: set<Client>)
      returns (r: Option<Outcome<Snapshot>>)
      requires cache.Valid()
      modifies this, cache
      ensures cache.Valid()
      ensures deadline == NextDeadline(old(deadline), Clock(now))
      ensures r.Some? <==> Fires(old(deadline), now)
      ensures r.Some? ==> r.value == BuildData(ws, clock, writeError)
      ensures r.Some? ==> cache.State() == Built(old(cache.State()), r.value, clock, open)
      ensures r.None? ==> cache.State() == old(cache.State())
    {
      if Fires(deadline, now) {
        deadline := None;
        var b := cache.BuildDataJson(ws, clock, writeError, open);
        r := Some(b);
      } else {
        r := None;
      }
    }
  }
}
