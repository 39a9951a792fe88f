/**
 * The maintenance commands of `backend/log-rotation.js` over a model of the logs
 * directory: `rotateLogs` deletes old log files, moves an oversized `current.log` to an
 * archive and caps the number of archives; `cleanupAgentLogs` deletes an agent's old
 * files; `compactErrorLogs` keeps the last thousand lines of `errors.log`. The clock and
 * the gzip output are parameters.
 */
module LogRotation {
  import opened Strings
  import opened Seqs
  import opened LogLine

  // ------------------------------------------------------------ configuration

  datatype Config = Config(maxAgeDays: int, maxSizeMB: int, maxArchiveFiles: int, compressArchives: bool)

  /** `parseInt(process.env.X) || fallback`: unset, unparsable or zero gives the fallback. */
  function Setting(env: Option<string>, fallback: int): (r: int)
    ensures env.None? ==> r == fallback
    ensures fallback != 0 ==> r != 0
  {
    ParsedOr(if env.Some? then ParseInt(env.value, true) else None, fallback)
  }

  /** `CONFIG`: 7 days, 10 MB, 30 archives; compression only for `LOG_COMPRESS=true`. */
  function ConfigOf(maxAge: Option<string>, maxSize: Option<string>, maxArchives: Option<string>, compress: Option<string>)
    : (c: Config)
    ensures c.compressArchives <==> compress == Some("true")
  {
    Config(Setting(maxAge, 7), Setting(maxSize, 10), Setting(maxArchives, 30), compress == Some("true"))
  }

  /** With nothing set the defaults hold, and a zero never gets through. */
  lemma ConfigDefaults(maxAge: Option<string>, maxSize: Option<string>, maxArchives: Option<string>)
    ensures ConfigOf(None, None, None, None) == Config(7, 10, 30, false)
    ensures var c := ConfigOf(maxAge, maxSize, maxArchives, None);
      c.maxAgeDays != 0 && c.maxSizeMB != 0 && c.maxArchiveFiles != 0
  {
  }

  const DayMs := 24 * 60 * 60 * 1000

  function MaxAge(c: Config): int { c.maxAgeDays * DayMs }
  function MaxSize(c: Config): int { c.maxSizeMB * 1024 * 1024 }

  // ------------------------------------------------------------ the listing

  /** A directory entry with what `statSync` tells of it. */
  datatype Listed = Listed(name: string, mtime: int, size: int)

  predicate EndsWith(s: string, suffix: string) {
    |suffix| <= |s| && s[|s| - |suffix|..] == suffix
  }

  predicate IsLogName(n: string) { EndsWith(n, ".log") || EndsWith(n, ".log.gz") }

  /** The `.log` and `.log.gz` files of a listing. */
  function LogFiles(es: seq<Listed>): seq<Listed> {
    Filter(es, (e: Listed) => IsLogName(e.name))
  }

  /** `now - mtime > maxAge`: strictly older than the limit. */
  predicate Old(e: Listed, now: int, maxAge: int) { now - e.mtime > maxAge }

  /** The files the age pass deletes. */
  function Aged(files: seq<Listed>, now: int, maxAge: int): seq<Listed> {
    Filter(files, (e: Listed) => Old(e, now, maxAge))
  }

  /** A file counts as an archive when its name starts with `archive-` and does not mention `current`. */
  predicate IsArchive(e: Listed) { StartsWith(e.name, "archive-") && !Contains(e.name, "current") }

  // ------------------------------------------------------------ newest first

  predicate NewestFirst(s: seq<Listed>) {
    forall i, j :: 0 <= i < j < |s| ==> s[i].mtime >= s[j].mtime
  }

  /** `x` put before the first entry that is no newer than it. */
  function Insert(x: Listed, s: seq<Listed>): (r: seq<Listed>)
    decreases |s|
  {
    if s == [] || s[0].mtime <= x.mtime then [x] + s else [s[0]] + Insert(x, s[1..])
  }

  /** `sort((a, b) => b.mtime - a.mtime)`, stable. */
  function SortNewest(s: seq<Listed>): seq<Listed>
    decreases |s|
  {
    if s == [] then [] else Insert(s[0], SortNewest(s[1..]))
  }

  lemma {:induction false} InsertPerm(x: Listed, s: seq<Listed>)
    ensures multiset(Insert(x, s)) == multiset(s) + multiset{x} && |Insert(x, s)| == |s| + 1
    decreases |s|
  {
    if s != [] && s[0].mtime > x.mtime {
      InsertPerm(x, s[1..]);
      assert s == [s[0]] + s[1..];
    }
  }

  /** No entry of `s` is newer than `m`. */
  predicate NoNewer(s: seq<Listed>, m: int) {
    forall k :: 0 <= k < |s| ==> s[k].mtime <= m
  }

  lemma {:induction false} InsertNoNewer(x: Listed, s: seq<Listed>, m: int)
    requires NoNewer(s, m) && x.mtime <= m
    ensures NoNewer(Insert(x, s), m)
    decreases |s|
  {
    if s != [] && s[0].mtime > x.mtime {
      InsertNoNewer(x, s[1..], m);
    }
  }

  lemma {:induction false} InsertSorted(x: Listed, s: seq<Listed>)
    requires NewestFirst(s)
    ensures NewestFirst(Insert(x, s))
    decreases |s|
  {
    if s != [] && s[0].mtime > x.mtime {
      var t := Insert(x, s[1..]);
      InsertSorted(x, s[1..]);
      assert NoNewer(s[1..], s[0].mtime);
      InsertNoNewer(x, s[1..], s[0].mtime);
      assert Insert(x, s) == [s[0]] + t;
    }
  }

  lemma InsertKeeps(x: Listed, s: seq<Listed>)
    requires NewestFirst(s)
    ensures NewestFirst(Insert(x, s)) && multiset(Insert(x, s)) == multiset(s) + multiset{x}
    ensures |Insert(x, s)| == |s| + 1
  {
    InsertPerm(x, s);
    InsertSorted(x, s);
  }

  /** The sort puts every entry no later than the ones older than it, and loses or adds none. */
  lemma {:induction false} SortNewestKeeps(s: seq<Listed>)
    ensures NewestFirst(SortNewest(s)) && multiset(SortNewest(s)) == multiset(s) && |SortNewest(s)| == |s|
    decreases |s|
  {
    if s != [] {
      SortNewestKeeps(s[1..]);
      InsertKeeps(s[0], SortNewest(s[1..]));
      assert s == [s[0]] + s[1..];
    }
  }

  /** The archives among the log files, newest first. */
  function Archives(files: seq<Listed>): seq<Listed> {
    SortNewest(Filter(files, IsArchive))
  }

  /** `archives.length > max ? archives.slice(max) : []` */
  function Excess(archives: seq<Listed>, max: int): seq<Listed> {
    if |archives| > max then archives[SliceStart(|archives|, max)..] else []
  }

  /**
   * With a limit of zero or more, the archives beyond the newest `max` are deleted, and
   * none of them is newer than any archive kept.
   */
  lemma ExcessOldest(files: seq<Listed>, max: int)
    requires max >= 0
    ensures var a := Archives(files);
      var x := Excess(a, max);
      |x| == (if |a| > max then |a| - max else 0) &&
      (|a| > max ==> x == a[max..] && forall i, j :: 0 <= i < max <= j < |a| ==> a[i].mtime >= a[j].mtime)
  {
    SortNewestKeeps(Filter(files, IsArchive));
  }

  /** Every archive is a listed log file, kept once per listing. */
  lemma ArchivesAreListed(files: seq<Listed>)
    ensures multiset(Archives(files)) == multiset(Filter(files, IsArchive))
    ensures forall e :: e in Archives(files) ==> e in files && IsArchive(e)
  {
    SortNewestKeeps(Filter(files, IsArchive));
    forall e | e in Archives(files)
      ensures e in files && IsArchive(e)
    {
      assert e in multiset(Archives(files));
    }
  }

  // ------------------------------------------------------------ unlinking

  function Names(es: seq<Listed>): seq<string> {
    seq(|es|, i requires 0 <= i < |es| => es[i].name)
  }

  predicate Present(es: seq<Listed>, n: string) {
    exists i :: 0 <= i < |es| && es[i].name == n
  }

  /** The directory with the file of that name gone. */
  function Without(es: seq<Listed>, n: string): (r: seq<Listed>)
    ensures !Present(r, n)
    ensures forall e :: e in r <==> e in es && e.name != n
  {
    var r := Filter(es, (e: Listed) => e.name != n);
    assert forall i :: 0 <= i < |r| ==> r[i] in r;
    r
  }

  /** The directory after `unlinkSync` of names in turn, how many were deleted, and whether one was missing and threw. */
  datatype Unlink = Unlink(remaining: seq<Listed>, deleted: nat, failed: bool)

  function Unlinked(es: seq<Listed>, names: seq<string>): (u: Unlink)
    ensures u.deleted <= |names|
    ensures u.failed <==> u.deleted < |names|
    decreases |names|
  {
    if names == [] then Unlink(es, 0, false)
    else if !Present(es, names[0]) then Unlink(es, 0, true)
    else
      var u := Unlinked(Without(es, names[0]), names[1..]);
      u.(deleted := u.deleted + 1)
  }

  /** A run that did not throw leaves none of the names, and every other file where it was. */
  lemma {:induction false} UnlinkedRemoves(es: seq<Listed>, names: seq<string>)
    ensures var u := Unlinked(es, names);
      (forall e :: e in u.remaining ==> e in es) &&
      (!u.failed ==> (forall n :: n in names ==> !Present(u.remaining, n)) &&
                     (forall e :: e in es && e.name !in names ==> e in u.remaining))
    decreases |names|
  {
    if names != [] && Present(es, names[0]) {
      var w := Without(es, names[0]);
      UnlinkedRemoves(w, names[1..]);
      var u := Unlinked(es, names);
      if !u.failed {
        assert !Present(w, names[0]);
        forall n | n in names
          ensures !Present(u.remaining, n)
        {
          if n == names[0] {
            forall i | 0 <= i < |u.remaining|
              ensures u.remaining[i].name != n
            {
              assert u.remaining[i] in w;
            }
          } else {
            assert n in names[1..];
          }
        }
      }
    }
  }

  /** A name that is not there when its turn comes, or not there from the start, makes the run throw. */
  lemma {:induction false} UnlinkedAbsent(es: seq<Listed>, names: seq<string>, n: string)
    requires n in names && !Present(es, n)
    ensures Unlinked(es, names).failed
    decreases |names|
  {
    if Present(es, names[0]) {
      assert n != names[0];
      assert n in names[1..];
      UnlinkedAbsent(Without(es, names[0]), names[1..], n);
    }
  }

  /** The same name twice makes the run throw: the second `unlinkSync` finds nothing. */
  lemma UnlinkedTwice(es: seq<Listed>, a: seq<string>, b: seq<string>, n: string)
    requires n in a && n in b
    ensures Unlinked(es, a + b).failed
  {
    UnlinkedAppend(es, a, b);
    var u := Unlinked(es, a);
    if !u.failed {
      UnlinkedRemoves(es, a);
      UnlinkedAbsent(u.remaining, b, n);
    }
  }

  /** Unlinking two runs of names is unlinking the first, then, if it did not throw, the second. */
  lemma {:induction false} UnlinkedAppend(es: seq<Listed>, a: seq<string>, b: seq<string>)
    ensures var u := Unlinked(es, a);
      Unlinked(es, a + b) ==
        if u.failed then u
        else var v := Unlinked(u.remaining, b); v.(deleted := u.deleted + v.deleted)
    decreases |a|
  {
    if a != [] {
      assert (a + b)[0] == a[0] && (a + b)[1..] == a[1..] + b;
      if Present(es, a[0]) {
        UnlinkedAppend(Without(es, a[0]), a[1..], b);
      }
    } else {
      assert a + b == b;
    }
  }

  /** `unlinkSync` of each name that is still there, the others skipped: the cap pass as intended. */
  function UnlinkedExisting(es: seq<Listed>, names: seq<string>): (u: Unlink)
    ensures !u.failed && u.deleted <= |names|
    decreases |names|
  {
    if names == [] then Unlink(es, 0, false)
    else if !Present(es, names[0]) then UnlinkedExisting(es, names[1..])
    else
      var u := UnlinkedExisting(Without(es, names[0]), names[1..]);
      u.(deleted := u.deleted + 1)
  }

  /** Skipping the missing ones, none of the names is left and every other file stays. */
  lemma {:induction false} UnlinkedExistingRemoves(es: seq<Listed>, names: seq<string>)
    ensures var u := UnlinkedExisting(es, names);
      (forall e :: e in u.remaining ==> e in es) &&
      (forall n :: n in names ==> !Present(u.remaining, n)) &&
      (forall e :: e in es && e.name !in names ==> e in u.remaining)
    decreases |names|
  {
    if names != [] {
      var u := UnlinkedExisting(es, names);
      var w := if Present(es, names[0]) then Without(es, names[0]) else es;
      UnlinkedExistingRemoves(w, names[1..]);
      assert !Present(w, names[0]);
      forall n | n in names
        ensures !Present(u.remaining, n)
      {
        if n == names[0] {
          forall i | 0 <= i < |u.remaining|
            ensures u.remaining[i].name != n
          {
            assert u.remaining[i] in w;
          }
        } else {
          assert n in names[1..];
        }
      }
    }
  }

  // ------------------------------------------------------------ rotating current.log

  /** `toISOString().replace(/[:.]/g, '-')` */
  function Dashed(stamp: string): (r: string)
    ensures |r| == |stamp| && ':' !in r && '.' !in r
  {
    seq(|stamp|, i requires 0 <= i < |stamp| => if stamp[i] == ':' || stamp[i] == '.' then '-' else stamp[i])
  }

  function ArchiveName(stamp: string): string {
    "archive-" + Dashed(stamp) + ".log"
  }

  /** The first entry named `current.log`. */
  function Current(es: seq<Listed>): (r: Option<Listed>)
    ensures r.Some? ==> r.value in es && r.value.name == "current.log"
    ensures r.None? <==> !Present(es, "current.log")
    decreases |es|
  {
    if es == [] then None
    else if es[0].name == "current.log" then Some(es[0])
    else
      Current(es[1..])
  }

  datatype Renaming = Renaming(entries: seq<Listed>, rotated: bool, compressed: bool)

  /**
   * An existing `current.log` strictly larger than the limit is renamed to the archive
   * name, and, with compression on, replaced by its `.gz` (written at `now`, of `gzSize`
   * bytes). Renaming and writing replace any file of the same name.
   */
  function Renamed(es: seq<Listed>, c: Config, stamp: string, now: int, gzSize: int): (m: Renaming)
    ensures m.rotated <==> Present(es, "current.log") && Current(es).value.size > MaxSize(c)
    ensures m.compressed <==> m.rotated && c.compressArchives
    ensures !m.rotated ==> m.entries == es
  {
    var cur := Current(es);
    if cur.None? || cur.value.size <= MaxSize(c) then Renaming(es, false, false)
    else
      var a := ArchiveName(stamp);
      var moved := Without(Without(es, "current.log"), a) + [Listed(a, cur.value.mtime, cur.value.size)];
      if c.compressArchives then
        Renaming(Without(Without(moved, a), a + ".gz") + [Listed(a + ".gz", now, gzSize)], true, true)
      else Renaming(moved, true, false)
  }

  /** Renaming brings back no file that is gone, other than the archive and its `.gz`. */
  lemma RenamedAbsent(es: seq<Listed>, c: Config, stamp: string, now: int, gzSize: int, n: string)
    requires !Present(es, n) && n != ArchiveName(stamp) && n != ArchiveName(stamp) + ".gz"
    ensures !Present(Renamed(es, c, stamp, now, gzSize).entries, n)
  {
    var m := Renamed(es, c, stamp, now, gzSize);
    forall i | 0 <= i < |m.entries|
      ensures m.entries[i].name != n
    {
      if m.rotated {
        var a := ArchiveName(stamp);
        var cur := Current(es).value;
        var moved := Without(Without(es, "current.log"), a) + [Listed(a, cur.mtime, cur.size)];
        assert forall e :: e in moved ==> e in es || e.name == a;
        if !c.compressArchives {
          assert m.entries[i] in moved;
        } else {
          assert m.entries[i] in Without(Without(moved, a), a + ".gz") || m.entries[i].name == a + ".gz";
        }
      } else {
        assert m.entries[i] in es;
      }
    }
  }

  // ------------------------------------------------------------ rotateLogs

  datatype Rotation = DirCreated | Done(rotated: nat, deleted: nat, compressed: nat) | Threw(deleted: nat)

  /** The names the age pass unlinks and the names the cap pass unlinks, both from the first listing. */
  function AgedNames(es: seq<Listed>, now: int, c: Config): seq<string> {
    Names(Aged(LogFiles(es), now, MaxAge(c)))
  }

  function ExcessNames(es: seq<Listed>, c: Config): seq<string> {
    Names(Excess(Archives(LogFiles(es)), c.maxArchiveFiles))
  }

  /**
   * `rotateLogs` on an existing directory: the age pass, the rename, then the cap pass,
   * each `unlinkSync` throwing on a file that is already gone.
   */
  function RotateRun(es: seq<Listed>, now: int, c: Config, stamp: string, gzSize: int): (seq<Listed>, Rotation)
  {
    var u := Unlinked(es, AgedNames(es, now, c));
    if u.failed then (u.remaining, Threw(u.deleted))
    else CapPass(u.deleted, Renamed(u.remaining, c, stamp, now, gzSize), ExcessNames(es, c))
  }

  /** The cap pass over the names `excess` after the rename `m`, with `deleted` files gone in the age pass. */
  function CapPass(deleted: nat, m: Renaming, excess: seq<string>): (seq<Listed>, Rotation)
  {
    var v := Unlinked(m.entries, excess);
    (v.remaining, RotationOf(m, deleted + v.deleted, v.failed))
  }

  /** What `rotateLogs` resolves with, or the count of deletions before it threw. */
  function RotationOf(m: Renaming, deleted: nat, failed: bool): Rotation {
    if failed then Threw(deleted)
    else Done(if m.rotated then 1 else 0, deleted, if m.compressed then 1 else 0)
  }

  /** The same run with the cap pass skipping archives that are already gone. */
  function RotateRunChecked(es: seq<Listed>, now: int, c: Config, stamp: string, gzSize: int): (seq<Listed>, Rotation)
  {
    var u := Unlinked(es, AgedNames(es, now, c));
    if u.failed then (u.remaining, Threw(u.deleted))
    else
      var m := Renamed(u.remaining, c, stamp, now, gzSize);
      var v := UnlinkedExisting(m.entries, ExcessNames(es, c));
      (v.remaining, RotationOf(m, u.deleted + v.deleted, false))
  }

  /** A listed name is among the names of the entries that carry it. */
  lemma NameListed(es: seq<Listed>, e: Listed)
    requires e in es
    ensures e.name in Names(es)
  {
    var i :| 0 <= i < |es| && es[i] == e;
    assert Names(es)[i] == e.name;
  }

  /**
   * As written, an archive that is both older than the age limit and beyond the archive
   * cap is unlinked by the age pass and then again by the cap pass, and the second
   * `unlinkSync` throws: the run never completes.
   */
  lemma AgedExcessThrows(es: seq<Listed>, now: int, c: Config, stamp: string, gzSize: int, e: Listed)
    requires e in Aged(LogFiles(es), now, MaxAge(c)) && e in Excess(Archives(LogFiles(es)), c.maxArchiveFiles)
    requires e.name != ArchiveName(stamp) && e.name != ArchiveName(stamp) + ".gz"
    ensures RotateRun(es, now, c, stamp, gzSize).1.Threw?
  {
    var u := Unlinked(es, AgedNames(es, now, c));
    if !u.failed {
      NameListed(Aged(LogFiles(es), now, MaxAge(c)), e);
      UnlinkedRemoves(es, AgedNames(es, now, c));
      RenamedAbsent(u.remaining, c, stamp, now, gzSize, e.name);
      NameListed(Excess(Archives(LogFiles(es)), c.maxArchiveFiles), e);
      UnlinkedAbsent(Renamed(u.remaining, c, stamp, now, gzSize).entries, ExcessNames(es, c), e.name);
    }
  }

  /** A text missing one character of a pattern does not contain the pattern. */
  lemma NoCharNoContains(s: string, pat: string, k: nat)
    requires k < |pat| && pat[k] !in s
    ensures !Contains(s, pat)
  {
  }

  /** `archive-X.log` */
  function ArchiveOf(x: string): string {
    "archive-" + x + ".log"
  }

  /** Two old archives with a cap of one: the older one is deleted by age and then again by the cap. */
  lemma TwoOldArchivesThrow(stamp: string, gzSize: int)
    requires ArchiveOf("b") != ArchiveName(stamp) && ArchiveOf("b") != ArchiveName(stamp) + ".gz"
    ensures var es := [Listed(ArchiveOf("a"), 2, 10), Listed(ArchiveOf("b"), 1, 10)];
      RotateRun(es, 8 * DayMs, Config(7, 10, 1, false), stamp, gzSize).1.Threw?
  {
    var es := [Listed(ArchiveOf("a"), 2, 10), Listed(ArchiveOf("b"), 1, 10)];
    var c := Config(7, 10, 1, false);
    ArchiveLogName("a");
    ArchiveLogName("b");
    KeptInOrder(es[0], es[1]);
    assert es[1] in Aged(es, 8 * DayMs, MaxAge(c));
    assert Excess(es, 1) == [es[1]];
    AgedExcessThrows(es, 8 * DayMs, c, stamp, gzSize, es[1]);
  }

  /** `archive-X.log` is a log file and an archive when `X` has no `u`. */
  lemma ArchiveLogName(x: string)
    requires 'u' !in x
    ensures IsLogName(ArchiveOf(x)) && IsArchive(Listed(ArchiveOf(x), 0, 0))
  {
    var n := ArchiveOf(x);
    assert n[|n| - 4..] == ".log";
    assert n[..8] == "archive-";
    assert 'u' !in n;
    NoCharNoContains(n, "current", 1);
  }

  /** Two archives, the first no older than the second, stay as they are. */
  lemma KeptInOrder(a: Listed, b: Listed)
    requires IsLogName(a.name) && IsLogName(b.name) && a.mtime >= b.mtime
    requires IsArchive(Listed(a.name, 0, 0)) && IsArchive(Listed(b.name, 0, 0))
    ensures LogFiles([a, b]) == [a, b] && Archives([a, b]) == [a, b]
  {
    FilterAll([a, b], (e: Listed) => IsLogName(e.name));
    FilterAll([a, b], IsArchive);
    assert SortNewest([b]) == [b];
  }

  /**
   * With the cap pass skipping what is gone, a run whose age pass succeeds completes, and
   * afterwards no old log file and no archive beyond the cap is left, other than the new
   * archive; every other file stays.
   */
  lemma CheckedRunCompletes(es: seq<Listed>, now: int, c: Config, stamp: string, gzSize: int)
    requires !Unlinked(es, AgedNames(es, now, c)).failed
    ensures var (after, r) := RotateRunChecked(es, now, c, stamp, gzSize);
      r.Done? &&
      forall n :: ((n in AgedNames(es, now, c) || n in ExcessNames(es, c)) &&
                   n != ArchiveName(stamp) && n != ArchiveName(stamp) + ".gz") ==> !Present(after, n)
  {
    var u := Unlinked(es, AgedNames(es, now, c));
    var m := Renamed(u.remaining, c, stamp, now, gzSize);
    UnlinkedRemoves(es, AgedNames(es, now, c));
    UnlinkedExistingRemoves(m.entries, ExcessNames(es, c));
    var v := UnlinkedExisting(m.entries, ExcessNames(es, c));
    forall n | n in AgedNames(es, now, c) && n != ArchiveName(stamp) && n != ArchiveName(stamp) + ".gz"
      ensures !Present(v.remaining, n)
    {
      RenamedAbsent(u.remaining, c, stamp, now, gzSize, n);
    }
  }

  // ------------------------------------------------------------ cleanupAgentLogs and compactErrorLogs

  /** `parseInt(process.argv[4]) || 3` */
  function KeepDays(arg: Option<string>): int {
    Setting(arg, 3)
  }

  /** The files of the directory whose name holds the lower-cased agent name, any extension. */
  function AgentFiles(es: seq<Listed>, agent: string): seq<Listed> {
    Filter(es, (e: Listed) => Contains(e.name, Lower(agent)))
  }

  function CleanupNames(es: seq<Listed>, agent: string, keepDays: int, now: int): seq<string> {
    Names(Aged(AgentFiles(es, agent), now, keepDays * DayMs))
  }

  /** The names it unlinks are those of the agent's files strictly older than the days kept. */
  lemma CleanupSelects(es: seq<Listed>, agent: string, keepDays: int, now: int, n: string)
    ensures n in CleanupNames(es, agent, keepDays, now) <==>
      exists e :: e in es && e.name == n && Contains(n, Lower(agent)) && Old(e, now, keepDays * DayMs)
  {
    var a := Aged(AgentFiles(es, agent), now, keepDays * DayMs);
    if n in Names(a) {
      var i :| 0 <= i < |a| && Names(a)[i] == n;
      assert a[i] in es;
    }
    if exists e :: e in es && e.name == n && Contains(n, Lower(agent)) && Old(e, now, keepDays * DayMs) {
      var e :| e in es && e.name == n && Contains(n, Lower(agent)) && Old(e, now, keepDays * DayMs);
      NameListed(a, e);
    }
  }

  /** `compactErrorLogs`: the last 1000 non-blank lines joined by newlines, when there are more; else no write. */
  function Compacted(content: string): (r: Option<string>)
  {
    var lines := NonBlank(Split(content, '\n'));
    if |lines| > 1000 then Some(Join(LastN(lines, 1000), "\n")) else None
  }

  /** The kept lines are non-blank lines of the split text. */
  lemma {:induction false} NonBlankMembers(lines: seq<string>)
    ensures forall x :: x in NonBlank(lines) ==> x in lines && !AllSpace(x)
    ensures forall i :: 0 <= i < |lines| && !AllSpace(lines[i]) ==> lines[i] in NonBlank(lines)
    decreases |lines|
  {
    if lines != [] {
      NonBlankMembers(lines[1..]);
      forall i | 0 <= i < |lines| && !AllSpace(lines[i])
        ensures lines[i] in NonBlank(lines)
      {
        if i > 0 {
          assert lines[1..][i - 1] == lines[i];
        }
      }
    }
  }

  lemma {:induction false} NonBlankAll(lines: seq<string>)
    requires forall i :: 0 <= i < |lines| ==> !AllSpace(lines[i])
    ensures NonBlank(lines) == lines
    decreases |lines|
  {
    if lines != [] {
      NonBlankAll(lines[1..]);
    }
  }

  /**
   * The compacted text reads back as exactly the thousand lines kept, so compacting it
   * again writes nothing: compaction is idempotent.
   */
  lemma CompactedIdempotent(content: string)
    requires Compacted(content).Some?
    ensures var lines := NonBlank(Split(content, '\n'));
      NonBlank(Split(Compacted(content).value, '\n')) == LastN(lines, 1000)
    ensures Compacted(Compacted(content).value).None?
  {
    var lines := NonBlank(Split(content, '\n'));
    var kept := LastN(lines, 1000);
    NonBlankMembers(Split(content, '\n'));
    SplitParts(content, '\n');
    forall i | 0 <= i < |kept|
      ensures '\n' !in kept[i] && !AllSpace(kept[i])
    {
      assert kept[i] == lines[|lines| - 1000 + i];
      assert kept[i] in lines;
    }
    SplitJoin(kept, '\n');
    NonBlankAll(kept);
  }

  // ------------------------------------------------------------ the directory

  datatype Cleanup = NoDirectory | Cleaned(deleted: nat) | CleanupThrew(deleted: nat)

  /** The logs directory: whether it present, its entries in `readdir` order, and the text of `errors.log`. */
  class LogDir {
    var present: bool
    var entries: seq<Listed>
    var errorLog: Option<string>

    constructor (present: bool, entries: seq<Listed>, errorLog: Option<string>)
      ensures this.present == present && this.entries == entries && this.errorLog == errorLog
    {
      this.present := present;
      this.entries := entries;
      this.errorLog := errorLog;
    }

    /** `forEach(file => fs.unlinkSync(file.path))`, stopping where one throws. */
    method UnlinkAll(names: seq<string>) returns (deleted: nat, failed: bool)
      modifies this
      ensures Unlink(entries, deleted, failed) == Unlinked(old(entries), names)
      ensures present == old(present) && errorLog == old(errorLog)
    {
      deleted, failed := 0, false;
      while deleted < |names|
        invariant deleted <= |names|
        invariant var u := Unlinked(entries, names[deleted..]);
          Unlinked(old(entries), names) == u.(deleted := u.deleted + deleted)
        invariant present == old(present) && errorLog == old(errorLog)
      {
        if !Present(entries, names[deleted]) {
          failed := true;
          return;
        }
        assert names[deleted..][1..] == names[deleted + 1..];
        entries := Without(entries, names[deleted]);
        deleted := deleted + 1;
      }
    }

    /** `rotateLogs`: a missing directory is created and nothing else happens. */
    method RotateLogs(now: int, c: Config, stamp: string, gzSize: int) returns (r: Rotation)
      modifies this
      ensures present && errorLog == old(errorLog)
      ensures !old(present) ==> r == DirCreated && entries == old(entries)
      ensures old(present) ==> (entries, r) == RotateRun(old(entries), now, c, stamp, gzSize)
    {
      if !present {
        present := true;
        return DirCreated;
      }
      var listing := entries;
      var agedDeleted, agedFailed := UnlinkAll(AgedNames(listing, now, c));
      var u := Unlink(entries, agedDeleted, agedFailed);
      assert u == Unlinked(listing, AgedNames(listing, now, c));
      if agedFailed {
        assert RotateRun(listing, now, c, stamp, gzSize) == (entries, Threw(agedDeleted));
        return Threw(agedDeleted);
      }
      assert u.remaining == entries && u.deleted == agedDeleted;
      r := RenameAndCap(ExcessNames(listing, c), u, now, c, stamp, gzSize);
    }

    /** The rename and the cap pass over `excess`, once the age pass `u` went through. */
    method RenameAndCap(excess: seq<string>, u: Unlink, now: int, c: Config, stamp: string, gzSize: int)
      returns (r: Rotation)
      requires !u.failed && u.remaining == entries
      modifies this
      ensures present == old(present) && errorLog == old(errorLog)
      ensures (entries, r) == CapPass(u.deleted, Renamed(old(entries), c, stamp, now, gzSize), excess)
    {
      var m := Renamed(entries, c, stamp, now, gzSize);
      entries := m.entries;
      var capDeleted, capFailed := UnlinkAll(excess);
      ghost var v := Unlinked(m.entries, excess);
      assert entries == v.remaining && capDeleted == v.deleted && capFailed == v.failed;
      r := RotationOf(m, u.deleted + capDeleted, capFailed);
      assert r == RotationOf(m, u.deleted + v.deleted, v.failed);
    }

    /** `cleanupAgentLogs`: `readdirSync` throws on a missing directory. */
    method CleanupAgentLogs(agent: string, keepDays: int, now: int) returns (r: Cleanup)
      modifies this
      ensures present == old(present) && errorLog == old(errorLog)
      ensures !present ==> r == NoDirectory && entries == old(entries)
      ensures present ==> var u := Unlinked(old(entries), CleanupNames(old(entries), agent, keepDays, now));
        entries == u.remaining && r == (if u.failed then CleanupThrew(u.deleted) else Cleaned(u.deleted))
    {
      if !present {
        return NoDirectory;
      }
      var deleted, failed := UnlinkAll(CleanupNames(entries, agent, keepDays, now));
      r := if failed then CleanupThrew(deleted) else Cleaned(deleted);
    }

    /** `compactErrorLogs`: nothing without `errors.log`; otherwise the compacted text, if any, replaces it. */
    method CompactErrorLogs()
      modifies this
      ensures present == old(present) && entries == old(entries)
      ensures errorLog == if old(errorLog).Some? && Compacted(old(errorLog).value).Some?
        then Compacted(old(errorLog).value) else old(errorLog)
    {
      if errorLog.Some? {
        var compacted := Compacted(errorLog.value);
        if compacted.Some? {
          errorLog := compacted;
        }
      }
    }
  }
}
