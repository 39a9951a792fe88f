/**
 * The line format of `backend/server.js`: `writeLog` appends `TIMESTAMP [LEVEL] [AGENT]
 * MESSAGE` and a newline to `current.log`, and `loadRecentLogs` reads the last non-blank
 * lines back through the pattern `^(\S+) \[(\w+)\] \[(\w+)\] (.+)$`.
 */
module LogLine {
  import opened Strings
  import opened Seqs

  /** The `meta` object of an agent event: the event's name, its session and, for a death, the duration. */
  datatype Meta = Meta(event: string, sessionId: string, duration: Option<int>)

  /**
   * A log entry; `stack`, `fixAvailable` and `autoFixed` are the optional fields of error
   * entries, and `meta` that of agent events.
   */
  datatype LogEntry = LogEntry(
    timestamp: string,
    level: string,
    agent: Option<string>,
    message: string,
    stack: Option<string>,
    fixAvailable: bool,
    autoFixed: bool,
    meta: Option<Meta>)

  /** `entry.agent || 'SYSTEM'` */
  function AgentName(a: Option<string>): (r: string)
    ensures r != []
    ensures a.Some? && a.value != [] ==> r == a.value
  {
    if a.Some? && a.value != [] then a.value else "SYSTEM"
  }

  /** The line without its newline. */
  function LineBody(e: LogEntry): string {
    e.timestamp + " [" + e.level + "] [" + AgentName(e.agent) + "] " + e.message
  }

  /** What `writeLog` appends to `current.log`. */
  function LogLineOf(e: LogEntry): string {
    LineBody(e) + "\n"
  }

  /** The text a sequence of `writeLog` calls leaves in an empty `current.log`. */
  function Written(es: seq<LogEntry>): string
    decreases |es|
  {
    if es == [] then [] else LogLineOf(es[0]) + Written(es[1..])
  }

  /** Appending one more line extends the text by that line. */
  lemma {:induction false} WrittenSnoc(es: seq<LogEntry>, e: LogEntry)
    ensures Written(es + [e]) == Written(es) + LogLineOf(e)
    decreases |es|
  {
    if es == [] {
      assert es + [e] == [e];
      assert [e][1..] == [];
    } else {
      assert (es + [e])[0] == es[0];
      assert (es + [e])[1..] == es[1..] + [e];
      WrittenSnoc(es[1..], e);
    }
  }

  // ------------------------------------------------------------ the pattern

  /** The number of non-space characters starting at `p`: how far `\S+` reaches. */
  function NonSpaceRun(s: string, p: nat): (n: nat)
    requires p <= |s|
    ensures p + n <= |s|
    decreases |s| - p
  {
    if p < |s| && !IsSpace(s[p]) then 1 + NonSpaceRun(s, p + 1) else 0
  }

  /** The number of word characters starting at `p`: how far `\w+` reaches. */
  function WordRun(s: string, p: nat): (n: nat)
    requires p <= |s|
    ensures p + n <= |s|
    decreases |s| - p
  {
    if p < |s| && IsWordChar(s[p]) then 1 + WordRun(s, p + 1) else 0
  }

  /** The four groups of a matched line. */
  datatype Fields = Fields(timestamp: string, level: string, agent: string, message: string)

  predicate NoSpace(s: string) { forall i :: 0 <= i < |s| ==> !IsSpace(s[i]) }
  predicate Word(s: string) { s != [] && forall i :: 0 <= i < |s| ==> IsWordChar(s[i]) }

  /** Groups that the pattern can capture: the first and last non-empty, the middle two words. */
  predicate Capturable(f: Fields) {
    f.timestamp != [] && NoSpace(f.timestamp) && Word(f.level) && Word(f.agent) &&
    f.message != [] && NoLineTerminator(f.message)
  }

  /** The line that the groups make up. */
  function Compose(f: Fields): string {
    f.timestamp + " [" + f.level + "] [" + f.agent + "] " + f.message
  }

  /**
   * The pattern matched against a whole line: `\S+` can only stop at the first white-space
   * character and each `\w+` only at the first non-word character, so the match, when
   * there is one, is unique.
   */
  function MatchLine(line: string): (r: Option<Fields>)
  {
    var k := NonSpaceRun(line, 0);
    if k == 0 || k + 2 > |line| || line[k] != ' ' || line[k + 1] != '[' then None
    else
      var a := k + 2;
      var j := a + WordRun(line, a);
      if j == a || j + 3 > |line| || line[j..j + 3] != "] [" then None
      else
        var b := j + 3;
        var m := b + WordRun(line, b);
        if m == b || m + 2 > |line| || line[m..m + 2] != "] " then None
        else if line[m + 2..] == [] || !NoLineTerminator(line[m + 2..]) then None
        else Some(Fields(line[..k], line[a..j], line[b..m], line[m + 2..]))
  }

  /** `\S+` from `p` reaches `q` when the characters before `q` are not spaces and the one at `q` is. */
  lemma {:induction false} NonSpaceRunTo(s: string, p: nat, q: nat)
    requires p <= q < |s| && IsSpace(s[q]) && forall i :: p <= i < q ==> !IsSpace(s[i])
    ensures NonSpaceRun(s, p) == q - p
    decreases q - p
  {
    if p < q {
      NonSpaceRunTo(s, p + 1, q);
    }
  }

  /** `\w+` from `p` reaches `q` when the characters before `q` are word characters and the one at `q` is not. */
  lemma {:induction false} WordRunTo(s: string, p: nat, q: nat)
    requires p <= q < |s| && !IsWordChar(s[q]) && forall i :: p <= i < q ==> IsWordChar(s[i])
    ensures WordRun(s, p) == q - p
    decreases q - p
  {
    if p < q {
      WordRunTo(s, p + 1, q);
    }
  }

  lemma {:induction false} NonSpaceRunSpans(s: string, p: nat)
    requires p <= |s|
    ensures forall i :: p <= i < p + NonSpaceRun(s, p) ==> !IsSpace(s[i])
    decreases |s| - p
  {
    if p < |s| && !IsSpace(s[p]) {
      NonSpaceRunSpans(s, p + 1);
    }
  }

  lemma {:induction false} WordRunSpans(s: string, p: nat)
    requires p <= |s|
    ensures forall i :: p <= i < p + WordRun(s, p) ==> IsWordChar(s[i])
    decreases |s| - p
  {
    if p < |s| && IsWordChar(s[p]) {
      WordRunSpans(s, p + 1);
    }
  }

  /** Where the groups and the fixed parts of a line lie, given the ends of the first three groups. */
  predicate LaidOut(line: string, k: nat, j: nat, m: nat) {
    2 <= k + 2 <= j && j + 3 <= m && m + 2 <= |line| &&
    line[k] == ' ' && line[k + 1] == '[' && line[j..j + 3] == "] [" && line[m..m + 2] == "] "
  }

  /** The groups of a laid-out line. */
  function GroupsAt(line: string, k: nat, j: nat, m: nat): Fields
    requires LaidOut(line, k, j, m)
  {
    Fields(line[..k], line[k + 2..j], line[j + 3..m], line[m + 2..])
  }

  /** A laid-out line is made up of its groups. */
  lemma ComposeGroups(line: string, k: nat, j: nat, m: nat)
    requires LaidOut(line, k, j, m)
    ensures Compose(GroupsAt(line, k, j, m)) == line
  {
    assert line[k..k + 2] == " [";
    assert line == line[..k] + line[k..k + 2] + line[k + 2..j] + line[j..j + 3] + line[j + 3..m] + line[m..m + 2] + line[m + 2..];
  }

  /** The line made up of groups is laid out with the groups where they belong. */
  lemma ComposeLaidOut(f: Fields)
    ensures var k, j := |f.timestamp|, |f.timestamp| + 2 + |f.level|;
      var m := j + 3 + |f.agent|;
      LaidOut(Compose(f), k, j, m) && GroupsAt(Compose(f), k, j, m) == f
  {
    var line := Compose(f);
    var k, j := |f.timestamp|, |f.timestamp| + 2 + |f.level|;
    var m := j + 3 + |f.agent|;
    assert line[..k] == f.timestamp;
    assert line[k..k + 2] == " [";
    assert line[k + 2..j] == f.level;
    assert line[j..j + 3] == "] [";
    assert line[j + 3..m] == f.agent;
    assert line[m..m + 2] == "] ";
    assert line[m + 2..] == f.message;
  }

  /** A match gives back groups that can be captured and that make up the line. */
  lemma MatchSound(line: string)
    requires MatchLine(line).Some?
    ensures Capturable(MatchLine(line).value) && Compose(MatchLine(line).value) == line
  {
    var k := NonSpaceRun(line, 0);
    var j := k + 2 + WordRun(line, k + 2);
    var m := j + 3 + WordRun(line, j + 3);
    assert LaidOut(line, k, j, m) && MatchLine(line).value == GroupsAt(line, k, j, m);
    SoundAt(line, k, j, m);
    ComposeGroups(line, k, j, m);
  }

  /** The groups found by the runs are capturable. */
  lemma SoundAt(line: string, k: nat, j: nat, m: nat)
    requires LaidOut(line, k, j, m)
    requires k == NonSpaceRun(line, 0) && j == k + 2 + WordRun(line, k + 2) && m == j + 3 + WordRun(line, j + 3)
    requires k > 0 && j > k + 2 && m > j + 3 && line[m + 2..] != [] && NoLineTerminator(line[m + 2..])
    ensures Capturable(GroupsAt(line, k, j, m))
  {
    NonSpaceRunSpans(line, 0);
    WordRunSpans(line, k + 2);
    WordRunSpans(line, j + 3);
    GroupsCapturable(line, k, j, m);
  }

  /** The groups of a laid-out line are capturable when their characters are. */
  lemma GroupsCapturable(line: string, k: nat, j: nat, m: nat)
    requires LaidOut(line, k, j, m) && k > 0 && j > k + 2 && m > j + 3
    requires forall i :: 0 <= i < k ==> !IsSpace(line[i])
    requires forall i :: k + 2 <= i < j ==> IsWordChar(line[i])
    requires forall i :: j + 3 <= i < m ==> IsWordChar(line[i])
    requires line[m + 2..] != [] && NoLineTerminator(line[m + 2..])
    ensures Capturable(GroupsAt(line, k, j, m))
  {
    var ts, level, agent := line[..k], line[k + 2..j], line[j + 3..m];
    assert forall i :: 0 <= i < |ts| ==> ts[i] == line[i];
    assert forall i :: 0 <= i < |level| ==> level[i] == line[k + 2 + i];
    assert forall i :: 0 <= i < |agent| ==> agent[i] == line[j + 3 + i];
  }

  /** Every capturable set of groups is matched back from the line it makes up. */
  lemma MatchComplete(f: Fields)
    requires Capturable(f)
    ensures MatchLine(Compose(f)) == Some(f)
  {
    var k, j := |f.timestamp|, |f.timestamp| + 2 + |f.level|;
    ComposeLaidOut(f);
    MatchOfGroups(Compose(f), f, k, j, j + 3 + |f.agent|);
  }

  /** A laid-out line whose groups are capturable is matched into them. */
  lemma MatchOfGroups(line: string, f: Fields, k: nat, j: nat, m: nat)
    requires LaidOut(line, k, j, m) && GroupsAt(line, k, j, m) == f && Capturable(f)
    ensures MatchLine(line) == Some(f)
  {
    RunsOfGroups(line, k, j, m);
    MatchLaidOut(line, k, j, m);
  }

  /** A laid-out line whose runs stop at the ends of its groups is matched into those groups. */
  lemma MatchLaidOut(line: string, k: nat, j: nat, m: nat)
    requires LaidOut(line, k, j, m) && Capturable(GroupsAt(line, k, j, m))
    requires NonSpaceRun(line, 0) == k && WordRun(line, k + 2) == j - k - 2 && WordRun(line, j + 3) == m - j - 3
    ensures MatchLine(line) == Some(GroupsAt(line, k, j, m))
  {
  }

  /** On a laid-out line with capturable groups, the runs stop at the ends of the groups. */
  lemma RunsOfGroups(line: string, k: nat, j: nat, m: nat)
    requires LaidOut(line, k, j, m) && Capturable(GroupsAt(line, k, j, m))
    ensures NonSpaceRun(line, 0) == k && WordRun(line, k + 2) == j - k - 2 && WordRun(line, j + 3) == m - j - 3
  {
    var f := GroupsAt(line, k, j, m);
    assert forall i :: 0 <= i < k ==> line[i] == f.timestamp[i];
    NonSpaceRunTo(line, 0, k);
    assert forall i :: k + 2 <= i < j ==> line[i] == f.level[i - k - 2];
    assert line[j] == line[j..j + 3][0];
    WordRunTo(line, k + 2, j);
    assert forall i :: j + 3 <= i < m ==> line[i] == f.agent[i - j - 3];
    assert line[m] == line[m..m + 2][0];
    WordRunTo(line, j + 3, m);
  }

  // ------------------------------------------------------------ reading the file back

  /** What a line reads back as: its groups when it matches, else an `INFO` entry from `SYSTEM` holding the raw line. */
  function ReadLine(line: string, now: string): (e: LogEntry)
    ensures e.stack.None? && !e.fixAvailable && !e.autoFixed
  {
    var m := MatchLine(line);
    if m.Some? then LogEntry(m.value.timestamp, m.value.level, Some(m.value.agent), m.value.message, None, false, false, None)
    else LogEntry(now, "INFO", Some("SYSTEM"), line, None, false, false, None)
  }

  /** A line the pattern does not match is kept whole as the message of an `INFO` entry. */
  lemma ReadUnmatched(line: string, now: string)
    requires MatchLine(line).None?
    ensures ReadLine(line, now) == LogEntry(now, "INFO", Some("SYSTEM"), line, None, false, false, None)
  {
  }

  /** `lines.map(...)` */
  function ReadLines(lines: seq<string>, now: string): (r: seq<LogEntry>)
    decreases |lines|
  {
    if lines == [] then [] else [ReadLine(lines[0], now)] + ReadLines(lines[1..], now)
  }

  /** `filter(l => l.trim())`: the lines that are not blank. */
  function NonBlank(lines: seq<string>): seq<string>
    decreases |lines|
  {
    if lines == [] then []
    else if AllSpace(lines[0]) then NonBlank(lines[1..])
    else [lines[0]] + NonBlank(lines[1..])
  }

  /**
   * `loadRecentLogs(limit)`: nothing when `current.log` is missing or unreadable, else the
   * last `limit` non-blank lines (`slice(-limit)`), each read back. `now` stands for the
   * time stamp given to lines that do not match.
   */
  function LoadRecentLogs(file: Option<string>, limit: int, now: string): (r: seq<LogEntry>)
    ensures limit >= 1 ==> |r| <= limit
  {
    if file.None? then []
    else
      var lines := NonBlank(Lines(file.value));
      ReadLinesLength(lines[SliceStart(|lines|, -limit)..], now);
      ReadLines(lines[SliceStart(|lines|, -limit)..], now)
  }

  lemma {:induction false} ReadLinesLength(lines: seq<string>, now: string)
    ensures |ReadLines(lines, now)| == |lines|
    decreases |lines|
  {
    if lines != [] {
      ReadLinesLength(lines[1..], now);
    }
  }

  /** Reading the last lines is taking the last entries read. */
  lemma {:induction false} ReadLinesSuffix(lines: seq<string>, now: string, k: nat)
    requires k <= |lines|
    ensures |ReadLines(lines, now)| == |lines|
    ensures ReadLines(lines[k..], now) == ReadLines(lines, now)[k..]
    decreases k
  {
    ReadLinesLength(lines, now);
    if k > 0 {
      ReadLinesSuffix(lines[1..], now, k - 1);
      assert lines[1..][k - 1..] == lines[k..];
      assert ReadLines(lines, now)[1..] == ReadLines(lines[1..], now);
    }
  }

  /** An entry whose parts the pattern captures unchanged. */
  predicate Loggable(e: LogEntry) {
    e.timestamp != [] && NoSpace(e.timestamp) && Word(e.level) &&
    (e.agent.None? || e.agent.value == [] || Word(e.agent.value)) &&
    e.message != [] && NoLineTerminator(e.message)
  }

  /** The entry as it reads back: its four parts, `SYSTEM` for a missing agent, and no error fields. */
  function Reread(e: LogEntry): LogEntry {
    LogEntry(e.timestamp, e.level, Some(AgentName(e.agent)), e.message, None, false, false, None)
  }

  lemma SystemWord()
    ensures Word("SYSTEM")
  {
    var w := "SYSTEM";
    assert w[0] == 'S' && w[1] == 'Y' && w[2] == 'S' && w[3] == 'T' && w[4] == 'E' && w[5] == 'M';
  }

  /** A written line reads back as the entry, whatever `now` is. */
  lemma ReadWritten(e: LogEntry, now: string)
    requires Loggable(e)
    ensures ReadLine(LineBody(e), now) == Reread(e)
  {
    SystemWord();
    var f := Fields(e.timestamp, e.level, AgentName(e.agent), e.message);
    assert Capturable(f);
    assert LineBody(e) == Compose(f);
    MatchComplete(f);
  }

  /** The lines written for the entries, without their newlines. */
  function Bodies(es: seq<LogEntry>): seq<string>
    decreases |es|
  {
    if es == [] then [] else [LineBody(es[0])] + Bodies(es[1..])
  }

  /** A written line holds no newline and is not blank. */
  lemma BodyOneLine(e: LogEntry)
    requires Loggable(e)
    ensures '\n' !in LineBody(e) && !AllSpace(LineBody(e))
  {
    SystemWord();
    var b := LineBody(e);
    assert b[0] == e.timestamp[0];
    forall i | 0 <= i < |b|
      ensures b[i] != '\n'
    {
      var t, l, a := |e.timestamp|, |e.level|, |AgentName(e.agent)|;
      if i < t {
        assert b[i] == e.timestamp[i];
      } else if t + 2 <= i < t + 2 + l {
        assert b[i] == e.level[i - t - 2];
      } else if t + 5 + l <= i < t + 5 + l + a {
        assert b[i] == AgentName(e.agent)[i - t - 5 - l];
      } else if t + 7 + l + a <= i {
        assert b[i] == e.message[i - t - 7 - l - a];
      }
    }
  }

  /** The written text splits into the written lines and an empty last piece. */
  lemma {:induction false} LinesOfWritten(es: seq<LogEntry>)
    requires forall i :: 0 <= i < |es| ==> Loggable(es[i])
    ensures Lines(Written(es)) == Bodies(es) + [[]]
    decreases |es|
  {
    if es != [] {
      var rest := Written(es[1..]);
      LinesOfWritten(es[1..]);
      BodyOneLine(es[0]);
      assert Written(es) == LineBody(es[0]) + ['\n'] + rest;
      SplitAfterPrefix(LineBody(es[0]), '\n', rest);
    }
  }

  /** Dropping the blank pieces leaves exactly the written lines. */
  lemma {:induction false} NonBlankBodies(es: seq<LogEntry>)
    requires forall i :: 0 <= i < |es| ==> Loggable(es[i])
    ensures NonBlank(Bodies(es) + [[]]) == Bodies(es)
    decreases |es|
  {
    if es == [] {
      assert Bodies(es) + [[]] == [[]];
    } else {
      var b := Bodies(es);
      NonBlankBodies(es[1..]);
      BodyOneLine(es[0]);
      assert (b + [[]])[0] == LineBody(es[0]);
      assert (b + [[]])[1..] == Bodies(es[1..]) + [[]];
    }
  }

  /** The written lines read back as the entries. */
  lemma {:induction false} ReadBodies(es: seq<LogEntry>, now: string)
    requires forall i :: 0 <= i < |es| ==> Loggable(es[i])
    ensures ReadLines(Bodies(es), now) == Rereads(es)
    decreases |es|
  {
    if es != [] {
      ReadBodies(es[1..], now);
      ReadWritten(es[0], now);
    }
  }

  function Rereads(es: seq<LogEntry>): seq<LogEntry>
    decreases |es|
  {
    if es == [] then [] else [Reread(es[0])] + Rereads(es[1..])
  }

  /**
   * Round trip: a `current.log` written only by `writeLog` with loggable entries reads
   * back, for a limit of at least one, as the last `limit` entries, each with its
   * timestamp, level, agent (`SYSTEM` when missing) and message.
   */
  lemma LoadWritten(es: seq<LogEntry>, limit: int, now: string)
    requires forall i :: 0 <= i < |es| ==> Loggable(es[i])
    requires limit >= 1
    ensures LoadRecentLogs(Some(Written(es)), limit, now) == LastN(Rereads(es), limit)
  {
    LinesOfWritten(es);
    NonBlankBodies(es);
    var lines := Bodies(es);
    ReadBodies(es, now);
    ReadLinesLength(lines, now);
    ReadLinesSuffix(lines, now, SliceStart(|lines|, -limit));
  }
}
