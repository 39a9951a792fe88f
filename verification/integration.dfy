/**
 * The OpenClaw integration layer of `backend/integration.js`: the map of live agent
 * sessions that spawn and death events keep, and the handling of tailed gateway lines.
 * The clock is a parameter; the `tail` process, the simulation and the system metrics are
 * not part of this model.
 */
module Integration {
  import opened Strings
  import opened Seqs
  import opened LogLine
  import opened GatewayLine
  import LogServer

  // ------------------------------------------------------------ agent sessions

  /** A live agent session. */
  datatype Session = Session(sessionId: string, started: int, tasks: nat)

  /** What a tailed line that was parsed stands for. */
  datatype Event = Spawned | Died | Other

  /** Lines naming `spawned` or `subagent` are spawns; failing that, `terminated` or `completed` are deaths. */
  function Classify(line: string): (e: Event)
    ensures e == Spawned <==> Contains(line, "spawned") || Contains(line, "subagent")
    ensures e == Died <==> !Contains(line, "spawned") && !Contains(line, "subagent") &&
                           (Contains(line, "terminated") || Contains(line, "completed"))
  {
    if Contains(line, "spawned") || Contains(line, "subagent") then Spawned
    else if Contains(line, "terminated") || Contains(line, "completed") then Died
    else Other
  }

  /** The entry `writeLog` is given for a parsed line: it has no stack and no fix. */
  function EntryOf(p: Parsed): LogEntry {
    LogEntry(p.timestamp, p.level, Some(p.agent), p.message, None, false, false, None)
  }

  /** The entry of a spawn, with `meta` `{ event: 'spawn', sessionId }`. */
  function SpawnEntry(agent: string, sessionId: string, stamp: string): LogEntry {
    LogEntry(stamp, "INFO", Some(Lower(agent)), "Agent spawned (session: " + sessionId + ")", None, false, false,
             Some(Meta("spawn", sessionId, None)))
  }

  /** The entry of a death, with `meta` `{ event: 'death', sessionId, duration }`. */
  function DeathEntry(agent: string, sessionId: string, duration: int, reason: string, stamp: string): LogEntry {
    LogEntry(stamp, "INFO", Some(Lower(agent)), "Agent terminated after " + IntToString(duration) + "ms (" + reason + ")",
             None, false, false, Some(Meta("death", sessionId, Some(duration))))
  }

  /** `session-${Date.now()}` */
  function SessionId(now: int): string {
    "session-" + IntToString(now)
  }

  /** The sessions after one tailed line: a spawn sets the agent's session afresh, a death of a known agent ends it. */
  function SessionsAfter(s: map<string, Session>, line: string, isoDate: string -> Option<string>, now: int)
    : map<string, Session>
  {
    var r := Parse(line, isoDate);
    if !r.Entry? then s
    else
      var agent := r.entry.agent;
      match Classify(line)
      case Spawned => s[agent := Session(SessionId(now), now, 0)]
      case Died => if agent in s then s - {agent} else s
      case Other => s
  }

  /**
   * One line changes at most the session of the agent it names, and the number of
   * sessions by at most one; a spawned session starts with no tasks.
   */
  lemma SessionsAfterChanges(s: map<string, Session>, line: string, isoDate: string -> Option<string>, now: int)
    ensures var t := SessionsAfter(s, line, isoDate, now);
      |s| - 1 <= |t| <= |s| + 1 &&
      (t != s ==> Parse(line, isoDate).Entry?) &&
      (Parse(line, isoDate).Entry? ==>
         var agent := Parse(line, isoDate).entry.agent;
         t.Keys - {agent} == s.Keys - {agent} && (forall a :: a in t && a != agent ==> t[a] == s[a]) &&
         (agent in t && t != s ==> t[agent].tasks == 0))
  {
    var t := SessionsAfter(s, line, isoDate, now);
    var r := Parse(line, isoDate);
    if r.Entry? {
      var agent := r.entry.agent;
      if Classify(line) == Spawned {
        UpdateSize(s, agent, Session(SessionId(now), now, 0));
      } else if Classify(line) == Died && agent in s {
        RemoveSize(s, agent);
      }
    }
  }

  lemma UpdateSize<K, V>(m: map<K, V>, k: K, v: V)
    ensures |m[k := v]| == if k in m then |m| else |m| + 1
  {
    if k in m {
      assert m[k := v].Keys == m.Keys;
    } else {
      assert m[k := v].Keys == m.Keys + {k};
    }
  }

  lemma RemoveSize<K, V>(m: map<K, V>, k: K)
    requires k in m
    ensures |m - {k}| == |m| - 1
  {
    assert (m - {k}).Keys == m.Keys - {k};
  }

  /** The sessions after a run of lines, each as `SessionsAfter` says. */
  function Replay(s: map<string, Session>, lines: seq<string>, isoDate: string -> Option<string>, now: int)
    : map<string, Session>
    decreases |lines|
  {
    if lines == [] then s
    else SessionsAfter(Replay(s, lines[..|lines| - 1], isoDate, now), lines[|lines| - 1], isoDate, now)
  }

  /** Taking one more line of a run is one more `SessionsAfter`. */
  lemma ReplayStep(s: map<string, Session>, lines: seq<string>, n: nat, isoDate: string -> Option<string>, now: int)
    requires n < |lines|
    ensures Replay(s, lines[..n + 1], isoDate, now) == SessionsAfter(Replay(s, lines[..n], isoDate, now), lines[n], isoDate, now)
  {
    assert lines[..n + 1][..n] == lines[..n];
  }

  /** A run of lines grows the sessions by at most one per line. */
  lemma {:induction false} ReplayGrowth(s: map<string, Session>, lines: seq<string>, isoDate: string -> Option<string>, now: int)
    ensures |Replay(s, lines, isoDate, now)| <= |s| + |lines|
    decreases |lines|
  {
    if lines != [] {
      ReplayGrowth(s, lines[..|lines| - 1], isoDate, now);
      SessionsAfterChanges(Replay(s, lines[..|lines| - 1], isoDate, now), lines[|lines| - 1], isoDate, now);
    }
  }

  // ------------------------------------------------------------ the server's state

  /** The server after a spawn is handled: the spawn logged, then an `info` notification raised. */
  function SpawnState(st: LogServer.ServerState, agent: string, sessionId: string, stamp: string, id: string)
    : (r: LogServer.ServerState)
    requires LogServer.ErrorsOnly(st.errors)
    ensures LogServer.ErrorsOnly(r.errors)
    ensures r.logs != [] && r.logs[|r.logs| - 1] == SpawnEntry(agent, sessionId, stamp)
    ensures r.notifications != [] && r.notifications[|r.notifications| - 1] == LogServer.Notification(id, "info", agent + " agent spawned", stamp, false)
    ensures r.metrics == st.metrics && r.thresholds == st.thresholds
  {
    LogServer.Notified(LogServer.Logged(st, SpawnEntry(agent, sessionId, stamp)),
                       LogServer.Notification(id, "info", agent + " agent spawned", stamp, false))
  }

  /** The server after a death is handled: a known agent's duration is logged, an unknown one changes nothing. */
  function DeathState(st: LogServer.ServerState, sessions: map<string, Session>, agent: string, reason: string,
                      now: int, stamp: string): (r: LogServer.ServerState)
    requires LogServer.ErrorsOnly(st.errors)
    ensures LogServer.ErrorsOnly(r.errors)
    ensures agent !in sessions ==> r == st
    ensures agent in sessions ==>
      r.logs != [] &&
      r.logs[|r.logs| - 1] == DeathEntry(agent, sessions[agent].sessionId, now - sessions[agent].started, reason, stamp)
    ensures r.notifications == st.notifications && r.metrics == st.metrics && r.thresholds == st.thresholds
  {
    if agent in sessions then
      LogServer.Logged(st, DeathEntry(agent, sessions[agent].sessionId, now - sessions[agent].started, reason, stamp))
    else st
  }

  /** The server after the event of a parsed line is acted on; a death found in a tailed line is `completed`. */
  function AnnouncedState(st: LogServer.ServerState, sessions: map<string, Session>, event: Event, agent: string,
                          now: int, stamp: string, id: string): (r: LogServer.ServerState)
    requires LogServer.ErrorsOnly(st.errors)
    ensures LogServer.ErrorsOnly(r.errors)
    ensures event == Other ==> r == st
    ensures r.metrics == st.metrics && r.thresholds == st.thresholds
    ensures r.notifications != st.notifications ==> event == Spawned
  {
    match event
    case Spawned => SpawnState(st, agent, SessionId(now), stamp, id)
    case Died => DeathState(st, sessions, agent, "completed", now, stamp)
    case Other => st
  }

  /**
   * The server after one tailed line: a parsed line is acted on and then logged itself; a
   * line that does not parse, or whose date is invalid, leaves it as it was.
   */
  function LineState(st: LogServer.ServerState, sessions: map<string, Session>, line: string,
                     isoDate: string -> Option<string>, now: int, stamp: string, id: string): (r: LogServer.ServerState)
    requires LogServer.ErrorsOnly(st.errors)
    ensures LogServer.ErrorsOnly(r.errors)
    ensures !Parse(line, isoDate).Entry? ==> r == st
    ensures Parse(line, isoDate).Entry? ==>
      r.logs != [] && r.logs[|r.logs| - 1] == EntryOf(Parse(line, isoDate).entry)
    ensures r.metrics == st.metrics && r.thresholds == st.thresholds
    ensures r.notifications != st.notifications ==> Parse(line, isoDate).Entry? && Classify(line) == Spawned
  {
    var p := Parse(line, isoDate);
    if !p.Entry? then st
    else LogServer.Logged(AnnouncedState(st, sessions, Classify(line), p.entry.agent, now, stamp, id), EntryOf(p.entry))
  }

  /** Whether a line is a spawn the server acts on. */
  predicate SpawnLine(line: string, isoDate: string -> Option<string>) {
    Parse(line, isoDate).Entry? && Classify(line) == Spawned
  }

  /**
   * The server after a run of lines, each as `LineState` says, with the sessions as the
   * lines before it left them. The metrics and thresholds never change, and the
   * notifications change only when some line is a spawn.
   */
  function ServerAfter(st: LogServer.ServerState, s: map<string, Session>, lines: seq<string>,
                       isoDate: string -> Option<string>, now: int, stamp: string, id: string): (r: LogServer.ServerState)
    requires LogServer.ErrorsOnly(st.errors)
    ensures LogServer.ErrorsOnly(r.errors)
    ensures r.metrics == st.metrics && r.thresholds == st.thresholds
    ensures (forall k :: 0 <= k < |lines| ==> !SpawnLine(lines[k], isoDate)) ==> r.notifications == st.notifications
    decreases |lines|
  {
    if lines == [] then st
    else
      var n := |lines| - 1;
      var before := ServerAfter(st, s, lines[..n], isoDate, now, stamp, id);
      assert forall k :: 0 <= k < n ==> lines[..n][k] == lines[k];
      LineState(before, Replay(s, lines[..n], isoDate, now), lines[n], isoDate, now, stamp, id)
  }

  /** Taking one more line of a run is one more `LineState`. */
  lemma ServerAfterStep(st: LogServer.ServerState, s: map<string, Session>, lines: seq<string>, n: nat,
                        isoDate: string -> Option<string>, now: int, stamp: string, id: string)
    requires LogServer.ErrorsOnly(st.errors) && n < |lines|
    ensures ServerAfter(st, s, lines[..n + 1], isoDate, now, stamp, id) ==
      LineState(ServerAfter(st, s, lines[..n], isoDate, now, stamp, id), Replay(s, lines[..n], isoDate, now),
                lines[n], isoDate, now, stamp, id)
  {
    assert lines[..n + 1][..n] == lines[..n];
  }

  /** The map of live sessions, `agentSessions`. */
  class Sessions {
    var sessions: map<string, Session>

    constructor ()
      ensures sessions == map[]
    {
      sessions := map[];
    }

    /** `handleAgentSpawn`: the agent's session is set afresh, a spawn is logged and an `info` notification raised. */
    method Spawn(server: LogServer.Server, agent: string, sessionId: string, now: int, stamp: string, id: string)
      requires server.Valid()
      modifies this, server
      ensures server.Valid()
      ensures sessions == old(sessions)[agent := Session(sessionId, now, 0)]
      ensures server.currentLog == old(server.currentLog) + LogLineOf(SpawnEntry(agent, sessionId, stamp))
      ensures server.logs == LastN(old(server.logs) + [SpawnEntry(agent, sessionId, stamp)], LogServer.LogCap)
      ensures server.notifications ==
        LastN(old(server.notifications) + [LogServer.Notification(id, "info", agent + " agent spawned", stamp, false)],
              LogServer.NotificationCap)
      ensures server.errors == old(server.errors) && server.metrics == old(server.metrics)
      ensures server.thresholds == old(server.thresholds)
      ensures server.State() == SpawnState(old(server.State()), agent, sessionId, stamp, id)
    {
      sessions := sessions[agent := Session(sessionId, now, 0)];
      server.WriteLog(SpawnEntry(agent, sessionId, stamp));
      var _ := server.CreateNotification("info", agent + " agent spawned", id, stamp);
    }

    /**
     * `handleAgentDeath`: a known agent's session ends and its duration is logged; an
     * unknown agent changes nothing.
     */
    method Death(server: LogServer.Server, agent: string, reason: string, now: int, stamp: string)
      returns (duration: Option<int>)
      requires server.Valid()
      modifies this, server
      ensures server.Valid()
      ensures duration.Some? <==> agent in old(sessions)
      ensures agent !in old(sessions) ==>
        sessions == old(sessions) && server.logs == old(server.logs) && server.currentLog == old(server.currentLog)
      ensures agent in old(sessions) ==>
        duration.value == now - old(sessions)[agent].started && sessions == old(sessions) - {agent} &&
        var e := DeathEntry(agent, old(sessions)[agent].sessionId, duration.value, reason, stamp);
        server.currentLog == old(server.currentLog) + LogLineOf(e) &&
        server.logs == LastN(old(server.logs) + [e], LogServer.LogCap)
      ensures server.errors == old(server.errors) && server.metrics == old(server.metrics)
      ensures server.notifications == old(server.notifications) && server.thresholds == old(server.thresholds)
      ensures server.State() == DeathState(old(server.State()), old(sessions), agent, reason, now, stamp)
    {
      if agent in sessions {
        var d := now - sessions[agent].started;
        server.WriteLog(DeathEntry(agent, sessions[agent].sessionId, d, reason, stamp));
        sessions := sessions - {agent};
        duration := Some(d);
      } else {
        duration := None;
      }
    }

    /** The event a parsed line stands for, acted on for its agent. */
    method Announce(server: LogServer.Server, event: Event, agent: string, now: int, stamp: string, id: string)
      requires server.Valid()
      modifies this, server
      ensures server.Valid()
      ensures sessions == match event
        case Spawned => old(sessions)[agent := Session(SessionId(now), now, 0)]
        case Died => if agent in old(sessions) then old(sessions) - {agent} else old(sessions)
        case Other => old(sessions)
      ensures event == Other ==> server.logs == old(server.logs) && server.currentLog == old(server.currentLog)
      ensures server.State() == AnnouncedState(old(server.State()), old(sessions), event, agent, now, stamp, id)
    {
      if event == Spawned {
        Spawn(server, agent, SessionId(now), now, stamp, id);
      } else if event == Died {
        var _ := Death(server, agent, "completed", now, stamp);
      }
    }

    /**
     * One tailed line: a parsed line first acts as a spawn or a death, then is logged
     * itself; a line of neither form changes nothing, and an invalid date throws before
     * anything changes.
     */
    method HandleLine(server: LogServer.Server, line: string, isoDate: string -> Option<string>, now: int,
                      stamp: string, id: string) returns (r: ParseResult)
      requires server.Valid()
      modifies this, server
      ensures server.Valid()
      ensures r == Parse(line, isoDate)
      ensures sessions == SessionsAfter(old(sessions), line, isoDate, now)
      ensures r.Entry? ==> server.logs != [] && server.logs[|server.logs| - 1] == EntryOf(r.entry)
      ensures !r.Entry? ==> server.logs == old(server.logs) && server.currentLog == old(server.currentLog)
      ensures server.State() == LineState(old(server.State()), old(sessions), line, isoDate, now, stamp, id)
    {
      r := Parse(line, isoDate);
      if r.Entry? {
        Announce(server, Classify(line), r.entry.agent, now, stamp, id);
        server.WriteLog(EntryOf(r.entry));
      }
    }

    /**
     * The lines of a chunk in order, until one throws. `handled` counts the lines taken,
     * the throwing one included.
     */
    method HandleLines(server: LogServer.Server, lines: seq<string>, isoDate: string -> Option<string>, now: int,
                       stamp: string, id: string) returns (handled: nat)
      requires server.Valid()
      modifies this, server
      ensures server.Valid()
      ensures handled <= |lines|
      ensures sessions == Replay(old(sessions), lines[..handled], isoDate, now)
      ensures forall k :: 0 <= k < handled - 1 ==> Parse(lines[k], isoDate) != InvalidDate
      ensures handled < |lines| ==> handled > 0 && Parse(lines[handled - 1], isoDate) == InvalidDate
      ensures server.State() == ServerAfter(old(server.State()), old(sessions), lines[..handled], isoDate, now, stamp, id)
    {
      ghost var s0, st0 := sessions, server.State();
      handled := 0;
      while handled < |lines|
        invariant handled <= |lines|
        invariant server.Valid()
        invariant sessions == Replay(s0, lines[..handled], isoDate, now)
        invariant server.State() == ServerAfter(st0, s0, lines[..handled], isoDate, now, stamp, id)
        invariant forall k :: 0 <= k < handled ==> Parse(lines[k], isoDate) != InvalidDate
      {
        var r := HandleNext(server, lines, handled, s0, st0, isoDate, now, stamp, id);
        handled := handled + 1;
        if r == InvalidDate {
          return;
        }
      }
    }

    /** The line after the first `n` of a run: one more step of `Replay` and of `ServerAfter`. */
    method HandleNext(server: LogServer.Server, lines: seq<string>, n: nat, ghost s0: map<string, Session>,
                      ghost st0: LogServer.ServerState, isoDate: string -> Option<string>, now: int,
                      stamp: string, id: string) returns (r: ParseResult)
      requires n < |lines| && server.Valid() && LogServer.ErrorsOnly(st0.errors)
      requires sessions == Replay(s0, lines[..n], isoDate, now)
      requires server.State() == ServerAfter(st0, s0, lines[..n], isoDate, now, stamp, id)
      requires forall k :: 0 <= k < n ==> Parse(lines[k], isoDate) != InvalidDate
      modifies this, server
      ensures server.Valid()
      ensures r == Parse(lines[n], isoDate)
      ensures r != InvalidDate ==> forall k :: 0 <= k < n + 1 ==> Parse(lines[k], isoDate) != InvalidDate
      ensures sessions == Replay(s0, lines[..n + 1], isoDate, now)
      ensures server.State() == ServerAfter(st0, s0, lines[..n + 1], isoDate, now, stamp, id)
    {
      r := HandleLine(server, lines[n], isoDate, now, stamp, id);
      ReplayStep(s0, lines, n, isoDate, now);
      ServerAfterStep(st0, s0, lines, n, isoDate, now, stamp, id);
    }

    /** A chunk of `tail` output: its non-blank lines, split at newlines. */
    method HandleChunk(server: LogServer.Server, data: string, isoDate: string -> Option<string>, now: int,
                       stamp: string, id: string) returns (handled: nat)
      requires server.Valid()
      modifies this, server
      ensures server.Valid()
      ensures var lines := NonBlank(Split(data, '\n'));
        handled <= |lines| && sessions == Replay(old(sessions), lines[..handled], isoDate, now) &&
        server.State() == ServerAfter(old(server.State()), old(sessions), lines[..handled], isoDate, now, stamp, id)
      ensures var lines := NonBlank(Split(data, '\n'));
        (forall k :: 0 <= k < handled - 1 ==> Parse(lines[k], isoDate) != InvalidDate) &&
        (handled < |lines| ==> handled > 0 && Parse(lines[handled - 1], isoDate) == InvalidDate)
    {
      handled := HandleLines(server, NonBlank(Split(data, '\n')), isoDate, now, stamp, id);
    }
  }
}
