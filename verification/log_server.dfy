/**
 * The in-memory state of `backend/server.js`: the bounded log, error, notification and
 * metric buffers, the alert thresholds and `current.log`, with the operations that change
 * them, and the queries its HTTP endpoints answer. Clocks, random metrics and the health
 * probe's outcome are parameters; the HTTP and SSE plumbing is not part of this model.
 */
module LogServer {
  import opened Strings
  import opened Seqs
  import opened LogLine

  const LogCap := 1000
  const ErrorCap := 500
  const NotificationCap := 100
  const SeriesCap := 300

  /** A notification; `read` is the only field changed after creation. */
  datatype Notification = Notification(id: string, kind: string, message: string, timestamp: string, read: bool)

  /** One point of a metric series. */
  datatype Point = Point(t: int, v: int)

  /** One sample of the metrics. */
  datatype Metric = Metric(timestamp: int, tokenRate: int, requestsPerMinute: int, avgResponseTime: int,
                           memoryPercent: int, cpuPercent: int, diskFreeGB: int)

  datatype Thresholds = Thresholds(tokenWarning: int, tokenCritical: int, memoryWarning: int, cpuWarning: int)

  const DefaultThresholds := Thresholds(10000, 50000, 80, 80)

  /** The numeric fields of a parsed thresholds object; an absent one keeps the current value. */
  datatype ThresholdPatch = ThresholdPatch(tokenWarning: Option<int>, tokenCritical: Option<int>,
                                           memoryWarning: Option<int>, cpuWarning: Option<int>)

  function Pick(o: Option<int>, current: int): int {
    if o.Some? then o.value else current
  }

  /** `{ ...thresholds, ...patch }` */
  function Merge(t: Thresholds, p: ThresholdPatch): (r: Thresholds)
    ensures p.tokenWarning.None? ==> r.tokenWarning == t.tokenWarning
    ensures p.tokenCritical.None? ==> r.tokenCritical == t.tokenCritical
    ensures p.memoryWarning.None? ==> r.memoryWarning == t.memoryWarning
    ensures p.cpuWarning.None? ==> r.cpuWarning == t.cpuWarning
  {
    Thresholds(Pick(p.tokenWarning, t.tokenWarning), Pick(p.tokenCritical, t.tokenCritical),
               Pick(p.memoryWarning, t.memoryWarning), Pick(p.cpuWarning, t.cpuWarning))
  }

  /** The later patch wins field by field. */
  function Then(a: ThresholdPatch, b: ThresholdPatch): ThresholdPatch {
    ThresholdPatch(if b.tokenWarning.Some? then b.tokenWarning else a.tokenWarning,
                   if b.tokenCritical.Some? then b.tokenCritical else a.tokenCritical,
                   if b.memoryWarning.Some? then b.memoryWarning else a.memoryWarning,
                   if b.cpuWarning.Some? then b.cpuWarning else a.cpuWarning)
  }

  /** Merging twice is merging once with the two patches combined, and merging again changes nothing. */
  lemma MergeTwice(t: Thresholds, a: ThresholdPatch, b: ThresholdPatch)
    ensures Merge(Merge(t, a), b) == Merge(t, Then(a, b))
    ensures Merge(Merge(t, a), a) == Merge(t, a)
  {
  }

  /** What `errors` records for an error entry: an empty stack counts as none. */
  function ErrorRecord(e: LogEntry): (r: LogEntry)
    ensures r.level == e.level && r.message == e.message && r.fixAvailable == e.fixAvailable
    ensures r.stack.Some? <==> e.stack.Some? && e.stack.value != []
  {
    e.(stack := if e.stack == Some([]) then None else e.stack)
  }

  /** `collectMetrics`' alert: `error` above the critical rate, else `warning` above the warning rate. */
  function Alert(rate: int, t: Thresholds): (kind: Option<string>)
    ensures kind == Some("error") <==> rate > t.tokenCritical
    ensures kind == Some("warning") <==> rate <= t.tokenCritical && rate > t.tokenWarning
    ensures kind.None? <==> rate <= t.tokenCritical && rate <= t.tokenWarning
  {
    if rate > t.tokenCritical then Some("error")
    else if rate > t.tokenWarning then Some("warning")
    else None
  }

  /** A higher rate never gives a milder alert. */
  lemma AlertMonotone(r1: int, r2: int, t: Thresholds)
    requires r1 <= r2
    ensures Alert(r1, t) == Some("error") ==> Alert(r2, t) == Some("error")
    ensures Alert(r1, t).Some? ==> Alert(r2, t).Some?
  {
  }

  function AlertMessage(kind: string, rate: int): string {
    if kind == "error" then "Critical: Token rate " + IntToString(rate) + "/min exceeds threshold"
    else "Warning: High token usage " + IntToString(rate) + "/min"
  }

  /** Every notification is marked read, nothing else changes. */
  ghost predicate AllMarked(before: seq<Notification>, after: seq<Notification>) {
    |after| == |before| && forall i :: 0 <= i < |before| ==> after[i] == before[i].(read := true)
  }

  /** `GET /api/notifications`: all of them, or the unread ones for `?unread=true`. */
  function Notifications(ns: seq<Notification>, unread: Option<string>): (r: seq<Notification>)
    ensures unread != Some("true") ==> r == ns
    ensures forall n :: n in r <==> n in ns && (unread == Some("true") ==> !n.read)
  {
    if unread == Some("true") then Filter(ns, (n: Notification) => !n.read) else ns
  }

  /** Once everything is marked read, the unread query is empty. */
  lemma MarkedHaveNoUnread(before: seq<Notification>, after: seq<Notification>)
    requires AllMarked(before, after)
    ensures Notifications(after, Some("true")) == []
  {
    FilterNone(after, (n: Notification) => !n.read);
  }

  /** `parseInt(limit) || fallback`: an unparsable or zero limit gives the fallback. */
  function LimitOr(parsed: Option<int>, fallback: int): (n: int)
    ensures parsed.None? || parsed == Some(0) ==> n == fallback
    ensures parsed.Some? && parsed.value != 0 ==> n == parsed.value
  {
    if parsed.None? || parsed.value == 0 then fallback else parsed.value
  }

  /** `s.slice(-limit)` */
  function SliceLast<T>(s: seq<T>, limit: int): (r: seq<T>)
    ensures limit >= 1 ==> r == LastN(s, limit)
  {
    s[SliceStart(|s|, -limit)..]
  }

  /** A query value counts when it is present and not empty. */
  predicate Given(o: Option<string>) {
    o.Some? && o.value != []
  }

  predicate Selected(e: LogEntry, level: Option<string>, agent: Option<string>) {
    (Given(level) ==> e.level == level.value) && (Given(agent) ==> e.agent == agent)
  }

  /** `GET /api/logs`: the last `limit` entries (100 by default), then those of the level and agent asked for. */
  function LogsQuery(logs: seq<LogEntry>, limit: Option<int>, level: Option<string>, agent: Option<string>)
    : (r: seq<LogEntry>)
  {
    var window := SliceLast(logs, LimitOr(limit, 100));
    var byLevel := if Given(level) then Filter(window, (e: LogEntry) => e.level == level.value) else window;
    if Given(agent) then Filter(byLevel, (e: LogEntry) => e.agent == agent) else byLevel
  }

  /**
   * The result holds exactly the entries of the window of the last `limit` that match the
   * level and agent asked for, so for a positive limit it never exceeds the limit.
   */
  lemma LogsQueryMeaning(logs: seq<LogEntry>, limit: Option<int>, level: Option<string>, agent: Option<string>)
    ensures var window := SliceLast(logs, LimitOr(limit, 100));
      var r := LogsQuery(logs, limit, level, agent);
      |r| <= |window| && (forall e :: e in r <==> e in window && Selected(e, level, agent))
    ensures LimitOr(limit, 100) >= 1 ==> |LogsQuery(logs, limit, level, agent)| <= LimitOr(limit, 100)
  {
  }

  /** `GET /api/errors`: the last `limit` errors, 50 by default. */
  function ErrorsQuery(errors: seq<LogEntry>, limit: Option<int>): seq<LogEntry> {
    SliceLast(errors, LimitOr(limit, 50))
  }

  /**
   * Whatever the limit, the errors returned are a suffix of the buffer, the newest last;
   * without a limit they are its last 50, or all of it when shorter.
   */
  lemma ErrorsQueryMeaning(errors: seq<LogEntry>, limit: Option<int>)
    ensures var r := ErrorsQuery(errors, limit);
      r == errors[|errors| - |r|..] &&
      (limit.None? ==> |r| == if |errors| <= 50 then |errors| else 50)
  {
  }

  /** `GET /api/errors/stats`: errors stamped within the last hour, and those fixed automatically. */
  datatype ErrorStats = ErrorStats(current: nat, perHour: nat, autoFixed: nat)

  /** `new Date(e.timestamp).getTime() > now - 3600000`; an unparsable stamp is never recent. */
  predicate Recent(e: LogEntry, timeOf: string -> Option<int>, now: int) {
    timeOf(e.timestamp).Some? && timeOf(e.timestamp).value > now - 3600000
  }

  function Stats(errors: seq<LogEntry>, timeOf: string -> Option<int>, now: int): (s: ErrorStats)
    ensures s.current == s.perHour && s.current <= |errors| && s.autoFixed <= |errors|
  {
    var recent := Count(errors, (e: LogEntry) => Recent(e, timeOf, now));
    ErrorStats(recent, recent, Count(errors, (e: LogEntry) => e.fixAvailable && e.autoFixed))
  }

  /** A later clock never counts more recent errors. */
  lemma {:induction false} RecentShrinks(errors: seq<LogEntry>, timeOf: string -> Option<int>, now: int, later: int)
    requires now <= later
    ensures Stats(errors, timeOf, later).current <= Stats(errors, timeOf, now).current
    decreases |errors|
  {
    if errors != [] {
      RecentShrinks(errors[1..], timeOf, now, later);
    }
  }

  // ------------------------------------------------------------ health

  datatype ComponentStatus = Online | Degraded | Offline
  datatype Overall = Healthy | Critical | DegradedOverall

  /** `allOnline ? 'healthy' : (anyOffline ? 'critical' : 'degraded')` */
  function OverallOf(components: seq<ComponentStatus>): (o: Overall)
    ensures o == Healthy <==> forall i :: 0 <= i < |components| ==> components[i] == Online
    ensures o == Critical <==> exists i :: 0 <= i < |components| && components[i] == Offline
  {
    if forall i :: 0 <= i < |components| ==> components[i] == Online then Healthy
    else if exists i :: 0 <= i < |components| && components[i] == Offline then Critical
    else DegradedOverall
  }

  /** Degraded means some component is not online and none is offline. */
  lemma DegradedMeaning(components: seq<ComponentStatus>)
    ensures OverallOf(components) == DegradedOverall <==>
      (exists i :: 0 <= i < |components| && components[i] == Degraded) &&
      (forall i :: 0 <= i < |components| ==> components[i] != Offline)
  {
  }

  /** The four components the server watches, in order: gateway, ollama, workspace, browser. */
  datatype Components = Components(gateway: ComponentStatus, ollama: ComponentStatus,
                                   workspace: ComponentStatus, browser: ComponentStatus)

  function StatusList(c: Components): seq<ComponentStatus> {
    [c.gateway, c.ollama, c.workspace, c.browser]
  }

  /** One diagnostic check: its name and whether it passed. */
  datatype Check = Check(name: string, passed: bool)

  /** `/api/health/diagnostics`: a check per component, online or not, and two that always pass. */
  function Diagnostics(c: Components): (r: seq<Check>)
    ensures |r| == 6
  {
    [Check("Gateway Health", c.gateway == Online), Check("Ollama Connection", c.ollama == Online),
     Check("Workspace Access", c.workspace == Online), Check("Browser Availability", c.browser == Online),
     Check("Disk Space", true), Check("Memory Usage", true)]
  }

  /** Every diagnostic passes exactly when the health roll-up is healthy. */
  lemma DiagnosticsAgree(c: Components)
    ensures (forall i :: 0 <= i < 6 ==> Diagnostics(c)[i].passed) <==> OverallOf(StatusList(c)) == Healthy
  {
    var r := Diagnostics(c);
    var s := StatusList(c);
    assert r[0].passed == (s[0] == Online) && r[1].passed == (s[1] == Online);
    assert r[2].passed == (s[2] == Online) && r[3].passed == (s[3] == Online);
  }

  // ------------------------------------------------------------ the server state

  /** The five metric series, oldest point first. */
  datatype Series = Series(tokenUsage: seq<Point>, requestsPerMinute: seq<Point>, responseTimes: seq<Point>,
                           memoryUsage: seq<Point>, cpuUsage: seq<Point>)

  const NoSeries := Series([], [], [], [], [])

  predicate SeriesCapped(s: Series) {
    |s.tokenUsage| <= SeriesCap && |s.requestsPerMinute| <= SeriesCap && |s.responseTimes| <= SeriesCap &&
    |s.memoryUsage| <= SeriesCap && |s.cpuUsage| <= SeriesCap
  }

  /** Each series gains the sample's point, stamped with its time, and keeps at most 300. */
  function Recorded(s: Series, m: Metric): (r: Series)
    requires SeriesCapped(s)
    ensures SeriesCapped(r)
    ensures r.tokenUsage == LastN(s.tokenUsage + [Point(m.timestamp, m.tokenRate)], SeriesCap)
    ensures r.requestsPerMinute == LastN(s.requestsPerMinute + [Point(m.timestamp, m.requestsPerMinute)], SeriesCap)
    ensures r.responseTimes == LastN(s.responseTimes + [Point(m.timestamp, m.avgResponseTime)], SeriesCap)
    ensures r.memoryUsage == LastN(s.memoryUsage + [Point(m.timestamp, m.memoryPercent)], SeriesCap)
    ensures r.cpuUsage == LastN(s.cpuUsage + [Point(m.timestamp, m.cpuPercent)], SeriesCap)
  {
    Series(PushCapped(s.tokenUsage, Point(m.timestamp, m.tokenRate), SeriesCap),
           PushCapped(s.requestsPerMinute, Point(m.timestamp, m.requestsPerMinute), SeriesCap),
           PushCapped(s.responseTimes, Point(m.timestamp, m.avgResponseTime), SeriesCap),
           PushCapped(s.memoryUsage, Point(m.timestamp, m.memoryPercent), SeriesCap),
           PushCapped(s.cpuUsage, Point(m.timestamp, m.cpuPercent), SeriesCap))
  }

  /** Only error entries, within the cap. */
  predicate ErrorsOnly(errors: seq<LogEntry>) {
    |errors| <= ErrorCap && forall i :: 0 <= i < |errors| ==> errors[i].level == "ERROR"
  }

  /** The errors after an entry is written: an `ERROR`'s record is pushed, the oldest dropped past 500. */
  function ErrorsAfter(errors: seq<LogEntry>, entry: LogEntry): (r: seq<LogEntry>)
    requires ErrorsOnly(errors)
    ensures ErrorsOnly(r)
    ensures entry.level != "ERROR" ==> r == errors
    ensures entry.level == "ERROR" ==> r == LastN(errors + [ErrorRecord(entry)], ErrorCap) && r[|r| - 1] == ErrorRecord(entry)
  {
    if entry.level == "ERROR" then
      var r := PushCapped(errors, ErrorRecord(entry), ErrorCap);
      assert forall i :: 0 <= i < |r| ==> r[i] in errors + [ErrorRecord(entry)];
      r
    else errors
  }

  /** Everything the server keeps, as one value. */
  datatype ServerState = ServerState(logs: seq<LogEntry>, errors: seq<LogEntry>, notifications: seq<Notification>,
                                     metrics: Series, thresholds: Thresholds, currentLog: string)

  /**
   * The state after `writeLog` of an entry: its line appended to `current.log`, the entry
   * last in the log, and the errors as `ErrorsAfter` says; the rest as it was.
   */
  function Logged(st: ServerState, entry: LogEntry): (r: ServerState)
    requires ErrorsOnly(st.errors)
    ensures r.logs != [] && r.logs[|r.logs| - 1] == entry && |r.logs| <= LogCap
    ensures ErrorsOnly(r.errors)
    ensures r.notifications == st.notifications && r.metrics == st.metrics && r.thresholds == st.thresholds
  {
    st.(currentLog := st.currentLog + LogLineOf(entry), logs := LastN(st.logs + [entry], LogCap),
        errors := ErrorsAfter(st.errors, entry))
  }

  /** The state after `createNotification`: the notification last among at most 100; the rest as it was. */
  function Notified(st: ServerState, n: Notification): (r: ServerState)
    ensures r.notifications != [] && r.notifications[|r.notifications| - 1] == n
    ensures |r.notifications| <= NotificationCap
    ensures r.logs == st.logs && r.errors == st.errors && r.currentLog == st.currentLog
    ensures r.metrics == st.metrics && r.thresholds == st.thresholds
  {
    st.(notifications := LastN(st.notifications + [n], NotificationCap))
  }

  class Server {
    var logs: seq<LogEntry>
    var errors: seq<LogEntry>
    var notifications: seq<Notification>
    var metrics: Series
    var thresholds: Thresholds
    /** The text of `current.log`. */
    var currentLog: string

    /** Every buffer within its cap, and only error entries among the errors. */
    ghost predicate Valid()
      reads this
    {
      |logs| <= LogCap && ErrorsOnly(errors) && |notifications| <= NotificationCap && SeriesCapped(metrics)
    }

    /** The fields as one value. */
    function State(): ServerState
      reads this
    {
      ServerState(logs, errors, notifications, metrics, thresholds, currentLog)
    }

    /** Start-up: the last hundred lines of `current.log` become the log, the thresholds are the defaults. */
    constructor (file: Option<string>, now: string)
      ensures Valid()
      ensures logs == LoadRecentLogs(file, 100, now) && errors == [] && notifications == [] && metrics == NoSeries
      ensures thresholds == DefaultThresholds && currentLog == (if file.Some? then file.value else [])
    {
      logs := LoadRecentLogs(file, 100, now);
      errors := [];
      notifications := [];
      metrics := NoSeries;
      thresholds := DefaultThresholds;
      currentLog := if file.Some? then file.value else [];
    }

    /** `loadThresholds` and `POST /api/config/thresholds`: a parsed object is merged in; a missing or bad one changes nothing. */
    method MergeThresholds(patch: Option<ThresholdPatch>)
      modifies this
      ensures thresholds == (if patch.Some? then Merge(old(thresholds), patch.value) else old(thresholds))
      ensures logs == old(logs) && errors == old(errors) && notifications == old(notifications)
      ensures metrics == old(metrics) && currentLog == old(currentLog)
    {
      if patch.Some? {
        thresholds := Merge(thresholds, patch.value);
      }
    }

    /**
     * `writeLog`: the line is appended to `current.log`, the entry to the log (dropping the
     * oldest past 1000) and, for an `ERROR`, its record to the errors (dropping the oldest
     * past 500).
     */
    method WriteLog(entry: LogEntry)
      requires Valid()
      modifies this
      ensures Valid()
      ensures currentLog == old(currentLog) + LogLineOf(entry)
      ensures logs == LastN(old(logs) + [entry], LogCap) && logs[|logs| - 1] == entry
      ensures errors == ErrorsAfter(old(errors), entry)
      ensures notifications == old(notifications) && thresholds == old(thresholds) && metrics == old(metrics)
      ensures State() == Logged(old(State()), entry)
    {
      var line := LogLineOf(entry);
      var kept := PushCapped(logs, entry, LogCap);
      var errs := ErrorsAfter(errors, entry);
      currentLog, logs, errors := currentLog + line, kept, errs;
    }

    /** `createNotification`: a new unread notification, the oldest dropped past 100. */
    method CreateNotification(kind: string, message: string, id: string, timestamp: string) returns (n: Notification)
      requires Valid()
      modifies this
      ensures Valid()
      ensures n == Notification(id, kind, message, timestamp, false)
      ensures notifications == LastN(old(notifications) + [n], NotificationCap)
      ensures logs == old(logs) && errors == old(errors) && thresholds == old(thresholds)
      ensures metrics == old(metrics) && currentLog == old(currentLog)
      ensures State() == Notified(old(State()), n)
    {
      n := Notification(id, kind, message, timestamp, false);
      notifications := PushCapped(notifications, n, NotificationCap);
    }

    /** `POST /api/notifications/mark-read`: every notification is marked read, in place. */
    method MarkRead()
      requires Valid()
      modifies this
      ensures Valid()
      ensures AllMarked(old(notifications), notifications)
      ensures logs == old(logs) && errors == old(errors) && thresholds == old(thresholds)
      ensures metrics == old(metrics) && currentLog == old(currentLog)
    {
      var i := 0;
      while i < |notifications|
        invariant 0 <= i <= |notifications| == |old(notifications)|
        invariant forall k :: 0 <= k < i ==> notifications[k] == old(notifications)[k].(read := true)
        invariant forall k :: i <= k < |notifications| ==> notifications[k] == old(notifications)[k]
        invariant logs == old(logs) && errors == old(errors) && thresholds == old(thresholds)
        invariant metrics == old(metrics) && currentLog == old(currentLog)
      {
        notifications := notifications[i := notifications[i].(read := true)];
        i := i + 1;
      }
    }

    /**
     * `collectMetrics` for a sample: a point is added to each series (dropping the oldest
     * past 300) and at most one token-rate notification is raised, as `Alert` says.
     */
    method CollectMetrics(m: Metric, id: string, stamp: string) returns (raised: Option<Notification>)
      requires Valid()
      modifies this
      ensures Valid()
      ensures metrics == Recorded(old(metrics), m)
      ensures raised.Some? <==> Alert(m.tokenRate, thresholds).Some?
      ensures raised.Some? ==>
        var kind := Alert(m.tokenRate, thresholds).value;
        raised.value == Notification(id, kind, AlertMessage(kind, m.tokenRate), stamp, false) &&
        notifications == LastN(old(notifications) + [raised.value], NotificationCap)
      ensures raised.None? ==> notifications == old(notifications)
      ensures logs == old(logs) && errors == old(errors) && thresholds == old(thresholds) && currentLog == old(currentLog)
    {
      metrics := Recorded(metrics, m);
      var kind := Alert(m.tokenRate, thresholds);
      if kind.Some? {
        var n := CreateNotification(kind.value, AlertMessage(kind.value, m.tokenRate), id, stamp);
        raised := Some(n);
      } else {
        raised := None;
      }
    }
  }
}
