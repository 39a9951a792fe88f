/**
 * The browser side of the logs and monitoring page, `logs/dashboard.js`: the log viewer
 * (newest first, at most 1000 entries, filtered by agent, level and a case-insensitive
 * search), the error list and its counters, the threshold alerts, the notification
 * history kept in local storage, the toasts, the health roll-up and the diagnostics
 * output. The DOM inputs, the clock, the random simulated metrics and local storage are
 * fields or parameters; timers are modelled by the order in which they fire.
 */
module LogsDashboard {
  import opened Strings
  import opened Seqs
  import LogServer

  /** `CONFIG.maxLogs` */
  const MaxLogs := 1000
  /** The notification history keeps at most this many. */
  const MaxNotifications := 50
  /** An error is recent for an hour, in milliseconds. */
  const HourMs := 3600000

  /** The `type` of a toast or a notification. */
  datatype Kind = Info | Success | Warning | Error

  /** A log entry; `agent` may be missing, as it is for system lines. */
  datatype DashLog = DashLog(timestamp: string, level: string, agent: Option<string>, message: string)

  /** An error record; `autoFixed` is the one field changed after it is added. */
  datatype DashError = DashError(message: string, timestamp: string, stack: Option<string>,
                                 fixAvailable: bool, autoFixed: bool)

  datatype Note = Note(kind: Kind, message: string, timestamp: string)

  datatype Toast = Toast(message: string, kind: Kind)

  /** The three filter inputs above the log viewer; `""` means no filter. */
  datatype Filters = Filters(agent: string, level: string, search: string)

  /** The four threshold inputs, as the text they hold. */
  datatype ThresholdInputs = ThresholdInputs(tokenWarning: string, tokenCritical: string,
                                             memoryWarning: string, cpuWarning: string)

  /** The sample `checkThresholds` compares. */
  datatype Sample = Sample(tokenRate: int, memory: int, cpu: int)

  /** The check boxes of the settings panel; `notify` holds the event types whose box exists and is checked. */
  datatype Settings = Settings(toastEnabled: bool, soundEnabled: bool, notify: set<string>)

  // ------------------------------------------------------------ the log viewer

  /** The filter callback of `renderLogs`. */
  predicate Shown(log: DashLog, f: Filters) {
    (f.agent == [] || log.agent == Some(f.agent)) &&
    (f.level == [] || log.level == f.level) &&
    (Lower(f.search) == [] || Contains(Lower(log.message), Lower(f.search)))
  }

  /** The entries `renderLogs` draws, in the order of the log (newest first). */
  function Visible(logs: seq<DashLog>, f: Filters): (r: seq<DashLog>)
    ensures |r| <= |logs|
    ensures forall x :: x in r <==> x in logs && Shown(x, f)
  {
    Filter(logs, (l: DashLog) => Shown(l, f))
  }

  /** With every filter input empty the whole log is shown. */
  lemma NoFiltersShowAll(logs: seq<DashLog>)
    ensures Visible(logs, Filters("", "", "")) == logs
  {
    FilterAll(logs, (l: DashLog) => Shown(l, Filters("", "", "")));
  }

  /** Each shown entry matches every filter that is set; an agent filter never shows an entry without an agent. */
  lemma VisibleMatches(logs: seq<DashLog>, f: Filters, x: DashLog)
    requires x in Visible(logs, f)
    ensures f.agent != [] ==> x.agent == Some(f.agent)
    ensures f.level != [] ==> x.level == f.level
    ensures Lower(f.search) != [] ==> Contains(Lower(x.message), Lower(f.search))
  {
  }

  lemma LowerUpper(s: string)
    ensures Lower(Upper(s)) == Lower(s)
  {
    assert forall i :: 0 <= i < |s| ==> LowerChar(UpperChar(s[i])) == LowerChar(s[i]);
  }

  /** The search ignores case, in the term and in the message alike. */
  lemma SearchIgnoresCase(log: DashLog, f: Filters)
    ensures Shown(log, f.(search := Upper(f.search))) == Shown(log, f)
    ensures Shown(log.(message := Upper(log.message)), f) == Shown(log, f)
  {
    LowerUpper(f.search);
    LowerUpper(log.message);
  }

  /** An added entry is shown first exactly when it passes the filters; the rest keep their order. */
  lemma AddedEntryShown(logs: seq<DashLog>, entry: DashLog, f: Filters)
    requires |logs| < MaxLogs
    ensures Visible(UnshiftCapped(logs, entry, MaxLogs), f) ==
      (if Shown(entry, f) then [entry] else []) + Visible(logs, f)
  {
    assert UnshiftCapped(logs, entry, MaxLogs) == [entry] + logs;
    FilterAppend([entry], logs, (l: DashLog) => Shown(l, f));
  }

  // ------------------------------------------------------------ errors

  /** `new Date(e.timestamp) > new Date(Date.now() - 3600000)`; an unreadable date is never recent. */
  predicate Recent(e: DashError, timeOf: string -> Option<int>, now: int) {
    timeOf(e.timestamp).Some? && timeOf(e.timestamp).value > now - HourMs
  }

  predicate IsFixed(e: DashError) { e.autoFixed }

  /** The three counters `updateErrorStats` shows: errors in the last hour, the same count as a rate, auto-fixed errors. */
  datatype ErrorStats = ErrorStats(count: nat, rate: nat, fixes: nat)

  function StatsOf(errors: seq<DashError>, timeOf: string -> Option<int>, now: int): (s: ErrorStats)
    ensures s.count <= |errors| && s.rate <= |errors| && s.fixes <= |errors|
  {
    var recent := Count(errors, (e: DashError) => Recent(e, timeOf, now));
    ErrorStats(recent, recent, Count(errors, IsFixed))
  }

  /** A new error adds one to the recent count when it is recent, and to the fixes when it came fixed. */
  lemma StatsAfterAdd(errors: seq<DashError>, e: DashError, timeOf: string -> Option<int>, now: int)
    ensures StatsOf([e] + errors, timeOf, now).count == StatsOf(errors, timeOf, now).count + (if Recent(e, timeOf, now) then 1 else 0)
    ensures StatsOf([e] + errors, timeOf, now).fixes == StatsOf(errors, timeOf, now).fixes + (if e.autoFixed then 1 else 0)
  {
    assert ([e] + errors)[1..] == errors;
  }

  /** Marking error `i` fixed adds one to the fixes unless it was already fixed, and leaves the recent count. */
  lemma {:induction false} FixCounts(errors: seq<DashError>, i: nat, timeOf: string -> Option<int>, now: int)
    requires i < |errors|
    ensures var fixed := errors[i := errors[i].(autoFixed := true)];
      StatsOf(fixed, timeOf, now).fixes == StatsOf(errors, timeOf, now).fixes + (if errors[i].autoFixed then 0 else 1) &&
      StatsOf(fixed, timeOf, now).count == StatsOf(errors, timeOf, now).count
    decreases i
  {
    var fixed := errors[i := errors[i].(autoFixed := true)];
    if i > 0 {
      FixCounts(errors[1..], i - 1, timeOf, now);
      assert fixed[1..] == errors[1..][i - 1 := errors[1..][i - 1].(autoFixed := true)];
    } else {
      assert fixed[1..] == errors[1..];
    }
  }

  /** `errors.slice(0, 20)`: the list under the counters. */
  function ShownErrors(errors: seq<DashError>): (r: seq<DashError>)
    ensures |r| == if |errors| < 20 then |errors| else 20
    ensures forall i :: 0 <= i < |r| ==> r[i] == errors[i]
  {
    if |errors| < 20 then errors else errors[..20]
  }

  // ------------------------------------------------------------ thresholds

  /** `value > parseInt(input)`: a threshold that is not a number (`NaN`) is never exceeded. */
  predicate Above(value: int, limit: Option<int>) {
    limit.Some? && value > limit.value
  }

  /** The four inputs read by `parseInt`; `None` is `NaN`. */
  datatype Limits = Limits(tokenWarning: Option<int>, tokenCritical: Option<int>,
                           memoryWarning: Option<int>, cpuWarning: Option<int>)

  function LimitsOf(t: ThresholdInputs): Limits {
    Limits(ParseInt(t.tokenWarning, true), ParseInt(t.tokenCritical, true),
           ParseInt(t.memoryWarning, true), ParseInt(t.cpuWarning, true))
  }

  const TokenCritical := Toast("Critical: Token rate exceeded!", Error)
  const TokenWarning := Toast("Warning: High token usage", Warning)
  const MemoryWarning := Toast("Warning: High memory usage", Warning)
  const CpuWarning := Toast("Warning: High CPU usage", Warning)

  /** The token-rate alert: critical over the critical limit, otherwise a warning over the warning limit. */
  function TokenAlert(rate: int, l: Limits): (r: seq<Toast>)
    ensures |r| <= 1
    ensures TokenCritical in r <==> Above(rate, l.tokenCritical)
    ensures TokenWarning in r <==> !Above(rate, l.tokenCritical) && Above(rate, l.tokenWarning)
  {
    if Above(rate, l.tokenCritical) then [TokenCritical]
    else if Above(rate, l.tokenWarning) then [TokenWarning]
    else []
  }

  /** `[t]` when `c` holds, else nothing. */
  function Optional(c: bool, t: Toast): (r: seq<Toast>)
    ensures t in r <==> c
    ensures |r| <= 1
  {
    if c then [t] else []
  }

  /** The toasts `checkThresholds` asks for, in order: one token alert at most, then memory, then CPU. */
  function ThresholdAlerts(m: Sample, l: Limits): (r: seq<Toast>)
    ensures |r| <= 3
    ensures TokenCritical in r <==> Above(m.tokenRate, l.tokenCritical)
    ensures TokenWarning in r <==> !Above(m.tokenRate, l.tokenCritical) && Above(m.tokenRate, l.tokenWarning)
    ensures MemoryWarning in r <==> Above(m.memory, l.memoryWarning)
    ensures CpuWarning in r <==> Above(m.cpu, l.cpuWarning)
    ensures forall x :: x in r && x.kind == Error ==> x == TokenCritical
  {
    TokenAlert(m.tokenRate, l) + Optional(Above(m.memory, l.memoryWarning), MemoryWarning) +
      Optional(Above(m.cpu, l.cpuWarning), CpuWarning)
  }

  /** A higher rate never loses the token alert: a warning may become critical, never the reverse. */
  lemma TokenAlertMonotone(m: Sample, rate: int, l: Limits)
    requires m.tokenRate <= rate
    ensures TokenCritical in ThresholdAlerts(m, l) ==> TokenCritical in ThresholdAlerts(m.(tokenRate := rate), l)
    ensures TokenWarning in ThresholdAlerts(m, l) ==>
      TokenWarning in ThresholdAlerts(m.(tokenRate := rate), l) || TokenCritical in ThresholdAlerts(m.(tokenRate := rate), l)
  {
  }

  /** A threshold saved as a number is compared as that number. */
  lemma SavedThresholdReads(value: int, limit: nat)
    ensures Above(value, ParseInt(NatToString(limit), true)) <==> value > limit
  {
    ParseIntOfNatToString(limit, true);
  }

  /** What a toast request puts on screen: nothing while toasts are switched off. */
  function Toasted(enabled: bool, ts: seq<Toast>): (r: seq<Toast>)
    ensures enabled ==> r == ts
    ensures !enabled ==> r == []
  {
    if enabled then ts else []
  }

  /** The alert sounds a toast request plays: one per error toast, when toasts and sound are on. */
  function Sounds(s: Settings, ts: seq<Toast>): (n: nat)
    ensures n <= |ts|
    ensures !s.toastEnabled || !s.soundEnabled ==> n == 0
  {
    if s.toastEnabled && s.soundEnabled then Count(ts, (x: Toast) => x.kind == Error) else 0
  }

  // ------------------------------------------------------------ health and diagnostics

  /** `updateHealthStatus`: gateway, workspace and browser are always online; ollama is online or degraded. */
  function Components(ollamaUp: bool): seq<LogServer.ComponentStatus> {
    [LogServer.Online, if ollamaUp then LogServer.Online else LogServer.Degraded, LogServer.Online, LogServer.Online]
  }

  /** The health dot's class and the status text for a roll-up. */
  function HealthDisplay(o: LogServer.Overall): (string, string) {
    match o
    case Healthy => ("health-dot healthy", "System Healthy")
    case Critical => ("health-dot critical", "System Critical")
    case DegradedOverall => ("health-dot warning", "System Degraded")
  }

  /** The page shows healthy exactly when ollama answers, degraded otherwise, and never critical. */
  lemma HealthOfPage(ollamaUp: bool)
    ensures var o := LogServer.OverallOf(Components(ollamaUp));
      (o == LogServer.Healthy <==> ollamaUp) && (o == LogServer.DegradedOverall <==> !ollamaUp) &&
      HealthDisplay(o).1 != "System Critical"
  {
    var c := Components(ollamaUp);
    if !ollamaUp {
      assert c[1] == LogServer.Degraded;
      assert forall i :: 0 <= i < |c| ==> c[i] != LogServer.Offline;
    }
  }

  /** One check `runDiagnostics` reports: its name, and what follows `✓ PASS` in its result. */
  datatype DiagnosticCheck = DiagnosticCheck(name: string, detail: string)

  function Result(c: DiagnosticCheck): string {
    "✓ PASS" + c.detail
  }

  /** The six checks, in the order their timers fire. */
  const DiagnosticChecks: seq<DiagnosticCheck> := [
    DiagnosticCheck("Gateway Health", ""), DiagnosticCheck("Ollama Connection", ""),
    DiagnosticCheck("Workspace Access", ""), DiagnosticCheck("Browser Availability", ""),
    DiagnosticCheck("Disk Space", " (245GB free)"), DiagnosticCheck("Memory Usage", " (42% used)")]

  const DiagnosticsStart := "Running diagnostics...\n"
  const DiagnosticsDone := "\n\nDiagnostics complete. All systems operational."

  /** The lines of the first `n` checks. */
  function CheckLines(checks: seq<DiagnosticCheck>, n: nat): string
    requires n <= |checks|
  {
    if n == 0 then "" else CheckLines(checks, n - 1) + "\n" + checks[n - 1].name + ": " + Result(checks[n - 1])
  }

  /** The text after `fired` timers: the opening line, the lines of the checks fired, and the closing line last. */
  function OutputAfter(start: string, checks: seq<DiagnosticCheck>, done: string, fired: nat): string
    requires fired <= |checks| + 1
  {
    if fired <= |checks| then start + CheckLines(checks, fired)
    else start + CheckLines(checks, |checks|) + done
  }

  /**
   * The diagnostics text once the first `fired` of the seven timers have fired. Their
   * delays (500 ms, then 300 ms apart, the closing line last) make them fire in order.
   */
  function DiagnosticsOutput(fired: nat): string
    requires fired <= 7
  {
    OutputAfter(DiagnosticsStart, DiagnosticChecks, DiagnosticsDone, fired)
  }

  lemma {:induction false} CheckLinesGrow(checks: seq<DiagnosticCheck>, i: nat, j: nat)
    requires i <= j <= |checks|
    ensures StartsWith(CheckLines(checks, j), CheckLines(checks, i))
    decreases j - i
  {
    if i < j {
      CheckLinesGrow(checks, i, j - 1);
      var a := CheckLines(checks, j - 1);
      assert CheckLines(checks, j) == a + ("\n" + checks[j - 1].name + ": " + Result(checks[j - 1]));
      assert CheckLines(checks, j)[..|a|] == a;
    }
  }

  lemma OutputAfterGrows(start: string, checks: seq<DiagnosticCheck>, done: string, i: nat, j: nat)
    requires i <= j <= |checks| + 1
    ensures StartsWith(OutputAfter(start, checks, done, i), start)
    ensures StartsWith(OutputAfter(start, checks, done, j), OutputAfter(start, checks, done, i))
  {
    var n := |checks|;
    var ci := CheckLines(checks, if i <= n then i else n);
    var cj := CheckLines(checks, if j <= n then j else n);
    CheckLinesGrow(checks, if i <= n then i else n, if j <= n then j else n);
    var oi := OutputAfter(start, checks, done, i);
    var oj := OutputAfter(start, checks, done, j);
    assert oi[..|start|] == start;
    assert oj[..|start + ci|] == start + ci;
    if j == n + 1 {
      assert oj[..|start + cj|] == start + cj;
    }
  }

  /** The text only grows: what is shown earlier stays at the front, behind the opening line. */
  lemma DiagnosticsGrow(i: nat, j: nat)
    requires i <= j <= 7
    ensures StartsWith(DiagnosticsOutput(i), DiagnosticsStart)
    ensures StartsWith(DiagnosticsOutput(j), DiagnosticsOutput(i))
  {
    OutputAfterGrows(DiagnosticsStart, DiagnosticChecks, DiagnosticsDone, i, j);
  }

  /** Every check passes, and once all timers have fired the text ends with the closing line. */
  lemma DiagnosticsAllPass()
    ensures forall i :: 0 <= i < |DiagnosticChecks| ==> StartsWith(Result(DiagnosticChecks[i]), "✓ PASS")
    ensures |DiagnosticsOutput(7)| >= |DiagnosticsDone| &&
      DiagnosticsOutput(7)[|DiagnosticsOutput(7)| - |DiagnosticsDone|..] == DiagnosticsDone
  {
    forall i | 0 <= i < |DiagnosticChecks| ensures StartsWith(Result(DiagnosticChecks[i]), "✓ PASS") {
      var r := Result(DiagnosticChecks[i]);
      assert r[..|"✓ PASS"|] == "✓ PASS";
    }
  }

  // ------------------------------------------------------------ the page state

  class Dashboard {
    var logs: seq<DashLog>
    var errors: seq<DashError>
    var notifications: seq<Note>
    var thresholds: ThresholdInputs
    var settings: Settings
    /** The toasts added to the container, oldest first, and the alert sounds played. */
    var toasts: seq<Toast>
    var sounds: nat
    /** `mc_notifications` and `mc_thresholds` in local storage. */
    var savedNotifications: Option<seq<Note>>
    var savedThresholds: Option<ThresholdInputs>

    /** The log never holds more than 1000 entries. */
    ghost predicate Valid()
      reads this
    {
      |logs| <= MaxLogs
    }

    /** `DOMContentLoaded`: saved thresholds fill the inputs (`loadConfig`), saved notifications the history (`loadNotifications`). */
    constructor (s: Settings, inputs: ThresholdInputs, storedNotes: Option<seq<Note>>, storedThresholds: Option<ThresholdInputs>)
      ensures Valid()
      ensures logs == [] && errors == [] && toasts == [] && sounds == 0 && settings == s
      ensures thresholds == (if storedThresholds.Some? then storedThresholds.value else inputs)
      ensures notifications == (if storedNotes.Some? then storedNotes.value else [])
      ensures savedNotifications == storedNotes && savedThresholds == storedThresholds
    {
      logs, errors, toasts, sounds, settings := [], [], [], 0, s;
      savedNotifications, savedThresholds := storedNotes, storedThresholds;
      thresholds := if storedThresholds.Some? then storedThresholds.value else inputs;
      notifications := if storedNotes.Some? then storedNotes.value else [];
    }

    /** `showToast`: the toast is added when toasts are on; an error toast also plays the sound when sound is on. */
    method ShowToast(message: string, kind: Kind)
      modifies this
      ensures toasts == old(toasts) + Toasted(settings.toastEnabled, [Toast(message, kind)])
      ensures sounds == old(sounds) + Sounds(settings, [Toast(message, kind)])
      ensures logs == old(logs) && errors == old(errors) && notifications == old(notifications)
      ensures thresholds == old(thresholds) && settings == old(settings)
      ensures savedNotifications == old(savedNotifications) && savedThresholds == old(savedThresholds)
    {
      if !settings.toastEnabled {
        return;
      }
      toasts := toasts + [Toast(message, kind)];
      if settings.soundEnabled && kind == Error {
        sounds := sounds + 1;
      }
    }

    /** `addLogEntry`: newest first, the oldest dropped past 1000. */
    method AddLogEntry(entry: DashLog)
      requires Valid()
      modifies this
      ensures Valid()
      ensures logs == UnshiftCapped(old(logs), entry, MaxLogs)
      ensures errors == old(errors) && notifications == old(notifications) && toasts == old(toasts)
      ensures sounds == old(sounds) && thresholds == old(thresholds) && settings == old(settings)
      ensures savedNotifications == old(savedNotifications) && savedThresholds == old(savedThresholds)
    {
      logs := UnshiftCapped(logs, entry, MaxLogs);
    }

    /** `clearLogs`: the log is emptied and an info toast says so. */
    method ClearLogs()
      requires Valid()
      modifies this
      ensures Valid()
      ensures logs == []
      ensures toasts == old(toasts) + Toasted(settings.toastEnabled, [Toast("Logs cleared", Info)])
      ensures sounds == old(sounds)
      ensures errors == old(errors) && notifications == old(notifications)
      ensures thresholds == old(thresholds) && settings == old(settings)
      ensures savedNotifications == old(savedNotifications) && savedThresholds == old(savedThresholds)
    {
      logs := [];
      ShowToast("Logs cleared", Info);
    }

    /** `addNotification`: newest first, the oldest dropped past 50, and the history saved. */
    method AddNotification(n: Note)
      requires Valid()
      modifies this
      ensures Valid()
      ensures notifications == UnshiftCapped(old(notifications), n, MaxNotifications)
      ensures savedNotifications == Some(notifications)
      ensures logs == old(logs) && errors == old(errors) && toasts == old(toasts) && sounds == old(sounds)
      ensures thresholds == old(thresholds) && settings == old(settings) && savedThresholds == old(savedThresholds)
    {
      notifications := UnshiftCapped(notifications, n, MaxNotifications);
      savedNotifications := Some(notifications);
    }

    /** `loadNotifications`: a saved history replaces the one shown; without one nothing changes. */
    method LoadNotifications()
      requires Valid()
      modifies this
      ensures Valid()
      ensures notifications == (if old(savedNotifications).Some? then old(savedNotifications).value else old(notifications))
      ensures logs == old(logs) && errors == old(errors) && toasts == old(toasts) && sounds == old(sounds)
      ensures thresholds == old(thresholds) && settings == old(settings)
      ensures savedNotifications == old(savedNotifications) && savedThresholds == old(savedThresholds)
    {
      if savedNotifications.Some? {
        notifications := savedNotifications.value;
      }
    }

    /**
     * `addError`: the error goes first (there is no cap); when error notifications are on,
     * an error toast and a notification, stamped `stamp`, follow.
     */
    method AddError(e: DashError, stamp: string)
      requires Valid()
      modifies this
      ensures Valid()
      ensures errors == [e] + old(errors)
      ensures "error" in settings.notify ==> (
        toasts == old(toasts) + Toasted(settings.toastEnabled, [Toast(e.message, Error)]) &&
        sounds == old(sounds) + Sounds(settings, [Toast(e.message, Error)]) &&
        notifications == UnshiftCapped(old(notifications), Note(Error, e.message, stamp), MaxNotifications) &&
        savedNotifications == Some(notifications))
      ensures "error" !in settings.notify ==> (
        toasts == old(toasts) && sounds == old(sounds) && notifications == old(notifications) &&
        savedNotifications == old(savedNotifications))
      ensures logs == old(logs) && thresholds == old(thresholds) && settings == old(settings)
      ensures savedThresholds == old(savedThresholds)
    {
      errors := [e] + errors;
      if "error" in settings.notify {
        ShowToast(e.message, Error);
        AddNotification(Note(Error, e.message, stamp));
      }
    }

    /**
     * `applyFix(index)`: the error is marked auto-fixed and a success toast follows. An index
     * with no error behind it throws before anything changes (`ok` is false).
     */
    method ApplyFix(index: int) returns (ok: bool)
      requires Valid()
      modifies this
      ensures Valid()
      ensures ok <==> 0 <= index < |old(errors)|
      ensures ok ==> (
        errors == old(errors)[index := old(errors)[index].(autoFixed := true)] &&
        toasts == old(toasts) + Toasted(settings.toastEnabled, [Toast("Fix applied successfully", Success)]))
      ensures !ok ==> errors == old(errors) && toasts == old(toasts)
      ensures sounds == old(sounds) && logs == old(logs) && notifications == old(notifications)
      ensures thresholds == old(thresholds) && settings == old(settings)
      ensures savedNotifications == old(savedNotifications) && savedThresholds == old(savedThresholds)
    {
      if !(0 <= index < |errors|) {
        return false;
      }
      errors := errors[index := errors[index].(autoFixed := true)];
      ShowToast("Fix applied successfully", Success);
      ok := true;
    }

    /** `checkThresholds`: the alerts of `ThresholdAlerts` for the inputs as `parseInt` reads them. */
    method CheckThresholds(m: Sample)
      requires Valid()
      modifies this
      ensures Valid()
      ensures toasts == old(toasts) + Toasted(settings.toastEnabled, ThresholdAlerts(m, LimitsOf(thresholds)))
      ensures sounds == old(sounds) + Sounds(settings, ThresholdAlerts(m, LimitsOf(thresholds)))
      ensures logs == old(logs) && errors == old(errors) && notifications == old(notifications)
      ensures thresholds == old(thresholds) && settings == old(settings)
      ensures savedNotifications == old(savedNotifications) && savedThresholds == old(savedThresholds)
    {
      var l := LimitsOf(thresholds);
      Alert(m, l);
    }

    /** The comparisons of `checkThresholds`, each alert through `showToast`. */
    method Alert(m: Sample, l: Limits)
      modifies this
      ensures toasts == old(toasts) + Toasted(settings.toastEnabled, ThresholdAlerts(m, l))
      ensures sounds == old(sounds) + Sounds(settings, ThresholdAlerts(m, l))
      ensures logs == old(logs) && errors == old(errors) && notifications == old(notifications)
      ensures thresholds == old(thresholds) && settings == old(settings)
      ensures savedNotifications == old(savedNotifications) && savedThresholds == old(savedThresholds)
    {
      ghost var before := toasts;
      ShowTokenAlert(m.tokenRate, l);
      ShowIf(Above(m.memory, l.memoryWarning), MemoryWarning);
      ShowIf(Above(m.cpu, l.cpuWarning), CpuWarning);
      ToastsThree(settings, before, TokenAlert(m.tokenRate, l), Optional(Above(m.memory, l.memoryWarning), MemoryWarning),
                  Optional(Above(m.cpu, l.cpuWarning), CpuWarning));
    }

    /** The token comparison: critical first, otherwise the warning. */
    method ShowTokenAlert(rate: int, l: Limits)
      modifies this
      ensures toasts == old(toasts) + Toasted(settings.toastEnabled, TokenAlert(rate, l))
      ensures sounds == old(sounds) + Sounds(settings, TokenAlert(rate, l))
      ensures logs == old(logs) && errors == old(errors) && notifications == old(notifications)
      ensures thresholds == old(thresholds) && settings == old(settings)
      ensures savedNotifications == old(savedNotifications) && savedThresholds == old(savedThresholds)
    {
      if Above(rate, l.tokenCritical) {
        ShowToast(TokenCritical.message, TokenCritical.kind);
      } else if Above(rate, l.tokenWarning) {
        ShowToast(TokenWarning.message, TokenWarning.kind);
      }
    }

    /** `if (c) showToast(...)` */
    method ShowIf(c: bool, t: Toast)
      modifies this
      ensures toasts == old(toasts) + Toasted(settings.toastEnabled, Optional(c, t))
      ensures sounds == old(sounds) + Sounds(settings, Optional(c, t))
      ensures logs == old(logs) && errors == old(errors) && notifications == old(notifications)
      ensures thresholds == old(thresholds) && settings == old(settings)
      ensures savedNotifications == old(savedNotifications) && savedThresholds == old(savedThresholds)
    {
      if c {
        ShowToast(t.message, t.kind);
      }
    }

    /** `saveThresholds`: the four inputs are saved as they stand and a success toast follows. */
    method SaveThresholds()
      requires Valid()
      modifies this
      ensures Valid()
      ensures savedThresholds == Some(thresholds)
      ensures toasts == old(toasts) + Toasted(settings.toastEnabled, [Toast("Thresholds saved", Success)])
      ensures sounds == old(sounds) && thresholds == old(thresholds)
      ensures logs == old(logs) && errors == old(errors) && notifications == old(notifications)
      ensures settings == old(settings) && savedNotifications == old(savedNotifications)
    {
      savedThresholds := Some(thresholds);
      ShowToast("Thresholds saved", Success);
    }

    /** `loadConfig`: saved thresholds fill the inputs; without them nothing changes. */
    method LoadConfig()
      requires Valid()
      modifies this
      ensures Valid()
      ensures thresholds == (if old(savedThresholds).Some? then old(savedThresholds).value else old(thresholds))
      ensures toasts == old(toasts) && sounds == old(sounds)
      ensures logs == old(logs) && errors == old(errors) && notifications == old(notifications)
      ensures settings == old(settings) && savedNotifications == old(savedNotifications)
      ensures savedThresholds == old(savedThresholds)
    {
      if savedThresholds.Some? {
        thresholds := savedThresholds.value;
      }
    }
  }

  /** Two toast requests in a row put on screen, and sound, what the two do one after the other. */
  lemma ToastsAppend(s: Settings, a: seq<Toast>, b: seq<Toast>)
    ensures Toasted(s.toastEnabled, a + b) == Toasted(s.toastEnabled, a) + Toasted(s.toastEnabled, b)
    ensures Sounds(s, a + b) == Sounds(s, a) + Sounds(s, b)
  {
    CountAppend(a, b, (x: Toast) => x.kind == Error);
  }

  lemma ToastsThree(s: Settings, before: seq<Toast>, a: seq<Toast>, b: seq<Toast>, c: seq<Toast>)
    ensures before + Toasted(s.toastEnabled, a) + Toasted(s.toastEnabled, b) + Toasted(s.toastEnabled, c)
      == before + Toasted(s.toastEnabled, a + b + c)
    ensures Sounds(s, a + b + c) == Sounds(s, a) + Sounds(s, b) + Sounds(s, c)
  {
    ToastsAppend(s, a, b);
    ToastsAppend(s, a + b, c);
  }
}
