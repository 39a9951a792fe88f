/**
 * The text rules of `src/components/CronCalendarView.tsx`: the countdown to a job's next
 * run, from the milliseconds left (`diffMs`, a parameter standing for the job's time minus
 * the clock), and the labels of well-known cron schedules.
 */
module CronCalendar {
  import opened Strings
  import Objects

  const MinuteMs := 60000
  const HourMs := 3600000
  const DayMs := 86400000

  /** What `formatNextRun` says, before it is written out. */
  datatype Countdown =
    | Overdue
    | AnySecond
    | InMinutes(minutes: nat)
    | InHoursMinutes(hours: nat, minutes: nat)
    | InDaysHours(days: nat, hours: nat)
    | OnDate

  /**
   * The countdown for `diff` milliseconds: each shown figure is the floor of the time left
   * in its unit, the smaller unit taken modulo the larger, and together they bracket `diff`.
   */
  function NextRun(diff: int): (c: Countdown)
    ensures c == Overdue <==> diff < 0
    ensures c == AnySecond <==> 0 <= diff < MinuteMs
    ensures c.InMinutes? <==> MinuteMs <= diff < HourMs
    ensures c.InHoursMinutes? <==> HourMs <= diff < DayMs
    ensures c.InDaysHours? <==> DayMs <= diff < 7 * DayMs
    ensures c == OnDate <==> diff >= 7 * DayMs
    ensures c.InMinutes? ==>
      1 <= c.minutes < 60 && c.minutes * MinuteMs <= diff < (c.minutes + 1) * MinuteMs
    ensures c.InHoursMinutes? ==>
      1 <= c.hours < 24 && c.minutes < 60 &&
      (c.hours * 60 + c.minutes) * MinuteMs <= diff < (c.hours * 60 + c.minutes + 1) * MinuteMs
    ensures c.InDaysHours? ==>
      1 <= c.days < 7 && c.hours < 24 &&
      (c.days * 24 + c.hours) * HourMs <= diff < (c.days * 24 + c.hours + 1) * HourMs
  {
    if diff < 0 then Overdue
    else if diff < MinuteMs then AnySecond
    else
      var mins, hours, days := diff / MinuteMs, diff / HourMs, diff / DayMs;
      if mins < 60 then InMinutes(mins)
      else if hours < 24 then
        HoursOfMinutes(diff);
        InHoursMinutes(hours, mins % 60)
      else if days < 7 then
        DaysOfHours(diff);
        InDaysHours(days, hours % 24)
      else OnDate
  }

  /** The whole hours are the whole minutes divided by 60, and the minutes recompose them. */
  lemma HoursOfMinutes(diff: nat)
    ensures diff / HourMs == (diff / MinuteMs) / 60
    ensures (diff / HourMs) * 60 + (diff / MinuteMs) % 60 == diff / MinuteMs
  {
    var m := diff / MinuteMs;
    assert diff == m * MinuteMs + diff % MinuteMs;
    assert m == (m / 60) * 60 + m % 60;
    assert diff == (m / 60) * HourMs + ((m % 60) * MinuteMs + diff % MinuteMs);
    DivOfParts(diff, m / 60, (m % 60) * MinuteMs + diff % MinuteMs, HourMs);
  }

  /** The whole days are the whole hours divided by 24, and the hours recompose them. */
  lemma DaysOfHours(diff: nat)
    ensures diff / DayMs == (diff / HourMs) / 24
    ensures (diff / DayMs) * 24 + (diff / HourMs) % 24 == diff / HourMs
  {
    var h := diff / HourMs;
    assert diff == h * HourMs + diff % HourMs;
    assert h == (h / 24) * 24 + h % 24;
    assert diff == (h / 24) * DayMs + ((h % 24) * HourMs + diff % HourMs);
    DivOfParts(diff, h / 24, (h % 24) * HourMs + diff % HourMs, DayMs);
  }

  /** `x = q * d + r` with `0 <= r < d` makes `q` the quotient. */
  lemma DivOfParts(x: int, q: int, r: int, d: int)
    requires d > 0 && 0 <= r < d && x == q * d + r
    ensures x / d == q
  {
    assert x == d * (x / d) + x % d;
    if x / d < q {
      MulStep(x / d, q, d);
    } else if x / d > q {
      MulStep(q, x / d, d);
    }
  }

  /** A larger factor of a positive number gives a product larger by at least that number. */
  lemma MulStep(a: int, b: int, d: int)
    requires a < b && d > 0
    ensures a * d + d <= b * d
  {
    var k := b - a - 1;
    assert k * d >= 0;
    assert b * d == a * d + k * d + d;
  }

  /** `formatNextRun`: the countdown written out; past a week, the localized date given. */
  function Render(c: Countdown, localeDate: string): string {
    match c
    case Overdue => "Overdue"
    case AnySecond => "Any second now"
    case InMinutes(m) => "in " + NatToString(m) + "m"
    case InHoursMinutes(h, m) => "in " + NatToString(h) + "h " + NatToString(m) + "m"
    case InDaysHours(d, h) => "in " + NatToString(d) + "d " + NatToString(h) + "h"
    case OnDate => localeDate
  }

  function FormatNextRun(diff: int, localeDate: string): string {
    Render(NextRun(diff), localeDate)
  }

  /** Only a run at least a week away shows the date; every nearer one is a fixed phrase or starts with `in `. */
  lemma FormatNextRunShape(diff: int, localeDate: string)
    ensures var t := FormatNextRun(diff, localeDate);
      (diff >= 7 * DayMs <==> t == localeDate && NextRun(diff) == OnDate) &&
      (MinuteMs <= diff < 7 * DayMs ==> |t| > 3 && t[..3] == "in ")
  {
  }

  /** A countdown's figures never decrease as the run gets further away, within one form. */
  lemma NextRunMinutesMonotone(diff: int, diff': int)
    requires MinuteMs <= diff <= diff' < HourMs
    ensures NextRun(diff).minutes <= NextRun(diff').minutes
  {
    var m, m' := NextRun(diff).minutes, NextRun(diff').minutes;
    if m' < m {
      MulStep(m', m, MinuteMs);
    }
  }

  /** The cron expressions that have a label. */
  const CronLabels: map<string, string> := map[
    "0 * * * *" := "Every hour",
    "0 0 * * *" := "Daily at midnight",
    "0 9 * * *" := "Daily at 9 AM",
    "0 0 * * 0" := "Weekly on Sunday",
    "0 0 1 * *" := "Monthly on the 1st",
    "*/5 * * * *" := "Every 5 minutes",
    "*/15 * * * *" := "Every 15 minutes",
    "0 */6 * * *" := "Every 6 hours"
  ]

  /**
   * `parseSchedule`: `cronPatterns[schedule] || schedule`. A listed cron expression gives
   * its label; a name the object inherits (such as `constructor`) gives that member, not
   * a text; any other text comes back unchanged.
   */
  function ParseSchedule(schedule: string): (r: Objects.Value)
    ensures schedule in CronLabels ==> r == Objects.Str(CronLabels[schedule]) && r != Objects.Str(schedule)
    ensures r.Member? <==> schedule in Objects.InheritedNames
    ensures r.Member? ==> r.name == schedule
    ensures schedule !in CronLabels && schedule !in Objects.InheritedNames ==> r == Objects.Str(schedule)
  {
    LabelsNotInherited();
    Objects.LookupOr(CronLabels, schedule, schedule)
  }

  /** No listed expression and no label is an inherited name. */
  lemma LabelsNotInherited()
    ensures forall s :: s in CronLabels ==> s !in Objects.InheritedNames && CronLabels[s] != []
    ensures forall s :: s in CronLabels ==> CronLabels[s] !in Objects.InheritedNames
  {
    Objects.InheritedNoSpace();
    assert forall s :: s in CronLabels ==> ' ' in s && ' ' in CronLabels[s];
  }

  /** No label is itself a listed expression. */
  lemma LabelsNotExpressions(s: string)
    requires s in CronLabels
    ensures CronLabels[s] !in CronLabels
  {
  }

  /** Reading the text a schedule shows as a schedule again shows the same text. */
  lemma ParseScheduleIdempotent(schedule: string)
    ensures ParseSchedule(schedule).Str? ==> ParseSchedule(ParseSchedule(schedule).s) == ParseSchedule(schedule)
  {
    LabelsNotInherited();
    if schedule in CronLabels {
      LabelsNotExpressions(schedule);
    }
  }
}
