/**
 * The text rules of `src/components/ProjectHealthCard.tsx`: how long ago the last commit
 * was, from the milliseconds elapsed (`diffMs`, a parameter standing for the clock minus
 * the commit's time), and the short commit hash.
 */
module ProjectHealth {
  import opened Strings

  /** What `formatTimeAgo` says, before it is written out. */
  datatype Ago = JustNow | MinutesAgo(minutes: nat) | HoursAgo(hours: nat) | DaysAgo(days: nat)

  /**
   * The age of `diff` milliseconds in the largest unit under its bound, floored; anything
   * under a minute, the future included, is just now.
   */
  function TimeAgo(diff: int): (a: Ago)
    ensures a == JustNow <==> diff < 60000
    ensures a.MinutesAgo? <==> 60000 <= diff < 3600000
    ensures a.HoursAgo? <==> 3600000 <= diff < 86400000
    ensures a.DaysAgo? <==> diff >= 86400000
    ensures a.MinutesAgo? ==> 1 <= a.minutes < 60 && a.minutes * 60000 <= diff < (a.minutes + 1) * 60000
    ensures a.HoursAgo? ==> 1 <= a.hours < 24 && a.hours * 3600000 <= diff < (a.hours + 1) * 3600000
    ensures a.DaysAgo? ==> 1 <= a.days && a.days * 86400000 <= diff < (a.days + 1) * 86400000
  {
    var mins, hours, days := diff / 60000, diff / 3600000, diff / 86400000;
    if mins < 1 then JustNow
    else if mins < 60 then MinutesAgo(mins)
    else if hours < 24 then HoursAgo(hours)
    else DaysAgo(days)
  }

  function Render(a: Ago): string {
    match a
    case JustNow => "Just now"
    case MinutesAgo(n) => NatToString(n) + "m ago"
    case HoursAgo(n) => NatToString(n) + "h ago"
    case DaysAgo(n) => NatToString(n) + "d ago"
  }

  /** `formatTimeAgo`. */
  function FormatTimeAgo(diff: int): string {
    Render(TimeAgo(diff))
  }

  /** How coarse a description is: just now, minutes, hours, days. */
  function Unit(a: Ago): nat {
    match a
    case JustNow => 0
    case MinutesAgo(_) => 1
    case HoursAgo(_) => 2
    case DaysAgo(_) => 3
  }

  /** An older commit is never described in a finer unit. */
  lemma TimeAgoUnitMonotone(diff: int, diff': int)
    requires diff <= diff'
    ensures Unit(TimeAgo(diff)) <= Unit(TimeAgo(diff'))
  {
  }

  /** Only just now has no `ago`; every other description ends with it. */
  lemma FormatTimeAgoSuffix(diff: int)
    ensures var t := FormatTimeAgo(diff);
      diff >= 60000 <==> |t| >= 4 && t[|t| - 4..] == " ago"
  {
    var t := FormatTimeAgo(diff);
    if diff < 60000 {
      assert t == "Just now";
      assert t[|t| - 4..] == " now";
    }
  }

  /** The commit hash shown: its first seven characters, and nothing for an empty hash. */
  function ShortHash(hash: string): (r: Option<string>)
    ensures r.None? <==> hash == []
    ensures r.Some? ==> |r.value| == (if |hash| < 7 then |hash| else 7) && r.value <= hash
  {
    if hash == [] then None
    else if |hash| < 7 then Some(hash) else Some(hash[..7])
  }
}
