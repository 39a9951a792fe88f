/**
 * The numeric rules of `src/components/TokenTracker.tsx`: the usage percentage, its
 * warning band, the total used and what is left of the pool. Numbers are exact integers;
 * `Math.round` of the quotient is rounded half up exactly, as rationals.
 */
module TokenTracker {
  import opened Strings

  /** Per-agent usage, as the component receives it. */
  datatype TokenUsage = TokenUsage(agentId: string, agentName: string, used: int, limit: int, color: string)

  /** The pool size used when none is given. */
  const DefaultPool := 1000000

  /** `r` is `n / d` rounded half up: `r - 1/2 <= n/d < r + 1/2`, for a positive `d`. */
  ghost predicate RoundsHalfUp(n: int, d: int, r: int)
    requires d > 0
  {
    (2 * r - 1) * d <= 2 * n < (2 * r + 1) * d
  }

  /** At most one integer is `n / d` rounded half up. */
  lemma RoundsHalfUpUnique(n: int, d: int, r: int, r': int)
    requires d > 0 && RoundsHalfUp(n, d, r) && RoundsHalfUp(n, d, r')
    ensures r == r'
  {
    RoundsOrdered(n, d, r, r');
    RoundsOrdered(n, d, r', r);
  }

  /** A rounding of `n / d` is at most any rounding of a quotient at least as large. */
  lemma RoundsOrdered(n: int, d: int, r: int, r': int)
    requires d > 0 && (2 * r - 1) * d <= 2 * n < (2 * r' + 1) * d
    ensures r <= r'
  {
    MulLt(2 * r - 1, 2 * r' + 1, d);
  }

  /** Products by the same positive number are ordered as the factors. */
  lemma MulLt(a: int, b: int, d: int)
    requires d > 0 && a * d < b * d
    ensures a < b
  {
    if b <= a {
      MulLe(b, a, d);
    }
  }

  /** Multiplying by a positive number keeps the order. */
  lemma MulLe(a: int, b: int, d: int)
    requires a <= b && d > 0
    ensures a * d <= b * d
  {
    assert b * d - a * d == (b - a) * d;
  }

  /** `Math.round(n / d)`: the quotient rounded half up, the divisor's sign taken into the dividend. */
  function RoundDiv(n: int, d: int): (r: int)
    requires d != 0
    ensures d > 0 ==> RoundsHalfUp(n, d, r)
    ensures d < 0 ==> RoundsHalfUp(-n, -d, r)
  {
    var n', d' := if d > 0 then n else -n, if d > 0 then d else -d;
    var r := (2 * n' + d') / (2 * d');
    FloorParts(2 * n' + d', 2 * d', r);
    r
  }

  /** The floor quotient of `m` by a positive `e` puts `m` between `r * e` and `(r + 1) * e`. */
  lemma FloorParts(m: int, e: int, r: int)
    requires e > 0 && r == m / e
    ensures r * e <= m < (r + 1) * e
  {
    assert m == e * r + m % e;
  }

  /** `formatPercentage`: zero for a zero limit, else the rounded percentage clamped to 100. */
  function FormatPercentage(used: int, limit: int): (p: int)
    ensures limit == 0 ==> p == 0
    ensures p <= 100
    ensures limit > 0 && p < 100 ==> RoundsHalfUp(100 * used, limit, p)
  {
    if limit == 0 then 0
    else
      var r := RoundDiv(100 * used, limit);
      if r < 100 then r else 100
  }

  /** With a positive limit the percentage never decreases as the usage grows. */
  lemma PercentageMonotone(u: int, u': int, limit: int)
    requires limit > 0 && u <= u'
    ensures FormatPercentage(u, limit) <= FormatPercentage(u', limit)
  {
    var r, r' := RoundDiv(100 * u, limit), RoundDiv(100 * u', limit);
    RoundsOrdered(100 * u, limit, r, r');
  }

  /** A clamped percentage of 100 means the quotient is at least 99.5. */
  lemma PercentageFull(used: int, limit: int)
    requires limit > 0 && FormatPercentage(used, limit) == 100
    ensures 2 * (100 * used) >= 199 * limit
  {
    var r := RoundDiv(100 * used, limit);
    MulLe(199, 2 * r - 1, limit);
  }

  /** Usage within a positive limit gives a percentage between 0 and 100. */
  lemma PercentageInRange(used: int, limit: int)
    requires 0 <= used && limit > 0
    ensures 0 <= FormatPercentage(used, limit) <= 100
  {
    var r := RoundDiv(100 * used, limit);
    if r < 0 {
      MulLe(2 * r + 1, -1, limit);
    }
  }

  /** The four warning levels, `low` to `critical`. */
  datatype WarningLevel = Low | Medium | High | Critical

  /** How severe a level is, 0 for `low` up to 3 for `critical`. */
  function Severity(w: WarningLevel): nat {
    match w
    case Low => 0
    case Medium => 1
    case High => 2
    case Critical => 3
  }

  /** `getUsageWarningLevel`: critical from 90, high from 75, medium from 50, else low. */
  function UsageWarningLevel(percentage: int): (w: WarningLevel)
    ensures w == Critical <==> percentage >= 90
    ensures w == High <==> 75 <= percentage < 90
    ensures w == Medium <==> 50 <= percentage < 75
    ensures w == Low <==> percentage < 50
  {
    if percentage >= 90 then Critical
    else if percentage >= 75 then High
    else if percentage >= 50 then Medium
    else Low
  }

  /** The level never decreases as the percentage grows. */
  lemma WarningMonotone(p: int, q: int)
    requires p <= q
    ensures Severity(UsageWarningLevel(p)) <= Severity(UsageWarningLevel(q))
  {
  }

  /** The `reduce` sum of the agents' `used`, from the left. */
  function SumUsed(usages: seq<TokenUsage>): int {
    if usages == [] then 0 else SumUsed(usages[..|usages| - 1]) + usages[|usages| - 1].used
  }

  /** The sum over two lists joined is the sum of the sums. */
  lemma {:induction false} SumUsedAppend(a: seq<TokenUsage>, b: seq<TokenUsage>)
    ensures SumUsed(a + b) == SumUsed(a) + SumUsed(b)
    decreases |b|
  {
    if b != [] {
      var b' := b[..|b| - 1];
      assert (a + b)[..|a + b| - 1] == a + b';
      assert (a + b)[|a + b| - 1] == b[|b| - 1];
      SumUsedAppend(a, b');
    } else {
      assert a + b == a;
    }
  }

  /** Each agent's non-negative usage is part of the sum of non-negative usages. */
  lemma {:induction false} SumUsedBounds(usages: seq<TokenUsage>, i: int)
    requires forall j :: 0 <= j < |usages| ==> usages[j].used >= 0
    requires 0 <= i < |usages|
    ensures 0 <= usages[i].used <= SumUsed(usages)
    decreases |usages|
  {
    SumUsedNonneg(usages[..|usages| - 1]);
    if i < |usages| - 1 {
      SumUsedBounds(usages[..|usages| - 1], i);
    }
  }

  /** A sum of non-negative usages is non-negative. */
  lemma {:induction false} SumUsedNonneg(usages: seq<TokenUsage>)
    requires forall j :: 0 <= j < |usages| ==> usages[j].used >= 0
    ensures SumUsed(usages) >= 0
    decreases |usages|
  {
    if usages != [] {
      SumUsedNonneg(usages[..|usages| - 1]);
    }
  }

  /** The total used: the given total when there is one, else the sum over the agents. */
  function TotalUsed(totalUsed: Option<int>, usages: seq<TokenUsage>): (t: int)
    ensures totalUsed.Some? ==> t == totalUsed.value
    ensures totalUsed.None? && usages == [] ==> t == 0
  {
    if totalUsed.Some? then totalUsed.value else SumUsed(usages)
  }

  /** What is left of the pool: an amount and whether it is an overrun (`over`) or `remaining`. */
  datatype Remaining = Remaining(amount: int, over: bool)

  /** `remaining = pool - used`, shown as its absolute value, marked `over` when negative. */
  function RemainingOf(pool: int, used: int): (r: Remaining)
    ensures r.amount >= 0
    ensures r.over <==> used > pool
    ensures pool - used == if r.over then -r.amount else r.amount
  {
    var remaining := pool - used;
    if remaining >= 0 then Remaining(remaining, false) else Remaining(-remaining, true)
  }

  /** What the card shows: the total used, what is left, the percentage and its level. */
  datatype Summary = Summary(used: int, left: Remaining, percentage: int, level: WarningLevel)

  /** The header of the tracker, for a pool (`DefaultPool` when not given) and an optional total. */
  function Summarize(usages: seq<TokenUsage>, totalPool: Option<int>, totalUsed: Option<int>): (s: Summary)
    ensures s.percentage <= 100
    ensures s.level == Critical ==> s.percentage >= 90
    ensures var pool := if totalPool.Some? then totalPool.value else DefaultPool;
      pool - s.used == (if s.left.over then -s.left.amount else s.left.amount)
  {
    var pool := if totalPool.Some? then totalPool.value else DefaultPool;
    var used := TotalUsed(totalUsed, usages);
    var p := FormatPercentage(used, pool);
    Summary(used, RemainingOf(pool, used), p, UsageWarningLevel(p))
  }

  /** Using at least the whole pool shows 100% and the critical level. */
  lemma FullPoolCritical(usages: seq<TokenUsage>, pool: int, totalUsed: Option<int>)
    requires pool > 0 && TotalUsed(totalUsed, usages) >= pool
    ensures Summarize(usages, Some(pool), totalUsed).percentage == 100
    ensures Summarize(usages, Some(pool), totalUsed).level == Critical
  {
    var used := TotalUsed(totalUsed, usages);
    PercentageMonotone(pool, used, pool);
    var r := RoundDiv(100 * pool, pool);
    assert r == 100 by {
      assert RoundsHalfUp(100 * pool, pool, 100);
      RoundsHalfUpUnique(100 * pool, pool, r, 100);
    }
  }
}
