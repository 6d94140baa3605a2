/** The usage meter: the fallback quota used when the usage endpoint
    cannot be reached, and the used / limit / remaining / percentage
    figures derived from a (possibly partial) usage payload. */
module Usage {
  import opened Wrappers
  import opened JsValues

  /** The usage payload's three counters; `None` where the field is
      missing or not a finite number. When `limit` is missing, a truthy
      `remaining` that is not a number is not the same as a missing one
      in the source; that case is outside this type. */
  datatype UsagePayload = UsagePayload(used: Option<int>, limit: Option<int>, remaining: Option<int>)

  /** The figures the meter shows. */
  datatype UsageView = UsageView(used: int, limit: int, remaining: int, percentage: int)

  /** The state the status line is put in. */
  datatype UsageState = Warning | Success | Exhausted

  /** The per-tier quotas assumed when the server's figures are missing:
      `limits[tier] || 5`. */
  function TierLimit(tier: string): (limit: nat)
    ensures limit in {5, 20, 60, 150}
    ensures tier == "starter" <==> limit == 20
    ensures tier == "professional" <==> limit == 60
    ensures tier == "pro" <==> limit == 150
  {
    if tier == "free" then 5
    else if tier == "starter" then 20
    else if tier == "professional" then 60
    else if tier == "pro" then 150
    else 5
  }

  /** `buildUsageFallback()` for the signed-in profile `user`: nothing
      used, the whole tier quota remaining. The tier defaults to `free`
      and is matched case-insensitively; a truthy tier that is not a
      string has no `toLowerCase` and the call throws (`None`). */
  function BuildUsageFallback(user: Json): (r: Option<UsagePayload>)
    ensures r.None? <==> Truthy(Get(user, "tier")) && !Get(user, "tier").Str?
    ensures r.Some? ==> r.value.used == Some(0) && r.value.limit.Some? && r.value.remaining == r.value.limit
    ensures r.Some? ==> r.value.limit.value >= 5
    ensures !Truthy(Get(user, "tier")) ==> r == Some(UsagePayload(Some(0), Some(5), Some(5)))
    ensures Get(user, "tier").Str? ==>
              var limit := TierLimit(Lower(Get(user, "tier").s));
              r == Some(UsagePayload(Some(0), Some(limit), Some(limit)))
  {
    var tier := Or(Get(user, "tier"), Str("free"));
    if tier.Str? then
      var limit := TierLimit(Lower(tier.s));
      Some(UsagePayload(Some(0), Some(limit), Some(limit)))
    else None
  }

  /** `Math.round(n / d)` for a positive divisor: the nearest integer,
      halves rounded up. */
  function RoundHalfUp(n: int, d: int): (r: int)
    requires d > 0
    ensures d * (2 * r - 1) <= 2 * n < d * (2 * r + 1)
  {
    var q := (2 * n + d) / (2 * d);
    assert 2 * n + d == 2 * d * q + (2 * n + d) % (2 * d);
    assert d * (2 * q - 1) == 2 * d * q - d;
    assert d * (2 * q + 1) == 2 * d * q + d;
    q
  }

  /** The rounding is the only integer within half a unit (halves up). */
  lemma RoundHalfUpUnique(n: int, d: int, r: int)
    requires d > 0
    requires d * (2 * r - 1) <= 2 * n < d * (2 * r + 1)
    ensures RoundHalfUp(n, d) == r
  {
    var q := RoundHalfUp(n, d);
    if q < r {
      MulMonotone(d, 2 * q + 1, 2 * r - 1);
    } else if q > r {
      MulMonotone(d, 2 * r + 1, 2 * q - 1);
    }
  }

  lemma MulMonotone(d: int, a: int, b: int)
    requires d > 0 && a <= b
    ensures d * a <= d * b
  {
  }

  /** Rounding is monotone: more used never shows a smaller share. */
  lemma RoundHalfUpMonotone(m: int, n: int, d: int)
    requires d > 0 && m <= n
    ensures RoundHalfUp(m, d) <= RoundHalfUp(n, d)
  {
    var p, q := RoundHalfUp(m, d), RoundHalfUp(n, d);
    if p > q {
      MulMonotone(d, 2 * q + 1, 2 * p - 1);
    }
  }

  /** The meter's fill: the rounded share of the limit used, capped at
      100, and 0 when there is no positive limit. */
  function Percentage(used: int, limit: int): (p: int)
    ensures p <= 100
    ensures limit <= 0 ==> p == 0
  {
    if limit > 0 then
      var r := RoundHalfUp(100 * used, limit);
      if r < 100 then r else 100
    else 0
  }

  /** What the fill means: never negative for a non-negative count, full
      once the count reaches the limit, and otherwise the percentage
      nearest to `100 * used / limit` (halves up). */
  lemma PercentageMeaning(used: int, limit: int)
    requires limit > 0
    ensures used >= 0 ==> Percentage(used, limit) >= 0
    ensures used >= limit ==> Percentage(used, limit) == 100
    ensures 200 * used < 201 * limit ==>
              limit * (2 * Percentage(used, limit) - 1) <= 200 * used < limit * (2 * Percentage(used, limit) + 1)
  {
    var r := RoundHalfUp(100 * used, limit);
    if used >= 0 && r < 0 {
      MulMonotone(limit, 2 * r + 1, -1);
    }
    if used >= limit {
      RoundHalfUpMonotone(100 * limit, 100 * used, limit);
      RoundHalfUpUnique(100 * limit, limit, 100);
    }
    if 200 * used < 201 * limit && r > 100 {
      MulMonotone(limit, 201, 2 * r - 1);
    }
  }

  /** A larger count used never shows a smaller percentage. */
  lemma PercentageMonotone(u1: int, u2: int, limit: int)
    requires u1 <= u2
    ensures Percentage(u1, limit) <= Percentage(u2, limit)
  {
    if limit > 0 {
      RoundHalfUpMonotone(100 * u1, 100 * u2, limit);
    }
  }

  /** The numeric part of `updateUsageDisplay(data)`: a missing `used`
      is 0; a missing `limit` is `used` plus whatever `remaining` says; a
      missing `remaining` is what is left of the limit, never negative. */
  function DeriveUsage(p: UsagePayload): (v: UsageView)
    ensures v.used == p.used.GetOr(0)
    ensures p.limit.Some? ==> v.limit == p.limit.value
    ensures p.limit.None? ==> v.limit - v.used == p.remaining.GetOr(0)
    ensures p.remaining.Some? ==> v.remaining == p.remaining.value
    ensures p.remaining.None? ==> v.remaining >= 0 && v.remaining >= v.limit - v.used
    ensures p.remaining.None? && v.remaining > 0 ==> v.remaining == v.limit - v.used
    ensures v.percentage == Percentage(v.used, v.limit)
  {
    var used := p.used.GetOr(0);
    var limit := if p.limit.Some? then p.limit.value else used + p.remaining.GetOr(0);
    var remaining := if p.remaining.Some? then p.remaining.value
                     else if limit - used > 0 then limit - used else 0;
    UsageView(used, limit, remaining, Percentage(used, limit))
  }

  /** The plan limit is reached exactly when nothing remains; that is
      exactly when the status line shows the limit-reached state. */
  function LimitReached(v: UsageView): (reached: bool)
    ensures reached <==> StatusState(v, false) == Exhausted
  {
    v.remaining <= 0
  }

  /** When the server sends no `remaining`, the limit counts as reached
      exactly when the count used has caught up with the limit. */
  lemma LimitReachedIffUsedUp(p: UsagePayload)
    requires p.remaining.None?
    ensures LimitReached(DeriveUsage(p)) <==> DeriveUsage(p).used >= DeriveUsage(p).limit
  {
  }

  /** `usageStatus.dataset.state`: a warning when an error message is
      shown, otherwise success while analyses remain, an error state once
      the limit is reached. */
  function StatusState(v: UsageView, hasMessage: bool): (s: UsageState)
    ensures hasMessage <==> s == Warning
    ensures !hasMessage ==> (s == Exhausted <==> v.remaining <= 0)
  {
    if hasMessage then Warning
    else if v.remaining > 0 then Success
    else Exhausted
  }

  /** `{used: 5, limit: 5}`: nothing remains, the meter is full and the
      limit is reported as reached. */
  lemma FullUsageScenario()
    ensures DeriveUsage(UsagePayload(Some(5), Some(5), None)) == UsageView(5, 5, 0, 100)
    ensures LimitReached(DeriveUsage(UsagePayload(Some(5), Some(5), None)))
    ensures StatusState(DeriveUsage(UsagePayload(Some(5), Some(5), None)), false) == Exhausted
  {
  }

  /** Deriving `remaining` from a limit and deriving the limit back from
      that `remaining` are inverse: both payload shapes show the same
      meter. */
  lemma DerivationsAgree(used: int, limit: int)
    requires 0 <= used <= limit
    ensures var v := DeriveUsage(UsagePayload(Some(used), Some(limit), None));
            v.remaining == limit - used &&
            DeriveUsage(UsagePayload(Some(used), None, Some(v.remaining))) == v
  {
  }

  /** The fallback quota never shows as exhausted: nothing used, the whole
      positive quota remaining, an empty meter. */
  lemma FallbackNotExhausted(user: Json)
    requires BuildUsageFallback(user).Some?
    ensures var v := DeriveUsage(BuildUsageFallback(user).value);
            v.used == 0 && v.remaining == v.limit && v.limit >= 5 && v.percentage == 0 &&
            !LimitReached(v) && StatusState(v, false) == Success
  {
  }

  /** A known tier is recognised in any letter case. */
  lemma FallbackTierCaseInsensitive(tier: string)
    ensures BuildUsageFallback(Obj(map["tier" := Str(tier)]))
            == BuildUsageFallback(Obj(map["tier" := Str(Lower(tier))]))
  {
    LowerIdempotent(tier);
  }
}
