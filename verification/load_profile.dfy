/** What each profile means for the engine: a two-phase open-workload
    injection schedule and the SLA thresholds the run is judged against. */
module LoadProfile {
  import opened Integers
  import opened PerfProfile

  /** One open-workload injection step: a linear ramp of `users` arrivals, or
      a steady arrival rate, each over a duration in seconds. */
  datatype Phase =
    | RampUsers(users: int, durationSeconds: nat)
    | ConstantUsersPerSec(rate: real, durationSeconds: nat)

  /** Scales for which every ramp count `5*scale`, `20*scale`, `60*scale`
      is a Java `int` without wrap-around. */
  predicate ScaleFits(scale: int) {
    MinInt32 <= 60 * scale <= MaxInt32
  }

  /** `LoadProfile.userInjection`: a ramp then a constant rate, user counts
      and rates multiplied by `scale` (no clamping), durations fixed per
      profile. The rates are Java doubles; `k * scale` for these `k` and
      `int` scales is exact in a double, so a real models it faithfully. */
  function UserInjection(p: Profile, scale: int): (r: seq<Phase>)
    requires ScaleFits(scale)
    ensures |r| == 2 && r[0].RampUsers? && r[1].ConstantUsersPerSec?
    ensures MinInt32 <= r[0].users <= MaxInt32
    ensures r[0].durationSeconds > 0 && r[1].durationSeconds > 0
    ensures scale > 0 ==> r[0].users > 0 && r[1].rate > 0.0
    ensures scale == 0 ==> r[0].users == 0 && r[1].rate == 0.0
  {
    match p
    case Smoke => [RampUsers(5 * scale, 20), ConstantUsersPerSec(2.0 * scale as real, 20)]
    case Baseline => [RampUsers(20 * scale, 60), ConstantUsersPerSec(8.0 * scale as real, 120)]
    case Stress => [RampUsers(60 * scale, 120), ConstantUsersPerSec(20.0 * scale as real, 180)]
  }

  /** A phase with its user count or rate multiplied by `k`. */
  function ScalePhase(ph: Phase, k: int): (r: Phase)
    ensures r.RampUsers? == ph.RampUsers?
    ensures r.durationSeconds == ph.durationSeconds
  {
    match ph
    case RampUsers(u, d) => RampUsers(k * u, d)
    case ConstantUsersPerSec(x, d) => ConstantUsersPerSec(k as real * x, d)
  }

  /** `p95Ms`: the 95th-percentile latency ceiling in milliseconds. */
  function P95Ms(p: Profile): (r: Int32)
    ensures r > 0
  {
    match p
    case Smoke => 150
    case Baseline => 300
    case Stress => 600
  }

  /** `maxErrorRatePercent`: the ceiling on failed requests, in percent. */
  function MaxErrorRatePercent(p: Profile): (r: real)
    ensures 0.0 < r <= 100.0
  {
    match p
    case Smoke => 0.5
    case Baseline => 1.0
    case Stress => 2.0
  }

  /** Linear scaling: the schedule at scale `k` is the scale-1 schedule
      with every count and rate multiplied by `k`. */
  lemma UserInjectionLinear(p: Profile, k: int)
    requires ScaleFits(k)
    ensures UserInjection(p, k) == [ScalePhase(UserInjection(p, 1)[0], k), ScalePhase(UserInjection(p, 1)[1], k)]
  {
  }

  /** Phase kinds and durations do not depend on the scale. */
  lemma DurationsIgnoreScale(p: Profile, k: int, m: int)
    requires ScaleFits(k) && ScaleFits(m)
    ensures forall i :: 0 <= i < 2 ==>
      && UserInjection(p, k)[i].RampUsers? == UserInjection(p, m)[i].RampUsers?
      && UserInjection(p, k)[i].durationSeconds == UserInjection(p, m)[i].durationSeconds
  {
  }

  /** The base table at scale 1. */
  lemma UserInjectionTable()
    ensures UserInjection(Smoke, 1) == [RampUsers(5, 20), ConstantUsersPerSec(2.0, 20)]
    ensures UserInjection(Baseline, 1) == [RampUsers(20, 60), ConstantUsersPerSec(8.0, 120)]
    ensures UserInjection(Stress, 1) == [RampUsers(60, 120), ConstantUsersPerSec(20.0, 180)]
  {
  }

  /** At a positive scale a heavier profile injects strictly more: a larger
      ramp, a higher rate, and phases at least as long. */
  lemma HeavierProfileMoreLoad(p: Profile, q: Profile, k: int)
    requires ScaleFits(k) && k > 0
    requires p.Ordinal() < q.Ordinal()
    ensures UserInjection(p, k)[0].users < UserInjection(q, k)[0].users
    ensures UserInjection(p, k)[1].rate < UserInjection(q, k)[1].rate
    ensures forall i :: 0 <= i < 2 ==>
      UserInjection(p, k)[i].durationSeconds <= UserInjection(q, k)[i].durationSeconds
  {
  }

  /** The threshold table: p95 ceilings of 150, 300 and 600 ms and error
      ceilings of 0.5, 1.0 and 2.0 percent. */
  lemma ThresholdTable()
    ensures P95Ms(Smoke) == 150 && P95Ms(Baseline) == 300 && P95Ms(Stress) == 600
    ensures MaxErrorRatePercent(Smoke) == 0.5 && MaxErrorRatePercent(Baseline) == 1.0
    ensures MaxErrorRatePercent(Stress) == 2.0
  {
  }

  /** Heavier profiles get looser SLAs: both thresholds strictly increase
      from SMOKE through STRESS, doubling at each tier. */
  lemma ThresholdsIncrease(p: Profile, q: Profile)
    ensures p.Ordinal() < q.Ordinal() ==> P95Ms(p) < P95Ms(q) && MaxErrorRatePercent(p) < MaxErrorRatePercent(q)
    ensures q.Ordinal() == p.Ordinal() + 1 ==>
      P95Ms(q) == 2 * P95Ms(p) && MaxErrorRatePercent(q) == 2.0 * MaxErrorRatePercent(p)
  {
  }
}
