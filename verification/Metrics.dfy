/**
 Load metrics of the adaptive balancer: the last observed load of every
 instance, drained at its processing speed, and its smoothed ratio.
 */
module Metrics {
  import opened Domain
  import opened ById
  import opened Weights

  /** Times count nanoseconds. */
  const Second: int := 1_000_000_000
  const Negligible: real := 0.0005

  datatype Tuning = Tuning(stableSamples: int, freshness: int, alpha: real, backoff: seq<int>) {
    predicate Valid() {
      && stableSamples > 0 && freshness > 0 && 0.0 < alpha <= 1.0 && |backoff| > 0
      && forall i :: 0 <= i < |backoff| ==> backoff[i] > 0
    }
  }

  /** A time that was never set is None. */
  datatype Metric = Metric(
    load: real,
    container: string,
    speed: int,
    maxLoad: int,
    observedAt: Option<Time>,
    smoothed: real,
    smoothedAt: Option<Time>,
    lastDropped: Option<Time>)

  type LabMetrics = map<Name, Metric>
  type AllMetrics = map<LabId, LabMetrics>

  /** One traffic result, with the instance the platform sent the batch to. */
  datatype Observation = Observation(
    lab: LabId,
    instance: Server,
    target: Name,
    speed: int,
    maxLoad: int,
    load: real,
    observedAt: Option<Time>,
    dropped: int)

  const Unseen: Metric := Metric(0.0, "", 0, 0, None, 0.0, None, None)

  function Of(ms: AllMetrics, lab: LabId): LabMetrics {
    if lab in ms then ms[lab] else map[]
  }

  function Elapsed(since: Time, now: Time): real {
    if now > since then (now - since) as real / Second as real else 0.0
  }

  function EstimatedLoad(m: Metric, now: Time): real {
    if m.speed <= 0 || m.maxLoad <= 0 || m.observedAt.None? then 0.0
    else Greatest(0.0, m.load - m.speed as real * Elapsed(m.observedAt.value, now))
  }

  function EstimatedRatio(m: Metric, now: Time): real {
    if m.maxLoad <= 0 then 0.0 else EstimatedLoad(m, now) / m.maxLoad as real
  }

  predicate Usable(o: Observation) {
    && o.lab != "" && o.target != "" && o.instance.id == o.target && o.instance.container != ""
    && o.instance.speed == o.speed && o.instance.maxLoad == o.maxLoad && o.speed > 0 && o.maxLoad > 0
    && 0.0 <= o.load <= o.maxLoad as real && o.observedAt.Some?
  }

  predicate Outdated(m: Metric, o: Observation) {
    m.observedAt.Some? && o.observedAt.Some? && o.observedAt.value < m.observedAt.value
  }

  function Refreshed(m: Metric, o: Observation): Metric {
    m.(load := o.load, container := o.instance.container, speed := o.speed, maxLoad := o.maxLoad,
       observedAt := o.observedAt, lastDropped := if o.dropped > 0 then o.observedAt else m.lastDropped)
  }

  function Known(ms: LabMetrics, id: Name): Metric {
    if id in ms then ms[id] else Unseen
  }

  function Observe(ms: AllMetrics, o: Observation): AllMetrics {
    var own := Of(ms, o.lab);
    if !Usable(o) || Outdated(Known(own, o.target), o) then ms
    else ms[o.lab := own[o.target := Refreshed(Known(own, o.target), o)]]
  }

  predicate Matches(m: Metric, x: Server) {
    m.container == x.container && m.speed == x.speed && m.maxLoad == x.maxLoad
  }

  /** The metric sampling starts from: a changed instance starts afresh. */
  function Base(ms: LabMetrics, x: Server, now: Time): Metric {
    if x.id in ms && Matches(ms[x.id], x) then ms[x.id]
    else Unseen.(container := x.container, speed := x.speed, maxLoad := x.maxLoad, observedAt := Some(now))
  }

  function Smooth(alpha: real, m: Metric, now: Time): Metric {
    var ratio := EstimatedRatio(m, now);
    var mixed := if m.smoothedAt.None? then ratio else alpha * ratio + (1.0 - alpha) * m.smoothed;
    m.(smoothed := if ratio == 0.0 && mixed < Negligible then 0.0 else mixed, smoothedAt := Some(now))
  }

  function SampleOne(alpha: real, ms: LabMetrics, x: Server, now: Time): LabMetrics {
    ms[x.id := Smooth(alpha, Base(ms, x, now), now)]
  }

  function SampleAll(alpha: real, ms: LabMetrics, xs: seq<Server>, now: Time): LabMetrics {
    if xs == [] then ms
    else SampleOne(alpha, SampleAll(alpha, ms, xs[..|xs| - 1], now), xs[|xs| - 1], now)
  }

  /** The smoothed ratios of the instances just sampled. */
  function SmoothedLoads(alpha: real, ms: LabMetrics, xs: seq<Server>, now: Time): Loads {
    if xs == [] then map[]
    else
      var last := xs[|xs| - 1];
      SmoothedLoads(alpha, ms, xs[..|xs| - 1], now)[
        last.id := Smooth(alpha, Base(SampleAll(alpha, ms, xs[..|xs| - 1], now), last, now), now).smoothed]
  }

  /** The instance list the controller is willing to work on. */
  predicate Eligible(xs: seq<Server>) {
    xs != [] && forall i :: 0 <= i < |xs| ==> EligibleServer(xs[i])
  }

  predicate EligibleServer(x: Server) {
    x.id != "" && x.running && x.container != "" && x.speed > 0 && x.maxLoad > 0 && x.weight > 0
  }

  function Sample(c: Tuning, ms: AllMetrics, lab: LabId, xs: seq<Server>, now: Time): AllMetrics {
    ms[lab := SampleAll(c.alpha, Of(ms, lab), xs, now)]
  }

  /** Seconds a full instance needs to drain, rounded up, in nanoseconds. */
  function DrainTime(m: Metric): int {
    if m.speed <= 0 then 0 else (m.maxLoad + m.speed - 1) / m.speed * Second
  }

  predicate Forgotten(c: Tuning, m: Metric, now: Time) {
    && EstimatedLoad(m, now) == 0.0 && m.observedAt.Some? && m.observedAt.value <= now
    && now - m.observedAt.value > DrainTime(m) + c.freshness
  }

  function Kept(c: Tuning, ms: LabMetrics, now: Time): LabMetrics {
    map id | id in ms && !Forgotten(c, ms[id], now) :: ms[id]
  }

  function Prune(c: Tuning, ms: AllMetrics, now: Time): AllMetrics {
    map lab | lab in ms && Kept(c, ms[lab], now) != map[] :: Kept(c, ms[lab], now)
  }

  // ----- Runs --------------------------------------------------------------------

  datatype MetricEvent =
    | Observed(o: Observation)
    | Sampled(lab: LabId, xs: seq<Server>, now: Time)
    | Pruned(now: Time)

  function Step(c: Tuning, ms: AllMetrics, e: MetricEvent): AllMetrics {
    match e
    case Observed(o) => Observe(ms, o)
    case Sampled(lab, xs, now) => if Eligible(xs) then Sample(c, ms, lab, xs, now) else ms
    case Pruned(now) => Prune(c, ms, now)
  }

  function After(c: Tuning, ms: AllMetrics, run: seq<MetricEvent>): AllMetrics {
    if run == [] then ms else Step(c, After(c, ms, run[..|run| - 1]), run[|run| - 1])
  }

  predicate MetricOk(m: Metric) {
    && m.speed > 0 && m.maxLoad > 0 && m.observedAt.Some?
    && 0.0 <= m.load <= m.maxLoad as real && 0.0 <= m.smoothed <= 1.0
  }

  predicate LabOk(ms: LabMetrics) {
    forall id :: id in ms ==> MetricOk(ms[id])
  }

  predicate MetricsOk(ms: AllMetrics) {
    forall lab :: lab in ms ==> LabOk(ms[lab])
  }

  lemma EstimateInRange(m: Metric, now: Time)
    requires MetricOk(m)
    ensures 0.0 <= EstimatedLoad(m, now) <= m.load
    ensures 0.0 <= EstimatedRatio(m, now) <= 1.0
    ensures EstimatedRatio(m, now) == 0.0 <==> EstimatedLoad(m, now) == 0.0
  {
    var load, cap := EstimatedLoad(m, now), m.maxLoad as real;
    assert load / cap * cap == load;
    DrainNonNegative(m.speed, m.observedAt.value, now);
    QuotientInUnit(load, cap);
  }

  lemma DrainNonNegative(speed: int, since: Time, now: Time)
    requires speed > 0
    ensures speed as real * Elapsed(since, now) >= 0.0
  {}

  lemma QuotientInUnit(a: real, b: real)
    requires 0.0 <= a <= b && b > 0.0
    ensures 0.0 <= a / b <= 1.0 && (a / b == 0.0 <==> a == 0.0)
  {
    assert a / b * b == a;
  }

  lemma ProductInUnit(a: real, b: real)
    requires 0.0 <= a && 0.0 <= b <= 1.0
    ensures 0.0 <= a * b <= a
  {
    RealProductOrder(a, a, b, 1.0);
    RealProductOrder(0.0, a, 0.0, b);
  }

  lemma SumInUnit(a: real, b: real, c: real, d: real)
    requires 0.0 <= a <= c && 0.0 <= b <= d && c + d == 1.0
    ensures 0.0 <= a + b <= 1.0
  {}

  lemma MixInUnit(alpha: real, rest: real, a: real, b: real)
    requires 0.0 < alpha <= 1.0 && rest == 1.0 - alpha && 0.0 <= a <= 1.0 && 0.0 <= b <= 1.0
    ensures 0.0 <= alpha * a + rest * b <= 1.0
  {
    ProductInUnit(alpha, a);
    ProductInUnit(rest, b);
    SumInUnit(alpha * a, rest * b, alpha, rest);
  }

  lemma SmoothOk(alpha: real, m: Metric, now: Time)
    requires 0.0 < alpha <= 1.0 && MetricOk(m)
    ensures MetricOk(Smooth(alpha, m, now))
  {
    EstimateInRange(m, now);
    MixInUnit(alpha, 1.0 - alpha, EstimatedRatio(m, now), m.smoothed);
  }

  lemma {:induction false} SampleAllOk(alpha: real, ms: LabMetrics, xs: seq<Server>, now: Time)
    requires 0.0 < alpha <= 1.0 && LabOk(ms) && forall i :: 0 <= i < |xs| ==> EligibleServer(xs[i])
    ensures LabOk(SampleAll(alpha, ms, xs, now))
    ensures forall i :: 0 <= i < |xs| ==> 0.0 <= Ratio(SmoothedLoads(alpha, ms, xs, now), xs[i].id) <= 1.0
    ensures forall id :: id in SmoothedLoads(alpha, ms, xs, now) ==> 0.0 <= SmoothedLoads(alpha, ms, xs, now)[id] <= 1.0
  {
    if xs != [] {
      var front, last := xs[..|xs| - 1], xs[|xs| - 1];
      SampleAllOk(alpha, ms, front, now);
      SmoothOk(alpha, Base(SampleAll(alpha, ms, front, now), last, now), now);
    }
  }

  lemma StepKeepsMetrics(c: Tuning, ms: AllMetrics, e: MetricEvent)
    requires c.Valid() && MetricsOk(ms)
    ensures MetricsOk(Step(c, ms, e))
  {
    match e
    case Observed(o) =>
    case Sampled(lab, xs, now) =>
      if Eligible(xs) {
        SampleAllOk(c.alpha, Of(ms, lab), xs, now);
      }
    case Pruned(now) =>
  }

  /** In every reachable state the recorded load is between 0 and the maximum
      and the smoothed ratio between 0 and 1. */
  lemma {:induction false} ReachableMetricsOk(c: Tuning, run: seq<MetricEvent>)
    requires c.Valid()
    ensures MetricsOk(After(c, map[], run))
  {
    if run != [] {
      ReachableMetricsOk(c, run[..|run| - 1]);
      StepKeepsMetrics(c, After(c, map[], run[..|run| - 1]), run[|run| - 1]);
    }
  }

  /** The weights of eligible instances can always be computed from sampled loads. */
  lemma TargetNeverFails(c: Tuning, run: seq<MetricEvent>, lab: LabId, xs: seq<Server>, now: Time)
    requires c.Valid() && Eligible(xs)
    ensures ValidServers(xs, SmoothedLoads(c.alpha, Of(After(c, map[], run), lab), xs, now))
  {
    ReachableMetricsOk(c, run);
    SampleAllOk(c.alpha, Of(After(c, map[], run), lab), xs, now);
  }

  // ----- Idle instances ---------------------------------------------------------------

  function Power(base: real, k: nat): real {
    if k == 0 then 1.0 else base * Power(base, k - 1)
  }

  function Smoothed(ms: AllMetrics, lab: LabId, id: Name): real {
    Known(Of(ms, lab), id).smoothed
  }

  /** Nothing left to drain on instance `x` at time `from`: what is recorded, if
      anything, belongs to this instance and has an estimated ratio of 0. */
  predicate Drained(ms: AllMetrics, lab: LabId, x: Server, from: Time) {
    x.id in Of(ms, lab) ==> Matches(Of(ms, lab)[x.id], x) && EstimatedRatio(Of(ms, lab)[x.id], from) == 0.0
  }

  /** `xs` lists `x`'s id once, with the same container and load model. */
  predicate ListsOnce(xs: seq<Server>, x: Server) {
    DistinctIds(xs) && exists i :: 0 <= i < |xs| && xs[i].id == x.id && xs[i].container == x.container
                                   && xs[i].speed == x.speed && xs[i].maxLoad == x.maxLoad
  }

  /** An event without new traffic for the instance, not before `from`. */
  predicate Quiet(e: MetricEvent, lab: LabId, x: Server, from: Time) {
    match e
    case Observed(o) => !(o.lab == lab && o.target == x.id)
    case Sampled(l, xs, now) => l == lab ==> Eligible(xs) && ListsOnce(xs, x) && now >= from
    case Pruned(now) => true
  }

  predicate QuietRun(run: seq<MetricEvent>, lab: LabId, x: Server, from: Time) {
    forall i :: 0 <= i < |run| ==> Quiet(run[i], lab, x, from)
  }

  function Samples(run: seq<MetricEvent>, lab: LabId): nat {
    if run == [] then 0
    else Samples(run[..|run| - 1], lab) + if run[|run| - 1].Sampled? && run[|run| - 1].lab == lab then 1 else 0
  }

  lemma {:induction false} SampleOthers(alpha: real, ms: LabMetrics, xs: seq<Server>, now: Time, id: Name)
    requires forall i :: 0 <= i < |xs| ==> xs[i].id != id
    ensures id in SampleAll(alpha, ms, xs, now) <==> id in ms
    ensures id in ms ==> SampleAll(alpha, ms, xs, now)[id] == ms[id]
  {
    if xs != [] {
      SampleOthers(alpha, ms, xs[..|xs| - 1], now, id);
    }
  }

  /** With distinct ids, every instance is sampled once from what was recorded before. */
  lemma {:induction false} SampledOnce(alpha: real, ms: LabMetrics, xs: seq<Server>, now: Time, i: nat)
    requires DistinctIds(xs) && i < |xs|
    ensures xs[i].id in SampleAll(alpha, ms, xs, now)
    ensures SampleAll(alpha, ms, xs, now)[xs[i].id] == Smooth(alpha, Base(ms, xs[i], now), now)
  {
    var front := xs[..|xs| - 1];
    if i == |xs| - 1 {
      SampleOthers(alpha, ms, front, now, xs[i].id);
    } else {
      SampledOnce(alpha, ms, front, now, i);
      assert front[i] == xs[i];
    }
  }

  lemma StillDrained(m: Metric, from: Time, now: Time)
    requires MetricOk(m) && EstimatedRatio(m, from) == 0.0 && now >= from
    ensures EstimatedRatio(m, now) == 0.0
  {
    EstimateInRange(m, from);
    EstimateInRange(m, now);
    LongerDrainsMore(m.speed, m.observedAt.value, from, now);
  }

  lemma LongerDrainsMore(speed: int, since: Time, from: Time, now: Time)
    requires speed > 0 && now >= from
    ensures speed as real * Elapsed(since, now) >= speed as real * Elapsed(since, from)
  {
    assert Elapsed(since, now) >= Elapsed(since, from);
  }

  /** One sample of an idle instance. */
  lemma IdleSample(c: Tuning, ms: LabMetrics, x: Server, from: Time, now: Time)
    requires c.Valid() && LabOk(ms) && EligibleServer(x) && now >= from
    requires x.id in ms ==> Matches(ms[x.id], x) && EstimatedRatio(ms[x.id], from) == 0.0
    ensures var m := Smooth(c.alpha, Base(ms, x, now), now);
      && Matches(m, x) && EstimatedRatio(m, from) == 0.0
      && 0.0 <= m.smoothed <= (1.0 - c.alpha) * Known(ms, x.id).smoothed
      && (m.smoothed < Negligible ==> m.smoothed == 0.0)
  {
    var base := Base(ms, x, now);
    if x.id in ms {
      StillDrained(base, from, now);
    }
    assert EstimatedRatio(base, now) == 0.0;
    assert EstimatedRatio(base, from) == 0.0;
    assert c.alpha * 0.0 == 0.0;
    ProductInUnit(1.0 - c.alpha, base.smoothed);
  }

  lemma QuietObserve(ms: AllMetrics, lab: LabId, x: Server, o: Observation)
    requires !(o.lab == lab && o.target == x.id)
    ensures x.id in Of(Observe(ms, o), lab) <==> x.id in Of(ms, lab)
    ensures Known(Of(Observe(ms, o), lab), x.id) == Known(Of(ms, lab), x.id)
  {}

  lemma QuietPrune(c: Tuning, ms: AllMetrics, lab: LabId, x: Server, now: Time)
    ensures var kept := Of(Prune(c, ms, now), lab); x.id in kept ==> x.id in Of(ms, lab) && kept[x.id] == Of(ms, lab)[x.id]
  {}

  lemma QuietSample(c: Tuning, ms: AllMetrics, lab: LabId, x: Server, from: Time, xs: seq<Server>, now: Time)
    requires c.Valid() && LabOk(Of(ms, lab)) && EligibleServer(x) && Drained(ms, lab, x, from)
    requires ListsOnce(xs, x) && now >= from
    ensures var after := Sample(c, ms, lab, xs, now);
      && Drained(after, lab, x, from)
      && 0.0 <= Smoothed(after, lab, x.id) <= (1.0 - c.alpha) * Smoothed(ms, lab, x.id)
      && (Smoothed(after, lab, x.id) < Negligible ==> Smoothed(after, lab, x.id) == 0.0)
  {
    SampledAs(c, Of(ms, lab), xs, x, now);
    IdleSample(c, Of(ms, lab), x, from, now);
  }

  lemma SampledAs(c: Tuning, own: LabMetrics, xs: seq<Server>, x: Server, now: Time)
    requires ListsOnce(xs, x)
    ensures x.id in SampleAll(c.alpha, own, xs, now)
    ensures SampleAll(c.alpha, own, xs, now)[x.id] == Smooth(c.alpha, Base(own, x, now), now)
  {
    var i :| 0 <= i < |xs| && xs[i].id == x.id && xs[i].container == x.container
             && xs[i].speed == x.speed && xs[i].maxLoad == x.maxLoad;
    SampledOnce(c.alpha, own, xs, now, i);
    assert Base(own, xs[i], now) == Base(own, x, now);
  }

  /** The bound on the smoothed ratio of an idle instance after k samples. */
  predicate Decayed(c: Tuning, smoothed: real, k: nat) {
    && 0.0 <= smoothed <= Power(1.0 - c.alpha, k)
    && (k > 0 && Power(1.0 - c.alpha, k) < Negligible ==> smoothed == 0.0)
  }

  lemma DecaysOnce(c: Tuning, before: real, after: real, k: nat)
    requires c.Valid() && Decayed(c, before, k)
    requires 0.0 <= after <= (1.0 - c.alpha) * before && (after < Negligible ==> after == 0.0)
    ensures Decayed(c, after, k + 1)
  {
    RealProductOrder(1.0 - c.alpha, 1.0 - c.alpha, before, Power(1.0 - c.alpha, k));
  }

  /** While an instance stays idle, its smoothed ratio shrinks at least geometrically
      with the samples taken, and reaches exactly 0 once that bound is negligible. */
  lemma {:induction false} IdleDecays(c: Tuning, ms: AllMetrics, run: seq<MetricEvent>, lab: LabId, x: Server, from: Time)
    requires c.Valid() && MetricsOk(ms) && EligibleServer(x) && Drained(ms, lab, x, from) && QuietRun(run, lab, x, from)
    ensures MetricsOk(After(c, ms, run)) && Drained(After(c, ms, run), lab, x, from)
    ensures Decayed(c, Smoothed(After(c, ms, run), lab, x.id), Samples(run, lab))
  {
    if run == [] {
      assert MetricOk(Known(Of(ms, lab), x.id)) || Smoothed(ms, lab, x.id) == 0.0;
    } else {
      var front, e := run[..|run| - 1], run[|run| - 1];
      IdleDecays(c, ms, front, lab, x, from);
      var before, k := After(c, ms, front), Samples(front, lab);
      StepKeepsMetrics(c, before, e);
      PowerInUnit(1.0 - c.alpha, k);
      QuietKeepsDecay(c, before, e, lab, x, from, k);
    }
  }

  lemma QuietKeepsDecay(c: Tuning, ms: AllMetrics, e: MetricEvent, lab: LabId, x: Server, from: Time, k: nat)
    requires c.Valid() && LabOk(Of(ms, lab)) && EligibleServer(x) && Drained(ms, lab, x, from) && Quiet(e, lab, x, from)
    requires Decayed(c, Smoothed(ms, lab, x.id), k)
    ensures var after := Step(c, ms, e);
      && Drained(after, lab, x, from)
      && Decayed(c, Smoothed(after, lab, x.id), k + if e.Sampled? && e.lab == lab then 1 else 0)
  {
    match e
    case Observed(o) =>
      QuietObserve(ms, lab, x, o);
    case Pruned(now) =>
      QuietPrune(c, ms, lab, x, now);
    case Sampled(l, xs, now) =>
      if l == lab {
        QuietSample(c, ms, lab, x, from, xs, now);
        DecaysOnce(c, Smoothed(ms, lab, x.id), Smoothed(Step(c, ms, e), lab, x.id), k);
      }
  }

  lemma {:induction false} PowerInUnit(base: real, k: nat)
    requires 0.0 <= base <= 1.0
    ensures 0.0 <= Power(base, k) <= 1.0
  {
    if k > 0 {
      PowerInUnit(base, k - 1);
      ProductInUnit(base, Power(base, k - 1));
    }
  }

  lemma {:induction false} PowerFalls(base: real, j: nat, k: nat)
    requires 0.0 <= base <= 1.0 && j <= k
    ensures Power(base, k) <= Power(base, j)
  {
    if j < k {
      PowerFalls(base, j, k - 1);
      PowerInUnit(base, k - 1);
      RealProductOrder(base, 1.0, Power(base, k - 1), Power(base, k - 1));
    }
  }

  lemma HalfPowers()
    ensures Power(0.5, 10) == 1.0 / 1024.0 && Power(0.5, 11) == 1.0 / 2048.0
  {
    assert Power(0.5, 4) == 0.0625;
    assert Power(0.5, 8) == 0.00390625;
  }

  /** With the default factor of one half, eleven samples of an idle instance suffice. */
  lemma IdleReachesZero(c: Tuning, ms: AllMetrics, run: seq<MetricEvent>, lab: LabId, x: Server, from: Time)
    requires c.Valid() && c.alpha == 0.5
    requires MetricsOk(ms) && EligibleServer(x) && Drained(ms, lab, x, from) && QuietRun(run, lab, x, from)
    requires Samples(run, lab) >= 11
    ensures Smoothed(After(c, ms, run), lab, x.id) == 0.0
  {
    IdleDecays(c, ms, run, lab, x, from);
    HalfPowers();
    PowerFalls(0.5, 11, Samples(run, lab));
  }

  function Repeated(alpha: real, m: Metric, now: Time, k: nat): Metric {
    if k == 0 then m else Smooth(alpha, Repeated(alpha, m, now, k - 1), now)
  }

  /** Ten samples do not: from a full ratio they leave one in 1024. */
  lemma {:induction false} TenSamplesLeaveARest(m: Metric, k: nat, now: Time)
    requires k <= 10 && MetricOk(m) && EstimatedRatio(m, now) == 0.0
    requires m.smoothed == 1.0 && m.smoothedAt.Some?
    ensures Repeated(0.5, m, now, k).smoothed == Power(0.5, k) > Negligible
    ensures EstimatedRatio(Repeated(0.5, m, now, k), now) == 0.0 && Repeated(0.5, m, now, k).smoothedAt.Some?
  {
    HalfPowers();
    PowerFalls(0.5, k, 10);
    if k > 0 {
      TenSamplesLeaveARest(m, k - 1, now);
      HalvedSample(Repeated(0.5, m, now, k - 1), now);
    }
  }

  lemma HalvedSample(m: Metric, now: Time)
    requires EstimatedRatio(m, now) == 0.0 && m.smoothedAt.Some? && 0.5 * m.smoothed >= Negligible
    ensures var after := Smooth(0.5, m, now);
      after.smoothed == 0.5 * m.smoothed && EstimatedRatio(after, now) == 0.0 && after.smoothedAt.Some?
  {
  }
}
