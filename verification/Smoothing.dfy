/** Smoothed load ratios follow the load: they close in on it geometrically, and on no load exactly. */
module Smoothing {
  import opened Domain
  import opened ById
  import opened Weights
  import opened Metrics

  function Gap(a: real, b: real): real { if a >= b then a - b else b - a }

  predicate Between(x: real, a: real, b: real) { Least(a, b) <= x <= Greatest(a, b) }

  /** The rest of an idle instance below 0.0005 counts as nothing. */
  predicate CutOff(ratio: real, mixed: real) { ratio == 0.0 && mixed < 0.0005 }

  // ----- One sample -----------------------------------------------------------------

  lemma MixLies(alpha: real, ratio: real, before: real)
    requires 0.0 < alpha <= 1.0
    ensures var mixed := alpha * ratio + (1.0 - alpha) * before;
      && mixed - ratio == (1.0 - alpha) * (before - ratio)
      && Between(mixed, ratio, before)
  {
    Distribute(alpha, ratio, before);
    PartBetween(alpha * ratio + (1.0 - alpha) * before, ratio, before, 1.0 - alpha);
  }

  /** A part of the way from `a` to `b`. */
  lemma PartBetween(x: real, a: real, b: real, part: real)
    requires 0.0 <= part <= 1.0 && x - a == part * (b - a)
    ensures Between(x, a, b)
  {
    PartWithin(x - a, b - a, part);
  }

  lemma PartWithin(p: real, d: real, part: real)
    requires 0.0 <= part <= 1.0 && p == part * d
    ensures Between(p, 0.0, d)
  {
    if d >= 0.0 {
      ProductInUnit(d, part);
    } else {
      ProductInUnit(-d, part);
      Opposite(part, d);
    }
  }

  lemma Distribute(alpha: real, ratio: real, before: real)
    ensures alpha * ratio + (1.0 - alpha) * before - ratio == (1.0 - alpha) * (before - ratio)
  {}

  lemma Opposite(a: real, b: real)
    ensures a * (-b) == -(a * b)
  {}

  /** A first sample takes the estimated ratio; a later one lies between that and the last, and its distance from
      the ratio is what is left of the old distance by the factor 1 - alpha, unless a rest is cut off. */
  lemma SampleFollowsLoad(alpha: real, m: Metric, now: Time)
    requires 0.0 < alpha <= 1.0 && MetricOk(m)
    ensures var ratio, after := EstimatedRatio(m, now), Smooth(alpha, m, now).smoothed;
      && Smooth(alpha, m, now).smoothedAt == Some(now)
      && (m.smoothedAt.None? ==> after == ratio)
      && (m.smoothedAt.Some? ==>
            && Between(after, ratio, m.smoothed)
            && (after - ratio == (1.0 - alpha) * (m.smoothed - ratio)
                || (after == 0.0 && CutOff(ratio, ratio + (1.0 - alpha) * (m.smoothed - ratio))))
            && Gap(after, ratio) <= (1.0 - alpha) * Gap(m.smoothed, ratio))
  {
    var ratio := EstimatedRatio(m, now);
    EstimateInRange(m, now);
    if m.smoothedAt.Some? {
      MixLies(alpha, ratio, m.smoothed);
      GapShrinks(alpha, ratio, m.smoothed, Smooth(alpha, m, now).smoothed);
    }
  }

  lemma GapShrinks(alpha: real, ratio: real, before: real, after: real)
    requires 0.0 < alpha <= 1.0 && 0.0 <= before
    requires after - ratio == (1.0 - alpha) * (before - ratio) || after == ratio == 0.0
    ensures Gap(after, ratio) <= (1.0 - alpha) * Gap(before, ratio)
  {
    if before >= ratio {
      ProductInUnit(before - ratio, 1.0 - alpha);
    } else {
      ProductInUnit(ratio - before, 1.0 - alpha);
      assert ratio - after == (1.0 - alpha) * (ratio - before) || after == ratio;
    }
  }

  // ----- Runs at one level of load ---------------------------------------------------------

  /** What is recorded of an instance and was sampled before is no further than `far` from `level`. */
  predicate Near(ms: AllMetrics, lab: LabId, id: Name, level: real, far: real) {
    id in Of(ms, lab) && Of(ms, lab)[id].smoothedAt.Some? ==> Gap(Of(ms, lab)[id].smoothed, level) <= far
  }

  /** Whatever else happens, each sample of the lab lists the instance once and estimates its load at `level`. */
  predicate AtLevel(ms: AllMetrics, e: MetricEvent, lab: LabId, x: Server, level: real) {
    e.Sampled? && e.lab == lab ==>
      Eligible(e.xs) && ListsOnce(e.xs, x) && EstimatedRatio(Base(Of(ms, lab), x, e.now), e.now) == level
  }

  predicate LevelRun(c: Tuning, ms: AllMetrics, run: seq<MetricEvent>, lab: LabId, x: Server, level: real) {
    run != [] ==>
      && LevelRun(c, ms, run[..|run| - 1], lab, x, level)
      && AtLevel(After(c, ms, run[..|run| - 1]), run[|run| - 1], lab, x, level)
  }

  lemma BaseOk(ms: LabMetrics, x: Server, now: Time)
    requires LabOk(ms) && EligibleServer(x)
    ensures MetricOk(Base(ms, x, now))
  {}

  lemma SmoothComesNearer(alpha: real, m: Metric, now: Time, far: real, bound: real)
    requires 0.0 < alpha <= 1.0 && MetricOk(m) && 0.0 <= far && bound == (1.0 - alpha) * far
    requires m.smoothedAt.Some? ==> Gap(m.smoothed, EstimatedRatio(m, now)) <= far
    ensures Gap(Smooth(alpha, m, now).smoothed, EstimatedRatio(m, now)) <= bound
  {
    SampleFollowsLoad(alpha, m, now);
    if m.smoothedAt.Some? {
      RealProductOrder(1.0 - alpha, 1.0 - alpha, Gap(m.smoothed, EstimatedRatio(m, now)), far);
    } else {
      RealProductOrder(0.0, 1.0 - alpha, 0.0, far);
    }
  }

  lemma SampleComesNearer(c: Tuning, ms: AllMetrics, lab: LabId, x: Server, xs: seq<Server>, now: Time, level: real,
                          far: real, bound: real)
    requires c.Valid() && LabOk(Of(ms, lab)) && EligibleServer(x) && ListsOnce(xs, x) && far >= 0.0
    requires EstimatedRatio(Base(Of(ms, lab), x, now), now) == level && Near(ms, lab, x.id, level, far)
    requires bound == (1.0 - c.alpha) * far
    ensures Near(Sample(c, ms, lab, xs, now), lab, x.id, level, bound)
  {
    SampledAs(c, Of(ms, lab), xs, x, now);
    BaseOk(Of(ms, lab), x, now);
    SmoothComesNearer(c.alpha, Base(Of(ms, lab), x, now), now, far, bound);
  }

  lemma OtherStaysNear(c: Tuning, ms: AllMetrics, e: MetricEvent, lab: LabId, id: Name, level: real, far: real)
    requires Near(ms, lab, id, level, far) && !(e.Sampled? && e.lab == lab)
    ensures Near(Step(c, ms, e), lab, id, level, far)
  {}

  /** What is left of `far` after k samples. */
  function Left(rest: real, k: nat, far: real): real {
    if k == 0 then far else rest * Left(rest, k - 1, far)
  }

  lemma {:induction false} LeftIsPower(rest: real, k: nat, far: real)
    requires 0.0 <= rest && 0.0 <= far
    ensures Left(rest, k, far) == Power(rest, k) * far >= 0.0
  {
    if k > 0 {
      LeftIsPower(rest, k - 1, far);
      Associate(rest, Power(rest, k - 1), far);
      RealProductOrder(0.0, rest, 0.0, Left(rest, k - 1, far));
    }
  }

  lemma Associate(a: real, b: real, c: real)
    ensures a * (b * c) == (a * b) * c
  {}

  lemma StepComesNearer(c: Tuning, ms: AllMetrics, e: MetricEvent, lab: LabId, x: Server, level: real, k: nat, far: real)
    requires c.Valid() && LabOk(Of(ms, lab)) && EligibleServer(x) && AtLevel(ms, e, lab, x, level) && far >= 0.0
    requires Near(ms, lab, x.id, level, Left(1.0 - c.alpha, k, far))
    ensures var more := if e.Sampled? && e.lab == lab then 1 else 0;
      Near(Step(c, ms, e), lab, x.id, level, Left(1.0 - c.alpha, k + more, far))
  {
    if e.Sampled? && e.lab == lab {
      LeftIsPower(1.0 - c.alpha, k, far);
      SampleComesNearer(c, ms, lab, x, e.xs, e.now, level, Left(1.0 - c.alpha, k, far), Left(1.0 - c.alpha, k + 1, far));
    } else {
      OtherStaysNear(c, ms, e, lab, x.id, level, Left(1.0 - c.alpha, k, far));
    }
  }

  lemma {:induction false} StaysNear(c: Tuning, ms: AllMetrics, run: seq<MetricEvent>, lab: LabId, x: Server, level: real, far: real)
    requires c.Valid() && MetricsOk(ms) && EligibleServer(x) && LevelRun(c, ms, run, lab, x, level)
    requires far >= 0.0 && Near(ms, lab, x.id, level, far)
    ensures MetricsOk(After(c, ms, run))
    ensures Near(After(c, ms, run), lab, x.id, level, Left(1.0 - c.alpha, Samples(run, lab), far))
  {
    if run != [] {
      var front, e := run[..|run| - 1], run[|run| - 1];
      StaysNear(c, ms, front, lab, x, level, far);
      StepKeepsMetrics(c, After(c, ms, front), e);
      StepComesNearer(c, After(c, ms, front), e, lab, x, level, Samples(front, lab), far);
    }
  }

  /** While an instance is loaded at one level, its smoothed ratio comes nearer to it by the factor 1 - alpha with
      every sample, whatever is observed and dropped between them. */
  lemma ClosesIn(c: Tuning, ms: AllMetrics, run: seq<MetricEvent>, lab: LabId, x: Server, level: real, far: real)
    requires c.Valid() && MetricsOk(ms) && EligibleServer(x) && LevelRun(c, ms, run, lab, x, level)
    requires far >= 0.0 && Near(ms, lab, x.id, level, far)
    ensures Near(After(c, ms, run), lab, x.id, level, Remains(c.alpha, Samples(run, lab), far))
  {
    StaysNear(c, ms, run, lab, x, level, far);
    LeftRemains(After(c, ms, run), lab, x.id, level, c.alpha, Samples(run, lab), far);
  }

  lemma LeftRemains(ms: AllMetrics, lab: LabId, id: Name, level: real, alpha: real, k: nat, far: real)
    requires 0.0 < alpha <= 1.0 && 0.0 <= far && Near(ms, lab, id, level, Left(1.0 - alpha, k, far))
    ensures Near(ms, lab, id, level, Remains(alpha, k, far))
  {
    LeftIsPower(1.0 - alpha, k, far);
  }

  function Remains(alpha: real, k: nat, far: real): real {
    Power(1.0 - alpha, k) * far
  }

  /** An idle instance is loaded at level zero. */
  lemma {:induction false} IdleIsLevel(c: Tuning, ms: AllMetrics, run: seq<MetricEvent>, lab: LabId, x: Server, from: Time)
    requires c.Valid() && MetricsOk(ms) && EligibleServer(x) && Drained(ms, lab, x, from) && QuietRun(run, lab, x, from)
    ensures LevelRun(c, ms, run, lab, x, 0.0)
  {
    if run != [] {
      var front, e := run[..|run| - 1], run[|run| - 1];
      IdleIsLevel(c, ms, front, lab, x, from);
      IdleDecays(c, ms, front, lab, x, from);
      if e.Sampled? && e.lab == lab {
        assert Quiet(e, lab, x, from);
        IdleBase(Of(After(c, ms, front), lab), x, from, e.now);
      }
    }
  }

  lemma IdleBase(ms: LabMetrics, x: Server, from: Time, now: Time)
    requires LabOk(ms) && EligibleServer(x) && now >= from
    requires x.id in ms ==> Matches(ms[x.id], x) && EstimatedRatio(ms[x.id], from) == 0.0
    ensures EstimatedRatio(Base(ms, x, now), now) == 0.0
  {
    if x.id in ms {
      StillDrained(ms[x.id], from, now);
    }
  }

  // ----- What a sample works with ------------------------------------------------------------

  /** The ratios a sample hands out are those it records. */
  lemma {:induction false} LoadsAreRecorded(alpha: real, ms: LabMetrics, xs: seq<Server>, now: Time, id: Name)
    requires exists i :: 0 <= i < |xs| && xs[i].id == id
    ensures id in SmoothedLoads(alpha, ms, xs, now) && id in SampleAll(alpha, ms, xs, now)
    ensures SmoothedLoads(alpha, ms, xs, now)[id] == SampleAll(alpha, ms, xs, now)[id].smoothed
  {
    var front, last := xs[..|xs| - 1], xs[|xs| - 1];
    if last.id != id {
      var i :| 0 <= i < |xs| && xs[i].id == id;
      assert front[i].id == id;
      LoadsAreRecorded(alpha, ms, front, now, id);
    }
  }

  /** An instance not recorded, or recorded with another container, speed or maximum, starts from nothing. */
  lemma ChangedStartsAfresh(alpha: real, ms: LabMetrics, xs: seq<Server>, now: Time, i: nat)
    requires DistinctIds(xs) && i < |xs| && xs[i].speed > 0 && xs[i].maxLoad > 0
    requires xs[i].id in ms ==>
      ms[xs[i].id].container != xs[i].container || ms[xs[i].id].speed != xs[i].speed || ms[xs[i].id].maxLoad != xs[i].maxLoad
    ensures xs[i].id in SmoothedLoads(alpha, ms, xs, now) && SmoothedLoads(alpha, ms, xs, now)[xs[i].id] == 0.0
  {
    LoadsAreRecorded(alpha, ms, xs, now, xs[i].id);
    SampledOnce(alpha, ms, xs, now, i);
    assert EstimatedRatio(Base(ms, xs[i], now), now) == 0.0;
  }

  /** A usable observation that is not older than the last is what the load is estimated from: in full at its time,
      less by the speed for every second since, and never below nothing. No other instance is affected. */
  lemma ObservedIsEstimated(ms: AllMetrics, o: Observation, now: Time)
    requires Usable(o) && !Outdated(Known(Of(ms, o.lab), o.target), o)
    ensures var own := Of(Observe(ms, o), o.lab);
      && o.target in own && own[o.target].smoothed == Known(Of(ms, o.lab), o.target).smoothed
      && own[o.target].smoothedAt == Known(Of(ms, o.lab), o.target).smoothedAt
      && EstimatedLoad(own[o.target], now) == Drains(o.load, o.speed, o.observedAt.value, now)
      && Matches(own[o.target], o.instance)
      && forall id :: id != o.target ==> (id in own <==> id in Of(ms, o.lab)) && Known(own, id) == Known(Of(ms, o.lab), id)
  {}

  /** What is left at `now` of a load at `since` that is worked off at `speed` per second. */
  function Drains(load: real, speed: int, since: Time, now: Time): real {
    var rest := if now <= since then load else load - speed as real * ((now - since) as real / 1_000_000_000.0);
    if rest < 0.0 then 0.0 else rest
  }

  /** Whole seconds in which an instance works off a full load. */
  predicate DrainsWithin(speed: int, maxLoad: int, seconds: int) {
    (seconds - 1) * speed < maxLoad <= seconds * speed
  }

  lemma CeilingQuotient(a: int, b: int)
    requires a > 0 && b > 0
    ensures DrainsWithin(b, a, (a + b - 1) / b)
  {
    var q := (a + b - 1) / b;
    assert b * q <= a + b - 1 < b * (q + 1);
  }

  lemma LongIdleIsDrained(m: Metric, seconds: int, now: Time)
    requires MetricOk(m) && DrainsWithin(m.speed, m.maxLoad, seconds) && now - m.observedAt.value > seconds * Second && seconds >= 0
    ensures EstimatedLoad(m, now) == 0.0
  {
    var elapsed := Elapsed(m.observedAt.value, now);
    assert elapsed * Second as real == (now - m.observedAt.value) as real;
    assert elapsed >= seconds as real;
    RealProductOrder(m.speed as real, m.speed as real, seconds as real, elapsed);
    assert m.speed as real * seconds as real == (m.speed * seconds) as real;
  }

  /** Clean-up drops an instance exactly if its last observation is older than it takes to work off a full load,
      in whole seconds, and the freshness time on top. */
  lemma PrunedIff(c: Tuning, ms: AllMetrics, lab: LabId, id: Name, now: Time, seconds: int)
    requires c.Valid() && MetricsOk(ms) && id in Of(ms, lab)
    requires seconds >= 0 && DrainsWithin(Of(ms, lab)[id].speed, Of(ms, lab)[id].maxLoad, seconds)
    ensures var m := Of(ms, lab)[id];
      id in Of(Prune(c, ms, now), lab) <==> now - m.observedAt.value <= seconds * Second + c.freshness
  {
    var m := Of(ms, lab)[id];
    assert MetricOk(m);
    CeilingQuotient(m.maxLoad, m.speed);
    OneCeiling(m.speed, m.maxLoad, seconds, (m.maxLoad + m.speed - 1) / m.speed);
    if now - m.observedAt.value > seconds * Second + c.freshness {
      LongIdleIsDrained(m, seconds, now);
    }
    KeptStays(c, ms, lab, id, now);
  }

  lemma KeptStays(c: Tuning, ms: AllMetrics, lab: LabId, id: Name, now: Time)
    requires id in Of(ms, lab)
    ensures id in Of(Prune(c, ms, now), lab) <==> !Forgotten(c, Of(ms, lab)[id], now)
  {
    assert !Forgotten(c, Of(ms, lab)[id], now) ==> id in Kept(c, ms[lab], now);
  }

  lemma OneCeiling(speed: int, maxLoad: int, a: int, b: int)
    requires speed > 0 && DrainsWithin(speed, maxLoad, a) && DrainsWithin(speed, maxLoad, b)
    ensures a == b
  {
    if a < b {
      ProductOrder(speed, a, b - 1);
    } else if b < a {
      ProductOrder(speed, b, a - 1);
    }
  }
}
