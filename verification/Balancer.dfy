/**
 The adaptive controller as an object: control states and load metrics by lab,
 updated in place by observations and samples.
 */
module Balancer {
  import opened Domain
  import opened ById
  import opened Weights
  import M = Metrics
  import opened Algorithm
  import C = Controller

  method EligibleInstances(instances: seq<Server>) returns (eligible: bool)
    ensures eligible == M.Eligible(instances)
  {
    if |instances| == 0 {
      return false;
    }
    for i := 0 to |instances|
      invariant forall k :: 0 <= k < i ==> M.EligibleServer(instances[k])
    {
      var x := instances[i];
      if x.id == "" || !x.running || x.container == "" || x.speed <= 0 || x.maxLoad <= 0 || x.weight <= 0 {
        assert !M.EligibleServer(instances[i]);
        return false;
      }
    }
    return true;
  }

  function ControlOf(states: map<LabId, C.Control>, lab: LabId): C.Control {
    if lab in states then states[lab] else C.Fresh
  }

  class AdaptiveController {
    const tuning: M.Tuning
    var states: map<LabId, C.Control>
    var metrics: M.AllMetrics

    constructor (tuning: M.Tuning)
      requires tuning.Valid()
      ensures this.tuning == tuning && states == map[] && metrics == map[]
    {
      this.tuning := tuning;
      states, metrics := map[], map[];
    }

    /** Records one traffic result. */
    method Observe(o: M.Observation)
      modifies this`metrics
      ensures metrics == M.Observe(old(metrics), o)
    {
      if !M.Usable(o) {
        return;
      }
      var instances := M.Of(metrics, o.lab);
      var metric := M.Known(instances, o.target);
      if metric.observedAt.Some? && o.observedAt.value < metric.observedAt.value {
        return;
      }
      metric := metric.(load := o.load, container := o.instance.container, speed := o.speed, maxLoad := o.maxLoad,
        observedAt := o.observedAt);
      if o.dropped > 0 {
        metric := metric.(lastDropped := o.observedAt);
      }
      metrics := metrics[o.lab := instances[o.target := metric]];
    }

    method SmoothOne(metric: M.Metric, now: Time) returns (r: M.Metric)
      ensures r == M.Smooth(tuning.alpha, metric, now)
    {
      var ratio := M.EstimatedRatio(metric, now);
      var smoothed := ratio;
      if metric.smoothedAt.Some? {
        smoothed := tuning.alpha * ratio + (1.0 - tuning.alpha) * metric.smoothed;
      }
      if ratio == 0.0 && smoothed < M.Negligible {
        smoothed := 0.0;
      }
      return metric.(smoothed := smoothed, smoothedAt := Some(now));
    }

    /** Smooths the load of every listed instance. */
    method SampleLoadRatios(lab: LabId, instances: seq<Server>, now: Time) returns (ratios: Loads)
      modifies this`metrics
      ensures metrics == M.Sample(tuning, old(metrics), lab, instances, now)
      ensures ratios == M.SmoothedLoads(tuning.alpha, M.Of(old(metrics), lab), instances, now)
    {
      ghost var start := M.Of(metrics, lab);
      var own := M.Of(metrics, lab);
      ratios := map[];
      for i := 0 to |instances|
        invariant metrics == old(metrics) && own == M.SampleAll(tuning.alpha, start, instances[..i], now)
        invariant ratios == M.SmoothedLoads(tuning.alpha, start, instances[..i], now)
      {
        var x := instances[i];
        assert instances[..i + 1][..i] == instances[..i];
        var metric := M.Unseen.(container := x.container, speed := x.speed, maxLoad := x.maxLoad, observedAt := Some(now));
        if x.id in own && M.Matches(own[x.id], x) {
          metric := own[x.id];
        }
        metric := SmoothOne(metric, now);
        own := own[x.id := metric];
        ratios := ratios[x.id := metric.smoothed];
      }
      assert instances[..|instances|] == instances;
      metrics := metrics[lab := own];
    }

    /** Reads the instances and their loads; loads are sampled only for eligible instances. */
    method Inspect(lab: LabId, instances: seq<Server>, now: Time) returns (view: C.View)
      modifies this`metrics
      ensures view == C.Look(instances, M.SmoothedLoads(tuning.alpha, M.Of(old(metrics), lab), instances, now))
      ensures metrics == M.Step(tuning, old(metrics), M.Sampled(lab, instances, now))
    {
      var eligible := EligibleInstances(instances);
      if !eligible {
        return C.Unfit;
      }
      var loads := SampleLoadRatios(lab, instances, now);
      var target := TargetWeights(instances, loads);
      if target.None? {
        return C.Unfit;
      }
      var within := WeightsWithinShareThreshold(instances, target.value);
      return C.Fit(C.ConfigPrint(instances), target.value, within);
    }

    /** Looks after the outstanding adjustment; the store is asked about it only if there is one. */
    method Settle(state: C.Control, lookup: C.Lookup, now: Time) returns (r: C.Settlement)
      requires tuning.Valid()
      ensures r == C.Settle(tuning, state, lookup, now)
    {
      if state.op.None? {
        return C.Go(state);
      }
      match lookup {
        case Unreadable => return C.Stop(state, C.Aborted);
        case OddStatus => return C.Stop(state, C.Aborted);
        case StillInFlight => return C.Stop(state.(status := C.Converging), C.Waiting);
        case Applied(skipped) =>
          var done := state.(op := None, failures := 0, nextRetry := None, fault := None);
          if skipped {
            return C.Stop(done.(samples := 0, stable := 0, status := C.Converging), C.Superseded);
          }
          return C.Stop(done.(stable := tuning.stableSamples, status := C.Stable), C.Confirmed);
        case Refuted(code) =>
          var failures := state.failures + 1;
          return C.Go(state.(op := None, failures := failures, nextRetry := Some(now + C.Backoff(tuning, failures)),
                             status := C.Degraded, fault := Some(code)));
      }
    }

    /** One sample of one lab. The store's replies are inputs. A sample that is given up leaves the
        control state as it was. */
    method SampleLab(lab: LabId, instances: seq<Server>, now: Time, lookup: C.Lookup, idMade: bool, answer: C.Answer)
      returns (note: C.Note, ghost view: C.View)
      requires tuning.Valid()
      modifies this
      ensures view == C.Look(instances, M.SmoothedLoads(tuning.alpha, M.Of(old(metrics), lab), instances, now))
      ensures var before := ControlOf(old(states), lab);
        var (after, ended) := C.SampleLab(tuning, before, C.Reading(view, now, lookup, idMade, answer));
        note == ended && states == if note.Aborted? then old(states) else old(states)[lab := after]
      ensures metrics == if C.Settle(tuning, ControlOf(old(states), lab), lookup, now).Stop? then old(metrics)
                         else M.Step(tuning, old(metrics), M.Sampled(lab, instances, now))
    {
      var state := ControlOf(states, lab);
      view := C.Look(instances, M.SmoothedLoads(tuning.alpha, M.Of(metrics, lab), instances, now));
      var settled := Settle(state, lookup, now);
      if settled.Stop? {
        if !settled.note.Aborted? {
          states := states[lab := settled.state];
        }
        return settled.note, view;
      }
      var seen := Inspect(lab, instances, now);
      note := Conclude(lab, state, settled.state, seen, now, lookup, idMade, answer);
    }

    method Conclude(lab: LabId, ghost before: C.Control, settled: C.Control, view: C.View, now: Time,
                    ghost lookup: C.Lookup, idMade: bool, answer: C.Answer) returns (note: C.Note)
      requires tuning.Valid() && C.Settle(tuning, before, lookup, now) == C.Go(settled)
      modifies this`states
      ensures var (after, ended) := C.SampleLab(tuning, before, C.Reading(view, now, lookup, idMade, answer));
        note == ended && states == if note.Aborted? then old(states) else old(states)[lab := after]
    {
      if view.Unfit? {
        states := states[lab := settled.(config := None, samples := 0, stable := 0, status := C.Converging, targets := [])];
        return C.Unusable;
      }
      note := Decide(lab, before, settled, view, now, lookup, idMade, answer);
    }

    /** The rest of a sample, once there are target weights. */
    method Decide(lab: LabId, ghost before: C.Control, settled: C.Control, view: C.View, now: Time,
                  ghost lookup: C.Lookup, idMade: bool, answer: C.Answer) returns (note: C.Note)
      requires tuning.Valid() && view.Fit?
      modifies this`states
      ensures var (after, ended) := C.Decide(tuning, before, settled, C.Reading(view, now, lookup, idMade, answer));
        note == ended && states == if note.Aborted? then old(states) else old(states)[lab := after]
    {
      var state := settled;
      if state.config != Some(view.config) {
        state := state.(config := Some(view.config), samples := 1, stable := 0, failures := 0, nextRetry := None, fault := None);
      } else if state.samples < tuning.stableSamples {
        state := state.(samples := state.samples + 1);
      }
      state := state.(targets := view.targets);
      if state.samples < tuning.stableSamples {
        states := states[lab := state.(status := C.Converging)];
        return C.Gathering;
      }
      if view.within {
        if state.stable < tuning.stableSamples {
          state := state.(stable := state.stable + 1);
        }
        state := state.(status := if state.stable >= tuning.stableSamples then C.Stable else C.Converging,
          failures := 0, nextRetry := None, fault := None);
        states := states[lab := state];
        return C.Calm;
      }
      state := state.(stable := 0);
      if state.nextRetry.Some? && now < state.nextRetry.value {
        states := states[lab := state.(status := C.Degraded)];
        return C.Retrying;
      }
      if !idMade {
        return C.Aborted;
      }
      match answer {
        case Queued(op) => state := state.(op := Some(op), status := C.Converging);
        case AnswerBusy => state := state.(status := C.Converging);
        case AnswerNoChange => state := state.(status := C.Stable, stable := tuning.stableSamples);
        case AnswerStale => state := state.(samples := 0, stable := 0, status := C.Converging);
        case AnswerError =>
          state := state.(failures := state.failures + 1, nextRetry := Some(now + C.Backoff(tuning, state.failures + 1)),
            status := C.Degraded, fault := Some("BALANCER_UNAVAILABLE"));
      }
      states := states[lab := state];
      return C.Asked(answer);
    }

    /** The end of a round: labs no longer listed lose their control state, and drained metrics are dropped. */
    method EndRound(seen: set<LabId>, now: Time)
      modifies this
      ensures states == map lab | lab in old(states) && lab in seen :: old(states)[lab]
      ensures metrics == M.Prune(tuning, old(metrics), now)
    {
      DropUnlisted(seen);
      DropDrained(now);
    }

    method DropUnlisted(seen: set<LabId>)
      modifies this`states
      ensures states == map lab | lab in old(states) && lab in seen :: old(states)[lab]
    {
      ghost var before := states;
      var left := states.Keys;
      while left != {}
        invariant forall lab :: lab in states <==> lab in before && (lab in left || lab in seen)
        invariant forall lab :: lab in states ==> states[lab] == before[lab]
        decreases |left|
      {
        var lab :| lab in left;
        left := left - {lab};
        if lab !in seen {
          states := map l | l in states && l != lab :: states[l];
        }
      }
    }

    method DropDrained(now: Time)
      modifies this`metrics
      ensures metrics == M.Prune(tuning, old(metrics), now)
    {
      var pruned: M.AllMetrics := map[];
      var labs := metrics.Keys;
      while labs != {}
        invariant metrics == old(metrics)
        invariant forall lab :: lab in labs ==> lab in metrics
        invariant forall lab :: lab in pruned <==> lab in metrics && lab !in labs && M.Kept(tuning, metrics[lab], now) != map[]
        invariant forall lab :: lab in pruned ==> pruned[lab] == M.Kept(tuning, metrics[lab], now)
        decreases |labs|
      {
        var lab :| lab in labs;
        labs := labs - {lab};
        var kept := M.Kept(tuning, metrics[lab], now);
        if kept != map[] {
          pruned := pruned[lab := kept];
        }
      }
      metrics := pruned;
    }
  }
}
