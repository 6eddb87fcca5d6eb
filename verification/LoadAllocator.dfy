/**
 The load model of an application instance: a leaky bucket that admits whole
 units, and the result it reports for every batch.
 */
module LoadAllocator {
  import opened Domain
  import opened ById
  import opened Weights
  import opened Metrics

  const Slack: real := 0.000000001

  datatype Model = Model(lab: LabId, instance: Name, speed: int, maxLoad: int) {
    predicate Valid() {
      lab != "" && instance != "" && speed > 0 && maxLoad > 0
    }
  }

  datatype Load = Load(current: real, at: Option<Time>)

  const Empty: Load := Load(0.0, None)

  datatype Request = Request(batch: string, product: nat, units: int) {
    predicate Valid() {
      batch != "" && product != 0 && units > 0
    }
  }

  datatype BatchStatus = BatchAccepted | PartiallyAccepted | BatchDropped
  datatype LoadLevel = Idle | Normal | High | Overloaded

  datatype BatchResult = BatchResult(
    batch: string,
    lab: LabId,
    status: BatchStatus,
    occurredAt: Time,
    target: Name,
    received: int,
    accepted: int,
    dropped: int,
    speed: int,
    maxLoad: int,
    load: real,
    ratio: real,
    level: LoadLevel,
    observedAt: Time)

  /** Rounding to three places, of a number that is not negative. */
  function RoundThree(x: real): real { Round(x * 1000.0) as real / 1000.0 }

  function Level(ratio: real): LoadLevel {
    if ratio <= 0.3 then Idle else if ratio <= 0.7 then Normal else if ratio < 1.0 then High else Overloaded
  }

  /** What is left of the load when a batch arrives. */
  function Settled(c: Model, s: Load, now: Time): real {
    Greatest(0.0, s.current - c.speed as real * if s.at.Some? then Elapsed(s.at.value, now) else 0.0)
  }

  /** Whole units that still fit. */
  function Room(c: Model, settled: real): int {
    (Greatest(0.0, c.maxLoad as real - settled) + Slack).Floor
  }

  function Admitted(c: Model, settled: real, units: int): int {
    if units <= Room(c, settled) then units else Room(c, settled)
  }

  function Filled(c: Model, settled: real, units: int): real {
    Least(c.maxLoad as real, settled + Admitted(c, settled, units) as real)
  }

  /** Units a batch gets, and the load after it. */
  function Taken(c: Model, s: Load, q: Request, now: Time): int { Admitted(c, Settled(c, s, now), q.units) }
  function Loaded(c: Model, s: Load, q: Request, now: Time): Load { Load(Filled(c, Settled(c, s, now), q.units), Some(now)) }

  function Allocate(c: Model, s: Load, q: Request, now: Time): (BatchResult, Load)
    requires c.Valid()
  {
    var accepted := Taken(c, s, q, now);
    var next := Loaded(c, s, q, now).current;
    var ratio := RoundThree(next / c.maxLoad as real);
    var status :=
      if accepted == 0 then BatchDropped else if q.units - accepted > 0 then PartiallyAccepted else BatchAccepted;
    (BatchResult(q.batch, c.lab, status, now, c.instance, q.units, accepted, q.units - accepted, c.speed, c.maxLoad,
                 RoundThree(next), ratio, Level(ratio), now),
     Loaded(c, s, q, now))
  }

  // ----- One batch ------------------------------------------------------------------

  predicate InRange(c: Model, s: Load) {
    0.0 <= s.current <= c.maxLoad as real && (s.at.None? ==> s.current == 0.0)
  }

  lemma SettledInRange(c: Model, s: Load, now: Time)
    requires c.Valid() && InRange(c, s)
    ensures 0.0 <= Settled(c, s, now) <= s.current
  {
    if s.at.Some? {
      DrainNonNegative(c.speed, s.at.value, now);
    }
  }

  /** Load conservation over one batch: the load grows by the accepted units, up to the slack
      of the unit count, and units are turned away only where less than one more would fit. */
  lemma BatchConserves(c: Model, s: Load, q: Request, now: Time)
    requires c.Valid() && InRange(c, s) && q.units >= 0
    ensures var taken, t, settled := Taken(c, s, q, now), Loaded(c, s, q, now), Settled(c, s, now);
      && InRange(c, t) && 0 <= taken <= q.units
      && t.current <= settled + taken as real <= t.current + 0.000000001
      && (taken < q.units ==> t.current > c.maxLoad as real - 1.0)
  {
    SettledInRange(c, s, now);
  }

  // ----- Runs -------------------------------------------------------------------------

  /** A batch with the outcome of storing its statistics. */
  datatype Batch = Batch(q: Request, now: Time, known: bool, stored: bool)

  /** The batch passes validation, its product exists, and its statistics are stored. */
  predicate Counts(b: Batch) { b.q.Valid() && b.known && b.stored }

  function Next(c: Model, s: Load, b: Batch): Load
    requires c.Valid()
  {
    if Counts(b) then Loaded(c, s, b.q, b.now) else s
  }

  function After(c: Model, run: seq<Batch>): Load
    requires c.Valid()
  {
    if run == [] then Empty else Next(c, After(c, run[..|run| - 1]), run[|run| - 1])
  }

  function Accepted(c: Model, run: seq<Batch>): int
    requires c.Valid()
  {
    if run == [] then 0
    else
      var front, b := run[..|run| - 1], run[|run| - 1];
      Accepted(c, front) + if Counts(b) then Taken(c, After(c, front), b.q, b.now) else 0
  }

  /** Seconds by which the clock moved forward between the batches that counted. */
  function Forward(c: Model, run: seq<Batch>): real
    requires c.Valid()
  {
    if run == [] then 0.0
    else
      var front, b := run[..|run| - 1], run[|run| - 1];
      var s := After(c, front);
      Forward(c, front) + if Counts(b) then Gap(s, b.now) else 0.0
  }

  lemma {:induction false} LoadStaysInRange(c: Model, run: seq<Batch>)
    requires c.Valid()
    ensures InRange(c, After(c, run))
  {
    if run != [] {
      var front, b := run[..|run| - 1], run[|run| - 1];
      LoadStaysInRange(c, front);
      if Counts(b) {
        BatchConserves(c, After(c, front), b.q, b.now);
      }
    }
  }

  lemma Distribute(speed: real, a: real, b: real)
    ensures speed * (a + b) == speed * a + speed * b
  {}

  lemma SlackAdds(n: nat)
    ensures (n + 1) as real * Slack == n as real * Slack + Slack
  {}

  lemma Chain(accepted: real, before: real, drained: real, slack: real, more: real, after: real, drainedLater: real)
    requires accepted <= before + drained + slack
    requires before + drained + more <= after + Slack + drainedLater
    ensures accepted + more <= after + drainedLater + (slack + Slack)
  {}

  /** The units accepted are covered by the load, what was drained, and the slack of `n` batches. */
  predicate Covered(c: Model, load: real, accepted: int, forward: real, n: nat) {
    accepted as real <= load + c.speed as real * forward + n as real * Slack
  }

  function Gap(s: Load, now: Time): real { if s.at.Some? then Elapsed(s.at.value, now) else 0.0 }

  lemma BatchCovered(c: Model, s: Load, q: Request, now: Time, accepted: int, forward: real, n: nat)
    requires c.Valid() && InRange(c, s) && q.units >= 0 && Covered(c, s.current, accepted, forward, n)
    ensures Covered(c, Loaded(c, s, q, now).current, accepted + Taken(c, s, q, now), forward + Gap(s, now), n + 1)
  {
    BatchConserves(c, s, q, now);
    var speed, taken, t := c.speed as real, Taken(c, s, q, now), Loaded(c, s, q, now);
    Distribute(speed, forward, Gap(s, now));
    SlackAdds(n);
    assert s.current - speed * Gap(s, now) <= Settled(c, s, now);
    Chain(accepted as real, s.current, speed * forward, n as real * Slack, taken as real, t.current,
          speed * (forward + Gap(s, now)));
  }

  lemma MoreBatches(c: Model, load: real, accepted: int, forward: real, n: nat)
    requires Covered(c, load, accepted, forward, n)
    ensures Covered(c, load, accepted, forward, n + 1)
  {
    SlackAdds(n);
  }

  lemma {:induction false} AcceptedWithinLoad(c: Model, run: seq<Batch>)
    requires c.Valid()
    ensures Covered(c, After(c, run).current, Accepted(c, run), Forward(c, run), |run|)
  {
    if run != [] {
      var front, b := run[..|run| - 1], run[|run| - 1];
      AcceptedWithinLoad(c, front);
      LoadStaysInRange(c, front);
      if Counts(b) {
        BatchCovered(c, After(c, front), b.q, b.now, Accepted(c, front), Forward(c, front), |front|);
      } else {
        MoreBatches(c, After(c, front).current, Accepted(c, front), Forward(c, front), |front|);
      }
    }
  }

  predicate Ordered(run: seq<Batch>) {
    forall i, j :: 0 <= i < j < |run| ==> run[i].now <= run[j].now
  }

  lemma {:induction false} ForwardWithinSpan(c: Model, run: seq<Batch>)
    requires c.Valid() && run != [] && Ordered(run)
    ensures After(c, run).at.Some? ==> run[0].now <= After(c, run).at.value <= run[|run| - 1].now
    ensures Forward(c, run) <= if After(c, run).at.Some? then Elapsed(run[0].now, After(c, run).at.value) else 0.0
  {
    var front, b := run[..|run| - 1], run[|run| - 1];
    if front != [] {
      ForwardWithinSpan(c, front);
      var s := After(c, front);
      if Counts(b) && s.at.Some? {
        ElapsedAdds(run[0].now, s.at.value, b.now);
      }
    }
  }

  lemma ElapsedAdds(a: Time, b: Time, d: Time)
    requires a <= b <= d
    ensures Elapsed(a, b) + Elapsed(b, d) == Elapsed(a, d)
  {
    assert (b - a) as real + (d - b) as real == (d - a) as real;
    assert (b - a) as real / Second as real + (d - b) as real / Second as real == (d - a) as real / Second as real;
  }

  lemma SpeedUp(speed: real, a: real, b: real)
    requires speed > 0.0 && a <= b
    ensures speed * a <= speed * b
  {}

  lemma CoveredByMore(c: Model, load: real, most: real, accepted: int, forward: real, span: real, n: nat)
    requires c.Valid() && Covered(c, load, accepted, forward, n) && load <= most && forward <= span
    ensures Covered(c, most, accepted, span, n)
  {
    SpeedUp(c.speed as real, forward, span);
    Widen(accepted as real, load, c.speed as real * forward, n as real * Slack, most, c.speed as real * span);
  }

  lemma Widen(accepted: real, load: real, drained: real, slack: real, most: real, span: real)
    requires accepted <= load + drained + slack && load <= most && drained <= span
    ensures accepted <= most + span + slack
  {}

  lemma ForwardIsSpan(c: Model, run: seq<Batch>)
    requires c.Valid() && run != [] && Ordered(run)
    ensures Forward(c, run) <= Elapsed(run[0].now, run[|run| - 1].now)
  {
    ForwardWithinSpan(c, run);
    var s := After(c, run);
    if s.at.Some? {
      ElapsedAdds(run[0].now, s.at.value, run[|run| - 1].now);
    }
  }

  /** Over any run of batches in time order, the instance accepts at most its maximum load plus what
      it can process in the time the run spans, up to a billionth of a unit per batch. */
  lemma AcceptedWithinCapacity(c: Model, run: seq<Batch>)
    requires c.Valid() && run != [] && Ordered(run)
    ensures Covered(c, c.maxLoad as real, Accepted(c, run), Elapsed(run[0].now, run[|run| - 1].now), |run|)
  {
    AcceptedWithinLoad(c, run);
    LoadStaysInRange(c, run);
    ForwardIsSpan(c, run);
    CoveredByMore(c, After(c, run).current, c.maxLoad as real, Accepted(c, run), Forward(c, run),
                  Elapsed(run[0].now, run[|run| - 1].now), |run|);
  }

  /** Times out of order defeat the bound by the spanned time: the forward moves drain, the backward moves do
      not refill, and only the bound by forward movement holds. A request reads the time before it is serialised
      with the others, so concurrent requests come out of order even under a clock that never goes back. `Ordered`
      is sufficient for the bound, not necessary. */
  lemma ClockJumpsDrain(c: Model)
    requires c == Model("lab-a", "app-1", 1, 1)
    ensures var q := Request("b", 1, 1);
      var run := [Batch(q, Second, true, true), Batch(q, 0, true, true), Batch(q, Second, true, true)];
      && Accepted(c, run) == 2 && Elapsed(run[0].now, run[2].now) == 0.0
      && Accepted(c, run) as real > c.maxLoad as real + c.speed as real * 0.0 + 3.0 * Slack
  {
    var q := Request("b", 1, 1);
    var b0, b1, b2 := Batch(q, Second, true, true), Batch(q, 0, true, true), Batch(q, Second, true, true);
    var run := [b0, b1, b2];
    assert run[..2] == [b0, b1] && [b0, b1][..1] == [b0] && [b0][..0] == [];
    var s1 := After(c, [b0]);
    assert Room(c, 0.0) == 1 && Room(c, 1.0) == 0;
    assert s1 == Load(1.0, Some(Second)) && Accepted(c, [b0]) == 1;
    var s2 := After(c, [b0, b1]);
    assert Settled(c, s1, 0) == 1.0;
    assert s2 == Load(1.0, Some(0)) && Accepted(c, [b0, b1]) == 1;
    assert Elapsed(0, Second) == 1.0;
    assert Settled(c, s2, Second) == 0.0;
  }

  // ----- What the platform checks -----------------------------------------------------------

  predicate StatusFits(r: BatchResult) {
    match r.status
    case BatchAccepted => r.accepted > 0 && r.dropped == 0
    case PartiallyAccepted => r.accepted > 0 && r.dropped > 0
    case BatchDropped => r.accepted == 0 && r.dropped > 0
  }

  predicate RatioFits(r: BatchResult)
    requires r.maxLoad > 0
  {
    var expected := RoundThree(r.load / r.maxLoad as real);
    -0.001 <= r.ratio - expected <= 0.001
  }

  /** The checks a result has to pass before it is believed, for a lab with these instances. */
  predicate ValidResult(lab: LabId, instances: seq<Server>, q: Request, r: BatchResult) {
    && r.batch == q.batch && r.lab == lab && r.received == q.units
    && r.accepted >= 0 && r.dropped >= 0 && r.accepted + r.dropped == r.received
    && r.speed > 0 && r.maxLoad > 0 && 0.0 <= r.load <= r.maxLoad as real && r.observedAt == r.occurredAt
    && RatioFits(r) && StatusFits(r)
    && exists i :: 0 <= i < |instances| && instances[i].id == r.target && instances[i].speed == r.speed && instances[i].maxLoad == r.maxLoad
  }

  lemma RoundThreeClose(x: real)
    requires x >= 0.0
    ensures RoundThree(x) >= 0.0 && -0.0005 <= RoundThree(x) - x <= 0.0005
  {
    var n := Round(x * 1000.0);
    assert n as real <= x * 1000.0 + 0.5 < n as real + 1.0;
  }

  lemma RoundThreeBelow(x: real, n: int)
    requires 0.0 <= x <= n as real
    ensures RoundThree(x) <= n as real
  {
    var m := Round(x * 1000.0);
    assert m as real <= x * 1000.0 + 0.5 <= (1000 * n) as real + 0.5;
    assert m <= 1000 * n;
  }

  lemma NearQuotients(x: real, y: real, m: real)
    requires m >= 1.0 && x >= 0.0 && y >= 0.0 && -0.0005 <= y - x <= 0.0005
    ensures 0.0 <= x / m && 0.0 <= y / m && -0.0005 <= y / m - x / m <= 0.0005
  {
    var d := y - x;
    assert y / m - x / m == d / m;
    assert d / m * m == d;
    QuotientInUnit(if d >= 0.0 then d else -d, m);
    SmallQuotient(d, m);
  }

  lemma SmallQuotient(d: real, m: real)
    requires m >= 1.0 && -0.0005 <= d <= 0.0005
    ensures -0.0005 <= d / m <= 0.0005
  {
    var q := d / m;
    assert q * m == d;
    if q > 0.0005 {
      RealProductOrder(0.0005, q, 1.0, m);
    }
    if q < -0.0005 {
      RealProductOrder(0.0005, -q, 1.0, m);
    }
  }

  /** Rounding a load before dividing moves the rounded ratio by at most one thousandth. */
  lemma DoubleRounding(x: real, m: int)
    requires m >= 1 && x >= 0.0
    ensures -0.001 <= RoundThree(x / m as real) - RoundThree(RoundThree(x) / m as real) <= 0.001
  {
    RoundThreeClose(x);
    var y := RoundThree(x);
    NearQuotients(x, y, m as real);
    NearRounds(x / m as real, y / m as real);
  }

  lemma NearRounds(a: real, b: real)
    requires -0.0005 <= b - a <= 0.0005
    ensures -0.001 <= RoundThree(a) - RoundThree(b) <= 0.001
  {
    var n, k := Round(a * 1000.0), Round(b * 1000.0);
    assert -1 <= n - k <= 1;
  }

  /** The tolerance is needed: the two roundings can differ. */
  lemma DoubleRoundingDiffers()
    ensures RoundThree(1.0009 / 2.0) != RoundThree(RoundThree(1.0009) / 2.0)
  {
    assert Round(1000.9) == 1001;
    assert RoundThree(1.0009) == 1.001;
    assert Round(500.45) == 500 && Round(500.5) == 501;
  }

  lemma RoundedAgainst(x: real, n: int)
    requires x >= 0.0
    ensures RoundThree(x) <= n as real / 1000.0 <==> x < (n as real + 0.5) / 1000.0
  {
    var r := Round(x * 1000.0);
    assert RoundThree(x) * 1000.0 == r as real;
    assert r <= n <==> x * 1000.0 + 0.5 < (n + 1) as real;
  }

  /** The level reported with a batch by the exact load it leaves, in parts of the maximum: rounding moves each
      threshold by half a thousandth, so that an instance counts as overloaded from 0.9995. */
  lemma LevelByLoad(c: Model, run: seq<Batch>, q: Request, now: Time)
    requires c.Valid() && q.units >= 0
    ensures var (r, t) := Allocate(c, After(c, run), q, now); var part := t.current / c.maxLoad as real;
      r.level == if part < 0.3005 then Idle else if part < 0.7005 then Normal else if part < 0.9995 then High else Overloaded
  {
    var s := After(c, run);
    LoadStaysInRange(c, run);
    BatchConserves(c, s, q, now);
    var part := Loaded(c, s, q, now).current / c.maxLoad as real;
    QuotientInUnit(Loaded(c, s, q, now).current, c.maxLoad as real);
    RoundedAgainst(part, 300);
    RoundedAgainst(part, 700);
    RoundedAgainst(part, 999);
    WholeThousandths(part);
  }

  lemma WholeThousandths(x: real)
    ensures RoundThree(x) < 1.0 <==> RoundThree(x) <= 999.0 / 1000.0
  {
    assert RoundThree(x) * 1000.0 == Round(x * 1000.0) as real;
  }

  /** Every result of an instance for a valid request passes the platform's checks. */
  lemma ResultsAreValid(c: Model, run: seq<Batch>, q: Request, now: Time, instances: seq<Server>, i: nat)
    requires c.Valid() && q.Valid() && i < |instances|
    requires instances[i].id == c.instance && instances[i].speed == c.speed && instances[i].maxLoad == c.maxLoad
    ensures ValidResult(c.lab, instances, q, Allocate(c, After(c, run), q, now).0)
  {
    var s := After(c, run);
    LoadStaysInRange(c, run);
    BatchConserves(c, s, q, now);
    var next := Filled(c, Settled(c, s, now), q.units);
    RoundThreeClose(next);
    RoundThreeBelow(next, c.maxLoad);
    DoubleRounding(next, c.maxLoad);
  }

  /** A result as the balancer observes it. */
  function AsObservation(x: Server, r: BatchResult): Observation {
    Observation(r.lab, x, r.target, r.speed, r.maxLoad, r.load, Some(r.observedAt), r.dropped)
  }

  lemma MaxIsClose(a: real, b: real, drop: real)
    requires -0.0005 <= a - b <= 0.0005
    ensures -0.0005 <= Greatest(0.0, a - drop) - Greatest(0.0, b - drop) <= 0.0005
  {}

  /** Until the next batch, the balancer's estimate stays within 0.0005 of the instance's load. */
  lemma EstimateTracksLoad(c: Model, run: seq<Batch>, q: Request, now: Time, x: Server, ms: AllMetrics, later: Time)
    requires c.Valid() && q.Valid() && x.id == c.instance && x.container != "" && x.speed == c.speed && x.maxLoad == c.maxLoad
    requires var last := Known(Of(ms, c.lab), x.id).observedAt; last.Some? ==> last.value <= now
    ensures var (r, t) := Allocate(c, After(c, run), q, now);
      var seen := Of(Observe(ms, AsObservation(x, r)), c.lab);
      && x.id in seen
      && -0.0005 <= EstimatedLoad(seen[x.id], later) - Settled(c, t, later) <= 0.0005
  {
    var s := After(c, run);
    LoadStaysInRange(c, run);
    ResultLoad(c, s, q, now);
    var (r, t) := Allocate(c, s, q, now);
    TakenOver(ms, AsObservation(x, r));
    DrainTogether(c, t, Of(Observe(ms, AsObservation(x, r)), c.lab)[x.id], now, later);
  }

  /** The reported load is the new load to three places, and within the maximum. */
  lemma ResultLoad(c: Model, s: Load, q: Request, now: Time)
    requires c.Valid() && InRange(c, s) && q.Valid()
    ensures var (r, t) := Allocate(c, s, q, now);
      && 0.0 <= r.load <= c.maxLoad as real && -0.0005 <= r.load - t.current <= 0.0005 && t.at == Some(now)
  {
    BatchConserves(c, s, q, now);
    RoundThreeClose(Loaded(c, s, q, now).current);
    RoundThreeBelow(Loaded(c, s, q, now).current, c.maxLoad);
  }

  lemma DrainTogether(c: Model, t: Load, m: Metric, now: Time, later: Time)
    requires c.Valid() && t.at == Some(now) && m.observedAt == Some(now) && m.speed == c.speed && m.maxLoad == c.maxLoad
    requires -0.0005 <= m.load - t.current <= 0.0005
    ensures -0.0005 <= EstimatedLoad(m, later) - Settled(c, t, later) <= 0.0005
  {
    MaxIsClose(m.load, t.current, c.speed as real * Elapsed(now, later));
  }

  /** A usable, current observation is recorded as it is. */
  lemma TakenOver(ms: AllMetrics, o: Observation)
    requires Metrics.Usable(o) && !Outdated(Known(Of(ms, o.lab), o.target), o)
    ensures var seen := Of(Observe(ms, o), o.lab);
      && o.target in seen
      && var m := seen[o.target]; m.load == o.load && m.observedAt == o.observedAt && m.speed == o.speed && m.maxLoad == o.maxLoad
  {}

  // ----- The processor --------------------------------------------------------------------

  datatype ProcessResult = Processed(result: BatchResult) | InvalidBatch | UnknownProduct | StatisticsFailed

  /** One instance of the ordering lab: its load changes only when the statistics are stored. */
  class OrderProcessor {
    const model: Model
    var currentLoad: real
    var lastUpdatedAt: Option<Time>

    constructor (model: Model)
      requires model.Valid()
      ensures this.model == model && Contents() == Empty
    {
      this.model := model;
      currentLoad, lastUpdatedAt := 0.0, None;
    }

    function Contents(): Load
      reads this
    {
      Load(currentLoad, lastUpdatedAt)
    }

    method Process(b: Batch) returns (r: ProcessResult)
      requires model.Valid()
      modifies this
      ensures Contents() == Next(model, old(Contents()), b)
      ensures r.Processed? <==> Counts(b)
      ensures r.Processed? ==> r.result == Allocate(model, old(Contents()), b.q, b.now).0
    {
      if b.q.batch == "" || b.q.product == 0 || b.q.units <= 0 {
        return InvalidBatch;
      }
      if !b.known {
        return UnknownProduct;
      }
      var result, next := AllocateUnits(b.q, b.now);
      if !b.stored {
        return StatisticsFailed;
      }
      currentLoad, lastUpdatedAt := next, Some(b.now);
      return Processed(result);
    }

    method Settle(now: Time) returns (settled: real)
      ensures settled == Settled(model, Contents(), now)
    {
      var elapsed := 0.0;
      if lastUpdatedAt.Some? && now > lastUpdatedAt.value {
        elapsed := (now - lastUpdatedAt.value) as real / Second as real;
      }
      settled := Greatest(0.0, currentLoad - model.speed as real * elapsed);
    }

    method AllocateUnits(q: Request, now: Time) returns (result: BatchResult, next: real)
      requires model.Valid()
      ensures (result, Load(next, Some(now))) == Allocate(model, Contents(), q, now)
    {
      var settled := Settle(now);
      var available := Greatest(0.0, model.maxLoad as real - settled);
      var room := (available + Slack).Floor;
      var accepted := if q.units <= room then q.units else room;
      var dropped := q.units - accepted;
      next := Least(model.maxLoad as real, settled + accepted as real);
      var ratio := RoundThree(next / model.maxLoad as real);
      var status := BatchAccepted;
      if accepted == 0 {
        status := BatchDropped;
      } else if dropped > 0 {
        status := PartiallyAccepted;
      }
      result := BatchResult(q.batch, model.lab, status, now, model.instance, q.units, accepted, dropped,
        model.speed, model.maxLoad, RoundThree(next), ratio, Level(ratio), now);
    }
  }
}
