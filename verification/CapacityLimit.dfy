/** Exactly when the limit on temporary containers can be exceeded. */
module CapacityLimit {
  import opened Domain
  import opened Naming
  import opened Transactions
  import opened Coupling
  import opened Effects
  import opened CouplingProof
  import opened Evolution
  import opened Admission
  import opened Guarantees
  import opened Leases
  import opened Capacity
  import opened CapacitySteps

  // ----- States that runs reach --------------------------------------------------------

  /** Every lab's scenario fits the instance limit. */
  predicate LabsFit(c: Config, s: State) {
    forall lab :: lab in s.sessions ==> s.sessions[lab].scenario.InitialInstances() <= c.quota.maxInstances
  }

  /** Creations and resets carry their template, and no operation is left compensating. */
  predicate TypedOp(o: Operation) {
    o.status != Compensating && (o.action == CreateLab || o.action == ResetLab ==> o.payload.LabPayload?)
  }

  predicate OpsTyped(s: State) {
    forall id :: id in s.ops ==> TypedOp(s.ops[id])
  }

  ghost predicate Orderly(c: Config, s: State) {
    Inv(c, s) && LabsFit(c, s) && OpsTyped(s)
  }

  lemma StepKeepsLabsFit(c: Config, s: State, e: Event)
    requires Inv(c, s) && LabsFit(c, s)
    ensures LabsFit(c, Next(c, s, e).0)
  {
    var t := Next(c, s, e).0;
    StepEvolves(c, s, e);
    if e.CreateEvent? {
      CreatedFits(c, s, e);
    } else {
      OnlyCreateAddsLabs(c, s, e);
      forall lab | lab in t.sessions ensures t.sessions[lab].scenario.InitialInstances() <= c.quota.maxInstances {
        assert lab in t.sessions.Keys;
        assert RowEvolves(s.sessions[lab], t.sessions[lab]);
      }
    }
  }

  lemma CreatedFits(c: Config, s: State, e: Event)
    requires LabsFit(c, s) && e.CreateEvent?
    ensures LabsFit(c, Next(c, s, e).0)
  {
  }

  lemma RequestTyped(c: Config, s: State, e: Event)
    requires Enqueueing(e) && Next(c, s, e).1.Accepted?
    ensures EnqueueId(e) in Next(c, s, e).0.ops && TypedOp(Next(c, s, e).0.ops[EnqueueId(e)])
  {
    EnqueueEffect(c, s, e);
    match e
    case CreateEvent(_, _, _, _, _, _) =>
    case ActionEvent(_, _, _, _, _, _) => ActionTyped(c, s, e);
    case SubmitEvent(_, _, _, _) => SubmitTyped(c, s, e);
    case AdjustEvent(_, _, _, _, _, _) => AdjustRequests(c, s, e);
    case AdvanceEvent(_, _) => AdvanceRequests(c, s, e);
  }

  lemma ActionTyped(c: Config, s: State, e: Event)
    requires e.ActionEvent? && Next(c, s, e).1.Accepted?
    ensures e.id in Next(c, s, e).0.ops && TypedOp(Next(c, s, e).0.ops[e.id])
  {
  }

  lemma SubmitTyped(c: Config, s: State, e: Event)
    requires e.SubmitEvent? && Next(c, s, e).1.Accepted?
    ensures e.input.op in Next(c, s, e).0.ops && TypedOp(Next(c, s, e).0.ops[e.input.op])
  {
    SubmitRequests(c, s, e);
  }

  lemma StepKeepsOpsTyped(c: Config, s: State, e: Event)
    requires OpsTyped(s)
    ensures OpsTyped(Next(c, s, e).0)
  {
    var t := Next(c, s, e).0;
    if e.CompleteEvent? {
      CompletionTyped(s, e.id, e.owner, e.report, e.now);
    } else if Enqueueing(e) {
      EnqueueEffect(c, s, e);
      if Next(c, s, e).1.Accepted? {
        RequestTyped(c, s, e);
      }
      forall id | id in t.ops ensures TypedOp(t.ops[id]) {
        assert id in s.ops ==> TypedOp(s.ops[id]);
      }
    }
  }

  lemma CompletionTyped(s: State, id: OpId, owner: Owner, report: Report, now: Time)
    requires OpsTyped(s)
    ensures OpsTyped(Complete(s, id, owner, report, now).0)
  {
    var t := Complete(s, id, owner, report, now).0;
    CompletionFinishes(s, id, owner, report, now);
    if id in s.ops {
      CompletionIdentity(s, id, owner, report, now);
      CompletionPayload(s, id, owner, report, now);
      forall i | i in t.ops ensures TypedOp(t.ops[i]) {
        assert i in t.ops.Keys;
        if i != id {
          CompletionFrame(s, id, owner, report, now, i);
        }
        assert TypedOp(s.ops[i]);
      }
    }
  }

  lemma CompletionPayload(s: State, id: OpId, owner: Owner, report: Report, now: Time)
    requires id in s.ops
    ensures var t := Complete(s, id, owner, report, now).0;
      id in t.ops && t.ops[id].payload == s.ops[id].payload && t.ops[id].action == s.ops[id].action
      && (t.ops[id].status == s.ops[id].status || !t.ops[id].status.InFlight())
  {
  }

  lemma StepKeepsOrderly(c: Config, s: State, e: Event)
    requires Orderly(c, s) && Trusted(c, s, e)
    ensures Orderly(c, Next(c, s, e).0)
  {
    StepKeepsInv(c, s, e);
    StepKeepsLabsFit(c, s, e);
    StepKeepsOpsTyped(c, s, e);
  }

  lemma {:induction false} ReachableOrderly(c: Config, run: seq<Event>)
    requires TrustedRun(c, run)
    ensures Orderly(c, After(c, run))
  {
    if run != [] {
      TrustedPrefix(c, run);
      ReachableOrderly(c, run[..|run| - 1]);
      assert Trusted(c, After(c, run[..|run| - 1]), run[|run| - 1]);
      StepKeepsOrderly(c, After(c, run[..|run| - 1]), run[|run| - 1]);
    }
  }

  // ----- Continuations without new requests ----------------------------------------------

  /** A continuation in which the orchestrator is trusted and no further request is accepted. */
  predicate Settling(c: Config, s: State, ext: seq<Event>)
    decreases |ext|
  {
    ext != [] ==>
      && Trusted(c, s, ext[0]) && Measured(s, ext[0])
      && !Next(c, s, ext[0]).1.Accepted?
      && Settling(c, Next(c, s, ext[0]).0, ext[1..])
  }

  lemma {:induction false} SettlingKeeps(c: Config, s: State, ext: seq<Event>)
    requires Orderly(c, s) && Settling(c, s, ext)
    ensures Orderly(c, From(c, s, ext)) && Budget(From(c, s, ext)) <= Budget(s)
    decreases |ext|
  {
    if ext != [] {
      StepKeepsOrderly(c, s, ext[0]);
      StepBudget(c, s, ext[0]);
      SettlingKeeps(c, Next(c, s, ext[0]).0, ext[1..]);
    }
  }

  lemma {:induction false} Concat(c: Config, s: State, a: seq<Event>, b: seq<Event>)
    requires Settling(c, s, a) && Settling(c, From(c, s, a), b)
    ensures Settling(c, s, a + b) && From(c, s, a + b) == From(c, From(c, s, a), b)
    decreases |a|
  {
    if a == [] {
      assert a + b == b;
    } else {
      Concat(c, Next(c, s, a[0]).0, a[1..], b);
      assert (a + b)[0] == a[0] && (a + b)[1..] == a[1..] + b;
    }
  }

  lemma One(c: Config, s: State, e: Event)
    requires Trusted(c, s, e) && Measured(s, e) && !Next(c, s, e).1.Accepted?
    ensures Settling(c, s, [e]) && From(c, s, [e]) == Next(c, s, e).0
  {
    assert [e][1..] == [];
  }

  // ----- Finishing an operation with all it may add -----------------------------------------

  function Sample(n: nat): ProvisionedInstance {
    ProvisionedInstance(InstanceName(n), "c", "n", None, 1.0, 1, 1, 1, 1, 1)
  }

  function Fleet(sc: Scenario): seq<ProvisionedInstance> {
    if sc == MultiLevelCache then [Sample(1), Sample(2), Sample(3)] else [Sample(1)]
  }

  function NamesOf(fleet: seq<ProvisionedInstance>): set<Name> {
    set i | 0 <= i < |fleet| :: fleet[i].name
  }

  lemma FleetLive(sc: Scenario)
    ensures LiveRows(RowsOf(Fleet(sc))) == NamesOf(Fleet(sc))
  {
    RowsOfTrusted(Quota(1, 1, 1), Fleet(sc));
  }

  lemma FleetCount(sc: Scenario)
    ensures |NamesOf(Fleet(sc))| == sc.InitialInstances()
  {
    var fleet, names := Fleet(sc), NamesOf(Fleet(sc));
    assert fleet[0].name in names;
    if sc == MultiLevelCache {
      FleetNames();
      assert fleet[1].name in names && fleet[2].name in names;
      assert names == {InstanceName(1), InstanceName(2), InstanceName(3)};
    } else {
      assert names == {InstanceName(1)};
    }
  }

  lemma FleetRows(sc: Scenario)
    ensures |LiveRows(RowsOf(Fleet(sc)))| == sc.InitialInstances()
  {
    FleetLive(sc);
    FleetCount(sc);
  }

  lemma FleetNames()
    ensures InstanceName(1) != InstanceName(2) && InstanceName(2) != InstanceName(3) && InstanceName(1) != InstanceName(3)
  {
    if InstanceName(1) == InstanceName(2) { InstanceNameInjective(1, 2); }
    if InstanceName(2) == InstanceName(3) { InstanceNameInjective(2, 3); }
    if InstanceName(1) == InstanceName(3) { InstanceNameInjective(1, 3); }
  }

  function FullProvision(lab: LabId, template: Scenario, sc: Scenario): ProvisionResult {
    ProvisionResult(lab, template, true, Fleet(sc), sc == MultiLevelCache)
  }

  lemma FullProvisionFits(o: Operation, sc: Scenario)
    requires o.payload.LabPayload?
    ensures var r := FullProvision(o.lab, o.payload.template, sc);
      CheckedProvision(o, Success(r)) == Success(r) && ProvisionComplete(o.lab, r)
      && |r.instances| == sc.InitialInstances() && |r.instances| + (if r.redis then 1 else 0) == sc.Containers()
  {
    forall i | 0 <= i < |Fleet(sc)| ensures InstanceComplete(Fleet(sc)[i]) && Fleet(sc)[i].cpu > 0.0 {
      assert |InstanceName(1)| > 0 && |InstanceName(2)| > 0 && |InstanceName(3)| > 0;
    }
  }

  /** The completion by which an operation adds all it may add. */
  predicate Attains(c: Config, s: State, id: OpId, report: Report)
    requires id in s.ops && s.ops[id].lab in s.sessions
  {
    var e := CompleteEvent(id, "w", report, 0);
    && Trusted(c, s, e) && Measured(s, e) && Complete(s, id, "w", report, 0).1 == Done
    && LabHolds(Complete(s, id, "w", report, 0).0, s.ops[id].lab) == PeakOf(s, id)
  }

  lemma ProvisionAttains(c: Config, s: State, id: OpId) returns (report: Report)
    requires HoldsLease(s, id, "w") && s.ops[id].lab in s.sessions && s.ops[id].payload.LabPayload?
    requires s.ops[id].action == CreateLab || s.ops[id].action == ResetLab
    requires ActionFits(s.sessions[s.ops[id].lab], s.ops[id].action)
    requires s.sessions[s.ops[id].lab].scenario.InitialInstances() <= c.quota.maxInstances
    requires PeakOf(s, id) > LabHolds(s, s.ops[id].lab)
    ensures Attains(c, s, id, report)
  {
    var o, lab := s.ops[id], s.ops[id].lab;
    var sc := s.sessions[lab].scenario;
    if o.action == ResetLab && Revived(Rows(s, lab), RedisOf(s, lab)) > sc.Containers() {
      report := ProvisionReport(Failure);
      FailedResetAttains(c, s, id);
    } else {
      report := ProvisionReport(Success(FullProvision(lab, o.payload.template, sc)));
      FullProvisionHolds(s, id);
      FullProvisionFits(o, sc);
    }
  }

  lemma FailedResetAttains(c: Config, s: State, id: OpId)
    requires HoldsLease(s, id, "w") && s.ops[id].lab in s.sessions && s.ops[id].action == ResetLab
    requires ActionFits(s.sessions[s.ops[id].lab], ResetLab) && PeakOf(s, id) > LabHolds(s, s.ops[id].lab)
    requires Revived(Rows(s, s.ops[id].lab), RedisOf(s, s.ops[id].lab)) > s.sessions[s.ops[id].lab].scenario.Containers()
    ensures Attains(c, s, id, ProvisionReport(Failure))
  {
    MarkedRows(Rows(s, s.ops[id].lab), InstanceUnknown);
  }

  /** A full provision leaves the lab with all its scenario reserves. */
  lemma FullProvisionHolds(s: State, id: OpId)
    requires HoldsLease(s, id, "w") && s.ops[id].lab in s.sessions && s.ops[id].payload.LabPayload?
    requires s.ops[id].action == CreateLab || s.ops[id].action == ResetLab
    requires ActionFits(s.sessions[s.ops[id].lab], s.ops[id].action)
    ensures var o, sc := s.ops[id], s.sessions[s.ops[id].lab].scenario;
      var (t, reply) := Complete(s, id, "w", ProvisionReport(Success(FullProvision(o.lab, o.payload.template, sc))), 0);
      reply == Done && LabHolds(t, o.lab) == sc.Containers()
  {
    var sc := s.sessions[s.ops[id].lab].scenario;
    FullProvisionFits(s.ops[id], sc);
    FleetRows(sc);
  }

  lemma DestroyAttains(c: Config, s: State, id: OpId)
    requires HoldsLease(s, id, "w") && s.ops[id].lab in s.sessions && s.ops[id].action == DestroyLab
    requires ActionFits(s.sessions[s.ops[id].lab], s.ops[id].action)
    requires PeakOf(s, id) > LabHolds(s, s.ops[id].lab)
    ensures Attains(c, s, id, DestroyReport(false))
  {
    MarkedRows(Rows(s, s.ops[id].lab), InstanceUnknown);
  }

  lemma AdditionAttains(c: Config, s: State, id: OpId)
    requires HoldsLease(s, id, "w") && s.ops[id].lab in s.sessions && s.ops[id].action == AddInstance
    requires OpOk(c.quota, s.sessions[s.ops[id].lab], Rows(s, s.ops[id].lab), s.ops[id])
    ensures Attains(c, s, id, TopologyReport(Success(Some(Sample(1).(name := s.ops[id].payload.name))), false))
  {
    var i := Sample(1).(name := s.ops[id].payload.name);
    OneMoreLive(Rows(s, s.ops[id].lab), i.name, InstanceRow(i).(status := InstanceRunning));
  }

  lemma RedisAttains(c: Config, s: State, id: OpId)
    requires HoldsLease(s, id, "w") && s.ops[id].lab in s.sessions && s.ops[id].action == AddRedis
    requires s.sessions[s.ops[id].lab].status == Running
    ensures Attains(c, s, id, CacheReport(Success(true)))
  {
  }

  /** The operation once worker "w" has claimed and started it. */
  function Worked(o: Operation): Operation {
    o.(status := Executing, owner := Some("w"), lease := 0, attempts := o.attempts + 1)
  }

  function WorkedOn(s: State, id: OpId): State
    requires id in s.ops
  {
    s.(ops := s.ops[id := Worked(s.ops[id])])
  }

  /** Any operation in flight can be claimed, once its lease has run out, and started. */
  lemma TakenOver(c: Config, s: State, id: OpId) returns (ext: seq<Event>)
    requires Orderly(c, s) && id in s.ops && s.ops[id].status.InFlight()
    ensures Settling(c, s, ext) && From(c, s, ext) == WorkedOn(s, id)
    ensures Orderly(c, WorkedOn(s, id)) && SameHoldings(s, WorkedOn(s, id)) && HoldsLease(WorkedOn(s, id), id, "w")
  {
    var claim, start := ClaimEvent(id, "w", s.ops[id].lease, 0), StartEvent(id, "w", 0);
    var t := Next(c, s, claim).0;
    ClaimAndStart(c, s, id);
    One(c, s, claim);
    One(c, t, start);
    Concat(c, s, [claim], [start]);
    ext := [claim] + [start];
    SettlingKeeps(c, s, ext);
    RelockHoldings(s, id, Worked(s.ops[id]));
  }

  lemma ClaimAndStart(c: Config, s: State, id: OpId)
    requires id in s.ops && s.ops[id].status.InFlight() && s.ops[id].status != Compensating
    ensures var (t, claimed) := Next(c, s, ClaimEvent(id, "w", s.ops[id].lease, 0));
      claimed == Done && Next(c, t, StartEvent(id, "w", 0)) == (WorkedOn(s, id), Done)
  {
    var t := Next(c, s, ClaimEvent(id, "w", s.ops[id].lease, 0)).0;
    assert s.ops[id := t.ops[id]][id := Worked(s.ops[id])] == s.ops[id := Worked(s.ops[id])];
  }

  /** The tables with a lab Running. */
  function RunningAgain(s: State, lab: LabId, at: Time): State
    requires lab in s.sessions
  {
    s.(sessions := s.sessions[lab := s.sessions[lab].(status := Running, updatedAt := at)])
  }

  /** A lab can be brought back from Expiring by an advance before its window. */
  lemma BroughtBack(c: Config, s: State, lab: LabId) returns (ext: seq<Event>, at: Time)
    requires Inv(c, s) && lab in s.sessions && s.sessions[lab].status.Up()
    ensures Settling(c, s, ext) && From(c, s, ext) == RunningAgain(s, lab, at)
  {
    assert LabOk(c, s, lab);
    if s.sessions[lab].status == Running {
      ext, at := [], s.sessions[lab].updatedAt;
      assert s.sessions[lab := s.sessions[lab].(status := Running, updatedAt := at)] == s.sessions;
    } else {
      var deadline := DeadlineOf(c, s.sessions[lab]);
      at := (if c.lifetime.lead >= 0 then deadline - c.lifetime.lead else deadline) - 1;
      ext := [AdvanceEvent(lab, at)];
      One(c, s, AdvanceEvent(lab, at));
    }
  }

  /** Started, every growing operation has a completion that adds all it may. */
  lemma AttainingReport(c: Config, s: State, id: OpId) returns (report: Report)
    requires Orderly(c, s) && HoldsLease(s, id, "w") && Growth(s, id) > 0
    requires s.ops[id].action == AddRedis ==> s.sessions[s.ops[id].lab].status == Running
    ensures s.ops[id].lab in s.sessions && Attains(c, s, id, report)
  {
    OperationFits(c, s, id);
    match s.ops[id].action
    case DestroyLab =>
      report := DestroyReport(false);
      DestroyAttains(c, s, id);
    case AddInstance =>
      report := TopologyReport(Success(Some(Sample(1).(name := s.ops[id].payload.name))), false);
      AdditionAttains(c, s, id);
    case AddRedis =>
      report := CacheReport(Success(true));
      RedisAttains(c, s, id);
    case _ => report := ProvisionAttains(c, s, id);
  }

  lemma RunningHoldings(s: State, lab: LabId, at: Time)
    requires lab in s.sessions
    ensures SameHoldings(s, RunningAgain(s, lab, at))
  {
  }

  /** Takes a growing operation over and, for a Redis addition, brings its lab back to Running. */
  lemma Prepared(c: Config, s: State, id: OpId) returns (ext: seq<Event>)
    requires Orderly(c, s) && Growth(s, id) > 0
    ensures Settling(c, s, ext)
    ensures var t := From(c, s, ext);
      && Orderly(c, t) && SameHoldings(s, t) && HoldsLease(t, id, "w") && t.ops[id].lab in t.sessions
      && (t.ops[id].action == AddRedis ==> t.sessions[t.ops[id].lab].status == Running)
  {
    ext := TakenOver(c, s, id);
    if s.ops[id].action == AddRedis {
      var t, lab := WorkedOn(s, id), s.ops[id].lab;
      OperationFits(c, t, id);
      var more, at := BroughtBack(c, t, lab);
      RunningHoldings(t, lab, at);
      Concat(c, s, ext, more);
      ext := ext + more;
      SettlingKeeps(c, s, ext);
    } else {
      OperationFits(c, WorkedOn(s, id), id);
    }
  }

  /** The completion that adds all an operation may add leaves the budget as it was. */
  lemma CompletesFully(c: Config, s: State, id: OpId, report: Report)
    requires Inv(c, s) && id in s.ops && s.ops[id].lab in s.sessions && Growth(s, id) > 0 && Attains(c, s, id, report)
    ensures var ext := [CompleteEvent(id, "w", report, 0)];
      && Settling(c, s, ext)
      && Budget(From(c, s, ext)) == Budget(s) && |Coming(From(c, s, ext))| < |Coming(s)|
  {
    AttainedMoves(c, s, id, report);
    OneCompletion(c, s, id, report);
  }

  lemma OneCompletion(c: Config, s: State, id: OpId, report: Report)
    requires var e := CompleteEvent(id, "w", report, 0);
      Trusted(c, s, e) && Measured(s, e) && Complete(s, id, "w", report, 0).1 == Done
    ensures var ext := [CompleteEvent(id, "w", report, 0)];
      Settling(c, s, ext) && From(c, s, ext) == Complete(s, id, "w", report, 0).0
  {
    assert Next(c, s, CompleteEvent(id, "w", report, 0)) == Complete(s, id, "w", report, 0);
    One(c, s, CompleteEvent(id, "w", report, 0));
  }

  lemma AttainedMoves(c: Config, s: State, id: OpId, report: Report)
    requires Inv(c, s) && id in s.ops && s.ops[id].lab in s.sessions && Growth(s, id) > 0 && Attains(c, s, id, report)
    ensures var t := Complete(s, id, "w", report, 0).0; Budget(t) == Budget(s) && |Coming(t)| < |Coming(s)|
  {
    CompletionMoves(c, s, id, "w", report, 0);
  }

  /** From any orderly state a growing operation can be finished without losing any of the budget. */
  lemma FinishOne(c: Config, s: State, id: OpId) returns (ext: seq<Event>)
    requires Orderly(c, s) && Growth(s, id) > 0
    ensures Settling(c, s, ext)
    ensures var t := From(c, s, ext); Orderly(c, t) && Budget(t) == Budget(s) && |Coming(t)| < |Coming(s)|
  {
    ext := Prepared(c, s, id);
    var t := From(c, s, ext);
    SameBudget(s, t);
    SameGrowth(s, t, id);
    var report := AttainingReport(c, t, id);
    CompletesFully(c, t, id, report);
    Concat(c, s, ext, [CompleteEvent(id, "w", report, 0)]);
    ext := ext + [CompleteEvent(id, "w", report, 0)];
    SettlingKeeps(c, s, ext);
  }

  /** The whole budget can come to be persisted. */
  lemma Attained(c: Config, s: State) returns (ext: seq<Event>)
    requires Orderly(c, s)
    ensures Settling(c, s, ext) && ContainersInUse(From(c, s, ext)) == Budget(s)
    decreases |Coming(s)|
  {
    if Coming(s) == {} {
      ext := [];
    } else {
      var p :| p in Coming(s);
      var first := FinishOne(c, s, p.0);
      var rest := Attained(c, From(c, s, first));
      Concat(c, s, first, rest);
      ext := first + rest;
    }
  }

  // ----- The limit -----------------------------------------------------------------------------

  /** However the operations in flight end, the persisted containers stay within the limit. */
  ghost predicate FitsForever(c: Config, s: State) {
    forall ext :: Settling(c, s, ext) ==> ContainersInUse(From(c, s, ext)) <= c.quota.maxContainers
  }

  /** They do if and only if persisted containers and what operations in flight may add are within it. */
  lemma FitsForeverIff(c: Config, s: State)
    requires Orderly(c, s)
    ensures FitsForever(c, s) <==> Budget(s) <= c.quota.maxContainers
  {
    var worst := Attained(c, s);
    assert FitsForever(c, s) ==> ContainersInUse(From(c, s, worst)) <= c.quota.maxContainers;
    forall ext | Settling(c, s, ext) ensures ContainersInUse(From(c, s, ext)) <= Budget(s) {
      SettlingKeeps(c, s, ext);
    }
  }

  /** The request leaves room for everything in flight and itself: known before it is made. */
  predicate Affordable(c: Config, s: State, e: Event) {
    Enqueueing(e) && Next(c, s, e).1.Accepted? ==> Budget(s) + Demand(s, e) <= c.quota.maxContainers
  }

  predicate AllAffordable(c: Config, run: seq<Event>) {
    run != [] ==>
      var front := run[..|run| - 1];
      AllAffordable(c, front) && Affordable(c, After(c, front), run[|run| - 1])
  }

  predicate MeasuredRun(c: Config, run: seq<Event>) {
    run != [] ==>
      var front := run[..|run| - 1];
      MeasuredRun(c, front) && Measured(After(c, front), run[|run| - 1])
  }

  ghost predicate FitsThroughout(c: Config, run: seq<Event>) {
    FitsForever(c, After(c, run)) && (run != [] ==> FitsThroughout(c, run[..|run| - 1]))
  }

  lemma NothingHeld()
    ensures Budget(EmptyState) == 0
  {
    assert InstancesInUse(EmptyState) == {} && RedisInUse(EmptyState) == {} && Coming(EmptyState) == {};
  }

  /** The limit on temporary containers holds at every moment of a run, and in every way its operations may still
      end, if and only if each accepted request left room for what was persisted, what was in flight and itself. */
  lemma {:induction false} LimitHoldsIff(c: Config, run: seq<Event>)
    requires TrustedRun(c, run) && MeasuredRun(c, run) && c.quota.maxContainers >= 0
    ensures FitsThroughout(c, run) <==> AllAffordable(c, run)
  {
    ReachableOrderly(c, run);
    FitsForeverIff(c, After(c, run));
    if run == [] {
      NothingHeld();
    } else {
      var front, e := run[..|run| - 1], run[|run| - 1];
      TrustedPrefix(c, run);
      LimitHoldsIff(c, front);
      ReachableOrderly(c, front);
      FitsForeverIff(c, After(c, front));
      assert Trusted(c, After(c, run[..|run| - 1]), run[|run| - 1]);
      StepBudget(c, After(c, front), e);
    }
  }
}
