/**
 Workers that lose their lease and go on. Any number of workers may execute the
 same operation; only the lease holder's completion counts, but every worker's
 routes reach the gateway.
 */
module Takeover {
  import opened Domain
  import opened Transactions
  import opened Coupling
  import opened Effects
  import opened CouplingProof
  import opened Leases
  import opened Guarantees
  import opened CapacitySteps
  import opened Gateway
  import opened GatewayProof

  // ----- Runs with any number of takeovers ------------------------------------------

  /** The orchestrator's answers are as requested; nothing is assumed of leases or of what succeeds. */
  predicate AsAsked(c: Config, y: System, e: SystemEvent) {
    e.Command? && e.work in y.sagas && e.work.id in y.db.ops ==>
      && (e.provision.Some? ==> TrustedProvision(c.quota, e.provision.value))
      && TrustedInstanceAnswer(y.db.ops[e.work.id], e.instance)
  }

  /** What a worker remembers of its answers. */
  predicate Remembers(c: Config, o: Operation, phase: Phase) {
    match phase
    case Provisioned(result) => TrustedProvision(c.quota, result)
    case Created(i) => Decodes(Some(i)) && TrustedInstanceAnswer(o, Some(i))
    case Routed(i) =>
      && TrustedInstanceAnswer(o, i)
      && (o.action == AddInstance ==> i.Some? && Decodes(i))
      && (o.action == SetWeights || o.action == ApplyAdaptive ==> i == None)
    case Outdated => o.action == ApplyAdaptive
    case _ => true
  }

  predicate AllRemember(c: Config, y: System) {
    forall work :: work in y.sagas ==> work.id in y.db.ops && Remembers(c, y.db.ops[work.id], y.sagas[work])
  }

  /** Operations that create or resize an instance name it. */
  predicate Named(o: Operation) {
    o.action == AddInstance || o.action == SetPerformance ==> o.payload.TopologyPayload? && o.payload.name != ""
  }

  predicate AllNamed(s: State) {
    forall id :: id in s.ops ==> Named(s.ops[id])
  }

  ghost predicate Sound(c: Config, y: System) {
    Inv(c, y.db) && AllRemember(c, y) && AllNamed(y.db)
  }

  lemma RememberedReportTrusted(c: Config, s: State, work: Work, phase: Phase, now: Time)
    requires work.id in s.ops && Remembers(c, s.ops[work.id], phase) && FinalReport(s.ops[work.id], phase).Some?
    ensures Trusted(c, s, CompleteEvent(work.id, work.owner, FinalReport(s.ops[work.id], phase).value, now))
  {
  }

  lemma CommandRemembers(c: Config, o: Operation, phase: Phase, gw: Servers, valid: bool, e: SystemEvent)
    requires e.Command? && Remembers(c, o, phase)
    requires (e.provision.Some? ==> TrustedProvision(c.quota, e.provision.value)) && TrustedInstanceAnswer(o, e.instance)
    ensures Remembers(c, o, RunCommand(o, phase, gw, valid, e).0)
  {
  }

  /** What a worker remembers depends on the payload alone, which never changes. */
  ghost predicate SamePayloads(s: State, t: State) {
    forall id :: id in s.ops ==>
      id in t.ops && t.ops[id].payload == s.ops[id].payload && t.ops[id].lab == s.ops[id].lab && t.ops[id].action == s.ops[id].action
  }

  lemma TransactionPayloads(c: Config, s: State, e: Event)
    requires !e.CompleteEvent?
    ensures SamePayloads(s, Next(c, s, e).0)
  {
    if Enqueueing(e) {
      EnqueueEffect(c, s, e);
    }
  }

  lemma CompletionPayloads(s: State, id: OpId, owner: Owner, report: Report, now: Time)
    ensures SamePayloads(s, Complete(s, id, owner, report, now).0)
  {
    var t := Complete(s, id, owner, report, now).0;
    forall i | i in s.ops
      ensures i in t.ops && t.ops[i].payload == s.ops[i].payload && t.ops[i].lab == s.ops[i].lab && t.ops[i].action == s.ops[i].action
    {
      if i != id {
        CompletionFrame(s, id, owner, report, now, i);
      } else {
        OwnPayload(s, id, owner, report, now);
      }
    }
  }

  lemma OwnPayload(s: State, id: OpId, owner: Owner, report: Report, now: Time)
    requires id in s.ops
    ensures var t := Complete(s, id, owner, report, now).0;
      id in t.ops && t.ops[id].payload == s.ops[id].payload && t.ops[id].lab == s.ops[id].lab && t.ops[id].action == s.ops[id].action
  {
  }

  lemma SagasRemember(c: Config, y: System, t: State)
    requires SamePayloads(y.db, t) && AllRemember(c, y)
    ensures AllRemember(c, y.(db := t))
  {
  }

  lemma StepRemembers(c: Config, y: System, e: SystemEvent)
    requires AllRemember(c, y) && AsAsked(c, y, e)
    ensures AllRemember(c, SystemNext(c, y, e))
  {
    match e
    case Transact(event) =>
      if !event.CompleteEvent? && !event.StartEvent? {
        TransactionPayloads(c, y.db, event);
        SagasRemember(c, y, Next(c, y.db, event).0);
      }
    case Begin(work, lease) =>
      TransactionPayloads(c, y.db, StartEvent(work.id, work.owner, lease));
      SagasRemember(c, y, MarkRunning(y.db, work.id, work.owner, lease).0);
    case Command(work, _, _, _, _, _) =>
      if work in y.sagas {
        var o := y.db.ops[work.id];
        CommandRemembers(c, o, y.sagas[work], Served(y, o.lab), StillValid(y.db, work.id), e);
      }
    case Abandon(_, _) =>
    case Commit(work, now) =>
      if work in y.sagas && FinalReport(y.db.ops[work.id], y.sagas[work]).Some? {
        var report := FinalReport(y.db.ops[work.id], y.sagas[work]).value;
        CompletionPayloads(y.db, work.id, work.owner, report, now);
        SagasRemember(c, y, Complete(y.db, work.id, work.owner, report, now).0);
      }
  }

  lemma CommitStaysSound(c: Config, y: System, work: Work, now: Time)
    requires Inv(c, y.db) && work.id in y.db.ops && work in y.sagas && Remembers(c, y.db.ops[work.id], y.sagas[work])
    ensures Inv(c, SystemNext(c, y, Commit(work, now)).db)
  {
    var report := FinalReport(y.db.ops[work.id], y.sagas[work]);
    if report.Some? {
      RememberedReportTrusted(c, y.db, work, y.sagas[work], now);
      CompleteKeepsInv(c, y.db, work.id, work.owner, report.value, now);
    }
  }

  lemma FlyingIsNamed(c: Config, s: State, id: OpId)
    requires Inv(c, s) && id in s.ops && s.ops[id].status.InFlight()
    ensures Named(s.ops[id])
  {
    OperationFits(c, s, id);
  }

  lemma TransactionNames(c: Config, s: State, e: Event)
    requires AllNamed(s) && !e.CompleteEvent? && Inv(c, Next(c, s, e).0)
    ensures AllNamed(Next(c, s, e).0)
  {
    var t := Next(c, s, e).0;
    TransactionPayloads(c, s, e);
    if Enqueueing(e) {
      EnqueueEffect(c, s, e);
    }
    forall id | id in t.ops ensures Named(t.ops[id]) {
      if id in s.ops {
        assert Named(s.ops[id]);
      } else {
        FlyingIsNamed(c, t, id);
      }
    }
  }

  lemma CompletionNames(s: State, id: OpId, owner: Owner, report: Report, now: Time)
    requires AllNamed(s) && id in s.ops
    ensures AllNamed(Complete(s, id, owner, report, now).0)
  {
    var t := Complete(s, id, owner, report, now).0;
    CompletionPayloads(s, id, owner, report, now);
    CompletionIdentity(s, id, owner, report, now);
    forall i | i in t.ops ensures Named(t.ops[i]) {
      assert i in t.ops.Keys;
      assert Named(s.ops[i]);
    }
  }

  lemma StepStaysSound(c: Config, y: System, e: SystemEvent)
    requires Sound(c, y) && AsAsked(c, y, e)
    ensures Sound(c, SystemNext(c, y, e))
  {
    StepRemembers(c, y, e);
    match e
    case Transact(event) =>
      if !event.CompleteEvent? && !event.StartEvent? {
        StepKeepsInv(c, y.db, event);
        TransactionNames(c, y.db, event);
      }
    case Begin(work, lease) =>
      LeaseStepsKeepInv(c, y.db, work.id, work.owner, 0, lease);
      TransactionNames(c, y.db, StartEvent(work.id, work.owner, lease));
    case Command(_, _, _, _, _, _) =>
    case Abandon(_, _) =>
    case Commit(work, now) =>
      if work in y.sagas {
        CommitStaysSound(c, y, work, now);
        if FinalReport(y.db.ops[work.id], y.sagas[work]).Some? {
          CompletionNames(y.db, work.id, work.owner, FinalReport(y.db.ops[work.id], y.sagas[work]).value, now);
        }
      }
  }

  ghost predicate AsAskedRun(c: Config, run: seq<SystemEvent>) {
    run != [] ==>
      AsAskedRun(c, run[..|run| - 1]) && AsAsked(c, SystemAfter(c, run[..|run| - 1]), run[|run| - 1])
  }

  /** However many leases are lost, the tables keep the coupling invariant. */
  lemma {:induction false} TakeoversStaySound(c: Config, run: seq<SystemEvent>)
    requires AsAskedRun(c, run)
    ensures Sound(c, SystemAfter(c, run))
  {
    if run != [] {
      TakeoversStaySound(c, run[..|run| - 1]);
      StepStaysSound(c, SystemAfter(c, run[..|run| - 1]), run[|run| - 1]);
    }
  }

  // ----- While an operation is in flight ---------------------------------------------------

  /** Only this operation is being executed on its lab. */
  predicate Exclusive(y: System, id: OpId)
    requires id in y.db.ops
  {
    forall work :: work in y.sagas ==>
      work.id in y.db.ops && (y.db.ops[work.id].lab == y.db.ops[id].lab ==> work.id == id)
  }

  /** The lab's upstream list is that of its rows, or the operation's own. */
  predicate OwnList(y: System, id: OpId)
    requires id in y.db.ops
  {
    var o := y.db.ops[id];
    Served(y, o.lab) == WeightsOf(Rows(y.db, o.lab)) || Served(y, o.lab) == Target(o)
  }

  predicate UnderWay(s: State, id: OpId) {
    id in s.ops && s.ops[id].status.InFlight() && s.ops[id].action.Topology()
  }

  /** A command routes the target, puts the previous list back, or leaves the gateway alone. */
  lemma CommandRoutes(o: Operation, phase: Phase, gw: Servers, valid: bool, e: SystemEvent)
    requires e.Command? && o.action.Topology()
    ensures var servers := RunCommand(o, phase, gw, valid, e).1;
      servers == gw || servers == Target(o)
      || ((o.action == RemoveInstance || o.action == SetPerformance) && servers == Previous(o))
  {
  }

  lemma PreviousIsRows(c: Config, s: State, id: OpId)
    requires Inv(c, s) && UnderWay(s, id) && (s.ops[id].action == RemoveInstance || s.ops[id].action == SetPerformance)
    ensures Previous(s.ops[id]) == WeightsOf(Rows(s, s.ops[id].lab))
  {
    OperationFits(c, s, id);
  }

  /** Completions of other operations, and refused ones, leave the rows of an operation under way. */
  lemma CompletionElsewhere(c: Config, s: State, id: OpId, work: Work, report: Report, now: Time)
    requires Inv(c, s) && UnderWay(s, id) && work.id in s.ops
    requires UnderWay(Complete(s, work.id, work.owner, report, now).0, id)
    ensures Rows(Complete(s, work.id, work.owner, report, now).0, s.ops[id].lab) == Rows(s, s.ops[id].lab)
  {
    var (t, reply) := Complete(s, work.id, work.owner, report, now);
    CompletionFinishes(s, work.id, work.owner, report, now);
    if reply == Done {
      assert OpInFlight(s, work.id, s.ops[work.id].lab) && OpInFlight(s, id, s.ops[id].lab);
      CompleteFrame(s, work.id, work.owner, report, now);
    }
  }

  lemma CommandLeaves(c: Config, y: System, e: SystemEvent, id: OpId)
    requires Inv(c, y.db) && UnderWay(y.db, id) && Exclusive(y, id) && OwnList(y, id) && (e.Command? || e.Abandon?)
    ensures var z := SystemNext(c, y, e); z.db == y.db && Exclusive(z, id) && OwnList(z, id)
  {
    if y.db.ops[id].action == RemoveInstance || y.db.ops[id].action == SetPerformance {
      PreviousIsRows(c, y.db, id);
    }
    CommandKeepsList(c, y, e, id);
  }

  lemma CommandKeepsList(c: Config, y: System, e: SystemEvent, id: OpId)
    requires id in y.db.ops && y.db.ops[id].action.Topology() && Exclusive(y, id) && OwnList(y, id) && (e.Command? || e.Abandon?)
    requires (y.db.ops[id].action == RemoveInstance || y.db.ops[id].action == SetPerformance) ==>
               Previous(y.db.ops[id]) == WeightsOf(Rows(y.db, y.db.ops[id].lab))
    ensures var z := SystemNext(c, y, e); z.db == y.db && Exclusive(z, id) && OwnList(z, id)
  {
    var o := y.db.ops[id];
    if e.work in y.sagas && e.work.id == id && e.Command? {
      CommandRoutes(o, y.sagas[e.work], Served(y, o.lab), StillValid(y.db, id), e);
    }
  }

  lemma TransactLeaves(c: Config, y: System, e: Event, id: OpId)
    requires id in y.db.ops && Exclusive(y, id) && OwnList(y, id) && !e.CompleteEvent?
    ensures id in Next(c, y.db, e).0.ops && Exclusive(y.(db := Next(c, y.db, e).0), id) && OwnList(y.(db := Next(c, y.db, e).0), id)
  {
    TransactionPayloads(c, y.db, e);
    TransactionRows(c, y.db, e);
    TablesKeepList(y, y.(db := Next(c, y.db, e).0), id);
  }

  lemma BeginLeaves(c: Config, y: System, work: Work, lease: Time, id: OpId)
    requires OneInFlight(y.db) && UnderWay(y.db, id) && Exclusive(y, id) && OwnList(y, id)
    ensures var z := SystemNext(c, y, Begin(work, lease)); id in z.db.ops && Exclusive(z, id) && OwnList(z, id)
  {
    TransactLeaves(c, y, StartEvent(work.id, work.owner, lease), id);
    if MarkRunning(y.db, work.id, work.owner, lease).1 == Done {
      assert OpInFlight(y.db, id, y.db.ops[id].lab) && OpInFlight(y.db, work.id, y.db.ops[work.id].lab);
    }
  }

  lemma TransactionRows(c: Config, s: State, e: Event)
    requires !e.CompleteEvent?
    ensures Next(c, s, e).0.instances == s.instances
  {
    if Enqueueing(e) {
      EnqueueEffect(c, s, e);
    }
  }

  /** Tables with the same payloads and the same rows of the lab, and no new saga. */
  lemma TablesKeepList(y: System, z: System, id: OpId)
    requires id in y.db.ops && Exclusive(y, id) && OwnList(y, id) && SamePayloads(y.db, z.db)
    requires z.gateway == y.gateway && Rows(z.db, y.db.ops[id].lab) == Rows(y.db, y.db.ops[id].lab)
    requires forall work :: work in z.sagas ==> work in y.sagas
    ensures Exclusive(z, id) && OwnList(z, id)
  {
  }

  lemma CompletionKeepsRows(c: Config, s: State, id: OpId, work: Work, report: Report, now: Time)
    requires Inv(c, s) && UnderWay(s, id) && work.id in s.ops
    requires UnderWay(Complete(s, work.id, work.owner, report, now).0, id)
    ensures var t := Complete(s, work.id, work.owner, report, now).0;
      SamePayloads(s, t) && Rows(t, s.ops[id].lab) == Rows(s, s.ops[id].lab)
  {
    CompletionElsewhere(c, s, id, work, report, now);
    CompletionPayloads(s, work.id, work.owner, report, now);
  }

  lemma CommitLeaves(y: System, t: State, work: Work, id: OpId)
    requires id in y.db.ops && Exclusive(y, id) && OwnList(y, id)
    requires SamePayloads(y.db, t) && Rows(t, y.db.ops[id].lab) == Rows(y.db, y.db.ops[id].lab)
    ensures var z := y.(db := t, sagas := y.sagas - {work}); id in z.db.ops && Exclusive(z, id) && OwnList(z, id)
  {
    TablesKeepList(y, y.(db := t, sagas := y.sagas - {work}), id);
  }

  lemma LeavesOwnList(c: Config, y: System, e: SystemEvent, id: OpId)
    requires Inv(c, y.db) && UnderWay(y.db, id) && Exclusive(y, id) && OwnList(y, id) && UnderWay(SystemNext(c, y, e).db, id)
    ensures Exclusive(SystemNext(c, y, e), id) && OwnList(SystemNext(c, y, e), id)
  {
    match e
    case Transact(event) =>
      if !event.CompleteEvent? && !event.StartEvent? {
        TransactLeaves(c, y, event, id);
      }
    case Begin(work, lease) => BeginLeaves(c, y, work, lease, id);
    case Command(_, _, _, _, _, _) => CommandLeaves(c, y, e, id);
    case Abandon(_, _) => CommandLeaves(c, y, e, id);
    case Commit(work, now) =>
      if work in y.sagas && FinalReport(y.db.ops[work.id], y.sagas[work]).Some? {
        var report := FinalReport(y.db.ops[work.id], y.sagas[work]).value;
        CompletionKeepsRows(c, y.db, id, work, report, now);
        CommitLeaves(y, Complete(y.db, work.id, work.owner, report, now).0, work, id);
      }
  }

  function Onward(c: Config, y: System, run: seq<SystemEvent>): System
    decreases |run|
  {
    if run == [] then y else Onward(c, SystemNext(c, y, run[0]), run[1..])
  }

  /** A stretch of a run throughout which the operation is in flight. */
  predicate KeptUnderWay(c: Config, y: System, run: seq<SystemEvent>, id: OpId)
    decreases |run|
  {
    && UnderWay(y.db, id)
    && (run != [] ==> AsAsked(c, y, run[0]) && KeptUnderWay(c, SystemNext(c, y, run[0]), run[1..], id))
  }

  /** From an agreeing start, however often an operation is taken over and by however many workers it is executed at
      once, its lab's upstream list is at every moment that of the rows or the operation's own. */
  lemma {:induction false} LostWorkersLeave(c: Config, y: System, run: seq<SystemEvent>, id: OpId)
    requires Sound(c, y) && KeptUnderWay(c, y, run, id) && Exclusive(y, id) && OwnList(y, id)
    ensures var z := Onward(c, y, run); Sound(c, z) && UnderWay(z.db, id) && Exclusive(z, id) && OwnList(z, id)
    decreases |run|
  {
    if run != [] {
      StepStaysSound(c, y, run[0]);
      LeavesOwnList(c, y, run[0], id);
      LostWorkersLeave(c, SystemNext(c, y, run[0]), run[1..], id);
    }
  }
}
