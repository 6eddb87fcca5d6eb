/** Every benign step keeps gateway and database in agreement. */
module GatewayProof {
  import opened Domain
  import opened Transactions
  import opened Coupling
  import opened Effects
  import opened CouplingProof
  import opened Gateway
  import opened Guarantees

  // ----- What a step leaves alone ---------------------------------------------

  /** Tables that differ only outside the sagas, with no lab newly serving. */
  lemma QuietTables(fit: Fit, y: System, t: State)
    requires SagasFit(fit, y) && IdleAgree(y) && t.instances == y.db.instances
    requires forall work :: work in y.sagas ==> work.id in t.ops && t.ops[work.id] == y.db.ops[work.id]
    requires forall lab :: lab in t.sessions && t.sessions[lab].status.Up() ==> lab in y.db.sessions && y.db.sessions[lab].status.Up()
    ensures SagasFit(fit, y.(db := t)) && IdleAgree(y.(db := t))
  {
    var z := y.(db := t);
    forall lab ensures Rows(t, lab) == Rows(y.db, lab) && Served(z, lab) == Served(y, lab) {}
    forall lab | InSaga(y, lab) ensures InSaga(z, lab) {
      var work :| work in y.sagas && work.id in y.db.ops && y.db.ops[work.id].lab == lab;
      assert work in z.sagas && work.id in z.db.ops && z.db.ops[work.id].lab == lab;
    }
  }

  /** A saga joins for a lab that had none. */
  lemma JoiningSaga(fit: Fit, y: System, t: State, work: Work)
    requires SagasFit(fit, y) && IdleAgree(y) && (forall w :: w in y.sagas ==> w.id != work.id)
    requires work.id in y.db.ops && work.id in t.ops && t == y.db.(ops := y.db.ops[work.id := t.ops[work.id]])
    requires t.ops[work.id].lab == y.db.ops[work.id].lab && HoldsLease(t, work.id, work.owner)
    requires fit(t.ops[work.id], Ready, Rows(t, t.ops[work.id].lab), Served(y, t.ops[work.id].lab))
    ensures var z := y.(db := t, sagas := y.sagas[work := Ready]); SagasFit(fit, z) && IdleAgree(z)
  {
    var z := y.(db := t, sagas := y.sagas[work := Ready]);
    forall lab ensures Rows(t, lab) == Rows(y.db, lab) && Served(z, lab) == Served(y, lab) {}
    forall lab | InSaga(y, lab) ensures InSaga(z, lab) {
      var j :| j in y.sagas && j.id in y.db.ops && y.db.ops[j.id].lab == lab;
      assert j in z.sagas && j.id in z.db.ops && z.db.ops[j.id].lab == lab;
    }
  }

  /** One lab's saga moves, with its upstream list. */
  lemma MovingSaga(fit: Fit, y: System, work: Work, phase: Phase, servers: Servers)
    requires SagasFit(fit, y) && IdleAgree(y) && OneSaga(y) && work in y.sagas
    requires fit(y.db.ops[work.id], phase, Rows(y.db, y.db.ops[work.id].lab), servers)
    ensures var z := y.(sagas := y.sagas[work := phase], gateway := y.gateway[y.db.ops[work.id].lab := servers]);
      SagasFit(fit, z) && IdleAgree(z)
  {
    var own := y.db.ops[work.id].lab;
    var z := y.(sagas := y.sagas[work := phase], gateway := y.gateway[own := servers]);
    forall lab | lab != own ensures Served(z, lab) == Served(y, lab) {}
    assert InSaga(z, own) by { assert work in z.sagas && work.id in z.db.ops; }
    forall lab | InSaga(y, lab) ensures InSaga(z, lab) {
      var j :| j in y.sagas && j.id in y.db.ops && y.db.ops[j.id].lab == lab;
      assert j in z.sagas && j.id in z.db.ops;
    }
  }

  /** One lab's saga ends with its rows equal to its upstream list, or with the lab not serving. */
  lemma EndingSaga(fit: Fit, y: System, z: System, work: Work)
    requires SagasFit(fit, y) && IdleAgree(y) && OneSaga(y) && work in y.sagas && z.sagas == y.sagas - {work}
    requires OnlyOwnLab(y.db, z.db, work.id)
    requires forall lab :: lab != y.db.ops[work.id].lab ==> Served(z, lab) == Served(y, lab)
    requires var lab := y.db.ops[work.id].lab;
      lab in z.db.sessions && z.db.sessions[lab].status.Up() ==> Served(z, lab) == WeightsOf(Rows(z.db, lab))
    ensures SagasFit(fit, z) && IdleAgree(z)
  {
    var own := y.db.ops[work.id].lab;
    forall i | i in z.sagas
      ensures i in y.sagas && i.id != work.id && i.id in z.db.ops && z.db.ops[i.id] == y.db.ops[i.id] && y.db.ops[i.id].lab != own {}
    forall lab | lab != own && InSaga(y, lab) ensures InSaga(z, lab) {
      var j :| j in y.sagas && j.id in y.db.ops && y.db.ops[j.id].lab == lab;
      assert j in z.sagas && j.id in z.db.ops && z.db.ops[j.id].lab == lab;
    }
  }

  ghost predicate OnlyOwnLab(s: State, t: State, id: OpId)
    requires id in s.ops
  {
    && (forall i :: i in s.ops && i != id ==> i in t.ops && t.ops[i] == s.ops[i])
    && (forall lab :: lab != s.ops[id].lab ==> Rows(t, lab) == Rows(s, lab))
    && (forall lab :: lab != s.ops[id].lab && lab in t.sessions ==> lab in s.sessions && t.sessions[lab] == s.sessions[lab])
  }

  // ----- Transactions outside a saga ----------------------------------------

  ghost predicate Undisturbed(s: State, t: State, claimed: Option<OpId>) {
    && t.instances == s.instances
    && (forall id :: id in s.ops && Some(id) != claimed ==> id in t.ops && t.ops[id] == s.ops[id])
    && (forall lab :: lab in t.sessions && t.sessions[lab].status.Up() ==> lab in s.sessions && s.sessions[lab].status.Up())
  }

  lemma SubmitFrame(s: State, q: Quota, user: UserId, lab: LabId, input: ActionInput, now: Time)
    ensures Undisturbed(s, SubmitAction(s, q, user, lab, input, now).0, None)
  {
    SubmitEnqueues(s, q, user, lab, input, now);
  }

  lemma AdvanceFrame(s: State, lab: LabId, now: Time, c: Lifetime)
    ensures Undisturbed(s, Advance(s, lab, now, c).0, None)
  {
  }

  lemma CreateFrame(s: State, q: Quota, user: UserId, course: nat, lookup: CourseLookup, id: OpId, lab: LabId, now: Time)
    ensures Undisturbed(s, Create(s, q, user, course, lookup, id, lab, now).0, None)
  {
    CreateEnqueues(s, q, user, course, lookup, id, lab, now);
  }

  lemma ActionFrame(s: State, user: UserId, lab: LabId, id: OpId, action: Action, reason: Option<Reason>, now: Time)
    ensures Undisturbed(s, EnqueueAction(s, user, lab, id, action, reason, now).0, None)
  {
    ActionEnqueues(s, user, lab, id, action, reason, now);
  }

  lemma AdjustFrame(s: State, user: UserId, lab: LabId, id: OpId, topology: Fingerprint, ws: seq<NameWeight>, now: Time)
    ensures Undisturbed(s, EnqueueAdjustment(s, user, lab, id, topology, ws, now).0, None)
  {
    AdjustEnqueues(s, user, lab, id, topology, ws, now);
  }

  lemma ClaimFrame(s: State, id: OpId, owner: Owner, now: Time, lease: Time)
    ensures Undisturbed(s, Claim(s, id, owner, now, lease).0, Some(id))
  {
  }

  lemma TransactFrame(c: Config, s: State, e: Event)
    requires !e.CompleteEvent? && !e.StartEvent?
    ensures Undisturbed(s, Next(c, s, e).0, if e.ClaimEvent? then Some(e.id) else None)
  {
    match e
    case CreateEvent(user, course, lookup, id, lab, now) => CreateFrame(s, c.quota, user, course, lookup, id, lab, now);
    case ActionEvent(user, lab, id, action, reason, now) => ActionFrame(s, user, lab, id, action, reason, now);
    case SubmitEvent(user, lab, input, now) => SubmitFrame(s, c.quota, user, lab, input, now);
    case AdjustEvent(user, lab, id, topology, ws, now) => AdjustFrame(s, user, lab, id, topology, ws, now);
    case AdvanceEvent(lab, now) => AdvanceFrame(s, lab, now, c.lifetime);
    case ClaimEvent(id, owner, now, lease) => ClaimFrame(s, id, owner, now, lease);
  }

  lemma TransactKeeps(c: Config, y: System, e: Event)
    requires SystemInv(c, y) && Benign(c, y, Transact(e)) && !e.CompleteEvent? && !e.StartEvent?
    ensures SystemInv(c, y.(db := Next(c, y.db, e).0))
  {
    StepKeepsInv(c, y.db, e);
    TransactFrame(c, y.db, e);
    QuietTables(SagaFit(c), y, Next(c, y.db, e).0);
  }

  // ----- One lab's saga ------------------------------------------------------

  lemma InvOneSaga(c: Config, y: System)
    requires OneInFlight(y.db) && SagasFit(SagaFit(c), y)
    ensures OneSaga(y)
  {
    forall i, j | i in y.sagas && j in y.sagas && y.db.ops[i.id].lab == y.db.ops[j.id].lab ensures i == j {
      assert OpInFlight(y.db, i.id, y.db.ops[i.id].lab) && OpInFlight(y.db, j.id, y.db.ops[i.id].lab);
    }
  }

  lemma ReadySagaOk(c: Config, row: Session, o: Operation, p: Operation, rows: Instances, gw: Servers)
    requires ActionFits(row, o.action) && p.action == o.action && p.payload == o.payload
    requires row.status.Up() ==> gw == WeightsOf(rows)
    ensures SagaOk(c, p, Ready, rows, gw)
  {
  }

  lemma NoSagaYet(y: System, c: Config, id: OpId)
    requires OneInFlight(y.db) && SagasFit(SagaFit(c), y) && id in y.db.ops && y.db.ops[id].status == Claimed
    ensures !InSaga(y, y.db.ops[id].lab) && forall work :: work in y.sagas ==> work.id != id
  {
    var lab := y.db.ops[id].lab;
    assert OpInFlight(y.db, id, lab);
    forall j | j in y.sagas && j.id in y.db.ops ensures y.db.ops[j.id].lab != lab {
      assert y.db.ops[j.id].lab == lab ==> OpInFlight(y.db, j.id, lab);
    }
  }

  /** An operation that was only claimed starts from an agreeing gateway. */
  lemma BeginKeeps(c: Config, y: System, work: Work, lease: Time)
    requires SystemInv(c, y)
    ensures SystemInv(c, SystemNext(c, y, Begin(work, lease)))
  {
    var s := y.db;
    var (t, reply) := MarkRunning(s, work.id, work.owner, lease);
    if reply == Done {
      LeaseStepsKeepInv(c, s, work.id, work.owner, 0, lease);
      StartFits(c, y, t, work.id);
      JoiningSaga(SagaFit(c), y, t, work);
    }
  }

  lemma StartFits(c: Config, y: System, t: State, id: OpId)
    requires OneInFlight(y.db) && OpsOk(c, y.db) && SagasFit(SagaFit(c), y) && IdleAgree(y)
    requires id in y.db.ops && y.db.ops[id].status == Claimed && id in t.ops
    requires t == y.db.(ops := y.db.ops[id := t.ops[id]])
    requires t.ops[id].lab == y.db.ops[id].lab && t.ops[id].action == y.db.ops[id].action && t.ops[id].payload == y.db.ops[id].payload
    ensures (forall work :: work in y.sagas ==> work.id != id) && SagaFit(c)(t.ops[id], Ready, Rows(t, t.ops[id].lab), Served(y, t.ops[id].lab))
  {
    var s, lab := y.db, y.db.ops[id].lab;
    NoSagaYet(y, c, id);
    ReadySagaOk(c, s.sessions[lab], s.ops[id], t.ops[id], Rows(s, lab), Served(y, lab));
    assert Rows(t, lab) == Rows(s, lab);
  }

  lemma CommandLabOk(c: Config, o: Operation, phase: Phase, rows: Instances, gw: Servers, valid: bool, e: SystemEvent)
    requires e.Command? && SagaOk(c, o, phase, rows, gw) && TrustedLabAnswer(c, o, e)
    requires o.action == CreateLab || o.action == ResetLab || o.action == DestroyLab || o.action == SetMode || o.action.Cache()
    ensures var (p, servers) := RunCommand(o, phase, gw, valid, e); SagaOk(c, o, p, rows, servers)
  {
  }

  lemma CommandInstanceOk(c: Config, o: Operation, phase: Phase, rows: Instances, gw: Servers, valid: bool, e: SystemEvent)
    requires e.Command? && SagaOk(c, o, phase, rows, gw) && TrustedInstanceAnswer(o, e.instance)
    requires o.action == AddInstance || (o.action == SetPerformance && Target(o) == Previous(o) == WeightsOf(rows))
    ensures var (p, servers) := RunCommand(o, phase, gw, valid, e); SagaOk(c, o, p, rows, servers)
  {
  }

  lemma CommandRemoveOk(c: Config, o: Operation, phase: Phase, rows: Instances, gw: Servers, valid: bool, e: SystemEvent)
    requires e.Command? && SagaOk(c, o, phase, rows, gw) && (phase == Restore ==> e.ok)
    requires o.action == RemoveInstance && Previous(o) == WeightsOf(rows)
    ensures var (p, servers) := RunCommand(o, phase, gw, valid, e); SagaOk(c, o, p, rows, servers)
  {
  }

  lemma CommandWeightsOk(c: Config, o: Operation, phase: Phase, rows: Instances, gw: Servers, valid: bool, e: SystemEvent)
    requires e.Command? && SagaOk(c, o, phase, rows, gw)
    requires o.action == SetWeights || o.action == ApplyAdaptive
    ensures var (p, servers) := RunCommand(o, phase, gw, valid, e); SagaOk(c, o, p, rows, servers)
  {
  }

  /** A command moves a saga to a phase whose upstream list is the expected one. */
  lemma CommandSagaOk(c: Config, row: Session, o: Operation, phase: Phase, rows: Instances, gw: Servers, valid: bool, e: SystemEvent)
    requires e.Command? && PayloadFits(c.quota, row, rows, o) && SagaOk(c, o, phase, rows, gw)
    requires TrustedLabAnswer(c, o, e) && TrustedInstanceAnswer(o, e.instance)
    requires phase == Restore && o.action == RemoveInstance ==> e.ok
    ensures var (p, servers) := RunCommand(o, phase, gw, valid, e); SagaOk(c, o, p, rows, servers)
  {
    if o.action == AddInstance || o.action == SetPerformance {
      CommandInstanceOk(c, o, phase, rows, gw, valid, e);
    } else if o.action == RemoveInstance {
      CommandRemoveOk(c, o, phase, rows, gw, valid, e);
    } else if o.action == SetWeights || o.action == ApplyAdaptive {
      CommandWeightsOk(c, o, phase, rows, gw, valid, e);
    } else {
      CommandLabOk(c, o, phase, rows, gw, valid, e);
    }
  }

  lemma CommandKeeps(c: Config, y: System, e: SystemEvent)
    requires SystemInv(c, y) && e.Command? && Benign(c, y, e)
    ensures SystemInv(c, SystemNext(c, y, e))
  {
    if e.work in y.sagas {
      var s, work := y.db, e.work;
      var o, phase, valid := s.ops[work.id], y.sagas[work], StillValid(s, work.id);
      InvOneSaga(c, y);
      OperationFits(c, s, work.id);
      CommandSagaOk(c, s.sessions[o.lab], o, phase, Rows(s, o.lab), Served(y, o.lab), valid, e);
      var (p, servers) := RunCommand(o, phase, Served(y, o.lab), valid, e);
      MovingSaga(SagaFit(c), y, work, p, servers);
    }
  }

  // ----- Ending a saga --------------------------------------------------------

  lemma AbandonFits(fit: Fit, y: System, work: Work)
    requires SagasFit(fit, y) && IdleAgree(y) && OneSaga(y) && work in y.sagas
    requires Previous(y.db.ops[work.id]) == WeightsOf(Rows(y.db, y.db.ops[work.id].lab))
    ensures var o := y.db.ops[work.id];
      var z := y.(sagas := y.sagas - {work}, gateway := y.gateway[o.lab := Previous(o)]);
      SagasFit(fit, z) && IdleAgree(z)
  {
    var o := y.db.ops[work.id];
    EndingSaga(fit, y, y.(sagas := y.sagas - {work}, gateway := y.gateway[o.lab := Previous(o)]), work);
  }

  lemma AbandonStep(c: Config, fit: Fit, y: System, work: Work)
    requires SagasFit(fit, y) && IdleAgree(y) && OneSaga(y)
    requires work in y.sagas && y.db.ops[work.id].action == RemoveInstance ==>
      Previous(y.db.ops[work.id]) == WeightsOf(Rows(y.db, y.db.ops[work.id].lab))
    ensures var z := SystemNext(c, y, Abandon(work, true)); SagasFit(fit, z) && IdleAgree(z) && z.db == y.db
  {
    if work in y.sagas && y.db.ops[work.id].action == RemoveInstance && y.sagas[work].Routed? {
      AbandonFits(fit, y, work);
    }
  }

  lemma AbandonKeeps(c: Config, y: System, work: Work)
    requires SystemInv(c, y)
    ensures SystemInv(c, SystemNext(c, y, Abandon(work, true)))
  {
    InvOneSaga(c, y);
    if work in y.sagas && y.db.ops[work.id].action == RemoveInstance {
      RemovalRemembers(c, y.db, work.id);
    }
    AbandonStep(c, SagaFit(c), y, work);
  }

  /** A removal's payload holds the weights to put back. */
  lemma RemovalRemembers(c: Config, s: State, id: OpId)
    requires OpsOk(c, s) && id in s.ops && s.ops[id].status.InFlight() && s.ops[id].action == RemoveInstance
    ensures Previous(s.ops[id]) == WeightsOf(Rows(s, s.ops[id].lab))
  {
  }

  lemma ProvisionFrame(s: State, id: OpId, owner: Owner, outcome: Outcome<ProvisionResult>, now: Time)
    requires id in s.ops
    ensures OnlyOwnLab(s, CompleteProvision(s, id, owner, outcome, now).0, id)
  {
  }

  lemma ResetFrame(s: State, id: OpId, owner: Owner, outcome: Outcome<ProvisionResult>, now: Time)
    requires id in s.ops
    ensures OnlyOwnLab(s, CompleteReset(s, id, owner, outcome, now).0, id)
  {
  }

  lemma DestroyFrame(s: State, id: OpId, owner: Owner, ok: bool, now: Time)
    requires id in s.ops
    ensures OnlyOwnLab(s, CompleteDestroy(s, id, owner, ok, now).0, id)
  {
  }

  lemma TopologyFrame(s: State, id: OpId, owner: Owner, outcome: Outcome<TopologyResult>, now: Time)
    requires id in s.ops
    ensures OnlyOwnLab(s, CompleteTopology(s, id, owner, outcome, now).0, id)
  {
  }

  lemma CompleteFrame(s: State, id: OpId, owner: Owner, report: Report, now: Time)
    requires id in s.ops && s.ops[id].lab in s.sessions
    ensures OnlyOwnLab(s, Complete(s, id, owner, report, now).0, id)
  {
    match report
    case ProvisionReport(outcome) =>
      ProvisionFrame(s, id, owner, CheckedProvision(s.ops[id], outcome), now);
      ResetFrame(s, id, owner, CheckedProvision(s.ops[id], outcome), now);
    case DestroyReport(ok) => DestroyFrame(s, id, owner, ok, now);
    case TopologyReport(instance, stale) => TopologyFrame(s, id, owner, TopologyOutcome(s.ops[id], instance, stale), now);
    case CacheReport(redis) => CacheFrame(s, id, owner, redis, now);
  }

  lemma CacheFrame(s: State, id: OpId, owner: Owner, outcome: Outcome<bool>, now: Time)
    requires id in s.ops
    ensures OnlyOwnLab(s, CompleteCache(s, id, owner, outcome, now).0, id)
  {
  }

  // ----- Rows after a completion ---------------------------------------------

  lemma ReweightedWeights(rows: Instances, weights: Servers)
    requires weights.Keys == rows.Keys
    ensures WeightsOf(Reweighted(rows, weights)) == weights
  {
  }

  /** The weights that the rows will carry after the topology completion of a saga. */
  ghost predicate WritesWeights(row: Session, rows: Instances, o: Operation, report: Report, gw: Servers)
  {
    && report.TopologyReport?
    && match TopologyOutcome(o, report.instance, report.stale)
       case Failure => gw == WeightsOf(rows)
       case Success(r) => ApplyTopology(row, rows, o.action, r).Applied? ==> WeightsOf(ApplyTopology(row, rows, o.action, r).rows) == gw
  }

  lemma InstanceWritesWeights(c: Config, row: Session, rows: Instances, o: Operation, phase: Phase, gw: Servers)
    requires PayloadFits(c.quota, row, rows, o) && SagaOk(c, o, phase, rows, gw) && FinalReport(o, phase).Some?
    requires o.action == AddInstance || o.action == SetPerformance
    ensures WritesWeights(row, rows, o, FinalReport(o, phase).value, gw)
  {
    if o.action == AddInstance && phase.Routed? {
      var i := phase.answer.value;
      var after := rows[i.name := InstanceRow(i).(status := InstanceRunning)];
      assert WeightsOf(after) == WeightsOf(rows)[i.name := 100];
    } else if phase.Routed? && phase.answer.Some? && phase.answer.value.name in rows {
      var i := phase.answer.value;
      var after := rows[i.name := rows[i.name].(container := Some(i.container), status := InstanceRunning, cpu := i.cpu,
                                                performance := i.performance, speed := i.speed)];
      assert WeightsOf(after) == WeightsOf(rows);
    }
  }

  lemma RemoveWritesWeights(c: Config, row: Session, rows: Instances, o: Operation, phase: Phase, gw: Servers)
    requires PayloadFits(c.quota, row, rows, o) && SagaOk(c, o, phase, rows, gw) && FinalReport(o, phase).Some?
    requires o.action == RemoveInstance || o.action == SetMode
    ensures WritesWeights(row, rows, o, FinalReport(o, phase).value, gw)
  {
    assert o.action == RemoveInstance ==> WeightsOf(rows - {o.payload.name}) == WeightsOf(rows) - {o.payload.name};
  }

  lemma FixedWritesWeights(row: Session, rows: Instances, o: Operation, phase: Phase, gw: Servers)
    requires o.action == SetWeights && o.payload.TopologyPayload?
    requires FinalReport(o, phase).Some? && phase != Outdated
    requires if phase.Routed? then phase.answer == None && gw == Target(o) else gw == WeightsOf(rows)
    requires var a := ApplyWeights(row, rows, NoResult.(weights := o.payload.input.weights));
      a.Applied? ==> WeightsOf(a.rows) == Target(o)
    ensures WritesWeights(row, rows, o, FinalReport(o, phase).value, gw)
  {
  }

  lemma AdaptiveWritesWeights(row: Session, rows: Instances, o: Operation, phase: Phase, gw: Servers)
    requires o.action == ApplyAdaptive && o.payload.AdaptivePayload? && FinalReport(o, phase).Some?
    requires o.payload.servers != map[] && |o.payload.weights| == |o.payload.servers|
    requires if phase.Routed? then phase.answer == None && gw == Target(o) else gw == WeightsOf(rows)
    requires var a := ApplyWeights(row, rows, NoResult.(weights := o.payload.weights));
      a.Applied? ==> WeightsOf(a.rows) == Target(o)
    ensures WritesWeights(row, rows, o, FinalReport(o, phase).value, gw)
  {
    if phase.Routed? {
      assert TopologyOutcome(o, Success(None), false) == Success(NoResult.(weights := o.payload.weights));
    } else if phase == Outdated {
      SkippedWritesNothing(row, rows, o);
    }
  }

  /** A skipped adjustment leaves the rows alone. */
  lemma SkippedWritesNothing(row: Session, rows: Instances, o: Operation)
    requires o.action == ApplyAdaptive && o.payload.AdaptivePayload?
    requires o.payload.servers != map[] && |o.payload.weights| == |o.payload.servers|
    ensures WritesWeights(row, rows, o, TopologyReport(Success(None), true), WeightsOf(rows))
  {
    var r := NoResult.(skipped := true);
    assert TopologyOutcome(o, Success(None), true) == Success(r);
    assert ApplyTopology(row, rows, ApplyAdaptive, r) == Applied(rows, row.mode);
  }

  lemma WeightsWriteWeights(c: Config, row: Session, rows: Instances, o: Operation, phase: Phase, gw: Servers)
    requires PayloadFits(c.quota, row, rows, o) && SagaOk(c, o, phase, rows, gw) && FinalReport(o, phase).Some?
    requires rows.Keys != {} && (o.action == SetWeights || o.action == ApplyAdaptive)
    ensures WritesWeights(row, rows, o, FinalReport(o, phase).value, gw)
  {
    if o.action == SetWeights {
      AppliedTargets(row, rows, o.payload.input.weights);
      FixedWritesWeights(row, rows, o, phase, gw);
    } else {
      AppliedTargets(row, rows, o.payload.weights);
      WeightMapSize(o.payload.weights);
      AdaptiveWritesWeights(row, rows, o, phase, gw);
    }
  }

  lemma AppliedTargets(row: Session, rows: Instances, ws: seq<NameWeight>)
    requires ValidWeights(rows.Keys, ws)
    ensures WeightMap(ws).Keys == rows.Keys
    ensures var a := ApplyWeights(row, rows, NoResult.(weights := ws)); a.Applied? ==> WeightsOf(a.rows) == WeightMap(ws)
  {
    WeightsCover(rows.Keys, ws);
    ReweightedWeights(rows, WeightMap(ws));
  }

  /** The rows a topology completion writes carry the weights the gateway already serves. */
  lemma SagaWritesWeights(c: Config, row: Session, rows: Instances, o: Operation, phase: Phase, gw: Servers)
    requires PayloadFits(c.quota, row, rows, o) && SagaOk(c, o, phase, rows, gw) && o.action.Topology() && rows.Keys != {}
    requires FinalReport(o, phase).Some?
    ensures WritesWeights(row, rows, o, FinalReport(o, phase).value, gw)
  {
    if o.action == AddInstance || o.action == SetPerformance {
      InstanceWritesWeights(c, row, rows, o, phase, gw);
    } else if o.action == SetWeights || o.action == ApplyAdaptive {
      WeightsWriteWeights(c, row, rows, o, phase, gw);
    } else {
      RemoveWritesWeights(c, row, rows, o, phase, gw);
    }
  }

  lemma TopologyCommitAgrees(s: State, id: OpId, owner: Owner, report: Report, gw: Servers, now: Time)
    requires HoldsLease(s, id, owner) && s.ops[id].lab in s.sessions && s.ops[id].action.Topology() && report.TopologyReport?
    requires WritesWeights(s.sessions[s.ops[id].lab], Rows(s, s.ops[id].lab), s.ops[id], report, gw)
    requires Complete(s, id, owner, report, now).1 == Done
    ensures WeightsOf(Rows(Complete(s, id, owner, report, now).0, s.ops[id].lab)) == gw
  {
  }

  lemma LabCommitAgrees(c: Config, s: State, id: OpId, owner: Owner, phase: Phase, gw: Servers, now: Time)
    requires HoldsLease(s, id, owner) && s.ops[id].lab in s.sessions
    requires s.ops[id].action == CreateLab || s.ops[id].action == ResetLab || s.ops[id].action == DestroyLab
    requires ActionFits(s.sessions[s.ops[id].lab], s.ops[id].action)
    requires SagaOk(c, s.ops[id], phase, Rows(s, s.ops[id].lab), gw)
    requires FinalReport(s.ops[id], phase).Some?
    ensures var t := Complete(s, id, owner, FinalReport(s.ops[id], phase).value, now).0; var lab := s.ops[id].lab;
      lab in t.sessions && (t.sessions[lab].status.Up() ==> WeightsOf(Rows(t, lab)) == gw)
  {
  }

  lemma CacheCommitAgrees(s: State, id: OpId, owner: Owner, phase: Phase, now: Time)
    requires id in s.ops && s.ops[id].action.Cache() && FinalReport(s.ops[id], phase).Some?
    ensures Rows(Complete(s, id, owner, FinalReport(s.ops[id], phase).value, now).0, s.ops[id].lab) == Rows(s, s.ops[id].lab)
  {
  }

  lemma FinalReportTrusted(c: Config, s: State, id: OpId, owner: Owner, phase: Phase, rows: Instances, gw: Servers, now: Time)
    requires id in s.ops && SagaOk(c, s.ops[id], phase, rows, gw) && FinalReport(s.ops[id], phase).Some?
    ensures Trusted(c, s, CompleteEvent(id, owner, FinalReport(s.ops[id], phase).value, now))
  {
  }

  /** After any commit of a saga its lab serves what its rows say, or does not serve. */
  lemma CommitAgrees(c: Config, s: State, id: OpId, owner: Owner, phase: Phase, gw: Servers, now: Time)
    requires HoldsLease(s, id, owner) && s.ops[id].lab in s.sessions
    requires OpOk(c.quota, s.sessions[s.ops[id].lab], Rows(s, s.ops[id].lab), s.ops[id])
    requires RowsOk(c.quota, s.sessions[s.ops[id].lab], Rows(s, s.ops[id].lab))
    requires SagaOk(c, s.ops[id], phase, Rows(s, s.ops[id].lab), gw) && FinalReport(s.ops[id], phase).Some?
    ensures var t := Complete(s, id, owner, FinalReport(s.ops[id], phase).value, now).0; var lab := s.ops[id].lab;
      lab in t.sessions && t.sessions[lab].status.Up() ==> WeightsOf(Rows(t, lab)) == gw
  {
    var o := s.ops[id];
    var row, rows := s.sessions[o.lab], Rows(s, o.lab);
    var report := FinalReport(o, phase).value;
    if o.action.Topology() {
      SagaWritesWeights(c, row, rows, o, phase, gw);
      FinalReportTrusted(c, s, id, owner, phase, rows, gw, now);
      TopologyCompletionCommits(c, s, id, owner, report, now);
      TopologyCommitAgrees(s, id, owner, report, gw, now);
    } else if o.action.Cache() {
      CacheCommitAgrees(s, id, owner, phase, now);
    } else {
      LabCommitAgrees(c, s, id, owner, phase, gw, now);
    }
  }

  lemma CommitFits(fit: Fit, y: System, t: State, work: Work)
    requires SagasFit(fit, y) && IdleAgree(y) && OneSaga(y) && work in y.sagas && OnlyOwnLab(y.db, t, work.id)
    requires var lab := y.db.ops[work.id].lab;
      lab in t.sessions && t.sessions[lab].status.Up() ==> WeightsOf(Rows(t, lab)) == Served(y, lab)
    ensures var z := y.(db := t, sagas := y.sagas - {work}); SagasFit(fit, z) && IdleAgree(z)
  {
    EndingSaga(fit, y, y.(db := t, sagas := y.sagas - {work}), work);
  }

  lemma CommitKeepsInv(c: Config, s: State, id: OpId, owner: Owner, phase: Phase, gw: Servers, now: Time)
    requires Inv(c, s) && id in s.ops && SagaOk(c, s.ops[id], phase, Rows(s, s.ops[id].lab), gw)
    requires FinalReport(s.ops[id], phase).Some?
    ensures Inv(c, Complete(s, id, owner, FinalReport(s.ops[id], phase).value, now).0)
  {
    FinalReportTrusted(c, s, id, owner, phase, Rows(s, s.ops[id].lab), gw, now);
    CompleteKeepsInv(c, s, id, owner, FinalReport(s.ops[id], phase).value, now);
  }

  lemma CommitEnds(c: Config, y: System, work: Work, report: Report, now: Time)
    requires SagasFit(SagaFit(c), y) && IdleAgree(y) && OneSaga(y) && work in y.sagas
    requires var o := y.db.ops[work.id];
      && o.lab in y.db.sessions && OpOk(c.quota, y.db.sessions[o.lab], Rows(y.db, o.lab), o)
      && RowsOk(c.quota, y.db.sessions[o.lab], Rows(y.db, o.lab)) && FinalReport(o, y.sagas[work]) == Some(report)
    ensures var z := y.(db := Complete(y.db, work.id, work.owner, report, now).0, sagas := y.sagas - {work});
      SagasFit(SagaFit(c), z) && IdleAgree(z)
  {
    var s := y.db;
    CompleteFrame(s, work.id, work.owner, report, now);
    CommitAgrees(c, s, work.id, work.owner, y.sagas[work], Served(y, s.ops[work.id].lab), now);
    CommitFits(SagaFit(c), y, Complete(s, work.id, work.owner, report, now).0, work);
  }

  /** The saga that commits fits its lab. */
  lemma CommittingFits(c: Config, y: System, work: Work)
    requires SystemInv(c, y) && work in y.sagas
    ensures OneSaga(y)
    ensures var o := y.db.ops[work.id];
      && o.lab in y.db.sessions && OpOk(c.quota, y.db.sessions[o.lab], Rows(y.db, o.lab), o)
      && RowsOk(c.quota, y.db.sessions[o.lab], Rows(y.db, o.lab)) && SagaOk(c, o, y.sagas[work], Rows(y.db, o.lab), Served(y, o.lab))
  {
    InvOneSaga(c, y);
    OperationFits(c, y.db, work.id);
  }

  /** Gateway, rows and sagas as a commit of `work` leaves them. */
  predicate CommittedBy(y: System, work: Work, report: Report, now: Time, z: System)
    requires work.id in y.db.ops
  {
    z == y.(db := Complete(y.db, work.id, work.owner, report, now).0, sagas := y.sagas - {work})
  }

  lemma CommitStep(c: Config, y: System, work: Work, now: Time)
    requires work in y.sagas && work.id in y.db.ops && FinalReport(y.db.ops[work.id], y.sagas[work]).Some?
    ensures CommittedBy(y, work, FinalReport(y.db.ops[work.id], y.sagas[work]).value, now, SystemNext(c, y, Commit(work, now)))
  {
  }

  lemma CommitKeepsTables(c: Config, y: System, work: Work, now: Time)
    requires SystemInv(c, y)
    ensures Inv(c, SystemNext(c, y, Commit(work, now)).db)
  {
    if work in y.sagas && FinalReport(y.db.ops[work.id], y.sagas[work]).Some? {
      CommittingFits(c, y, work);
      CommitStep(c, y, work, now);
      CommitKeepsInv(c, y.db, work.id, work.owner, y.sagas[work], Served(y, y.db.ops[work.id].lab), now);
    } else {
      assert SystemNext(c, y, Commit(work, now)) == y;
    }
  }

  lemma CommitKeeps(c: Config, y: System, work: Work, now: Time)
    requires SystemInv(c, y)
    ensures SystemInv(c, SystemNext(c, y, Commit(work, now)))
  {
    CommitKeepsTables(c, y, work, now);
    if work in y.sagas && FinalReport(y.db.ops[work.id], y.sagas[work]).Some? {
      CommittingFits(c, y, work);
      CommitEnds(c, y, work, FinalReport(y.db.ops[work.id], y.sagas[work]).value, now);
    }
  }

  // ----- Whole runs ------------------------------------------------------------

  lemma SystemStepKeeps(c: Config, y: System, e: SystemEvent)
    requires SystemInv(c, y) && Benign(c, y, e)
    ensures SystemInv(c, SystemNext(c, y, e))
  {
    match e
    case Transact(event) =>
      if !event.CompleteEvent? && !event.StartEvent? {
        TransactKeeps(c, y, event);
      }
    case Begin(work, lease) => BeginKeeps(c, y, work, lease);
    case Command(_, _, _, _, _, _) => CommandKeeps(c, y, e);
    case Abandon(work, _) => AbandonKeeps(c, y, work);
    case Commit(work, now) => CommitKeeps(c, y, work, now);
  }

  lemma {:induction false} SystemReachableInv(c: Config, run: seq<SystemEvent>)
    requires BenignRun(c, run)
    ensures SystemInv(c, SystemAfter(c, run))
  {
    if run != [] {
      var front := run[..|run| - 1];
      forall k | 0 <= k < |front| ensures Benign(c, SystemAfter(c, front[..k]), front[k]) {
        assert front[..k] == run[..k] && front[k] == run[k];
      }
      SystemReachableInv(c, front);
      assert Benign(c, SystemAfter(c, run[..|run| - 1]), run[|run| - 1]);
      SystemStepKeeps(c, SystemAfter(c, front), run[|run| - 1]);
    }
  }

  /** Whenever a serving lab has no operation in flight, its gateway serves exactly its persisted
      instances with their persisted weights, after successes and failures alike. */
  lemma GatewayAgreesWhenIdle(c: Config, run: seq<SystemEvent>, lab: LabId)
    requires BenignRun(c, run)
    ensures var y := SystemAfter(c, run);
      lab in y.db.sessions && y.db.sessions[lab].status.Up() && !LabBusy(y.db, lab)
      ==> lab in y.gateway && y.gateway[lab] == WeightsOf(Rows(y.db, lab)) && y.gateway[lab] != map[]
  {
    var y := SystemAfter(c, run);
    SystemReachableInv(c, run);
    if lab in y.db.sessions && y.db.sessions[lab].status.Up() && !LabBusy(y.db, lab) {
      assert LabOk(c, y.db, lab);
      forall work | work in y.sagas && work.id in y.db.ops ensures y.db.ops[work.id].lab != lab {
        assert !OpInFlight(y.db, work.id, lab);
      }
      var n :| n in Rows(y.db, lab);
      assert n in Served(y, lab);
    }
  }

  // ----- Why the assumptions are there ------------------------------------------

  /** A completed addition agrees with the gateway exactly when the instance was created with weight 100. */
  lemma AdditionAgreesIffWeight100(c: Config, row: Session, rows: Instances, o: Operation, i: ProvisionedInstance)
    requires OpOk(c.quota, row, rows, o) && o.action == AddInstance && InstanceComplete(i) && i.name == o.payload.name
    ensures var a := ApplyTopology(row, rows, AddInstance, NoResult.(instance := Some(i)));
      a.Applied? && (WeightsOf(a.rows) == Target(o) <==> i.weight == 100)
  {
    var after := rows[i.name := InstanceRow(i).(status := InstanceRunning)];
    assert WeightsOf(after) == WeightsOf(rows)[i.name := i.weight];
    assert WeightsOf(after)[i.name] == i.weight && Target(o)[i.name] == 100;
  }

  /** A removal whose DELETE failed is put right exactly when re-applying the previous list succeeds. */
  lemma FailedRemovalAgreesIffRestored(c: Config, row: Session, rows: Instances, o: Operation, valid: bool, e: SystemEvent)
    requires OpOk(c.quota, row, rows, o) && o.action == RemoveInstance && e.Command?
    ensures var (phase, gw) := RunCommand(o, Restore, Target(o), valid, e);
      phase == Broken && (gw == WeightsOf(rows) <==> e.ok)
  {
    assert o.payload.name in WeightsOf(rows) && o.payload.name !in Target(o);
  }

  /** A removal abandoned while it drains leaves gateway and rows in agreement exactly when the previous list was put back. */
  lemma AbandonedRemovalAgreesIffRestored(c: Config, y: System, work: Work, restored: bool)
    requires SystemInv(c, y) && work in y.sagas && y.db.ops[work.id].action == RemoveInstance && y.sagas[work].Routed?
    ensures var z := SystemNext(c, y, Abandon(work, restored)); var lab := y.db.ops[work.id].lab;
      Served(z, lab) == WeightsOf(Rows(z.db, lab)) <==> restored
  {
    RemovalRemembers(c, y.db, work.id);
    RemovalDiffers(c, y.db, work.id);
    DrainingServes(c, y, work);
    AbandonServes(c, y, work, restored);
  }

  lemma AbandonServes(c: Config, y: System, work: Work, restored: bool)
    requires work in y.sagas && work.id in y.db.ops && y.db.ops[work.id].action == RemoveInstance && y.sagas[work].Routed?
    ensures var z, o := SystemNext(c, y, Abandon(work, restored)), y.db.ops[work.id];
      z.db == y.db && Served(z, o.lab) == if restored then Previous(o) else Served(y, o.lab)
  {
  }

  lemma DrainingServes(c: Config, y: System, work: Work)
    requires SagasFit(SagaFit(c), y) && work in y.sagas && y.db.ops[work.id].action == RemoveInstance && y.sagas[work].Routed?
    ensures Served(y, y.db.ops[work.id].lab) == Target(y.db.ops[work.id])
  {
  }

  lemma RemovalDiffers(c: Config, s: State, id: OpId)
    requires OpsOk(c, s) && id in s.ops && s.ops[id].status.InFlight() && s.ops[id].action == RemoveInstance
    ensures Target(s.ops[id]) != WeightsOf(Rows(s, s.ops[id].lab))
  {
    var o, rows := s.ops[id], Rows(s, s.ops[id].lab);
    assert OpOk(c.quota, s.sessions[o.lab], rows, o);
    assert o.payload.name in WeightsOf(rows) && o.payload.name !in Target(o);
  }
}
