/**
 What no run of the control plane can undo: operations keep their identity and
 their final status, labs follow the lifecycle table and never come back to life.
 */
module Evolution {
  import opened Domain
  import opened Transactions
  import opened Coupling
  import opened CouplingProof

  predicate SameIdentity(o: Operation, p: Operation) {
    o.row == p.row && o.lab == p.lab && o.requester == p.requester && o.action == p.action
    && o.payload == p.payload && o.createdAt == p.createdAt
  }

  /** One lab row, across one step or many. */
  predicate RowEvolves(a: Session, b: Session) {
    && b.user == a.user && b.course == a.course && b.scenario == a.scenario
    && (a.startedAt.Some? ==> b.startedAt == a.startedAt)
    && (b.status.Live() ==> a.status.Live())
    && (b.status == Preparing ==> a.status == Preparing)
    && (a.status == Terminated ==> b.status == Terminated)
  }

  ghost predicate OpsEvolve(s: State, t: State) {
    forall id :: id in s.ops ==>
      && id in t.ops && SameIdentity(s.ops[id], t.ops[id])
      && (!s.ops[id].status.InFlight() ==> t.ops[id].status == s.ops[id].status)
  }

  ghost predicate Evolves(s: State, t: State) {
    && OpsEvolve(s, t)
    && forall lab :: lab in s.sessions ==> lab in t.sessions && RowEvolves(s.sessions[lab], t.sessions[lab])
  }

  predicate RowStep(a: Session, b: Session) {
    RowEvolves(a, b) && (b.status == a.status || CanTransition(a.status, b.status))
  }

  /** Only one lab row and one operation row change in a step, and they change as allowed. */
  ghost predicate StepShape(s: State, t: State, lab: LabId, id: OpId) {
    && (forall i :: i in s.ops && i != id ==> i in t.ops && t.ops[i] == s.ops[i])
    && (id in s.ops ==> id in t.ops && SameIdentity(s.ops[id], t.ops[id])
                        && (!s.ops[id].status.InFlight() ==> t.ops[id] == s.ops[id]))
    && (forall l :: l in s.sessions && l != lab ==> l in t.sessions && t.sessions[l] == s.sessions[l])
    && (lab in s.sessions ==> lab in t.sessions && RowStep(s.sessions[lab], t.sessions[lab]))
  }

  lemma ShapeEvolves(s: State, t: State, lab: LabId, id: OpId)
    requires StepShape(s, t, lab, id)
    ensures Evolves(s, t)
    ensures forall l :: l in s.sessions ==> RowStep(s.sessions[l], t.sessions[l])
  {
  }

  lemma EnqueueShape(s: State, id: OpId, lab: LabId, user: UserId, action: Action, payload: Payload, now: Time, row: Session)
    requires id !in s.ops && (lab in s.sessions ==> RowStep(s.sessions[lab], row))
    ensures StepShape(s, Enqueue(SetSession(s, lab, row), id, lab, user, action, payload, now), lab, id)
  {
  }

  lemma CreateShape(s: State, q: Quota, user: UserId, course: nat, lookup: CourseLookup, id: OpId, lab: LabId, now: Time)
    ensures StepShape(s, Create(s, q, user, course, lookup, id, lab, now).0, lab, id)
  {
    if Create(s, q, user, course, lookup, id, lab, now).1.Accepted? {
      var row := Session(user, course, lookup.scenario, Preparing, Fixed, false, NoRedisRow, None, None, None, None, now);
      EnqueueShape(s, id, lab, user, CreateLab, LabPayload(lookup.scenario), now, row);
    }
  }

  lemma ActionShape(s: State, user: UserId, lab: LabId, id: OpId, action: Action, reason: Option<Reason>, now: Time)
    ensures StepShape(s, EnqueueAction(s, user, lab, id, action, reason, now).0, lab, id)
  {
    if EnqueueAction(s, user, lab, id, action, reason, now).1.Accepted? {
      var row := s.sessions[lab];
      if action == ResetLab {
        SameSession(s, lab);
        EnqueueShape(s, id, lab, user, ResetLab, LabPayload(row.scenario), now, row);
      } else {
        var why := if reason.Some? && reason.value != DestroyFailed then reason.value else UserRequested;
        EnqueueShape(s, id, lab, user, DestroyLab, DestroyPayload(why), now,
                     row.(status := Terminating, reason := Some(why), updatedAt := now));
      }
    }
  }

  lemma SubmitShape(s: State, q: Quota, user: UserId, lab: LabId, input: ActionInput, now: Time)
    ensures StepShape(s, SubmitAction(s, q, user, lab, input, now).0, lab, input.op)
  {
    var (t, reply) := SubmitAction(s, q, user, lab, input, now);
    if reply.Accepted? {
      SameSession(s, lab);
      EnqueueShape(s, input.op, lab, user, input.action, t.ops[input.op].payload, now, s.sessions[lab]);
    }
  }

  lemma AdvanceShape(s: State, lab: LabId, now: Time, c: Lifetime)
    ensures StepShape(s, Advance(s, lab, now, c).0, lab, SystemExpire(lab))
  {
    if lab in s.sessions && s.sessions[lab].startedAt.Some? && s.sessions[lab].lastActionAt.Some? {
      var row := s.sessions[lab];
      match Evaluate(now, row.status, row.startedAt.value, row.lastActionAt.value, c)
      case Keep =>
      case Expire =>
      case Resume =>
      case Terminate(reason) =>
        if !LabBusy(s, lab) && SystemExpire(lab) !in s.ops && row.status.Up() {
          EnqueueShape(s, SystemExpire(lab), lab, row.user, DestroyLab, DestroyPayload(reason), now,
                       row.(status := Terminating, reason := Some(reason), updatedAt := now));
        }
    }
  }

  lemma FinishShape(s: State, id: OpId, ok: bool, row: Session, rows: Instances)
    requires id in s.ops && s.ops[id].status.InFlight()
    requires s.ops[id].lab in s.sessions ==> RowStep(s.sessions[s.ops[id].lab], row)
    ensures StepShape(s, SetSession(SetRows(Finish(s, id, ok), s.ops[id].lab, rows), s.ops[id].lab, row), s.ops[id].lab, id)
    ensures StepShape(s, SetSession(Finish(s, id, ok), s.ops[id].lab, row), s.ops[id].lab, id)
  {
  }

  lemma ProvisionShape(s: State, id: OpId, owner: Owner, outcome: Outcome<ProvisionResult>, now: Time)
    requires id in s.ops && (s.ops[id].lab in s.sessions ==> SessionOk(s.sessions[s.ops[id].lab]))
    ensures StepShape(s, CompleteProvision(s, id, owner, outcome, now).0, s.ops[id].lab, id)
  {
    var (t, reply) := CompleteProvision(s, id, owner, outcome, now);
    if reply.Done? {
      FinishShape(s, id, outcome.Success?, t.sessions[s.ops[id].lab], Rows(t, s.ops[id].lab));
    }
  }

  lemma ResetShape(s: State, id: OpId, owner: Owner, outcome: Outcome<ProvisionResult>, now: Time)
    requires id in s.ops
    ensures StepShape(s, CompleteReset(s, id, owner, outcome, now).0, s.ops[id].lab, id)
  {
    var (t, reply) := CompleteReset(s, id, owner, outcome, now);
    if reply.Done? {
      FinishShape(s, id, outcome.Success?, t.sessions[s.ops[id].lab], Rows(t, s.ops[id].lab));
    }
  }

  lemma DestroyShape(s: State, id: OpId, owner: Owner, ok: bool, now: Time)
    requires id in s.ops
    ensures StepShape(s, CompleteDestroy(s, id, owner, ok, now).0, s.ops[id].lab, id)
  {
    var (t, reply) := CompleteDestroy(s, id, owner, ok, now);
    if reply.Done? {
      FinishShape(s, id, ok, t.sessions[s.ops[id].lab], Rows(t, s.ops[id].lab));
    }
  }

  lemma TopologyShape(s: State, id: OpId, owner: Owner, outcome: Outcome<TopologyResult>, now: Time)
    requires id in s.ops
    ensures StepShape(s, CompleteTopology(s, id, owner, outcome, now).0, s.ops[id].lab, id)
  {
    var (t, reply) := CompleteTopology(s, id, owner, outcome, now);
    if reply.Done? && outcome.Success? {
      var lab := s.ops[id].lab;
      if s.ops[id].action == ApplyAdaptive {
        SameSession(t, lab);
      }
      FinishShape(s, id, true, t.sessions[lab], Rows(t, lab));
    }
  }

  lemma CompleteShape(s: State, id: OpId, owner: Owner, report: Report, now: Time)
    requires id in s.ops && (s.ops[id].lab in s.sessions ==> SessionOk(s.sessions[s.ops[id].lab]))
    ensures StepShape(s, Complete(s, id, owner, report, now).0, s.ops[id].lab, id)
  {
    var o := s.ops[id];
    if report.ProvisionReport? {
      ProvisionShape(s, id, owner, CheckedProvision(o, report.provision), now);
      ResetShape(s, id, owner, CheckedProvision(o, report.provision), now);
    } else if report.DestroyReport? {
      DestroyShape(s, id, owner, report.destroyed, now);
    } else if report.TopologyReport? {
      TopologyShape(s, id, owner, TopologyOutcome(o, report.instance, report.stale), now);
    } else {
      CacheShape(s, id, owner, report.redis, now);
    }
  }

  lemma CacheShape(s: State, id: OpId, owner: Owner, outcome: Outcome<bool>, now: Time)
    requires id in s.ops
    ensures StepShape(s, CompleteCache(s, id, owner, outcome, now).0, s.ops[id].lab, id)
  {
  }

  lemma AdjustShape(s: State, user: UserId, lab: LabId, id: OpId, topology: Fingerprint, ws: seq<NameWeight>, now: Time)
    ensures StepShape(s, EnqueueAdjustment(s, user, lab, id, topology, ws, now).0, lab, id)
  {
  }

  lemma LeaseShape(s: State, id: OpId, owner: Owner, now: Time, lease: Time)
    ensures StepShape(s, Claim(s, id, owner, now, lease).0, "", id)
    ensures StepShape(s, MarkRunning(s, id, owner, lease).0, "", id)
  {
    var claimed, started := Claim(s, id, owner, now, lease).0, MarkRunning(s, id, owner, lease).0;
    if id in s.ops {
      RelockShape(s, id, claimed.ops[id]);
      RelockShape(s, id, started.ops[id]);
      assert claimed.ops == s.ops[id := claimed.ops[id]] && started.ops == s.ops[id := started.ops[id]];
    }
  }

  lemma RelockShape(s: State, id: OpId, o: Operation)
    requires id in s.ops && SameIdentity(s.ops[id], o) && (!s.ops[id].status.InFlight() ==> o == s.ops[id])
    ensures StepShape(s, s.(ops := s.ops[id := o]), "", id)
  {
  }

  ghost predicate SessionsOk(s: State) {
    forall l :: l in s.sessions ==> SessionOk(s.sessions[l])
  }

  lemma StepShapes(c: Config, s: State, e: Event) returns (lab: LabId, id: OpId)
    requires SessionsOk(s)
    ensures StepShape(s, Next(c, s, e).0, lab, id)
  {
    match e
    case CreateEvent(user, course, lookup, i, l, now) =>
      lab, id := l, i;
      CreateShape(s, c.quota, user, course, lookup, i, l, now);
    case ActionEvent(user, l, i, action, reason, now) =>
      lab, id := l, i;
      ActionShape(s, user, l, i, action, reason, now);
    case SubmitEvent(user, l, input, now) =>
      lab, id := l, input.op;
      SubmitShape(s, c.quota, user, l, input, now);
    case AdjustEvent(user, l, i, topology, weights, now) =>
      lab, id := l, i;
      AdjustShape(s, user, l, i, topology, weights, now);
    case AdvanceEvent(l, now) =>
      lab, id := l, SystemExpire(l);
      AdvanceShape(s, l, now, c.lifetime);
    case ClaimEvent(i, owner, now, lease) =>
      lab, id := "", i;
      LeaseShape(s, i, owner, now, lease);
    case StartEvent(i, owner, lease) =>
      lab, id := "", i;
      LeaseShape(s, i, owner, 0, lease);
    case CompleteEvent(i, owner, report, now) =>
      lab, id := "", i;
      if i in s.ops {
        lab := s.ops[i].lab;
        CompleteShape(s, i, owner, report, now);
      }
  }

  lemma InvSessionsOk(c: Config, s: State)
    requires Inv(c, s)
    ensures SessionsOk(s)
  {
    forall l | l in s.sessions ensures SessionOk(s.sessions[l]) {
      assert LabOk(c, s, l);
    }
  }

  /** Each step changes a lab's status only as the lifecycle table allows. */
  lemma StepFollowsLifecycle(c: Config, s: State, e: Event, lab: LabId)
    requires Inv(c, s) && lab in s.sessions
    ensures var t := Next(c, s, e).0;
      && lab in t.sessions
      && (t.sessions[lab].status == s.sessions[lab].status || CanTransition(s.sessions[lab].status, t.sessions[lab].status))
  {
    InvSessionsOk(c, s);
    var l, id := StepShapes(c, s, e);
    ShapeEvolves(s, Next(c, s, e).0, l, id);
  }

  lemma StepEvolves(c: Config, s: State, e: Event)
    requires Inv(c, s)
    ensures Evolves(s, Next(c, s, e).0)
  {
    InvSessionsOk(c, s);
    var l, id := StepShapes(c, s, e);
    ShapeEvolves(s, Next(c, s, e).0, l, id);
  }

  /** From any moment of a run to any later one. */
  lemma {:induction false} RunEvolves(c: Config, run: seq<Event>, k: nat)
    requires TrustedRun(c, run) && k <= |run|
    ensures Evolves(After(c, run[..k]), After(c, run))
    decreases |run|
  {
    if k == |run| {
      assert run[..k] == run;
    } else {
      var front := run[..|run| - 1];
      TrustedPrefix(c, run);
      ReachableInv(c, front);
      RunEvolves(c, front, k);
      assert front[..k] == run[..k];
      StepEvolves(c, After(c, front), run[|run| - 1]);
    }
  }

  /** A lab that has failed or started terminating never serves again, and its start time never moves. */
  lemma NeverRevived(c: Config, run: seq<Event>, k: nat, lab: LabId)
    requires TrustedRun(c, run) && k <= |run| && lab in After(c, run[..k]).sessions
    ensures lab in After(c, run).sessions
    ensures var a, b := After(c, run[..k]).sessions[lab], After(c, run).sessions[lab];
      && (!a.status.Live() ==> !b.status.Live())
      && (a.startedAt.Some? ==> b.startedAt == a.startedAt)
  {
    RunEvolves(c, run, k);
  }
}
