/**
 The steps of the control plane, and the invariant that couples operation
 status, operation action, lab status and instance rows in every reachable state.
 */
module Coupling {
  import opened Domain
  import opened Transactions

  // ----- Steps ------------------------------------------------------------

  /** What a worker learned from outside before it completes an operation. */
  datatype Report =
    | ProvisionReport(provision: Outcome<ProvisionResult>)
    | DestroyReport(destroyed: bool)
    | TopologyReport(instance: Outcome<Option<ProvisionedInstance>>, stale: bool)
    | CacheReport(redis: Outcome<bool>)

  datatype Event =
    | CreateEvent(user: UserId, course: nat, lookup: CourseLookup, id: OpId, lab: LabId, now: Time)
    | ActionEvent(user: UserId, lab: LabId, id: OpId, action: Action, reason: Option<Reason>, now: Time)
    | SubmitEvent(user: UserId, lab: LabId, input: ActionInput, now: Time)
    | AdjustEvent(user: UserId, lab: LabId, id: OpId, topology: Fingerprint, weights: seq<NameWeight>, now: Time)
    | AdvanceEvent(lab: LabId, now: Time)
    | ClaimEvent(id: OpId, owner: Owner, now: Time, lease: Time)
    | StartEvent(id: OpId, owner: Owner, lease: Time)
    | CompleteEvent(id: OpId, owner: Owner, report: Report, now: Time)

  datatype Config = Config(quota: Quota, lifetime: Lifetime)

  /** Decoding and identity checks a worker makes before it accepts a provision result. */
  function CheckedProvision(o: Operation, outcome: Outcome<ProvisionResult>): (r: Outcome<ProvisionResult>)
    ensures r.Success? ==> ProvisionComplete(o.lab, r.value)
  {
    if outcome.Success? && ProvisionComplete(o.lab, outcome.value)
       && (forall i :: 0 <= i < |outcome.value.instances| ==> outcome.value.instances[i].cpu > 0.0)
       && o.payload.LabPayload? && outcome.value.template == o.payload.template
    then outcome
    else Failure
  }

  const NoResult := TopologyResult(None, None, [], None, false)

  /** The result a worker hands to the completion of a topology operation. */
  function TopologyOutcome(o: Operation, reported: Outcome<Option<ProvisionedInstance>>, stale: bool): Outcome<TopologyResult> {
    if reported.Failure? then Failure
    else match o.payload
      case TopologyPayload(input, name, _, _, _, _) =>
        (match o.action
         case AddInstance => DecodedInstance(reported.value)
         case SetPerformance => DecodedInstance(reported.value)
         case RemoveInstance => Success(NoResult.(removed := Some(name)))
         case SetWeights => Success(NoResult.(weights := input.weights))
         case SetMode => if input.mode == None then Failure else Success(NoResult.(mode := input.mode))
         case _ => Failure)
      case AdaptivePayload(_, servers, weights) =>
        if servers == map[] || |weights| != |servers| then Failure
        else if stale then Success(NoResult.(skipped := true))
        else Success(NoResult.(weights := weights))
      case _ => Failure
  }

  function DecodedInstance(i: Option<ProvisionedInstance>): Outcome<TopologyResult> {
    if i.Some? && InstanceComplete(i.value) && i.value.containerName != "" && i.value.cpu > 0.0
    then Success(NoResult.(instance := i))
    else Failure
  }

  /** The completion a worker runs, chosen by the action of the operation. */
  function Complete(s: State, id: OpId, owner: Owner, report: Report, now: Time): (State, Reply) {
    if id !in s.ops then (s, Refused(LeaseLost))
    else
      var o := s.ops[id];
      if o.action == CreateLab && report.ProvisionReport? then
        CompleteProvision(s, id, owner, CheckedProvision(o, report.provision), now)
      else if o.action == ResetLab && report.ProvisionReport? then
        CompleteReset(s, id, owner, CheckedProvision(o, report.provision), now)
      else if o.action == DestroyLab && report.DestroyReport? then CompleteDestroy(s, id, owner, report.destroyed, now)
      else if o.action.Topology() && report.TopologyReport? then
        CompleteTopology(s, id, owner, TopologyOutcome(o, report.instance, report.stale), now)
      else if o.action.Cache() && report.CacheReport? then CompleteCache(s, id, owner, report.redis, now)
      else (s, Unchanged)
  }

  function Next(c: Config, s: State, e: Event): (State, Reply) {
    match e
    case CreateEvent(user, course, lookup, id, lab, now) => Create(s, c.quota, user, course, lookup, id, lab, now)
    case ActionEvent(user, lab, id, action, reason, now) => EnqueueAction(s, user, lab, id, action, reason, now)
    case SubmitEvent(user, lab, input, now) => SubmitAction(s, c.quota, user, lab, input, now)
    case AdjustEvent(user, lab, id, topology, ws, now) => EnqueueAdjustment(s, user, lab, id, topology, ws, now)
    case AdvanceEvent(lab, now) => Advance(s, lab, now, c.lifetime)
    case ClaimEvent(id, owner, now, lease) => Claim(s, id, owner, now, lease)
    case StartEvent(id, owner, lease) => MarkRunning(s, id, owner, lease)
    case CompleteEvent(id, owner, report, now) => Complete(s, id, owner, report, now)
  }

  const EmptyState := State(map[], map[], map[], 0)

  /** The tables after each event of a run. */
  function After(c: Config, run: seq<Event>): State {
    if run == [] then EmptyState else Next(c, After(c, run[..|run| - 1]), run[|run| - 1]).0
  }

  /** The tables after a continuation. */
  function From(c: Config, s: State, ext: seq<Event>): State
    decreases |ext|
  {
    if ext == [] then s else From(c, Next(c, s, ext[0]).0, ext[1..])
  }

  // ----- What the orchestrator is trusted for -------------------------------

  /** Provisioning reports running instances, no more than a lab may have. */
  predicate TrustedProvision(q: Quota, r: ProvisionResult) {
    && |r.instances| <= q.maxInstances
    && forall i :: 0 <= i < |r.instances| ==> r.instances[i].status == None || r.instances[i].status == Some(InstanceRunning)
  }

  /** A created or resized instance is reported under the requested name. */
  predicate TrustedInstance(o: Operation, i: Option<ProvisionedInstance>) {
    o.payload.TopologyPayload? && i.Some? ==> i.value.name == o.payload.name
  }

  predicate Trusted(c: Config, s: State, e: Event) {
    e.CompleteEvent? && e.id in s.ops ==>
      match e.report
      case ProvisionReport(outcome) => outcome.Success? ==> TrustedProvision(c.quota, outcome.value)
      case TopologyReport(outcome, _) => outcome.Success? ==> TrustedInstance(s.ops[e.id], outcome.value)
      case _ => true
  }

  ghost predicate TrustedRun(c: Config, run: seq<Event>) {
    forall k :: 0 <= k < |run| ==> Trusted(c, After(c, run[..k]), run[k])
  }

  // ----- The invariant ------------------------------------------------------

  predicate SessionOk(row: Session) {
    && (row.status == Preparing ==> row.startedAt == None)
    && (row.status.Up() ==> row.startedAt.Some? && row.lastActionAt.Some?)
  }

  predicate RowsOk(q: Quota, row: Session, rows: Instances) {
    row.status.Up() ==>
      && rows.Keys != {}
      && (forall n :: n in rows ==> rows[n].status == InstanceRunning && rows[n].container.Some? && n != "")
      && (row.scenario == Cluster ==> |rows| <= q.maxInstances)
  }

  predicate ActionFits(row: Session, action: Action) {
    match action
    case CreateLab => row.status == Preparing
    case DestroyLab => row.status == Terminating
    case ResetLab => row.status.Up()
    case _ => row.status.Up() && row.scenario == (if action.Cache() then MultiLevelCache else Cluster)
  }

  predicate PayloadFits(q: Quota, row: Session, rows: Instances, o: Operation) {
    match o.action
    case CreateLab => o.payload == LabPayload(row.scenario)
    case ResetLab => o.payload == LabPayload(row.scenario)
    case DestroyLab => o.payload.DestroyPayload? && row.reason == Some(o.payload.reason)
    case AddInstance =>
      && o.payload.TopologyPayload? && o.payload.name !in rows && o.payload.name != ""
      && |rows| < q.maxInstances && o.payload.performance == 100
      && o.payload.servers == WeightsOf(rows)[o.payload.name := 100]
      && o.payload.previous == WeightsOf(rows)
    case RemoveInstance =>
      && o.payload.TopologyPayload? && o.payload.name in rows && |rows| > 1
      && o.payload.input.target == Some(o.payload.name)
      && o.payload.servers == WeightsOf(rows) - {o.payload.name}
      && o.payload.previous == WeightsOf(rows)
    case SetPerformance =>
      && o.payload.TopologyPayload? && o.payload.name in rows
      && o.payload.input.target == Some(o.payload.name) && o.payload.input.performance == Some(o.payload.performance)
      && o.payload.servers == o.payload.previous == WeightsOf(rows)
      && o.payload.previousPerformance == rows[o.payload.name].performance
    case SetWeights =>
      && o.payload.TopologyPayload? && row.mode == Fixed
      && ValidWeights(rows.Keys, o.payload.input.weights)
      && o.payload.servers == WeightMap(o.payload.input.weights)
    case SetMode => o.payload.TopologyPayload? && o.payload.input.mode.Some?
    case ApplyAdaptive =>
      && o.payload.AdaptivePayload? && row.mode == Adaptive
      && o.payload.fingerprint == TopologyPrint(rows)
      && ValidWeights(rows.Keys, o.payload.weights)
      && o.payload.servers == WeightMap(o.payload.weights)
    case _ => o.payload.CachePayload? && o.payload.template == row.scenario
  }

  predicate OpOk(q: Quota, row: Session, rows: Instances, o: Operation) {
    ActionFits(row, o.action) && PayloadFits(q, row, rows, o)
  }

  ghost predicate OneInFlight(s: State) {
    forall i, j, lab :: OpInFlight(s, i, lab) && OpInFlight(s, j, lab) ==> i == j
  }

  ghost predicate OpsOk(c: Config, s: State) {
    forall id :: id in s.ops ==>
      s.ops[id].lab in s.sessions &&
      (s.ops[id].status.InFlight() ==> OpOk(c.quota, s.sessions[s.ops[id].lab], Rows(s, s.ops[id].lab), s.ops[id]))
  }

  ghost predicate LabOk(c: Config, s: State, lab: LabId)
    requires lab in s.sessions
  {
    && SessionOk(s.sessions[lab])
    && RowsOk(c.quota, s.sessions[lab], Rows(s, lab))
    && (s.sessions[lab].status == Preparing || s.sessions[lab].status == Terminating ==> LabBusy(s, lab))
  }

  ghost predicate Inv(c: Config, s: State) {
    && OneInFlight(s)
    && OpsOk(c, s)
    && forall lab :: lab in s.sessions ==> LabOk(c, s, lab)
  }

  // ----- Three ways a step changes the tables -------------------------------

  /** A new operation for an idle lab, together with its session row. */
  lemma StartKeepsInv(c: Config, s: State, id: OpId, lab: LabId, user: UserId, action: Action, payload: Payload,
                      now: Time, row: Session)
    requires Inv(c, s) && id !in s.ops && !LabBusy(s, lab)
    requires SessionOk(row) && RowsOk(c.quota, row, Rows(s, lab))
    requires OpOk(c.quota, row, Rows(s, lab), Operation(s.nextRow, lab, user, action, payload, Pending, None, 0, 0, now))
    ensures Inv(c, Enqueue(SetSession(s, lab, row), id, lab, user, action, payload, now))
  {
    var t := Enqueue(SetSession(s, lab, row), id, lab, user, action, payload, now);
    IdleMeans(s, lab);
    StartOneInFlight(s, t, id);
    StartedOpsOk(c, s, id, lab, user, action, payload, now, row);
    forall l | l in t.sessions ensures LabOk(c, t, l) {
      if l == lab {
        assert OpInFlight(t, id, lab);
      } else {
        LabStaysOk(c, s, t, l);
      }
    }
  }

  lemma StartedOpsOk(c: Config, s: State, id: OpId, lab: LabId, user: UserId, action: Action, payload: Payload,
                     now: Time, row: Session)
    requires OpsOk(c, s) && id !in s.ops && forall i :: i in s.ops && s.ops[i].status.InFlight() ==> s.ops[i].lab != lab
    requires OpOk(c.quota, row, Rows(s, lab), Operation(s.nextRow, lab, user, action, payload, Pending, None, 0, 0, now))
    ensures OpsOk(c, Enqueue(SetSession(s, lab, row), id, lab, user, action, payload, now))
  {
  }

  lemma IdleMeans(s: State, lab: LabId)
    requires !LabBusy(s, lab)
    ensures forall i :: i in s.ops && s.ops[i].status.InFlight() ==> s.ops[i].lab != lab
  {
    forall i | i in s.ops && s.ops[i].status.InFlight() ensures s.ops[i].lab != lab {
      assert !OpInFlight(s, i, lab);
    }
  }

  lemma StartOneInFlight(s: State, t: State, id: OpId)
    requires OneInFlight(s) && id !in s.ops && id in t.ops && t.ops == s.ops[id := t.ops[id]]
    requires forall i :: i in s.ops && s.ops[i].status.InFlight() ==> s.ops[i].lab != t.ops[id].lab
    ensures OneInFlight(t)
  {
    forall i, j, l | OpInFlight(t, i, l) && OpInFlight(t, j, l) ensures i == j {
      assert i != id ==> OpInFlight(s, i, l);
      assert j != id ==> OpInFlight(s, j, l);
    }
  }

  /** Fewer operations in flight stay at most one per lab. */
  lemma FewerInFlight(s: State, t: State)
    requires OneInFlight(s) && forall i, l :: OpInFlight(t, i, l) ==> OpInFlight(s, i, l)
    ensures OneInFlight(t)
  {
    forall i, j, l | OpInFlight(t, i, l) && OpInFlight(t, j, l) ensures i == j {
      assert OpInFlight(s, i, l) && OpInFlight(s, j, l);
    }
  }

  lemma StillBusy(s: State, t: State, lab: LabId)
    requires LabBusy(s, lab) && forall i :: OpInFlight(s, i, lab) ==> OpInFlight(t, i, lab)
    ensures LabBusy(t, lab)
  {
    var i :| i in s.ops && OpInFlight(s, i, lab);
    assert OpInFlight(t, i, lab);
  }

  /** Another lab's row is fine after a step that leaves its rows and operations alone. */
  lemma LabStaysOk(c: Config, s: State, t: State, lab: LabId)
    requires lab in s.sessions && lab in t.sessions && LabOk(c, s, lab)
    requires t.sessions[lab] == s.sessions[lab] && Rows(t, lab) == Rows(s, lab)
    requires forall i :: OpInFlight(s, i, lab) ==> OpInFlight(t, i, lab)
    ensures LabOk(c, t, lab)
  {
    if LabBusy(s, lab) {
      StillBusy(s, t, lab);
    }
  }

  /** The tables after the end of a lab's operation. */
  ghost predicate Ended(s: State, t: State, id: OpId, row: Session, rows: Instances)
    requires id in s.ops
  {
    var lab := s.ops[id].lab;
    && id in t.ops && t.ops == s.ops[id := t.ops[id]] && !t.ops[id].status.InFlight() && t.ops[id].lab == lab
    && t.sessions == s.sessions[lab := row] && Rows(t, lab) == rows
    && forall l :: l != lab ==> Rows(t, l) == Rows(s, l)
  }

  lemma OthersFly(s: State, id: OpId)
    requires OneInFlight(s) && id in s.ops && s.ops[id].status.InFlight()
    ensures forall i :: i in s.ops && i != id && s.ops[i].status.InFlight() ==> s.ops[i].lab != s.ops[id].lab
  {
    forall i | i in s.ops && i != id && s.ops[i].status.InFlight() ensures s.ops[i].lab != s.ops[id].lab {
      assert OpInFlight(s, id, s.ops[id].lab);
      assert !OpInFlight(s, i, s.ops[id].lab);
    }
  }

  lemma EndKeepsInv(c: Config, s: State, t: State, id: OpId, row: Session, rows: Instances)
    requires Inv(c, s) && id in s.ops && s.ops[id].status.InFlight() && Ended(s, t, id, row, rows)
    requires SessionOk(row) && RowsOk(c.quota, row, rows)
    requires row.status != Preparing && row.status != Terminating
    ensures Inv(c, t)
  {
    FewerInFlight(s, t);
    OthersFly(s, id);
    forall l | l in t.sessions && l != s.ops[id].lab ensures LabOk(c, t, l) {
      LabStaysOk(c, s, t, l);
    }
  }

  /** The end of a lab's operation, together with its session and instance rows. */
  lemma FinishKeepsInv(c: Config, s: State, id: OpId, ok: bool, row: Session, rows: Instances)
    requires Inv(c, s) && id in s.ops && s.ops[id].status.InFlight()
    requires SessionOk(row) && RowsOk(c.quota, row, rows)
    requires row.status != Preparing && row.status != Terminating
    ensures Inv(c, SetSession(SetRows(Finish(s, id, ok), s.ops[id].lab, rows), s.ops[id].lab, row))
  {
    var lab := s.ops[id].lab;
    EndKeepsInv(c, s, SetSession(SetRows(Finish(s, id, ok), lab, rows), lab, row), id, row, rows);
  }

  /** A lease change: the operation stays in flight and keeps what it is about. */
  lemma LeaseKeepsInv(c: Config, s: State, id: OpId, o: Operation)
    requires Inv(c, s) && id in s.ops && s.ops[id].status.InFlight() && o.status.InFlight()
    requires o.lab == s.ops[id].lab && o.action == s.ops[id].action && o.payload == s.ops[id].payload
    ensures Inv(c, s.(ops := s.ops[id := o]))
  {
    var t := s.(ops := s.ops[id := o]);
    FewerInFlight(s, t);
    LeasedOpsOk(c, s, id, o);
    forall l | l in t.sessions ensures LabOk(c, t, l) {
      LeasedLabOk(c, s, id, o, l);
    }
  }

  lemma LeasedLabOk(c: Config, s: State, id: OpId, o: Operation, lab: LabId)
    requires lab in s.sessions && LabOk(c, s, lab) && id in s.ops && o.status.InFlight() && o.lab == s.ops[id].lab
    ensures LabOk(c, s.(ops := s.ops[id := o]), lab)
  {
    LabStaysOk(c, s, s.(ops := s.ops[id := o]), lab);
  }

  lemma LeasedOpsOk(c: Config, s: State, id: OpId, o: Operation)
    requires OpsOk(c, s) && id in s.ops && s.ops[id].status.InFlight()
    requires o.lab == s.ops[id].lab && o.action == s.ops[id].action && o.payload == s.ops[id].payload
    ensures OpsOk(c, s.(ops := s.ops[id := o]))
  {
  }

  /** Running and Expiring may be exchanged at any time. */
  lemma ToggleKeepsInv(c: Config, s: State, lab: LabId, row: Session)
    requires Inv(c, s) && lab in s.sessions && s.sessions[lab].status.Up() && row.status.Up()
    requires row == s.sessions[lab].(status := row.status, updatedAt := row.updatedAt)
    ensures Inv(c, SetSession(s, lab, row))
  {
    var t := SetSession(s, lab, row);
    FewerInFlight(s, t);
    forall l | l in t.sessions && l != lab ensures LabOk(c, t, l) {
      LabStaysOk(c, s, t, l);
    }
    assert LabOk(c, s, lab);
    forall i | i in t.ops && t.ops[i].status.InFlight()
      ensures OpOk(c.quota, t.sessions[t.ops[i].lab], Rows(t, t.ops[i].lab), t.ops[i])
    {
      assert OpOk(c.quota, s.sessions[s.ops[i].lab], Rows(s, s.ops[i].lab), s.ops[i]);
    }
  }
}
