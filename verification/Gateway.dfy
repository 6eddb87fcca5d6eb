/**
 Workers run each operation as a saga of orchestrator commands between two
 transactions. The gateway's upstream list follows the commands, the instance
 rows follow the completions; this module proves that the two agree whenever a
 serving lab is idle.
 */
module Gateway {
  import opened Domain
  import opened Transactions
  import opened Coupling

  // ----- Sagas --------------------------------------------------------------

  /** How far the worker that executes an operation has got. */
  datatype Phase =
    | Ready
    | Provisioned(result: ProvisionResult)
    | Created(instance: ProvisionedInstance)
    | Routed(answer: Option<ProvisionedInstance>)
    | Removed
    | Undo
    | Restore
    | Outdated
    | Answered(redis: bool)
    | Destroyed
    | Broken

  /** One worker's execution of an operation. A worker does not notice that its lease was lost: its saga goes on. */
  datatype Work = Work(id: OpId, owner: Owner)

  datatype System = System(db: State, gateway: map<LabId, Servers>, sagas: map<Work, Phase>)

  datatype SystemEvent =
    | Transact(event: Event)
    | Begin(work: Work, lease: Time)
    | Command(work: Work, ok: bool, provision: Option<ProvisionResult>, instance: Option<ProvisionedInstance>,
              redis: bool, servers: Servers)
    | Abandon(work: Work, restored: bool)
    | Commit(work: Work, now: Time)

  function Served(y: System, lab: LabId): Servers {
    if lab in y.gateway then y.gateway[lab] else map[]
  }

  function Target(o: Operation): Servers {
    match o.payload
    case TopologyPayload(_, _, _, _, servers, _) => servers
    case AdaptivePayload(_, servers, _) => servers
    case _ => map[]
  }

  function Previous(o: Operation): Servers {
    if o.payload.TopologyPayload? then o.payload.previous else map[]
  }

  predicate Decodes(i: Option<ProvisionedInstance>) {
    DecodedInstance(i).Success?
  }

  /** APPLY_LAB_UPSTREAM: a failed call leaves the gateway alone. */
  function Route(ok: bool, servers: Servers, gw: Servers, done: Phase, failed: Phase): (Phase, Servers) {
    if ok then (done, servers) else (failed, gw)
  }

  /** The next command of a saga: the phase and the upstream list after it. `valid` is the
      adaptive re-validation, `e` the orchestrator's answer. Provisioning, resetting and
      destroying replace the upstream list as the orchestrator sees fit. */
  function RunCommand(o: Operation, phase: Phase, gw: Servers, valid: bool, e: SystemEvent): (Phase, Servers)
    requires e.Command?
  {
    match o.action
    case CreateLab =>
      if phase != Ready then (phase, gw)
      else if e.ok && e.provision.Some? then (Provisioned(e.provision.value), e.servers) else (Broken, e.servers)
    case ResetLab =>
      if phase != Ready then (phase, gw)
      else if e.ok && e.provision.Some? then (Provisioned(e.provision.value), e.servers) else (Broken, e.servers)
    case DestroyLab =>
      if phase != Ready then (phase, gw) else if e.ok then (Destroyed, e.servers) else (Broken, e.servers)
    case AddInstance =>
      (match phase
       case Ready => if e.ok && Decodes(e.instance) then (Created(e.instance.value), gw) else (Broken, gw)
       case Created(i) => Route(e.ok, Target(o), gw, Routed(Some(i)), Undo)
       case Undo => (Broken, gw)
       case _ => (phase, gw))
    case RemoveInstance =>
      (match phase
       case Ready => Route(e.ok, Target(o), gw, Routed(None), Broken)
       case Routed(_) => if e.ok then (Removed, gw) else (Restore, gw)
       case Restore => Route(e.ok, Previous(o), gw, Broken, Broken)
       case _ => (phase, gw))
    case SetPerformance =>
      (match phase
       case Ready => if e.ok && Decodes(e.instance) then (Created(e.instance.value), gw) else (Broken, gw)
       case Created(i) => Route(e.ok, Target(o), gw, Routed(Some(i)), Undo)
       case Undo => (Restore, gw)
       case Restore => Route(e.ok, Previous(o), gw, Broken, Broken)
       case _ => (phase, gw))
    case SetWeights => if phase == Ready then Route(e.ok, Target(o), gw, Routed(None), Broken) else (phase, gw)
    case ApplyAdaptive =>
      if phase != Ready then (phase, gw)
      else if !valid then (Outdated, gw)
      else Route(e.ok, Target(o), gw, Routed(None), Broken)
    case SetMode => (phase, gw)
    case _ => if phase == Ready then (if e.ok then Answered(e.redis) else Broken, gw) else (phase, gw)
  }

  /** The completion a worker issues at the end of a saga, if it is at an end. */
  function FinalReport(o: Operation, phase: Phase): Option<Report> {
    match o.action
    case CreateLab =>
      if phase.Provisioned? then Some(ProvisionReport(Success(phase.result)))
      else if phase == Broken then Some(ProvisionReport(Failure)) else None
    case ResetLab =>
      if phase.Provisioned? then Some(ProvisionReport(Success(phase.result)))
      else if phase == Broken then Some(ProvisionReport(Failure)) else None
    case DestroyLab =>
      if phase == Destroyed then Some(DestroyReport(true)) else if phase == Broken then Some(DestroyReport(false)) else None
    case SetMode => if phase == Ready then Some(TopologyReport(Success(None), false)) else None
    case RemoveInstance =>
      if phase == Removed then Some(TopologyReport(Success(None), false))
      else if phase == Broken then Some(TopologyReport(Failure, false)) else None
    case _ =>
      if o.action.Cache() then
        (if phase.Answered? then Some(CacheReport(Success(phase.redis)))
         else if phase == Broken then Some(CacheReport(Failure)) else None)
      else if phase.Routed? then Some(TopologyReport(Success(phase.answer), false))
      else if phase == Outdated then Some(TopologyReport(Success(None), true))
      else if phase == Broken then Some(TopologyReport(Failure, false)) else None
  }

  /** The re-validation a worker makes before it routes an adaptive adjustment. */
  predicate StillValid(s: State, id: OpId)
    requires id in s.ops
  {
    s.ops[id].payload.AdaptivePayload? && ValidateAdaptive(s, id, s.ops[id].payload.fingerprint)
  }

  function SystemNext(c: Config, y: System, e: SystemEvent): System {
    match e
    case Transact(event) =>
      if event.CompleteEvent? || event.StartEvent? then y else y.(db := Next(c, y.db, event).0)
    case Begin(work, lease) =>
      var (db, reply) := MarkRunning(y.db, work.id, work.owner, lease);
      if reply == Done then y.(db := db, sagas := y.sagas[work := Ready]) else y
    case Command(work, ok, _, _, _, _) =>
      if work !in y.sagas || work.id !in y.db.ops then y
      else
        var o := y.db.ops[work.id];
        var (phase, servers) := RunCommand(o, y.sagas[work], Served(y, o.lab), StillValid(y.db, work.id), e);
        y.(sagas := y.sagas[work := phase], gateway := y.gateway[o.lab := servers])
    case Abandon(work, restored) =>
      // A worker told to stop while it drains a server tries to put the upstream list back and leaves.
      if work in y.sagas && work.id in y.db.ops && y.db.ops[work.id].action == RemoveInstance && y.sagas[work].Routed? then
        var o := y.db.ops[work.id];
        var servers := if restored then Previous(o) else Served(y, o.lab);
        y.(sagas := y.sagas - {work}, gateway := y.gateway[o.lab := servers])
      else y
    case Commit(work, now) =>
      if work !in y.sagas || work.id !in y.db.ops then y
      else
        var report := FinalReport(y.db.ops[work.id], y.sagas[work]);
        if report == None then y
        else y.(db := Complete(y.db, work.id, work.owner, report.value, now).0, sagas := y.sagas - {work})
  }

  // ----- Assumptions about the outside --------------------------------------

  /** Provisioning leaves the gateway serving exactly what it reports. */
  predicate TrustedLabAnswer(c: Config, o: Operation, e: SystemEvent)
    requires e.Command?
  {
    e.ok && e.provision.Some? ==>
      TrustedProvision(c.quota, e.provision.value) && e.servers == WeightsOf(RowsOf(e.provision.value.instances))
  }

  /** Instances come back under the requested name, new ones with the initial weight 100. */
  predicate TrustedInstanceAnswer(o: Operation, i: Option<ProvisionedInstance>) {
    i.Some? && o.payload.TopologyPayload? ==>
      i.value.name == o.payload.name && (o.action == AddInstance ==> i.value.weight == 100)
  }

  /** No lease is lost while a saga runs, compensating routes succeed, answers are as requested. */
  predicate Benign(c: Config, y: System, e: SystemEvent) {
    match e
    case Transact(event) => event.ClaimEvent? ==> forall work :: work in y.sagas ==> work.id != event.id
    case Command(work, ok, _, instance, _, _) =>
      work in y.sagas && work.id in y.db.ops ==>
        && TrustedLabAnswer(c, y.db.ops[work.id], e)
        && TrustedInstanceAnswer(y.db.ops[work.id], instance)
        && (y.sagas[work] == Restore && y.db.ops[work.id].action == RemoveInstance ==> ok)
    case Abandon(_, restored) => restored
    case _ => true
  }

  const EmptySystem := System(EmptyState, map[], map[])

  function SystemAfter(c: Config, run: seq<SystemEvent>): System {
    if run == [] then EmptySystem else SystemNext(c, SystemAfter(c, run[..|run| - 1]), run[|run| - 1])
  }

  ghost predicate BenignRun(c: Config, run: seq<SystemEvent>) {
    forall k :: 0 <= k < |run| ==> Benign(c, SystemAfter(c, run[..k]), run[k])
  }

  // ----- Invariant ----------------------------------------------------------

  /** The upstream list while an operation is at a phase. */
  predicate SagaOk(c: Config, o: Operation, phase: Phase, rows: Instances, gw: Servers) {
    match o.action
    case CreateLab => phase.Provisioned? ==> TrustedProvision(c.quota, phase.result) && gw == WeightsOf(RowsOf(phase.result.instances))
    case ResetLab =>
      && (phase == Ready ==> gw == WeightsOf(rows))
      && (phase.Provisioned? ==> TrustedProvision(c.quota, phase.result) && gw == WeightsOf(RowsOf(phase.result.instances)))
    case DestroyLab => true
    case AddInstance =>
      && (if phase.Routed? then gw == Target(o) else gw == WeightsOf(rows))
      && (phase.Created? ==> Decodes(Some(phase.instance)) && TrustedInstanceAnswer(o, Some(phase.instance)))
      && (phase.Routed? ==> phase.answer.Some? && Decodes(phase.answer) && TrustedInstanceAnswer(o, phase.answer))
      && (phase == Ready || phase.Created? || phase.Routed? || phase == Undo || phase == Broken)
    case RemoveInstance =>
      && (if phase.Routed? || phase == Removed || phase == Restore then gw == Target(o) else gw == WeightsOf(rows))
      && (phase == Ready || phase.Routed? || phase == Removed || phase == Restore || phase == Broken)
    case SetPerformance =>
      && gw == WeightsOf(rows)
      && (phase.Created? ==> TrustedInstanceAnswer(o, Some(phase.instance)))
      && (phase.Routed? ==> TrustedInstanceAnswer(o, phase.answer))
      && phase != Outdated
    case SetWeights =>
      if phase.Routed? then phase.answer == None && gw == Target(o) else phase != Outdated && gw == WeightsOf(rows)
    case ApplyAdaptive => if phase.Routed? then phase.answer == None && gw == Target(o) else gw == WeightsOf(rows)
    case _ => gw == WeightsOf(rows)
  }

  ghost predicate InSaga(y: System, lab: LabId) {
    exists work :: work in y.sagas && work.id in y.db.ops && y.db.ops[work.id].lab == lab
  }

  /** A condition on an operation, its saga's phase, its lab's rows and its lab's upstream list. */
  type Fit = (Operation, Phase, Instances, Servers) -> bool

  ghost predicate SagasFit(fit: Fit, y: System) {
    forall work :: work in y.sagas ==>
      && HoldsLease(y.db, work.id, work.owner)
      && var o := y.db.ops[work.id]; fit(o, y.sagas[work], Rows(y.db, o.lab), Served(y, o.lab))
  }

  ghost predicate OneSaga(y: System) {
    forall i, j :: i in y.sagas && j in y.sagas && i.id in y.db.ops && j.id in y.db.ops && y.db.ops[i.id].lab == y.db.ops[j.id].lab ==> i == j
  }

  ghost predicate IdleAgree(y: System) {
    forall lab :: lab in y.db.sessions && y.db.sessions[lab].status.Up() && !InSaga(y, lab) ==>
      Served(y, lab) == WeightsOf(Rows(y.db, lab))
  }

  function SagaFit(c: Config): Fit {
    (o: Operation, phase: Phase, rows: Instances, gw: Servers) => SagaOk(c, o, phase, rows, gw)
  }

  ghost predicate SystemInv(c: Config, y: System) {
    Inv(c, y.db) && SagasFit(SagaFit(c), y) && IdleAgree(y)
  }
}
