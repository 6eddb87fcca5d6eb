/**
 What lost workers can still do to the gateway of an idle lab, after the operation
 they were executing has been committed by another.
 */
module LateRoutes {
  import opened Domain
  import opened Transactions
  import opened Coupling
  import opened Effects
  import opened Leases
  import opened ActiveSet
  import opened Guarantees
  import opened CapacitySteps
  import opened Gateway
  import opened GatewayProof
  import opened LostLease
  import opened Takeover

  // ----- What a saga may still route -----------------------------------------------------

  /** The lists that a worker at this phase of a topology operation may still route. */
  function StillRoutes(o: Operation, phase: Phase, valid: bool): set<Servers> {
    match o.action
    case AddInstance => if phase == Ready || phase.Created? then {Target(o)} else {}
    case RemoveInstance =>
      if phase == Ready then {Target(o), Previous(o)}
      else if phase.Routed? || phase == Restore then {Previous(o)}
      else {}
    case SetPerformance =>
      if phase == Ready || phase.Created? then {Target(o), Previous(o)}
      else if phase == Undo || phase == Restore then {Previous(o)}
      else {}
    case SetWeights => if phase == Ready then {Target(o)} else {}
    case ApplyAdaptive => if phase == Ready && valid then {Target(o)} else {}
    case _ => {}
  }

  predicate LabAction(action: Action) {
    action == CreateLab || action == ResetLab || action == DestroyLab
  }

  /** A worker at this phase may still route something else than `weights`. Provisioning, resetting and
      destroying replace the upstream list as the orchestrator sees fit. */
  predicate Threatens(o: Operation, phase: Phase, valid: bool, weights: Servers) {
    (LabAction(o.action) && phase == Ready) || exists list :: list in StillRoutes(o, phase, valid) && list != weights
  }

  /** A command routes one of these lists or none, and leaves no new ones. */
  lemma CommandWithin(o: Operation, phase: Phase, gw: Servers, valid: bool, e: SystemEvent)
    requires e.Command? && !(LabAction(o.action) && phase == Ready)
    ensures var (p, servers) := RunCommand(o, phase, gw, valid, e);
      && (servers == gw || servers in StillRoutes(o, phase, valid))
      && StillRoutes(o, p, valid) <= StillRoutes(o, phase, valid)
      && !(LabAction(o.action) && p == Ready)
  {
  }

  // ----- An idle lab ------------------------------------------------------------------------

  predicate Idle(s: State, lab: LabId) {
    lab in s.sessions && s.sessions[lab].status.Up() && !LabBusy(s, lab)
  }

  /** What a lab's upstream list should be, and what lost workers check before they route. */
  ghost predicate SameLab(s: State, t: State, lab: LabId) {
    && Rows(t, lab) == Rows(s, lab)
    && (lab in s.sessions && lab in t.sessions ==> t.sessions[lab].mode == s.sessions[lab].mode && t.sessions[lab].scenario == s.sessions[lab].scenario)
    && (forall id :: id in s.ops && s.ops[id].lab == lab ==> id in t.ops && t.ops[id] == s.ops[id])
  }

  lemma AcceptedMakesBusy(c: Config, s: State, e: Event)
    requires OpsOk(c, s) && Enqueueing(e) && Next(c, s, e).1.Accepted?
    ensures LabBusy(Next(c, s, e).0, e.lab)
  {
    var t := Next(c, s, e).0;
    match e {
      case CreateEvent(_, _, _, _, _, _) => CreateRequests(c, s, e);
      case ActionEvent(_, _, _, _, _, _) => ActionRequests(c, s, e);
      case SubmitEvent(_, _, _, _) => SubmitRequests(c, s, e);
      case AdjustEvent(_, _, _, _, _, _) => AdjustRequests(c, s, e);
      case AdvanceEvent(_, _) => AdvanceRequests(c, s, e);
    }
    assert OpInFlight(t, EnqueueId(e), e.lab);
  }

  /** A request that leaves the lab idle was not accepted for it. */
  lemma RequestLeavesLab(c: Config, s: State, e: Event, lab: LabId)
    requires OpsOk(c, s) && Enqueueing(e) && Idle(s, lab) && Idle(Next(c, s, e).0, lab)
    ensures SameLab(s, Next(c, s, e).0, lab)
  {
    var (t, reply) := Next(c, s, e);
    EnqueueEffect(c, s, e);
    if reply.Accepted? {
      AcceptedMakesBusy(c, s, e);
      match e {
        case CreateEvent(_, _, _, _, _, _) => CreateRequests(c, s, e);
        case ActionEvent(_, _, _, _, _, _) => ActionRequests(c, s, e);
        case SubmitEvent(_, _, _, _) => SubmitRequests(c, s, e);
        case AdjustEvent(_, _, _, _, _, _) => AdjustRequests(c, s, e);
        case AdvanceEvent(_, _) => AdvanceRequests(c, s, e);
      }
    } else {
      RefusedLeavesLab(c, s, e, lab);
    }
  }

  lemma RefusedLeavesLab(c: Config, s: State, e: Event, lab: LabId)
    requires Enqueueing(e) && !Next(c, s, e).1.Accepted? && lab in s.sessions
    ensures var t := Next(c, s, e).0;
      lab in t.sessions && t.sessions[lab].mode == s.sessions[lab].mode && t.sessions[lab].scenario == s.sessions[lab].scenario
  {
    match e
    case CreateEvent(user, course, lookup, id, l, now) => CreateRefused(s, c.quota, user, course, lookup, id, l, now);
    case ActionEvent(user, l, id, action, reason, now) => ActionRefused(s, user, l, id, action, reason, now);
    case SubmitEvent(user, l, input, now) => SubmitEnqueues(s, c.quota, user, l, input, now);
    case AdjustEvent(user, l, id, topology, ws, now) => AdjustEnqueues(s, user, l, id, topology, ws, now);
    case AdvanceEvent(l, now) =>
  }

  lemma FinishedOps(s: State, lab: LabId, id: OpId)
    requires !LabBusy(s, lab) && id in s.ops && s.ops[id].lab == lab
    ensures !s.ops[id].status.InFlight()
  {
    assert !OpInFlight(s, id, lab);
  }

  lemma LeaseLeavesLab(c: Config, s: State, e: Event, lab: LabId)
    requires (e.ClaimEvent? || e.StartEvent?) && !LabBusy(s, lab)
    ensures SameLab(s, Next(c, s, e).0, lab)
  {
    if e.id in s.ops && s.ops[e.id].lab == lab {
      FinishedOps(s, lab, e.id);
    }
  }

  lemma CompletionLeavesLab(s: State, id: OpId, owner: Owner, report: Report, now: Time, lab: LabId)
    requires Idle(s, lab) && id in s.ops && s.ops[id].lab in s.sessions
    ensures var t := Complete(s, id, owner, report, now).0; SameLab(s, t, lab) && Idle(t, lab)
  {
    var (t, reply) := Complete(s, id, owner, report, now);
    CompletionFinishes(s, id, owner, report, now);
    IdleUntouched(s, id, owner, report, now, lab);
    if s.ops[id].lab == lab {
      FinishedOps(s, lab, id);
    } else {
      CompleteFrame(s, id, owner, report, now);
      CompletionIdentity(s, id, owner, report, now);
      forall i | i in t.ops ensures !OpInFlight(t, i, lab) {
        assert i in t.ops.Keys;
        assert !OpInFlight(s, i, lab);
      }
    }
  }

  // ----- Threats to an idle lab ------------------------------------------------------------------

  /** No worker still executing an operation of the lab may route anything but what its rows say. */
  ghost predicate Unthreatened(y: System, lab: LabId) {
    forall work :: work in y.sagas && work.id in y.db.ops && y.db.ops[work.id].lab == lab ==>
      !Threatens(y.db.ops[work.id], y.sagas[work], StillValid(y.db, work.id), WeightsOf(Rows(y.db, lab)))
  }

  ghost predicate Secure(c: Config, y: System, lab: LabId) {
    Sound(c, y) && Idle(y.db, lab) && Served(y, lab) == WeightsOf(Rows(y.db, lab)) && Unthreatened(y, lab)
  }

  lemma SameValidity(s: State, t: State, lab: LabId, id: OpId)
    requires Idle(s, lab) && Idle(t, lab) && SameLab(s, t, lab) && id in s.ops && s.ops[id].lab == lab
    ensures id in t.ops && StillValid(t, id) == StillValid(s, id)
  {
  }

  lemma TablesStaySecure(y: System, t: State, sagas: map<Work, Phase>, lab: LabId)
    requires Idle(y.db, lab) && Idle(t, lab) && SameLab(y.db, t, lab) && Unthreatened(y, lab)
    requires forall work :: work in sagas && work.id in t.ops && t.ops[work.id].lab == lab ==>
      work in y.sagas && work.id in y.db.ops && y.db.ops[work.id].lab == lab && sagas[work] == y.sagas[work]
    ensures Unthreatened(y.(db := t, sagas := sagas), lab)
  {
    var z := y.(db := t, sagas := sagas);
    forall work | work in z.sagas && work.id in t.ops && t.ops[work.id].lab == lab
      ensures !Threatens(t.ops[work.id], z.sagas[work], StillValid(t, work.id), WeightsOf(Rows(t, lab)))
    {
      SameValidity(y.db, t, lab, work.id);
    }
  }

  lemma KnownSagas(c: Config, y: System, e: Event, lab: LabId)
    requires AllRemember(c, y) && !e.CompleteEvent?
    ensures var t := Next(c, y.db, e).0;
      forall work :: work in y.sagas && work.id in t.ops && t.ops[work.id].lab == lab ==>
        work.id in y.db.ops && y.db.ops[work.id].lab == lab
  {
    TransactionPayloads(c, y.db, e);
  }

  lemma TransactStaysSecure(c: Config, y: System, e: Event, lab: LabId)
    requires Secure(c, y, lab) && !e.CompleteEvent? && Idle(Next(c, y.db, e).0, lab)
    ensures var t := Next(c, y.db, e).0; SameLab(y.db, t, lab) && Unthreatened(y.(db := t), lab)
  {
    var t := Next(c, y.db, e).0;
    if Enqueueing(e) {
      RequestLeavesLab(c, y.db, e, lab);
    } else {
      LeaseLeavesLab(c, y.db, e, lab);
    }
    KnownSagas(c, y, e, lab);
    TablesStaySecure(y, t, y.sagas, lab);
  }

  lemma BeginStaysSecure(c: Config, y: System, work: Work, lease: Time, lab: LabId)
    requires AllRemember(c, y) && Idle(y.db, lab) && Unthreatened(y, lab) && Idle(SystemNext(c, y, Begin(work, lease)).db, lab)
    ensures var z := SystemNext(c, y, Begin(work, lease)); SameLab(y.db, z.db, lab) && Unthreatened(z, lab)
  {
    var (t, reply) := MarkRunning(y.db, work.id, work.owner, lease);
    if reply == Done {
      assert y.db.ops[work.id].lab != lab by {
        assert !OpInFlight(y.db, work.id, lab);
      }
      StartStaysSecure(c, y, t, work, lease, lab);
    }
  }

  lemma StartStaysSecure(c: Config, y: System, t: State, work: Work, lease: Time, lab: LabId)
    requires AllRemember(c, y) && Idle(y.db, lab) && Unthreatened(y, lab) && Idle(t, lab)
    requires t == Next(c, y.db, StartEvent(work.id, work.owner, lease)).0 && work.id in y.db.ops && y.db.ops[work.id].lab != lab
    ensures SameLab(y.db, t, lab) && Unthreatened(y.(db := t, sagas := y.sagas[work := Ready]), lab)
  {
    LeaseLeavesLab(c, y.db, StartEvent(work.id, work.owner, lease), lab);
    KnownSagas(c, y, StartEvent(work.id, work.owner, lease), lab);
    TransactionPayloads(c, y.db, StartEvent(work.id, work.owner, lease));
    TablesStaySecure(y, t, y.sagas[work := Ready], lab);
  }

  lemma CommandStaysSecure(c: Config, y: System, e: SystemEvent, lab: LabId)
    requires AllRemember(c, y) && Served(y, lab) == WeightsOf(Rows(y.db, lab)) && Unthreatened(y, lab) && (e.Command? || e.Abandon?)
    ensures var z := SystemNext(c, y, e); z.db == y.db && Served(z, lab) == WeightsOf(Rows(y.db, lab)) && Unthreatened(z, lab)
  {
    var z := SystemNext(c, y, e);
    if e.work in y.sagas && y.db.ops[e.work.id].lab == lab {
      var o, phase, valid := y.db.ops[e.work.id], y.sagas[e.work], StillValid(y.db, e.work.id);
      assert !Threatens(o, phase, valid, WeightsOf(Rows(y.db, lab)));
      if e.Command? {
        CommandWithin(o, phase, Served(y, lab), valid, e);
      } else if o.action == RemoveInstance && phase.Routed? {
        assert Previous(o) in StillRoutes(o, phase, valid);
      }
    }
  }

  lemma CommitStaysSecure(c: Config, y: System, work: Work, now: Time, lab: LabId)
    requires OpsOk(c, y.db) && AllRemember(c, y) && Idle(y.db, lab) && Unthreatened(y, lab)
    ensures var z := SystemNext(c, y, Commit(work, now)); SameLab(y.db, z.db, lab) && Unthreatened(z, lab)
  {
    if work in y.sagas && FinalReport(y.db.ops[work.id], y.sagas[work]).Some? {
      CommitStep(c, y, work, now);
      ReportStaysSecure(c, y, work, FinalReport(y.db.ops[work.id], y.sagas[work]).value, now, lab);
    } else {
      assert SystemNext(c, y, Commit(work, now)) == y;
    }
  }

  lemma ReportStaysSecure(c: Config, y: System, work: Work, report: Report, now: Time, lab: LabId)
    requires AllRemember(c, y) && Idle(y.db, lab) && Unthreatened(y, lab)
    requires work.id in y.db.ops && y.db.ops[work.id].lab in y.db.sessions
    ensures var t := Complete(y.db, work.id, work.owner, report, now).0;
      SameLab(y.db, t, lab) && Unthreatened(y.(db := t, sagas := y.sagas - {work}), lab)
  {
    CompletionLeavesLab(y.db, work.id, work.owner, report, now, lab);
    CompletionPayloads(y.db, work.id, work.owner, report, now);
    TablesStaySecure(y, Complete(y.db, work.id, work.owner, report, now).0, y.sagas - {work}, lab);
  }

  lemma LateStep(c: Config, y: System, e: SystemEvent, lab: LabId)
    requires Secure(c, y, lab) && AsAsked(c, y, e) && Idle(SystemNext(c, y, e).db, lab)
    ensures Secure(c, SystemNext(c, y, e), lab) && Rows(SystemNext(c, y, e).db, lab) == Rows(y.db, lab)
  {
    StepStaysSound(c, y, e);
    match e
    case Transact(event) =>
      if !event.CompleteEvent? && !event.StartEvent? {
        TransactStaysSecure(c, y, event, lab);
      }
    case Begin(work, lease) => BeginStaysSecure(c, y, work, lease, lab);
    case Command(_, _, _, _, _, _) => CommandStaysSecure(c, y, e, lab);
    case Abandon(_, _) => CommandStaysSecure(c, y, e, lab);
    case Commit(work, now) => CommitStaysSecure(c, y, work, now, lab);
  }

  /** Anything may happen, as long as the lab stays idle. */
  predicate LateRun(c: Config, y: System, run: seq<SystemEvent>, lab: LabId)
    decreases |run|
  {
    run != [] ==>
      && AsAsked(c, y, run[0]) && Idle(SystemNext(c, y, run[0]).db, lab)
      && LateRun(c, SystemNext(c, y, run[0]), run[1..], lab)
  }

  lemma {:induction false} SecureStays(c: Config, y: System, run: seq<SystemEvent>, lab: LabId)
    requires Secure(c, y, lab) && LateRun(c, y, run, lab)
    ensures Served(Onward(c, y, run), lab) == WeightsOf(Rows(y.db, lab)) == WeightsOf(Rows(Onward(c, y, run).db, lab))
    decreases |run|
  {
    if run != [] {
      LateStep(c, y, run[0], lab);
      SecureStays(c, SystemNext(c, y, run[0]), run[1..], lab);
    }
  }

  // ----- A threat can come true ---------------------------------------------------------------------

  /** All commands are this worker's, and answer what was asked. */
  predicate Own(o: Operation, work: Work, answers: seq<SystemEvent>) {
    forall i :: 0 <= i < |answers| ==> answers[i].Command? && answers[i].work == work && answers[i].provision == None
                                       && TrustedInstanceAnswer(o, answers[i].instance)
  }

  function RunAll(o: Operation, phase: Phase, gw: Servers, valid: bool, answers: seq<SystemEvent>): Servers
    requires Commands(answers)
    decreases |answers|
  {
    if answers == [] then gw
    else
      var (p, servers) := RunCommand(o, phase, gw, valid, answers[0]);
      RunAll(o, p, servers, valid, answers[1..])
  }

  /** A worker's further commands do to the gateway what its saga says. */
  lemma {:induction false} Pursued(c: Config, y: System, work: Work, answers: seq<SystemEvent>, lab: LabId)
    requires work in y.sagas && work.id in y.db.ops && y.db.ops[work.id].lab == lab && Idle(y.db, lab)
    requires Own(y.db.ops[work.id], work, answers)
    ensures LateRun(c, y, answers, lab) && Onward(c, y, answers).db == y.db
    ensures Served(Onward(c, y, answers), lab)
         == RunAll(y.db.ops[work.id], y.sagas[work], Served(y, lab), StillValid(y.db, work.id), answers)
    decreases |answers|
  {
    if answers != [] {
      assert answers[0].Command? && answers[0].work == work;
      Pursued(c, SystemNext(c, y, answers[0]), work, answers[1..], lab);
    }
  }

  function Goes(work: Work, ok: bool, instance: Option<ProvisionedInstance>, servers: Servers): SystemEvent {
    Command(work, ok, None, instance, false, servers)
  }

  function Fresh(name: Name): ProvisionedInstance {
    ProvisionedInstance(name, "c", "n", None, 1.0, 1, 1, 1, 1, 100)
  }

  function Yes(work: Work): SystemEvent { Goes(work, true, None, map[]) }
  function No(work: Work): SystemEvent { Goes(work, false, None, map[]) }
  function Makes(o: Operation, work: Work): SystemEvent {
    Goes(work, true, Some(Fresh(if o.payload.TopologyPayload? then o.payload.name else "n")), map[])
  }

  lemma Unfold(o: Operation, phase: Phase, gw: Servers, valid: bool, e: SystemEvent, rest: seq<SystemEvent>)
    requires e.Command? && Commands(rest)
    ensures Commands([e] + rest)
    ensures var (p, servers) := RunCommand(o, phase, gw, valid, e);
      RunAll(o, phase, gw, valid, [e] + rest) == RunAll(o, p, servers, valid, rest)
  {
    assert ([e] + rest)[1..] == rest;
  }

  /** Commands by which a worker at this phase routes a given list that it may still route. */
  function Pursuit(o: Operation, phase: Phase, work: Work, list: Servers): seq<SystemEvent> {
    match o.action
    case AddInstance => if phase == Ready then [Makes(o, work)] + [Yes(work)] else [Yes(work)]
    case RemoveInstance =>
      if phase == Restore then [Yes(work)]
      else if phase.Routed? then [No(work)] + [Yes(work)]
      else if list == Target(o) then [Yes(work)]
      else [Yes(work)] + ([No(work)] + [Yes(work)])
    case SetPerformance =>
      if phase == Restore then [Yes(work)]
      else if phase == Undo then [Yes(work)] + [Yes(work)]
      else if phase == Ready then [Makes(o, work)] + (if list == Target(o) then [Yes(work)] else [No(work)] + ([Yes(work)] + [Yes(work)]))
      else if list == Target(o) then [Yes(work)]
      else [No(work)] + ([Yes(work)] + [Yes(work)])
    case _ => [Yes(work)]
  }

  lemma PursuitOwn(o: Operation, phase: Phase, work: Work, list: Servers)
    ensures Own(o, work, Pursuit(o, phase, work, list)) && Commands(Pursuit(o, phase, work, list))
  {
  }

  lemma OneCommand(o: Operation, phase: Phase, gw: Servers, valid: bool, e: SystemEvent)
    requires e.Command?
    ensures Commands([e]) && RunAll(o, phase, gw, valid, [e]) == RunCommand(o, phase, gw, valid, e).1
  {
    assert [e][1..] == [];
  }

  lemma AdditionPursued(o: Operation, phase: Phase, gw: Servers, valid: bool, work: Work)
    requires o.action == AddInstance && Named(o) && (phase == Ready || phase.Created?)
    ensures Commands(Pursuit(o, phase, work, Target(o))) && RunAll(o, phase, gw, valid, Pursuit(o, phase, work, Target(o))) == Target(o)
  {
    PursuitOwn(o, phase, work, Target(o));
    OneCommand(o, phase, gw, valid, Yes(work));
    if phase == Ready {
      var p := RunCommand(o, phase, gw, valid, Makes(o, work)).0;
      OneCommand(o, p, gw, valid, Yes(work));
      Unfold(o, phase, gw, valid, Makes(o, work), [Yes(work)]);
    }
  }

  /** Failing to delete and putting the previous list back. */
  lemma RestorePursued(o: Operation, phase: Phase, gw: Servers, valid: bool, work: Work)
    requires o.action == RemoveInstance && phase.Routed?
    ensures Commands([No(work)] + [Yes(work)]) && RunAll(o, phase, gw, valid, [No(work)] + [Yes(work)]) == Previous(o)
  {
    OneCommand(o, Restore, gw, valid, Yes(work));
    Unfold(o, phase, gw, valid, No(work), [Yes(work)]);
  }

  lemma RemovalPursued(o: Operation, phase: Phase, gw: Servers, valid: bool, work: Work, list: Servers)
    requires o.action == RemoveInstance && list in StillRoutes(o, phase, valid)
    ensures Commands(Pursuit(o, phase, work, list)) && RunAll(o, phase, gw, valid, Pursuit(o, phase, work, list)) == list
  {
    PursuitOwn(o, phase, work, list);
    OneCommand(o, phase, gw, valid, Yes(work));
    if phase.Routed? {
      RestorePursued(o, phase, gw, valid, work);
    } else if phase == Ready && list != Target(o) {
      RestorePursued(o, Routed(None), Target(o), valid, work);
      Unfold(o, phase, gw, valid, Yes(work), [No(work)] + [Yes(work)]);
    }
  }

  /** Undoing a resize and putting the previous list back. */
  lemma UndoPursued(o: Operation, phase: Phase, gw: Servers, valid: bool, work: Work)
    requires o.action == SetPerformance && phase.Created?
    ensures Commands([Yes(work)] + [Yes(work)]) && RunAll(o, Undo, gw, valid, [Yes(work)] + [Yes(work)]) == Previous(o)
    ensures Commands([No(work)] + ([Yes(work)] + [Yes(work)]))
    ensures RunAll(o, phase, gw, valid, [No(work)] + ([Yes(work)] + [Yes(work)])) == Previous(o)
  {
    OneCommand(o, Restore, gw, valid, Yes(work));
    Unfold(o, Undo, gw, valid, Yes(work), [Yes(work)]);
    Unfold(o, phase, gw, valid, No(work), [Yes(work)] + [Yes(work)]);
  }

  lemma ResizePursued(o: Operation, phase: Phase, gw: Servers, valid: bool, work: Work, list: Servers)
    requires o.action == SetPerformance && Named(o) && list in StillRoutes(o, phase, valid)
    ensures Commands(Pursuit(o, phase, work, list)) && RunAll(o, phase, gw, valid, Pursuit(o, phase, work, list)) == list
  {
    PursuitOwn(o, phase, work, list);
    OneCommand(o, phase, gw, valid, Yes(work));
    var created := Created(Fresh(o.payload.name));
    UndoPursued(o, created, gw, valid, work);
    if phase == Ready {
      assert RunCommand(o, phase, gw, valid, Makes(o, work)) == (created, gw);
      if list == Target(o) {
        OneCommand(o, created, gw, valid, Yes(work));
        Unfold(o, phase, gw, valid, Makes(o, work), [Yes(work)]);
      } else {
        Unfold(o, phase, gw, valid, Makes(o, work), [No(work)] + ([Yes(work)] + [Yes(work)]));
      }
    } else if phase.Created? {
      UndoPursued(o, phase, gw, valid, work);
    }
  }

  lemma PursuitRoutes(o: Operation, phase: Phase, gw: Servers, valid: bool, work: Work, list: Servers)
    requires list in StillRoutes(o, phase, valid) && Named(o)
    ensures Commands(Pursuit(o, phase, work, list)) && RunAll(o, phase, gw, valid, Pursuit(o, phase, work, list)) == list
  {
    match o.action
    case AddInstance => AdditionPursued(o, phase, gw, valid, work);
    case RemoveInstance => RemovalPursued(o, phase, gw, valid, work, list);
    case SetPerformance => ResizePursued(o, phase, gw, valid, work, list);
    case _ => OneCommand(o, phase, gw, valid, Yes(work));
  }

  /** Another upstream list. */
  function Other(list: Servers): Servers {
    if list == map[] then map["x" := 1] else map[]
  }

  lemma LabPursued(o: Operation, gw: Servers, valid: bool, work: Work, list: Servers)
    requires LabAction(o.action)
    ensures var e := Goes(work, false, None, list); Own(o, work, [e]) && Commands([e]) && RunAll(o, Ready, gw, valid, [e]) == list
  {
    OneCommand(o, Ready, gw, valid, Goes(work, false, None, list));
  }

  /** A worker that may still route something else can do so while the lab is idle. */
  lemma ThreatComesTrue(c: Config, y: System, lab: LabId, work: Work) returns (run: seq<SystemEvent>)
    requires Sound(c, y) && Idle(y.db, lab) && work in y.sagas && y.db.ops[work.id].lab == lab
    requires Threatens(y.db.ops[work.id], y.sagas[work], StillValid(y.db, work.id), WeightsOf(Rows(y.db, lab)))
    ensures LateRun(c, y, run, lab) && Onward(c, y, run).db == y.db && Served(Onward(c, y, run), lab) != WeightsOf(Rows(y.db, lab))
  {
    var o, phase, valid, weights := y.db.ops[work.id], y.sagas[work], StillValid(y.db, work.id), WeightsOf(Rows(y.db, lab));
    if LabAction(o.action) && phase == Ready {
      run := [Goes(work, false, None, Other(weights))];
      LabPursued(o, Served(y, lab), valid, work, Other(weights));
    } else {
      var list :| list in StillRoutes(o, phase, valid) && list != weights;
      run := Pursuit(o, phase, work, list);
      PursuitOwn(o, phase, work, list);
      PursuitRoutes(o, phase, Served(y, lab), valid, work, list);
    }
    Pursued(c, y, work, run, lab);
  }

  // ----- The condition --------------------------------------------------------------------------------

  /** However long the lab stays idle and whatever lost workers do, the gateway serves what its rows say. */
  ghost predicate AgreesWhileIdle(c: Config, y: System, lab: LabId) {
    forall run :: LateRun(c, y, run, lab) ==> Served(Onward(c, y, run), lab) == WeightsOf(Rows(Onward(c, y, run).db, lab))
  }

  /** It does if and only if it does now and no worker still executing an operation of the lab may route
      anything else, which its action and phase tell. */
  lemma LateAgreementIff(c: Config, y: System, lab: LabId)
    requires Sound(c, y) && Idle(y.db, lab)
    ensures AgreesWhileIdle(c, y, lab) <==> Served(y, lab) == WeightsOf(Rows(y.db, lab)) && Unthreatened(y, lab)
  {
    if Served(y, lab) == WeightsOf(Rows(y.db, lab)) && Unthreatened(y, lab) {
      forall run | LateRun(c, y, run, lab) ensures Served(Onward(c, y, run), lab) == WeightsOf(Rows(Onward(c, y, run).db, lab)) {
        SecureStays(c, y, run, lab);
      }
    } else if Served(y, lab) == WeightsOf(Rows(y.db, lab)) {
      var work :| work in y.sagas && work.id in y.db.ops && y.db.ops[work.id].lab == lab
        && Threatens(y.db.ops[work.id], y.sagas[work], StillValid(y.db, work.id), WeightsOf(Rows(y.db, lab)));
      var run := ThreatComesTrue(c, y, lab, work);
      assert LateRun(c, y, run, lab);
    } else {
      assert LateRun(c, y, [], lab) && Onward(c, y, []) == y;
    }
  }

  // ----- By action and phase -----------------------------------------------------------------------------

  /** The weights of the rows once the operation is committed, with success or without. */
  function Committed(o: Operation, rows: Instances, succeeded: bool): Servers {
    if succeeded && o.action != SetMode then Target(o) else WeightsOf(rows)
  }

  lemma LateAddition(quota: Quota, row: Session, rows: Instances, o: Operation, phase: Phase, valid: bool, succeeded: bool)
    requires OpOk(quota, row, rows, o) && o.action == AddInstance
    ensures Threatens(o, phase, valid, Committed(o, rows, succeeded)) <==> !succeeded && (phase == Ready || phase.Created?)
  {
    assert o.payload.name in Target(o) && o.payload.name !in WeightsOf(rows);
    if phase == Ready || phase.Created? {
      assert StillRoutes(o, phase, valid) == {Target(o)};
      assert Target(o) in StillRoutes(o, phase, valid);
    }
  }

  lemma LateRemoval(quota: Quota, row: Session, rows: Instances, o: Operation, phase: Phase, valid: bool, succeeded: bool)
    requires OpOk(quota, row, rows, o) && o.action == RemoveInstance
    ensures Threatens(o, phase, valid, Committed(o, rows, succeeded)) <==>
      phase == Ready || (succeeded && (phase.Routed? || phase == Restore))
  {
    assert o.payload.name !in Target(o) && o.payload.name in WeightsOf(rows);
    assert Previous(o) == WeightsOf(rows);
    var still := StillRoutes(o, phase, valid);
    assert phase == Ready ==> Target(o) in still;
    assert phase == Ready || phase.Routed? || phase == Restore ==> Previous(o) in still;
  }

  lemma LateResize(quota: Quota, row: Session, rows: Instances, o: Operation, phase: Phase, valid: bool, succeeded: bool)
    requires OpOk(quota, row, rows, o) && o.action == SetPerformance
    ensures !Threatens(o, phase, valid, Committed(o, rows, succeeded))
  {
    assert Target(o) == WeightsOf(rows) == Previous(o);
  }

  lemma LateReweighing(rows: Instances, o: Operation, phase: Phase, valid: bool, succeeded: bool)
    requires o.action == SetWeights || o.action == ApplyAdaptive
    ensures Threatens(o, phase, valid, Committed(o, rows, succeeded)) <==>
      !succeeded && phase == Ready && (o.action == ApplyAdaptive ==> valid) && Target(o) != WeightsOf(rows)
  {
    if phase == Ready && (o.action == ApplyAdaptive ==> valid) {
      assert Target(o) in StillRoutes(o, phase, valid);
    }
  }

  /** What a worker of the same operation may still do to the gateway once another has committed it: a late
      route of the target matters exactly if that worker failed, a late restore exactly if it succeeded, a resize never. */
  predicate ComesLate(o: Operation, rows: Instances, phase: Phase, valid: bool, succeeded: bool) {
    match o.action
    case AddInstance => !succeeded && (phase == Ready || phase.Created?)
    case RemoveInstance => phase == Ready || (succeeded && (phase.Routed? || phase == Restore))
    case SetWeights => !succeeded && phase == Ready && Target(o) != WeightsOf(rows)
    case ApplyAdaptive => !succeeded && phase == Ready && valid && Target(o) != WeightsOf(rows)
    case _ => false
  }

  lemma LateThreatByAction(c: Config, row: Session, rows: Instances, o: Operation, phase: Phase, valid: bool, succeeded: bool)
    requires OpOk(c.quota, row, rows, o) && o.action.Topology()
    ensures Threatens(o, phase, valid, Committed(o, rows, succeeded)) <==> ComesLate(o, rows, phase, valid, succeeded)
  {
    match o.action
    case AddInstance => LateAddition(c.quota, row, rows, o, phase, valid, succeeded);
    case RemoveInstance => LateRemoval(c.quota, row, rows, o, phase, valid, succeeded);
    case SetPerformance => LateResize(c.quota, row, rows, o, phase, valid, succeeded);
    case SetMode =>
    case _ => LateReweighing(rows, o, phase, valid, succeeded);
  }

  // ----- After a commit ---------------------------------------------------------------------------------

  /** The saga ended with success. */
  predicate Worked(phase: Phase) {
    phase.Routed? || phase == Removed
  }

  /** The committing worker's answers fit what it commits. */
  lemma EndsAsPlanned(c: Config, row: Session, rows: Instances, o: Operation, phase: Phase)
    requires OpOk(c.quota, row, rows, o) && o.action.Topology()
    requires Remembers(c, o, phase) && FinalReport(o, phase).Some?
    ensures SagaOk(c, o, phase, rows, Committed(o, rows, Worked(phase)))
  {
  }

  /** What the committing worker leaves in the rows. */
  lemma CommitLeavesWeights(c: Config, s: State, id: OpId, owner: Owner, phase: Phase, now: Time)
    requires Held(c, s, id, owner) && s.ops[id].action.Topology()
    requires Remembers(c, s.ops[id], phase) && FinalReport(s.ops[id], phase).Some?
    ensures WeightsAfter(s, id, owner, FinalReport(s.ops[id], phase).value, now)
         == Committed(s.ops[id], Rows(s, s.ops[id].lab), Worked(phase))
  {
    var o, rows := s.ops[id], Rows(s, s.ops[id].lab);
    EndsAsPlanned(c, s.sessions[o.lab], rows, o, phase);
    PlannedAgrees(c, s, id, owner, phase, Committed(o, rows, Worked(phase)), now);
  }

  /** Once its operation is committed, a serving lab is idle. */
  lemma CommitLeavesIdle(c: Config, s: State, id: OpId, owner: Owner, phase: Phase, now: Time)
    requires Held(c, s, id, owner) && s.ops[id].action.Topology() && OneInFlight(s)
    requires Remembers(c, s.ops[id], phase) && FinalReport(s.ops[id], phase).Some?
    ensures Idle(Complete(s, id, owner, FinalReport(s.ops[id], phase).value, now).0, s.ops[id].lab)
  {
    var o, report := s.ops[id], FinalReport(s.ops[id], phase).value;
    var t := Complete(s, id, owner, report, now).0;
    TopologyReports(o, phase);
    RememberedReportTrusted(c, s, Work(id, owner), phase, now);
    TopologyCompletionCommits(c, s, id, owner, report, now);
    CompletionFinishes(s, id, owner, report, now);
    StillServes(s, id, owner, report, now);
    OthersFinished(s, id, owner, report, now);
  }

  lemma OthersFinished(s: State, id: OpId, owner: Owner, report: Report, now: Time)
    requires OneInFlight(s) && id in s.ops && s.ops[id].status.InFlight() && Finished(Complete(s, id, owner, report, now).0, id)
    ensures !LabBusy(Complete(s, id, owner, report, now).0, s.ops[id].lab)
  {
    var t := Complete(s, id, owner, report, now).0;
    forall i | i in t.ops ensures !OpInFlight(t, i, s.ops[id].lab) {
      if i != id {
        CompletionFrame(s, id, owner, report, now, i);
        assert OpInFlight(s, id, s.ops[id].lab);
        assert OpInFlight(s, i, s.ops[id].lab) ==> i == id;
      }
    }
  }

  lemma SamePlan(o: Operation, p: Operation, phase: Phase, valid: bool, weights: Servers)
    requires p.action == o.action && p.payload == o.payload
    ensures Threatens(p, phase, valid, weights) == Threatens(o, phase, valid, weights)
  {
    assert StillRoutes(p, phase, valid) == StillRoutes(o, phase, valid);
  }

  /** What another worker on the lab may still do after the commit of `id`: by action and phase if it executes the
      same operation, by the lists it may still route if it executes an older one. */
  predicate LateOn(s: State, t: State, id: OpId, succeeded: bool, other: OpId, phase: Phase)
    requires id in s.ops && other in s.ops && other in t.ops
  {
    var o, rows := s.ops[id], Rows(s, s.ops[id].lab);
    if other == id then ComesLate(o, rows, phase, StillValid(t, id), succeeded)
    else Threatens(s.ops[other], phase, StillValid(t, other), Committed(o, rows, succeeded))
  }

  /** No other worker on the operation's lab is late. */
  ghost predicate NoneLate(y: System, t: State, work: Work, succeeded: bool)
    requires work.id in y.db.ops
  {
    forall w :: w in y.sagas && w != work && w.id in y.db.ops && w.id in t.ops && y.db.ops[w.id].lab == y.db.ops[work.id].lab ==>
      !LateOn(y.db, t, work.id, succeeded, w.id, y.sagas[w])
  }

  lemma LateIsThreat(c: Config, s: State, t: State, id: OpId, succeeded: bool, other: OpId, phase: Phase)
    requires id in s.ops && s.ops[id].lab in s.sessions && s.ops[id].action.Topology() && other in s.ops && SamePayloads(s, t)
    requires OpOk(c.quota, s.sessions[s.ops[id].lab], Rows(s, s.ops[id].lab), s.ops[id])
    ensures LateOn(s, t, id, succeeded, other, phase)
       <==> Threatens(t.ops[other], phase, StillValid(t, other), Committed(s.ops[id], Rows(s, s.ops[id].lab), succeeded))
  {
    var o, rows := s.ops[id], Rows(s, s.ops[id].lab);
    SamePlan(s.ops[other], t.ops[other], phase, StillValid(t, other), Committed(o, rows, succeeded));
    LateThreatByAction(c, s.sessions[o.lab], rows, o, phase, StillValid(t, other), succeeded);
  }

  lemma NoneLateIsUnthreatened(c: Config, y: System, t: State, work: Work, succeeded: bool)
    requires work.id in y.db.ops && y.db.ops[work.id].lab in y.db.sessions && y.db.ops[work.id].action.Topology()
    requires OpOk(c.quota, y.db.sessions[y.db.ops[work.id].lab], Rows(y.db, y.db.ops[work.id].lab), y.db.ops[work.id])
    requires AllRemember(c, y) && SamePayloads(y.db, t)
    requires WeightsOf(Rows(t, y.db.ops[work.id].lab)) == Committed(y.db.ops[work.id], Rows(y.db, y.db.ops[work.id].lab), succeeded)
    ensures NoneLate(y, t, work, succeeded) <==> Unthreatened(y.(db := t, sagas := y.sagas - {work}), y.db.ops[work.id].lab)
  {
    forall w | w in y.sagas {
      LateIsThreat(c, y.db, t, work.id, succeeded, w.id, y.sagas[w]);
    }
  }

  lemma AgreementAfter(c: Config, y: System, work: Work, z: System, succeeded: bool)
    requires AllRemember(c, y) && Held(c, y.db, work.id, work.owner) && y.db.ops[work.id].action.Topology()
    requires z == y.(db := z.db, sagas := y.sagas - {work}) && SamePayloads(y.db, z.db)
    requires WeightsOf(Rows(z.db, y.db.ops[work.id].lab)) == Committed(y.db.ops[work.id], Rows(y.db, y.db.ops[work.id].lab), succeeded)
    ensures var o := y.db.ops[work.id];
      (Served(z, o.lab) == WeightsOf(Rows(z.db, o.lab)) && Unthreatened(z, o.lab)) <==>
      (Served(y, o.lab) == Committed(o, Rows(y.db, o.lab), succeeded) && NoneLate(y, z.db, work, succeeded))
  {
    NoneLateIsUnthreatened(c, y, z.db, work, succeeded);
  }

  lemma HolderHeld(c: Config, s: State, id: OpId, owner: Owner)
    requires Inv(c, s) && HoldsLease(s, id, owner)
    ensures Held(c, s, id, owner)
  {
    OperationFits(c, s, id);
  }

  /** Once the lease holder has committed a topology operation, gateway and rows agree for as long as the lab stays
      idle if and only if they agree at the commit and no other worker on the lab is late. */
  lemma CommittedAgreesIff(c: Config, y: System, work: Work, now: Time)
    requires Sound(c, y) && work in y.sagas && HoldsLease(y.db, work.id, work.owner)
    requires y.db.ops[work.id].action.Topology() && FinalReport(y.db.ops[work.id], y.sagas[work]).Some?
    ensures var z, o, done := SystemNext(c, y, Commit(work, now)), y.db.ops[work.id], Worked(y.sagas[work]);
      && Idle(z.db, o.lab)
      && (AgreesWhileIdle(c, z, o.lab) <==>
          (Served(y, o.lab) == Committed(o, Rows(y.db, o.lab), done) && NoneLate(y, z.db, work, done)))
  {
    var phase := y.sagas[work];
    CommitStep(c, y, work, now);
    StepStaysSound(c, y, Commit(work, now));
    HolderHeld(c, y.db, work.id, work.owner);
    CommitLeavesIdle(c, y.db, work.id, work.owner, phase, now);
    CommitLeavesWeights(c, y.db, work.id, work.owner, phase, now);
    var report := FinalReport(y.db.ops[work.id], phase).value;
    CompletionPayloads(y.db, work.id, work.owner, report, now);
    AgreementAfter(c, y, work, SystemNext(c, y, Commit(work, now)), Worked(phase));
    LateAgreementIff(c, SystemNext(c, y, Commit(work, now)), y.db.ops[work.id].lab);
  }
}
