/** Which requests are accepted, and what a refusal says. */
module Requests {
  import opened Domain
  import opened Transactions
  import opened Coupling
  import opened Effects

  /** The requester's lab, serving or not, with nothing in flight. */
  predicate OwnIdle(s: State, user: UserId, lab: LabId) {
    lab in s.sessions && s.sessions[lab].user == user && !LabBusy(s, lab)
  }

  predicate RoomFor(q: Quota, s: State, sc: Scenario) {
    && q.Valid() && sc.InitialInstances() <= q.maxInstances
    && |ActiveLabs(s)| < q.maxActiveLabs && Reserved(s, ActiveLabs(s)) + sc.Containers() <= q.maxContainers
  }

  predicate RunsInstance(s: State, lab: LabId, target: Option<Name>) {
    target.Some? && target.value in Rows(s, lab) && Rows(s, lab)[target.value].status == InstanceRunning
  }

  function RunningRows(s: State, lab: LabId): set<Name> {
    set n | n in Rows(s, lab) && Rows(s, lab)[n].status == InstanceRunning
  }

  /** What a learner action needs of the lab beyond being idle and of the right kind. */
  predicate Possible(q: Quota, s: State, lab: LabId, input: ActionInput)
    requires lab in s.sessions
  {
    match input.action
    case AddInstance => |RunningRows(s, lab)| < q.maxInstances && ContainersInUse(s) < q.maxContainers
    case RemoveInstance => |RunningRows(s, lab)| > 1 && RunsInstance(s, lab, input.target)
    case SetPerformance => RunsInstance(s, lab, input.target)
    case SetWeights => s.sessions[lab].mode == Fixed && ValidWeights(RunningRows(s, lab), input.weights)
    case SetMode => true
    case _ => input.target.None? || RunsInstance(s, lab, input.target)
  }

  /** The conditions of acceptance, request by request. */
  predicate Admissible(c: Config, s: State, e: Event) {
    match e
    case CreateEvent(user, _, lookup, id, lab, _) =>
      && id !in s.ops && lab !in s.sessions && lookup.CourseOffers?
      && (forall l :: l in s.sessions && s.sessions[l].user == user ==> !s.sessions[l].status.Active())
      && RoomFor(c.quota, s, lookup.scenario)
    case ActionEvent(user, lab, id, action, _, _) =>
      && id !in s.ops && OwnIdle(s, user, lab)
      && ((action == ResetLab && s.sessions[lab].status.Up())
          || (action == DestroyLab && (s.sessions[lab].status.Live() || s.sessions[lab].status == Failed)))
    case SubmitEvent(user, lab, input, _) =>
      && input.op !in s.ops && OwnIdle(s, user, lab) && ValidInput(input) && Possible(c.quota, s, lab, input)
      && if input.action.Cache()
         then s.sessions[lab].scenario == MultiLevelCache && s.sessions[lab].status == Running
         else s.sessions[lab].scenario == Cluster && s.sessions[lab].status.Up()
    case AdjustEvent(user, lab, id, topology, ws, _) =>
      && id !in s.ops && user != 0 && ws != [] && OwnIdle(s, user, lab)
      && s.sessions[lab].scenario == Cluster && s.sessions[lab].mode == Adaptive && s.sessions[lab].status.Up()
      && topology == TopologyPrint(Rows(s, lab))
      && ValidWeights(Rows(s, lab).Keys, ws) && WeightMap(ws) != WeightsOf(Rows(s, lab))
    case AdvanceEvent(lab, now) =>
      && SystemExpire(lab) !in s.ops && lab in s.sessions && !LabBusy(s, lab) && s.sessions[lab].status.Up()
      && s.sessions[lab].startedAt.Some? && s.sessions[lab].lastActionAt.Some?
      && (now >= s.sessions[lab].startedAt.value + c.lifetime.maximum || now >= s.sessions[lab].lastActionAt.value + c.lifetime.idle)
    case _ => false
  }

  lemma UpRowNames(s: State, lab: LabId)
    ensures UpRows(Rows(s, lab)).Keys == RunningRows(s, lab) && |UpRows(Rows(s, lab))| == |RunningRows(s, lab)|
  {
    assert |UpRows(Rows(s, lab))| == |UpRows(Rows(s, lab)).Keys|;
  }

  lemma CreateAcceptedIff(c: Config, s: State, e: Event)
    requires e.CreateEvent?
    ensures Next(c, s, e).1.Accepted? <==> Admissible(c, s, e)
  {
    assert UserActive(s, e.user) <==> exists l :: l in s.sessions && s.sessions[l].user == e.user && s.sessions[l].status.Active();
  }

  lemma ActionAcceptedIff(c: Config, s: State, e: Event)
    requires e.ActionEvent?
    ensures Next(c, s, e).1.Accepted? <==> Admissible(c, s, e)
  {}

  lemma SubmitAcceptedIff(c: Config, s: State, e: Event)
    requires e.SubmitEvent?
    ensures Next(c, s, e).1.Accepted? <==> Admissible(c, s, e)
  {
    UpRowNames(s, e.lab);
  }

  lemma AdjustAcceptedIff(c: Config, s: State, e: Event)
    requires e.AdjustEvent?
    ensures Next(c, s, e).1.Accepted? <==> Admissible(c, s, e)
  {}

  lemma AdvanceAcceptedIff(c: Config, s: State, e: Event)
    requires e.AdvanceEvent?
    ensures Next(c, s, e).1.Accepted? <==> Admissible(c, s, e)
  {}

  /** A request is accepted if and only if all its conditions hold. */
  lemma AcceptedIff(c: Config, s: State, e: Event)
    requires Enqueueing(e)
    ensures Next(c, s, e).1.Accepted? <==> Admissible(c, s, e)
  {
    match e
    case CreateEvent(_, _, _, _, _, _) => CreateAcceptedIff(c, s, e);
    case ActionEvent(_, _, _, _, _, _) => ActionAcceptedIff(c, s, e);
    case SubmitEvent(_, _, _, _) => SubmitAcceptedIff(c, s, e);
    case AdjustEvent(_, _, _, _, _, _) => AdjustAcceptedIff(c, s, e);
    case AdvanceEvent(_, _) => AdvanceAcceptedIff(c, s, e);
  }

  // ----- What a refusal says -------------------------------------------------------------

  /** The fact a refusal stands for. Conflicts are about the request's id, or a lab id already taken. */
  predicate Says(c: Config, s: State, e: Event, error: Error)
    requires Enqueueing(e)
  {
    match error
    case OperationConflict => EnqueueId(e) in s.ops || (e.CreateEvent? && e.lab in s.sessions)
    case DuplicateKey => EnqueueId(e) in s.ops && (e.AdjustEvent? || e.AdvanceEvent?)
    case AlreadyActive => e.CreateEvent? && UserActive(s, e.user)
    case CourseNotFound => e.CreateEvent? && e.lookup == CourseMissing
    case LabUnavailable => e.CreateEvent? && e.lookup == CourseClosed
    case QuotaInvalid => !c.quota.Valid()
    case InstanceLimit => e.CreateEvent? && e.lookup.CourseOffers? && e.lookup.scenario.InitialInstances() > c.quota.maxInstances
    case CapacityExceeded =>
      if e.CreateEvent?
      then e.lookup.CourseOffers?
           && (|ActiveLabs(s)| + 1 > c.quota.maxActiveLabs
               || Reserved(s, ActiveLabs(s)) + e.lookup.scenario.Containers() > c.quota.maxContainers)
      else e.SubmitEvent? && e.input.action == AddInstance && ContainersInUse(s) >= c.quota.maxContainers
    case NotFound => !e.CreateEvent? && e.lab !in s.sessions
    case NotOwned => (e.ActionEvent? || e.SubmitEvent?) && e.lab in s.sessions && s.sessions[e.lab].user != e.user
    case NotRunning => e.lab in s.sessions && s.sessions[e.lab].status != Running
    case InvalidRequest =>
      (e.SubmitEvent? && !ValidInput(e.input)) || (e.ActionEvent? && e.action != ResetLab && e.action != DestroyLab)
    case Busy => LabBusy(s, e.lab)
    case StateConflict => e.AdvanceEvent? && e.lab in s.sessions && !s.sessions[e.lab].status.Up()
    case ActionNotAllowed =>
      e.SubmitEvent? && e.lab in s.sessions
      && (s.sessions[e.lab].scenario != (if e.input.action.Cache() then MultiLevelCache else Cluster)
          || (e.input.action == SetWeights && s.sessions[e.lab].mode == Adaptive))
    case MaxInstanceLimit => e.SubmitEvent? && e.input.action == AddInstance && |RunningRows(s, e.lab)| >= c.quota.maxInstances
    case MinInstanceLimit => e.SubmitEvent? && e.input.action == RemoveInstance && |RunningRows(s, e.lab)| <= 1
    case InstanceNotFound => e.SubmitEvent? && !RunsInstance(s, e.lab, e.input.target)
    case WeightInvalid => e.SubmitEvent? && e.input.action == SetWeights && !ValidWeights(RunningRows(s, e.lab), e.input.weights)
    case Stale =>
      e.AdjustEvent?
      && (e.user == 0 || e.weights == [] || e.lab !in s.sessions || s.sessions[e.lab].user != e.user
          || s.sessions[e.lab].scenario != Cluster || s.sessions[e.lab].mode != Adaptive || !s.sessions[e.lab].status.Up()
          || TopologyPrint(Rows(s, e.lab)) != e.topology || !ValidWeights(Rows(s, e.lab).Keys, e.weights))
    case NoChange => e.AdjustEvent? && WeightMap(e.weights) == WeightsOf(Rows(s, e.lab))
    case _ => false
  }

  lemma CreateSays(c: Config, s: State, e: Event)
    requires e.CreateEvent? && Next(c, s, e).1.Refused?
    ensures Says(c, s, e, Next(c, s, e).1.error)
  {}

  lemma ActionSays(c: Config, s: State, e: Event)
    requires e.ActionEvent? && Next(c, s, e).1.Refused?
    ensures Says(c, s, e, Next(c, s, e).1.error)
  {}

  lemma CacheSays(c: Config, s: State, e: Event)
    requires e.SubmitEvent? && ValidInput(e.input) && e.input.action.Cache()
    requires EnqueueCache(s, e.user, e.lab, e.input, e.now).1.Refused?
    ensures Says(c, s, e, EnqueueCache(s, e.user, e.lab, e.input, e.now).1.error)
  {}

  lemma BuildSays(c: Config, s: State, e: Event)
    requires e.SubmitEvent? && ValidInput(e.input) && !e.input.action.Cache() && e.lab in s.sessions
    requires BuildTopology(UpRows(Rows(s, e.lab)), s.sessions[e.lab].mode, e.input, c.quota, ContainersInUse(s)).NotBuilt?
    ensures Says(c, s, e, BuildTopology(UpRows(Rows(s, e.lab)), s.sessions[e.lab].mode, e.input, c.quota, ContainersInUse(s)).error)
  {
    UpRowNames(s, e.lab);
  }

  lemma TopologySays(c: Config, s: State, e: Event)
    requires e.SubmitEvent? && ValidInput(e.input) && !e.input.action.Cache()
    requires EnqueueTopology(s, c.quota, e.user, e.lab, e.input, e.now).1.Refused?
    ensures Says(c, s, e, EnqueueTopology(s, c.quota, e.user, e.lab, e.input, e.now).1.error)
  {
    if e.lab in s.sessions
       && BuildTopology(UpRows(Rows(s, e.lab)), s.sessions[e.lab].mode, e.input, c.quota, ContainersInUse(s)).NotBuilt? {
      BuildSays(c, s, e);
    }
  }

  lemma AdjustSays(c: Config, s: State, e: Event)
    requires e.AdjustEvent? && Next(c, s, e).1.Refused?
    ensures Says(c, s, e, Next(c, s, e).1.error)
  {}

  lemma AdvanceSays(c: Config, s: State, e: Event)
    requires e.AdvanceEvent? && Next(c, s, e).1.Refused?
    ensures Says(c, s, e, Next(c, s, e).1.error)
  {}

  /** Every refusal names a fact about the tables and the request. */
  lemma RefusalsSay(c: Config, s: State, e: Event)
    requires Enqueueing(e) && Next(c, s, e).1.Refused?
    ensures Says(c, s, e, Next(c, s, e).1.error)
  {
    match e
    case CreateEvent(_, _, _, _, _, _) => CreateSays(c, s, e);
    case ActionEvent(_, _, _, _, _, _) => ActionSays(c, s, e);
    case SubmitEvent(_, _, _, _) =>
      if ValidInput(e.input) {
        if e.input.action.Cache() {
          CacheSays(c, s, e);
        } else {
          TopologySays(c, s, e);
        }
      }
    case AdjustEvent(_, _, _, _, _, _) => AdjustSays(c, s, e);
    case AdvanceEvent(_, _) => AdvanceSays(c, s, e);
  }
}
