/** How every step of the control plane moves the container budget. */
module CapacitySteps {
  import opened Domain
  import opened Naming
  import opened Transactions
  import opened Coupling
  import opened Effects
  import opened CouplingProof
  import opened Admission
  import opened GatewayProof
  import opened Leases
  import opened Capacity

  // ----- Steps that hold what they held ---------------------------------------------

  /** Neither rows nor Redis nor what is in flight changes. */
  ghost predicate SameHoldings(s: State, t: State) {
    && t.instances == s.instances
    && (forall l :: (l in t.sessions <==> l in s.sessions)
                    && (l in s.sessions ==> t.sessions[l].redisRow == s.sessions[l].redisRow && t.sessions[l].scenario == s.sessions[l].scenario))
    && (forall i :: (i in t.ops <==> i in s.ops)
                    && (i in s.ops ==> t.ops[i].lab == s.ops[i].lab && t.ops[i].action == s.ops[i].action
                                       && t.ops[i].status.InFlight() == s.ops[i].status.InFlight()))
  }

  lemma SameBudget(s: State, t: State)
    requires SameHoldings(s, t)
    ensures Budget(t) == Budget(s) && Coming(t) == Coming(s)
  {
    assert InstancesInUse(t) == InstancesInUse(s) && RedisInUse(t) == RedisInUse(s);
    forall i ensures Growth(t, i) == Growth(s, i) {
      SameGrowth(s, t, i);
    }
    assert Coming(t) == Coming(s);
  }

  lemma SameGrowth(s: State, t: State, i: OpId)
    requires SameHoldings(s, t)
    ensures Growth(t, i) == Growth(s, i)
  {
    if i in s.ops {
      assert Rows(t, s.ops[i].lab) == Rows(s, s.ops[i].lab);
    }
  }

  lemma LeaseHoldings(s: State, id: OpId, owner: Owner, now: Time, lease: Time)
    ensures SameHoldings(s, Claim(s, id, owner, now, lease).0)
    ensures SameHoldings(s, MarkRunning(s, id, owner, lease).0)
  {
    var claimed, started := Claim(s, id, owner, now, lease), MarkRunning(s, id, owner, lease);
    if claimed.1 == Done {
      RelockHoldings(s, id, claimed.0.ops[id]);
    }
    if started.1 == Done {
      RelockHoldings(s, id, started.0.ops[id]);
    }
  }

  lemma RelockHoldings(s: State, id: OpId, o: Operation)
    requires id in s.ops && o.lab == s.ops[id].lab && o.action == s.ops[id].action
    requires o.status.InFlight() == s.ops[id].status.InFlight()
    ensures SameHoldings(s, s.(ops := s.ops[id := o]))
  {
  }

  lemma AdvanceHoldings(s: State, lab: LabId, now: Time, c: Lifetime)
    requires !Advance(s, lab, now, c).1.Accepted?
    ensures SameHoldings(s, Advance(s, lab, now, c).0)
  {
  }

  // ----- Requests ------------------------------------------------------------------------

  function RequestAction(e: Event): Action
    requires Enqueueing(e)
  {
    match e
    case CreateEvent(_, _, _, _, _, _) => CreateLab
    case ActionEvent(_, _, _, action, _, _) => action
    case SubmitEvent(_, _, input, _) => input.action
    case AdjustEvent(_, _, _, _, _, _) => ApplyAdaptive
    case AdvanceEvent(_, _) => DestroyLab
  }

  function RequestScenario(s: State, e: Event): Scenario
    requires Enqueueing(e)
  {
    if e.CreateEvent? && e.lookup.CourseOffers? then e.lookup.scenario
    else if e.lab in s.sessions then s.sessions[e.lab].scenario
    else Cluster
  }

  /** The containers a request may add, known before it is made. */
  function Demand(s: State, e: Event): nat
    requires Enqueueing(e)
  {
    var rows, redis := Rows(s, e.lab), RedisOf(s, e.lab);
    PeakAtLeastNow(rows, redis, RequestScenario(s, e), RequestAction(e));
    Peak(rows, redis, RequestScenario(s, e), RequestAction(e)) - Holding(rows, redis)
  }

  /** An accepted request adds one operation to an idle lab and keeps what the lab holds. */
  ghost predicate Requested(s: State, t: State, id: OpId, lab: LabId, action: Action, sc: Scenario) {
    && id !in s.ops && id in t.ops && t.ops == s.ops[id := t.ops[id]]
    && t.ops[id].lab == lab && t.ops[id].action == action && t.ops[id].status == Pending
    && !LabBusy(s, lab) && t.instances == s.instances
    && lab in t.sessions && t.sessions == s.sessions[lab := t.sessions[lab]]
    && t.sessions[lab].redisRow == RedisOf(s, lab) && t.sessions[lab].scenario == sc
  }

  lemma RequestMoves(s: State, t: State, id: OpId, lab: LabId, action: Action, sc: Scenario)
    requires Requested(s, t, id, lab, action, sc)
    ensures Budget(t) + LabHolds(s, lab) == Budget(s) + Peak(Rows(s, lab), RedisOf(s, lab), sc, action)
  {
    IdleMeans(s, lab);
    forall l ensures Rows(t, l) == Rows(s, l) {}
    assert OnlyLab(s, t, lab);
    assert OnlyOp(s, t, id, lab);
    BudgetMoves(s, t, id, lab);
  }

  lemma CreateRequests(c: Config, s: State, e: Event)
    requires OpsOk(c, s) && e.CreateEvent? && Next(c, s, e).1.Accepted?
    ensures e.lookup.CourseOffers? && Requested(s, Next(c, s, e).0, e.id, e.lab, CreateLab, e.lookup.scenario)
  {
    assert !LabBusy(s, e.lab);
  }

  lemma ActionRequests(c: Config, s: State, e: Event)
    requires e.ActionEvent? && Next(c, s, e).1.Accepted?
    ensures e.lab in s.sessions && Requested(s, Next(c, s, e).0, e.id, e.lab, e.action, s.sessions[e.lab].scenario)
  {
    SameSessionIfThere(s, e.lab);
  }

  lemma SameSessionIfThere(s: State, lab: LabId)
    ensures lab in s.sessions ==> s.sessions[lab := s.sessions[lab]] == s.sessions
  {
  }

  lemma SubmitRequests(c: Config, s: State, e: Event)
    requires e.SubmitEvent? && Next(c, s, e).1.Accepted?
    ensures e.lab in s.sessions && Requested(s, Next(c, s, e).0, e.input.op, e.lab, e.input.action, s.sessions[e.lab].scenario)
  {
    SameSessionIfThere(s, e.lab);
  }

  lemma AdjustRequests(c: Config, s: State, e: Event)
    requires e.AdjustEvent? && Next(c, s, e).1.Accepted?
    ensures e.lab in s.sessions && Requested(s, Next(c, s, e).0, e.id, e.lab, ApplyAdaptive, s.sessions[e.lab].scenario)
  {
    SameSessionIfThere(s, e.lab);
  }

  lemma AdvanceRequests(c: Config, s: State, e: Event)
    requires e.AdvanceEvent? && Next(c, s, e).1.Accepted?
    ensures e.lab in s.sessions && Requested(s, Next(c, s, e).0, SystemExpire(e.lab), e.lab, DestroyLab, s.sessions[e.lab].scenario)
  {
  }

  /** An accepted request raises the budget by exactly its demand. */
  lemma AcceptedMoves(c: Config, s: State, e: Event)
    requires OpsOk(c, s) && Enqueueing(e) && Next(c, s, e).1.Accepted?
    ensures Budget(Next(c, s, e).0) == Budget(s) + Demand(s, e)
  {
    match e {
      case CreateEvent(_, _, _, _, _, _) => CreateRequests(c, s, e);
      case ActionEvent(_, _, _, _, _, _) => ActionRequests(c, s, e);
      case SubmitEvent(_, _, _, _) => SubmitRequests(c, s, e);
      case AdjustEvent(_, _, _, _, _, _) => AdjustRequests(c, s, e);
      case AdvanceEvent(_, _) => AdvanceRequests(c, s, e);
    }
    RequestMoves(s, Next(c, s, e).0, EnqueueId(e), e.lab, RequestAction(e), RequestScenario(s, e));
  }

  /** A refused request changes nothing the budget depends on. */
  lemma RefusedMoves(c: Config, s: State, e: Event)
    requires Enqueueing(e) && !Next(c, s, e).1.Accepted?
    ensures SameHoldings(s, Next(c, s, e).0)
  {
    match e
    case CreateEvent(user, course, lookup, id, lab, now) => CreateRefused(s, c.quota, user, course, lookup, id, lab, now);
    case ActionEvent(user, lab, id, action, reason, now) => ActionRefused(s, user, lab, id, action, reason, now);
    case SubmitEvent(user, lab, input, now) => SubmitEnqueues(s, c.quota, user, lab, input, now);
    case AdjustEvent(user, lab, id, topology, ws, now) => AdjustEnqueues(s, user, lab, id, topology, ws, now);
    case AdvanceEvent(lab, now) => AdvanceHoldings(s, lab, now, c.lifetime);
  }

  lemma CreateRefused(s: State, q: Quota, user: UserId, course: nat, lookup: CourseLookup, id: OpId, lab: LabId, now: Time)
    requires !Create(s, q, user, course, lookup, id, lab, now).1.Accepted?
    ensures Create(s, q, user, course, lookup, id, lab, now).0 == s
  {
  }

  lemma ActionRefused(s: State, user: UserId, lab: LabId, id: OpId, action: Action, reason: Option<Reason>, now: Time)
    requires !EnqueueAction(s, user, lab, id, action, reason, now).1.Accepted?
    ensures EnqueueAction(s, user, lab, id, action, reason, now).0 == s
  {
  }

  // ----- Completions --------------------------------------------------------------------------

  /** Provisioning reports no more containers than the scenario reserves. */
  predicate Measured(s: State, e: Event) {
    e.CompleteEvent? && e.id in s.ops && s.ops[e.id].lab in s.sessions && e.report.ProvisionReport? && e.report.provision.Success? ==>
      var r := e.report.provision.value;
      |r.instances| + (if r.redis then 1 else 0) <= s.sessions[s.ops[e.id].lab].scenario.Containers()
  }

  function PeakOf(s: State, id: OpId): nat
    requires id in s.ops && s.ops[id].lab in s.sessions
  {
    var lab := s.ops[id].lab;
    Peak(Rows(s, lab), RedisOf(s, lab), s.sessions[lab].scenario, s.ops[id].action)
  }

  lemma LiveAtMost(rows: Instances)
    ensures |LiveRows(rows)| <= |rows|
  {
    assert LiveRows(rows) <= rows.Keys;
    SubsetSize(LiveRows(rows), rows.Keys);
  }

  lemma MarkedRows(rows: Instances, status: InstanceStatus)
    ensures |LiveRows(MarkRows(rows, status))| == if status == InstanceTerminated then 0 else |rows|
  {
    if status == InstanceTerminated {
      assert LiveRows(MarkRows(rows, status)) == {};
    } else {
      assert LiveRows(MarkRows(rows, status)) == rows.Keys;
    }
  }

  lemma ProvisionHolds(c: Config, s: State, id: OpId, owner: Owner, outcome: Outcome<ProvisionResult>, now: Time)
    requires id in s.ops && s.ops[id].lab in s.sessions && (s.ops[id].action == CreateLab || s.ops[id].action == ResetLab)
    requires outcome.Success? ==>
      && TrustedProvision(c.quota, outcome.value)
      && |outcome.value.instances| + (if outcome.value.redis then 1 else 0) <= s.sessions[s.ops[id].lab].scenario.Containers()
    ensures s.ops[id].action == CreateLab ==> LabHolds(CompleteProvision(s, id, owner, outcome, now).0, s.ops[id].lab) <= PeakOf(s, id)
    ensures s.ops[id].action == ResetLab ==> LabHolds(CompleteReset(s, id, owner, outcome, now).0, s.ops[id].lab) <= PeakOf(s, id)
  {
    var lab := s.ops[id].lab;
    if outcome.Success? && ProvisionComplete(lab, outcome.value) {
      RowsOfTrusted(c.quota, outcome.value.instances);
      LiveAtMost(RowsOf(outcome.value.instances));
    }
    MarkedRows(Rows(s, lab), InstanceUnknown);
  }

  lemma DestroyHolds(s: State, id: OpId, owner: Owner, ok: bool, now: Time)
    requires id in s.ops && s.ops[id].lab in s.sessions && s.ops[id].action == DestroyLab
    ensures LabHolds(CompleteDestroy(s, id, owner, ok, now).0, s.ops[id].lab) <= PeakOf(s, id)
  {
    MarkedRows(Rows(s, s.ops[id].lab), InstanceUnknown);
    MarkedRows(Rows(s, s.ops[id].lab), InstanceTerminated);
  }

  lemma CacheHolds(s: State, id: OpId, owner: Owner, outcome: Outcome<bool>, now: Time)
    requires id in s.ops && s.ops[id].lab in s.sessions && s.ops[id].action.Cache()
    ensures LabHolds(CompleteCache(s, id, owner, outcome, now).0, s.ops[id].lab) <= PeakOf(s, id)
  {
  }

  /** What a topology result does to the rows that count. */
  lemma AppliedLive(row: Session, rows: Instances, action: Action, r: TopologyResult)
    requires action.Topology() && ApplyTopology(row, rows, action, r).Applied?
    requires forall n :: n in rows ==> rows[n].status == InstanceRunning
    ensures |LiveRows(ApplyTopology(row, rows, action, r).rows)| <= |LiveRows(rows)| + if action == AddInstance then 1 else 0
  {
    match action
    case AddInstance => OneMoreLive(rows, r.instance.value.name, InstanceRow(r.instance.value).(status := InstanceRunning));
    case RemoveInstance => SubsetSize(LiveRows(rows - {r.removed.value}), LiveRows(rows));
    case SetPerformance =>
      var i := r.instance.value;
      ReplacedLive(rows, i.name, rows[i.name].(container := Some(i.container), status := InstanceRunning, cpu := i.cpu,
                                               performance := i.performance, speed := i.speed));
    case SetMode =>
    case _ =>
      if !r.skipped || action == SetWeights {
        ReweightedLive(rows, WeightMap(r.weights));
      }
  }

  lemma OneMoreLive(rows: Instances, name: Name, row: Instance)
    ensures |LiveRows(rows[name := row])| <= |LiveRows(rows)| + 1
    ensures name !in rows && row.status != InstanceTerminated ==> |LiveRows(rows[name := row])| == |LiveRows(rows)| + 1
  {
    SubsetSize(LiveRows(rows[name := row]), LiveRows(rows) + {name});
    if name !in rows && row.status != InstanceTerminated {
      assert LiveRows(rows[name := row]) == LiveRows(rows) + {name};
    }
  }

  lemma ReplacedLive(rows: Instances, name: Name, row: Instance)
    requires name in rows && rows[name].status == InstanceRunning && row.status == InstanceRunning
    ensures LiveRows(rows[name := row]) == LiveRows(rows)
  {
  }

  lemma ReweightedLive(rows: Instances, weights: Servers)
    ensures LiveRows(Reweighted(rows, weights)) == LiveRows(rows)
  {
  }

  lemma TopologyHolds(c: Config, s: State, id: OpId, owner: Owner, outcome: Outcome<TopologyResult>, now: Time)
    requires id in s.ops && s.ops[id].lab in s.sessions && s.ops[id].action.Topology()
    requires forall n :: n in Rows(s, s.ops[id].lab) ==> Rows(s, s.ops[id].lab)[n].status == InstanceRunning
    ensures LabHolds(CompleteTopology(s, id, owner, outcome, now).0, s.ops[id].lab) <= PeakOf(s, id)
  {
    var lab := s.ops[id].lab;
    if outcome.Success? && ApplyTopology(s.sessions[lab], Rows(s, lab), s.ops[id].action, outcome.value).Applied? {
      AppliedLive(s.sessions[lab], Rows(s, lab), s.ops[id].action, outcome.value);
    }
  }

  /** A committed completion leaves its lab with no more than the operation's peak. */
  lemma CompletionHolds(c: Config, s: State, id: OpId, owner: Owner, report: Report, now: Time)
    requires Inv(c, s) && id in s.ops && s.ops[id].status.InFlight()
    requires Trusted(c, s, CompleteEvent(id, owner, report, now)) && Measured(s, CompleteEvent(id, owner, report, now))
    ensures s.ops[id].lab in s.sessions && LabHolds(Complete(s, id, owner, report, now).0, s.ops[id].lab) <= PeakOf(s, id)
  {
    var o, lab := s.ops[id], s.ops[id].lab;
    assert LabOk(c, s, lab) && ActionFits(s.sessions[lab], o.action);
    PeakAtLeastNow(Rows(s, lab), RedisOf(s, lab), s.sessions[lab].scenario, o.action);
    match report
    case ProvisionReport(outcome) =>
      if o.action == CreateLab || o.action == ResetLab {
        ProvisionHolds(c, s, id, owner, CheckedProvision(o, outcome), now);
      }
    case DestroyReport(ok) =>
      if o.action == DestroyLab {
        DestroyHolds(s, id, owner, ok, now);
      }
    case TopologyReport(instance, stale) =>
      if o.action.Topology() {
        TopologyHolds(c, s, id, owner, TopologyOutcome(o, instance, stale), now);
      }
    case CacheReport(redis) =>
      if o.action.Cache() {
        CacheHolds(s, id, owner, redis, now);
      }
  }

  /** The tables after a committed completion differ in its lab and its operation alone. */
  lemma CompletionMoves(c: Config, s: State, id: OpId, owner: Owner, report: Report, now: Time)
    requires Inv(c, s) && Complete(s, id, owner, report, now).1 == Done
    ensures id in s.ops && s.ops[id].status.InFlight() && s.ops[id].lab in s.sessions
    ensures var t, lab := Complete(s, id, owner, report, now).0, s.ops[id].lab;
      && Growth(t, id) == 0
      && Budget(t) + PeakOf(s, id) == Budget(s) + LabHolds(t, lab)
      && |Coming(t)| + Growth(s, id) == |Coming(s)|
  {
    CompletionFinishes(s, id, owner, report, now);
    var t, lab := Complete(s, id, owner, report, now).0, s.ops[id].lab;
    OthersFly(s, id);
    CompleteFrame(s, id, owner, report, now);
    CompleteKeepsLabs(s, id, owner, report, now);
    CompletionIdentity(s, id, owner, report, now);
    OneLabOneOp(s, t, id, lab);
    ComingMoves(s, t, id, lab);
    BudgetMoves(s, t, id, lab);
  }

  lemma OneLabOneOp(s: State, t: State, id: OpId, lab: LabId)
    requires id in s.ops && s.ops[id].lab == lab && OnlyOwnLab(s, t, id) && t.sessions.Keys == s.sessions.Keys
    requires t.ops.Keys == s.ops.Keys && t.ops[id].lab == lab
    requires forall i :: i in s.ops && i != id && s.ops[i].status.InFlight() ==> s.ops[i].lab != lab
    ensures OnlyLab(s, t, lab) && OnlyOp(s, t, id, lab)
  {
    forall l | l != lab ensures l in t.sessions <==> l in s.sessions {
      assert l in t.sessions.Keys <==> l in s.sessions.Keys;
    }
    forall i ensures i in t.ops <==> i in s.ops {
      assert i in t.ops.Keys <==> i in s.ops.Keys;
    }
  }

  lemma CompletionIdentity(s: State, id: OpId, owner: Owner, report: Report, now: Time)
    requires id in s.ops
    ensures var t := Complete(s, id, owner, report, now).0; t.ops.Keys == s.ops.Keys && t.ops[id].lab == s.ops[id].lab
  {
  }

  /** A completion never raises the budget. */
  lemma CompletionBudget(c: Config, s: State, id: OpId, owner: Owner, report: Report, now: Time)
    requires Inv(c, s)
    requires Trusted(c, s, CompleteEvent(id, owner, report, now)) && Measured(s, CompleteEvent(id, owner, report, now))
    ensures Budget(Complete(s, id, owner, report, now).0) <= Budget(s)
  {
    CompletionFinishes(s, id, owner, report, now);
    if Complete(s, id, owner, report, now).1 == Done {
      CompletionMoves(c, s, id, owner, report, now);
      CompletionHolds(c, s, id, owner, report, now);
    }
  }

  /** Every step: an accepted request raises the budget by its demand, any other step does not raise it. */
  lemma StepBudget(c: Config, s: State, e: Event)
    requires Inv(c, s) && Trusted(c, s, e) && Measured(s, e)
    ensures var (t, reply) := Next(c, s, e);
      if Enqueueing(e) && reply.Accepted? then Budget(t) == Budget(s) + Demand(s, e) else Budget(t) <= Budget(s)
  {
    match e
    case CompleteEvent(id, owner, report, now) => CompletionBudget(c, s, id, owner, report, now);
    case ClaimEvent(id, owner, now, lease) =>
      LeaseHoldings(s, id, owner, now, lease);
      SameBudget(s, Next(c, s, e).0);
    case StartEvent(id, owner, lease) =>
      LeaseHoldings(s, id, owner, 0, lease);
      SameBudget(s, Next(c, s, e).0);
    case _ =>
      if Next(c, s, e).1.Accepted? {
        AcceptedMoves(c, s, e);
      } else {
        RefusedMoves(c, s, e);
        SameBudget(s, Next(c, s, e).0);
      }
  }
}
