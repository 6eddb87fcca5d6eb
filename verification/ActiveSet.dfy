/**
 Exactly when the admission limits also hold for the whole active set, which
 labs on their way out belong to.
 */
module ActiveSet {
  import opened Domain
  import opened Naming
  import opened Transactions
  import opened Coupling
  import opened Effects
  import opened CouplingProof
  import opened Evolution
  import opened Admission
  import opened Leases
  import opened Lifecycles

  predicate ActiveWithin(q: Quota, s: State) {
    |ActiveLabs(s)| <= q.maxActiveLabs && Reserved(s, ActiveLabs(s)) <= q.maxContainers
  }

  ghost predicate OneActivePerUser(s: State) {
    forall a, b :: a in ActiveLabs(s) && b in ActiveLabs(s) && s.sessions[a].user == s.sessions[b].user ==> a == b
  }

  /** A request that will be accepted to destroy a lab that has failed, and so is not in the active set. */
  predicate Reenters(s: State, e: Event) {
    && e.ActionEvent? && e.action == DestroyLab && e.id !in s.ops
    && e.lab in s.sessions && s.sessions[e.lab].user == e.user && s.sessions[e.lab].status == Failed
  }

  /** Such a request when there is no room for the lab. */
  predicate Overfills(q: Quota, s: State, e: Event) {
    && Reenters(s, e)
    && (|ActiveLabs(s)| >= q.maxActiveLabs
        || Reserved(s, ActiveLabs(s)) + s.sessions[e.lab].scenario.Containers() > q.maxContainers)
  }

  /** Such a request of a user who has an active lab. */
  predicate Doubles(s: State, e: Event) {
    Reenters(s, e) && UserActive(s, e.user)
  }

  // ----- Who joins the active set ------------------------------------------------

  lemma FailedIsIdle(c: Config, s: State, lab: LabId)
    requires Inv(c, s) && lab in s.sessions && s.sessions[lab].status == Failed
    ensures !LabBusy(s, lab)
  {
    forall id | id in s.ops ensures !OpInFlight(s, id, lab) {}
  }

  lemma ReentryEffect(c: Config, s: State, e: Event)
    requires Inv(c, s) && Reenters(s, e)
    ensures var (t, reply) := Next(c, s, e);
      && reply.Accepted? && e.lab in t.sessions && t.sessions == s.sessions[e.lab := t.sessions[e.lab]]
      && t.sessions[e.lab].status == Terminating && t.sessions[e.lab].user == s.sessions[e.lab].user
      && t.sessions[e.lab].scenario == s.sessions[e.lab].scenario
  {
    FailedIsIdle(c, s, e.lab);
  }

  lemma ActionNoReentry(s: State, user: UserId, lab: LabId, id: OpId, action: Action, reason: Option<Reason>, now: Time, other: LabId)
    requires other in s.sessions && s.sessions[other].status == Failed
    requires !Reenters(s, ActionEvent(user, lab, id, action, reason, now)) || other != lab
    ensures var t := EnqueueAction(s, user, lab, id, action, reason, now).0;
      other in t.sessions && t.sessions[other].status == Failed
  {
  }

  lemma CompletionNoReentry(c: Config, s: State, id: OpId, owner: Owner, report: Report, now: Time, other: LabId)
    requires Inv(c, s) && other in s.sessions && s.sessions[other].status == Failed
    ensures var t := Complete(s, id, owner, report, now).0; other in t.sessions && t.sessions[other].status == Failed
  {
    FailedIsIdle(c, s, other);
    IdleUntouched(s, id, owner, report, now, other);
  }

  /** Completions concern labs with an operation in flight. */
  lemma IdleUntouched(s: State, id: OpId, owner: Owner, report: Report, now: Time, other: LabId)
    requires other in s.sessions && !LabBusy(s, other)
    ensures var t := Complete(s, id, owner, report, now).0; other in t.sessions && t.sessions[other] == s.sessions[other]
  {
    CompletionFinishes(s, id, owner, report, now);
    if id in s.ops {
      CompleteTouchesOwnLab(s, id, owner, report, now, other);
      assert HoldsLease(s, id, owner) ==> OpInFlight(s, id, s.ops[id].lab);
    }
  }

  lemma AdvanceNoReentry(s: State, lab: LabId, now: Time, c: Lifetime, other: LabId)
    requires other in s.sessions && s.sessions[other].status == Failed
    ensures var t := Advance(s, lab, now, c).0;
      other in t.sessions ==> t.sessions[other].status != Terminating
  {
  }

  /** Only the request to destroy it brings a failed lab back into the active set. */
  lemma FailedStaysOut(c: Config, s: State, e: Event, other: LabId)
    requires Inv(c, s) && other in s.sessions && s.sessions[other].status == Failed
    requires !(Reenters(s, e) && e.lab == other)
    ensures var t := Next(c, s, e).0; other in t.sessions && !t.sessions[other].status.Active()
  {
    StepFollowsLifecycle(c, s, e, other);
    match e
    case ActionEvent(user, lab, id, action, reason, now) => ActionNoReentry(s, user, lab, id, action, reason, now, other);
    case CompleteEvent(id, owner, report, now) => CompletionNoReentry(c, s, id, owner, report, now, other);
    case AdvanceEvent(lab, now) => AdvanceNoReentry(s, lab, now, c.lifetime, other);
    case CreateEvent(user, course, lookup, id, lab, now) =>
    case SubmitEvent(user, lab, input, now) => SubmitEnqueues(s, c.quota, user, lab, input, now);
    case AdjustEvent(user, lab, id, topology, ws, now) => AdjustEnqueues(s, user, lab, id, topology, ws, now);
    case _ =>
  }

  /** Any step but a creation or a re-entry can only shrink the active set. */
  lemma OtherStepsShrink(c: Config, s: State, e: Event)
    requires Inv(c, s) && !e.CreateEvent? && !Reenters(s, e)
    ensures var t := Next(c, s, e).0; ActiveLabs(t) <= ActiveLabs(s)
  {
    var t := Next(c, s, e).0;
    assert t.sessions.Keys == s.sessions.Keys by {
      OnlyCreateAddsLabs(c, s, e);
    }
    forall lab | lab in ActiveLabs(t) ensures lab in ActiveLabs(s) {
      StepFollowsLifecycle(c, s, e, lab);
      if s.sessions[lab].status == Failed {
        FailedStaysOut(c, s, e, lab);
      }
    }
  }

  // ----- The limits ---------------------------------------------------------------

  lemma SmallerWithin(q: Quota, s: State, t: State)
    requires ActiveWithin(q, s) && ActiveLabs(t) <= ActiveLabs(s) && Evolves(s, t)
    ensures ActiveWithin(q, t)
  {
    SubsetSize(ActiveLabs(t), ActiveLabs(s));
    ReservedMonotone(s, t, ActiveLabs(t), ActiveLabs(s));
  }

  /** One more active lab. */
  lemma LargerCounts(s: State, t: State, lab: LabId)
    requires lab !in ActiveLabs(s) && lab in t.sessions && t.sessions == s.sessions[lab := t.sessions[lab]]
    requires t.sessions[lab].status.Active()
    ensures ActiveLabs(t) == ActiveLabs(s) + {lab} && |ActiveLabs(t)| == |ActiveLabs(s)| + 1
    ensures Reserved(t, ActiveLabs(t)) == Reserved(s, ActiveLabs(s)) + t.sessions[lab].scenario.Containers()
  {
    assert ActiveLabs(t) == ActiveLabs(s) + {lab};
    ReservedPlus(s, t, ActiveLabs(s), lab, t.sessions[lab].scenario);
  }

  lemma CreateWithin(q: Quota, s: State, user: UserId, course: nat, lookup: CourseLookup, id: OpId, lab: LabId, now: Time)
    requires ActiveWithin(q, s)
    ensures ActiveWithin(q, Create(s, q, user, course, lookup, id, lab, now).0)
  {
    var (t, reply) := Create(s, q, user, course, lookup, id, lab, now);
    if reply.Accepted? {
      LargerCounts(s, t, lab);
    }
  }

  /** From within the limits a step keeps the active set within them if and only if it does not
      re-enter a failed lab that there is no room for. */
  lemma ActiveLimitsKeptIff(c: Config, s: State, e: Event)
    requires Inv(c, s) && ActiveWithin(c.quota, s)
    ensures ActiveWithin(c.quota, Next(c, s, e).0) <==> !Overfills(c.quota, s, e)
  {
    var t := Next(c, s, e).0;
    if e.CreateEvent? {
      CreateWithin(c.quota, s, e.user, e.course, e.lookup, e.id, e.lab, e.now);
    } else if Reenters(s, e) {
      ReentryEffect(c, s, e);
      LargerCounts(s, t, e.lab);
    } else {
      OtherStepsShrink(c, s, e);
      StepEvolves(c, s, e);
      SmallerWithin(c.quota, s, t);
    }
  }

  // ----- One active lab per user ----------------------------------------------------

  lemma SmallerOnePerUser(s: State, t: State)
    requires OneActivePerUser(s) && ActiveLabs(t) <= ActiveLabs(s) && Evolves(s, t)
    ensures OneActivePerUser(t)
  {
  }

  lemma LargerOnePerUser(s: State, t: State, lab: LabId)
    requires OneActivePerUser(s) && lab !in ActiveLabs(s) && lab in t.sessions && t.sessions == s.sessions[lab := t.sessions[lab]]
    requires t.sessions[lab].status.Active()
    ensures OneActivePerUser(t) <==> !UserActive(s, t.sessions[lab].user)
  {
    LargerCounts(s, t, lab);
    if UserActive(s, t.sessions[lab].user) {
      var other :| other in ActiveLabs(s) && s.sessions[other].user == t.sessions[lab].user;
      assert other in ActiveLabs(t) && lab in ActiveLabs(t) && other != lab;
    }
  }

  /** From one active lab per user a step keeps that if and only if it does not re-enter a failed
      lab of a user who has another active one. */
  lemma OneActivePerUserKeptIff(c: Config, s: State, e: Event)
    requires Inv(c, s) && OneActivePerUser(s)
    ensures OneActivePerUser(Next(c, s, e).0) <==> !Doubles(s, e)
  {
    var (t, reply) := Next(c, s, e);
    if e.CreateEvent? {
      if reply.Accepted? {
        CreatesOne(s, c.quota, e.user, e.course, e.lookup, e.id, e.lab, e.now);
        LargerOnePerUser(s, t, e.lab);
      } else {
        EnqueueEffect(c, s, e);
      }
    } else if Reenters(s, e) {
      ReentryEffect(c, s, e);
      LargerOnePerUser(s, t, e.lab);
    } else {
      OtherStepsShrink(c, s, e);
      StepEvolves(c, s, e);
      SmallerOnePerUser(s, t);
    }
  }

  lemma CreatesOne(s: State, q: Quota, user: UserId, course: nat, lookup: CourseLookup, id: OpId, lab: LabId, now: Time)
    requires Create(s, q, user, course, lookup, id, lab, now).1.Accepted?
    ensures var t := Create(s, q, user, course, lookup, id, lab, now).0;
      && lab !in s.sessions && lab in t.sessions && t.sessions == s.sessions[lab := t.sessions[lab]]
      && t.sessions[lab].status == Preparing && t.sessions[lab].user == user && !UserActive(s, user)
  {
  }

  // ----- Whole runs ---------------------------------------------------------------------

  ghost predicate ActiveLimits(q: Quota, s: State) {
    ActiveWithin(q, s) && OneActivePerUser(s)
  }

  predicate Unadmitted(q: Quota, s: State, e: Event) {
    Overfills(q, s, e) || Doubles(s, e)
  }

  lemma NothingActive(c: Config)
    requires c.quota.Valid()
    ensures ActiveLimits(c.quota, EmptyState)
  {
    assert ActiveLabs(EmptyState) == {} && CacheLabs(EmptyState, {}) == {};
  }

  /** The active set respects all three limits after every event of a run. */
  ghost predicate LimitsThroughout(c: Config, run: seq<Event>) {
    ActiveLimits(c.quota, After(c, run)) && (run != [] ==> LimitsThroughout(c, run[..|run| - 1]))
  }

  /** No event of a run re-enters a failed lab without room for it, or beside another active lab of its user. */
  predicate AllAdmitted(c: Config, run: seq<Event>) {
    run != [] ==>
      var front := run[..|run| - 1];
      AllAdmitted(c, front) && !Unadmitted(c.quota, After(c, front), run[|run| - 1])
  }

  /** In every run the active set respects all three limits throughout if and only if every event is admitted. */
  lemma {:induction false} ActiveLimitsHoldIff(c: Config, run: seq<Event>)
    requires TrustedRun(c, run) && c.quota.Valid()
    ensures LimitsThroughout(c, run) <==> AllAdmitted(c, run)
  {
    if run == [] {
      NothingActive(c);
    } else {
      var front := run[..|run| - 1];
      TrustedPrefix(c, run);
      ActiveLimitsHoldIff(c, front);
      ReachableInv(c, front);
      if ActiveLimits(c.quota, After(c, front)) {
        ActiveLimitsKeptIff(c, After(c, front), run[|run| - 1]);
        OneActivePerUserKeptIff(c, After(c, front), run[|run| - 1]);
      }
    }
  }
}
