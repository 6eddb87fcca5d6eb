/** Expiry: deadlines are enforced, and the scheduler's own operation id is used once per lab. */
module Lifecycles {
  import opened Domain
  import opened Transactions
  import opened Coupling
  import opened Effects
  import opened CouplingProof
  import opened Evolution
  import opened Guarantees
  import opened Leases

  /** An advance terminates a lab that serves and is idle exactly if it has lasted its maximum or been idle its
      limit, of which the one that ended first is recorded as the reason, and the scheduler's operation id is unused. */
  lemma OverdueLabTerminatesIffIdFree(c: Config, run: seq<Event>, lab: LabId, now: Time)
    requires TrustedRun(c, run) && lab in After(c, run).sessions && After(c, run).sessions[lab].status.Up()
    requires !LabBusy(After(c, run), lab)
    ensures var s := After(c, run); var (t, reply) := Advance(s, lab, now, c.lifetime);
      var row := s.sessions[lab];
      && lab in t.sessions && row.startedAt.Some? && row.lastActionAt.Some?
      && var longest, idlest := row.startedAt.value + c.lifetime.maximum, row.lastActionAt.value + c.lifetime.idle;
         var ends := (now >= longest || now >= idlest) && SystemExpire(lab) !in s.ops;
         && (t.sessions[lab].status == Terminating <==> ends)
         && (reply == Accepted(SystemExpire(lab)) <==> ends)
         && (ends ==> t.sessions[lab].reason == Some(if longest < idlest then MaximumDuration else IdleTimeout))
         && ((now >= longest || now >= idlest) && !ends ==> t == s)
  {
    ReachableInv(c, run);
    assert LabOk(c, After(c, run), lab);
    AdvanceDecides(c, After(c, run), lab, now);
  }

  lemma AdvanceDecides(c: Config, s: State, lab: LabId, now: Time)
    requires lab in s.sessions && s.sessions[lab].status.Up() && SessionOk(s.sessions[lab]) && !LabBusy(s, lab)
    ensures var (t, reply) := Advance(s, lab, now, c.lifetime);
      var row := s.sessions[lab];
      && lab in t.sessions
      && var longest, idlest := row.startedAt.value + c.lifetime.maximum, row.lastActionAt.value + c.lifetime.idle;
         var ends := (now >= longest || now >= idlest) && SystemExpire(lab) !in s.ops;
         && (t.sessions[lab].status == Terminating <==> ends)
         && (reply == Accepted(SystemExpire(lab)) <==> ends)
         && (ends ==> t.sessions[lab].reason == Some(if longest < idlest then MaximumDuration else IdleTimeout))
         && ((now >= longest || now >= idlest) && !ends ==> t == s)
  {
  }

  /** Callers leave the scheduler's ids alone. */
  predicate AvoidsReserved(e: Event) {
    match e
    case CreateEvent(_, _, _, id, _, _) => id.Chosen?
    case ActionEvent(_, _, id, _, _, _) => id.Chosen?
    case SubmitEvent(_, _, input, _) => input.op.Chosen?
    case AdjustEvent(_, _, id, _, _, _) => id.Chosen?
    case _ => true
  }

  predicate AllAvoidReserved(run: seq<Event>) {
    forall k :: 0 <= k < |run| ==> AvoidsReserved(run[k])
  }

  /** The scheduler's operation exists only for labs it has already retired. */
  ghost predicate ExpiryIdsFresh(s: State) {
    forall lab :: SystemExpire(lab) in s.ops ==> lab in s.sessions && !s.sessions[lab].status.Live()
  }

  lemma NewIds(c: Config, s: State, e: Event, lab: LabId)
    requires AvoidsReserved(e) && SystemExpire(lab) !in s.ops && SystemExpire(lab) in Next(c, s, e).0.ops
    ensures e.AdvanceEvent? && e.lab == lab && Next(c, s, e).1.Accepted?
  {
    if e.CompleteEvent? {
      CompleteAddsNoIds(s, e.id, e.owner, e.report, e.now);
    } else if Enqueueing(e) {
      EnqueueEffect(c, s, e);
    }
  }

  lemma CompleteAddsNoIds(s: State, id: OpId, owner: Owner, report: Report, now: Time)
    ensures Complete(s, id, owner, report, now).0.ops.Keys == s.ops.Keys
  {
  }

  lemma StepKeepsExpiryIdsFresh(c: Config, s: State, e: Event)
    requires Inv(c, s) && ExpiryIdsFresh(s) && AvoidsReserved(e)
    ensures ExpiryIdsFresh(Next(c, s, e).0)
  {
    var t := Next(c, s, e).0;
    StepEvolves(c, s, e);
    forall lab | SystemExpire(lab) in t.ops ensures lab in t.sessions && !t.sessions[lab].status.Live() {
      if SystemExpire(lab) !in s.ops {
        NewIds(c, s, e, lab);
      }
    }
  }

  lemma {:induction false} ExpiryIdsStayFresh(c: Config, run: seq<Event>)
    requires TrustedRun(c, run) && AllAvoidReserved(run)
    ensures ExpiryIdsFresh(After(c, run))
  {
    if run != [] {
      var front := run[..|run| - 1];
      TrustedPrefix(c, run);
      ExpiryIdsStayFresh(c, front);
      ReachableInv(c, front);
      StepKeepsExpiryIdsFresh(c, After(c, front), run[|run| - 1]);
    }
  }

  /** In runs whose callers avoid the reserved ids, an advance terminates a serving, idle lab
      exactly when its deadline has come, and no advance ever meets its own id already taken. */
  lemma OverdueLabsTerminate(c: Config, run: seq<Event>, lab: LabId, now: Time)
    requires TrustedRun(c, run) && AllAvoidReserved(run)
    ensures var s := After(c, run); var (t, reply) := Advance(s, lab, now, c.lifetime);
      && (lab in s.sessions && s.sessions[lab].status.Live() ==> SystemExpire(lab) !in s.ops)
      && (lab in s.sessions && s.sessions[lab].status.Up() && !LabBusy(s, lab) ==>
            && lab in t.sessions && s.sessions[lab].startedAt.Some? && s.sessions[lab].lastActionAt.Some?
            && (t.sessions[lab].status == Terminating <==>
                  now >= s.sessions[lab].startedAt.value + c.lifetime.maximum || now >= s.sessions[lab].lastActionAt.value + c.lifetime.idle))
  {
    var s := After(c, run);
    ExpiryIdsStayFresh(c, run);
    if lab in s.sessions && s.sessions[lab].status.Up() && !LabBusy(s, lab) {
      OverdueLabTerminatesIffIdFree(c, run, lab, now);
    }
  }

  /** How often the scheduler's operation of one lab is inserted in a run. */
  function ExpiryInserts(c: Config, run: seq<Event>, lab: LabId): nat {
    if run == [] then 0
    else
      var front, e := run[..|run| - 1], run[|run| - 1];
      ExpiryInserts(c, front, lab) + if Next(c, After(c, front), e).1 == Accepted(SystemExpire(lab)) then 1 else 0
  }

  lemma AcceptedIdIsNew(c: Config, s: State, e: Event, id: OpId)
    requires Next(c, s, e).1 == Accepted(id)
    ensures id !in s.ops && id in Next(c, s, e).0.ops
  {
    if e.CompleteEvent? {
      CompleteNeverAccepts(s, e.id, e.owner, e.report, e.now);
    } else if Enqueueing(e) {
      EnqueueEffect(c, s, e);
    }
  }

  lemma CompleteNeverAccepts(s: State, id: OpId, owner: Owner, report: Report, now: Time)
    ensures !Complete(s, id, owner, report, now).1.Accepted?
  {
  }

  /** Each lab's expiry operation is inserted at most once. */
  lemma {:induction false} ExpiryInsertedOnce(c: Config, run: seq<Event>, lab: LabId)
    requires TrustedRun(c, run)
    ensures ExpiryInserts(c, run, lab) <= if SystemExpire(lab) in After(c, run).ops then 1 else 0
  {
    if run != [] {
      var front, e := run[..|run| - 1], run[|run| - 1];
      var s := After(c, front);
      TrustedPrefix(c, run);
      ExpiryInsertedOnce(c, front, lab);
      ReachableInv(c, front);
      StepEvolves(c, s, e);
      if Next(c, s, e).1 == Accepted(SystemExpire(lab)) {
        AcceptedIdIsNew(c, s, e, SystemExpire(lab));
      }
    }
  }

  /** A caller who takes the reserved id while the lab serves keeps the scheduler from ever expiring it. */
  lemma ReservedIdBlocksExpiry(c: Config, run: seq<Event>, k: nat, lab: LabId, now: Time)
    requires TrustedRun(c, run) && k <= |run| && SystemExpire(lab) in After(c, run[..k]).ops
    ensures var s := After(c, run); var t := Advance(s, lab, now, c.lifetime).0;
      lab in s.sessions ==> lab in t.sessions && (t.sessions[lab].status == Terminating ==> s.sessions[lab].status == Terminating)
  {
    RunEvolves(c, run, k);
    if lab in After(c, run).sessions {
      TakenIdBlocksAdvance(After(c, run), lab, now, c.lifetime);
    }
  }

  lemma TakenIdBlocksAdvance(s: State, lab: LabId, now: Time, c: Lifetime)
    requires SystemExpire(lab) in s.ops && lab in s.sessions
    ensures var t := Advance(s, lab, now, c).0;
      lab in t.sessions && (t.sessions[lab].status == Terminating ==> s.sessions[lab].status == Terminating)
  {
  }

  /** Nothing stops a caller: any free id is accepted for the reset of an owned, serving, idle lab. */
  lemma ReservedIdIsAccepted(s: State, lab: LabId, now: Time)
    requires lab in s.sessions && s.sessions[lab].status.Up() && !LabBusy(s, lab) && SystemExpire(lab) !in s.ops
    ensures var (t, reply) := EnqueueAction(s, s.sessions[lab].user, lab, SystemExpire(lab), ResetLab, None, now);
      reply == Accepted(SystemExpire(lab)) && SystemExpire(lab) in t.ops && t.sessions[lab].status.Up()
  {
  }

  // ----- No flapping --------------------------------------------------------

  predicate InWindow(c: Config, s: State, lab: LabId, clock: Time) {
    lab in s.sessions && clock >= DeadlineOf(c, s.sessions[lab]) - c.lifetime.lead
  }

  /** An advance marks a running lab Expiring exactly inside its window, which ends at the deadline. */
  lemma ExpiringIffInWindow(c: Config, s: State, lab: LabId, now: Time)
    requires lab in s.sessions && s.sessions[lab].status == Running && SessionOk(s.sessions[lab])
    ensures var t, row := Advance(s, lab, now, c.lifetime).0, s.sessions[lab];
      var longest, idlest := row.startedAt.value + c.lifetime.maximum, row.lastActionAt.value + c.lifetime.idle;
      && lab in t.sessions
      && (t.sessions[lab].status == Expiring <==>
            now < longest && now < idlest && (now >= longest - c.lifetime.lead || now >= idlest - c.lifetime.lead))
      && (t.sessions[lab].status == Expiring ==> InWindow(c, t, lab, now))
  {
  }

  /** The event commits a success that counts as an effective action on the lab: any but an adaptive adjustment. */
  predicate Refreshes(c: Config, s: State, e: Event, lab: LabId) {
    && e.CompleteEvent? && e.id in s.ops && s.ops[e.id].lab == lab && s.ops[e.id].action != ApplyAdaptive
    && Next(c, s, e).1 == Done && e.id in Next(c, s, e).0.ops && Next(c, s, e).0.ops[e.id].status == Succeeded
  }

  /** Time does not go back before `clock`, and no effective action of the lab succeeds. */
  predicate Quiet(c: Config, s: State, e: Event, lab: LabId, clock: Time) {
    (e.AdvanceEvent? && e.lab == lab ==> e.now >= clock) && !Refreshes(c, s, e, lab)
  }

  /** The fields the expiring window depends on, of a lab that is not Running. */
  predicate StaysOut(s: State, t: State, lab: LabId)
    requires lab in s.sessions
  {
    && lab in t.sessions && t.sessions[lab].status != Running
    && t.sessions[lab].startedAt == s.sessions[lab].startedAt && t.sessions[lab].lastActionAt == s.sessions[lab].lastActionAt
  }

  lemma RequestStaysOut(c: Config, s: State, e: Event, lab: LabId)
    requires lab in s.sessions && s.sessions[lab].status != Running && (e.CreateEvent? || e.ActionEvent?)
    ensures StaysOut(s, Next(c, s, e).0, lab)
  {
  }

  lemma AdvanceStaysOut(c: Config, s: State, lab: LabId, now: Time, other: LabId)
    requires lab in s.sessions && s.sessions[lab].status != Running
    requires s.sessions[lab].startedAt.Some? && s.sessions[lab].lastActionAt.Some? && (other == lab ==> InWindow(c, s, lab, now))
    ensures StaysOut(s, Advance(s, other, now, c.lifetime).0, lab)
  {
  }

  lemma QuietStep(c: Config, s: State, e: Event, lab: LabId, clock: Time)
    requires InWindow(c, s, lab, clock) && s.sessions[lab].status != Running && s.sessions[lab].startedAt.Some?
    requires s.sessions[lab].lastActionAt.Some? && Quiet(c, s, e, lab, clock)
    ensures StaysOut(s, Next(c, s, e).0, lab)
  {
    match e
    case CompleteEvent(id, owner, report, now) =>
      if id in s.ops {
        CompleteTouchesOwnLab(s, id, owner, report, now, lab);
        if s.ops[id].lab == lab {
          UnrefreshedStaysOut(s, id, owner, report, now);
        }
      }
    case CreateEvent(_, _, _, _, _, _) => RequestStaysOut(c, s, e, lab);
    case ActionEvent(_, _, _, _, _, _) => RequestStaysOut(c, s, e, lab);
    case AdvanceEvent(other, now) => AdvanceStaysOut(c, s, lab, now, other);
    case SubmitEvent(user, l, input, now) => SubmitEnqueues(s, c.quota, user, l, input, now);
    case AdjustEvent(user, l, id, topology, ws, now) => AdjustEnqueues(s, user, l, id, topology, ws, now);
    case _ =>
  }

  lemma CompleteTouchesOwnLab(s: State, id: OpId, owner: Owner, report: Report, now: Time, lab: LabId)
    requires id in s.ops && lab in s.sessions
    ensures var (t, reply) := Complete(s, id, owner, report, now);
      reply != Done || s.ops[id].lab != lab ==> lab in t.sessions && t.sessions[lab] == s.sessions[lab]
  {
  }

  /** Failed completions and adaptive adjustments leave the timestamps alone and start nothing up. */
  lemma UnrefreshedStaysOut(s: State, id: OpId, owner: Owner, report: Report, now: Time)
    requires id in s.ops && s.ops[id].lab in s.sessions && s.sessions[s.ops[id].lab].status != Running
    requires var (t, reply) := Complete(s, id, owner, report, now);
      s.ops[id].action != ApplyAdaptive && reply == Done ==> id in t.ops && t.ops[id].status != Succeeded
    ensures StaysOut(s, Complete(s, id, owner, report, now).0, s.ops[id].lab)
  {
  }

  /** An Expiring lab is Running again after a step exactly if an advance came before its window,
      or an effective action of it was committed. */
  lemma ExpiringRevertsIff(c: Config, s: State, e: Event, lab: LabId)
    requires Inv(c, s) && lab in s.sessions && s.sessions[lab].status == Expiring
    ensures var t := Next(c, s, e).0;
      lab in t.sessions &&
      (t.sessions[lab].status == Running <==>
         (e.AdvanceEvent? && e.lab == lab && e.now < DeadlineOf(c, s.sessions[lab])
          && e.now < DeadlineOf(c, s.sessions[lab]) - c.lifetime.lead)
         || Refreshes(c, s, e, lab))
  {
    assert LabOk(c, s, lab);
    match e
    case CompleteEvent(id, owner, report, now) =>
      if id in s.ops {
        CompleteTouchesOwnLab(s, id, owner, report, now, lab);
        if s.ops[id].lab == lab {
          RefreshRuns(c, s, id, owner, report, now);
        }
      }
    case CreateEvent(_, _, _, _, _, _) => RequestStaysOut(c, s, e, lab);
    case ActionEvent(_, _, _, _, _, _) => RequestStaysOut(c, s, e, lab);
    case AdvanceEvent(other, now) => AdvanceReverts(c, s, other, now, lab);
    case SubmitEvent(user, l, input, now) => SubmitEnqueues(s, c.quota, user, l, input, now);
    case AdjustEvent(user, l, id, topology, ws, now) => AdjustEnqueues(s, user, l, id, topology, ws, now);
    case _ =>
  }

  lemma AdvanceReverts(c: Config, s: State, other: LabId, now: Time, lab: LabId)
    requires lab in s.sessions && s.sessions[lab].status == Expiring && SessionOk(s.sessions[lab])
    ensures var t := Advance(s, other, now, c.lifetime).0;
      lab in t.sessions &&
      (t.sessions[lab].status == Running <==>
         other == lab && now < DeadlineOf(c, s.sessions[lab]) && now < DeadlineOf(c, s.sessions[lab]) - c.lifetime.lead)
  {
  }

  lemma RefreshRuns(c: Config, s: State, id: OpId, owner: Owner, report: Report, now: Time)
    requires id in s.ops && s.ops[id].lab in s.sessions && s.sessions[s.ops[id].lab].status == Expiring
    requires s.ops[id].status.InFlight() ==> ActionFits(s.sessions[s.ops[id].lab], s.ops[id].action)
    ensures var t := Complete(s, id, owner, report, now).0;
      s.ops[id].lab in t.sessions &&
      (t.sessions[s.ops[id].lab].status == Running <==> Refreshes(c, s, CompleteEvent(id, owner, report, now), s.ops[id].lab))
  {
  }

  /** The completion is committed as a success. */
  predicate EndsWell(s: State, id: OpId, owner: Owner, report: Report, now: Time) {
    var (t, reply) := Complete(s, id, owner, report, now);
    reply == Done && id in t.ops && t.ops[id].status == Succeeded
  }

  /** The report belongs to the operation and says that it worked. */
  predicate Accomplished(o: Operation, report: Report) {
    match report
    case ProvisionReport(outcome) => (o.action == CreateLab || o.action == ResetLab) && CheckedProvision(o, outcome).Success?
    case DestroyReport(ok) => o.action == DestroyLab && ok
    case TopologyReport(instance, stale) => o.action.Topology() && TopologyOutcome(o, instance, stale).Success?
    case CacheReport(redis) => o.action.Cache() && redis.Success? && (o.action == AddRedis ==> redis.value)
  }

  lemma LabSucceeds(s: State, id: OpId, owner: Owner, report: Report, now: Time)
    requires HoldsLease(s, id, owner) && s.ops[id].lab in s.sessions && ActionFits(s.sessions[s.ops[id].lab], s.ops[id].action)
    requires !s.ops[id].action.Topology() && !s.ops[id].action.Cache()
    ensures EndsWell(s, id, owner, report, now) <==> Accomplished(s.ops[id], report)
  {
  }

  lemma TopologySucceeds(s: State, id: OpId, owner: Owner, report: Report, now: Time)
    requires HoldsLease(s, id, owner) && s.ops[id].action.Topology()
    requires report.TopologyReport? ==> Complete(s, id, owner, report, now).1 == Done
    ensures EndsWell(s, id, owner, report, now) <==> Accomplished(s.ops[id], report)
  {
  }

  lemma CacheSucceeds(s: State, id: OpId, owner: Owner, report: Report, now: Time)
    requires HoldsLease(s, id, owner) && s.ops[id].action.Cache() && s.ops[id].lab in s.sessions
    ensures EndsWell(s, id, owner, report, now) <==> (Accomplished(s.ops[id], report) && s.sessions[s.ops[id].lab].status == Running)
  {
  }

  lemma HolderSucceeds(c: Config, s: State, id: OpId, owner: Owner, report: Report, now: Time)
    requires HoldsLease(s, id, owner) && s.ops[id].lab in s.sessions && Trusted(c, s, CompleteEvent(id, owner, report, now))
    requires OpOk(c.quota, s.sessions[s.ops[id].lab], Rows(s, s.ops[id].lab), s.ops[id])
    requires RowsOk(c.quota, s.sessions[s.ops[id].lab], Rows(s, s.ops[id].lab))
    ensures EndsWell(s, id, owner, report, now) <==>
            (Accomplished(s.ops[id], report) && (s.ops[id].action.Cache() ==> s.sessions[s.ops[id].lab].status == Running))
  {
    if s.ops[id].action.Topology() {
      if report.TopologyReport? {
        TopologyCompletionCommits(c, s, id, owner, report, now);
      }
      TopologySucceeds(s, id, owner, report, now);
    } else if s.ops[id].action.Cache() {
      CacheSucceeds(s, id, owner, report, now);
    } else {
      LabSucceeds(s, id, owner, report, now);
    }
  }

  /** A completion refreshes the lab exactly if the lease is held, its report says that the operation worked and,
      for a cache action, the lab is Running. */
  lemma RefreshesIff(c: Config, s: State, id: OpId, owner: Owner, report: Report, now: Time)
    requires Inv(c, s) && id in s.ops && Trusted(c, s, CompleteEvent(id, owner, report, now))
    ensures s.ops[id].lab in s.sessions
    ensures Refreshes(c, s, CompleteEvent(id, owner, report, now), s.ops[id].lab) <==>
            (s.ops[id].action != ApplyAdaptive && HoldsLease(s, id, owner) && Accomplished(s.ops[id], report)
             && (s.ops[id].action.Cache() ==> s.sessions[s.ops[id].lab].status == Running))
  {
    CompletionFinishes(s, id, owner, report, now);
    assert Refreshes(c, s, CompleteEvent(id, owner, report, now), s.ops[id].lab) <==>
           (s.ops[id].action != ApplyAdaptive && EndsWell(s, id, owner, report, now));
    if HoldsLease(s, id, owner) {
      OperationFits(c, s, id);
      HolderSucceeds(c, s, id, owner, report, now);
    }
  }

  ghost predicate QuietFrom(c: Config, run: seq<Event>, k: nat, lab: LabId, clock: Time) {
    forall j :: k <= j < |run| ==> Quiet(c, After(c, run[..j]), run[j], lab, clock)
  }

  /** With its timestamps fixed and time not going back, an Expiring lab never returns to Running. */
  lemma {:induction false} ExpiringNeverReverts(c: Config, run: seq<Event>, k: nat, lab: LabId, clock: Time)
    requires TrustedRun(c, run) && k <= |run|
    requires lab in After(c, run[..k]).sessions && After(c, run[..k]).sessions[lab].status == Expiring
    requires InWindow(c, After(c, run[..k]), lab, clock) && QuietFrom(c, run, k, lab, clock)
    ensures lab in After(c, run).sessions && After(c, run).sessions[lab].status != Running
    ensures After(c, run).sessions[lab].startedAt == After(c, run[..k]).sessions[lab].startedAt
    ensures After(c, run).sessions[lab].lastActionAt == After(c, run[..k]).sessions[lab].lastActionAt
    decreases |run|
  {
    if k == |run| {
      assert run[..k] == run;
    } else {
      var front, e := run[..|run| - 1], run[|run| - 1];
      TrustedPrefix(c, run);
      assert front[..k] == run[..k];
      forall j | k <= j < |front| ensures Quiet(c, After(c, front[..j]), front[j], lab, clock) {
        assert front[..j] == run[..j] && front[j] == run[j];
      }
      ExpiringNeverReverts(c, front, k, lab, clock);
      ReachableInv(c, front);
      StartTimesKnown(c, run, k, lab);
      assert Quiet(c, After(c, run[..|run| - 1]), run[|run| - 1], lab, clock);
      QuietStep(c, After(c, front), e, lab, clock);
    }
  }

  lemma StartTimesKnown(c: Config, run: seq<Event>, k: nat, lab: LabId)
    requires TrustedRun(c, run) && k <= |run|
    requires lab in After(c, run[..k]).sessions && After(c, run[..k]).sessions[lab].status.Up()
    ensures After(c, run[..k]).sessions[lab].startedAt.Some? && After(c, run[..k]).sessions[lab].lastActionAt.Some?
  {
    var front := run[..k];
    forall j | 0 <= j < |front| ensures Trusted(c, After(c, front[..j]), front[j]) {
      assert front[..j] == run[..j] && front[j] == run[j];
    }
    ReachableInv(c, front);
    assert LabOk(c, After(c, front), lab);
  }

  // ----- A cache operation caught by the window ------------------------------------

  /** A cache operation in flight on a lab that has become Expiring. */
  predicate Caught(s: State, id: OpId) {
    && id in s.ops && s.ops[id].status.InFlight() && s.ops[id].action.Cache()
    && s.ops[id].lab in s.sessions && s.sessions[s.ops[id].lab].status == Expiring
  }

  /** The operation is still caught, with the lab's timestamps unchanged. */
  predicate StillCaught(s: State, t: State, id: OpId)
    requires Caught(s, id)
  {
    Caught(t, id) && t.ops[id].lab == s.ops[id].lab && StaysOut(s, t, s.ops[id].lab)
  }

  /** The event is the operation's own failed completion, and is committed. */
  predicate FailsOp(c: Config, s: State, e: Event, id: OpId) {
    e.CompleteEvent? && e.id == id && e.report == CacheReport(Failure) && Next(c, s, e).1 == Done
  }

  lemma CaughtCompletion(s: State, id: OpId, owner: Owner, report: Report, now: Time)
    requires Caught(s, id)
    ensures var (t, reply) := Complete(s, id, owner, report, now);
      if report == CacheReport(Failure) && reply == Done then id in t.ops && t.ops[id].status == Rejected else t == s
  {
  }

  lemma OtherCompletion(c: Config, s: State, id: OpId, other: OpId, owner: Owner, report: Report, now: Time)
    requires OneInFlight(s) && Caught(s, id) && other != id
    ensures StillCaught(s, Complete(s, other, owner, report, now).0, id)
  {
    var lab := s.ops[id].lab;
    CompletionFrame(s, other, owner, report, now, id);
    if other in s.ops {
      CompletionFinishes(s, other, owner, report, now);
      CompleteTouchesOwnLab(s, other, owner, report, now, lab);
      assert OpInFlight(s, id, lab) && (HoldsLease(s, other, owner) && s.ops[other].lab == lab ==> OpInFlight(s, other, lab));
    }
  }

  lemma RequestCatches(c: Config, s: State, e: Event, id: OpId)
    requires Caught(s, id) && LabBusy(s, s.ops[id].lab) && (e.CreateEvent? || e.ActionEvent?)
    ensures Next(c, s, e).0.sessions[s.ops[id].lab := s.sessions[s.ops[id].lab]] == Next(c, s, e).0.sessions
  {
  }

  lemma AdvanceCatches(c: Config, s: State, lab: LabId, now: Time, id: OpId)
    requires Caught(s, id) && LabBusy(s, s.ops[id].lab) && SessionOk(s.sessions[s.ops[id].lab])
    requires lab == s.ops[id].lab ==> InWindow(c, s, lab, now)
    ensures var t := Advance(s, lab, now, c.lifetime).0;
      s.ops[id].lab in t.sessions && t.sessions[s.ops[id].lab] == s.sessions[s.ops[id].lab]
  {
  }

  /** While a cache operation is caught on an Expiring lab, inside the lab's window every event leaves it caught,
      except its own failed completion, which ends it. */
  lemma ExpiringCacheLabIsStuck(c: Config, s: State, e: Event, id: OpId)
    requires Inv(c, s) && Caught(s, id)
    requires e.AdvanceEvent? && e.lab == s.ops[id].lab ==> InWindow(c, s, e.lab, e.now)
    ensures var t := Next(c, s, e).0;
      if FailsOp(c, s, e, id) then id in t.ops && t.ops[id].status == Rejected else StillCaught(s, t, id)
  {
    var lab := s.ops[id].lab;
    assert LabOk(c, s, lab);
    assert OpInFlight(s, id, lab) && LabBusy(s, lab);
    match e
    case CompleteEvent(other, owner, report, now) =>
      if other == id {
        CaughtCompletion(s, id, owner, report, now);
      } else {
        OtherCompletion(c, s, id, other, owner, report, now);
      }
    case CreateEvent(_, _, _, _, _, _) =>
      EnqueueEffect(c, s, e);
      RequestCatches(c, s, e, id);
    case ActionEvent(_, _, _, _, _, _) =>
      EnqueueEffect(c, s, e);
      RequestCatches(c, s, e, id);
    case SubmitEvent(user, l, input, now) => SubmitEnqueues(s, c.quota, user, l, input, now);
    case AdjustEvent(user, l, i, topology, ws, now) => AdjustEnqueues(s, user, l, i, topology, ws, now);
    case AdvanceEvent(l, now) =>
      AdvanceEnqueues(s, l, now, c.lifetime);
      AdvanceCatches(c, s, l, now, id);
    case _ =>
  }

  predicate AdvancesInWindow(c: Config, s: State, e: Event, id: OpId) {
    e.AdvanceEvent? && id in s.ops && e.lab == s.ops[id].lab ==> InWindow(c, s, e.lab, e.now)
  }

  /** Over whole runs: until its own failed completion, a caught operation stays caught. */
  lemma {:induction false} CaughtUntilFailed(c: Config, run: seq<Event>, k: nat, id: OpId)
    requires TrustedRun(c, run) && k <= |run| && Caught(After(c, run[..k]), id)
    requires forall j :: k <= j < |run| ==>
      AdvancesInWindow(c, After(c, run[..j]), run[j], id) && !FailsOp(c, After(c, run[..j]), run[j], id)
    ensures Caught(After(c, run), id)
    decreases |run|
  {
    if k == |run| {
      assert run[..k] == run;
    } else {
      var front, e := run[..|run| - 1], run[|run| - 1];
      TrustedPrefix(c, run);
      assert front[..k] == run[..k];
      forall j | k <= j < |front|
        ensures AdvancesInWindow(c, After(c, front[..j]), front[j], id) && !FailsOp(c, After(c, front[..j]), front[j], id)
      {
        assert front[..j] == run[..j] && front[j] == run[j];
      }
      CaughtUntilFailed(c, front, k, id);
      ReachableInv(c, front);
      assert AdvancesInWindow(c, After(c, run[..|run| - 1]), run[|run| - 1], id);
      ExpiringCacheLabIsStuck(c, After(c, front), e, id);
    }
  }
}
