/** Admission limits hold over whole runs for the labs that hold resources. */
module Admission {
  import opened Domain
  import opened Naming
  import opened Transactions
  import opened Coupling
  import opened Effects
  import opened CouplingProof
  import opened Evolution

  function LiveLabs(s: State): set<LabId> {
    set lab | lab in s.sessions && s.sessions[lab].status.Live()
  }

  ghost predicate OneLivePerUser(s: State) {
    forall a, b :: a in LiveLabs(s) && b in LiveLabs(s) && s.sessions[a].user == s.sessions[b].user ==> a == b
  }

  ghost predicate WithinLimits(q: Quota, s: State) {
    && OneLivePerUser(s)
    && |LiveLabs(s)| <= q.maxActiveLabs
    && Reserved(s, LiveLabs(s)) <= q.maxContainers
  }

  lemma ReservedMonotone(s: State, t: State, small: set<LabId>, large: set<LabId>)
    requires small <= large
    requires forall lab :: lab in small ==> lab in s.sessions && lab in t.sessions && s.sessions[lab].scenario == t.sessions[lab].scenario
    ensures Reserved(t, small) <= Reserved(s, large)
  {
    SubsetSize(small, large);
    SubsetSize(CacheLabs(t, small), CacheLabs(s, large));
  }

  /** A step that only keeps or retires labs stays within the limits. */
  lemma RetiringKeepsLimits(q: Quota, s: State, t: State)
    requires WithinLimits(q, s) && Evolves(s, t) && t.sessions.Keys == s.sessions.Keys
    ensures WithinLimits(q, t)
  {
    assert LiveLabs(t) <= LiveLabs(s);
    SubsetSize(LiveLabs(t), LiveLabs(s));
    ReservedMonotone(s, t, LiveLabs(t), LiveLabs(s));
  }

  lemma ReservedPlus(s: State, t: State, labs: set<LabId>, lab: LabId, sc: Scenario)
    requires lab !in labs && forall l :: l in labs ==> l in s.sessions && l in t.sessions && t.sessions[l] == s.sessions[l]
    requires lab in t.sessions && t.sessions[lab].scenario == sc
    ensures Reserved(t, labs + {lab}) == Reserved(s, labs) + sc.Containers()
  {
    assert CacheLabs(t, labs + {lab}) == CacheLabs(s, labs) + if sc == MultiLevelCache then {lab} else {};
  }

  /** Creation counts every active lab, so the live ones stay within the limits with the new one. */
  lemma CreateKeepsLimits(q: Quota, s: State, user: UserId, course: nat, lookup: CourseLookup, id: OpId, lab: LabId, now: Time)
    requires WithinLimits(q, s)
    ensures WithinLimits(q, Create(s, q, user, course, lookup, id, lab, now).0)
  {
    var (t, reply) := Create(s, q, user, course, lookup, id, lab, now);
    if reply.Accepted? {
      assert forall l :: l in LiveLabs(s) ==> l in ActiveLabs(s) && s.sessions[l].user != user;
      LiveWithinActive(s);
      NewLabKeepsLimits(q, s, t, user, lab, lookup.scenario);
    }
  }

  lemma LiveWithinActive(s: State)
    ensures |LiveLabs(s)| <= |ActiveLabs(s)| && Reserved(s, LiveLabs(s)) <= Reserved(s, ActiveLabs(s))
  {
    assert LiveLabs(s) <= ActiveLabs(s);
    SubsetSize(LiveLabs(s), ActiveLabs(s));
    ReservedMonotone(s, s, LiveLabs(s), ActiveLabs(s));
  }

  lemma NewLabKeepsLimits(q: Quota, s: State, t: State, user: UserId, lab: LabId, sc: Scenario)
    requires WithinLimits(q, s) && lab !in s.sessions && lab in t.sessions && t.sessions == s.sessions[lab := t.sessions[lab]]
    requires t.sessions[lab].status == Preparing && t.sessions[lab].user == user && t.sessions[lab].scenario == sc
    requires forall l :: l in LiveLabs(s) ==> s.sessions[l].user != user
    requires |LiveLabs(s)| + 1 <= q.maxActiveLabs && Reserved(s, LiveLabs(s)) + sc.Containers() <= q.maxContainers
    ensures WithinLimits(q, t)
  {
    assert LiveLabs(t) == LiveLabs(s) + {lab};
    ReservedPlus(s, t, LiveLabs(s), lab, sc);
  }

  lemma OnlyCreateAddsLabs(c: Config, s: State, e: Event)
    requires !e.CreateEvent? && (e.CompleteEvent? && e.id in s.ops ==> s.ops[e.id].lab in s.sessions)
    ensures Next(c, s, e).0.sessions.Keys == s.sessions.Keys
  {
    if e.CompleteEvent? {
      if e.id in s.ops {
        CompleteKeepsLabs(s, e.id, e.owner, e.report, e.now);
      }
    } else if Enqueueing(e) {
      EnqueueEffect(c, s, e);
    }
  }

  lemma CompleteKeepsLabs(s: State, id: OpId, owner: Owner, report: Report, now: Time)
    requires id in s.ops && s.ops[id].lab in s.sessions
    ensures Complete(s, id, owner, report, now).0.sessions.Keys == s.sessions.Keys
  {
  }

  lemma StepKeepsLimits(c: Config, s: State, e: Event)
    requires Inv(c, s) && WithinLimits(c.quota, s)
    ensures WithinLimits(c.quota, Next(c, s, e).0)
  {
    if e.CreateEvent? {
      CreateKeepsLimits(c.quota, s, e.user, e.course, e.lookup, e.id, e.lab, e.now);
    } else {
      OnlyCreateAddsLabs(c, s, e);
      StepEvolves(c, s, e);
      RetiringKeepsLimits(c.quota, s, Next(c, s, e).0);
    }
  }

  /** In every run, live labs respect the per-user rule, the lab limit and the container limit. */
  lemma {:induction false} LimitsHold(c: Config, run: seq<Event>)
    requires TrustedRun(c, run) && c.quota.Valid()
    ensures WithinLimits(c.quota, After(c, run))
  {
    if run == [] {
      assert LiveLabs(EmptyState) == {} && CacheLabs(EmptyState, {}) == {};
    } else {
      var front := run[..|run| - 1];
      TrustedPrefix(c, run);
      LimitsHold(c, front);
      ReachableInv(c, front);
      StepKeepsLimits(c, After(c, front), run[|run| - 1]);
    }
  }

  // ----- The active set has no such bound -----------------------------------

  const OneLab := Config(Quota(1, 1, 1), Lifetime(10, 30, 1))

  function Overfull(): seq<Event> {
    [ CreateEvent(1, 1, CourseOffers(Cluster), Chosen("a"), "lab-a", 0),
      ClaimEvent(Chosen("a"), "w", 0, 9),
      StartEvent(Chosen("a"), "w", 9),
      CompleteEvent(Chosen("a"), "w", ProvisionReport(Failure), 1),
      CreateEvent(1, 1, CourseOffers(Cluster), Chosen("b"), "lab-b", 2),
      ActionEvent(1, "lab-a", Chosen("c"), DestroyLab, None, 3) ]
  }

  function Row(status: LabStatus, reason: Option<Reason>, updatedAt: Time): Session {
    Session(1, 1, Cluster, status, Fixed, false, NoRedisRow, None, None, None, reason, updatedAt)
  }

  function FirstOp(status: OpStatus, owner: Option<Owner>, lease: Time, attempts: nat): map<OpId, Operation> {
    map[Chosen("a") := Operation(0, "lab-a", 1, CreateLab, LabPayload(Cluster), status, owner, lease, attempts, 0)]
  }

  /** The tables after each of the first four events. */
  function Stage(k: nat): State {
    if k == 0 then EmptyState
    else
      var ops :=
        if k == 1 then FirstOp(Pending, None, 0, 0)
        else if k == 2 then FirstOp(Claimed, Some("w"), 9, 1)
        else if k == 3 then FirstOp(Executing, Some("w"), 9, 1)
        else FirstOp(Rejected, None, 0, 1);
      State(map["lab-a" := Row(if k <= 3 then Preparing else Failed, None, if k <= 3 then 0 else 1)], map[], ops, 1)
  }

  lemma FirstCreate()
    ensures Next(OneLab, Stage(0), Overfull()[0]).0 == Stage(1)
  {
    assert ActiveLabs(EmptyState) == {} && CacheLabs(EmptyState, {}) == {};
  }

  lemma FirstClaim()
    ensures Next(OneLab, Stage(1), Overfull()[1]).0 == Stage(2)
  {
    assert Claim(Stage(1), Chosen("a"), "w", 0, 9).0.ops == FirstOp(Claimed, Some("w"), 9, 1);
  }

  lemma FirstStart()
    ensures Next(OneLab, Stage(2), Overfull()[2]).0 == Stage(3)
  {
    assert MarkRunning(Stage(2), Chosen("a"), "w", 9).0.ops == FirstOp(Executing, Some("w"), 9, 1);
  }

  lemma FirstFailure()
    ensures Next(OneLab, Stage(3), Overfull()[3]).0 == Stage(4)
  {
    assert CompleteProvision(Stage(3), Chosen("a"), "w", Failure, 1).0.ops == FirstOp(Rejected, None, 0, 1);
    assert CompleteProvision(Stage(3), Chosen("a"), "w", Failure, 1).0.sessions == map["lab-a" := Row(Failed, None, 1)];
  }

  lemma {:induction false} OverfullStages(k: nat)
    requires k <= 4
    ensures After(OneLab, Overfull()[..k]) == Stage(k)
  {
    if k > 0 {
      var r := Overfull();
      OverfullStages(k - 1);
      assert r[..k] == r[..k - 1] + [r[k - 1]];
      AfterSnoc(OneLab, r[..k - 1], r[k - 1]);
      FirstCreate();
      FirstClaim();
      FirstStart();
      FirstFailure();
    }
  }

  lemma SecondCreate()
    ensures var s := Next(OneLab, Stage(4), Overfull()[4]).0;
      && s.sessions == map["lab-a" := Row(Failed, None, 1), "lab-b" := Row(Preparing, None, 2)]
      && Chosen("c") !in s.ops && !LabBusy(s, "lab-a")
  {
    assert ActiveLabs(Stage(4)) == {} && CacheLabs(Stage(4), {}) == {};
  }

  lemma OverfullSecondLabAdmitted()
    ensures var s := After(OneLab, Overfull()[..5]);
      && s.sessions == map["lab-a" := Row(Failed, None, 1), "lab-b" := Row(Preparing, None, 2)]
      && Chosen("c") !in s.ops && !LabBusy(s, "lab-a")
  {
    var r := Overfull();
    OverfullStages(4);
    assert r[..5] == r[..4] + [r[4]];
    AfterSnoc(OneLab, r[..4], r[4]);
    SecondCreate();
  }

  lemma OverfullTrusted()
    ensures TrustedRun(OneLab, Overfull())
  {
    var r := Overfull();
    forall k | 0 <= k < |r| ensures Trusted(OneLab, After(OneLab, r[..k]), r[k]) {
      assert r[k].CompleteEvent? ==> r[k].report == ProvisionReport(Failure);
    }
  }

  lemma FailedLabDestroyed(s: State)
    requires s.sessions == map["lab-a" := Row(Failed, None, 1), "lab-b" := Row(Preparing, None, 2)]
    requires Chosen("c") !in s.ops && !LabBusy(s, "lab-a")
    ensures Next(OneLab, s, Overfull()[5]).0.sessions
         == map["lab-a" := Row(Terminating, Some(UserRequested), 3), "lab-b" := Row(Preparing, None, 2)]
  {
  }

  lemma OverfullBothActive()
    ensures ActiveLabs(After(OneLab, Overfull())) == {"lab-a", "lab-b"}
  {
    var r := Overfull();
    OverfullSecondLabAdmitted();
    assert r == r[..5] + [r[5]];
    AfterSnoc(OneLab, r[..5], r[5]);
    FailedLabDestroyed(After(OneLab, r[..5]));
  }

  /** The limits are not limits on the active set: destroying a failed lab re-enters it unadmitted. */
  lemma ActiveSetCanExceedLimits()
    ensures TrustedRun(OneLab, Overfull())
    ensures |ActiveLabs(After(OneLab, Overfull()))| > OneLab.quota.maxActiveLabs
  {
    OverfullTrusted();
    OverfullBothActive();
    assert "lab-a"[4] != "lab-b"[4];
  }
}
