/** What the coupling invariant means for labs and for workers that complete operations. */
module Guarantees {
  import opened Domain
  import opened Transactions
  import opened Coupling
  import opened CouplingProof

  ghost predicate BusyWith(s: State, lab: LabId, action: Action) {
    exists id :: id in s.ops && OpInFlight(s, id, lab) && s.ops[id].action == action
  }

  lemma BusyWithOne(c: Config, s: State, lab: LabId) returns (id: OpId)
    requires Inv(c, s) && LabBusy(s, lab)
    ensures OpInFlight(s, id, lab) && lab in s.sessions && ActionFits(s.sessions[lab], s.ops[id].action)
    ensures forall action :: BusyWith(s, lab, action) <==> action == s.ops[id].action
  {
    id :| id in s.ops && OpInFlight(s, id, lab);
    forall action ensures BusyWith(s, lab, action) <==> action == s.ops[id].action {
      if BusyWith(s, lab, action) {
        var j :| j in s.ops && OpInFlight(s, j, lab) && s.ops[j].action == action;
        assert j == id;
      }
    }
  }

  /** In every reachable state a lab has at most one operation in flight, and its status says which kind. */
  lemma LabStatusSaysWhatRuns(c: Config, run: seq<Event>, lab: LabId)
    requires TrustedRun(c, run) && lab in After(c, run).sessions
    ensures var s := After(c, run); var status := s.sessions[lab].status;
      && (forall i, j :: OpInFlight(s, i, lab) && OpInFlight(s, j, lab) ==> i == j)
      && (status == Preparing <==> BusyWith(s, lab, CreateLab))
      && (status == Terminating <==> BusyWith(s, lab, DestroyLab))
      && (LabBusy(s, lab) && !BusyWith(s, lab, CreateLab) && !BusyWith(s, lab, DestroyLab) ==> status.Up())
      && (status == Failed || status == Terminated ==> !LabBusy(s, lab))
  {
    var s := After(c, run);
    ReachableInv(c, run);
    assert LabOk(c, s, lab);
    if LabBusy(s, lab) {
      var id := BusyWithOne(c, s, lab);
    }
  }

  /** A reachable lab that serves has instances, all of them running; a cluster lab stays within its limit. */
  lemma ServingLabHasInstances(c: Config, run: seq<Event>, lab: LabId)
    requires TrustedRun(c, run) && lab in After(c, run).sessions && After(c, run).sessions[lab].status.Up()
    ensures var s := After(c, run); var rows := Rows(s, lab);
      && 1 <= |rows|
      && (s.sessions[lab].scenario == Cluster ==> |rows| <= c.quota.maxInstances)
      && forall n :: n in rows ==> rows[n].status == InstanceRunning && rows[n].container.Some?
  {
    var s := After(c, run);
    ReachableInv(c, run);
    assert LabOk(c, s, lab);
    assert |Rows(s, lab)| == |Rows(s, lab).Keys|;
  }

  predicate ReportMatches(action: Action, report: Report) {
    match report
    case ProvisionReport(_) => action == CreateLab || action == ResetLab
    case DestroyReport(_) => action == DestroyLab
    case TopologyReport(_, _) => action.Topology()
    case CacheReport(_) => action.Cache()
  }

  lemma OperationFits(c: Config, s: State, id: OpId)
    requires Inv(c, s) && id in s.ops && s.ops[id].status.InFlight()
    ensures s.ops[id].lab in s.sessions && LabOk(c, s, s.ops[id].lab)
    ensures OpOk(c.quota, s.sessions[s.ops[id].lab], Rows(s, s.ops[id].lab), s.ops[id])
  {
  }

  lemma LabCompletionCommits(c: Config, s: State, id: OpId, owner: Owner, report: Report, now: Time)
    requires HoldsLease(s, id, owner) && ReportMatches(s.ops[id].action, report)
    requires s.ops[id].lab in s.sessions && ActionFits(s.sessions[s.ops[id].lab], s.ops[id].action)
    requires report.ProvisionReport? || report.DestroyReport?
    ensures Complete(s, id, owner, report, now).1 == Done
  {
  }

  lemma TopologyCompletionCommits(c: Config, s: State, id: OpId, owner: Owner, report: Report, now: Time)
    requires HoldsLease(s, id, owner) && s.ops[id].action.Topology() && report.TopologyReport?
    requires s.ops[id].lab in s.sessions
    requires OpOk(c.quota, s.sessions[s.ops[id].lab], Rows(s, s.ops[id].lab), s.ops[id])
    requires RowsOk(c.quota, s.sessions[s.ops[id].lab], Rows(s, s.ops[id].lab))
    requires Trusted(c, s, CompleteEvent(id, owner, report, now))
    ensures Complete(s, id, owner, report, now).1 == Done
  {
    var o := s.ops[id];
    if TopologyOutcome(o, report.instance, report.stale).Success? {
      AppliedRowsOk(c, s.sessions[o.lab], Rows(s, o.lab), o, report.instance, report.stale);
    }
  }

  /** The lease holder's create, reset, destroy and topology completions always commit. */
  lemma LeaseHolderCommits(c: Config, run: seq<Event>, id: OpId, owner: Owner, report: Report, now: Time)
    requires TrustedRun(c, run) && HoldsLease(After(c, run), id, owner)
    requires ReportMatches(After(c, run).ops[id].action, report) && !report.CacheReport?
    requires Trusted(c, After(c, run), CompleteEvent(id, owner, report, now))
    ensures Complete(After(c, run), id, owner, report, now).1 == Done
  {
    var s := After(c, run);
    ReachableInv(c, run);
    OperationFits(c, s, id);
    if report.TopologyReport? {
      TopologyCompletionCommits(c, s, id, owner, report, now);
    } else {
      LabCompletionCommits(c, s, id, owner, report, now);
    }
  }

  lemma CacheCompletion(s: State, id: OpId, owner: Owner, redis: bool, now: Time)
    requires HoldsLease(s, id, owner) && s.ops[id].action.Cache() && (s.ops[id].action == AddRedis ==> redis)
    requires s.ops[id].lab in s.sessions && s.sessions[s.ops[id].lab].status.Up()
    ensures var (t, reply) := Complete(s, id, owner, CacheReport(Success(redis)), now);
      && (reply == Done <==> s.sessions[s.ops[id].lab].status == Running)
      && (reply == Refused(StateConflict) <==> s.sessions[s.ops[id].lab].status == Expiring)
      && (reply != Done ==> t == s)
  {
  }

  /** A successful cache completion commits exactly when the lab has not become Expiring meanwhile. */
  lemma CacheSuccessCommitsIffRunning(c: Config, run: seq<Event>, id: OpId, owner: Owner, redis: bool, now: Time)
    requires TrustedRun(c, run) && HoldsLease(After(c, run), id, owner) && After(c, run).ops[id].action.Cache()
    requires After(c, run).ops[id].action == AddRedis ==> redis
    ensures var s := After(c, run);
      var (t, reply) := Complete(s, id, owner, CacheReport(Success(redis)), now);
      && s.ops[id].lab in s.sessions
      && (reply == Done <==> s.sessions[s.ops[id].lab].status == Running)
      && (reply == Refused(StateConflict) <==> s.sessions[s.ops[id].lab].status == Expiring)
      && (reply != Done ==> t == s)
  {
    var s := After(c, run);
    ReachableInv(c, run);
    OperationFits(c, s, id);
    CacheCompletion(s, id, owner, redis, now);
  }

  /** An adaptive operation in flight always still matches the persisted topology. */
  lemma AdaptiveStaysValid(c: Config, run: seq<Event>, id: OpId)
    requires TrustedRun(c, run) && id in After(c, run).ops
    requires After(c, run).ops[id].status.InFlight() && After(c, run).ops[id].action == ApplyAdaptive
    ensures var s := After(c, run);
      s.ops[id].payload.AdaptivePayload? && ValidateAdaptive(s, id, s.ops[id].payload.fingerprint)
  {
    ReachableInv(c, run);
    OperationFits(c, After(c, run), id);
  }

  function DeadlineOf(c: Config, row: Session): Time {
    if row.startedAt.Some? && row.lastActionAt.Some?
    then Deadline(row.startedAt.value, row.lastActionAt.value, c.lifetime)
    else 0
  }
}
