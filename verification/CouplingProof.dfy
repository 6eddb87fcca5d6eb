/** Every step of the control plane keeps the coupling invariant. */
module CouplingProof {
  import opened Domain
  import opened Naming
  import opened Transactions
  import opened Coupling

  lemma SameSession(s: State, lab: LabId)
    requires lab in s.sessions
    ensures SetSession(s, lab, s.sessions[lab]) == s
  {
    assert s.sessions[lab := s.sessions[lab]] == s.sessions;
  }

  lemma UpRowsAll(rows: Instances)
    requires forall n :: n in rows ==> rows[n].status == InstanceRunning
    ensures UpRows(rows) == rows
  {
  }

  lemma CreateKeepsInv(c: Config, s: State, user: UserId, course: nat, lookup: CourseLookup, id: OpId, lab: LabId, now: Time)
    requires Inv(c, s)
    ensures Inv(c, Create(s, c.quota, user, course, lookup, id, lab, now).0)
  {
    var (t, reply) := Create(s, c.quota, user, course, lookup, id, lab, now);
    if reply.Accepted? {
      var row := Session(user, course, lookup.scenario, Preparing, Fixed, false, NoRedisRow, None, None, None, None, now);
      assert !LabBusy(s, lab);
      StartKeepsInv(c, s, id, lab, user, CreateLab, LabPayload(lookup.scenario), now, row);
    }
  }

  lemma ActionKeepsInv(c: Config, s: State, user: UserId, lab: LabId, id: OpId, action: Action, reason: Option<Reason>, now: Time)
    requires Inv(c, s)
    ensures Inv(c, EnqueueAction(s, user, lab, id, action, reason, now).0)
  {
    var (t, reply) := EnqueueAction(s, user, lab, id, action, reason, now);
    if reply.Accepted? {
      var row := s.sessions[lab];
      assert LabOk(c, s, lab);
      if action == ResetLab {
        SameSession(s, lab);
        StartKeepsInv(c, s, id, lab, user, ResetLab, LabPayload(row.scenario), now, row);
      } else {
        var why := if reason.Some? && reason.value != DestroyFailed then reason.value else UserRequested;
        TerminateKeepsInv(c, s, id, lab, user, why, now);
      }
    }
  }

  /** A built payload fits the rows it was built from. */
  lemma BuiltPayloadFits(c: Config, row: Session, rows: Instances, input: ActionInput, inUse: nat, o: Operation)
    requires ValidInput(input) && row.status.Up() && row.scenario == Cluster && !input.action.Cache()
    requires RowsOk(c.quota, row, rows)
    requires BuildTopology(rows, row.mode, input, c.quota, inUse) == Built(o.payload) && o.action == input.action
    ensures OpOk(c.quota, row, rows, o)
  {
    if input.action == AddInstance {
      assert |rows.Keys| == |rows|;
      NextNameFound(rows.Keys, c.quota.maxInstances);
      var k: nat :| 1 <= k <= c.quota.maxInstances && NextName(rows.Keys, 1, c.quota.maxInstances) == Some(InstanceName(k))
        && InstanceName(k) !in rows.Keys;
      assert |InstanceName(k)| > 0;
    }
  }

  lemma SubmitKeepsInv(c: Config, s: State, user: UserId, lab: LabId, input: ActionInput, now: Time)
    requires Inv(c, s)
    ensures Inv(c, SubmitAction(s, c.quota, user, lab, input, now).0)
  {
    var (t, reply) := SubmitAction(s, c.quota, user, lab, input, now);
    if reply.Accepted? {
      var row, rows := s.sessions[lab], Rows(s, lab);
      assert LabOk(c, s, lab);
      SameSession(s, lab);
      if input.action.Cache() {
        StartKeepsInv(c, s, input.op, lab, user, input.action, CachePayload(row.scenario, input), now, row);
      } else {
        UpRowsAll(rows);
        var built := BuildTopology(UpRows(rows), row.mode, input, c.quota, ContainersInUse(s));
        var o := Operation(s.nextRow, lab, user, input.action, built.payload, Pending, None, 0, 0, now);
        BuiltPayloadFits(c, row, rows, input, ContainersInUse(s), o);
        StartKeepsInv(c, s, input.op, lab, user, input.action, built.payload, now, row);
      }
    }
  }

  lemma AdjustKeepsInv(c: Config, s: State, user: UserId, lab: LabId, id: OpId, topology: Fingerprint, ws: seq<NameWeight>, now: Time)
    requires Inv(c, s)
    ensures Inv(c, EnqueueAdjustment(s, user, lab, id, topology, ws, now).0)
  {
    var (t, reply) := EnqueueAdjustment(s, user, lab, id, topology, ws, now);
    if reply.Accepted? {
      assert LabOk(c, s, lab);
      SameSession(s, lab);
      StartKeepsInv(c, s, id, lab, user, ApplyAdaptive, AdaptivePayload(topology, WeightMap(ws), ws), now, s.sessions[lab]);
    }
  }

  lemma AdvanceKeepsInv(c: Config, s: State, lab: LabId, now: Time)
    requires Inv(c, s)
    ensures Inv(c, Advance(s, lab, now, c.lifetime).0)
  {
    if lab in s.sessions && s.sessions[lab].startedAt.Some? && s.sessions[lab].lastActionAt.Some? {
      var row := s.sessions[lab];
      match Evaluate(now, row.status, row.startedAt.value, row.lastActionAt.value, c.lifetime)
      case Keep =>
      case Expire => ToggleKeepsInv(c, s, lab, row.(status := Expiring, updatedAt := now));
      case Resume => ToggleKeepsInv(c, s, lab, row.(status := Running, updatedAt := now));
      case Terminate(reason) => ExpiryKeepsInv(c, s, lab, now, reason);
    }
  }

  lemma ExpiryKeepsInv(c: Config, s: State, lab: LabId, now: Time, reason: Reason)
    requires Inv(c, s) && lab in s.sessions && s.sessions[lab].startedAt.Some? && s.sessions[lab].lastActionAt.Some?
    requires Evaluate(now, s.sessions[lab].status, s.sessions[lab].startedAt.value, s.sessions[lab].lastActionAt.value, c.lifetime)
          == Terminate(reason)
    ensures Inv(c, Advance(s, lab, now, c.lifetime).0)
  {
    ExpiryWrites(c, s, lab, now, reason);
    if !LabBusy(s, lab) && SystemExpire(lab) !in s.ops && s.sessions[lab].status.Up() {
      TerminateKeepsInv(c, s, SystemExpire(lab), lab, s.sessions[lab].user, reason, now);
    }
  }

  lemma ExpiryWrites(c: Config, s: State, lab: LabId, now: Time, reason: Reason)
    requires lab in s.sessions && s.sessions[lab].startedAt.Some? && s.sessions[lab].lastActionAt.Some?
    requires Evaluate(now, s.sessions[lab].status, s.sessions[lab].startedAt.value, s.sessions[lab].lastActionAt.value, c.lifetime)
          == Terminate(reason)
    ensures Advance(s, lab, now, c.lifetime).0 ==
            if !LabBusy(s, lab) && SystemExpire(lab) !in s.ops && s.sessions[lab].status.Up()
            then Enqueue(SetSession(s, lab, s.sessions[lab].(status := Terminating, reason := Some(reason), updatedAt := now)),
                         SystemExpire(lab), lab, s.sessions[lab].user, DestroyLab, DestroyPayload(reason), now)
            else s
  {
  }

  lemma TerminateKeepsInv(c: Config, s: State, id: OpId, lab: LabId, user: UserId, reason: Reason, now: Time)
    requires Inv(c, s) && id !in s.ops && !LabBusy(s, lab) && lab in s.sessions
    ensures Inv(c, Enqueue(SetSession(s, lab, s.sessions[lab].(status := Terminating, reason := Some(reason), updatedAt := now)),
                           id, lab, user, DestroyLab, DestroyPayload(reason), now))
  {
    StartKeepsInv(c, s, id, lab, user, DestroyLab, DestroyPayload(reason), now,
                  s.sessions[lab].(status := Terminating, reason := Some(reason), updatedAt := now));
  }

  lemma LeaseStepsKeepInv(c: Config, s: State, id: OpId, owner: Owner, now: Time, lease: Time)
    requires Inv(c, s)
    ensures Inv(c, Claim(s, id, owner, now, lease).0)
    ensures Inv(c, MarkRunning(s, id, owner, lease).0)
  {
    var claimed, started := Claim(s, id, owner, now, lease), MarkRunning(s, id, owner, lease);
    if claimed.1.Done? {
      LeaseKeepsInv(c, s, id, claimed.0.ops[id]);
    }
    if started.1.Done? {
      LeaseKeepsInv(c, s, id, started.0.ops[id]);
    }
  }

  lemma {:induction false} RowsOfTrusted(q: Quota, instances: seq<ProvisionedInstance>)
    requires forall i :: 0 <= i < |instances| ==> InstanceComplete(instances[i])
    requires forall i :: 0 <= i < |instances| ==> instances[i].status == None || instances[i].status == Some(InstanceRunning)
    ensures var rows := RowsOf(instances);
      && |rows| <= |instances|
      && forall n :: n in rows ==> rows[n].status == InstanceRunning && rows[n].container.Some? && n != ""
  {
    if instances != [] {
      RowsOfTrusted(q, instances[..|instances| - 1]);
    }
  }

  lemma ProvisionedRowsOk(q: Quota, lab: LabId, r: ProvisionResult, row: Session)
    requires ProvisionComplete(lab, r) && TrustedProvision(q, r)
    ensures RowsOk(q, row, RowsOf(r.instances))
  {
    RowsOfTrusted(q, r.instances);
    assert r.instances[0].name in RowsOf(r.instances);
  }

  lemma ProvisionKeepsInv(c: Config, s: State, id: OpId, owner: Owner, outcome: Outcome<ProvisionResult>, now: Time)
    requires Inv(c, s) && id in s.ops && (outcome.Success? ==> TrustedProvision(c.quota, outcome.value))
    ensures Inv(c, CompleteProvision(s, id, owner, outcome, now).0)
    ensures Inv(c, CompleteReset(s, id, owner, outcome, now).0)
  {
    var lab := s.ops[id].lab;
    var provisioned, reset := CompleteProvision(s, id, owner, outcome, now), CompleteReset(s, id, owner, outcome, now);
    if provisioned.1.Done? {
      var t := provisioned.0;
      if outcome.Success? {
        ProvisionedRowsOk(c.quota, lab, outcome.value, t.sessions[lab]);
        FinishKeepsInv(c, s, id, true, t.sessions[lab], RowsOf(outcome.value.instances));
      } else {
        FinishRowsKeptKeepsInv(c, s, id, false, t.sessions[lab]);
      }
    }
    if reset.1.Done? {
      var t := reset.0;
      if outcome.Success? {
        ProvisionedRowsOk(c.quota, lab, outcome.value, t.sessions[lab]);
        FinishKeepsInv(c, s, id, true, t.sessions[lab], RowsOf(outcome.value.instances));
      } else {
        FinishKeepsInv(c, s, id, false, t.sessions[lab], MarkRows(Rows(s, lab), InstanceUnknown));
      }
    }
  }

  /** The end of an operation that leaves the instance rows alone. */
  lemma FinishRowsKeptKeepsInv(c: Config, s: State, id: OpId, ok: bool, row: Session)
    requires Inv(c, s) && id in s.ops && s.ops[id].status.InFlight()
    requires SessionOk(row) && RowsOk(c.quota, row, Rows(s, s.ops[id].lab))
    requires row.status != Preparing && row.status != Terminating
    ensures Inv(c, SetSession(Finish(s, id, ok), s.ops[id].lab, row))
  {
    var lab := s.ops[id].lab;
    EndKeepsInv(c, s, SetSession(Finish(s, id, ok), lab, row), id, row, Rows(s, lab));
  }

  lemma DestroyKeepsInv(c: Config, s: State, id: OpId, owner: Owner, ok: bool, now: Time)
    requires Inv(c, s)
    ensures Inv(c, CompleteDestroy(s, id, owner, ok, now).0)
  {
    var (t, reply) := CompleteDestroy(s, id, owner, ok, now);
    if reply.Done? {
      var lab := s.ops[id].lab;
      FinishKeepsInv(c, s, id, ok, t.sessions[lab],
                     MarkRows(Rows(s, lab), if ok then InstanceTerminated else InstanceUnknown));
    }
  }

  /** A result that answers its own operation applies cleanly and leaves good rows. */
  lemma AppliedRowsOk(c: Config, row: Session, rows: Instances, o: Operation,
                      reported: Outcome<Option<ProvisionedInstance>>, stale: bool)
    requires OpOk(c.quota, row, rows, o) && RowsOk(c.quota, row, rows) && o.action.Topology()
    requires reported.Success? ==> TrustedInstance(o, reported.value)
    requires TopologyOutcome(o, reported, stale).Success?
    ensures var a := ApplyTopology(row, rows, o.action, TopologyOutcome(o, reported, stale).value);
      a.Applied? && RowsOk(c.quota, row, a.rows)
  {
    var r := TopologyOutcome(o, reported, stale).value;
    match o.action
    case AddInstance =>
    case RemoveInstance =>
      var left := rows - {o.payload.name};
      assert |rows.Keys| == |rows| && left.Keys == rows.Keys - {o.payload.name};
      assert |left.Keys| == |rows.Keys| - 1;
      assert left.Keys != {};
      assert |left| == |left.Keys|;
    case SetPerformance =>
      assert rows[o.payload.name := rows[o.payload.name]].Keys == rows.Keys;
      var after := ApplyTopology(row, rows, o.action, r).rows;
      assert after.Keys == rows.Keys;
      assert |after| == |after.Keys| && |rows| == |rows.Keys|;
    case SetWeights => WeightsCover(rows.Keys, o.payload.input.weights); ReweightedShape(rows, WeightMap(r.weights));
    case SetMode =>
    case ApplyAdaptive =>
      if !stale {
        WeightsCover(rows.Keys, o.payload.weights);
        ReweightedShape(rows, WeightMap(r.weights));
      }
    case _ => assert false;
  }

  lemma ReweightedShape(rows: Instances, weights: Servers)
    ensures Reweighted(rows, weights).Keys == rows.Keys && |Reweighted(rows, weights)| == |rows|
  {
    assert |rows| == |rows.Keys| && |Reweighted(rows, weights)| == |Reweighted(rows, weights).Keys|;
  }

  lemma {:induction false} WeightMapSize(ws: seq<NameWeight>)
    requires forall i, j :: 0 <= i < j < |ws| ==> ws[i].name != ws[j].name
    ensures |WeightMap(ws)| == |ws|
  {
    if ws != [] {
      var front := ws[..|ws| - 1];
      WeightMapSize(front);
      assert ws[|ws| - 1].name !in WeightMap(front);
    }
  }

  /** Valid weights name exactly the given instances. */
  lemma WeightsCover(names: set<Name>, ws: seq<NameWeight>)
    requires ValidWeights(names, ws)
    ensures WeightMap(ws).Keys == names
  {
    WeightMapSize(ws);
    var keys := WeightMap(ws).Keys;
    assert names <= keys && |keys| == |names|;
    assert |keys - names| == |keys| - |names| by {
      assert keys == names + (keys - names);
    }
    assert keys - names == {};
  }

  lemma TopologyKeepsInv(c: Config, s: State, id: OpId, owner: Owner, reported: Outcome<Option<ProvisionedInstance>>, stale: bool, now: Time)
    requires Inv(c, s) && id in s.ops && s.ops[id].action.Topology()
    requires reported.Success? ==> TrustedInstance(s.ops[id], reported.value)
    ensures Inv(c, CompleteTopology(s, id, owner, TopologyOutcome(s.ops[id], reported, stale), now).0)
  {
    var o := s.ops[id];
    var lab := o.lab;
    var outcome := TopologyOutcome(o, reported, stale);
    var (t, reply) := CompleteTopology(s, id, owner, outcome, now);
    if reply.Done? {
      assert LabOk(c, s, lab);
      var row, rows := s.sessions[lab], Rows(s, lab);
      if outcome.Failure? {
        SameSession(Finish(s, id, false), lab);
        FinishRowsKeptKeepsInv(c, s, id, false, row);
      } else {
        AppliedRowsOk(c, row, rows, o, reported, stale);
        var a := ApplyTopology(row, rows, o.action, outcome.value);
        if o.action == ApplyAdaptive {
          SameSession(SetRows(Finish(s, id, true), lab, a.rows), lab);
          FinishKeepsInv(c, s, id, true, row, a.rows);
        } else {
          FinishKeepsInv(c, s, id, true, row.(status := Running, mode := a.mode, lastActionAt := Some(now), updatedAt := now), a.rows);
        }
      }
    }
  }

  lemma CacheKeepsInv(c: Config, s: State, id: OpId, owner: Owner, outcome: Outcome<bool>, now: Time)
    requires Inv(c, s) && id in s.ops && s.ops[id].action.Cache()
    ensures Inv(c, CompleteCache(s, id, owner, outcome, now).0)
  {
    var lab := s.ops[id].lab;
    var (t, reply) := CompleteCache(s, id, owner, outcome, now);
    if reply.Done? {
      assert LabOk(c, s, lab);
      if outcome.Failure? {
        SameSession(Finish(s, id, false), lab);
        FinishRowsKeptKeepsInv(c, s, id, false, s.sessions[lab]);
      } else {
        FinishRowsKeptKeepsInv(c, s, id, true, t.sessions[lab]);
      }
    }
  }

  lemma CompleteKeepsInv(c: Config, s: State, id: OpId, owner: Owner, report: Report, now: Time)
    requires Inv(c, s) && Trusted(c, s, CompleteEvent(id, owner, report, now))
    ensures Inv(c, Complete(s, id, owner, report, now).0)
  {
    if id in s.ops {
      var o := s.ops[id];
      if (o.action == CreateLab || o.action == ResetLab) && report.ProvisionReport? {
        ProvisionKeepsInv(c, s, id, owner, CheckedProvision(o, report.provision), now);
      } else if o.action == DestroyLab && report.DestroyReport? {
        DestroyKeepsInv(c, s, id, owner, report.destroyed, now);
      } else if o.action.Topology() && report.TopologyReport? {
        TopologyKeepsInv(c, s, id, owner, report.instance, report.stale, now);
      } else if o.action.Cache() && report.CacheReport? {
        CacheKeepsInv(c, s, id, owner, report.redis, now);
      }
    }
  }

  lemma StepKeepsInv(c: Config, s: State, e: Event)
    requires Inv(c, s) && Trusted(c, s, e)
    ensures Inv(c, Next(c, s, e).0)
  {
    match e
    case CreateEvent(user, course, lookup, id, lab, now) => CreateKeepsInv(c, s, user, course, lookup, id, lab, now);
    case ActionEvent(user, lab, id, action, reason, now) => ActionKeepsInv(c, s, user, lab, id, action, reason, now);
    case SubmitEvent(user, lab, input, now) => SubmitKeepsInv(c, s, user, lab, input, now);
    case AdjustEvent(user, lab, id, topology, ws, now) => AdjustKeepsInv(c, s, user, lab, id, topology, ws, now);
    case AdvanceEvent(lab, now) => AdvanceKeepsInv(c, s, lab, now);
    case ClaimEvent(id, owner, now, lease) => LeaseStepsKeepInv(c, s, id, owner, now, lease);
    case StartEvent(id, owner, lease) => LeaseStepsKeepInv(c, s, id, owner, 0, lease);
    case CompleteEvent(id, owner, report, now) => CompleteKeepsInv(c, s, id, owner, report, now);
  }

  lemma TrustedPrefix(c: Config, run: seq<Event>)
    requires TrustedRun(c, run) && run != []
    ensures TrustedRun(c, run[..|run| - 1])
  {
    var front := run[..|run| - 1];
    forall k | 0 <= k < |front| ensures Trusted(c, After(c, front[..k]), front[k]) {
      assert front[..k] == run[..k] && front[k] == run[k];
    }
  }

  /** The coupling invariant holds in every reachable state. */
  lemma {:induction false} ReachableInv(c: Config, run: seq<Event>)
    requires TrustedRun(c, run)
    ensures Inv(c, After(c, run))
  {
    if run != [] {
      TrustedPrefix(c, run);
      ReachableInv(c, run[..|run| - 1]);
      assert Trusted(c, After(c, run[..|run| - 1]), run[|run| - 1]);
      StepKeepsInv(c, After(c, run[..|run| - 1]), run[|run| - 1]);
    }
  }

  lemma AfterSnoc(c: Config, run: seq<Event>, e: Event)
    ensures After(c, run + [e]) == Next(c, After(c, run), e).0
  {
    assert (run + [e])[..|run|] == run;
  }

  lemma {:induction false} FromConcat(c: Config, s: State, a: seq<Event>, b: seq<Event>)
    ensures From(c, s, a + b) == From(c, From(c, s, a), b)
    decreases |a|
  {
    if a == [] {
      assert a + b == b;
    } else {
      FromConcat(c, Next(c, s, a[0]).0, a[1..], b);
      assert (a + b)[0] == a[0] && (a + b)[1..] == a[1..] + b;
    }
  }

  lemma {:induction false} AfterIsFrom(c: Config, run: seq<Event>)
    ensures After(c, run) == From(c, EmptyState, run)
  {
    if run != [] {
      var front, last := run[..|run| - 1], run[|run| - 1];
      AfterIsFrom(c, front);
      FromConcat(c, EmptyState, front, [last]);
      assert run == front + [last] && [last][1..] == [];
    }
  }
}
