/**
 What the tables hold, told without the transactions: each lab has a log of what
 was accepted and committed for it, and its session row and its instance rows are
 at every moment what that log says.
 */
module Replay {
  import opened Domain
  import opened Transactions
  import opened Coupling
  import opened Effects
  import opened GatewayProof
  import opened Leases
  import opened Lifecycles
  import opened Admission
  import opened CapacitySteps

  // ----- A lab's log -------------------------------------------------------------

  /** Something accepted or committed for a lab. */
  datatype Entry =
    | Opened(user: UserId, course: nat, scenario: Scenario, now: Time)
    | Closing(reason: Reason, now: Time)
    | Turned(now: Time)
    | Worked(o: Operation, report: Report, now: Time)
    | Broke(o: Operation, now: Time)

  /** A scheduler's reason: the maximum duration only where it ends strictly before the idle time. */
  function ExpiryReason(c: Config, row: Session): Reason {
    if row.startedAt.Some? && row.lastActionAt.Some?
       && row.startedAt.value + c.lifetime.maximum < row.lastActionAt.value + c.lifetime.idle
    then MaximumDuration
    else IdleTimeout
  }

  /** What an event adds to the log of a lab: accepted requests, advances, committed completions. */
  function Adds(c: Config, s: State, e: Event, lab: LabId): Option<Entry> {
    var reply := Next(c, s, e).1;
    match e
    case CreateEvent(user, course, lookup, _, l, now) =>
      if l == lab && reply.Accepted? && lookup.CourseOffers? then Some(Opened(user, course, lookup.scenario, now)) else None
    case ActionEvent(_, l, _, action, reason, now) =>
      if l == lab && reply.Accepted? && action == DestroyLab
      then Some(Closing(if reason == Some(IdleTimeout) || reason == Some(MaximumDuration) then reason.value else UserRequested, now))
      else None
    case AdvanceEvent(l, now) =>
      if l != lab || lab !in s.sessions then None
      else if reply.Accepted? then Some(Closing(ExpiryReason(c, s.sessions[lab]), now))
      else if reply.Done? then Some(Turned(now))
      else None
    case CompleteEvent(id, _, report, now) =>
      if id !in s.ops || s.ops[id].lab != lab || !reply.Done? then None
      else if Accomplished(s.ops[id], report) then Some(Worked(s.ops[id], report, now))
      else Some(Broke(s.ops[id], now))
    case _ => None
  }

  function Log(c: Config, run: seq<Event>, lab: LabId): seq<Entry> {
    if run == [] then []
    else
      var front := run[..|run| - 1];
      var added := Adds(c, After(c, front), run[|run| - 1], lab);
      Log(c, front, lab) + if added.Some? then [added.value] else []
  }

  // ----- The session row, field by field --------------------------------------------

  function StatusAfter(was: LabStatus, x: Entry): LabStatus {
    match x
    case Opened(_, _, _, _) => Preparing
    case Closing(_, _) => Terminating
    case Turned(_) => if was == Running then Expiring else Running
    case Worked(o, _, _) =>
      if o.action == DestroyLab then Terminated
      else if o.action.Cache() || o.action == ApplyAdaptive then was
      else Running
    case Broke(o, _) => if o.action.Topology() || o.action.Cache() then was else Failed
  }

  /** The balancing mode is the one last asked for and set. */
  function ModeAfter(was: Mode, x: Entry): Mode {
    if x.Worked? && x.o.action == SetMode && x.o.payload.TopologyPayload? && x.o.payload.input.mode.Some?
    then x.o.payload.input.mode.value
    else was
  }

  predicate Provides(x: Entry) {
    x.Worked? && (x.o.action == CreateLab || x.o.action == ResetLab) && x.report.ProvisionReport? && x.report.provision.Success?
  }

  function RedisAfter(was: bool, x: Entry): bool {
    if Provides(x) then x.report.provision.value.redis
    else if x.Worked? && x.o.action == AddRedis then true
    else if x.Worked? && x.o.action == RemoveRedis then false
    else was
  }

  /** The row of a Redis container, once there is one, is never deleted but by a new provision. */
  function RedisRowAfter(was: RedisRow, x: Entry): RedisRow {
    if Provides(x) then (if x.report.provision.value.redis then RedisReady else NoRedisRow)
    else if x.Worked? && x.o.action == AddRedis then RedisReady
    else if was == NoRedisRow then was
    else if x.Worked? && (x.o.action == RemoveRedis || x.o.action == DestroyLab) then RedisDeleted
    else if x.Broke? && (x.o.action == ResetLab || x.o.action == DestroyLab) then RedisUnknown
    else was
  }

  /** What counts as activity: anything that worked but an adaptive adjustment and the end of the lab. */
  predicate Active(x: Entry) {
    x.Worked? && x.o.action != ApplyAdaptive && x.o.action != DestroyLab
  }

  function ReasonAfter(was: Option<Reason>, x: Entry): Option<Reason> {
    match x
    case Closing(reason, _) => Some(reason)
    case Worked(o, _, _) => if o.action == DestroyLab && was == None then Some(UserRequested) else was
    case Broke(o, _) => if o.action == DestroyLab then Some(DestroyFailed) else was
    case _ => was
  }

  /** Failed topology and cache operations, and adjustments, do not touch the session row. */
  predicate Touches(x: Entry) {
    match x
    case Worked(o, _, _) => o.action != ApplyAdaptive
    case Broke(o, _) => !o.action.Topology() && !o.action.Cache()
    case _ => true
  }

  function SessionAfter(row: Session, x: Entry): Session {
    if x.Opened? then Session(x.user, x.course, x.scenario, Preparing, Fixed, false, NoRedisRow, None, None, None, None, x.now)
    else
      Session(row.user, row.course, row.scenario, StatusAfter(row.status, x), ModeAfter(row.mode, x),
              RedisAfter(row.redis, x), RedisRowAfter(row.redisRow, x),
              if x.Worked? && x.o.action == CreateLab then Some(x.now) else row.startedAt,
              if Active(x) then Some(x.now) else row.lastActionAt,
              if x.Worked? && x.o.action == DestroyLab then Some(x.now) else row.terminatedAt,
              ReasonAfter(row.reason, x),
              if Touches(x) then x.now else row.updatedAt)
  }

  const Blank: Session := Session(0, 0, Cluster, Preparing, Fixed, false, NoRedisRow, None, None, None, None, 0)

  function SessionOf(log: seq<Entry>): Session {
    if log == [] then Blank else SessionAfter(SessionOf(log[..|log| - 1]), log[|log| - 1])
  }

  // ----- The instance rows, field by field --------------------------------------------

  /** The last report of an instance in a list. */
  function LastNamed(xs: seq<ProvisionedInstance>, n: Name): Option<ProvisionedInstance> {
    if xs == [] then None
    else if xs[|xs| - 1].name == n then Some(xs[|xs| - 1])
    else LastNamed(xs[..|xs| - 1], n)
  }

  function LastWeight(ws: seq<NameWeight>, n: Name): Option<int> {
    if ws == [] then None
    else if ws[|ws| - 1].name == n then Some(ws[|ws| - 1].weight)
    else LastWeight(ws[..|ws| - 1], n)
  }

  /** A row with everything as the orchestrator reported it. */
  function AsReported(i: ProvisionedInstance, status: InstanceStatus): Instance {
    Instance(Some(i.container), status, i.cpu, i.memory, i.performance, i.speed, i.maxLoad, i.weight)
  }

  function Answer(report: Report): Option<ProvisionedInstance> {
    if report.TopologyReport? && report.instance.Success? then report.instance.value else None
  }

  function WeightsAsked(o: Operation): seq<NameWeight> {
    if o.payload.TopologyPayload? then o.payload.input.weights
    else if o.payload.AdaptivePayload? then o.payload.weights
    else []
  }

  /** One row of a lab after an entry of its log, or none. */
  function RowAfter(was: Option<Instance>, n: Name, x: Entry): Option<Instance> {
    if Provides(x) then
      var told := LastNamed(x.report.provision.value.instances, n);
      if told.None? then None
      else Some(AsReported(told.value, if told.value.status.Some? then told.value.status.value else InstanceRunning))
    else if x.Worked? && x.o.action == AddInstance && Answer(x.report).Some? && Answer(x.report).value.name == n then
      Some(AsReported(Answer(x.report).value, InstanceRunning))
    else if was.None? then None
    else if x.Worked? && x.o.action == RemoveInstance && x.o.payload.TopologyPayload? && x.o.payload.name == n then None
    else if x.Worked? && x.o.action == SetPerformance && Answer(x.report).Some? && Answer(x.report).value.name == n then
      var i := Answer(x.report).value;
      Some(Instance(Some(i.container), InstanceRunning, i.cpu, was.value.memory, i.performance, i.speed, was.value.maxLoad, was.value.weight))
    else if x.Worked? && (x.o.action == SetWeights || (x.o.action == ApplyAdaptive && x.report.TopologyReport? && !x.report.stale))
            && LastWeight(WeightsAsked(x.o), n).Some? then
      Some(was.value.(weight := LastWeight(WeightsAsked(x.o), n).value))
    else if x.Worked? && x.o.action == DestroyLab then Some(was.value.(status := InstanceTerminated, container := None))
    else if x.Broke? && (x.o.action == ResetLab || x.o.action == DestroyLab) then
      Some(was.value.(status := InstanceUnknown, container := None))
    else was
  }

  function RowOf(log: seq<Entry>, n: Name): Option<Instance> {
    if log == [] then None else RowAfter(RowOf(log[..|log| - 1], n), n, log[|log| - 1])
  }

  function RowAt(rows: Instances, n: Name): Option<Instance> {
    if n in rows then Some(rows[n]) else None
  }

  /** The tables of one lab move as an entry says. */
  ghost predicate Moves(s: State, t: State, lab: LabId, x: Entry) {
    && lab in t.sessions && t.sessions[lab] == SessionAfter(if lab in s.sessions then s.sessions[lab] else Blank, x)
    && forall n :: RowAt(Rows(t, lab), n) == RowAfter(RowAt(Rows(s, lab), n), n, x)
  }

  ghost predicate Rests(s: State, t: State, lab: LabId) {
    && (lab in t.sessions <==> lab in s.sessions) && (lab in s.sessions ==> t.sessions[lab] == s.sessions[lab])
    && Rows(t, lab) == Rows(s, lab)
  }

  // ----- Completions ---------------------------------------------------------------------

  lemma {:induction false} RowsAreLastNamed(xs: seq<ProvisionedInstance>, n: Name)
    ensures var told := LastNamed(xs, n);
      RowAt(RowsOf(xs), n) == if told.None? then None
                              else Some(AsReported(told.value, if told.value.status.Some? then told.value.status.value else InstanceRunning))
  {
    if xs != [] {
      RowsAreLastNamed(xs[..|xs| - 1], n);
    }
  }

  lemma {:induction false} WeightsAreLast(ws: seq<NameWeight>, n: Name)
    ensures LastWeight(ws, n) == if n in WeightMap(ws) then Some(WeightMap(ws)[n]) else None
  {
    if ws != [] {
      WeightsAreLast(ws[..|ws| - 1], n);
    }
  }

  lemma ProvisionMoves(s: State, id: OpId, owner: Owner, report: Report, now: Time)
    requires id in s.ops && (s.ops[id].action == CreateLab || s.ops[id].action == ResetLab)
    requires Complete(s, id, owner, report, now).1 == Done
    ensures var o := s.ops[id];
      Moves(s, Complete(s, id, owner, report, now).0, o.lab,
            if Accomplished(o, report) then Worked(o, report, now) else Broke(o, now))
  {
    var o, t := s.ops[id], Complete(s, id, owner, report, now).0;
    var x := if Accomplished(o, report) then Worked(o, report, now) else Broke(o, now);
    forall n ensures RowAt(Rows(t, o.lab), n) == RowAfter(RowAt(Rows(s, o.lab), n), n, x) {
      if Accomplished(o, report) {
        RowsAreLastNamed(report.provision.value.instances, n);
      }
    }
  }

  lemma DestroyMoves(s: State, id: OpId, owner: Owner, report: Report, now: Time)
    requires id in s.ops && s.ops[id].action == DestroyLab && Complete(s, id, owner, report, now).1 == Done
    ensures var o := s.ops[id];
      Moves(s, Complete(s, id, owner, report, now).0, o.lab,
            if Accomplished(o, report) then Worked(o, report, now) else Broke(o, now))
  {
  }

  lemma CacheMoves(s: State, id: OpId, owner: Owner, report: Report, now: Time)
    requires id in s.ops && s.ops[id].action.Cache() && s.ops[id].lab in s.sessions && Complete(s, id, owner, report, now).1 == Done
    ensures var o := s.ops[id];
      Moves(s, Complete(s, id, owner, report, now).0, o.lab,
            if Accomplished(o, report) then Worked(o, report, now) else Broke(o, now))
  {
  }

  /** The result of a topology operation, applied. */
  function AppliedAs(row: Session, rows: Instances, o: Operation, report: Report): Applied
    requires report.TopologyReport? && TopologyOutcome(o, report.instance, report.stale).Success?
  {
    ApplyTopology(row, rows, o.action, TopologyOutcome(o, report.instance, report.stale).value)
  }

  lemma InstanceApplied(row: Session, rows: Instances, o: Operation, report: Report, now: Time, n: Name)
    requires o.action == AddInstance || o.action == RemoveInstance || o.action == SetPerformance || o.action == SetMode
    requires report.TopologyReport? && TopologyOutcome(o, report.instance, report.stale).Success? && AppliedAs(row, rows, o, report).Applied?
    ensures RowAt(AppliedAs(row, rows, o, report).rows, n) == RowAfter(RowAt(rows, n), n, Worked(o, report, now))
  {
  }

  lemma WeightsApplied(row: Session, rows: Instances, o: Operation, report: Report, now: Time, n: Name)
    requires o.action == SetWeights || o.action == ApplyAdaptive
    requires report.TopologyReport? && TopologyOutcome(o, report.instance, report.stale).Success? && AppliedAs(row, rows, o, report).Applied?
    ensures RowAt(AppliedAs(row, rows, o, report).rows, n) == RowAfter(RowAt(rows, n), n, Worked(o, report, now))
  {
    WeightsAreLast(WeightsAsked(o), n);
  }

  lemma ModeApplied(row: Session, rows: Instances, o: Operation, report: Report, now: Time)
    requires o.action.Topology()
    requires report.TopologyReport? && TopologyOutcome(o, report.instance, report.stale).Success? && AppliedAs(row, rows, o, report).Applied?
    ensures AppliedAs(row, rows, o, report).mode == ModeAfter(row.mode, Worked(o, report, now))
  {
  }

  /** A committed topology operation writes the applied result, or nothing but its own row. */
  lemma TopologyWrites(s: State, id: OpId, owner: Owner, report: Report, now: Time)
    requires id in s.ops && s.ops[id].action.Topology() && s.ops[id].lab in s.sessions && Complete(s, id, owner, report, now).1 == Done
    ensures var o, t, row := s.ops[id], Complete(s, id, owner, report, now).0, s.sessions[s.ops[id].lab];
      && o.lab in t.sessions
      && if !Accomplished(o, report) then t.instances == s.instances && t.sessions == s.sessions
         else
           && AppliedAs(row, Rows(s, o.lab), o, report).Applied?
           && Rows(t, o.lab) == AppliedAs(row, Rows(s, o.lab), o, report).rows
           && t.sessions[o.lab] == if o.action == ApplyAdaptive then row
                                   else row.(status := Running, mode := AppliedAs(row, Rows(s, o.lab), o, report).mode,
                                             lastActionAt := Some(now), updatedAt := now)
  {
  }

  lemma TopologyMoves(s: State, id: OpId, owner: Owner, report: Report, now: Time)
    requires id in s.ops && s.ops[id].action.Topology() && s.ops[id].lab in s.sessions && Complete(s, id, owner, report, now).1 == Done
    ensures var o := s.ops[id];
      Moves(s, Complete(s, id, owner, report, now).0, o.lab,
            if Accomplished(o, report) then Worked(o, report, now) else Broke(o, now))
  {
    TopologyWrites(s, id, owner, report, now);
    WritesMove(s, Complete(s, id, owner, report, now).0, s.ops[id], report, now);
  }

  lemma WritesMove(s: State, t: State, o: Operation, report: Report, now: Time)
    requires o.action.Topology() && o.lab in s.sessions && o.lab in t.sessions
    requires if !Accomplished(o, report) then t.instances == s.instances && t.sessions == s.sessions
      else
        && AppliedAs(s.sessions[o.lab], Rows(s, o.lab), o, report).Applied?
        && Rows(t, o.lab) == AppliedAs(s.sessions[o.lab], Rows(s, o.lab), o, report).rows
        && t.sessions[o.lab] == if o.action == ApplyAdaptive then s.sessions[o.lab]
                                else s.sessions[o.lab].(status := Running, mode := AppliedAs(s.sessions[o.lab], Rows(s, o.lab), o, report).mode,
                                                        lastActionAt := Some(now), updatedAt := now)
    ensures Moves(s, t, o.lab, if Accomplished(o, report) then Worked(o, report, now) else Broke(o, now))
  {
    if Accomplished(o, report) {
      ModeApplied(s.sessions[o.lab], Rows(s, o.lab), o, report, now);
      forall n ensures RowAt(Rows(t, o.lab), n) == RowAfter(RowAt(Rows(s, o.lab), n), n, Worked(o, report, now)) {
        if o.action == SetWeights || o.action == ApplyAdaptive {
          WeightsApplied(s.sessions[o.lab], Rows(s, o.lab), o, report, now, n);
        } else {
          InstanceApplied(s.sessions[o.lab], Rows(s, o.lab), o, report, now, n);
        }
      }
    }
  }

  lemma CompletionMovesLab(c: Config, s: State, e: Event, lab: LabId)
    requires e.CompleteEvent? && Adds(c, s, e, lab).Some? && lab in s.sessions
    ensures Moves(s, Next(c, s, e).0, lab, Adds(c, s, e, lab).value)
  {
    if s.ops[e.id].action.Topology() {
      TopologyMoves(s, e.id, e.owner, e.report, e.now);
    } else if s.ops[e.id].action.Cache() {
      CacheMoves(s, e.id, e.owner, e.report, e.now);
    } else if s.ops[e.id].action == DestroyLab {
      DestroyMoves(s, e.id, e.owner, e.report, e.now);
    } else {
      ProvisionMoves(s, e.id, e.owner, e.report, e.now);
    }
  }

  lemma CompletionRests(c: Config, s: State, e: Event, lab: LabId)
    requires LabsKnown(s) && e.CompleteEvent? && Adds(c, s, e, lab).None?
    ensures Rests(s, Next(c, s, e).0, lab)
  {
    CompletionFinishes(s, e.id, e.owner, e.report, e.now);
    if Next(c, s, e).1 == Done {
      CompleteFrame(s, e.id, e.owner, e.report, e.now);
      CompleteKeepsLabs(s, e.id, e.owner, e.report, e.now);
    }
  }

  // ----- Requests, advances and leases ----------------------------------------------------------

  lemma CreationMoves(c: Config, s: State, e: Event, lab: LabId)
    requires e.CreateEvent? && (lab !in s.sessions ==> Rows(s, lab) == map[])
    ensures var t := Next(c, s, e).0;
      if Adds(c, s, e, lab).Some? then lab !in s.sessions && Moves(s, t, lab, Adds(c, s, e, lab).value) else Rests(s, t, lab)
  {
  }

  lemma ActionMoves(c: Config, s: State, e: Event, lab: LabId)
    requires e.ActionEvent?
    ensures var t := Next(c, s, e).0;
      if Adds(c, s, e, lab).Some? then lab in s.sessions && Moves(s, t, lab, Adds(c, s, e, lab).value) else Rests(s, t, lab)
  {
  }

  lemma AdvanceMoves(c: Config, s: State, e: Event, lab: LabId)
    requires e.AdvanceEvent?
    ensures var t := Next(c, s, e).0;
      if Adds(c, s, e, lab).Some? then lab in s.sessions && Moves(s, t, lab, Adds(c, s, e, lab).value) else Rests(s, t, lab)
  {
    if e.lab == lab && lab in s.sessions {
      AdvancedRow(c, s, lab, e.now);
    }
  }

  lemma AdvancedRow(c: Config, s: State, lab: LabId, now: Time)
    requires lab in s.sessions
    ensures var (t, reply), row := Advance(s, lab, now, c.lifetime), s.sessions[lab];
      && t.instances == s.instances && lab in t.sessions
      && (reply.Accepted? ==> t.sessions[lab] == row.(status := Terminating, reason := Some(ExpiryReason(c, row)), updatedAt := now))
      && (reply.Done? ==> t.sessions[lab] == row.(status := if row.status == Running then Expiring else Running, updatedAt := now))
      && (!reply.Accepted? && !reply.Done? ==> t == s)
  {
  }

  lemma OtherRests(c: Config, s: State, e: Event, lab: LabId)
    requires e.SubmitEvent? || e.AdjustEvent? || e.ClaimEvent? || e.StartEvent?
    ensures Adds(c, s, e, lab).None? && Rests(s, Next(c, s, e).0, lab)
  {
    if e.SubmitEvent? {
      SubmitEnqueues(s, c.quota, e.user, e.lab, e.input, e.now);
    } else if e.AdjustEvent? {
      AdjustEnqueues(s, e.user, e.lab, e.id, e.topology, e.weights, e.now);
    }
  }

  // ----- Every operation has its lab ---------------------------------------------------------------

  ghost predicate LabsKnown(s: State) {
    && (forall id :: id in s.ops ==> s.ops[id].lab in s.sessions)
    && (forall lab :: lab in s.instances ==> lab in s.sessions)
  }

  lemma RequestKnown(c: Config, s: State, e: Event)
    requires LabsKnown(s) && (e.CreateEvent? || e.ActionEvent? || e.AdvanceEvent?)
    ensures LabsKnown(Next(c, s, e).0)
  {
  }

  lemma SubmissionKnown(c: Config, s: State, e: Event)
    requires LabsKnown(s) && (e.SubmitEvent? || e.AdjustEvent?)
    ensures LabsKnown(Next(c, s, e).0)
  {
    if e.SubmitEvent? {
      SubmitEnqueues(s, c.quota, e.user, e.lab, e.input, e.now);
      if Next(c, s, e).1.Accepted? {
        SubmitRequests(c, s, e);
      }
    } else {
      AdjustEnqueues(s, e.user, e.lab, e.id, e.topology, e.weights, e.now);
      if Next(c, s, e).1.Accepted? {
        AdjustRequests(c, s, e);
      }
    }
  }

  lemma KnownStep(c: Config, s: State, e: Event)
    requires LabsKnown(s)
    ensures LabsKnown(Next(c, s, e).0)
  {
    if e.CompleteEvent? {
      if e.id in s.ops {
        CompletionKnown(s, e.id, e.owner, e.report, e.now);
      }
    } else if e.SubmitEvent? || e.AdjustEvent? {
      SubmissionKnown(c, s, e);
    } else if !e.ClaimEvent? && !e.StartEvent? {
      RequestKnown(c, s, e);
    }
  }

  lemma CompletionKnown(s: State, id: OpId, owner: Owner, report: Report, now: Time)
    requires LabsKnown(s) && id in s.ops
    ensures LabsKnown(Complete(s, id, owner, report, now).0)
  {
    var t := Complete(s, id, owner, report, now).0;
    CompletionIdentity(s, id, owner, report, now);
    CompleteKeepsLabs(s, id, owner, report, now);
    CompleteFrame(s, id, owner, report, now);
    forall i | i in t.ops ensures t.ops[i].lab in t.sessions {
      assert i in t.ops.Keys;
    }
    CompletionInstances(s, id, owner, report, now);
  }

  lemma CompletionInstances(s: State, id: OpId, owner: Owner, report: Report, now: Time)
    requires id in s.ops
    ensures forall lab :: lab in Complete(s, id, owner, report, now).0.instances ==> lab in s.instances || lab == s.ops[id].lab
  {
  }

  lemma {:induction false} ReachableKnown(c: Config, run: seq<Event>)
    ensures LabsKnown(After(c, run))
  {
    if run != [] {
      ReachableKnown(c, run[..|run| - 1]);
      KnownStep(c, After(c, run[..|run| - 1]), run[|run| - 1]);
    }
  }

  // ----- Whole runs -----------------------------------------------------------------------------------

  /** Each step moves a lab's tables as its entry says, and not at all without one. */
  lemma StepReplays(c: Config, s: State, e: Event, lab: LabId)
    requires LabsKnown(s)
    ensures var t, x := Next(c, s, e).0, Adds(c, s, e, lab);
      if x.Some? then Moves(s, t, lab, x.value) && (lab in s.sessions <==> !x.value.Opened?) else Rests(s, t, lab)
  {
    match e
    case CreateEvent(_, _, _, _, _, _) => CreationMoves(c, s, e, lab);
    case ActionEvent(_, _, _, _, _, _) => ActionMoves(c, s, e, lab);
    case AdvanceEvent(_, _) => AdvanceMoves(c, s, e, lab);
    case CompleteEvent(_, _, _, _) =>
      if Adds(c, s, e, lab).Some? {
        CompletionMovesLab(c, s, e, lab);
      } else {
        CompletionRests(c, s, e, lab);
      }
    case _ => OtherRests(c, s, e, lab);
  }

  /** A committed change of mode sets the mode that was asked for, and no other step changes a lab's mode. */
  lemma ModeIsAsked(c: Config, s: State, e: Event, lab: LabId)
    requires LabsKnown(s) && lab in s.sessions
    ensures var (t, reply) := Next(c, s, e);
      && lab in t.sessions
      && if e.CompleteEvent? && e.id in s.ops && s.ops[e.id].lab == lab && s.ops[e.id].action == SetMode
            && reply == Done && Accomplished(s.ops[e.id], e.report)
         then s.ops[e.id].payload.TopologyPayload? && s.ops[e.id].payload.input.mode == Some(t.sessions[lab].mode)
         else t.sessions[lab].mode == s.sessions[lab].mode
  {
    StepReplays(c, s, e, lab);
    if e.CompleteEvent? && e.id in s.ops && s.ops[e.id].action == SetMode && Next(c, s, e).1 == Done
       && Accomplished(s.ops[e.id], e.report) {
      ModeNeedsRequest(s, e.id, e.owner, e.report, e.now);
    }
  }

  lemma ModeNeedsRequest(s: State, id: OpId, owner: Owner, report: Report, now: Time)
    requires id in s.ops && s.ops[id].action == SetMode && Complete(s, id, owner, report, now).1 == Done
    requires Accomplished(s.ops[id], report)
    ensures s.ops[id].payload.TopologyPayload? && s.ops[id].payload.input.mode.Some?
  {
  }

  /** After every run a lab's session row and instance rows are, field by field, what its own log says,
      and a lab exists exactly if its log is not empty. */
  lemma {:induction false} TablesReplayTheLog(c: Config, run: seq<Event>, lab: LabId)
    ensures var s, log := After(c, run), Log(c, run, lab);
      && (lab in s.sessions <==> log != [])
      && (lab in s.sessions ==> s.sessions[lab] == SessionOf(log))
      && forall n :: RowAt(Rows(s, lab), n) == RowOf(log, n)
  {
    if run != [] {
      var front, e := run[..|run| - 1], run[|run| - 1];
      TablesReplayTheLog(c, front, lab);
      ReachableKnown(c, front);
      StepReplays(c, After(c, front), e, lab);
      var log, x := Log(c, front, lab), Adds(c, After(c, front), e, lab);
      if x.Some? {
        assert (log + [x.value])[..|log|] == log;
      } else {
        assert log + [] == log;
      }
    }
  }
}
