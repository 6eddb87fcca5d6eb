/**
 The repositories as they work: transactions that write the tables row by row and
 roll back when a guarded update matches no row. Each is proved to have exactly the
 effect of its transaction function, on every path.
 */
module Database {
  import opened Domain
  import opened Naming
  import T = Transactions
  import opened Coupling
  import P = CouplingProof
  import G = Guarantees
  import L = Passes

  /** Every weight is in range and no name is repeated. */
  predicate Listed(ws: seq<NameWeight>) {
    ws != [] ==>
      var front, w := ws[..|ws| - 1], ws[|ws| - 1];
      Listed(front) && 1 <= w.weight <= 100 && w.name !in T.WeightMap(front)
  }

  lemma {:induction false} WeightNames(ws: seq<NameWeight>)
    ensures forall i :: 0 <= i < |ws| ==> ws[i].name in T.WeightMap(ws)
    ensures forall n :: n in T.WeightMap(ws) ==> exists i :: 0 <= i < |ws| && ws[i].name == n
  {
    if ws != [] {
      WeightNames(ws[..|ws| - 1]);
    }
  }

  lemma UnusedName(ws: seq<NameWeight>, name: Name)
    ensures name !in T.WeightMap(ws) <==> forall i :: 0 <= i < |ws| ==> ws[i].name != name
  {
    WeightNames(ws);
  }

  lemma {:induction false} ListedIsProper(ws: seq<NameWeight>)
    requires Listed(ws)
    ensures forall i :: 0 <= i < |ws| ==> 1 <= ws[i].weight <= 100
    ensures forall i, j :: 0 <= i < j < |ws| ==> ws[i].name != ws[j].name
  {
    if ws != [] {
      var front, w := ws[..|ws| - 1], ws[|ws| - 1];
      ListedIsProper(front);
      UnusedName(front, w.name);
      assert forall i :: 0 <= i < |front| ==> ws[i] == front[i];
    }
  }

  lemma {:induction false} ProperIsListed(ws: seq<NameWeight>)
    requires forall i :: 0 <= i < |ws| ==> 1 <= ws[i].weight <= 100
    requires forall i, j :: 0 <= i < j < |ws| ==> ws[i].name != ws[j].name
    ensures Listed(ws)
  {
    if ws != [] {
      var front, w := ws[..|ws| - 1], ws[|ws| - 1];
      ProperIsListed(front);
      UnusedName(front, w.name);
    }
  }

  lemma {:induction false} UnlistedPrefix(ws: seq<NameWeight>, n: nat)
    requires n <= |ws| && !Listed(ws[..n])
    ensures !Listed(ws)
  {
    if n < |ws| {
      assert ws[..|ws| - 1][..n] == ws[..n];
      UnlistedPrefix(ws[..|ws| - 1], n);
    } else {
      assert ws[..n] == ws;
    }
  }

  method CollectWeights(ws: seq<NameWeight>) returns (values: Option<Servers>)
    ensures values == if Listed(ws) then Some(T.WeightMap(ws)) else None
  {
    var found: Servers := map[];
    for i := 0 to |ws|
      invariant Listed(ws[..i]) && found == T.WeightMap(ws[..i])
    {
      assert ws[..i + 1][..i] == ws[..i];
      if ws[i].weight < 1 || ws[i].weight > 100 || ws[i].name in found {
        UnlistedPrefix(ws, i + 1);
        return None;
      }
      found := found[ws[i].name := ws[i].weight];
    }
    assert ws[..|ws|] == ws;
    return Some(found);
  }

  method Covers(names: set<Name>, values: Servers) returns (all: bool)
    ensures all <==> forall n :: n in names ==> n in values
  {
    var left := names;
    while left != {}
      invariant forall n :: n in left ==> n in names
      invariant forall n :: n in names && n !in left ==> n in values
      decreases |left|
    {
      var n :| n in left;
      if n !in values {
        return false;
      }
      left := left - {n};
    }
    return true;
  }

  /** The weight list scan shared by fixed and adaptive weight requests. */
  method ValidateWeights(names: set<Name>, ws: seq<NameWeight>) returns (servers: Option<Servers>)
    ensures servers == if T.ValidWeights(names, ws) then Some(T.WeightMap(ws)) else None
  {
    if |ws| != |names| {
      return None;
    }
    servers := CollectWeights(ws);
    if Listed(ws) {
      ListedIsProper(ws);
    } else if T.ValidWeights(names, ws) {
      ProperIsListed(ws);
    }
    if servers.Some? {
      var all := Covers(names, servers.value);
      if !all {
        return None;
      }
    }
  }

  lemma CountOneMore(s: State, labs: set<LabId>, lab: LabId)
    requires lab in s.sessions && lab !in labs
    ensures |labs + {lab}| == |labs| + 1
    ensures T.Reserved(s, labs + {lab}) == T.Reserved(s, labs) + s.sessions[lab].scenario.Containers()
  {
    assert T.CacheLabs(s, labs + {lab})
        == T.CacheLabs(s, labs) + if s.sessions[lab].scenario == MultiLevelCache then {lab} else {};
  }

  lemma ReweightOne(rows: Instances, ws: seq<NameWeight>, i: nat)
    requires i < |ws| && ws[i].name in rows
    ensures var before := T.Reweighted(rows, T.WeightMap(ws[..i]));
      && ws[i].name in before
      && before[ws[i].name := before[ws[i].name].(weight := ws[i].weight)] == T.Reweighted(rows, T.WeightMap(ws[..i + 1]))
  {
    assert ws[..i + 1][..i] == ws[..i];
  }

  /** Inserts instance rows one by one; stops at an incomplete instance. */
  method WriteRows(instances: seq<ProvisionedInstance>) returns (rows: Option<Instances>)
    ensures rows ==
      if forall k :: 0 <= k < |instances| ==> T.InstanceComplete(instances[k]) && instances[k].containerName != ""
      then Some(T.RowsOf(instances)) else None
  {
    var written: Instances := map[];
    for i := 0 to |instances|
      invariant written == T.RowsOf(instances[..i])
      invariant forall k :: 0 <= k < i ==> T.InstanceComplete(instances[k]) && instances[k].containerName != ""
    {
      var row := instances[i];
      assert instances[..i + 1][..i] == instances[..i];
      if !T.InstanceComplete(row) || row.containerName == "" {
        return None;
      }
      written := written[row.name := T.InstanceRow(row)];
    }
    assert instances[..|instances|] == instances;
    return Some(written);
  }

  /** Writes weights row by row; stops at a name without a row. */
  method WriteWeights(rows: Instances, ws: seq<NameWeight>) returns (written: Option<Instances>)
    ensures written == if T.WeightMap(ws).Keys <= rows.Keys then Some(T.Reweighted(rows, T.WeightMap(ws))) else None
  {
    var current := rows;
    assert T.Reweighted(rows, map[]) == rows;
    for i := 0 to |ws|
      invariant current == T.Reweighted(rows, T.WeightMap(ws[..i])) && current.Keys == rows.Keys
      invariant T.WeightMap(ws[..i]).Keys <= rows.Keys
    {
      var name := ws[i].name;
      assert ws[..i + 1][..i] == ws[..i];
      if name !in current {
        WeightNames(ws);
        assert name in T.WeightMap(ws).Keys && name !in rows.Keys;
        return None;
      }
      ReweightOne(rows, ws, i);
      current := current[name := current[name].(weight := ws[i].weight)];
    }
    assert ws[..|ws|] == ws;
    return Some(current);
  }

  /** COUNT and SUM over the active sessions. */
  method LoadUsage(s: State) returns (active: nat, containers: nat)
    ensures active == |T.ActiveLabs(s)|
    ensures containers == T.Reserved(s, T.ActiveLabs(s))
  {
    active, containers := 0, 0;
    var left := s.sessions.Keys;
    ghost var counted: set<LabId> := {};
    assert T.CacheLabs(s, counted) == {};
    while left != {}
      invariant forall l :: l in left ==> l in s.sessions
      invariant forall l :: l in counted <==> l in s.sessions && l !in left && s.sessions[l].status.Active()
      invariant active == |counted| && containers == T.Reserved(s, counted)
      decreases |left|
    {
      var lab :| lab in left;
      left := left - {lab};
      if s.sessions[lab].status.Active() {
        CountOneMore(s, counted, lab);
        active := active + 1;
        containers := containers + s.sessions[lab].scenario.Containers();
        counted := counted + {lab};
      }
    }
    assert counted == T.ActiveLabs(s);
  }

  /** What a lease holder can rely on. */
  predicate Promised(s: State, id: OpId, report: Report, reply: Reply)
    requires id in s.ops
  {
    var o := s.ops[id];
    && (G.ReportMatches(o.action, report) && !report.CacheReport? ==> reply == Done)
    && (o.action.Cache() && report == CacheReport(Success(true)) ==>
          o.lab in s.sessions && (reply == Done <==> s.sessions[o.lab].status == Running))
  }

  lemma CompletionGuarantees(c: Config, s: State, id: OpId, owner: Owner, report: Report, now: Time)
    requires Inv(c, s) && T.HoldsLease(s, id, owner) && Trusted(c, s, CompleteEvent(id, owner, report, now))
    ensures Promised(s, id, report, Coupling.Complete(s, id, owner, report, now).1)
  {
    G.OperationFits(c, s, id);
    if report.TopologyReport? && s.ops[id].action.Topology() {
      G.TopologyCompletionCommits(c, s, id, owner, report, now);
    } else if G.ReportMatches(s.ops[id].action, report) && !report.CacheReport? {
      G.LabCompletionCommits(c, s, id, owner, report, now);
    } else if s.ops[id].action.Cache() && report == CacheReport(Success(true)) {
      G.CacheCompletion(s, id, owner, true, now);
    }
  }

  class Tables {
    var sessions: map<LabId, Session>
    var instances: map<LabId, Instances>
    var ops: map<OpId, Operation>
    var nextRow: nat

    constructor (ghost c: Config)
      ensures Valid(c) && Contents() == EmptyState
    {
      sessions, instances, ops, nextRow := map[], map[], map[], 0;
    }

    /** The invariant every transaction keeps: operations, sessions and instances fit together. */
    ghost predicate Valid(c: Config)
      reads this
    {
      Inv(c, Contents())
    }

    function Contents(): State
      reads this
    {
      State(sessions, instances, ops, nextRow)
    }

    method Rollback(before: State)
      modifies this
      ensures Contents() == before
    {
      sessions, instances, ops, nextRow := before.sessions, before.instances, before.ops, before.nextRow;
    }

    // ----- Admission ----------------------------------------------------------

    method Insert(id: OpId, lab: LabId, user: UserId, action: Action, payload: Payload, now: Time)
      modifies this
      ensures Contents() == T.Enqueue(old(Contents()), id, lab, user, action, payload, now)
    {
      ops := ops[id := Operation(nextRow, lab, user, action, payload, Pending, None, 0, 0, now)];
      nextRow := nextRow + 1;
    }

    method Create(c: Config, user: UserId, course: nat, lookup: CourseLookup, id: OpId, lab: LabId, now: Time) returns (reply: Reply)
      requires Valid(c)
      modifies this
      ensures Valid(c)
      ensures (Contents(), reply) == T.Create(old(Contents()), c.quota, user, course, lookup, id, lab, now)
    {
      P.CreateKeepsInv(c, Contents(), user, course, lookup, id, lab, now);
      if id in ops {
        var o := ops[id];
        if o.requester != user || o.action != CreateLab || o.lab !in sessions || sessions[o.lab].course != course {
          return Refused(OperationConflict);
        }
        return Existing(id, o);
      }
      if lookup.CourseMissing? {
        return Refused(CourseNotFound);
      }
      if lookup.CourseClosed? {
        return Refused(LabUnavailable);
      }
      if T.UserActive(Contents(), user) {
        return Refused(AlreadyActive);
      }
      var active, containers := LoadUsage(Contents());
      var refusal := T.AdmitCreate(c.quota, active, containers, lookup.scenario);
      if refusal.Some? {
        return Refused(refusal.value);
      }
      if lab in sessions {
        return Refused(OperationConflict);
      }
      sessions := sessions[lab := Session(user, course, lookup.scenario, Preparing, Fixed, false, NoRedisRow, None, None, None, None, now)];
      Insert(id, lab, user, CreateLab, LabPayload(lookup.scenario), now);
      return Accepted(id);
    }

    // ----- Enqueueing ---------------------------------------------------------

    method EnqueueAction(ghost c: Config, user: UserId, lab: LabId, id: OpId, action: Action, reason: Option<Reason>, now: Time)
      returns (reply: Reply)
      requires Valid(c)
      modifies this
      ensures Valid(c)
      ensures (Contents(), reply) == T.EnqueueAction(old(Contents()), user, lab, id, action, reason, now)
    {
      P.ActionKeepsInv(c, Contents(), user, lab, id, action, reason, now);
      if id in ops {
        return T.Resubmitted(Contents(), id, user, lab, action).1;
      }
      if lab !in sessions {
        return Refused(NotFound);
      }
      var row := sessions[lab];
      if row.user != user {
        return Refused(NotOwned);
      }
      if action != ResetLab && action != DestroyLab {
        return Refused(InvalidRequest);
      }
      if action == ResetLab {
        if row.status != Running && row.status != Expiring {
          return Refused(NotRunning);
        }
      } else if row.status != Preparing && row.status != Running && row.status != Expiring && row.status != Failed {
        return Refused(NotRunning);
      }
      if T.LabBusy(Contents(), lab) {
        return Refused(Busy);
      }
      var payload := LabPayload(row.scenario);
      if action == DestroyLab {
        var why := if reason.Some? && reason.value != DestroyFailed then reason.value else UserRequested;
        payload := DestroyPayload(why);
        sessions := sessions[lab := row.(status := Terminating, reason := Some(why), updatedAt := now)];
      }
      Insert(id, lab, user, action, payload, now);
      return Accepted(id);
    }

    /** The service entry point for every learner action. */
    method Submit(c: Config, user: UserId, lab: LabId, input: ActionInput, now: Time) returns (reply: Reply)
      requires Valid(c)
      modifies this
      ensures Valid(c)
      ensures (Contents(), reply) == T.SubmitAction(old(Contents()), c.quota, user, lab, input, now)
    {
      P.SubmitKeepsInv(c, Contents(), user, lab, input, now);
      if !T.ValidInput(input) {
        return Refused(InvalidRequest);
      }
      if input.action.Cache() {
        reply := EnqueueCache(user, lab, input, now);
      } else {
        reply := EnqueueTopology(c.quota, user, lab, input, now);
      }
    }

    method EnqueueTopology(q: Quota, user: UserId, lab: LabId, input: ActionInput, now: Time) returns (reply: Reply)
      requires T.ValidInput(input)
      modifies this
      ensures (Contents(), reply) == T.EnqueueTopology(old(Contents()), q, user, lab, input, now)
    {
      var id := input.op;
      if id in ops {
        if ops[id].payload.TopologyPayload? && ops[id].payload.input == input {
          return T.Resubmitted(Contents(), id, user, lab, input.action).1;
        }
        return Refused(OperationConflict);
      }
      if lab !in sessions {
        return Refused(NotFound);
      }
      var row := sessions[lab];
      if row.user != user {
        return Refused(NotOwned);
      }
      if !row.status.Up() {
        return Refused(NotRunning);
      }
      if row.scenario != Cluster {
        return Refused(ActionNotAllowed);
      }
      if T.LabBusy(Contents(), lab) {
        return Refused(Busy);
      }
      var up := RunningInstances(lab);
      var built := BuildTopology(up, row.mode, input, q, T.ContainersInUse(Contents()));
      if built.NotBuilt? {
        return Refused(built.error);
      }
      Insert(id, lab, user, input.action, built.payload, now);
      return Accepted(id);
    }

    /** The running instance rows of a lab. */
    method RunningInstances(lab: LabId) returns (up: Instances)
      ensures up == T.UpRows(T.Rows(Contents(), lab))
    {
      var rows := T.Rows(Contents(), lab);
      up := map[];
      var left := rows.Keys;
      while left != {}
        invariant forall n :: n in left ==> n in rows
        invariant forall n :: n in up <==> n in rows && n !in left && rows[n].status == InstanceRunning
        invariant forall n :: n in up ==> up[n] == rows[n]
        decreases |left|
      {
        var n :| n in left;
        left := left - {n};
        if rows[n].status == InstanceRunning {
          up := up[n := rows[n]];
        }
      }
    }

    /** The instances a serving lab is routed to: never none, never more than the limit, and no row is left out. */
    method ServingInstances(ghost c: Config, lab: LabId) returns (up: Instances)
      requires Valid(c)
      ensures lab in sessions && sessions[lab].status.Up() ==>
        && up == T.Rows(Contents(), lab) && 1 <= |up|
        && (sessions[lab].scenario == Cluster ==> |up| <= c.quota.maxInstances)
    {
      up := RunningInstances(lab);
      if lab in sessions && sessions[lab].status.Up() {
        assert LabOk(c, Contents(), lab);
        P.UpRowsAll(T.Rows(Contents(), lab));
        assert |up| == |up.Keys|;
      }
    }

    static method BuildTopology(up: Instances, mode: Mode, input: ActionInput, q: Quota, inUse: nat) returns (built: T.Built)
      requires T.ValidInput(input)
      ensures built == T.BuildTopology(up, mode, input, q, inUse)
    {
      var previous := T.WeightsOf(up);
      match input.action
      case AddInstance =>
        if |up| >= q.maxInstances {
          return T.NotBuilt(MaxInstanceLimit);
        }
        if inUse + 1 > q.maxContainers {
          return T.NotBuilt(CapacityExceeded);
        }
        var name := NextInstanceName(up.Keys, q.maxInstances);
        return T.Built(TopologyPayload(input, name, 100, 0, previous[name := 100], previous));
      case SetWeights =>
        if mode != Fixed {
          return T.NotBuilt(ActionNotAllowed);
        }
        var servers := ValidateWeights(up.Keys, input.weights);
        if servers == None {
          return T.NotBuilt(WeightInvalid);
        }
        return T.Built(TopologyPayload(input, "", 0, 0, servers.value, previous));
      case RemoveInstance =>
        var target := input.target.value;
        if |up| <= 1 {
          return T.NotBuilt(MinInstanceLimit);
        }
        if target !in up {
          return T.NotBuilt(InstanceNotFound);
        }
        return T.Built(TopologyPayload(input, target, 0, 0, previous - {target}, previous));
      case SetPerformance =>
        var target := input.target.value;
        if target !in up {
          return T.NotBuilt(InstanceNotFound);
        }
        return T.Built(TopologyPayload(input, target, input.performance.value, up[target].performance, previous, previous));
      case SetMode =>
        return T.Built(TopologyPayload(input, "", 0, 0, map[], previous));
      case _ =>
        return T.NotBuilt(ActionNotAllowed);
    }

    method EnqueueCache(user: UserId, lab: LabId, input: ActionInput, now: Time) returns (reply: Reply)
      requires T.ValidInput(input)
      modifies this
      ensures (Contents(), reply) == T.EnqueueCache(old(Contents()), user, lab, input, now)
    {
      var id := input.op;
      if id in ops {
        var o := ops[id];
        if o.lab != lab || o.requester != user || !o.payload.CachePayload? || o.payload.input != input {
          return Refused(OperationConflict);
        }
        return Existing(id, o);
      }
      if lab !in sessions {
        return Refused(NotFound);
      }
      var row := sessions[lab];
      if row.user != user {
        return Refused(NotOwned);
      }
      if row.status != Running {
        return Refused(NotRunning);
      }
      if row.scenario != MultiLevelCache {
        return Refused(ActionNotAllowed);
      }
      if input.target.Some? && input.target.value !in T.UpRows(T.Rows(Contents(), lab)) {
        return Refused(InstanceNotFound);
      }
      if T.LabBusy(Contents(), lab) {
        return Refused(Busy);
      }
      Insert(id, lab, user, input.action, CachePayload(row.scenario, input), now);
      return Accepted(id);
    }

    method EnqueueAdjustment(ghost c: Config, user: UserId, lab: LabId, id: OpId, topology: Fingerprint, ws: seq<NameWeight>, now: Time)
      returns (reply: Reply)
      requires Valid(c)
      modifies this
      ensures Valid(c)
      ensures (Contents(), reply) == T.EnqueueAdjustment(old(Contents()), user, lab, id, topology, ws, now)
    {
      P.AdjustKeepsInv(c, Contents(), user, lab, id, topology, ws, now);
      if user == 0 || ws == [] || lab !in sessions {
        return Refused(Stale);
      }
      var row := sessions[lab];
      if row.user != user || row.scenario != Cluster || row.mode != Adaptive || !row.status.Up() {
        return Refused(Stale);
      }
      if T.LabBusy(Contents(), lab) {
        return Refused(Busy);
      }
      var rows := T.Rows(Contents(), lab);
      if T.TopologyPrint(rows) != topology {
        return Refused(Stale);
      }
      var servers := ValidateWeights(rows.Keys, ws);
      if servers == None {
        return Refused(Stale);
      }
      if servers.value == T.WeightsOf(rows) {
        return Refused(NoChange);
      }
      if id in ops {
        return Refused(DuplicateKey);
      }
      Insert(id, lab, user, ApplyAdaptive, AdaptivePayload(topology, servers.value, ws), now);
      return Accepted(id);
    }

    // ----- Lifecycle and leases -------------------------------------------------

    method AdvanceOne(c: Config, lab: LabId, now: Time) returns (reply: Reply)
      requires Valid(c)
      modifies this
      ensures Valid(c)
      ensures (Contents(), reply) == T.Advance(old(Contents()), lab, now, c.lifetime)
    {
      P.AdvanceKeepsInv(c, Contents(), lab, now);
      if lab !in sessions {
        return Unchanged;
      }
      var row := sessions[lab];
      if row.startedAt == None || row.lastActionAt == None {
        return Unchanged;
      }
      var before := Contents();
      match T.Evaluate(now, row.status, row.startedAt.value, row.lastActionAt.value, c.lifetime)
      case Keep =>
        return Unchanged;
      case Expire =>
        sessions := sessions[lab := row.(status := Expiring, updatedAt := now)];
        return Done;
      case Resume =>
        sessions := sessions[lab := row.(status := Running, updatedAt := now)];
        return Done;
      case Terminate(reason) =>
        if T.LabBusy(Contents(), lab) {
          return Unchanged;
        }
        if SystemExpire(lab) in ops {
          return Refused(DuplicateKey);
        }
        Insert(SystemExpire(lab), lab, row.user, DestroyLab, DestroyPayload(reason), now);
        if !sessions[lab].status.Up() {
          Rollback(before);
          return Refused(StateConflict);
        }
        sessions := sessions[lab := row.(status := Terminating, reason := Some(reason), updatedAt := now)];
        return Accepted(SystemExpire(lab));
    }

    /** Puts a lab in its place among labs already in order. */
    method Place(order: seq<LabId>, lab: LabId) returns (placed: seq<LabId>)
      requires L.InTurn(Contents(), order) && lab in sessions && lab !in order
      ensures L.InTurn(Contents(), placed) && forall l :: l in placed <==> l in order || l == lab
    {
      var p := 0;
      while p < |order| && L.Sooner(Contents(), order[p], lab)
        invariant 0 <= p <= |order|
        invariant forall i :: 0 <= i < p ==> L.Sooner(Contents(), order[i], lab)
      {
        p := p + 1;
      }
      L.PlacedInTurn(Contents(), order, lab, p);
      placed := order[..p] + [lab] + order[p..];
      assert order == order[..p] + order[p..];
    }

    /** The serving labs, least recently updated first. */
    method ListCandidates() returns (order: seq<LabId>)
      ensures L.Listing(Contents(), order)
    {
      order := [];
      var left := sessions.Keys;
      while left != {}
        invariant forall l :: l in left ==> l in sessions
        invariant L.InTurn(Contents(), order)
        invariant forall l :: l in order <==> l !in left && L.Candidate(Contents(), l)
        decreases |left|
      {
        var lab :| lab in left;
        if sessions[lab].status.Up() {
          order := Place(order, lab);
        }
        left := left - {lab};
      }
    }

    /** A whole pass: every candidate in its turn, until the first error. */
    method AdvanceAll(c: Config, now: Time) returns (order: seq<LabId>, stopped: Option<LabId>)
      requires Valid(c)
      modifies this
      ensures Valid(c) && L.Listing(old(Contents()), order)
      ensures (Contents(), stopped) == L.Pass(c, old(Contents()), order, L.Nothing(|order|), now)
    {
      order := ListCandidates();
      stopped := AdvanceInTurn(c, order, now);
    }

    method AdvanceInTurn(c: Config, order: seq<LabId>, now: Time) returns (stopped: Option<LabId>)
      requires Valid(c)
      modifies this
      ensures Valid(c)
      ensures (Contents(), stopped) == L.Pass(c, old(Contents()), order, L.Nothing(|order|), now)
    {
      ghost var result := L.Pass(c, Contents(), order, L.Nothing(|order|), now);
      for i := 0 to |order|
        invariant Valid(c)
        invariant result == L.Pass(c, Contents(), order[i..], L.Nothing(|order| - i), now)
      {
        L.PassUnfolds(c, Contents(), order, i, now);
        var reply := AdvanceOne(c, order[i], now);
        if reply.Refused? {
          return Some(order[i]);
        }
      }
      return None;
    }

    static predicate Older(a: Operation, b: Operation) {
      a.createdAt < b.createdAt || (a.createdAt == b.createdAt && a.row <= b.row)
    }

    /** The oldest claimable operation whose row no other transaction holds. */
    method OldestClaimable(now: Time, locked: set<OpId>) returns (oldest: Option<OpId>)
      ensures oldest == None ==> forall id :: id in ops && id !in locked ==> !T.Claimable(ops[id], now)
      ensures oldest.Some? ==>
        && oldest.value in ops && oldest.value !in locked && T.Claimable(ops[oldest.value], now)
        && (forall id :: id in ops && id !in locked && T.Claimable(ops[id], now) ==> Older(ops[oldest.value], ops[id]))
    {
      oldest := None;
      var left := ops.Keys - locked;
      while left != {}
        invariant left <= ops.Keys - locked
        invariant oldest.Some? ==> oldest.value in ops && oldest.value !in locked && T.Claimable(ops[oldest.value], now)
        invariant forall id :: id in ops && id !in locked && id !in left && T.Claimable(ops[id], now) ==>
          oldest.Some? && Older(ops[oldest.value], ops[id])
      {
        var id :| id in left;
        left := left - {id};
        if T.Claimable(ops[id], now) && (oldest == None || !Older(ops[oldest.value], ops[id])) {
          oldest := Some(id);
        }
      }
    }

    /** Leases the oldest claimable operation whose row no other transaction holds. */
    method Claim(ghost c: Config, owner: Owner, now: Time, lease: Time, locked: set<OpId>) returns (claimed: Option<OpId>)
      requires Valid(c)
      modifies this
      ensures Valid(c)
      ensures claimed == None ==> Contents() == old(Contents())
      ensures claimed == None ==> forall id :: id in old(ops) && id !in locked ==> !T.Claimable(old(ops)[id], now)
      ensures claimed.Some? ==>
        && claimed.value in old(ops) && claimed.value !in locked && T.Claimable(old(ops)[claimed.value], now)
        && (forall id :: id in old(ops) && id !in locked && T.Claimable(old(ops)[id], now) ==>
              Older(old(ops)[claimed.value], old(ops)[id]))
        && Contents() == T.Claim(old(Contents()), claimed.value, owner, now, lease).0
    {
      claimed := OldestClaimable(now, locked);
      if claimed.Some? {
        Lease(c, claimed.value, owner, now, lease);
      }
    }

    method Lease(ghost c: Config, id: OpId, owner: Owner, now: Time, lease: Time)
      requires Valid(c) && id in ops && T.Claimable(ops[id], now)
      modifies this
      ensures Valid(c) && Contents() == T.Claim(old(Contents()), id, owner, now, lease).0
    {
      P.LeaseStepsKeepInv(c, Contents(), id, owner, now, lease);
      var o := ops[id];
      ops := ops[id := o.(status := Claimed, owner := Some(owner), lease := lease, attempts := o.attempts + 1)];
    }

    method MarkRunning(ghost c: Config, id: OpId, owner: Owner, lease: Time) returns (reply: Reply)
      requires Valid(c)
      modifies this
      ensures Valid(c)
      ensures (Contents(), reply) == T.MarkRunning(old(Contents()), id, owner, lease)
    {
      P.LeaseStepsKeepInv(c, Contents(), id, owner, 0, lease);
      if id !in ops || ops[id].status != Claimed || ops[id].owner != Some(owner) {
        return Refused(LeaseLost);
      }
      ops := ops[id := ops[id].(status := Executing, lease := lease)];
      return Done;
    }

    // ----- Completion -----------------------------------------------------------

    /** The completion a worker issues, chosen by the action of the operation. With a trusted answer it commits for
        the lease holder of anything but a cache operation, and for a successful cache operation exactly while the
        lab is Running. */
    method Complete(ghost c: Config, id: OpId, owner: Owner, report: Report, now: Time) returns (reply: Reply)
      requires Valid(c)
      modifies this
      ensures (Contents(), reply) == Coupling.Complete(old(Contents()), id, owner, report, now)
      ensures Trusted(c, old(Contents()), CompleteEvent(id, owner, report, now)) ==>
        Valid(c) && (T.HoldsLease(old(Contents()), id, owner) ==> Promised(old(Contents()), id, report, reply))
    {
      if Trusted(c, Contents(), CompleteEvent(id, owner, report, now)) {
        P.CompleteKeepsInv(c, Contents(), id, owner, report, now);
        if T.HoldsLease(Contents(), id, owner) {
          CompletionGuarantees(c, Contents(), id, owner, report, now);
        }
      }
      reply := Dispatch(id, owner, report, now);
    }

    method Dispatch(id: OpId, owner: Owner, report: Report, now: Time) returns (reply: Reply)
      modifies this
      ensures (Contents(), reply) == Coupling.Complete(old(Contents()), id, owner, report, now)
    {
      if id !in ops {
        return Refused(LeaseLost);
      }
      var o := ops[id];
      if o.action == CreateLab && report.ProvisionReport? {
        reply := CompleteProvision(id, owner, CheckedProvision(o, report.provision), now);
      } else if o.action == ResetLab && report.ProvisionReport? {
        reply := CompleteReset(id, owner, CheckedProvision(o, report.provision), now);
      } else if o.action == DestroyLab && report.DestroyReport? {
        reply := CompleteDestroy(id, owner, report.destroyed, now);
      } else if o.action.Topology() && report.TopologyReport? {
        reply := CompleteTopology(id, owner, TopologyOutcome(o, report.instance, report.stale), now);
      } else if o.action.Cache() && report.CacheReport? {
        reply := CompleteCache(id, owner, report.redis, now);
      } else {
        return Unchanged;
      }
    }

    /** The guarded update of the operation row. */
    method CompleteRecord(id: OpId, owner: Owner, ok: bool) returns (matched: bool)
      modifies this
      ensures matched == T.HoldsLease(old(Contents()), id, owner)
      ensures Contents() == if matched then T.Finish(old(Contents()), id, ok) else old(Contents())
    {
      matched := T.HoldsLease(Contents(), id, owner);
      if matched {
        ops := ops[id := ops[id].(status := if ok then Succeeded else Rejected, owner := None, lease := 0)];
      }
    }

    /** Replaces the instance rows of a lab; stops at an incomplete result. */
    method PersistProvision(lab: LabId, r: ProvisionResult) returns (ok: bool)
      modifies this
      ensures ok == T.ProvisionComplete(lab, r)
      ensures ok ==> Contents() == T.SetRows(old(Contents()), lab, T.RowsOf(r.instances))
    {
      if r.lab != lab || !r.identified || r.instances == [] {
        return false;
      }
      var rows := WriteRows(r.instances);
      if rows == None {
        return false;
      }
      instances := instances[lab := rows.value];
      return true;
    }

    method CompleteProvision(id: OpId, owner: Owner, outcome: Outcome<ProvisionResult>, now: Time) returns (reply: Reply)
      modifies this
      ensures (Contents(), reply) == T.CompleteProvision(old(Contents()), id, owner, outcome, now)
    {
      if id !in ops {
        return Refused(LeaseLost);
      }
      var before, lab := Contents(), ops[id].lab;
      if outcome.Success? {
        var persisted := PersistProvision(lab, outcome.value);
        if !persisted {
          Rollback(before);
          return Refused(Incomplete);
        }
      }
      var matched := CompleteRecord(id, owner, outcome.Success?);
      if !matched {
        Rollback(before);
        return Refused(LeaseLost);
      }
      if lab !in sessions || sessions[lab].status != Preparing {
        Rollback(before);
        return Refused(StateConflict);
      }
      var row := sessions[lab];
      if outcome.Success? {
        var r := outcome.value;
        sessions := sessions[lab := row.(status := Running, redis := r.redis, redisRow := if r.redis then RedisReady else NoRedisRow,
                                         startedAt := Some(now), lastActionAt := Some(now), updatedAt := now)];
      } else {
        sessions := sessions[lab := row.(status := Failed, updatedAt := now)];
      }
      return Done;
    }

    method MarkInstances(lab: LabId, status: InstanceStatus)
      modifies this
      ensures Contents() == T.SetRows(old(Contents()), lab, T.MarkRows(T.Rows(old(Contents()), lab), status))
    {
      instances := instances[lab := T.MarkRows(T.Rows(Contents(), lab), status)];
    }

    method CompleteReset(id: OpId, owner: Owner, outcome: Outcome<ProvisionResult>, now: Time) returns (reply: Reply)
      modifies this
      ensures (Contents(), reply) == T.CompleteReset(old(Contents()), id, owner, outcome, now)
    {
      if id !in ops {
        return Refused(LeaseLost);
      }
      var before, lab := Contents(), ops[id].lab;
      if outcome.Success? {
        var persisted := PersistProvision(lab, outcome.value);
        if !persisted {
          Rollback(before);
          return Refused(Incomplete);
        }
      }
      var matched := CompleteRecord(id, owner, outcome.Success?);
      if !matched {
        Rollback(before);
        return Refused(LeaseLost);
      }
      if outcome.Failure? {
        MarkInstances(lab, InstanceUnknown);
      }
      if lab !in sessions || !sessions[lab].status.Up() {
        Rollback(before);
        return Refused(StateConflict);
      }
      var row := sessions[lab];
      if outcome.Success? {
        var r := outcome.value;
        sessions := sessions[lab := row.(status := Running, redis := r.redis, redisRow := if r.redis then RedisReady else NoRedisRow,
                                         lastActionAt := Some(now), updatedAt := now)];
      } else {
        sessions := sessions[lab := row.(status := Failed, redisRow := T.MarkRedis(row.redisRow, RedisUnknown), updatedAt := now)];
      }
      return Done;
    }

    method CompleteDestroy(id: OpId, owner: Owner, ok: bool, now: Time) returns (reply: Reply)
      modifies this
      ensures (Contents(), reply) == T.CompleteDestroy(old(Contents()), id, owner, ok, now)
    {
      var before := Contents();
      var matched := CompleteRecord(id, owner, ok);
      if !matched {
        return Refused(LeaseLost);
      }
      var lab := ops[id].lab;
      MarkInstances(lab, if ok then InstanceTerminated else InstanceUnknown);
      if lab !in sessions || sessions[lab].status != Terminating {
        Rollback(before);
        return Refused(StateConflict);
      }
      var row := sessions[lab];
      if ok {
        sessions := sessions[lab := row.(status := Terminated, terminatedAt := Some(now),
                                         redisRow := T.MarkRedis(row.redisRow, RedisDeleted),
                                         reason := if row.reason == None then Some(UserRequested) else row.reason, updatedAt := now)];
      } else {
        sessions := sessions[lab := row.(status := Failed, redisRow := T.MarkRedis(row.redisRow, RedisUnknown),
                                         reason := Some(DestroyFailed), updatedAt := now)];
      }
      return Done;
    }

    method PersistWeights(lab: LabId, ws: seq<NameWeight>) returns (ok: bool)
      modifies this
      ensures ok == (T.WeightMap(ws).Keys <= T.Rows(old(Contents()), lab).Keys)
      ensures ok ==> Contents() == T.SetRows(old(Contents()), lab, T.Reweighted(T.Rows(old(Contents()), lab), T.WeightMap(ws)))
    {
      var rows := WriteWeights(T.Rows(Contents(), lab), ws);
      if rows == None {
        return false;
      }
      instances := instances[lab := rows.value];
      return true;
    }

    /** The writes of one topology result; an error leaves the caller to roll back. */
    method WriteTopology(lab: LabId, action: Action, r: TopologyResult) returns (error: Option<Error>)
      requires lab in sessions
      modifies this
      ensures match T.ApplyTopology(old(sessions)[lab], T.Rows(old(Contents()), lab), action, r)
        case NotApplied(e) => error == Some(e)
        case Applied(rows, mode) =>
          error == None && Contents() == T.SetRows(T.SetSession(old(Contents()), lab, old(sessions)[lab].(mode := mode)), lab, rows)
    {
      var row, rows := sessions[lab], T.Rows(Contents(), lab);
      assert sessions[lab := row] == sessions;
      if action == SetWeights || (action == ApplyAdaptive && !r.skipped) {
        if r.weights == [] {
          return Some(Incomplete);
        }
        var ok := PersistWeights(lab, r.weights);
        return if ok then None else Some(StateConflict);
      }
      error := None;
      match action
      case AddInstance =>
        if r.instance == None || !T.InstanceComplete(r.instance.value) {
          return Some(Incomplete);
        }
        if r.instance.value.name in rows {
          return Some(DuplicateKey);
        }
        instances := instances[lab := rows[r.instance.value.name := T.InstanceRow(r.instance.value).(status := InstanceRunning)]];
      case RemoveInstance =>
        if r.removed == None {
          return Some(Incomplete);
        }
        if r.removed.value !in rows {
          return Some(StateConflict);
        }
        var left := map n | n in rows && n != r.removed.value :: rows[n];
        assert left == rows - {r.removed.value};
        instances := instances[lab := left];
      case SetPerformance =>
        error := Resize(lab, r.instance);
      case SetMode =>
        if r.mode == None {
          return Some(Incomplete);
        }
        if !row.status.Up() {
          return Some(StateConflict);
        }
        instances := instances[lab := rows];
        sessions := sessions[lab := row.(mode := r.mode.value)];
      case ApplyAdaptive =>
        instances := instances[lab := rows];
      case _ =>
        return Some(Incomplete);
    }

    /** Updates the row of a resized instance. */
    method Resize(lab: LabId, reported: Option<ProvisionedInstance>) returns (error: Option<Error>)
      requires lab in sessions
      modifies this`instances
      ensures match T.ApplyTopology(sessions[lab], T.Rows(old(Contents()), lab), SetPerformance, NoResult.(instance := reported))
        case NotApplied(e) => error == Some(e)
        case Applied(rows, mode) => error == None && instances == old(instances)[lab := rows]
    {
      if reported == None {
        return Some(Incomplete);
      }
      var i, rows := reported.value, T.Rows(Contents(), lab);
      if i.name == "" || i.container == "" || i.performance <= 0 || i.speed <= 0 || i.maxLoad <= 0 {
        return Some(Incomplete);
      }
      if i.name !in rows {
        return Some(StateConflict);
      }
      var row := rows[i.name];
      row := row.(container := Some(i.container), status := InstanceRunning, cpu := i.cpu, performance := i.performance, speed := i.speed);
      instances := instances[lab := rows[i.name := row]];
      return None;
    }

    method CompleteTopology(id: OpId, owner: Owner, outcome: Outcome<TopologyResult>, now: Time) returns (reply: Reply)
      modifies this
      ensures (Contents(), reply) == T.CompleteTopology(old(Contents()), id, owner, outcome, now)
    {
      if id !in ops {
        return Refused(LeaseLost);
      }
      var before, lab, action := Contents(), ops[id].lab, ops[id].action;
      if outcome.Success? {
        if lab !in sessions {
          return Refused(StateConflict);
        }
        var error := WriteTopology(lab, action, outcome.value);
        if error.Some? {
          Rollback(before);
          return Refused(error.value);
        }
      }
      var matched := CompleteRecord(id, owner, outcome.Success?);
      if !matched {
        Rollback(before);
        return Refused(LeaseLost);
      }
      if outcome.Success? && action != ApplyAdaptive {
        var row := sessions[lab];
        if !row.status.Up() {
          Rollback(before);
          return Refused(StateConflict);
        }
        sessions := sessions[lab := row.(status := Running, lastActionAt := Some(now), updatedAt := now)];
        assert sessions == before.sessions[lab := sessions[lab]];
      }
      assert lab in before.sessions ==> before.sessions[lab := before.sessions[lab]] == before.sessions;
      return Done;
    }

    method CompleteCache(id: OpId, owner: Owner, outcome: Outcome<bool>, now: Time) returns (reply: Reply)
      modifies this
      ensures (Contents(), reply) == T.CompleteCache(old(Contents()), id, owner, outcome, now)
    {
      if id !in ops {
        return Refused(LeaseLost);
      }
      var before, lab, action := Contents(), ops[id].lab, ops[id].action;
      if outcome.Success? && action == AddRedis && !outcome.value {
        return Refused(Incomplete);
      }
      if outcome.Success? && lab in sessions {
        var row := sessions[lab];
        if action == RemoveRedis {
          sessions := sessions[lab := row.(redisRow := T.MarkRedis(row.redisRow, RedisDeleted))];
        } else if action == AddRedis {
          sessions := sessions[lab := row.(redisRow := RedisReady)];
        }
      }
      var matched := CompleteRecord(id, owner, outcome.Success?);
      if !matched {
        Rollback(before);
        return Refused(LeaseLost);
      }
      if outcome.Success? {
        if lab !in sessions || sessions[lab].status != Running {
          Rollback(before);
          return Refused(StateConflict);
        }
        var row := sessions[lab];
        var enabled := if action == AddRedis then true else if action == RemoveRedis then false else row.redis;
        sessions := sessions[lab := row.(redis := enabled, lastActionAt := Some(now), updatedAt := now)];
        assert sessions == before.sessions[lab := sessions[lab]];
      }
      return Done;
    }

    /** Re-validation of an adjustment; with its own fingerprint an adjustment in flight always passes. */
    method ValidateAdaptive(ghost c: Config, id: OpId, topology: Fingerprint) returns (valid: bool)
      requires Valid(c)
      ensures valid == T.ValidateAdaptive(Contents(), id, topology)
      ensures id in ops && ops[id].status.InFlight() && ops[id].action == ApplyAdaptive ==>
        ops[id].payload.AdaptivePayload? && (topology == ops[id].payload.fingerprint ==> valid)
    {
      if id in ops && ops[id].status.InFlight() {
        G.OperationFits(c, Contents(), id);
      }
      if id !in ops || ops[id].action != ApplyAdaptive || ops[id].lab !in sessions {
        return false;
      }
      var row := sessions[ops[id].lab];
      if row.scenario != Cluster || row.mode != Adaptive || !row.status.Up() {
        return false;
      }
      return T.TopologyPrint(T.Rows(Contents(), ops[id].lab)) == topology;
    }
  }
}
