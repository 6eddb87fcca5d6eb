/**
 Every control-plane transaction as a function from the tables before it to the
 tables after it and the caller's reply. A refused transaction is rolled back,
 so it returns the tables it was given.
 */
module Transactions {
  import opened Domain
  import opened Naming

  // ----- Rows -------------------------------------------------------------

  predicate OpInFlight(s: State, id: OpId, lab: LabId) {
    id in s.ops && s.ops[id].lab == lab && s.ops[id].status.InFlight()
  }

  predicate LabBusy(s: State, lab: LabId) {
    exists id :: id in s.ops && OpInFlight(s, id, lab)
  }

  function Enqueue(s: State, id: OpId, lab: LabId, user: UserId, action: Action, payload: Payload, now: Time): State {
    s.(ops := s.ops[id := Operation(s.nextRow, lab, user, action, payload, Pending, None, 0, 0, now)],
       nextRow := s.nextRow + 1)
  }

  function SetSession(s: State, lab: LabId, row: Session): State {
    s.(sessions := s.sessions[lab := row])
  }

  function Rows(s: State, lab: LabId): Instances {
    if lab in s.instances then s.instances[lab] else map[]
  }

  function SetRows(s: State, lab: LabId, rows: Instances): State {
    s.(instances := s.instances[lab := rows])
  }

  function UpRows(rows: Instances): Instances {
    map n | n in rows && rows[n].status == InstanceRunning :: rows[n]
  }

  function WeightsOf(rows: Instances): Servers {
    map n | n in rows :: rows[n].weight
  }

  function TopologyPrint(rows: Instances): Fingerprint {
    map n | n in rows :: Print(rows[n].container, rows[n].status, rows[n].speed, rows[n].maxLoad, rows[n].weight)
  }

  /** Weights by name; a repeated name keeps its last weight. */
  function WeightMap(ws: seq<NameWeight>): (m: Servers)
    ensures forall n :: n in m <==> exists i :: 0 <= i < |ws| && ws[i].name == n
  {
    if ws == [] then map[]
    else
      var m := WeightMap(ws[..|ws| - 1]);
      m[ws[|ws| - 1].name := ws[|ws| - 1].weight]
  }

  /** One weight in 1..100 for each of the given names and no other. */
  predicate ValidWeights(names: set<Name>, ws: seq<NameWeight>) {
    && |ws| == |names|
    && (forall i :: 0 <= i < |ws| ==> 1 <= ws[i].weight <= 100)
    && (forall i, j :: 0 <= i < j < |ws| ==> ws[i].name != ws[j].name)
    && (forall n :: n in names ==> n in WeightMap(ws))
  }

  // ----- Admission --------------------------------------------------------

  function ActiveLabs(s: State): set<LabId> {
    set lab | lab in s.sessions && s.sessions[lab].status.Active()
  }

  predicate UserActive(s: State, user: UserId) {
    exists lab :: lab in ActiveLabs(s) && s.sessions[lab].user == user
  }

  function CacheLabs(s: State, labs: set<LabId>): set<LabId> {
    set lab | lab in labs && lab in s.sessions && s.sessions[lab].scenario == MultiLevelCache
  }

  /** Containers reserved for a set of labs: four for a cache lab, one for any other. */
  function Reserved(s: State, labs: set<LabId>): nat {
    |labs| + 3 * |CacheLabs(s, labs)|
  }

  function AdmitCreate(q: Quota, active: int, containers: int, sc: Scenario): Option<Error> {
    if !q.Valid() then Some(QuotaInvalid)
    else if sc.InitialInstances() <= 0 || sc.InitialInstances() > q.maxInstances then Some(InstanceLimit)
    else if sc.Containers() < sc.InitialInstances() then Some(CapacityExceeded)
    else if active + 1 > q.maxActiveLabs || containers + sc.Containers() > q.maxContainers then Some(CapacityExceeded)
    else None
  }

  /** Persisted temporary containers: instances not terminated, and Redis rows not deleted. */
  function ContainersInUse(s: State): nat {
    |InstancesInUse(s)| + |RedisInUse(s)|
  }

  function InstancesInUse(s: State): set<(LabId, Name)> {
    set lab, n | lab in s.instances && n in s.instances[lab] && s.instances[lab][n].status != InstanceTerminated :: (lab, n)
  }

  function RedisInUse(s: State): set<LabId> {
    set lab | lab in s.sessions && (s.sessions[lab].redisRow == RedisReady || s.sessions[lab].redisRow == RedisUnknown)
  }

  // ----- Enqueueing -------------------------------------------------------

  function Create(s: State, q: Quota, user: UserId, course: nat, lookup: CourseLookup,
                  id: OpId, lab: LabId, now: Time): (State, Reply)
  {
    if id in s.ops then
      var o := s.ops[id];
      if o.requester != user || o.action != CreateLab || o.lab !in s.sessions || s.sessions[o.lab].course != course
      then (s, Refused(OperationConflict))
      else (s, Existing(id, o))
    else
      match lookup
      case CourseMissing => (s, Refused(CourseNotFound))
      case CourseClosed => (s, Refused(LabUnavailable))
      case CourseOffers(sc) =>
        if UserActive(s, user) then (s, Refused(AlreadyActive))
        else
          var active := ActiveLabs(s);
          var refusal := AdmitCreate(q, |active|, Reserved(s, active), sc);
          if refusal.Some? then (s, Refused(refusal.value))
          else if lab in s.sessions then (s, Refused(OperationConflict))
          else
            var row := Session(user, course, sc, Preparing, Fixed, false, NoRedisRow, None, None, None, None, now);
            (Enqueue(SetSession(s, lab, row), id, lab, user, CreateLab, LabPayload(sc), now), Accepted(id))
  }

  function Resubmitted(s: State, id: OpId, user: UserId, lab: LabId, action: Action): (State, Reply)
    requires id in s.ops
  {
    var o := s.ops[id];
    if o.lab != lab || o.requester != user || o.action != action then (s, Refused(OperationConflict))
    else (s, Existing(id, o))
  }

  function EnqueueAction(s: State, user: UserId, lab: LabId, id: OpId, action: Action, reason: Option<Reason>,
                         now: Time): (State, Reply)
  {
    if id in s.ops then Resubmitted(s, id, user, lab, action)
    else if lab !in s.sessions then (s, Refused(NotFound))
    else
      var row := s.sessions[lab];
      if row.user != user then (s, Refused(NotOwned))
      else if action != ResetLab && action != DestroyLab then (s, Refused(InvalidRequest))
      else if action == ResetLab && !row.status.Up() then (s, Refused(NotRunning))
      else if action == DestroyLab && !(row.status.Live() || row.status == Failed) then (s, Refused(NotRunning))
      else if LabBusy(s, lab) then (s, Refused(Busy))
      else if action == ResetLab then
        (Enqueue(s, id, lab, user, ResetLab, LabPayload(row.scenario), now), Accepted(id))
      else
        var why := if reason.Some? && reason.value != DestroyFailed then reason.value else UserRequested;
        var s' := SetSession(s, lab, row.(status := Terminating, reason := Some(why), updatedAt := now));
        (Enqueue(s', id, lab, user, DestroyLab, DestroyPayload(why), now), Accepted(id))
  }

  predicate ValidInput(input: ActionInput) {
    match input.action
    case AddInstance => input.target == None && input.performance == None && input.weights == [] && input.mode == None
    case RemoveInstance =>
      input.target.Some? && input.target.value != "" && input.performance == None && input.weights == [] && input.mode == None
    case SetPerformance =>
      && input.target.Some? && input.target.value != ""
      && input.performance.Some? && 20 <= input.performance.value <= 100
      && input.weights == [] && input.mode == None
    case SetWeights => input.target == None && input.performance == None && input.weights != [] && input.mode == None
    case SetMode => input.target == None && input.performance == None && input.weights == [] && input.mode.Some?
    case RemoveL1 =>
      input.target.Some? && input.target.value != "" && input.performance == None && input.weights == [] && input.mode == None
    case AddL1 =>
      input.target.Some? && input.target.value != "" && input.performance == None && input.weights == [] && input.mode == None
    case RemoveRedis => input.target == None && input.performance == None && input.weights == [] && input.mode == None
    case AddRedis => input.target == None && input.performance == None && input.weights == [] && input.mode == None
    case _ => false
  }

  datatype Built = Built(payload: Payload) | NotBuilt(error: Error)

  /** The payload of one topology action over the running instances `up` of a lab. */
  function BuildTopology(up: Instances, mode: Mode, input: ActionInput, q: Quota, inUse: nat): Built
    requires ValidInput(input)
  {
    var previous := WeightsOf(up);
    match input.action
    case AddInstance =>
      if |up| >= q.maxInstances then NotBuilt(MaxInstanceLimit)
      else if inUse + 1 > q.maxContainers then NotBuilt(CapacityExceeded)
      else
        var found := NextName(up.Keys, 1, q.maxInstances);
        var name := if found.Some? then found.value else "";
        Built(TopologyPayload(input, name, 100, 0, previous[name := 100], previous))
    case RemoveInstance =>
      if |up| <= 1 then NotBuilt(MinInstanceLimit)
      else if input.target.value !in up then NotBuilt(InstanceNotFound)
      else Built(TopologyPayload(input, input.target.value, 0, 0, previous - {input.target.value}, previous))
    case SetPerformance =>
      if input.target.value !in up then NotBuilt(InstanceNotFound)
      else Built(TopologyPayload(input, input.target.value, input.performance.value,
                                 up[input.target.value].performance, previous, previous))
    case SetWeights =>
      if mode != Fixed then NotBuilt(ActionNotAllowed)
      else if !ValidWeights(up.Keys, input.weights) then NotBuilt(WeightInvalid)
      else Built(TopologyPayload(input, "", 0, 0, WeightMap(input.weights), previous))
    case SetMode => Built(TopologyPayload(input, "", 0, 0, map[], previous))
    case _ => NotBuilt(ActionNotAllowed)
  }

  function EnqueueTopology(s: State, q: Quota, user: UserId, lab: LabId, input: ActionInput, now: Time): (State, Reply)
    requires ValidInput(input)
  {
    var id := input.op;
    if id in s.ops then
      if s.ops[id].payload.TopologyPayload? && s.ops[id].payload.input == input
      then Resubmitted(s, id, user, lab, input.action)
      else (s, Refused(OperationConflict))
    else if lab !in s.sessions then (s, Refused(NotFound))
    else
      var row := s.sessions[lab];
      if row.user != user then (s, Refused(NotOwned))
      else if !row.status.Up() then (s, Refused(NotRunning))
      else if row.scenario != Cluster then (s, Refused(ActionNotAllowed))
      else if LabBusy(s, lab) then (s, Refused(Busy))
      else
        match BuildTopology(UpRows(Rows(s, lab)), row.mode, input, q, ContainersInUse(s))
        case NotBuilt(error) => (s, Refused(error))
        case Built(payload) => (Enqueue(s, id, lab, user, input.action, payload, now), Accepted(id))
  }

  function EnqueueCache(s: State, user: UserId, lab: LabId, input: ActionInput, now: Time): (State, Reply)
    requires ValidInput(input)
  {
    var id := input.op;
    if id in s.ops then
      if s.ops[id].lab == lab && s.ops[id].requester == user && s.ops[id].payload.CachePayload? && s.ops[id].payload.input == input
      then (s, Existing(id, s.ops[id]))
      else (s, Refused(OperationConflict))
    else if lab !in s.sessions then (s, Refused(NotFound))
    else
      var row := s.sessions[lab];
      if row.user != user then (s, Refused(NotOwned))
      else if row.status != Running then (s, Refused(NotRunning))
      else if row.scenario != MultiLevelCache then (s, Refused(ActionNotAllowed))
      else if input.target.Some? && input.target.value !in UpRows(Rows(s, lab)) then (s, Refused(InstanceNotFound))
      else if LabBusy(s, lab) then (s, Refused(Busy))
      else (Enqueue(s, id, lab, user, input.action, CachePayload(row.scenario, input), now), Accepted(id))
  }

  /** The service entry point for every learner action. */
  function SubmitAction(s: State, q: Quota, user: UserId, lab: LabId, input: ActionInput, now: Time): (State, Reply) {
    if !ValidInput(input) then (s, Refused(InvalidRequest))
    else if input.action.Cache() then EnqueueCache(s, user, lab, input, now)
    else EnqueueTopology(s, q, user, lab, input, now)
  }

  function EnqueueAdjustment(s: State, user: UserId, lab: LabId, id: OpId, topology: Fingerprint, ws: seq<NameWeight>,
                             now: Time): (State, Reply)
  {
    if user == 0 || ws == [] || lab !in s.sessions then (s, Refused(Stale))
    else
      var row := s.sessions[lab];
      if row.user != user || row.scenario != Cluster || row.mode != Adaptive || !row.status.Up() then (s, Refused(Stale))
      else if LabBusy(s, lab) then (s, Refused(Busy))
      else if TopologyPrint(Rows(s, lab)) != topology then (s, Refused(Stale))
      else if !ValidWeights(Rows(s, lab).Keys, ws) then (s, Refused(Stale))
      else if WeightMap(ws) == WeightsOf(Rows(s, lab)) then (s, Refused(NoChange))
      else if id in s.ops then (s, Refused(DuplicateKey))
      else (Enqueue(s, id, lab, user, ApplyAdaptive, AdaptivePayload(topology, WeightMap(ws), ws), now), Accepted(id))
  }

  // ----- Lifecycle --------------------------------------------------------

  datatype Verdict = Keep | Expire | Resume | Terminate(reason: Reason)

  function Deadline(started: Time, lastAction: Time, c: Lifetime): Time {
    if started + c.maximum < lastAction + c.idle then started + c.maximum else lastAction + c.idle
  }

  function Evaluate(now: Time, status: LabStatus, started: Time, lastAction: Time, c: Lifetime): Verdict {
    var deadline := Deadline(started, lastAction, c);
    var reason := if started + c.maximum < lastAction + c.idle then MaximumDuration else IdleTimeout;
    if now >= deadline then Terminate(reason)
    else if now >= deadline - c.lead then (if status == Running then Expire else Keep)
    else if status == Expiring then Resume
    else Keep
  }

  /** One lab of one lifecycle pass. */
  function Advance(s: State, lab: LabId, now: Time, c: Lifetime): (State, Reply) {
    if lab !in s.sessions then (s, Unchanged)
    else
      var row := s.sessions[lab];
      if row.startedAt == None || row.lastActionAt == None then (s, Unchanged)
      else
        match Evaluate(now, row.status, row.startedAt.value, row.lastActionAt.value, c)
        case Keep => (s, Unchanged)
        case Expire => (SetSession(s, lab, row.(status := Expiring, updatedAt := now)), Done)
        case Resume => (SetSession(s, lab, row.(status := Running, updatedAt := now)), Done)
        case Terminate(reason) =>
          if LabBusy(s, lab) then (s, Unchanged)
          else if SystemExpire(lab) in s.ops then (s, Refused(DuplicateKey))
          else if !row.status.Up() then (s, Refused(StateConflict))
          else
            var s' := Enqueue(s, SystemExpire(lab), lab, row.user, DestroyLab, DestroyPayload(reason), now);
            (SetSession(s', lab, row.(status := Terminating, reason := Some(reason), updatedAt := now)), Accepted(SystemExpire(lab)))
  }

  // ----- Leases -----------------------------------------------------------

  predicate Claimable(o: Operation, now: Time) {
    o.status == Pending || ((o.status == Claimed || o.status == Executing) && o.lease <= now)
  }

  function Claim(s: State, id: OpId, owner: Owner, now: Time, lease: Time): (State, Reply) {
    if id !in s.ops || !Claimable(s.ops[id], now) then (s, Refused(NoPending))
    else
      var o := s.ops[id];
      (s.(ops := s.ops[id := o.(status := Claimed, owner := Some(owner), lease := lease, attempts := o.attempts + 1)]), Done)
  }

  function MarkRunning(s: State, id: OpId, owner: Owner, lease: Time): (State, Reply) {
    if id !in s.ops || s.ops[id].status != Claimed || s.ops[id].owner != Some(owner) then (s, Refused(LeaseLost))
    else (s.(ops := s.ops[id := s.ops[id].(status := Executing, lease := lease)]), Done)
  }

  predicate HoldsLease(s: State, id: OpId, owner: Owner) {
    id in s.ops && s.ops[id].status == Executing && s.ops[id].owner == Some(owner)
  }

  function Finish(s: State, id: OpId, ok: bool): State
    requires id in s.ops
  {
    s.(ops := s.ops[id := s.ops[id].(status := if ok then Succeeded else Rejected, owner := None, lease := 0)])
  }

  // ----- Completion -------------------------------------------------------

  predicate InstanceComplete(i: ProvisionedInstance) {
    i.name != "" && i.container != "" && i.memory > 0 && i.performance > 0 && i.speed > 0 && i.maxLoad > 0 && i.weight > 0
  }

  predicate ProvisionComplete(lab: LabId, r: ProvisionResult) {
    && r.lab == lab && r.identified && r.instances != []
    && forall i :: 0 <= i < |r.instances| ==> InstanceComplete(r.instances[i]) && r.instances[i].containerName != ""
  }

  function InstanceRow(i: ProvisionedInstance): Instance {
    Instance(Some(i.container), if i.status.Some? then i.status.value else InstanceRunning,
             i.cpu, i.memory, i.performance, i.speed, i.maxLoad, i.weight)
  }

  /** Rows written one by one, a repeated name overwriting the earlier row. */
  function RowsOf(instances: seq<ProvisionedInstance>): (rows: Instances)
    ensures forall n :: n in rows <==> exists i :: 0 <= i < |instances| && instances[i].name == n
  {
    if instances == [] then map[]
    else
      var last := instances[|instances| - 1];
      RowsOf(instances[..|instances| - 1])[last.name := InstanceRow(last)]
  }

  function MarkRows(rows: Instances, status: InstanceStatus): Instances {
    map n | n in rows :: rows[n].(status := status, container := None)
  }

  function MarkRedis(row: RedisRow, status: RedisRow): RedisRow {
    if row == NoRedisRow then NoRedisRow else status
  }

  function CompleteProvision(s: State, id: OpId, owner: Owner, outcome: Outcome<ProvisionResult>, now: Time): (State, Reply) {
    if id !in s.ops then (s, Refused(LeaseLost))
    else
      var lab := s.ops[id].lab;
      if outcome.Success? && !ProvisionComplete(lab, outcome.value) then (s, Refused(Incomplete))
      else if !HoldsLease(s, id, owner) then (s, Refused(LeaseLost))
      else if lab !in s.sessions || s.sessions[lab].status != Preparing then (s, Refused(StateConflict))
      else
        var row := s.sessions[lab];
        var s' := Finish(s, id, outcome.Success?);
        match outcome
        case Success(r) =>
          (SetSession(SetRows(s', lab, RowsOf(r.instances)), lab,
                      row.(status := Running, redis := r.redis, redisRow := if r.redis then RedisReady else NoRedisRow,
                           startedAt := Some(now), lastActionAt := Some(now), updatedAt := now)), Done)
        case Failure => (SetSession(s', lab, row.(status := Failed, updatedAt := now)), Done)
  }

  function CompleteReset(s: State, id: OpId, owner: Owner, outcome: Outcome<ProvisionResult>, now: Time): (State, Reply) {
    if id !in s.ops then (s, Refused(LeaseLost))
    else
      var lab := s.ops[id].lab;
      if outcome.Success? && !ProvisionComplete(lab, outcome.value) then (s, Refused(Incomplete))
      else if !HoldsLease(s, id, owner) then (s, Refused(LeaseLost))
      else if lab !in s.sessions || !s.sessions[lab].status.Up() then (s, Refused(StateConflict))
      else
        var row := s.sessions[lab];
        var s' := Finish(s, id, outcome.Success?);
        match outcome
        case Success(r) =>
          (SetSession(SetRows(s', lab, RowsOf(r.instances)), lab,
                      row.(status := Running, redis := r.redis, redisRow := if r.redis then RedisReady else NoRedisRow,
                           lastActionAt := Some(now), updatedAt := now)), Done)
        case Failure =>
          (SetSession(SetRows(s', lab, MarkRows(Rows(s, lab), InstanceUnknown)), lab,
                      row.(status := Failed, redisRow := MarkRedis(row.redisRow, RedisUnknown), updatedAt := now)), Done)
  }

  function CompleteDestroy(s: State, id: OpId, owner: Owner, ok: bool, now: Time): (State, Reply) {
    if !HoldsLease(s, id, owner) then (s, Refused(LeaseLost))
    else
      var lab := s.ops[id].lab;
      if lab !in s.sessions || s.sessions[lab].status != Terminating then (s, Refused(StateConflict))
      else
        var row := s.sessions[lab];
        var s' := Finish(s, id, ok);
        if ok then
          (SetSession(SetRows(s', lab, MarkRows(Rows(s, lab), InstanceTerminated)), lab,
                      row.(status := Terminated, terminatedAt := Some(now),
                           redisRow := MarkRedis(row.redisRow, RedisDeleted),
                           reason := if row.reason == None then Some(UserRequested) else row.reason, updatedAt := now)), Done)
        else
          (SetSession(SetRows(s', lab, MarkRows(Rows(s, lab), InstanceUnknown)), lab,
                      row.(status := Failed, redisRow := MarkRedis(row.redisRow, RedisUnknown),
                           reason := Some(DestroyFailed), updatedAt := now)), Done)
  }

  datatype Applied = Applied(rows: Instances, mode: Mode) | NotApplied(error: Error)

  /** Rows with the given weights, provided that every weighted name has a row. */
  function Reweighted(rows: Instances, weights: Servers): Instances {
    map n | n in rows :: if n in weights then rows[n].(weight := weights[n]) else rows[n]
  }

  /** What one successful topology result changes: instance rows and balancing mode. */
  function ApplyTopology(row: Session, rows: Instances, action: Action, r: TopologyResult): Applied {
    match action
    case AddInstance =>
      if r.instance == None || !InstanceComplete(r.instance.value) then NotApplied(Incomplete)
      else if r.instance.value.name in rows then NotApplied(DuplicateKey)
      else Applied(rows[r.instance.value.name := InstanceRow(r.instance.value).(status := InstanceRunning)], row.mode)
    case RemoveInstance =>
      if r.removed == None then NotApplied(Incomplete)
      else if r.removed.value !in rows then NotApplied(StateConflict)
      else Applied(rows - {r.removed.value}, row.mode)
    case SetPerformance =>
      if r.instance == None || r.instance.value.name == "" || r.instance.value.container == ""
         || r.instance.value.performance <= 0 || r.instance.value.speed <= 0 || r.instance.value.maxLoad <= 0
      then NotApplied(Incomplete)
      else if r.instance.value.name !in rows then NotApplied(StateConflict)
      else
        var i := r.instance.value;
        Applied(rows[i.name := rows[i.name].(container := Some(i.container), status := InstanceRunning, cpu := i.cpu,
                                             performance := i.performance, speed := i.speed)], row.mode)
    case SetMode =>
      if r.mode == None then NotApplied(Incomplete)
      else if !row.status.Up() then NotApplied(StateConflict)
      else Applied(rows, r.mode.value)
    case SetWeights => ApplyWeights(row, rows, r)
    case ApplyAdaptive => if r.skipped then Applied(rows, row.mode) else ApplyWeights(row, rows, r)
    case _ => NotApplied(Incomplete)
  }

  function ApplyWeights(row: Session, rows: Instances, r: TopologyResult): Applied {
    if r.weights == [] then NotApplied(Incomplete)
    else if !(WeightMap(r.weights).Keys <= rows.Keys) then NotApplied(StateConflict)
    else Applied(Reweighted(rows, WeightMap(r.weights)), row.mode)
  }

  function CompleteTopology(s: State, id: OpId, owner: Owner, outcome: Outcome<TopologyResult>, now: Time): (State, Reply) {
    if id !in s.ops then (s, Refused(LeaseLost))
    else
      var o := s.ops[id];
      match outcome
      case Failure => if HoldsLease(s, id, owner) then (Finish(s, id, false), Done) else (s, Refused(LeaseLost))
      case Success(r) =>
        if o.lab !in s.sessions then (s, Refused(StateConflict))
        else
          var row := s.sessions[o.lab];
          match ApplyTopology(row, Rows(s, o.lab), o.action, r)
          case NotApplied(error) => (s, Refused(error))
          case Applied(rows, mode) =>
            if !HoldsLease(s, id, owner) then (s, Refused(LeaseLost))
            else if o.action == ApplyAdaptive then (SetRows(Finish(s, id, true), o.lab, rows), Done)
            else if !row.status.Up() then (s, Refused(StateConflict))
            else
              (SetSession(SetRows(Finish(s, id, true), o.lab, rows), o.lab,
                          row.(status := Running, mode := mode, lastActionAt := Some(now), updatedAt := now)), Done)
  }

  /** `redis` says that a Redis container was reported. */
  function CompleteCache(s: State, id: OpId, owner: Owner, outcome: Outcome<bool>, now: Time): (State, Reply) {
    if id !in s.ops then (s, Refused(LeaseLost))
    else
      var o := s.ops[id];
      if outcome.Success? && o.action == AddRedis && !outcome.value then (s, Refused(Incomplete))
      else if !HoldsLease(s, id, owner) then (s, Refused(LeaseLost))
      else if outcome.Failure? then (Finish(s, id, false), Done)
      else if o.lab !in s.sessions || s.sessions[o.lab].status != Running then (s, Refused(StateConflict))
      else
        var row := s.sessions[o.lab];
        var enabled := if o.action == AddRedis then true else if o.action == RemoveRedis then false else row.redis;
        var redisRow := if o.action == AddRedis then RedisReady
                        else if o.action == RemoveRedis then MarkRedis(row.redisRow, RedisDeleted)
                        else row.redisRow;
        (SetSession(Finish(s, id, true), o.lab, row.(redis := enabled, redisRow := redisRow, lastActionAt := Some(now), updatedAt := now)), Done)
  }

  /** Whether an adaptive operation still matches the persisted topology. */
  predicate ValidateAdaptive(s: State, id: OpId, topology: Fingerprint) {
    && id in s.ops && s.ops[id].action == ApplyAdaptive
    && s.ops[id].lab in s.sessions
    && var row := s.sessions[s.ops[id].lab];
       row.scenario == Cluster && row.mode == Adaptive && row.status.Up()
       && TopologyPrint(Rows(s, s.ops[id].lab)) == topology
  }
}
