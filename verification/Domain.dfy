/**
 Rows and values of the lab control plane: lab sessions, their application
 instances, and the persistent operations that change them.
 */
module Domain {

  datatype Option<+T> = None | Some(value: T)

  type LabId = string
  type UserId = nat
  type Name = string
  type Owner = string
  type Time = int

  /** Operation ids are chosen by callers, except the id the lifecycle scheduler
      derives from a lab id; the digest it uses is taken to be injective. */
  datatype OpId = Chosen(text: string) | SystemExpire(lab: LabId)

  datatype LabStatus = Preparing | Running | Expiring | Failed | Terminating | Terminated {
    /** Counts toward the single-active-lab rule. */
    predicate Active() {
      Preparing? || Running? || Expiring? || Terminating?
    }

    /** Holds, or is about to hold, a usable environment. */
    predicate Live() {
      Preparing? || Running? || Expiring?
    }

    predicate Up() {
      Running? || Expiring?
    }
  }

  predicate CanTransition(from: LabStatus, to: LabStatus) {
    match from
    case Preparing => to == Running || to == Failed || to == Terminating
    case Running => to == Expiring || to == Failed || to == Terminating
    case Expiring => to == Running || to == Failed || to == Terminating
    case Failed => to == Terminating
    case Terminating => to == Failed || to == Terminated
    case Terminated => false
  }

  /** A scenario also names its own template, so template ids are scenarios here. */
  datatype Scenario = DataSeparation | Cluster | MultiLevelCache {
    function InitialInstances(): nat {
      if MultiLevelCache? then 3 else 1
    }

    function Containers(): nat {
      if MultiLevelCache? then 4 else 1
    }
  }

  datatype Mode = Fixed | Adaptive

  datatype Reason = UserRequested | IdleTimeout | MaximumDuration | DestroyFailed

  /** The persisted row of the optional per-lab Redis container. */
  datatype RedisRow = NoRedisRow | RedisReady | RedisDeleted | RedisUnknown

  datatype Session = Session(
    user: UserId,
    course: nat,
    scenario: Scenario,
    status: LabStatus,
    mode: Mode,
    redis: bool,
    redisRow: RedisRow,
    startedAt: Option<Time>,
    lastActionAt: Option<Time>,
    terminatedAt: Option<Time>,
    reason: Option<Reason>,
    updatedAt: Time)

  datatype InstanceStatus = InstanceRunning | InstanceUnknown | InstanceTerminated | Reported(text: string)

  datatype Instance = Instance(
    container: Option<string>,
    status: InstanceStatus,
    cpu: real,
    memory: int,
    performance: int,
    speed: int,
    maxLoad: int,
    weight: int)

  type Instances = map<Name, Instance>

  /** Upstream servers: instance name to Nginx weight. */
  type Servers = map<Name, int>

  datatype NameWeight = NameWeight(name: Name, weight: int)

  datatype Action =
    | CreateLab | ResetLab | DestroyLab
    | AddInstance | RemoveInstance | SetPerformance | SetWeights | SetMode
    | ApplyAdaptive
    | RemoveL1 | AddL1 | RemoveRedis | AddRedis
  {
    predicate Cache() {
      RemoveL1? || AddL1? || RemoveRedis? || AddRedis?
    }

    predicate Topology() {
      AddInstance? || RemoveInstance? || SetPerformance? || SetWeights? || SetMode? || ApplyAdaptive?
    }
  }

  datatype ActionInput = ActionInput(
    op: OpId,
    action: Action,
    target: Option<Name>,
    performance: Option<int>,
    weights: seq<NameWeight>,
    mode: Option<Mode>)

  /** What a topology fingerprint identifies: the fields of every instance row. */
  datatype Print = Print(container: Option<string>, status: InstanceStatus, speed: int, maxLoad: int, weight: int)
  type Fingerprint = map<Name, Print>

  datatype Payload =
    | LabPayload(template: Scenario)
    | DestroyPayload(reason: Reason)
    | TopologyPayload(
        input: ActionInput,
        name: Name,
        performance: int,
        previousPerformance: int,
        servers: Servers,
        previous: Servers)
    | CachePayload(template: Scenario, input: ActionInput)
    | AdaptivePayload(fingerprint: Fingerprint, servers: Servers, weights: seq<NameWeight>)

  datatype OpStatus = Pending | Claimed | Executing | Compensating | Succeeded | Rejected {
    /** The statuses every enqueue path treats as "an operation is in progress". */
    predicate InFlight() {
      Pending? || Claimed? || Executing? || Compensating?
    }
  }

  datatype Operation = Operation(
    row: nat,
    lab: LabId,
    requester: UserId,
    action: Action,
    payload: Payload,
    status: OpStatus,
    owner: Option<Owner>,
    lease: Time,
    attempts: nat,
    createdAt: Time)

  /** The three tables, with the next auto-increment operation row. */
  datatype State = State(
    sessions: map<LabId, Session>,
    instances: map<LabId, Instances>,
    ops: map<OpId, Operation>,
    nextRow: nat)

  datatype Quota = Quota(maxActiveLabs: int, maxContainers: int, maxInstances: int) {
    predicate Valid() {
      maxActiveLabs > 0 && maxContainers > 0 && maxInstances > 0
    }
  }

  datatype Lifetime = Lifetime(idle: int, maximum: int, lead: int) {
    predicate Valid() {
      idle > 0 && maximum > 0 && lead > 0 && lead < idle && lead < maximum
    }
  }

  datatype Error =
    | OperationConflict | AlreadyActive | CourseNotFound | LabUnavailable | CapacityExceeded
    | InstanceLimit | QuotaInvalid | NotFound | NotOwned | NotRunning | InvalidRequest | Busy
    | StateConflict | ActionNotAllowed | MaxInstanceLimit | MinInstanceLimit | InstanceNotFound
    | WeightInvalid | Stale | NoChange | LeaseLost | NoPending | Incomplete | DuplicateKey

  datatype Reply =
    | Done
    | Accepted(id: OpId)
    | Existing(id: OpId, operation: Operation)
    | Refused(error: Error)
    | Unchanged

  datatype CourseLookup = CourseMissing | CourseClosed | CourseOffers(scenario: Scenario)

  /** One application server as the orchestrator reports it. */
  datatype ProvisionedInstance = ProvisionedInstance(
    name: Name,
    container: string,
    containerName: string,
    status: Option<InstanceStatus>,
    cpu: real,
    memory: int,
    performance: int,
    speed: int,
    maxLoad: int,
    weight: int)

  /** `identified` says that the database, user and network fields are all present. */
  datatype ProvisionResult = ProvisionResult(
    lab: LabId,
    template: Scenario,
    identified: bool,
    instances: seq<ProvisionedInstance>,
    redis: bool)

  datatype TopologyResult = TopologyResult(
    instance: Option<ProvisionedInstance>,
    removed: Option<Name>,
    weights: seq<NameWeight>,
    mode: Option<Mode>,
    skipped: bool)

  datatype Outcome<+T> = Success(value: T) | Failure
}
