# Verified model of the lab platform

The platform runs hands-on labs. A learner starts a lab; the control plane records it as a session with
application instances and a queue of operations; workers lease operations, drive an orchestrator and
commit operation and lab together; a scheduler expires labs; an adaptive balancer moves routing weights;
application instances answer traffic from a three-level cache under a simulated load; the orchestrator
keeps one gateway fragment per lab and resolves container templates. This project models that logic in
Dafny and proves what it promises over all inputs, all runs and all interleavings.

The parts, by file:

- `Domain`, `Naming`, `Transactions`: the rows of the three shared tables and every transaction as a
  function from tables to tables and a reply.
- `Database`: the same transactions as an object whose methods write rows step by step, roll back, and keep the
  coupling invariant for their callers.
- `Coupling`, `CouplingProof`, `Effects`, `Guarantees`, `CacheConflict`: runs of transactions by any number of users, workers and
  clocks; the inductive invariant across operations, sessions and instances; what it means for workers.
- `Evolution`, `Leases`, `Lifecycles`, `Admission`, `ActiveSet`: lifecycle order, exactly-once effects, expiry, limits.
- `Replay`, `Requests`, `Queue`: what rows hold, told from the history of a lab and of an operation without the
  transactions; which requests are accepted.
- `Passes`, `PassRun`: whole passes of the lifecycle scheduler, which stop at the first error.
- `Capacity`, `CapacitySteps`, `CapacityLimit`, `CapacityRun`: the limit on temporary containers, and exactly when it holds.
- `Gateway`, `GatewayProof`, `LostLease`, `LostLeaseRun`: workers as sagas of orchestrator commands, agreement between
  gateway and database, and what becomes of it when a lease is lost and its worker stops.
- `Containers`: the containers behind the rows, and what failed operations strand.
- `Takeover`, `LateRoutes`, `LateRestoreRun`: workers that go on after losing their lease, any number at once, and exactly
  when the gateway stays in agreement.
- `ById`, `Weights`, `Algorithm`, `Metrics`, `Smoothing`, `Controller`, `Standing`, `Convergence`, `Balancer`: the adaptive balancer, as
  arithmetic, as state machines and as loops and objects.
- `Adjustments`, `ClosedLoop`: the balancer's controller in one loop with the control plane.
- `Lru`, `L1Store`, `CacheProcessor`, `CacheHits`, `LoadAllocator`: the runtime of an application instance.
- `NginxManager`, `Templates`: fragments of the gateway and inheritance of container templates.

Times are integers, floating-point numbers are exact reals. What the orchestrator, Redis, MySQL, the file system
and the gateway process answer is an input of each step; each theorem names what it assumes of them.

Where the code and its intent disagree the model follows the code. Each finding has a concrete run or input, and the
exact condition under which the code does keep the promise:

- A successful cache operation commits if and only if its lab is still Running (`CacheConflict.SuccessCanBeRefused`,
  `Guarantees.CacheSuccessCommitsIffRunning`); caught by the expiring window it stays in flight until it fails
  (`Lifecycles.ExpiringCacheLabIsStuck`).
- A caller may take the operation id the scheduler derives for a lab (`Lifecycles.ReservedIdIsAccepted`). The pass then
  stops at that lab, once overdue: a lab is terminated if and only if its deadline has come, its own id is free and no
  earlier candidate ends the pass (`PassRun.OverdueLabCanBeLeft`, `Passes.PassTerminatesIff`,
  `Passes.QuietPassTerminatesIff`); while such a lab is first, no lab expires (`Passes.BlockedHeadStopsExpiry`).
- The admission limits hold for the active set if and only if no failed lab is destroyed without room for it
  (`Admission.ActiveSetCanExceedLimits`, `ActiveSet.ActiveLimitsHoldIff`).
- The limit on temporary containers holds if and only if each accepted request counts what is in flight
  (`CapacityRun.LimitCanBeExceeded`, `CapacityLimit.LimitHoldsIff`).
- An added instance is routed with weight 100, which agrees with its row if and only if it was created with that weight
  (`GatewayProof.AdditionAgreesIffWeight100`).
- A lost lease can leave the gateway and the rows in disagreement. If the lost worker has stopped, they agree again if and
  only if the commands of the restarted operation succeed (`LostLeaseRun.LostLeaseCanDisagree`,
  `LostLease.RestartAgreesIff`). A lost worker that goes on can still route: they stay in agreement if and only if none is
  at a phase from which it may route another list than the one committed (`LateRestoreRun.LateRestoreCanDisagree`,
  `LateRoutes.LateAgreementIff`, `LateRoutes.CommittedAgreesIff`).
- An orchestrator that creates or resizes an instance but answers unusably strands it, since only a failed route is undone
  (`Containers.UnusableAnswerStrands`, `Containers.ContainersAgreeIff`).
- Orders are bounded by capacity over the time they span if their times are in order, which serialisation does not ensure
  (`LoadAllocator.ClockJumpsDrain`); for times in any order the bound by forward movement holds
  (`LoadAllocator.AcceptedWithinLoad`).

## Model

| member | source | states |
|---|---|---|
| `Guarantees.LabStatusSaysWhatRuns` | services/platform-api/internal/lab/repository.go:321-397 | in every reachable state a lab has at most one operation in flight; Preparing iff it is CREATE_LAB, Terminating iff it is DESTROY_LAB, any other only while Running or Expiring, none while Failed or Terminated |
| `Guarantees.ServingLabHasInstances` | services/platform-api/internal/lab/topology.go:173-197 | every reachable Running or Expiring lab has at least one instance row, all running and with a container, and a cluster lab at most MaxInstancesPerLab, although the limit is checked only when an action is enqueued |
| `Guarantees.LeaseHolderCommits` | services/platform-api/internal/operation/repository.go:120-434 | the lease holder's create, reset, destroy and topology completions always commit in a reachable state, whether the work succeeded or failed: no check made at enqueue time has lapsed |
| `Guarantees.CacheSuccessCommitsIffRunning` | services/platform-api/internal/operation/repository.go:436-508 | a successful cache completion commits if and only if the lab is still Running, is refused with a state conflict if and only if it is Expiring, and a refusal changes nothing |
| `CacheConflict.SuccessCanBeRefused` | services/platform-api/internal/operation/repository.go:484-503 | a concrete run in which the lease holder's successful cache operation is refused because the lab became Expiring meanwhile |
| `Lifecycles.ExpiringCacheLabIsStuck` | services/platform-api/internal/operation/repository.go:484-503 | while a cache operation is in flight on an Expiring lab, every event inside the lab's window leaves it in flight and the lab Expiring, except the operation's own failed completion |
| `Lifecycles.CaughtUntilFailed` | services/platform-api/internal/operation/repository.go:484-503 | over whole runs such an operation stays in flight on an Expiring lab until its own failed completion |
| `Guarantees.AdaptiveStaysValid` | services/platform-api/internal/operation/repository.go:647-712 | re-validation of an in-flight adaptive operation always succeeds in a reachable state |
| `Replay.TablesReplayTheLog` | services/platform-api/internal/operation/repository.go:120-508 | after every run, a lab's session row and each of its instance rows are, field by field, what the log of its accepted requests, advances and committed completions says: mode as last asked for, cpu, memory, performance, speed, load limit and weight as last reported or set, timestamps, reason and Redis state |
| `Replay.StepReplays` | services/platform-api/internal/operation/repository.go:510-644 | every transaction moves exactly the fields of one lab that its log entry names, and no other lab's |
| `Replay.ModeIsAsked` | services/platform-api/internal/operation/repository.go:596-613 | a committed change of mode sets the mode its operation asked for, and no other step changes an existing lab's mode |
| `Requests.AcceptedIff` | services/platform-api/internal/lab/topology.go:37-223 | a creation, reset, destruction, learner action, adjustment or expiry is accepted if and only if all its conditions on tables and request hold |
| `Requests.RefusalsSay` | services/platform-api/internal/lab/topology.go:37-223 | every refusal names a fact: each error code implies its meaning about tables and request |
| `Queue.RowsTellHistory` | services/platform-api/internal/operation/repository.go:26-117 | over any run an operation's row tells its place of arrival, its time, how often it was claimed, until when it is leased and whether what was committed for it worked |
| `Queue.ClaimedIffLeaseOver` | services/platform-api/internal/operation/repository.go:26-95 | leases do not overlap: a claim succeeds if and only if the operation arrived, has not ended and no lease granted for it still runs |
| `Queue.PlacesDiffer` | services/platform-api/internal/operation/repository.go:26-50 | no two operations have the same place in the queue |
| `CouplingProof.StepKeepsInv` | services/platform-api/internal/operation/repository.go:26-508 | every transaction keeps the invariant that couples operation status, action and payload with lab status and instance rows |
| `CouplingProof.ReachableInv` | services/platform-api/internal/operation/repository.go:26-508 | the coupling invariant holds after every run whose orchestrator answers carry the requested names, respect the instance limit and report provisioned instances as running |
| `CouplingProof.BuiltPayloadFits` | services/platform-api/internal/lab/topology.go:161-223 | a built topology payload fits the rows it was built from and the request: a free non-empty name or the requested target, the requested and the previous performance, the right previous and target server lists, valid weights |
| `CouplingProof.AppliedRowsOk` | services/platform-api/internal/operation/repository.go:510-618 | a result that answers its own operation applies cleanly and leaves between one and the maximum number of running rows |
| `CouplingProof.WeightsCover` | services/platform-api/internal/lab/topology.go:349-371 | a weight list that passes validation names exactly the lab's instances |
| `Effects.EnqueueEffect` | services/platform-api/internal/lab/repository.go:268-414 | each enqueueing transaction either adds exactly one fresh pending operation under its own id or leaves the operations table alone, and only lab creation adds a lab |
| `Leases.CommitsAtMostOnce` | services/platform-api/internal/operation/repository.go:714-745 | over any run, the number of committed completions of an operation is 1 if it is finished and 0 otherwise |
| `Leases.LeaseFollowsClaims` | services/platform-api/internal/operation/repository.go:26-117 | the owner recorded in a claimed or running operation is always the owner of its last successful claim |
| `Leases.StaleWorkerChangesNothing` | services/platform-api/internal/operation/repository.go:98-117 | a worker that is not the latest claimant changes neither operation nor lab by starting or completing |
| `Leases.ReusedIdChangesNothing` | services/platform-api/internal/lab/repository.go:288-320 | a request under an operation id already used changes nothing and returns the stored operation or a refusal |
| `Leases.RepeatedRequestReturnsSameOperation` | services/platform-api/internal/lab/repository.go:625-635 | an accepted request repeated at any later moment returns that same operation and changes nothing |
| `Evolution.StepFollowsLifecycle` | services/platform-api/internal/lab/status.go:44-65 | every step leaves a lab's status or changes it as CanTransition allows |
| `Evolution.RunEvolves` | services/platform-api/internal/operation/repository.go:151-173 | from any moment of a run to any later one operations keep their identity and final status, and lab rows their owner, scenario and start time |
| `Evolution.NeverRevived` | services/platform-api/internal/lab/status.go:44-65 | a lab that failed or began to terminate never serves again, and a start time never moves once set |
| `Lifecycles.OverdueLabTerminatesIffIdFree` | services/platform-api/internal/lifecycle/repository.go:90-207 | one lab's turn of a pass terminates a serving idle lab if and only if it was started the maximum duration ago or last active the idle time ago, and the scheduler's operation id for it is unused; the recorded reason is the maximum duration exactly where that ends strictly first |
| `Lifecycles.OverdueLabsTerminate` | services/platform-api/internal/lifecycle/repository.go:154-203 | in runs whose callers avoid the scheduler's ids, one lab's turn of a pass terminates a serving idle lab if and only if one of its two times has run out |
| `Passes.PassTerminatesIff` | services/platform-api/internal/lifecycle/repository.go:43-88 | whatever other transactions come between its turns, a pass terminates a candidate if and only if no earlier candidate's turn ended the pass (no longer serving, or overdue and idle with its id taken) and, at its own turn, it serves, is idle and overdue, and its id is free |
| `Passes.QuietPassTerminatesIff` | services/platform-api/internal/lifecycle/repository.go:43-88 | left alone, a pass terminates a candidate if and only if it is overdue and idle with its id free and no candidate before it, by last update and id, is overdue and idle with its id taken |
| `Passes.PassEnds` | services/platform-api/internal/lifecycle/repository.go:43-88 | after such a pass exactly the candidates it terminated are Terminating |
| `PassRun.OverdueLabCanBeLeft` | services/platform-api/internal/lifecycle/repository.go:80-88 | a concrete run after which one lab is overdue and idle with its id free, and the pass leaves it because an earlier lab's id is taken |
| `Passes.BlockedHeadStopsExpiry` | services/platform-api/internal/lifecycle/repository.go:43-88 | over any rounds of passes and other transactions, while an overdue idle lab with its id taken heads the order, the passes change nothing at all and the lab stays at the head: no lab is expired |
| `Lifecycles.ExpiryInsertedOnce` | services/platform-api/internal/lifecycle/repository.go:244-247 | the scheduler's operation of a lab is inserted at most once in any run |
| `Lifecycles.ReservedIdBlocksExpiry` | services/platform-api/internal/lifecycle/repository.go:178-190 | once a caller holds the scheduler's id of a lab, no later advance ever terminates that lab |
| `Lifecycles.ReservedIdIsAccepted` | services/platform-api/internal/lab/repository.go:288-397 | the reset of an owned, serving, idle lab is accepted under the scheduler's own id |
| `Lifecycles.ExpiringIffInWindow` | services/platform-api/internal/lifecycle/decision.go:20-51 | an advance marks a running lab Expiring if and only if neither time has run out and one of them is within the lead time of running out |
| `Lifecycles.ExpiringRevertsIff` | services/platform-api/internal/lifecycle/decision.go:20-51 | an Expiring lab is Running after a step if and only if an advance came before its window or an effective action of it, anything but an adaptive adjustment, was committed with success |
| `Lifecycles.RefreshesIff` | services/platform-api/internal/operation/repository.go:381-508 | an effective action is committed with success if and only if the lease is held, the report belongs to the operation and says that it worked and, for a cache action, the lab is Running |
| `Lifecycles.ExpiringNeverReverts` | services/platform-api/internal/lifecycle/decision.go:20-51 | over whole runs in which the clock does not go back and no effective action of the lab succeeds, whatever fails and whatever adaptive adjustments commit, an Expiring lab never becomes Running again |
| `Admission.LimitsHold` | services/platform-api/internal/lab/repository.go:87-139 | after every run each user has at most one lab that is Preparing, Running or Expiring, and these labs respect the lab limit and the container limit |
| `Admission.CreateKeepsLimits` | services/platform-api/internal/lab/quota.go:42-62 | creation, which counts all active labs, keeps the live labs within both limits |
| `Admission.ActiveSetCanExceedLimits` | services/platform-api/internal/lab/repository.go:329-378 | a concrete run in which destroying a failed lab makes the active set exceed the lab limit |
| `ActiveSet.ActiveLimitsKeptIff` | services/platform-api/internal/lab/repository.go:321-397 | from within both limits a step keeps the whole active set within them if and only if it does not accept the destruction of a failed lab for which there is no room |
| `ActiveSet.OneActivePerUserKeptIff` | services/platform-api/internal/lab/repository.go:748-765 | from one active lab per user a step keeps that if and only if it does not accept the destruction of a failed lab of a user with another active one |
| `ActiveSet.ActiveLimitsHoldIff` | services/platform-api/internal/lab/repository.go:767-789 | a run keeps the active set within all three limits throughout if and only if it contains no such request |
| `CapacityRun.LimitCanBeExceeded` | services/platform-api/internal/lab/topology.go:283-300 | a concrete run in which two labs each accept an addition one below the container limit and both complete, exceeding it |
| `CapacitySteps.StepBudget` | services/platform-api/internal/lab/topology.go:283-300 | persisted containers and those operations in flight may still add: an accepted request raises their sum by exactly its demand, no other step raises it |
| `CapacityLimit.FitsForeverIff` | services/platform-api/internal/lab/topology.go:283-300 | however the operations in flight end, the persisted containers stay within the limit if and only if that sum is within it; the sum can always be attained |
| `CapacityLimit.LimitHoldsIff` | services/platform-api/internal/lab/topology.go:173-197 | over whole runs, with provisioning that reports no more containers than its scenario reserves, the container limit holds at every moment and in every way its operations may still end if and only if each accepted request left room for what was persisted, what was in flight and itself |
| `GatewayProof.GatewayAgreesWhenIdle` | services/platform-api/internal/operation/worker.go:389-577 | after every benign run, a serving lab with no operation in flight is routed exactly to its persisted instances with their persisted weights, after successes and failures alike |
| `GatewayProof.SystemStepKeeps` | services/platform-api/internal/operation/worker.go:185-260 | every command, commit, abandonment and transaction keeps upstream lists and rows in the relation the saga's phase calls for |
| `GatewayProof.SagaWritesWeights` | services/platform-api/internal/operation/repository.go:510-644 | the rows a topology completion writes carry the weights the gateway already serves |
| `GatewayProof.CommitAgrees` | services/platform-api/internal/operation/worker.go:605-690 | whatever a saga commits, its lab then serves what its rows say, or does not serve |
| `GatewayProof.AdditionAgreesIffWeight100` | services/platform-api/internal/lab/topology.go:173-197 | a completed addition agrees with the gateway if and only if the instance was created with weight 100 |
| `GatewayProof.FailedRemovalAgreesIffRestored` | services/platform-api/internal/operation/worker.go:418-445 | a removal whose delete command failed leaves gateway and rows in agreement if and only if re-applying the previous list succeeds |
| `GatewayProof.AbandonedRemovalAgreesIffRestored` | services/platform-api/internal/operation/worker.go:418-445 | a removal abandoned while it drains leaves gateway and rows in agreement if and only if the previous list was put back |
| `LostLeaseRun.LostLeaseCanDisagree` | services/platform-api/internal/operation/worker.go:389-416 | a concrete run in which an addition is routed, its lease expires, a second worker claims it and is refused: the lab then serves and is idle, and the gateway routes to an instance without a row |
| `Takeover.TakeoversStaySound` | services/platform-api/internal/operation/worker.go:185-260 | the coupling invariant holds after every run with any number of lost leases and of workers executing the same operation at once |
| `Takeover.LostWorkersLeave` | services/platform-api/internal/operation/worker.go:366-577 | over runs with any number of takeovers, however many workers execute a topology operation at once, its lab's upstream list is at every moment that of the rows or the operation's own |
| `LostLease.RestartAgreesIff` | services/platform-api/internal/operation/worker.go:366-577 | when the lost worker has stopped, an operation started again over what it left ends in agreement if and only if, action by action, the commands named by Recovers succeed |
| `LateRestoreRun.LateRestoreCanDisagree` | services/platform-api/internal/operation/worker.go:418-445 | a concrete run in which a second worker takes a removal over and commits it with success, and the first worker, whose delete command is then refused, puts the previous list back: the lab serves and is idle, and the gateway routes to the removed instance |
| `LateRoutes.LateAgreementIff` | services/platform-api/internal/operation/worker.go:366-577 | while a lab stays idle and whatever workers that lost their lease still do, the gateway serves what the rows say if and only if it does now and none of them is at a phase from which it may still route another list |
| `LateRoutes.LateThreatByAction` | services/platform-api/internal/operation/worker.go:366-577 | once another worker has committed the operation, a late route of the target matters exactly if that worker failed, a late restore exactly if it succeeded, a removal not yet routed always, a resize never |
| `LateRoutes.CommittedAgreesIff` | services/platform-api/internal/operation/worker.go:366-577 | after the lease holder's commit of any topology operation, gateway and rows agree for as long as the lab stays idle if and only if they agree at the commit and no other worker on the lab is late, by action and phase |
| `Containers.ContainersAgreeIff` | services/platform-api/internal/operation/worker.go:389-485 | from containers that match the rows, a topology operation ends and commits with containers that match the rows in name and performance if and only if it strands none: a container created or resized whose answer was unusable, or whose routing and undoing both failed |
| `Containers.UnusableAnswerStrands` | services/platform-api/internal/operation/worker.go:402-405 | an orchestrator that creates an instance but answers without a usable description leaves a container without a row |
| `Naming.NextInstanceName` | services/platform-api/internal/lab/topology.go:326-338 | below the maximum the scan returns the unused name of least index, never the empty name |
| `Naming.NextNameFound` | services/platform-api/internal/lab/topology.go:326-338 | pigeonhole: fewer used names than the maximum leave a free one, and the first free one is found |
| `Naming.InstanceNameInjective` | services/platform-api/internal/lab/topology.go:326-338 | different indices have different names |
| `Database.ValidateWeights` | services/platform-api/internal/lab/topology.go:349-371 | the scan accepts a list if and only if it names every instance once with weights in 1..100, and returns it as a map |
| `Database.LoadUsage` | services/platform-api/internal/lab/repository.go:767-789 | counts the active labs and the containers reserved for them |
| `Database.WriteWeights` | services/platform-api/internal/operation/repository.go:620-644 | row-by-row weight updates equal one re-weighting, or stop exactly when a name has no row |
| `Database.Tables.Create` | services/platform-api/internal/lab/repository.go:41-239 | creation keeps the coupling invariant and has exactly the effect and reply of its transaction function, on every path |
| `Database.Tables.EnqueueAction` | services/platform-api/internal/lab/repository.go:268-414 | reset and destroy requests keep the coupling invariant, with the effect and reply of their transaction function |
| `Database.Tables.Submit` | services/platform-api/internal/lab/topology.go:37-159 | every learner action, topology or cache, keeps the coupling invariant, with the effect and reply of its transaction function |
| `Database.Tables.ServingInstances` | services/platform-api/internal/lab/topology.go:249-281 | the running rows loaded for a serving lab are all its rows, at least one and, for a cluster lab, at most the maximum |
| `Database.Tables.EnqueueAdjustment` | services/platform-api/internal/balancer/repository.go:67-154 | adaptive adjustments keep the coupling invariant, with the effect and reply of their transaction function |
| `Database.Tables.AdvanceOne` | services/platform-api/internal/lifecycle/repository.go:90-207 | one lab of a lifecycle pass keeps the coupling invariant; its insert is rolled back when the guarded status update matches no row |
| `Database.Tables.AdvanceAll` | services/platform-api/internal/lifecycle/repository.go:43-88 | a pass lists the candidates in order of last update and id, advances them one by one until the first error, and keeps the coupling invariant |
| `Database.Tables.Claim` | services/platform-api/internal/operation/repository.go:26-95 | leases the oldest claimable operation not locked by another transaction, or none exactly if there is none, and keeps the coupling invariant |
| `Database.Tables.MarkRunning` | services/platform-api/internal/operation/repository.go:98-117 | only the claimant starts its operation, and the coupling invariant is kept |
| `Database.Tables.Complete` | services/platform-api/internal/operation/worker.go:636-690 | with a trusted answer a completion keeps the coupling invariant, always commits for the lease holder of anything but a cache operation, and for a successful cache operation exactly while the lab is Running |
| `Database.Tables.CompleteProvision` | services/platform-api/internal/operation/repository.go:120-195 | writes operation, rows and session together, or nothing |
| `Database.Tables.CompleteTopology` | services/platform-api/internal/operation/repository.go:381-434 | applies the result and writes operation, rows and session together, or nothing |
| `Database.Tables.ValidateAdaptive` | services/platform-api/internal/operation/repository.go:647-712 | answers whether the fingerprint still matches the persisted topology of a serving adaptive lab; with its own fingerprint an adjustment in flight always passes |
| `Algorithm.TargetWeights` | services/platform-api/internal/balancer/algorithm.go:21-69 | fails exactly on an empty or invalid input and otherwise returns the target weights, loop by loop |
| `Algorithm.GreatestCommonDivisor` | services/platform-api/internal/balancer/algorithm.go:156-167 | the loop returns the greatest common divisor of the magnitudes |
| `Weights.GcdDivides` | services/platform-api/internal/balancer/algorithm.go:156-167 | the divisors of the result are exactly the common divisors of the two numbers |
| `Weights.TargetShape` | services/platform-api/internal/balancer/algorithm.go:21-69 | one weight per instance, in id order, each in 1..100 |
| `Weights.TargetCoprime` | services/platform-api/internal/balancer/algorithm.go:55-68 | the weights have no common divisor greater than 1 |
| `Weights.TargetIgnoresOrder` | services/platform-api/internal/balancer/algorithm.go:25-26 | instances listed in another order get the same weights |
| `Weights.TargetMonotone` | services/platform-api/internal/balancer/algorithm.go:46-62 | an instance at least as fast and no more loaded gets at least as high a weight |
| `Weights.TargetAccuracy` | services/platform-api/internal/balancer/algorithm.go:30-68 | an instance is worth its speed, and out of balance its speed times one plus mean load minus own load, held between 0.25 and 1.75; weight times one common divisor is within one half of its worth in percent of the best, or within one where the minimum of 1 applies |
| `Weights.IdleAgainstFull` | services/platform-api/internal/balancer/algorithm.go:46-68 | two instances of equal speed, one unloaded and one full, get weights 100 and 33 |
| `Weights.BalancedIgnoresLoads` | services/platform-api/internal/balancer/algorithm.go:42-56 | while loads are balanced the weights depend on ids and speeds alone |
| `Weights.FeedbackDirection` | services/platform-api/internal/balancer/algorithm.go:46-56 | out of balance, exactly the instances loaded below the average gain score and exactly those above it lose score |
| `Algorithm.WeightsWithinShareThreshold` | services/platform-api/internal/balancer/algorithm.go:102-130 | the three scans accept exactly proper, routable lists whose routing shares all differ by less than 0.03 |
| `Algorithm.AppliedIsWithinShares` | services/platform-api/internal/balancer/algorithm.go:102-130 | instances that carry the target weights are within the threshold, in whatever order they are listed |
| `Metrics.ReachableMetricsOk` | services/platform-api/internal/balancer/view.go:13-88 | after any mix of observations, samples and clean-ups every recorded load is between 0 and the maximum and every smoothed ratio between 0 and 1 |
| `Metrics.TargetNeverFails` | services/platform-api/internal/balancer/controller.go:173-192 | for eligible instances the target weights can always be computed: the error branch of a sample is unreachable |
| `Metrics.IdleDecays` | services/platform-api/internal/balancer/view.go:48-88 | while an instance stays idle its smoothed ratio is at most (1-alpha)^k after k samples, and exactly 0 once that is below 0.0005 |
| `Metrics.IdleReachesZero` | services/platform-api/internal/balancer/view.go:72-83 | with alpha one half, eleven samples after the estimated ratio reached 0 the smoothed ratio is exactly 0 |
| `Metrics.TenSamplesLeaveARest` | services/platform-api/internal/balancer/view.go:72-83 | ten samples are not enough: from a full ratio they leave 1/1024 |
| `Smoothing.SampleFollowsLoad` | services/platform-api/internal/balancer/view.go:72-83 | a first sample takes the estimated ratio; a later one lies between it and the last smoothed value, at exactly 1-alpha of the old distance, unless the rest of an idle instance below 0.0005 is cut off |
| `Smoothing.ClosesIn` | services/platform-api/internal/balancer/view.go:48-88 | over runs in which an instance is estimated at one level at every sample, whatever is observed or dropped between them, the smoothed ratio is within (1-alpha)^k of the initial distance from it after k samples |
| `Smoothing.IdleIsLevel` | services/platform-api/internal/balancer/view.go:48-88 | an idle instance is the case of level 0 |
| `Smoothing.LoadsAreRecorded` | services/platform-api/internal/balancer/view.go:48-88 | the ratios a sample returns are those it records |
| `Smoothing.ChangedStartsAfresh` | services/platform-api/internal/balancer/view.go:56-71 | an instance that is new, or changed in container, speed or load limit, starts from ratio 0 |
| `Smoothing.ObservedIsEstimated` | services/platform-api/internal/balancer/view.go:13-46 | after a usable observation the load is estimated from it, in full at its time and less by the speed for every second since, and no other instance is affected |
| `Smoothing.PrunedIff` | services/platform-api/internal/balancer/controller.go:105-126 | clean-up drops an instance if and only if its last observation is older than the whole seconds a full load takes to drain plus the freshness time |
| `Controller.AskedAfterStableSamples` | services/platform-api/internal/balancer/controller.go:193-209 | an adjustment is requested only after StableSamples consecutive evaluated samples of one configuration |
| `Controller.BackoffIsRespected` | services/platform-api/internal/balancer/controller.go:225-284 | after a failure, while configuration and imbalance persist, the next adjustment is requested no earlier than the k-th delay of the configured list, or its last, for failure number k |
| `Controller.DelaysFollowFailures` | services/platform-api/internal/balancer/controller.go:275-284 | from a state without failures that number is the count of failures recorded in the run |
| `Controller.FailuresAccumulate` | services/platform-api/internal/balancer/controller.go:160-171 | while configuration and imbalance persist the failure number counts every recorded failure and nothing else |
| `Standing.AsksIff` | services/platform-api/internal/balancer/controller.go:129-267 | a sample requests an adjustment if and only if none is outstanding, instances are usable with shares out of place, enough samples of the configuration were seen in a row, the last failure is waited out and an id could be made |
| `Standing.StateKeepsAccount` | services/platform-api/internal/balancer/controller.go:129-284 | in every run the control state keeps the account of how its samples ended: samples and calm samples in a row up to the threshold, failures in a row, and the time of the last plus its delay |
| `Standing.StatusTells` | services/platform-api/internal/balancer/controller.go:193-267 | a lab is shown as stable exactly after a confirmed or needless adjustment or enough calm samples in a row, as degraded exactly after a failure not yet waited out |
| `Convergence.SteadyLabConverges` | services/platform-api/internal/balancer/controller.go:129-267 | from any control state, with a fixed configuration, loads within 0.05 of each other and adjustments that succeed, at most one further adjustment is queued, after which the controller is stable |
| `ClosedLoop.ClosedLoopConverges` | services/platform-api/internal/balancer/controller.go:129-267 | the same with the control plane in the loop: listings, look-ups and answers come from the tables while requests, workers and the scheduler go on, no other operation of the lab completes after the adjustment is queued, and once it is reported done the rows carry the target weights |
| `Adjustments.StretchKeepsAdjustment` | services/platform-api/internal/operation/repository.go:620-644 | over any such stretch a queued adjustment is in flight or applied, and once applied the rows carry its weights |
| `Convergence.ConfigDecidesTarget` | services/platform-api/internal/balancer/algorithm.go:42-56 | with balanced loads equal configuration fingerprints give equal targets |
| `Balancer.AdaptiveController.SampleLab` | services/platform-api/internal/balancer/controller.go:129-267 | one sample updates control state and metrics as specified, and a sample that is given up leaves the control state alone |
| `Balancer.AdaptiveController.Observe` | services/platform-api/internal/balancer/view.go:13-46 | a usable observation that is not older than the last one replaces the recorded load; any other changes nothing |
| `Balancer.AdaptiveController.SampleLoadRatios` | services/platform-api/internal/balancer/view.go:48-88 | smooths every listed instance once and returns the new ratios |
| `Balancer.AdaptiveController.EndRound` | services/platform-api/internal/balancer/controller.go:105-126 | unlisted labs lose their control state, drained metrics are dropped, nothing else changes |
| `Balancer.EligibleInstances` | services/platform-api/internal/balancer/controller.go:286-299 | the scan accepts exactly non-empty lists of complete running instances |
| `Lru.NeverOverfull` | services/lab-app/internal/cache/l1.go:52-75 | after any run keys are distinct and the store holds no more than its maximum |
| `Lru.PutEvictsOldest` | services/lab-app/internal/cache/l1.go:52-75 | a write evicts exactly when a new key meets a full store, evicts exactly the least recently used entry, never the new key unless the maximum is 0, and keeps everything else |
| `Lru.HitIsLastPut` | services/lab-app/internal/cache/l1.go:35-50 | a hit returns the last value written for the key, strictly before the expiry set by that write |
| `Lru.RetainedHits` | services/lab-app/internal/cache/l1.go:35-75 | a key written, not deleted or seen expired, and with fewer than maximum other keys in use since its own last use is found until its write expires |
| `Lru.RecencyIsSorted` | services/lab-app/internal/cache/l1.go:35-75 | with a clock that never goes back entries are sorted by their last access |
| `L1Store.Store.Get` | services/lab-app/internal/cache/l1.go:35-50 | lookup in map and list equals lookup in the most-recent-first sequence |
| `L1Store.Store.Put` | services/lab-app/internal/cache/l1.go:52-75 | write and eviction in map and list equal those of the sequence |
| `L1Store.Store.Delete` | services/lab-app/internal/cache/l1.go:77-86 | deletion in map and list equals deletion in the sequence |
| `L1Store.Store.Clear` | services/lab-app/internal/cache/l1.go:88-98 | empties map and list and returns the products in order of recency |
| `L1Store.Store.Snapshot` | services/lab-app/internal/cache/l1.go:100-119 | removes exactly the expired entries while walking the list, and returns the rest in order |
| `CacheProcessor.RepliesEqualDatabase` | services/lab-app/internal/cache/processor.go:63-132 | for every interleaving of requests, failures, expiries, evictions and toggles a reply is the database row, or not_found exactly where there is none, and its trace tells the layer that answered |
| `CacheProcessor.DisabledStoreIsEmpty` | services/lab-app/internal/cache/processor.go:214-232 | whenever the local store is disabled it is empty, whatever requests were in progress |
| `CacheProcessor.RepliesPassChecks` | services/platform-api/internal/traffic/service.go:202-232 | every reply passes the platform's checks on cache results, lookup count and observation time included, given complete rows and positive latencies |
| `CacheHits.FilledIsHit` | services/lab-app/internal/cache/processor.go:73-79 | once the local store was filled with a product, a request for it strictly before that fill expires is answered by the local store, with the row, if the store was not disabled and fewer other products than it holds were looked up or filled since |
| `CacheHits.ReplyFills` | services/lab-app/internal/cache/processor.go:149-156 | a request that replies from below the enabled local store leaves it filled with its product |
| `CacheHits.StoreFollowsAccesses` | services/lab-app/internal/cache/processor.go:134-156 | in every interleaving the local store holds what the accesses of requests, toggles and reports leave in it |
| `CacheHits.WrittenIsHeld` | services/lab-app/internal/cache/processor.go:113-120 | Redis holds a product if and only if it was written and not lost since |
| `CacheHits.WrittenIsFound` | services/lab-app/internal/cache/processor.go:84-101 | a product that Redis holds is answered by Redis with its row whenever Redis answers; otherwise the database is asked, knowing whether Redis failed |
| `CacheHits.UnansweredAsksRedis` | services/lab-app/internal/cache/processor.go:66-84 | a request is answered by the local store if and only if the store is in use and finds the product, and otherwise goes on saying whether it was in use |
| `CacheHits.RequestsEnd` | services/lab-app/internal/cache/processor.go:63-132 | whatever Redis answers and takes, a request replies if the database answers |
| `CacheHits.LatencyTells` | services/lab-app/internal/cache/processor.go:234-245 | the latency reported is that of the level that answered, as the trace tells |
| `CacheProcessor.Processor.LookUp` | services/lab-app/internal/cache/processor.go:73-79 | the locked lookup is the first step of a request |
| `CacheProcessor.Processor.PutL1IfEnabled` | services/lab-app/internal/cache/processor.go:149-156 | the locked fill writes only while the store is enabled |
| `CacheProcessor.Processor.SetL1Enabled` | services/lab-app/internal/cache/processor.go:214-232 | disabling clears the store, and either way expired entries are dropped |
| `LoadAllocator.BatchConserves` | services/lab-app/internal/order/processor.go:91-133 | one batch grows the load by the accepted units up to 1e-9, keeps it in range, and turns units away only if the resulting load exceeds MaxLoad-1 |
| `LoadAllocator.LoadStaysInRange` | services/lab-app/internal/cache/processor.go:247-277 | after any run of batches, failed ones included, the load is between 0 and MaxLoad |
| `LoadAllocator.AcceptedWithinCapacity` | services/lab-app/internal/order/processor.go:91-133 | over n batches in time order spanning T, at most MaxLoad + speed*T + n*1e-9 units are accepted |
| `LoadAllocator.AcceptedWithinLoad` | services/lab-app/internal/order/processor.go:91-133 | for any clock the same bound holds with the load left and the seconds the clock moved forward |
| `LoadAllocator.ClockJumpsDrain` | services/lab-app/internal/order/processor.go:72-102 | a concrete run whose times are out of order exceeds the bound by the spanned time; requests read the time before they are serialised, so a monotone clock does not prevent it |
| `LoadAllocator.OrderProcessor.Process` | services/lab-app/internal/order/processor.go:61-89 | load and time change only if the batch is valid, its product known and its statistics stored |
| `LoadAllocator.ResultsAreValid` | services/platform-api/internal/traffic/service.go:151-183 | every result for a valid request passes the platform's unit, status, range and ratio checks |
| `LoadAllocator.LevelByLoad` | services/lab-app/internal/order/processor.go:135-149 | the reported level by the exact load left, in parts of the maximum: rounding moves each threshold by half a thousandth |
| `LoadAllocator.DoubleRounding` | services/platform-api/internal/traffic/service.go:166-171 | rounding the load before dividing moves the rounded ratio by at most 0.001 |
| `LoadAllocator.DoubleRoundingDiffers` | services/platform-api/internal/traffic/service.go:166-171 | the two roundings can differ, so the tolerance is needed |
| `LoadAllocator.EstimateTracksLoad` | services/platform-api/internal/balancer/view.go:213-226 | until the next batch the balancer's estimate is within 0.0005 of the instance's true settled load |
| `NginxManager.CallKeepsAgreement` | services/orchestrator/internal/nginx/manager.go:71-132 | from agreement, gateway and files agree after a call if and only if the call did not change a file that the gateway rejected and that could not be put back |
| `NginxManager.FailureRestores` | services/orchestrator/internal/nginx/manager.go:257-265 | a failed call leaves all files as they were, provided the restore succeeds |
| `NginxManager.OthersUntouched` | services/orchestrator/internal/nginx/manager.go:147-171 | no call changes another lab's fragment, on disk or, from agreement, in the gateway |
| `NginxManager.SuccessHeals` | services/orchestrator/internal/nginx/manager.go:191-203 | a successful change brings gateway and files into agreement whatever was before |
| `NginxManager.GatewayServesFiles` | services/orchestrator/internal/nginx/manager.go:71-171 | over any sequence of calls with arbitrary test and reload failures and successful restores the gateway serves exactly the files on disk |
| `NginxManager.LastSuccessIsServed` | services/orchestrator/internal/nginx/manager.go:71-171 | each lab is served exactly what its last successful call asked for |
| `NginxManager.Manager.Apply` | services/orchestrator/internal/nginx/manager.go:71-132 | write, test, reload and roll-back have exactly the specified effect |
| `NginxManager.Manager.Remove` | services/orchestrator/internal/nginx/manager.go:147-171 | removal, reload and restore have exactly the specified effect |
| `Templates.ResolvesIff` | services/orchestrator/internal/template/registry.go:378-407 | a template resolves to a container if and only if its chain of bases exists and every template on it describes an acceptable container, and the result is what the chain describes |
| `Templates.ChainHasNoCycle` | services/orchestrator/internal/template/registry.go:386-388 | a complete chain visits no template twice |
| `Templates.FailuresAreExplained` | services/orchestrator/internal/template/registry.go:378-407 | each failure names its cause: a missing base, a template visited twice, or an unacceptable container on a complete chain |
| `Templates.ResolvedInherits` | services/orchestrator/internal/template/registry.go:409-467 | a resolved container is acceptable, keeps its own id and version, and takes every other field from the nearest template that sets it |
| `Templates.ResolveContainer` | services/orchestrator/internal/template/registry.go:378-407 | the recursion terminates on every graph, restores the shared stack and returns the specified resolution |

## Left out

- HTTP handlers, transports, the Docker client, configuration loading, authentication, courses and the web frontend.
- The orchestrator's command service: each command is one step that succeeds or fails as its theorem assumes.
- SQL text and JSON encoding: typed rows, one atomic step per transaction; `UPDATE` row counts are matched rows, so two updates that write identical values in the same microsecond are not told apart.
- Database errors other than a failed guard or a duplicate key, missing users, and unique keys on container ids.
- Course progress, database names and resource rows other than the Redis container of a cache lab.
- Locks taken by `FOR UPDATE SKIP LOCKED`: `Database.Tables.Claim` takes the set of locked rows as an input.
- The worker's call stack: a worker's sequence of commands is modelled as phases with one command per step, so that other transactions interleave between any two commands; likewise a cache request between its accesses to shared state.
- The loop of a sampling round over the listed labs: labs are sampled one at a time and share nothing but the metrics map.
- Hash digests: expiry ids, request payload comparison and fingerprints are compared by the fields they digest.
- The order of upstream servers: gateway and payload lists are maps from instance name to weight, fragments multisets of servers.
- Scenario templates: a scenario and the template it names are one value.
- `CompleteFailure`: every action that can be enqueued has its own completion.
- A worker that loses its lease between two commands: `GatewayProof.GatewayAgreesWhenIdle` excludes it; `LostLease`, `Takeover` and `LateRoutes` say what follows when it happens.
- Containers a lost worker creates or deletes late, and commands that fail after having changed a container: `Containers` follows the lease holder, and a failed command leaves the containers alone.
- Lease expiry as a function of the clock in `Leases.StaleWorkerChangesNothing`: workers have distinct owner names.
- IEEE floating point: the ratio and weight arithmetic is exact.
- Weight and load views for the frontend (`View`, `DecorateSnapshot`) and the rate limiters.
- Reconciliation of orchestrator resources, which reads its expected labs outside any lock.
- `NginxManager`: rendering of the fragment body and a gateway that loads a configuration although its reload command failed.
- `Templates`: loading of files and the network, database, gateway and scenario templates.
