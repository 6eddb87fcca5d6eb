/** A run in which a lost lease leaves the gateway serving an instance that has no row. */
module LostLeaseRun {
  import opened Domain
  import opened Naming
  import opened Transactions
  import opened Coupling
  import opened Gateway

  const Small := Config(Quota(1, 3, 2), Lifetime(100, 300, 1))

  const First := ProvisionedInstance("app-1", "c-1", "app-1", None, 1.0, 64, 100, 10, 100, 100)
  const Second := ProvisionedInstance("app-2", "c-2", "app-2", None, 1.0, 64, 100, 10, 100, 100)
  const Provided := ProvisionResult("lab-a", Cluster, true, [First], false)
  const Add := ActionInput(Chosen("b"), AddInstance, None, None, [], None)
  const One: Servers := map["app-1" := 100]
  const Two: Servers := map["app-1" := 100, "app-2" := 100]

  const Builder := Work(Chosen("a"), "w")
  const W := Work(Chosen("b"), "w")
  const V := Work(Chosen("b"), "v")

  function Succeeding(work: Work, provision: Option<ProvisionResult>, instance: Option<ProvisionedInstance>, servers: Servers): SystemEvent {
    Command(work, true, provision, instance, false, servers)
  }

  const E0 := Transact(CreateEvent(1, 1, CourseOffers(Cluster), Chosen("a"), "lab-a", 0))
  const E1 := Transact(ClaimEvent(Chosen("a"), "w", 0, 9))
  const E2 := Begin(Builder, 9)
  const E3 := Succeeding(Builder, Some(Provided), None, One)
  const E4 := Commit(Builder, 0)
  const E5 := Transact(SubmitEvent(1, "lab-a", Add, 1))
  const E6 := Transact(ClaimEvent(Chosen("b"), "w", 1, 9))
  const E7 := Begin(W, 9)
  const E8 := Succeeding(W, None, Some(Second), map[])
  const E9 := Succeeding(W, None, None, map[])
  const E10 := Transact(ClaimEvent(Chosen("b"), "v", 9, 20))
  const E11 := Begin(V, 20)
  const E12 := Command(V, false, None, None, false, map[])
  const E13 := Commit(V, 10)

  /** A lab is created and serves. Worker w creates and routes a second instance, then loses its lease; worker v
      claims the operation, is refused by the orchestrator and records the failure. */
  function Lost(): seq<SystemEvent> {
    [E0, E1, E2, E3, E4, E5, E6, E7, E8, E9, E10, E11, E12, E13]
  }

  function CreateOp(status: OpStatus, owner: Option<Owner>, lease: Time, attempts: nat): Operation {
    Operation(0, "lab-a", 1, CreateLab, LabPayload(Cluster), status, owner, lease, attempts, 0)
  }

  function AddOp(status: OpStatus, owner: Option<Owner>, lease: Time, attempts: nat): Operation {
    Operation(1, "lab-a", 1, AddInstance, TopologyPayload(Add, "app-2", 100, 0, Two, One), status, owner, lease, attempts, 1)
  }

  function Preparation(o: Operation): State {
    State(map["lab-a" := Session(1, 1, Cluster, Preparing, Fixed, false, NoRedisRow, None, None, None, None, 0)],
          map[], map[Chosen("a") := o], 1)
  }

  const Serving: Session := Session(1, 1, Cluster, Running, Fixed, false, NoRedisRow, Some(0), Some(0), None, None, 0)
  const FirstRow: Instances := map["app-1" := InstanceRow(First)]

  function Service(ops: map<OpId, Operation>, next: nat): State {
    State(map["lab-a" := Serving], map["lab-a" := FirstRow], ops, next)
  }

  function Adding(o: Operation): State {
    Service(map[Chosen("a") := CreateOp(Succeeded, None, 0, 1), Chosen("b") := o], 2)
  }

  function Routing(db: State, servers: Servers, phase: Phase): System {
    System(db, map["lab-a" := servers], map[W := phase])
  }

  /** The first worker stays where it was while the second executes the operation. */
  function Both(db: State, phase: Phase): System {
    System(db, map["lab-a" := Two], map[W := Routed(Some(Second)), V := phase])
  }

  // ----- The system after each event -------------------------------------------------

  const Y1 := System(Preparation(CreateOp(Pending, None, 0, 0)), map[], map[])
  const Y2 := System(Preparation(CreateOp(Claimed, Some("w"), 9, 1)), map[], map[])
  const Y3 := System(Preparation(CreateOp(Executing, Some("w"), 9, 1)), map[], map[Builder := Ready])
  const Y4 := System(Preparation(CreateOp(Executing, Some("w"), 9, 1)), map["lab-a" := One], map[Builder := Provisioned(Provided)])
  const Y5 := System(Service(map[Chosen("a") := CreateOp(Succeeded, None, 0, 1)], 1), map["lab-a" := One], map[])
  const Y6 := System(Adding(AddOp(Pending, None, 0, 0)), map["lab-a" := One], map[])
  const Y7 := System(Adding(AddOp(Claimed, Some("w"), 9, 1)), map["lab-a" := One], map[])
  const Y8 := Routing(Adding(AddOp(Executing, Some("w"), 9, 1)), One, Ready)
  const Y9 := Routing(Adding(AddOp(Executing, Some("w"), 9, 1)), One, Created(Second))
  const Y10 := Routing(Adding(AddOp(Executing, Some("w"), 9, 1)), Two, Routed(Some(Second)))
  const Y11 := Routing(Adding(AddOp(Claimed, Some("v"), 20, 2)), Two, Routed(Some(Second)))
  const Y12 := Both(Adding(AddOp(Executing, Some("v"), 20, 2)), Ready)
  const Y13 := Both(Adding(AddOp(Executing, Some("v"), 20, 2)), Broken)
  const Y14 := Routing(Adding(AddOp(Rejected, None, 0, 2)), Two, Routed(Some(Second)))

  lemma Step1()
    ensures SystemNext(Small, EmptySystem, E0) == Y1
  {
    assert ActiveLabs(EmptyState) == {} && CacheLabs(EmptyState, {}) == {};
  }

  lemma Step2()
    ensures SystemNext(Small, Y1, E1) == Y2
  {
    assert Y1.db.ops[Chosen("a") := CreateOp(Claimed, Some("w"), 9, 1)] == Y2.db.ops;
  }

  lemma Step3()
    ensures SystemNext(Small, Y2, E2) == Y3
  {
    assert Y2.db.ops[Chosen("a") := CreateOp(Executing, Some("w"), 9, 1)] == Y3.db.ops;
  }

  lemma Step4()
    ensures SystemNext(Small, Y3, E3) == Y4
  {
    assert Y3.sagas[Builder := Provisioned(Provided)] == Y4.sagas;
  }

  lemma Provision()
    ensures CompleteProvision(Y4.db, Chosen("a"), "w", Success(Provided), 0).0 == Y5.db
  {
    assert [First][..0] == [];
    assert RowsOf([First]) == FirstRow;
    assert ProvisionComplete("lab-a", Provided);
    var t := CompleteProvision(Y4.db, Chosen("a"), "w", Success(Provided), 0).0;
    assert t.ops == Y5.db.ops && t.sessions == Y5.db.sessions && t.instances == Y5.db.instances;
  }

  lemma Step5()
    ensures SystemNext(Small, Y4, E4) == Y5
  {
    assert CheckedProvision(Y4.db.ops[Chosen("a")], Success(Provided)) == Success(Provided);
    Provision();
    assert Y4.sagas - {Builder} == map[];
  }

  lemma SecondName()
    ensures NextName({"app-1"}, 1, 2) == Some("app-2")
  {
    assert Decimal(1) == "1" && Decimal(2) == "2";
    assert InstanceName(1) == "app-1" && InstanceName(2) == "app-2";
    assert "app-2"[4] != "app-1"[4];
  }

  lemma OneRow(s: State)
    requires s.instances == map["lab-a" := FirstRow] && s.sessions == map["lab-a" := Serving]
    ensures ContainersInUse(s) == 1 && UpRows(FirstRow) == FirstRow && WeightsOf(FirstRow) == One && |FirstRow| == 1
  {
    assert (set lab, n | lab in s.instances && n in s.instances[lab] && s.instances[lab][n].status != InstanceTerminated :: (lab, n))
        == {("lab-a", "app-1")};
    assert (set lab | lab in s.sessions && (s.sessions[lab].redisRow == RedisReady || s.sessions[lab].redisRow == RedisUnknown)) == {};
  }

  lemma Addition()
    ensures BuildTopology(FirstRow, Fixed, Add, Small.quota, 1) == Built(TopologyPayload(Add, "app-2", 100, 0, Two, One))
  {
    OneRow(Y5.db);
    SecondName();
    assert FirstRow.Keys == {"app-1"};
    assert One["app-2" := 100] == Two;
  }

  lemma Step6()
    ensures SystemNext(Small, Y5, E5) == Y6
  {
    var s := Y5.db;
    OneRow(s);
    Addition();
    assert !LabBusy(s, "lab-a");
    assert s.ops[Chosen("b") := AddOp(Pending, None, 0, 0)] == Y6.db.ops;
  }

  lemma Step7()
    ensures SystemNext(Small, Y6, E6) == Y7
  {
    assert Y6.db.ops[Chosen("b") := AddOp(Claimed, Some("w"), 9, 1)] == Y7.db.ops;
  }

  lemma Step8()
    ensures SystemNext(Small, Y7, E7) == Y8
  {
    assert Y7.db.ops[Chosen("b") := AddOp(Executing, Some("w"), 9, 1)] == Y8.db.ops;
  }

  lemma Step9()
    ensures SystemNext(Small, Y8, E8) == Y9
  {
    assert Y8.gateway["lab-a" := One] == Y9.gateway && Y8.sagas[W := Created(Second)] == Y9.sagas;
  }

  lemma Step10()
    ensures SystemNext(Small, Y9, E9) == Y10
  {
    assert Y9.gateway["lab-a" := Two] == Y10.gateway && Y9.sagas[W := Routed(Some(Second))] == Y10.sagas;
  }

  lemma Step11()
    ensures SystemNext(Small, Y10, E10) == Y11
  {
    assert Y10.db.ops[Chosen("b") := AddOp(Claimed, Some("v"), 20, 2)] == Y11.db.ops;
  }

  lemma Step12()
    ensures SystemNext(Small, Y11, E11) == Y12
  {
    assert Y11.db.ops[Chosen("b") := AddOp(Executing, Some("v"), 20, 2)] == Y12.db.ops;
    assert Y11.sagas[V := Ready] == Y12.sagas;
  }

  lemma Step13()
    ensures SystemNext(Small, Y12, E12) == Y13
  {
    assert Y12.gateway["lab-a" := Two] == Y13.gateway && Y12.sagas[V := Broken] == Y13.sagas;
  }

  lemma Step14()
    ensures SystemNext(Small, Y13, E13) == Y14
  {
    assert Y13.db.ops[Chosen("b") := AddOp(Rejected, None, 0, 2)] == Y14.db.ops;
    assert Y13.sagas - {V} == Y14.sagas;
  }

  lemma Snoc(run: seq<SystemEvent>, e: SystemEvent, y: System, z: System)
    requires SystemAfter(Small, run) == y && SystemNext(Small, y, e) == z
    ensures SystemAfter(Small, run + [e]) == z
  {
    assert (run + [e])[..|run|] == run;
  }

  /** Five steps in a row. */
  lemma Five(run: seq<SystemEvent>, e0: SystemEvent, e1: SystemEvent, e2: SystemEvent, e3: SystemEvent, e4: SystemEvent,
             y0: System, y1: System, y2: System, y3: System, y4: System, y5: System)
    requires SystemAfter(Small, run) == y0
    requires SystemNext(Small, y0, e0) == y1 && SystemNext(Small, y1, e1) == y2 && SystemNext(Small, y2, e2) == y3
    requires SystemNext(Small, y3, e3) == y4 && SystemNext(Small, y4, e4) == y5
    ensures SystemAfter(Small, run + [e0, e1, e2, e3, e4]) == y5
  {
    Snoc(run, e0, y0, y1);
    Snoc(run + [e0], e1, y1, y2);
    Snoc(run + [e0] + [e1], e2, y2, y3);
    Snoc(run + [e0] + [e1] + [e2], e3, y3, y4);
    Snoc(run + [e0] + [e1] + [e2] + [e3], e4, y4, y5);
    assert run + [e0] + [e1] + [e2] + [e3] + [e4] == run + [e0, e1, e2, e3, e4];
  }

  lemma Onboarded()
    ensures SystemAfter(Small, [] + [E0, E1, E2, E3, E4]) == Y5
  {
    Step1();
    Step2();
    Step3();
    Step4();
    Step5();
    Five([], E0, E1, E2, E3, E4, EmptySystem, Y1, Y2, Y3, Y4, Y5);
  }

  lemma Routes(run: seq<SystemEvent>)
    requires SystemAfter(Small, run) == Y5
    ensures SystemAfter(Small, run + [E5, E6, E7, E8, E9]) == Y10
  {
    Step6();
    Step7();
    Step8();
    Step9();
    Step10();
    Five(run, E5, E6, E7, E8, E9, Y5, Y6, Y7, Y8, Y9, Y10);
  }

  lemma Loses(run: seq<SystemEvent>)
    requires SystemAfter(Small, run) == Y10
    ensures SystemAfter(Small, run + [E10] + [E11] + [E12] + [E13]) == Y14
  {
    Step11();
    Snoc(run, E10, Y10, Y11);
    Step12();
    Snoc(run + [E10], E11, Y11, Y12);
    Step13();
    Snoc(run + [E10] + [E11], E12, Y12, Y13);
    Step14();
    Snoc(run + [E10] + [E11] + [E12], E13, Y13, Y14);
  }

  lemma Ends()
    ensures SystemAfter(Small, Lost()) == Y14
  {
    Onboarded();
    Routes([] + [E0, E1, E2, E3, E4]);
    Loses([] + [E0, E1, E2, E3, E4] + [E5, E6, E7, E8, E9]);
    InOrder(E0, E1, E2, E3, E4, E5, E6, E7, E8, E9, E10, E11, E12, E13);
  }

  lemma InOrder<T>(a: T, b: T, c: T, d: T, e: T, f: T, g: T, h: T, i: T, j: T, k: T, l: T, m: T, n: T)
    ensures [] + [a, b, c, d, e] + [f, g, h, i, j] + [k] + [l] + [m] + [n] == [a, b, c, d, e, f, g, h, i, j, k, l, m, n]
  {
  }

  lemma Disagreement(y: System)
    requires y == Y14
    ensures "lab-a" in y.db.sessions && y.db.sessions["lab-a"].status.Up() && !LabBusy(y.db, "lab-a")
    ensures "app-2" in Served(y, "lab-a") && "app-2" !in Rows(y.db, "lab-a")
    ensures Served(y, "lab-a") != WeightsOf(Rows(y.db, "lab-a"))
  {
    assert "app-2"[4] != "app-1"[4];
    assert "app-2" in Two && "app-2" !in WeightsOf(FirstRow);
  }

  /** The lab serves and is idle, and the gateway routes to an instance without a row. */
  lemma LostLeaseCanDisagree()
    ensures var y := SystemAfter(Small, Lost());
      && "lab-a" in y.db.sessions && y.db.sessions["lab-a"].status.Up() && !LabBusy(y.db, "lab-a")
      && "app-2" in Served(y, "lab-a") && "app-2" !in Rows(y.db, "lab-a")
      && Served(y, "lab-a") != WeightsOf(Rows(y.db, "lab-a"))
  {
    Ends();
    Disagreement(SystemAfter(Small, Lost()));
  }
}
