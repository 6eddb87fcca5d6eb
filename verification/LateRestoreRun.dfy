/** A run in which a worker that lost its lease puts back the upstream list of an instance that its successor removed. */
module LateRestoreRun {
  import opened Domain
  import opened Transactions
  import opened Coupling
  import opened Gateway
  import opened LostLeaseRun

  const Pair := ProvisionResult("lab-a", Cluster, true, [First, Second], false)
  const Remove := ActionInput(Chosen("b"), RemoveInstance, Some("app-2"), None, [], None)
  const BothRows: Instances := map["app-1" := InstanceRow(First), "app-2" := InstanceRow(Second)]

  function Answer(work: Work, ok: bool): SystemEvent {
    Command(work, ok, None, None, false, map[])
  }

  const E3' := Succeeding(Builder, Some(Pair), None, Two)
  const E5' := Transact(SubmitEvent(1, "lab-a", Remove, 1))

  /** A lab is created with two instances. Worker w routes the first alone to remove the second and loses its lease;
      worker v claims the operation, routes, deletes and records the success. The delete command of w is then
      refused, since the instance is gone, and w puts the previous list back. */
  function Late(): seq<SystemEvent> {
    [E0, E1, E2, E3', E4, E5', E6, E7, Answer(W, true), E10, E11, Answer(V, true), Answer(V, true), E13, Answer(W, false), Answer(W, true)]
  }

  function RemoveOp(status: OpStatus, owner: Option<Owner>, lease: Time, attempts: nat): Operation {
    Operation(1, "lab-a", 1, RemoveInstance, TopologyPayload(Remove, "app-2", 0, 0, One, Two), status, owner, lease, attempts, 1)
  }

  function Ops(o: Operation): map<OpId, Operation> {
    map[Chosen("a") := CreateOp(Succeeded, None, 0, 1), Chosen("b") := o]
  }

  function Removing(o: Operation): State {
    State(map["lab-a" := Serving], map["lab-a" := BothRows], Ops(o), 2)
  }

  function Shared(status: OpStatus, phase: Phase): System {
    System(Removing(RemoveOp(status, Some("v"), 20, 2)), map["lab-a" := One], map[W := Routed(None), V := phase])
  }

  const Removal: State :=
    State(map["lab-a" := Serving.(lastActionAt := Some(10), updatedAt := 10)], map["lab-a" := FirstRow], Ops(RemoveOp(Succeeded, None, 0, 2)), 2)

  // ----- The system after each event ---------------------------------------------------

  const Z4 := System(Preparation(CreateOp(Executing, Some("w"), 9, 1)), map["lab-a" := Two], map[Builder := Provisioned(Pair)])
  const Z5 := System(State(map["lab-a" := Serving], map["lab-a" := BothRows], map[Chosen("a") := CreateOp(Succeeded, None, 0, 1)], 1),
                     map["lab-a" := Two], map[])
  const Z6 := System(Removing(RemoveOp(Pending, None, 0, 0)), map["lab-a" := Two], map[])
  const Z7 := System(Removing(RemoveOp(Claimed, Some("w"), 9, 1)), map["lab-a" := Two], map[])
  const Z8 := Routing(Removing(RemoveOp(Executing, Some("w"), 9, 1)), Two, Ready)
  const Z9 := Routing(Removing(RemoveOp(Executing, Some("w"), 9, 1)), One, Routed(None))
  const Z10 := Routing(Removing(RemoveOp(Claimed, Some("v"), 20, 2)), One, Routed(None))
  const Z11 := Shared(Executing, Ready)
  const Z12 := Shared(Executing, Routed(None))
  const Z13 := Shared(Executing, Removed)
  const Z14 := Routing(Removal, One, Routed(None))
  const Z15 := Routing(Removal, One, Restore)
  const Z16 := Routing(Removal, Two, Broken)

  lemma Step4'()
    ensures SystemNext(Small, Y3, E3') == Z4
  {
    assert Y3.sagas[Builder := Provisioned(Pair)] == Z4.sagas;
  }

  lemma PairRows()
    ensures RowsOf([First, Second]) == BothRows
  {
    assert [First, Second][..1] == [First];
    assert [First][..0] == [];
    assert RowsOf([First]) == FirstRow;
    assert FirstRow["app-2" := InstanceRow(Second)] == BothRows;
  }

  lemma Provision'()
    ensures CompleteProvision(Z4.db, Chosen("a"), "w", Success(Pair), 0).0 == Z5.db
  {
    PairRows();
    assert ProvisionComplete("lab-a", Pair);
    var t := CompleteProvision(Z4.db, Chosen("a"), "w", Success(Pair), 0).0;
    assert t.ops == Z5.db.ops && t.sessions == Z5.db.sessions && t.instances == Z5.db.instances;
  }

  lemma Step5'()
    ensures SystemNext(Small, Z4, E4) == Z5
  {
    assert CheckedProvision(Z4.db.ops[Chosen("a")], Success(Pair)) == Success(Pair);
    Provision'();
    assert Z4.sagas - {Builder} == map[];
  }

  lemma Weighed()
    ensures UpRows(BothRows) == BothRows && WeightsOf(BothRows) == Two && |BothRows| == 2
    ensures Two - {"app-2"} == One && BothRows - {"app-2"} == FirstRow
  {
    assert "app-2"[4] != "app-1"[4];
    assert BothRows.Keys == {"app-1", "app-2"};
  }

  lemma Step6'()
    ensures SystemNext(Small, Z5, E5') == Z6
  {
    var s := Z5.db;
    Weighed();
    assert ValidInput(Remove);
    assert BuildTopology(BothRows, Fixed, Remove, Small.quota, ContainersInUse(s)) == Built(TopologyPayload(Remove, "app-2", 0, 0, One, Two));
    assert !LabBusy(s, "lab-a");
    assert s.ops[Chosen("b") := RemoveOp(Pending, None, 0, 0)] == Z6.db.ops;
  }

  lemma Step7'()
    ensures SystemNext(Small, Z6, E6) == Z7
  {
    assert Z6.db.ops[Chosen("b") := RemoveOp(Claimed, Some("w"), 9, 1)] == Z7.db.ops;
  }

  lemma Step8'()
    ensures SystemNext(Small, Z7, E7) == Z8
  {
    assert Z7.db.ops[Chosen("b") := RemoveOp(Executing, Some("w"), 9, 1)] == Z8.db.ops;
  }

  lemma Step9'()
    ensures SystemNext(Small, Z8, Answer(W, true)) == Z9
  {
    assert Z8.gateway["lab-a" := One] == Z9.gateway && Z8.sagas[W := Routed(None)] == Z9.sagas;
  }

  lemma Step10'()
    ensures SystemNext(Small, Z9, E10) == Z10
  {
    assert Z9.db.ops[Chosen("b") := RemoveOp(Claimed, Some("v"), 20, 2)] == Z10.db.ops;
  }

  lemma Step11'()
    ensures SystemNext(Small, Z10, E11) == Z11
  {
    assert Z10.db.ops[Chosen("b") := RemoveOp(Executing, Some("v"), 20, 2)] == Z11.db.ops;
    assert Z10.sagas[V := Ready] == Z11.sagas;
  }

  lemma Step12'()
    ensures SystemNext(Small, Z11, Answer(V, true)) == Z12
  {
    assert Z11.gateway["lab-a" := One] == Z12.gateway && Z11.sagas[V := Routed(None)] == Z12.sagas;
  }

  lemma Step13'()
    ensures SystemNext(Small, Z12, Answer(V, true)) == Z13
  {
    assert Z12.gateway["lab-a" := One] == Z13.gateway && Z12.sagas[V := Removed] == Z13.sagas;
  }

  lemma RemovalCommits()
    ensures Complete(Z13.db, Chosen("b"), "v", TopologyReport(Success(None), false), 10).0 == Removal
  {
    Weighed();
    var s := Z13.db;
    var result := NoResult.(removed := Some("app-2"));
    assert TopologyOutcome(s.ops[Chosen("b")], Success(None), false) == Success(result);
    assert ApplyTopology(Serving, BothRows, RemoveInstance, result) == Applied(FirstRow, Fixed);
    var t := CompleteTopology(s, Chosen("b"), "v", Success(result), 10).0;
    assert t.ops == Removal.ops && t.sessions == Removal.sessions && t.instances == Removal.instances;
  }

  lemma Step14'()
    ensures SystemNext(Small, Z13, E13) == Z14
  {
    RemovalCommits();
    assert Z13.sagas - {V} == Z14.sagas;
  }

  lemma Step15'()
    ensures SystemNext(Small, Z14, Answer(W, false)) == Z15
  {
    assert Z14.gateway["lab-a" := One] == Z15.gateway && Z14.sagas[W := Restore] == Z15.sagas;
  }

  lemma Step16'()
    ensures SystemNext(Small, Z15, Answer(W, true)) == Z16
  {
    assert Z15.gateway["lab-a" := Two] == Z16.gateway && Z15.sagas[W := Broken] == Z16.sagas;
  }

  // ----- The run --------------------------------------------------------------------------

  lemma Onboarded'()
    ensures SystemAfter(Small, [] + [E0, E1, E2, E3', E4]) == Z5
  {
    Step1();
    Step2();
    Step3();
    Step4'();
    Step5'();
    Five([], E0, E1, E2, E3', E4, EmptySystem, Y1, Y2, Y3, Z4, Z5);
  }

  lemma TakenOver(run: seq<SystemEvent>)
    requires SystemAfter(Small, run) == Z5
    ensures SystemAfter(Small, run + [E5', E6, E7, Answer(W, true), E10]) == Z10
  {
    Step6'();
    Step7'();
    Step8'();
    Step9'();
    Step10'();
    Five(run, E5', E6, E7, Answer(W, true), E10, Z5, Z6, Z7, Z8, Z9, Z10);
  }

  lemma PutBack(run: seq<SystemEvent>)
    requires SystemAfter(Small, run) == Z10
    ensures SystemAfter(Small, run + [E11, Answer(V, true), Answer(V, true), E13, Answer(W, false)] + [Answer(W, true)]) == Z16
  {
    Step11'();
    Step12'();
    Step13'();
    Step14'();
    Step15'();
    Five(run, E11, Answer(V, true), Answer(V, true), E13, Answer(W, false), Z10, Z11, Z12, Z13, Z14, Z15);
    Step16'();
    Snoc(run + [E11, Answer(V, true), Answer(V, true), E13, Answer(W, false)], Answer(W, true), Z15, Z16);
  }

  lemma Sixteen<T>(a: T, b: T, c: T, d: T, e: T, f: T, g: T, h: T, i: T, j: T, k: T, l: T, m: T, n: T, o: T, p: T)
    ensures [] + [a, b, c, d, e] + [f, g, h, i, j] + [k, l, m, n, o] + [p] == [a, b, c, d, e, f, g, h, i, j, k, l, m, n, o, p]
  {
  }

  lemma EndsLate()
    ensures SystemAfter(Small, Late()) == Z16
  {
    Onboarded'();
    TakenOver([] + [E0, E1, E2, E3', E4]);
    PutBack([] + [E0, E1, E2, E3', E4] + [E5', E6, E7, Answer(W, true), E10]);
    Sixteen(E0, E1, E2, E3', E4, E5', E6, E7, Answer(W, true), E10, E11, Answer(V, true), Answer(V, true), E13, Answer(W, false), Answer(W, true));
  }

  lemma RoutedWithoutRow(y: System)
    requires y == Z16
    ensures "lab-a" in y.db.sessions && y.db.sessions["lab-a"].status.Up() && !LabBusy(y.db, "lab-a")
    ensures "app-2" in Served(y, "lab-a") && "app-2" !in Rows(y.db, "lab-a")
  {
    assert "app-2"[4] != "app-1"[4];
    assert "app-2" in Two && "app-2" !in FirstRow;
  }

  /** The operation succeeded, the lab serves and is idle, and the gateway routes to the removed instance. */
  lemma LateRestoreCanDisagree()
    ensures var y := SystemAfter(Small, Late());
      && Chosen("b") in y.db.ops && y.db.ops[Chosen("b")].status == Succeeded
      && "lab-a" in y.db.sessions && y.db.sessions["lab-a"].status.Up() && !LabBusy(y.db, "lab-a")
      && "app-2" in Served(y, "lab-a") && "app-2" !in Rows(y.db, "lab-a")
  {
    EndsLate();
    RoutedWithoutRow(SystemAfter(Small, Late()));
  }
}
