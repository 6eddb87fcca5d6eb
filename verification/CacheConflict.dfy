/** A run in which a successful cache operation can no longer be committed. */
module CacheConflict {
  import opened Domain
  import opened Transactions
  import opened Coupling
  import opened CouplingProof

  const Small := Config(Quota(1, 4, 3), Lifetime(10, 30, 1))

  const App := ProvisionedInstance("app-1", "c-1", "app-1", None, 1.0, 64, 100, 10, 100, 100)
  const Provided := ProvisionResult("lab-a", MultiLevelCache, true, [App], true)
  const DropRedis := ActionInput(Chosen("b"), RemoveRedis, None, None, [], None)

  /** A cache lab is created and serves; its Redis is being removed when the scheduler marks it Expiring. */
  function Conflict(): seq<Event> {
    [ CreateEvent(1, 1, CourseOffers(MultiLevelCache), Chosen("a"), "lab-a", 0),
      ClaimEvent(Chosen("a"), "w", 0, 9),
      StartEvent(Chosen("a"), "w", 9),
      CompleteEvent(Chosen("a"), "w", ProvisionReport(Success(Provided)), 0),
      SubmitEvent(1, "lab-a", DropRedis, 1),
      ClaimEvent(Chosen("b"), "w", 1, 20),
      StartEvent(Chosen("b"), "w", 20),
      AdvanceEvent("lab-a", 9) ]
  }

  function Lab(status: LabStatus): Session {
    if status == Preparing then Session(1, 1, MultiLevelCache, Preparing, Fixed, false, NoRedisRow, None, None, None, None, 0)
    else Session(1, 1, MultiLevelCache, status, Fixed, true, RedisReady, Some(0), Some(0), None, None, if status == Expiring then 9 else 0)
  }

  function CreateOp(status: OpStatus, owner: Option<Owner>, lease: Time, attempts: nat): Operation {
    Operation(0, "lab-a", 1, CreateLab, LabPayload(MultiLevelCache), status, owner, lease, attempts, 0)
  }

  function DropOp(status: OpStatus, owner: Option<Owner>, lease: Time, attempts: nat): Operation {
    Operation(1, "lab-a", 1, RemoveRedis, CachePayload(MultiLevelCache, DropRedis), status, owner, lease, attempts, 1)
  }

  function Before(ops: Operation): State {
    State(map["lab-a" := Lab(Preparing)], map[], map[Chosen("a") := ops], 1)
  }

  function Serving(ops: map<OpId, Operation>, next: nat, status: LabStatus): State {
    State(map["lab-a" := Lab(status)], map["lab-a" := map["app-1" := InstanceRow(App)]], ops, next)
  }

  function WithDrop(status: OpStatus, owner: Option<Owner>, lease: Time, attempts: nat): map<OpId, Operation> {
    map[Chosen("a") := CreateOp(Succeeded, None, 0, 1), Chosen("b") := DropOp(status, owner, lease, attempts)]
  }

  /** The tables after each event. */
  function Stage(k: nat): State {
    if k == 0 then EmptyState
    else if k == 1 then Before(CreateOp(Pending, None, 0, 0))
    else if k == 2 then Before(CreateOp(Claimed, Some("w"), 9, 1))
    else if k == 3 then Before(CreateOp(Executing, Some("w"), 9, 1))
    else if k == 4 then Serving(map[Chosen("a") := CreateOp(Succeeded, None, 0, 1)], 1, Running)
    else if k == 5 then Serving(WithDrop(Pending, None, 0, 0), 2, Running)
    else if k == 6 then Serving(WithDrop(Claimed, Some("w"), 20, 1), 2, Running)
    else if k == 7 then Serving(WithDrop(Executing, Some("w"), 20, 1), 2, Running)
    else Serving(WithDrop(Executing, Some("w"), 20, 1), 2, Expiring)
  }

  lemma Created()
    ensures Next(Small, Stage(0), Conflict()[0]).0 == Stage(1)
  {
    assert ActiveLabs(EmptyState) == {} && CacheLabs(EmptyState, {}) == {};
  }

  lemma CreationLeased()
    ensures Next(Small, Stage(1), Conflict()[1]).0 == Stage(2)
    ensures Next(Small, Stage(2), Conflict()[2]).0 == Stage(3)
  {
    assert Stage(1).ops[Chosen("a") := CreateOp(Claimed, Some("w"), 9, 1)] == Stage(2).ops;
    assert Stage(2).ops[Chosen("a") := CreateOp(Executing, Some("w"), 9, 1)] == Stage(3).ops;
  }

  lemma ProvidedRows()
    ensures RowsOf([App]) == map["app-1" := InstanceRow(App)]
  {
    assert [App][..0] == [];
  }

  lemma CreationDone()
    ensures Next(Small, Stage(3), Conflict()[3]).0 == Stage(4)
  {
    ProvidedRows();
    assert ProvisionComplete("lab-a", Provided) && CheckedProvision(Stage(3).ops[Chosen("a")], Success(Provided)) == Success(Provided);
    var t := CompleteProvision(Stage(3), Chosen("a"), "w", Success(Provided), 0).0;
    assert t.ops == Stage(4).ops && t.sessions == Stage(4).sessions && t.instances == Stage(4).instances;
  }

  lemma RemovalQueued()
    ensures Next(Small, Stage(4), Conflict()[4]).0 == Stage(5)
  {
    var s := Stage(4);
    assert !LabBusy(s, "lab-a");
    assert EnqueueCache(s, 1, "lab-a", DropRedis, 1).1.Accepted?;
    assert s.ops[Chosen("b") := DropOp(Pending, None, 0, 0)] == Stage(5).ops;
  }

  lemma RemovalLeased()
    ensures Next(Small, Stage(5), Conflict()[5]).0 == Stage(6)
    ensures Next(Small, Stage(6), Conflict()[6]).0 == Stage(7)
  {
    assert Stage(5).ops[Chosen("b") := DropOp(Claimed, Some("w"), 20, 1)] == Stage(6).ops;
    assert Stage(6).ops[Chosen("b") := DropOp(Executing, Some("w"), 20, 1)] == Stage(7).ops;
  }

  lemma MarkedExpiring()
    ensures Next(Small, Stage(7), Conflict()[7]).0 == Stage(8)
  {
    assert Stage(7).sessions["lab-a" := Lab(Expiring)] == Stage(8).sessions;
  }

  lemma StageStep(k: nat)
    requires k < 8
    ensures Next(Small, Stage(k), Conflict()[k]).0 == Stage(k + 1)
  {
    if k == 0 {
      Created();
    } else if k <= 2 {
      CreationLeased();
    } else if k == 3 {
      CreationDone();
    } else if k == 4 {
      RemovalQueued();
    } else if k <= 6 {
      RemovalLeased();
    } else {
      MarkedExpiring();
    }
  }

  lemma {:induction false} Stages(k: nat)
    requires k <= 8
    ensures After(Small, Conflict()[..k]) == Stage(k)
  {
    if k > 0 {
      var r := Conflict();
      Stages(k - 1);
      assert r[..k] == r[..k - 1] + [r[k - 1]];
      AfterSnoc(Small, r[..k - 1], r[k - 1]);
      StageStep(k - 1);
    }
  }

  lemma ConflictTrusted()
    ensures TrustedRun(Small, Conflict())
  {
    var r := Conflict();
    forall k | 0 <= k < |r| ensures Trusted(Small, After(Small, r[..k]), r[k]) {
      assert r[k].CompleteEvent? ==> r[k].report == ProvisionReport(Success(Provided));
    }
  }

  lemma RefusedAtTheEnd(s: State)
    requires s.ops == WithDrop(Executing, Some("w"), 20, 1) && s.sessions == map["lab-a" := Lab(Expiring)]
    ensures HoldsLease(s, Chosen("b"), "w")
    ensures Complete(s, Chosen("b"), "w", CacheReport(Success(false)), 9).1 == Refused(StateConflict)
  {
  }

  /** The worker that removed the Redis container holds the lease, and its success is refused. */
  lemma SuccessCanBeRefused()
    ensures TrustedRun(Small, Conflict()) && HoldsLease(After(Small, Conflict()), Chosen("b"), "w")
    ensures Complete(After(Small, Conflict()), Chosen("b"), "w", CacheReport(Success(false)), 9).1 == Refused(StateConflict)
  {
    ConflictTrusted();
    Stages(8);
    assert Conflict()[..8] == Conflict();
    RefusedAtTheEnd(After(Small, Conflict()));
  }
}
