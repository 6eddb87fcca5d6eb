/** A run in which two labs, each with room for one more container, exceed the limit together. */
module CapacityRun {
  import opened Domain
  import opened Naming
  import opened Transactions
  import opened Coupling
  import opened CouplingProof
  import opened Capacity
  import opened CapacityLimit

  const Three := Config(Quota(2, 3, 2), Lifetime(100, 300, 1))

  const First := ProvisionedInstance("app-1", "c-1", "app-1", None, 1.0, 64, 100, 10, 100, 100)
  const Second := ProvisionedInstance("app-2", "c-2", "app-2", None, 1.0, 64, 100, 10, 100, 100)
  const OneRow: Instances := map["app-1" := InstanceRow(First)]
  const TwoRows: Instances := OneRow["app-2" := InstanceRow(Second).(status := InstanceRunning)]
  const One: Servers := map["app-1" := 100]
  const Two: Servers := One["app-2" := 100]

  function Provided(lab: LabId): ProvisionResult { ProvisionResult(lab, Cluster, true, [First], false) }
  function Add(id: OpId): ActionInput { ActionInput(id, AddInstance, None, None, [], None) }

  /** A user's lab is created and serves with one instance. */
  function Onboard(user: UserId, id: OpId, lab: LabId): seq<Event> {
    [ CreateEvent(user, 1, CourseOffers(Cluster), id, lab, 0),
      ClaimEvent(id, "w", 0, 9),
      StartEvent(id, "w", 9),
      CompleteEvent(id, "w", ProvisionReport(Success(Provided(lab))), 0) ]
  }

  /** An addition is worked on and succeeds. */
  function Enlarge(id: OpId): seq<Event> {
    [ ClaimEvent(id, "w", 1, 9), StartEvent(id, "w", 9), CompleteEvent(id, "w", TopologyReport(Success(Some(Second)), false), 0) ]
  }

  function Requests(): seq<Event> {
    [ SubmitEvent(1, "lab-a", Add(Chosen("c")), 1), SubmitEvent(2, "lab-b", Add(Chosen("d")), 1) ]
  }

  function Crowded(): seq<Event> {
    Onboard(1, Chosen("a"), "lab-a") + Onboard(2, Chosen("b"), "lab-b") + Requests() + Enlarge(Chosen("c")) + Enlarge(Chosen("d"))
  }

  // ----- Events in sequence ------------------------------------------------------------

  lemma FromThree(c: Config, s: State, e: seq<Event>)
    requires |e| == 3
    ensures From(c, s, e) == Next(c, Next(c, Next(c, s, e[0]).0, e[1]).0, e[2]).0
  {
    var s1 := Next(c, s, e[0]).0;
    var s2 := Next(c, s1, e[1]).0;
    assert e[1..][0] == e[1] && e[1..][1..] == e[2..] && e[2..][0] == e[2] && e[2..][1..] == [];
    assert From(c, s2, e[2..]) == Next(c, s2, e[2]).0;
    assert From(c, s1, e[1..]) == From(c, s2, e[2..]);
  }

  // ----- A lab comes up --------------------------------------------------------------------

  function CreateOp(row: nat, lab: LabId, user: UserId, status: OpStatus, owner: Option<Owner>, lease: Time, attempts: nat): Operation {
    Operation(row, lab, user, CreateLab, LabPayload(Cluster), status, owner, lease, attempts, 0)
  }

  function Up(user: UserId): Session {
    Session(user, 1, Cluster, Running, Fixed, false, NoRedisRow, Some(0), Some(0), None, None, 0)
  }

  function New(user: UserId): Session {
    Session(user, 1, Cluster, Preparing, Fixed, false, NoRedisRow, None, None, None, None, 0)
  }

  function WithCreate(s: State, user: UserId, id: OpId, lab: LabId, status: OpStatus, owner: Option<Owner>, lease: Time, attempts: nat): State {
    State(s.sessions[lab := New(user)], s.instances, s.ops[id := CreateOp(s.nextRow, lab, user, status, owner, lease, attempts)], s.nextRow + 1)
  }

  function WithLab(s: State, user: UserId, id: OpId, lab: LabId): State {
    State(s.sessions[lab := Up(user)], s.instances[lab := OneRow],
          s.ops[id := CreateOp(s.nextRow, lab, user, Succeeded, None, 0, 1)], s.nextRow + 1)
  }

  lemma Comes(s: State, user: UserId, id: OpId, lab: LabId)
    requires id !in s.ops && lab !in s.sessions && !UserActive(s, user)
    requires |ActiveLabs(s)| + 1 <= 2 && Reserved(s, ActiveLabs(s)) + 1 <= 3
    ensures Next(Three, s, Onboard(user, id, lab)[0]).0 == WithCreate(s, user, id, lab, Pending, None, 0, 0)
  {
  }

  lemma ComesUnder(s: State, user: UserId, id: OpId, lab: LabId)
    ensures Next(Three, WithCreate(s, user, id, lab, Pending, None, 0, 0), Onboard(user, id, lab)[1]).0
         == WithCreate(s, user, id, lab, Claimed, Some("w"), 9, 1)
    ensures Next(Three, WithCreate(s, user, id, lab, Claimed, Some("w"), 9, 1), Onboard(user, id, lab)[2]).0
         == WithCreate(s, user, id, lab, Executing, Some("w"), 9, 1)
  {
    var row := s.nextRow;
    Twice(s.ops, id, CreateOp(row, lab, user, Pending, None, 0, 0), CreateOp(row, lab, user, Claimed, Some("w"), 9, 1));
    Twice(s.ops, id, CreateOp(row, lab, user, Claimed, Some("w"), 9, 1), CreateOp(row, lab, user, Executing, Some("w"), 9, 1));
  }

  lemma Twice<K, V>(m: map<K, V>, k: K, a: V, b: V)
    ensures m[k := a][k := b] == m[k := b]
  {
  }

  lemma ComesUp(s: State, user: UserId, id: OpId, lab: LabId)
    ensures Next(Three, WithCreate(s, user, id, lab, Executing, Some("w"), 9, 1), Onboard(user, id, lab)[3]).0 == WithLab(s, user, id, lab)
  {
    var t, row := WithCreate(s, user, id, lab, Executing, Some("w"), 9, 1), s.nextRow;
    assert [First][..0] == [];
    assert RowsOf([First]) == OneRow;
    assert ProvisionComplete(lab, Provided(lab)) && CheckedProvision(t.ops[id], Success(Provided(lab))) == Success(Provided(lab));
    Twice(s.ops, id, CreateOp(row, lab, user, Executing, Some("w"), 9, 1), CreateOp(row, lab, user, Succeeded, None, 0, 1));
    Twice(s.sessions, lab, New(user), Up(user));
  }

  lemma Onboards(s: State, user: UserId, id: OpId, lab: LabId)
    requires id !in s.ops && lab !in s.sessions && !UserActive(s, user)
    requires |ActiveLabs(s)| + 1 <= 2 && Reserved(s, ActiveLabs(s)) + 1 <= 3
    ensures From(Three, s, Onboard(user, id, lab)) == WithLab(s, user, id, lab)
  {
    var e := Onboard(user, id, lab);
    Comes(s, user, id, lab);
    ComesUnder(s, user, id, lab);
    ComesUp(s, user, id, lab);
    FromThree(Three, Next(Three, s, e[0]).0, e[1..]);
    assert e[1..][0] == e[1] && e[1..][1] == e[2] && e[1..][2] == e[3];
  }

  // ----- An addition -------------------------------------------------------------------------

  function AddOp(row: nat, lab: LabId, user: UserId, id: OpId, status: OpStatus, owner: Option<Owner>, lease: Time, attempts: nat): Operation {
    Operation(row, lab, user, AddInstance, TopologyPayload(Add(id), "app-2", 100, 0, Two, One), status, owner, lease, attempts, 1)
  }

  lemma SecondName()
    ensures NextName({"app-1"}, 1, 2) == Some("app-2") && "app-2" != "app-1"
  {
    assert Decimal(1) == "1" && Decimal(2) == "2";
    assert InstanceName(1) == "app-1" && InstanceName(2) == "app-2";
    assert "app-2"[4] != "app-1"[4];
  }

  function WithAdd(s: State, user: UserId, id: OpId, lab: LabId): State {
    State(s.sessions, s.instances, s.ops[id := AddOp(s.nextRow, lab, user, id, Pending, None, 0, 0)], s.nextRow + 1)
  }

  /** The addition is accepted as long as the persisted containers leave room for one more. */
  lemma Requested(s: State, user: UserId, id: OpId, lab: LabId)
    requires lab in s.sessions && s.sessions[lab] == Up(user) && Rows(s, lab) == OneRow && !LabBusy(s, lab) && id !in s.ops
    requires ContainersInUse(s) + 1 <= 3
    ensures Next(Three, s, SubmitEvent(user, lab, Add(id), 1)) == (WithAdd(s, user, id, lab), Accepted(id))
  {
    SecondName();
    assert OneRow.Keys == {"app-1"} && UpRows(OneRow) == OneRow && WeightsOf(OneRow) == One && |OneRow| == 1;
    assert BuildTopology(OneRow, Fixed, Add(id), Three.quota, ContainersInUse(s)) == Built(TopologyPayload(Add(id), "app-2", 100, 0, Two, One));
  }

  /** The tables once the addition is complete. */
  function Enlarged(s: State, user: UserId, id: OpId, lab: LabId): State
    requires id in s.ops
  {
    State(s.sessions[lab := Up(user)], s.instances[lab := TwoRows],
          s.ops[id := AddOp(s.ops[id].row, lab, user, id, Succeeded, None, 0, 1)], s.nextRow)
  }

  lemma Enlarges(s: State, user: UserId, id: OpId, lab: LabId)
    requires id in s.ops && s.ops[id] == AddOp(s.ops[id].row, lab, user, id, Pending, None, 0, 0)
    requires lab in s.sessions && s.sessions[lab] == Up(user) && Rows(s, lab) == OneRow
    ensures From(Three, s, Enlarge(id)) == Enlarged(s, user, id, lab)
  {
    var e, row := Enlarge(id), s.ops[id].row;
    var claimed := s.(ops := s.ops[id := AddOp(row, lab, user, id, Claimed, Some("w"), 9, 1)]);
    var started := s.(ops := s.ops[id := AddOp(row, lab, user, id, Executing, Some("w"), 9, 1)]);
    assert Next(Three, s, e[0]).0 == claimed;
    Twice(s.ops, id, claimed.ops[id], started.ops[id]);
    assert Next(Three, claimed, e[1]).0 == started;
    AdditionApplied(started, user, id, lab);
    Twice(s.ops, id, started.ops[id], AddOp(row, lab, user, id, Succeeded, None, 0, 1));
    FromThree(Three, s, e);
  }

  lemma AdditionApplied(s: State, user: UserId, id: OpId, lab: LabId)
    requires id in s.ops && s.ops[id] == AddOp(s.ops[id].row, lab, user, id, Executing, Some("w"), 9, 1)
    requires lab in s.sessions && s.sessions[lab] == Up(user) && Rows(s, lab) == OneRow
    ensures Next(Three, s, Enlarge(id)[2]).0 == Enlarged(s, user, id, lab)
  {
    SecondName();
    assert TopologyOutcome(s.ops[id], Success(Some(Second)), false) == Success(NoResult.(instance := Some(Second)));
    assert ApplyTopology(Up(user), OneRow, AddInstance, NoResult.(instance := Some(Second))) == Applied(TwoRows, Fixed);
  }

  // ----- The run ----------------------------------------------------------------------------------

  lemma Names()
    ensures "lab-a" != "lab-b" && "app-1" != "app-2"
    ensures Chosen("a") != Chosen("b") && Chosen("a") != Chosen("c") && Chosen("a") != Chosen("d")
    ensures Chosen("b") != Chosen("c") && Chosen("b") != Chosen("d") && Chosen("c") != Chosen("d")
  {
    assert "lab-a"[4] != "lab-b"[4] && "app-1"[4] != "app-2"[4];
    assert "a"[0] == 'a' && "b"[0] == 'b' && "c"[0] == 'c' && "d"[0] == 'd';
  }

  const OneLab: State := WithLab(EmptyState, 1, Chosen("a"), "lab-a")
  const TwoLabs: State := WithLab(OneLab, 2, Chosen("b"), "lab-b")
  const OneAsked: State := WithAdd(TwoLabs, 1, Chosen("c"), "lab-a")
  const BothAsked: State := WithAdd(OneAsked, 2, Chosen("d"), "lab-b")

  lemma FirstLab()
    ensures From(Three, EmptyState, Onboard(1, Chosen("a"), "lab-a")) == OneLab
  {
    assert ActiveLabs(EmptyState) == {} && CacheLabs(EmptyState, {}) == {};
    Onboards(EmptyState, 1, Chosen("a"), "lab-a");
  }

  lemma SecondLab()
    ensures From(Three, OneLab, Onboard(2, Chosen("b"), "lab-b")) == TwoLabs
  {
    Names();
    assert ActiveLabs(OneLab) == {"lab-a"} && CacheLabs(OneLab, {"lab-a"}) == {};
    Onboards(OneLab, 2, Chosen("b"), "lab-b");
  }

  lemma TwoInUse(s: State)
    requires s.instances == TwoLabs.instances && s.sessions == TwoLabs.sessions
    ensures ContainersInUse(s) == 2
  {
    Names();
    assert InstancesInUse(s) == {("lab-a", "app-1"), ("lab-b", "app-1")};
    assert RedisInUse(s) == {};
  }

  /** Both additions are accepted one below the limit. */
  lemma BothAccepted()
    ensures Next(Three, TwoLabs, Requests()[0]) == (OneAsked, Accepted(Chosen("c")))
    ensures Next(Three, OneAsked, Requests()[1]) == (BothAsked, Accepted(Chosen("d")))
    ensures ContainersInUse(TwoLabs) == ContainersInUse(OneAsked) == Three.quota.maxContainers - 1
  {
    Names();
    TwoInUse(TwoLabs);
    TwoInUse(OneAsked);
    Requested(TwoLabs, 1, Chosen("c"), "lab-a");
    Requested(OneAsked, 2, Chosen("d"), "lab-b");
  }

  lemma Requesting()
    ensures From(Three, TwoLabs, Requests()) == BothAsked
  {
    BothAccepted();
    var e := Requests();
    assert e[1..][0] == e[1] && e[1..][1..] == [];
    assert From(Three, OneAsked, e[1..]) == BothAsked;
  }

  function Final(): State {
    Names();
    Enlarged(Enlarged(BothAsked, 1, Chosen("c"), "lab-a"), 2, Chosen("d"), "lab-b")
  }

  lemma BothEnlarge()
    ensures From(Three, From(Three, BothAsked, Enlarge(Chosen("c"))), Enlarge(Chosen("d"))) == Final()
  {
    Names();
    Enlarges(BothAsked, 1, Chosen("c"), "lab-a");
    Enlarges(Enlarged(BothAsked, 1, Chosen("c"), "lab-a"), 2, Chosen("d"), "lab-b");
  }

  lemma TwoLive()
    ensures LiveRows(TwoRows) == {"app-1", "app-2"} && |LiveRows(TwoRows)| == 2
  {
    Names();
  }

  lemma TwoLabsInUse(s: State)
    requires s.instances == map["lab-a" := TwoRows, "lab-b" := TwoRows]
    ensures InstancesInUse(s) == Pairs("lab-a", LiveRows(TwoRows)) + Pairs("lab-b", LiveRows(TwoRows))
    ensures |InstancesInUse(s)| == 4
  {
    Names();
    TwoLive();
    PairsSize("lab-a", LiveRows(TwoRows));
    PairsSize("lab-b", LiveRows(TwoRows));
    assert InstancesInUse(s) == Pairs("lab-a", LiveRows(TwoRows)) + Pairs("lab-b", LiveRows(TwoRows));
    assert Pairs("lab-a", LiveRows(TwoRows)) !! Pairs("lab-b", LiveRows(TwoRows));
  }

  lemma FourInUse()
    ensures ContainersInUse(Final()) == 4
  {
    FinalTables();
    NoRedis(Final());
    TwoLabsInUse(Final());
  }

  lemma FinalTables()
    ensures Final().instances == map["lab-a" := TwoRows, "lab-b" := TwoRows]
    ensures Final().sessions == map["lab-a" := Up(1), "lab-b" := Up(2)]
  {
    Names();
  }

  lemma NoRedis(s: State)
    requires s.sessions == map["lab-a" := Up(1), "lab-b" := Up(2)]
    ensures RedisInUse(s) == {}
  {
  }

  lemma QuietEnds()
    ensures From(Three, EmptyState, Onboard(1, Chosen("a"), "lab-a") + Onboard(2, Chosen("b"), "lab-b") + Requests()) == BothAsked
  {
    var a, b, r := Onboard(1, Chosen("a"), "lab-a"), Onboard(2, Chosen("b"), "lab-b"), Requests();
    FromConcat(Three, EmptyState, a + b, r);
    FromConcat(Three, EmptyState, a, b);
    FirstLab();
    SecondLab();
    Requesting();
  }

  lemma CrowdedEnds()
    ensures After(Three, Crowded()) == Final()
  {
    var quiet := Onboard(1, Chosen("a"), "lab-a") + Onboard(2, Chosen("b"), "lab-b") + Requests();
    var x, y := Enlarge(Chosen("c")), Enlarge(Chosen("d"));
    AfterIsFrom(Three, Crowded());
    FromConcat(Three, EmptyState, quiet + x, y);
    FromConcat(Three, EmptyState, quiet, x);
    QuietEnds();
    BothEnlarge();
  }

  /** The orchestrator is trusted in every event of a continuation. */
  predicate Honest(c: Config, s: State, ext: seq<Event>)
    decreases |ext|
  {
    ext != [] ==> Trusted(c, s, ext[0]) && Honest(c, Next(c, s, ext[0]).0, ext[1..])
  }

  lemma {:induction false} HonestParts(c: Config, s: State, a: seq<Event>, b: seq<Event>)
    ensures Honest(c, s, a + b) <==> Honest(c, s, a) && Honest(c, From(c, s, a), b)
    decreases |a|
  {
    if a == [] {
      assert a + b == b;
    } else {
      HonestParts(c, Next(c, s, a[0]).0, a[1..], b);
      assert (a + b)[0] == a[0] && (a + b)[1..] == a[1..] + b;
    }
  }

  lemma HonestIsTrusted(c: Config, run: seq<Event>)
    requires Honest(c, EmptyState, run)
    ensures TrustedRun(c, run)
  {
    forall k | 0 <= k < |run| ensures Trusted(c, After(c, run[..k]), run[k]) {
      assert run == run[..k] + run[k..] && run[k..][0] == run[k];
      HonestParts(c, EmptyState, run[..k], run[k..]);
      AfterIsFrom(c, run[..k]);
    }
  }

  /** Events whose answers can be trusted whatever the tables are. */
  predicate Harmless(e: Event) {
    e.CompleteEvent? ==> e.report == ProvisionReport(Success(Provided("lab-a"))) || e.report == ProvisionReport(Success(Provided("lab-b")))
  }

  lemma {:induction false} HarmlessIsHonest(s: State, ext: seq<Event>)
    requires forall i :: 0 <= i < |ext| ==> Harmless(ext[i])
    ensures Honest(Three, s, ext)
    decreases |ext|
  {
    if ext != [] {
      assert Harmless(ext[0]);
      HarmlessIsHonest(Next(Three, s, ext[0]).0, ext[1..]);
    }
  }

  lemma EnlargeIsHonest(s: State, user: UserId, id: OpId, lab: LabId)
    requires id in s.ops && s.ops[id] == AddOp(s.ops[id].row, lab, user, id, Pending, None, 0, 0)
    ensures Honest(Three, s, Enlarge(id))
  {
    var e := Enlarge(id);
    var s1 := Next(Three, s, e[0]).0;
    var s2 := Next(Three, s1, e[1]).0;
    assert id in s2.ops && s2.ops[id].payload == s.ops[id].payload;
    assert e[1..][0] == e[1] && e[1..][1..] == e[2..] && e[2..][0] == e[2] && e[2..][1..] == [];
    assert Honest(Three, s2, e[2..]);
    assert Honest(Three, s1, e[1..]);
  }

  lemma CrowdedTrusted()
    ensures TrustedRun(Three, Crowded())
  {
    Names();
    var quiet := Onboard(1, Chosen("a"), "lab-a") + Onboard(2, Chosen("b"), "lab-b") + Requests();
    var x, y := Enlarge(Chosen("c")), Enlarge(Chosen("d"));
    HarmlessIsHonest(EmptyState, quiet);
    QuietEnds();
    EnlargeIsHonest(BothAsked, 1, Chosen("c"), "lab-a");
    Enlarges(BothAsked, 1, Chosen("c"), "lab-a");
    EnlargeIsHonest(Enlarged(BothAsked, 1, Chosen("c"), "lab-a"), 2, Chosen("d"), "lab-b");
    HonestParts(Three, EmptyState, quiet, x);
    FromConcat(Three, EmptyState, quiet, x);
    HonestParts(Three, EmptyState, quiet + x, y);
    HonestIsTrusted(Three, Crowded());
  }

  /** The limit of three is exceeded: four containers are persisted. */
  lemma LimitCanBeExceeded()
    ensures TrustedRun(Three, Crowded())
    ensures ContainersInUse(After(Three, Crowded())) == 4 > Three.quota.maxContainers
  {
    CrowdedTrusted();
    CrowdedEnds();
    FourInUse();
  }
}
