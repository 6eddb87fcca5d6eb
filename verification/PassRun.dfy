/** A run in which one lab's taken operation id keeps the scheduler from expiring another user's lab. */
module PassRun {
  import opened Domain
  import opened ById
  import opened Transactions
  import opened Coupling
  import opened CouplingProof
  import opened CapacityRun
  import opened Passes

  const Taken := SystemExpire("lab-a")

  /** User 1 resets lab-a under the id the scheduler derives for it, and the reset succeeds. */
  function TakeId(): seq<Event> {
    [ ActionEvent(1, "lab-a", Taken, ResetLab, None, 0),
      ClaimEvent(Taken, "w", 0, 9),
      StartEvent(Taken, "w", 9),
      CompleteEvent(Taken, "w", ProvisionReport(Success(Provided("lab-a"))), 0) ]
  }

  function Ahead(): seq<Event> {
    Onboard(1, Chosen("a"), "lab-a") + Onboard(2, Chosen("b"), "lab-b") + TakeId()
  }

  function ResetOp(status: OpStatus, owner: Option<Owner>, lease: Time, attempts: nat): Operation {
    Operation(2, "lab-a", 1, ResetLab, LabPayload(Cluster), status, owner, lease, attempts, 0)
  }

  function WithReset(status: OpStatus, owner: Option<Owner>, lease: Time, attempts: nat): State {
    State(TwoLabs.sessions, TwoLabs.instances, TwoLabs.ops[Taken := ResetOp(status, owner, lease, attempts)], 3)
  }

  const Blocked: State := WithReset(Succeeded, None, 0, 1)

  lemma IdTaken()
    ensures Next(Three, TwoLabs, TakeId()[0]).0 == WithReset(Pending, None, 0, 0)
  {
    Names();
    assert !LabBusy(TwoLabs, "lab-a");
  }

  lemma ResetLeased()
    ensures Next(Three, WithReset(Pending, None, 0, 0), TakeId()[1]).0 == WithReset(Claimed, Some("w"), 9, 1)
    ensures Next(Three, WithReset(Claimed, Some("w"), 9, 1), TakeId()[2]).0 == WithReset(Executing, Some("w"), 9, 1)
  {
    Twice(TwoLabs.ops, Taken, ResetOp(Pending, None, 0, 0), ResetOp(Claimed, Some("w"), 9, 1));
    Twice(TwoLabs.ops, Taken, ResetOp(Claimed, Some("w"), 9, 1), ResetOp(Executing, Some("w"), 9, 1));
  }

  lemma ResetDone()
    ensures Next(Three, WithReset(Executing, Some("w"), 9, 1), TakeId()[3]).0 == Blocked
  {
    Names();
    var s := WithReset(Executing, Some("w"), 9, 1);
    assert [First][..0] == [];
    assert RowsOf([First]) == OneRow;
    assert CheckedProvision(s.ops[Taken], Success(Provided("lab-a"))) == Success(Provided("lab-a"));
    Twice(TwoLabs.ops, Taken, ResetOp(Executing, Some("w"), 9, 1), ResetOp(Succeeded, None, 0, 1));
    assert s.instances["lab-a" := OneRow] == s.instances && s.sessions["lab-a" := Up(1)] == s.sessions;
  }

  lemma Taking()
    ensures From(Three, TwoLabs, TakeId()) == Blocked
  {
    var e := TakeId();
    IdTaken();
    ResetLeased();
    ResetDone();
    FromThree(Three, Next(Three, TwoLabs, e[0]).0, e[1..]);
    assert e[1..][0] == e[1] && e[1..][1] == e[2] && e[1..][2] == e[3];
  }

  lemma AheadEnds()
    ensures After(Three, Ahead()) == Blocked
  {
    var a, b := Onboard(1, Chosen("a"), "lab-a"), Onboard(2, Chosen("b"), "lab-b");
    AfterIsFrom(Three, Ahead());
    FromConcat(Three, EmptyState, a + b, TakeId());
    FromConcat(Three, EmptyState, a, b);
    FirstLab();
    SecondLab();
    Taking();
  }

  predicate AllHarmless(run: seq<Event>) {
    forall i :: 0 <= i < |run| ==> Harmless(run[i])
  }

  lemma HarmlessParts(a: seq<Event>, b: seq<Event>)
    requires AllHarmless(a) && AllHarmless(b)
    ensures AllHarmless(a + b)
  {
  }

  lemma AheadHarmless()
    ensures AllHarmless(Ahead())
  {
    var a, b := Onboard(1, Chosen("a"), "lab-a"), Onboard(2, Chosen("b"), "lab-b");
    HarmlessParts(a, b);
    HarmlessParts(a + b, TakeId());
  }

  lemma AheadTrusted()
    ensures TrustedRun(Three, Ahead())
  {
    AheadHarmless();
    HarmlessIsHonest(EmptyState, Ahead());
    HonestIsTrusted(Three, Ahead());
  }

  lemma InOrder()
    ensures Listing(Blocked, ["lab-a", "lab-b"])
  {
    Names();
    assert Before("lab-a", "lab-b") by {
      assert "lab-a"[1..] == "ab-a" && "ab-a"[1..] == "b-a" && "b-a"[1..] == "-a" && "-a"[1..] == "a";
      assert "lab-b"[1..] == "ab-b" && "ab-b"[1..] == "b-b" && "b-b"[1..] == "-b" && "-b"[1..] == "b";
      assert Before("a", "b");
      assert Before("-a", "-b");
      assert Before("b-a", "b-b");
      assert Before("ab-a", "ab-b");
    }
  }

  lemma BothIdle()
    ensures !LabBusy(Blocked, "lab-a") && !LabBusy(Blocked, "lab-b") && SystemExpire("lab-b") !in Blocked.ops
  {
    Names();
  }

  /** Lab-b is overdue, idle and its operation id is free; the pass stops at lab-a and leaves it. */
  lemma OverdueLabCanBeLeft()
    ensures TrustedRun(Three, Ahead()) && Listing(After(Three, Ahead()), ["lab-a", "lab-b"])
    ensures var s := After(Three, Ahead());
      && Due(Three, s, "lab-b", 100)
      && Pass(Three, s, ["lab-a", "lab-b"], Nothing(2), 100) == (s, Some("lab-a"))
      && Stuck(Three, s, "lab-a", 100)
  {
    AheadTrusted();
    AheadEnds();
    InOrder();
    BothIdle();
    TurnDecides(Three, Blocked, "lab-a", 100);
  }
}
