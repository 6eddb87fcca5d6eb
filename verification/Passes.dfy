/**
 One pass of the lifecycle scheduler: the serving labs, least recently updated
 first, each advanced in a transaction of its own, until the first error.
 */
module Passes {
  import opened Domain
  import opened ById
  import opened Transactions
  import opened Coupling
  import opened Guarantees
  import opened Effects
  import opened CouplingProof
  import opened Evolution
  import opened Leases
  import opened ActiveSet
  import opened CapacitySteps

  // ----- The order of a pass --------------------------------------------------------

  /** Lab `a` comes before lab `b`: updated earlier, or at the same time with the smaller id. */
  predicate Sooner(s: State, a: LabId, b: LabId)
    requires a in s.sessions && b in s.sessions
  {
    s.sessions[a].updatedAt < s.sessions[b].updatedAt
    || (s.sessions[a].updatedAt == s.sessions[b].updatedAt && Before(a, b))
  }

  predicate Candidate(s: State, lab: LabId) {
    lab in s.sessions && s.sessions[lab].status.Up()
  }

  /** The candidates of a pass, in its order. */
  ghost predicate Listing(s: State, order: seq<LabId>) {
    InTurn(s, order) && forall lab :: lab in order <==> Candidate(s, lab)
  }

  lemma ListingIsDistinct(s: State, order: seq<LabId>, i: nat, j: nat)
    requires Listing(s, order) && i < j < |order|
    ensures order[i] != order[j]
  {
    BeforeIsStrict(order[i], order[j]);
  }

  predicate InTurn(s: State, order: seq<LabId>) {
    && (forall i :: 0 <= i < |order| ==> order[i] in s.sessions)
    && (forall i, j :: 0 <= i < j < |order| ==> Sooner(s, order[i], order[j]))
  }

  lemma SoonerOrTies(s: State, a: LabId, b: LabId)
    requires a in s.sessions && b in s.sessions && a != b
    ensures Sooner(s, a, b) || Sooner(s, b, a)
  {
    BeforeIsTotal(a, b);
  }

  lemma SoonerIsTransitive(s: State, a: LabId, b: LabId, d: LabId)
    requires a in s.sessions && b in s.sessions && d in s.sessions && Sooner(s, a, b) && Sooner(s, b, d)
    ensures Sooner(s, a, d)
  {
    if Before(a, b) && Before(b, d) {
      BeforeIsTransitive(a, b, d);
    }
  }

  /** A lab placed after those sooner than it, and before one that is not. */
  lemma PlacedInTurn(s: State, order: seq<LabId>, lab: LabId, p: nat)
    requires InTurn(s, order) && lab in s.sessions && lab !in order && p <= |order|
    requires (forall i :: 0 <= i < p ==> Sooner(s, order[i], lab)) && (p < |order| ==> !Sooner(s, order[p], lab))
    ensures InTurn(s, order[..p] + [lab] + order[p..])
  {
    forall j | p <= j < |order| ensures Sooner(s, lab, order[j]) {
      SoonerOrTies(s, order[p], lab);
      if j > p {
        SoonerIsTransitive(s, lab, order[p], order[j]);
      }
    }
    var placed := order[..p] + [lab] + order[p..];
    forall i, j | 0 <= i < j < |placed| ensures Sooner(s, placed[i], placed[j]) {
      assert placed[i] == (if i < p then order[i] else if i == p then lab else order[i - 1]);
      assert placed[j] == (if j < p then order[j] else if j == p then lab else order[j - 1]);
    }
  }

  // ----- One lab's turn ----------------------------------------------------------------

  /** Past its deadline, with no operation in flight. */
  predicate Overdue(c: Config, s: State, lab: LabId, now: Time) {
    && lab in s.sessions && s.sessions[lab].startedAt.Some? && s.sessions[lab].lastActionAt.Some?
    && now >= DeadlineOf(c, s.sessions[lab]) && !LabBusy(s, lab)
  }

  /** The lab's turn ends the pass: overdue, with its operation id taken or the lab no longer serving. */
  predicate Blocks(c: Config, s: State, lab: LabId, now: Time) {
    Overdue(c, s, lab, now) && (SystemExpire(lab) in s.ops || !s.sessions[lab].status.Up())
  }

  /** The lab's turn terminates it. */
  predicate Due(c: Config, s: State, lab: LabId, now: Time) {
    Overdue(c, s, lab, now) && SystemExpire(lab) !in s.ops && s.sessions[lab].status.Up()
  }

  lemma TurnDecides(c: Config, s: State, lab: LabId, now: Time)
    ensures var (t, reply) := Advance(s, lab, now, c.lifetime);
      && (reply.Refused? <==> Blocks(c, s, lab, now))
      && (reply == Accepted(SystemExpire(lab)) <==> Due(c, s, lab, now))
      && (reply.Refused? ==> t == s)
  {
  }

  // ----- A pass among other transactions ---------------------------------------------------

  /** Tables after a pass over `order`, where the events `between[i]` come before the i-th turn, and the lab
      whose turn ended the pass. */
  function Pass(c: Config, s: State, order: seq<LabId>, between: seq<seq<Event>>, now: Time): (State, Option<LabId>)
    requires |between| == |order|
    decreases |order|
  {
    if order == [] then (s, None)
    else
      var turn := From(c, s, between[0]);
      var (t, reply) := Advance(turn, order[0], now, c.lifetime);
      if reply.Refused? then (turn, Some(order[0])) else Pass(c, t, order[1..], between[1..], now)
  }

  /** The tables at the i-th turn, unless the pass ended before. */
  function Turn(c: Config, s: State, order: seq<LabId>, between: seq<seq<Event>>, now: Time, i: nat): Option<State>
    requires |between| == |order| && i < |order|
    decreases |order|
  {
    var turn := From(c, s, between[0]);
    if i == 0 then Some(turn)
    else
      var (t, reply) := Advance(turn, order[0], now, c.lifetime);
      if reply.Refused? then None else Turn(c, t, order[1..], between[1..], now, i - 1)
  }

  /** The pass terminates its i-th candidate. */
  predicate Terminates(c: Config, s: State, order: seq<LabId>, between: seq<seq<Event>>, now: Time, i: nat)
    requires |between| == |order| && i < |order|
  {
    var turn := Turn(c, s, order, between, now, i);
    turn.Some? && Advance(turn.value, order[i], now, c.lifetime).1 == Accepted(SystemExpire(order[i]))
  }

  predicate TurnBlocks(c: Config, s: State, order: seq<LabId>, between: seq<seq<Event>>, now: Time, j: nat)
    requires |between| == |order| && j < |order|
  {
    var turn := Turn(c, s, order, between, now, j);
    turn.None? || Blocks(c, turn.value, order[j], now)
  }

  predicate DueAtTurn(c: Config, s: State, order: seq<LabId>, between: seq<seq<Event>>, now: Time, i: nat)
    requires |between| == |order| && i < |order|
  {
    var turn := Turn(c, s, order, between, now, i);
    turn.Some? && Due(c, turn.value, order[i], now)
  }

  lemma {:induction false} TurnComesIff(c: Config, s: State, order: seq<LabId>, between: seq<seq<Event>>, now: Time, i: nat)
    requires |between| == |order| && i < |order|
    ensures Turn(c, s, order, between, now, i).Some? <==> forall j :: 0 <= j < i ==> !TurnBlocks(c, s, order, between, now, j)
    decreases |order|
  {
    if i > 0 {
      var turn := From(c, s, between[0]);
      var (t, reply) := Advance(turn, order[0], now, c.lifetime);
      TurnDecides(c, turn, order[0], now);
      assert TurnBlocks(c, s, order, between, now, 0) <==> reply.Refused?;
      if !reply.Refused? {
        TurnComesIff(c, t, order[1..], between[1..], now, i - 1);
        forall j | 1 <= j < i
          ensures TurnBlocks(c, s, order, between, now, j) <==> TurnBlocks(c, t, order[1..], between[1..], now, j - 1)
        {
        }
        assert forall j :: 0 <= j < i - 1 ==>
          (TurnBlocks(c, t, order[1..], between[1..], now, j) <==> TurnBlocks(c, s, order, between, now, j + 1));
      }
    }
  }

  /** Whatever happens between its turns, a pass terminates a candidate if and only if no earlier turn ended the
      pass and, when its own turn comes, the candidate serves, is idle and overdue, and its operation id is free. */
  lemma PassTerminatesIff(c: Config, s: State, order: seq<LabId>, between: seq<seq<Event>>, now: Time, i: nat)
    requires |between| == |order| && i < |order|
    ensures Terminates(c, s, order, between, now, i)
       <==> (forall j :: 0 <= j < i ==> !TurnBlocks(c, s, order, between, now, j))
            && DueAtTurn(c, s, order, between, now, i)
  {
    TurnComesIff(c, s, order, between, now, i);
    var turn := Turn(c, s, order, between, now, i);
    if turn.Some? {
      TurnDecides(c, turn.value, order[i], now);
    }
  }

  // ----- A pass on its own ---------------------------------------------------------------------

  function Nothing(n: nat): seq<seq<Event>> {
    seq(n, i => [])
  }

  lemma PassUnfolds(c: Config, s: State, order: seq<LabId>, i: nat, now: Time)
    requires i < |order|
    ensures var (t, reply) := Advance(s, order[i], now, c.lifetime);
      Pass(c, s, order[i..], Nothing(|order| - i), now)
      == if reply.Refused? then (s, Some(order[i])) else Pass(c, t, order[i + 1..], Nothing(|order| - (i + 1)), now)
    ensures Advance(s, order[i], now, c.lifetime).1.Refused? ==> Advance(s, order[i], now, c.lifetime).0 == s
  {
    TurnDecides(c, s, order[i], now);
    assert order[i..][1..] == order[i + 1..];
    assert Nothing(|order| - i)[1..] == Nothing(|order| - (i + 1));
  }

  /** What a lab's turn depends on. */
  predicate SameFor(s: State, t: State, lab: LabId) {
    && (lab in t.sessions <==> lab in s.sessions) && (lab in s.sessions ==> t.sessions[lab] == s.sessions[lab])
    && (SystemExpire(lab) in t.ops <==> SystemExpire(lab) in s.ops)
    && (LabBusy(t, lab) <==> LabBusy(s, lab))
  }

  lemma AdvanceLeaves(c: Config, s: State, lab: LabId, now: Time, other: LabId)
    requires lab != other
    ensures SameFor(s, Advance(s, lab, now, c.lifetime).0, other)
  {
    var t := Advance(s, lab, now, c.lifetime).0;
    forall id ensures OpInFlight(t, id, other) <==> OpInFlight(s, id, other) {}
    if LabBusy(s, other) {
      StillBusy(s, t, other);
    }
    if LabBusy(t, other) {
      StillBusy(t, s, other);
    }
  }

  predicate Distinct(order: seq<LabId>) {
    forall i, j :: 0 <= i < j < |order| ==> order[i] != order[j]
  }

  /** Left alone, a pass terminates a candidate if and only if it is overdue and idle with its operation id free,
      and no earlier candidate is overdue and idle with its operation id taken. */
  lemma {:induction false} QuietPassTerminatesIff(c: Config, s: State, order: seq<LabId>, now: Time, i: nat)
    requires Distinct(order) && i < |order|
    ensures Terminates(c, s, order, Nothing(|order|), now, i)
       <==> Due(c, s, order[i], now) && forall j :: 0 <= j < i ==> !Blocks(c, s, order[j], now)
    decreases |order|
  {
    TurnDecides(c, s, order[0], now);
    if i > 0 {
      var (t, reply) := Advance(s, order[0], now, c.lifetime);
      assert Nothing(|order|)[1..] == Nothing(|order| - 1);
      if !reply.Refused? {
        QuietPassTerminatesIff(c, t, order[1..], now, i - 1);
        forall j | 0 < j < |order| ensures SameFor(s, t, order[j]) {
          AdvanceLeaves(c, s, order[0], now, order[j]);
        }
        Transfer(c, s, t, order, now, i);
      }
    }
  }

  lemma Transfer(c: Config, s: State, t: State, order: seq<LabId>, now: Time, i: nat)
    requires 0 < i < |order| && !Blocks(c, s, order[0], now) && forall j :: 0 < j < |order| ==> SameFor(s, t, order[j])
    ensures (Due(c, t, order[1..][i - 1], now) && forall j :: 0 <= j < i - 1 ==> !Blocks(c, t, order[1..][j], now))
       <==> (Due(c, s, order[i], now) && forall j :: 0 <= j < i ==> !Blocks(c, s, order[j], now))
  {
    forall j | 0 < j < |order|
      ensures Due(c, t, order[j], now) == Due(c, s, order[j], now) && Blocks(c, t, order[j], now) == Blocks(c, s, order[j], now)
    {
      assert SameFor(s, t, order[j]);
    }
    assert forall j :: 0 <= j < i - 1 ==> order[1..][j] == order[j + 1];
  }

  lemma {:induction false} PassLeavesOthers(c: Config, s: State, order: seq<LabId>, now: Time, lab: LabId)
    requires lab !in order
    ensures SameFor(s, Pass(c, s, order, Nothing(|order|), now).0, lab)
    decreases |order|
  {
    if order != [] {
      var (t, reply) := Advance(s, order[0], now, c.lifetime);
      assert Nothing(|order|)[1..] == Nothing(|order| - 1);
      if !reply.Refused? {
        AdvanceLeaves(c, s, order[0], now, lab);
        PassLeavesOthers(c, t, order[1..], now, lab);
      }
    }
  }

  /** After a pass left alone, exactly the candidates it terminates are Terminating. */
  lemma {:induction false} PassEnds(c: Config, s: State, order: seq<LabId>, now: Time, i: nat)
    requires Distinct(order) && i < |order| && Candidate(s, order[i])
    ensures var t := Pass(c, s, order, Nothing(|order|), now).0;
      order[i] in t.sessions && (t.sessions[order[i]].status == Terminating <==> Terminates(c, s, order, Nothing(|order|), now, i))
    decreases |order|
  {
    var (t, reply) := Advance(s, order[0], now, c.lifetime);
    TurnDecides(c, s, order[0], now);
    assert Nothing(|order|)[1..] == Nothing(|order| - 1);
    if reply.Refused? {
    } else if i == 0 {
      assert order[0] !in order[1..];
      PassLeavesOthers(c, t, order[1..], now, order[0]);
    } else {
      AdvanceLeaves(c, s, order[0], now, order[i]);
      PassEnds(c, t, order[1..], now, i - 1);
    }
  }

  // ----- A blocked lab at the head ------------------------------------------------------------------

  /** The lab is a candidate before all others. */
  ghost predicate Heads(s: State, lab: LabId) {
    Candidate(s, lab) && forall l :: Candidate(s, l) && l != lab ==> Sooner(s, lab, l)
  }

  /** The lab heads every pass and, from `clock` on, ends it. */
  ghost predicate Stuck(c: Config, s: State, lab: LabId, clock: Time) {
    Heads(s, lab) && Blocks(c, s, lab, clock)
  }

  /** A transaction after the lab's last update, other than an advance, that accepts no request for the lab. */
  predicate Aside(c: Config, s: State, e: Event, lab: LabId) {
    && !e.AdvanceEvent? && Trusted(c, s, e)
    && (lab in s.sessions && (e.CreateEvent? || e.ActionEvent? || e.SubmitEvent? || e.AdjustEvent? || e.CompleteEvent?) ==>
          e.now > s.sessions[lab].updatedAt)
    && (Enqueueing(e) && Next(c, s, e).1.Accepted? ==> e.lab != lab)
  }

  /** Rows that change are stamped with the time of the change. */
  lemma CompletionStamps(s: State, id: OpId, owner: Owner, report: Report, now: Time, l: LabId)
    ensures var t := Complete(s, id, owner, report, now).0;
      l in t.sessions ==> l in s.sessions && (t.sessions[l] == s.sessions[l] || t.sessions[l].updatedAt == now)
  {
  }

  lemma CreateStamps(c: Config, s: State, e: Event, l: LabId)
    requires (e.CreateEvent? || e.ActionEvent?) && l in Next(c, s, e).0.sessions
    ensures var t := Next(c, s, e).0; (l in s.sessions && t.sessions[l] == s.sessions[l]) || t.sessions[l].updatedAt == e.now
  {
  }

  lemma AsideStamps(c: Config, s: State, e: Event, lab: LabId, l: LabId)
    requires Inv(c, s) && lab in s.sessions && Aside(c, s, e, lab) && l in Next(c, s, e).0.sessions
    ensures var t := Next(c, s, e).0;
      (l in s.sessions && t.sessions[l] == s.sessions[l]) || t.sessions[l].updatedAt > s.sessions[lab].updatedAt
  {
    match e
    case CreateEvent(_, _, _, _, _, _) => CreateStamps(c, s, e, l);
    case ActionEvent(_, _, _, _, _, _) => CreateStamps(c, s, e, l);
    case SubmitEvent(user, lb, input, now) => SubmitEnqueues(s, c.quota, user, lb, input, now);
    case AdjustEvent(user, lb, id, topology, ws, now) => AdjustEnqueues(s, user, lb, id, topology, ws, now);
    case CompleteEvent(id, owner, report, now) => CompletionStamps(s, id, owner, report, now, l);
    case _ =>
  }

  lemma RequestAside(c: Config, s: State, e: Event, lab: LabId)
    requires OpsOk(c, s) && Enqueueing(e) && !e.AdvanceEvent? && lab in s.sessions && !LabBusy(s, lab)
    requires Next(c, s, e).1.Accepted? ==> e.lab != lab
    ensures var t := Next(c, s, e).0; lab in t.sessions && t.sessions[lab] == s.sessions[lab] && !LabBusy(t, lab)
  {
    var (t, reply) := Next(c, s, e);
    if reply.Accepted? {
      match e {
        case CreateEvent(_, _, _, _, _, _) => CreateRequests(c, s, e);
        case ActionEvent(_, _, _, _, _, _) => ActionRequests(c, s, e);
        case SubmitEvent(_, _, _, _) => SubmitRequests(c, s, e);
        case AdjustEvent(_, _, _, _, _, _) => AdjustRequests(c, s, e);
      }
      forall i | i in t.ops ensures !OpInFlight(t, i, lab) {
        assert !OpInFlight(s, i, lab);
      }
    } else {
      RequestRefused(c, s, e);
    }
  }

  lemma RequestRefused(c: Config, s: State, e: Event)
    requires Enqueueing(e) && !e.AdvanceEvent? && !Next(c, s, e).1.Accepted?
    ensures Next(c, s, e).0.sessions == s.sessions && Next(c, s, e).0.ops == s.ops
  {
    EnqueueEffect(c, s, e);
    match e
    case CreateEvent(user, course, lookup, id, lab, now) => CreateRefused(s, c.quota, user, course, lookup, id, lab, now);
    case ActionEvent(user, lab, id, action, reason, now) => ActionRefused(s, user, lab, id, action, reason, now);
    case SubmitEvent(user, lab, input, now) => SubmitEnqueues(s, c.quota, user, lab, input, now);
    case AdjustEvent(user, lab, id, topology, ws, now) => AdjustEnqueues(s, user, lab, id, topology, ws, now);
  }

  lemma WorkerAside(c: Config, s: State, e: Event, lab: LabId)
    requires lab in s.sessions && !LabBusy(s, lab) && (e.CompleteEvent? || e.ClaimEvent? || e.StartEvent?)
    ensures var t := Next(c, s, e).0; lab in t.sessions && t.sessions[lab] == s.sessions[lab] && !LabBusy(t, lab)
  {
    var t := Next(c, s, e).0;
    forall i | i in t.ops ensures !OpInFlight(t, i, lab) {
      assert i in s.ops ==> !OpInFlight(s, i, lab);
      WorkerKeepsIdle(c, s, e, i, lab);
    }
    if e.CompleteEvent? {
      IdleUntouched(s, e.id, e.owner, e.report, e.now, lab);
    }
  }

  lemma WorkerKeepsIdle(c: Config, s: State, e: Event, i: OpId, lab: LabId)
    requires (e.CompleteEvent? || e.ClaimEvent? || e.StartEvent?) && !OpInFlight(s, i, lab)
    ensures !OpInFlight(Next(c, s, e).0, i, lab)
  {
    if e.CompleteEvent? {
      if e.id != i {
        CompletionFrame(s, e.id, e.owner, e.report, e.now, i);
      } else {
        CompletionFinishes(s, i, e.owner, e.report, e.now);
      }
    }
  }

  /** Other transactions leave a stuck lab stuck. */
  lemma AsideKeepsStuck(c: Config, s: State, e: Event, lab: LabId, clock: Time)
    requires Inv(c, s) && Stuck(c, s, lab, clock) && Aside(c, s, e, lab)
    ensures Inv(c, Next(c, s, e).0) && Stuck(c, Next(c, s, e).0, lab, clock)
  {
    var t := Next(c, s, e).0;
    StepKeepsInv(c, s, e);
    StepEvolves(c, s, e);
    if Enqueueing(e) {
      RequestAside(c, s, e, lab);
    } else {
      WorkerAside(c, s, e, lab);
    }
    forall l | Candidate(t, l) && l != lab ensures Sooner(t, lab, l) {
      AsideStamps(c, s, e, lab, l);
      assert Candidate(s, l) ==> Sooner(s, lab, l);
    }
  }

  ghost predicate AllAside(c: Config, s: State, ext: seq<Event>, lab: LabId)
    decreases |ext|
  {
    ext != [] ==> Aside(c, s, ext[0], lab) && AllAside(c, Next(c, s, ext[0]).0, ext[1..], lab)
  }

  lemma {:induction false} AllAsideKeepStuck(c: Config, s: State, ext: seq<Event>, lab: LabId, clock: Time)
    requires Inv(c, s) && Stuck(c, s, lab, clock) && AllAside(c, s, ext, lab)
    ensures Inv(c, From(c, s, ext)) && Stuck(c, From(c, s, ext), lab, clock)
    decreases |ext|
  {
    if ext != [] {
      AsideKeepsStuck(c, s, ext[0], lab, clock);
      AllAsideKeepStuck(c, Next(c, s, ext[0]).0, ext[1..], lab, clock);
    }
  }

  lemma HeadIsFirst(s: State, lab: LabId, order: seq<LabId>)
    requires Heads(s, lab) && Listing(s, order)
    ensures order != [] && order[0] == lab
  {
    assert lab in order;
    var i :| 0 <= i < |order| && order[i] == lab;
    if i > 0 {
      assert order[0] in order && Candidate(s, order[0]);
      assert Sooner(s, order[0], lab);
      ListingIsDistinct(s, order, 0, i);
      BeforeIsStrict(order[0], lab);
    }
  }

  /** A pass, with the other transactions that come between its turns, or a transaction outside any pass. */
  datatype Round = PassRound(order: seq<LabId>, between: seq<seq<Event>>, now: Time) | OtherRound(e: Event)

  function AfterRound(c: Config, s: State, r: Round): State
    requires r.PassRound? ==> |r.between| == |r.order|
  {
    match r
    case PassRound(order, between, now) => Pass(c, s, order, between, now).0
    case OtherRound(e) => Next(c, s, e).0
  }

  /** What the other transactions of a round alone would make of the tables, up to the head's turn. */
  function OthersOnly(c: Config, s: State, r: Round): State {
    match r
    case PassRound(order, between, now) => if between == [] then s else From(c, s, between[0])
    case OtherRound(e) => Next(c, s, e).0
  }

  ghost predicate RoundAside(c: Config, s: State, r: Round, lab: LabId, clock: Time) {
    match r
    case PassRound(order, between, now) =>
      |between| == |order| && Listing(s, order) && now >= clock && (between != [] ==> AllAside(c, s, between[0], lab))
    case OtherRound(e) => Aside(c, s, e, lab)
  }

  lemma RoundDoesNothing(c: Config, s: State, r: Round, lab: LabId, clock: Time)
    requires Inv(c, s) && Stuck(c, s, lab, clock) && RoundAside(c, s, r, lab, clock)
    ensures AfterRound(c, s, r) == OthersOnly(c, s, r)
    ensures Inv(c, AfterRound(c, s, r)) && Stuck(c, AfterRound(c, s, r), lab, clock)
  {
    match r
    case OtherRound(e) => AsideKeepsStuck(c, s, e, lab, clock);
    case PassRound(order, between, now) =>
      HeadIsFirst(s, lab, order);
      AllAsideKeepStuck(c, s, between[0], lab, clock);
      TurnDecides(c, From(c, s, between[0]), lab, now);
  }

  function AfterRounds(c: Config, s: State, rounds: seq<Round>): State
    requires forall i :: 0 <= i < |rounds| && rounds[i].PassRound? ==> |rounds[i].between| == |rounds[i].order|
    decreases |rounds|
  {
    if rounds == [] then s else AfterRounds(c, AfterRound(c, s, rounds[0]), rounds[1..])
  }

  ghost predicate AllRoundsAside(c: Config, s: State, rounds: seq<Round>, lab: LabId, clock: Time)
    decreases |rounds|
  {
    rounds != [] ==>
      && RoundAside(c, s, rounds[0], lab, clock)
      && AllRoundsAside(c, OthersOnly(c, s, rounds[0]), rounds[1..], lab, clock)
  }

  function OnlyOthers(c: Config, s: State, rounds: seq<Round>): State
    decreases |rounds|
  {
    if rounds == [] then s else OnlyOthers(c, OthersOnly(c, s, rounds[0]), rounds[1..])
  }

  /** While a blocked lab heads the order, the scheduler does nothing at all: whatever passes run, the tables become
      what the other transactions alone make of them, and the lab stays at the head. No lab is expired. */
  lemma {:induction false} BlockedHeadStopsExpiry(c: Config, s: State, rounds: seq<Round>, lab: LabId, clock: Time)
    requires Inv(c, s) && Stuck(c, s, lab, clock) && AllRoundsAside(c, s, rounds, lab, clock)
    requires forall i :: 0 <= i < |rounds| && rounds[i].PassRound? ==> |rounds[i].between| == |rounds[i].order|
    ensures AfterRounds(c, s, rounds) == OnlyOthers(c, s, rounds) && Stuck(c, AfterRounds(c, s, rounds), lab, clock)
    decreases |rounds|
  {
    if rounds != [] {
      RoundDoesNothing(c, s, rounds[0], lab, clock);
      BlockedHeadStopsExpiry(c, AfterRound(c, s, rounds[0]), rounds[1..], lab, clock);
    }
  }
}
