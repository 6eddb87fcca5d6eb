/**
 The controller together with the control plane: it lists the rows, looks up its
 adjustment and requests new ones, while requests, workers and the scheduler go on.
 */
module ClosedLoop {
  import opened Domain
  import opened ById
  import opened Weights
  import opened Metrics
  import opened Algorithm
  import opened Controller
  import opened Convergence
  import C = Coupling
  import P = CouplingProof
  import T = Transactions
  import A = Adjustments

  /** Control-plane events, a listing of the lab, and more events until the controller looks up its adjustment
      and asks for a new one, as this user and for this topology. */
  datatype Period = Period(events: seq<C.Event>, listing: Listing, meanwhile: seq<C.Event>, user: UserId, topology: Fingerprint)

  datatype Loop = Loop(db: State, control: Control, progress: Progress)

  function Listed(c: C.Config, y: Loop, p: Period): State {
    C.From(c, y.db, p.events)
  }

  function Reached(c: C.Config, y: Loop, p: Period): State {
    C.From(c, Listed(c, y, p), p.meanwhile)
  }

  function Asking(lab: LabId, p: Period, op: OpId, targets: seq<NameWeight>): C.Event {
    C.AdjustEvent(p.user, lab, op, p.topology, targets, p.listing.now)
  }

  function Turn(c: C.Config, k: Tuning, lab: LabId, y: Loop, p: Period): Loop
    requires k.Valid()
  {
    var s := Reached(c, y, p);
    var (control, note) := SampleLab(k, y.control, Read(p.listing));
    var db := if note.Asked? && note.answer.Queued? then C.Next(c, s, Asking(lab, p, note.answer.op, control.targets)).0 else s;
    Loop(db, control, Advance(y.progress, note, control.targets))
  }

  function LoopAfter(c: C.Config, k: Tuning, lab: LabId, y: Loop, run: seq<Period>): Loop
    requires k.Valid()
  {
    if run == [] then y else Turn(c, k, lab, LoopAfter(c, k, lab, y, run[..|run| - 1]), run[|run| - 1])
  }

  // ----- How listing, look-up and answer come from the tables ---------------------------

  /** Every row of the lab, in any order. */
  predicate Lists(xs: seq<Server>, rows: Instances) {
    && |xs| == |rows| && DistinctIds(xs)
    && forall i :: 0 <= i < |xs| ==>
         xs[i].id in rows && xs[i].weight == rows[xs[i].id].weight && xs[i].speed == rows[xs[i].id].speed
         && xs[i].maxLoad == rows[xs[i].id].maxLoad && xs[i].running == (rows[xs[i].id].status == InstanceRunning)
         && (xs[i].container != "" ==> rows[xs[i].id].container == Some(xs[i].container))
  }

  /** What the store answers about an operation none of whose completions were skipped. */
  predicate LookedUp(s: State, id: OpId, lookup: Lookup) {
    lookup == Unreadable ||
    (id in s.ops && if s.ops[id].status.InFlight() then lookup == StillInFlight
                    else if s.ops[id].status == Succeeded then lookup == Applied(false)
                    else lookup.Refuted?)
  }

  /** The adjustment whose completion is awaited. */
  function Awaited(y: Loop): Option<OpId> {
    if y.progress.Outstanding? then y.control.op else None
  }

  /** From the first queued adjustment on, no operation of the lab is completed but that adjustment, as routed.
      The configuration is fixed and the loads are balanced. */
  predicate Linked(c: C.Config, k: Tuning, lab: LabId, y: Loop, p: Period, config: Config)
    requires k.Valid()
  {
    var (control, note) := SampleLab(k, y.control, Read(p.listing));
    && A.Stretch(c, y.db, p.events, lab, Awaited(y), !y.progress.Open?)
    && A.Stretch(c, Listed(c, y, p), p.meanwhile, lab, Awaited(y), !y.progress.Open?)
    && Lists(p.listing.xs, T.Rows(Listed(c, y, p), lab)) && Steady(p.listing, config)
    && (Awaited(y).Some? ==> LookedUp(Reached(c, y, p), Awaited(y).value, p.listing.lookup))
    && (note.Asked? && note.answer.Queued? ==>
          C.Next(c, Reached(c, y, p), Asking(lab, p, note.answer.op, control.targets)).1.Accepted?)
  }

  predicate LoopRun(c: C.Config, k: Tuning, lab: LabId, y: Loop, run: seq<Period>, config: Config)
    requires k.Valid()
  {
    run != [] ==>
      && LoopRun(c, k, lab, y, run[..|run| - 1], config)
      && Linked(c, k, lab, LoopAfter(c, k, lab, y, run[..|run| - 1]), run[|run| - 1], config)
  }

  // ----- What the store makes true ---------------------------------------------------------

  ghost predicate Tied(c: C.Config, lab: LabId, y: Loop) {
    && C.Inv(c, y.db)
    && (match y.progress
        case Open => true
        case Outstanding(ws) => y.control.op.Some? && A.Adjusts(y.db, y.control.op.value, lab, ws)
        case Complete(ws) => A.Carries(y.db, lab, ws))
  }

  lemma {:induction false} WeightMapAt(ws: seq<NameWeight>, i: nat)
    requires i < |ws| && forall j, k :: 0 <= j < k < |ws| ==> ws[j].name != ws[k].name
    ensures ws[i].name in T.WeightMap(ws) && T.WeightMap(ws)[ws[i].name] == ws[i].weight
  {
    if i < |ws| - 1 {
      assert ws[..|ws| - 1][i] == ws[i];
      WeightMapAt(ws[..|ws| - 1], i);
    }
  }

  /** Rows that carry the targets are listed with them. */
  lemma ListedCarries(xs: seq<Server>, loads: Loads, rows: Instances, ws: seq<NameWeight>)
    requires Lists(xs, rows) && xs != [] && ValidServers(xs, loads) && ws == Target(xs, loads)
    requires T.WeightsOf(rows) == T.WeightMap(ws)
    ensures CarriesTargets(Sort(xs), ws)
  {
    var vs := Sort(xs);
    TargetShape(xs, loads);
    forall i, j | 0 <= i < j < |ws| ensures ws[i].name != ws[j].name {
      BeforeIsStrict(ws[i].name, ws[j].name);
    }
    forall i | 0 <= i < |vs| ensures vs[i].weight == ws[i].weight {
      assert vs[i] in multiset(xs);
      WeightMapAt(ws, i);
    }
  }

  /** Where the tables stand when the controller lists the lab, and when it looks up its adjustment. */
  lemma StretchTied(c: C.Config, lab: LabId, y: Loop, ext: seq<C.Event>)
    requires Tied(c, lab, y) && A.Stretch(c, y.db, ext, lab, Awaited(y), !y.progress.Open?)
    ensures Tied(c, lab, y.(db := C.From(c, y.db, ext)))
  {
    A.StretchKeepsInv(c, y.db, ext, lab, Awaited(y), !y.progress.Open?);
    match y.progress
    case Open =>
    case Outstanding(ws) => A.StretchKeepsAdjustment(c, y.db, ext, lab, y.control.op.value, ws);
    case Complete(ws) => A.StretchKeepsWeights(c, y.db, ext, lab, ws);
  }

  lemma StoreObliges(c: C.Config, lab: LabId, y: Loop, s: State, l: Listing)
    requires Tied(c, lab, y) && Tied(c, lab, y.(db := s))
    requires Lists(l.xs, T.Rows(y.db, lab)) && Eligible(l.xs) && ValidServers(l.xs, l.loads)
    requires Awaited(y).Some? ==> LookedUp(s, Awaited(y).value, l.lookup)
    requires y.progress.Complete? ==> y.progress.ws == Target(l.xs, l.loads)
    ensures Obliging(y.progress, l)
  {
    if y.progress.Complete? {
      ListedCarries(l.xs, l.loads, T.Rows(y.db, lab), y.progress.ws);
    }
  }

  /** What a sample makes of its adjustment: a new one is the controller's own, a confirmed one is applied. */
  lemma SampleOps(k: Tuning, s: Control, l: Listing)
    requires k.Valid()
    ensures var (t, note) := SampleLab(k, s, Read(l));
      && (note.Asked? && note.answer.Queued? ==> t.op == Some(note.answer.op))
      && (note.Confirmed? ==> s.op.Some? && l.lookup == Applied(false))
      && (s.op.Some? && (l.lookup == Unreadable || l.lookup == StillInFlight) ==> t.op == s.op && !note.Asked? && !note.Confirmed?)
      && (s.op.Some? && l.lookup == Applied(false) ==> note.Confirmed?)
  {
  }

  lemma TurnTied(c: C.Config, k: Tuning, lab: LabId, y: Loop, p: Period)
    requires k.Valid() && Tied(c, lab, y) && Tied(c, lab, y.(db := Reached(c, y, p))) && Obliging(y.progress, p.listing)
    requires Awaited(y).Some? ==> LookedUp(Reached(c, y, p), Awaited(y).value, p.listing.lookup)
    requires var (control, note) := SampleLab(k, y.control, Read(p.listing));
      && (note.Asked? ==> y.progress.Open?)
      && (note.Asked? && note.answer.Queued? ==>
            C.Next(c, Reached(c, y, p), Asking(lab, p, note.answer.op, control.targets)).1.Accepted?)
    ensures Tied(c, lab, Turn(c, k, lab, y, p))
  {
    var s := Reached(c, y, p);
    var (control, note) := SampleLab(k, y.control, Read(p.listing));
    SampleOps(k, y.control, p.listing);
    if note.Asked? && note.answer.Queued? {
      var op := note.answer.op;
      P.StepKeepsInv(c, s, Asking(lab, p, op, control.targets));
      A.AcceptedAdjusts(c, s, p.user, lab, op, p.topology, control.targets, p.listing.now);
    }
  }

  function Listings(run: seq<Period>): (r: seq<Listing>)
    ensures |r| == |run|
  {
    seq(|run|, i requires 0 <= i < |run| => run[i].listing)
  }

  lemma ListingsEnd(run: seq<Period>)
    requires run != []
    ensures Listings(run)[..|run| - 1] == Listings(run[..|run| - 1]) && Listings(run)[|run| - 1] == run[|run| - 1].listing
  {
  }

  /** One period: what the controller assumes of the store is so. */
  lemma PeriodObliges(c: C.Config, k: Tuning, lab: LabId, y: Loop, p: Period, config: Config, first: Listing)
    requires k.Valid() && Tied(c, lab, y) && Linked(c, k, lab, y, p, config) && Steady(first, config)
    requires Holds(k, y.control, y.progress, config, Target(first.xs, first.loads))
    ensures Obliging(y.progress, p.listing) && Tied(c, lab, Turn(c, k, lab, y, p))
  {
    var l, listed := p.listing, y.(db := Listed(c, y, p));
    StretchTied(c, lab, y, p.events);
    StretchTied(c, lab, listed, p.meanwhile);
    ConfigDecidesTarget(l.xs, l.loads, first.xs, first.loads);
    StoreObliges(c, lab, listed, Reached(c, y, p), l);
    SteadyReading(l, y.progress, config, Target(first.xs, first.loads), first);
    ReadingHolds(k, y.control, y.progress, Read(l), config, Target(first.xs, first.loads));
    TurnTied(c, k, lab, y, p);
  }

  /** The controller's part of the loop is a run of the controller alone, and the store obliges throughout. */
  lemma {:induction false} LoopIsSteady(c: C.Config, k: Tuning, lab: LabId, y: Loop, run: seq<Period>, config: Config)
    requires k.Valid() && C.Inv(c, y.db) && y.progress == Open && LoopRun(c, k, lab, y, run, config)
    ensures SteadyRun(k, y.control, Listings(run), config) && Tied(c, lab, LoopAfter(c, k, lab, y, run))
    ensures LoopAfter(c, k, lab, y, run).control == StateAfter(k, y.control, Listings(run))
    ensures LoopAfter(c, k, lab, y, run).progress == ProgressAfter(k, y.control, Listings(run))
  {
    if run != [] {
      var front, p := run[..|run| - 1], run[|run| - 1];
      ListingsEnd(run);
      LoopIsSteady(c, k, lab, y, front, config);
      SteadyHolds(k, y.control, Listings(front), config, p.listing);
      PeriodObliges(c, k, lab, LoopAfter(c, k, lab, y, front), p, config, p.listing);
    }
  }

  /** In the closed loop, from any control state and any tables that keep the coupling invariant: at most one
      further adjustment is queued; once it is reported done the controller is stable, and the rows of the lab
      carry the target weights. */
  lemma ClosedLoopConverges(c: C.Config, k: Tuning, lab: LabId, y: Loop, run: seq<Period>, config: Config)
    requires k.Valid() && C.Inv(c, y.db) && y.progress == Open && LoopRun(c, k, lab, y, run, config) && run != []
    ensures var z, last := LoopAfter(c, k, lab, y, run), run[|run| - 1].listing;
      && QueuedCount(k, y.control, Listings(run)) <= 1
      && (z.progress.Complete? ==> z.control.status == Stable && A.Carries(z.db, lab, Target(last.xs, last.loads)))
  {
    LoopIsSteady(c, k, lab, y, run, config);
    SteadyLabConverges(k, y.control, Listings(run), config);
    SteadyHolds(k, y.control, Listings(run), config, run[|run| - 1].listing);
  }
}
