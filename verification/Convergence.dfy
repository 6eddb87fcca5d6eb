/**
 The controller in its loop: with a fixed configuration and balanced loads,
 one adjustment is enough.
 */
module Convergence {
  import opened Domain
  import opened ById
  import opened Weights
  import opened Metrics
  import opened Algorithm
  import opened Controller

  /** One sampling of a lab: the listed instances, their smoothed loads and the store's replies. */
  datatype Listing = Listing(xs: seq<Server>, loads: Loads, now: Time, lookup: Lookup, idMade: bool, answer: Answer)

  function Read(l: Listing): Reading {
    Reading(Look(l.xs, l.loads), l.now, l.lookup, l.idMade, l.answer)
  }

  function StateAfter(c: Tuning, s: Control, run: seq<Listing>): Control
    requires c.Valid()
  {
    if run == [] then s else SampleLab(c, StateAfter(c, s, run[..|run| - 1]), Read(run[|run| - 1])).0
  }

  function NoteAfter(c: Tuning, s: Control, run: seq<Listing>): Note
    requires c.Valid() && run != []
  {
    SampleLab(c, StateAfter(c, s, run[..|run| - 1]), Read(run[|run| - 1])).1
  }

  /** Adjustments queued during the run. */
  function QueuedCount(c: Tuning, s: Control, run: seq<Listing>): nat
    requires c.Valid()
  {
    if run == [] then 0
    else
      var note := NoteAfter(c, s, run);
      QueuedCount(c, s, run[..|run| - 1]) + if note.Asked? && note.answer.Queued? then 1 else 0
  }

  /** Where the first adjustment queued during the run stands, with its weights. */
  datatype Progress = Open | Outstanding(ws: seq<NameWeight>) | Complete(ws: seq<NameWeight>)

  function Advance(p: Progress, note: Note, targets: seq<NameWeight>): Progress {
    if p.Open? && note.Asked? && note.answer.Queued? then Outstanding(targets)
    else if p.Outstanding? && note.Confirmed? then Complete(p.ws)
    else p
  }

  function ProgressAfter(c: Tuning, s: Control, run: seq<Listing>): Progress
    requires c.Valid()
  {
    if run == [] then Open
    else Advance(ProgressAfter(c, s, run[..|run| - 1]), NoteAfter(c, s, run), StateAfter(c, s, run).targets)
  }

  /** The configuration is `config` and no two load ratios are more than 0.05 apart. */
  predicate Steady(l: Listing, config: Config) {
    && Eligible(l.xs) && DistinctIds(l.xs) && ConfigPrint(l.xs) == config
    && ValidServers(l.xs, l.loads) && Balanced(l.xs, l.loads)
  }

  /** The queued adjustment does not fail, and once it is reported done the instances carry its weights. */
  predicate Obliging(p: Progress, l: Listing) {
    && (p.Outstanding? ==> l.lookup == Unreadable || l.lookup == StillInFlight || l.lookup == Applied(false))
    && (p.Complete? ==> CarriesTargets(Sort(l.xs), p.ws))
  }

  predicate SteadyRun(c: Tuning, s: Control, run: seq<Listing>, config: Config)
    requires c.Valid()
  {
    run != [] ==>
      && SteadyRun(c, s, run[..|run| - 1], config)
      && Steady(run[|run| - 1], config)
      && Obliging(ProgressAfter(c, s, run[..|run| - 1]), run[|run| - 1])
  }

  /** With balanced loads the targets depend on the configuration alone. */
  lemma ConfigDecidesTarget(xs: seq<Server>, loads: Loads, ys: seq<Server>, others: Loads)
    requires xs != [] && ys != [] && ConfigPrint(xs) == ConfigPrint(ys)
    requires ValidServers(xs, loads) && ValidServers(ys, others) && Balanced(xs, loads) && Balanced(ys, others)
    ensures Target(xs, loads) == Target(ys, others)
  {
    var vs, us := Sort(xs), Sort(ys);
    SortedIsValid(xs, loads);
    SortedIsValid(ys, others);
    SortedIsBalanced(xs, loads);
    SortedIsBalanced(ys, others);
    forall i | 0 <= i < |vs| ensures i < |us| && vs[i].id == us[i].id && vs[i].speed == us[i].speed {
      assert ConfigPrint(xs)[i] == ConfigPrint(ys)[i];
    }
    assert |vs| == |ConfigPrint(xs)| == |us|;
    PairedTargets(vs, loads, us, others);
  }

  lemma TargetIsProper(xs: seq<Server>, loads: Loads)
    requires Eligible(xs) && DistinctIds(xs) && ValidServers(xs, loads)
    ensures ProperTargets(Target(xs, loads))
  {
    var ws, vs := Target(xs, loads), Sort(xs);
    TargetShape(xs, loads);
    SortedIsValid(xs, loads);
    forall i | 0 <= i < |ws| ensures ws[i].name != "" {
      assert ValidServer(vs[i], loads);
    }
    forall i, j | 0 <= i < j < |ws| ensures ws[i].name != ws[j].name {
      BeforeIsStrict(ws[i].name, ws[j].name);
    }
  }

  predicate Holds(c: Tuning, s: Control, p: Progress, config: Config, targets: seq<NameWeight>) {
    match p
    case Open => true
    case Outstanding(ws) => ws == targets && s.op.Some? && s.config == Some(config) && s.samples >= c.stableSamples
    case Complete(ws) =>
      && ws == targets && s.op.None? && s.config == Some(config) && s.samples >= c.stableSamples
      && s.stable >= c.stableSamples && s.status == Stable
  }

  lemma ReadingHolds(c: Tuning, s: Control, p: Progress, e: Reading, config: Config, targets: seq<NameWeight>)
    requires c.Valid() && Holds(c, s, p, config, targets) && e.view.Fit? && e.view.config == config && e.view.targets == targets
    requires p.Outstanding? ==> e.lookup == Unreadable || e.lookup == StillInFlight || e.lookup == Applied(false)
    requires p.Complete? ==> e.view.within
    ensures var (t, note) := SampleLab(c, s, e);
      && Holds(c, t, Advance(p, note, t.targets), config, targets)
      && (p.Open? || !note.Asked?)
  {}

  /** The listing of a steady lab, as the controller reads it. */
  lemma SteadyReading(l: Listing, p: Progress, config: Config, targets: seq<NameWeight>, first: Listing)
    requires Steady(l, config) && Steady(first, config) && targets == Target(first.xs, first.loads)
    requires p.Complete? ==> p.ws == targets && CarriesTargets(Sort(l.xs), p.ws)
    ensures var view := Read(l).view;
      view.Fit? && view.config == config && view.targets == targets && (p.Complete? ==> view.within)
  {
    ConfigDecidesTarget(l.xs, l.loads, first.xs, first.loads);
    if p.Complete? {
      TargetIsProper(l.xs, l.loads);
      AppliedIsWithinShares(l.xs, targets);
    }
  }

  lemma {:induction false} SteadyHolds(c: Tuning, s: Control, run: seq<Listing>, config: Config, first: Listing)
    requires c.Valid() && SteadyRun(c, s, run, config) && Steady(first, config)
    ensures Holds(c, StateAfter(c, s, run), ProgressAfter(c, s, run), config, Target(first.xs, first.loads))
    ensures QueuedCount(c, s, run) == if ProgressAfter(c, s, run).Open? then 0 else 1
  {
    if run != [] {
      var front, l := run[..|run| - 1], run[|run| - 1];
      SteadyHolds(c, s, front, config, first);
      var p, targets := ProgressAfter(c, s, front), Target(first.xs, first.loads);
      SteadyReading(l, p, config, targets, first);
      ReadingHolds(c, StateAfter(c, s, front), p, Read(l), config, targets);
    }
  }

  /** From any control state, while the configuration stays fixed and loads balanced, at most one
      further adjustment is queued; from the sample that reports it done, the controller is stable. */
  lemma SteadyLabConverges(c: Tuning, s: Control, run: seq<Listing>, config: Config)
    requires c.Valid() && SteadyRun(c, s, run, config)
    ensures QueuedCount(c, s, run) <= 1
    ensures ProgressAfter(c, s, run).Complete? ==> StateAfter(c, s, run).status == Stable && StateAfter(c, s, run).op.None?
  {
    if run != [] {
      SteadyHolds(c, s, run, config, run[|run| - 1]);
    }
  }
}
