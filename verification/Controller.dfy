/**
 The adaptive controller: one control state per listed lab, advanced by samples.
 */
module Controller {
  import opened Domain
  import opened ById
  import opened Weights
  import opened Metrics
  import opened Algorithm

  datatype ControlStatus = Unset | Converging | Stable | Degraded

  datatype Control = Control(
    config: Option<Config>,
    samples: nat,
    stable: nat,
    status: ControlStatus,
    targets: seq<NameWeight>,
    op: Option<OpId>,
    failures: nat,
    nextRetry: Option<Time>,
    fault: Option<string>)

  const Fresh: Control := Control(None, 0, 0, Unset, [], None, 0, None, None)

  /** What the store says about the outstanding adjustment. */
  datatype Lookup = Unreadable | StillInFlight | Applied(skipped: bool) | Refuted(code: string) | OddStatus

  /** What the store answers to a new adjustment. */
  datatype Answer = Queued(op: OpId) | AnswerBusy | AnswerNoChange | AnswerStale | AnswerError

  /** The fields a configuration fingerprint identifies: the sorted instances without their weights. */
  type Config = seq<Server>

  /** What a sample makes of the instances: usable or not, and whether the current
      routing shares are within the threshold of the targets. */
  datatype View = Unfit | Fit(config: Config, targets: seq<NameWeight>, within: bool)

  datatype Reading = Reading(view: View, now: Time, lookup: Lookup, idMade: bool, answer: Answer)

  /** How a sample ended. */
  datatype Note =
    | Waiting | Confirmed | Superseded | Unusable | Gathering | Calm | Retrying | Asked(answer: Answer) | Aborted
  {
    predicate Evaluated() {
      Gathering? || Calm? || Retrying? || Asked?
    }
  }

  function ConfigPrint(xs: seq<Server>): Config {
    var vs := Sort(xs);
    seq(|vs|, i requires 0 <= i < |vs| => vs[i].(weight := 0))
  }

  function Look(xs: seq<Server>, loads: Loads): View {
    if !Eligible(xs) || !ValidServers(xs, loads) then Unfit
    else
      var targets := Target(xs, loads);
      Fit(ConfigPrint(xs), targets, WithinShares(xs, targets))
  }

  function Backoff(c: Tuning, failures: nat): int
    requires c.Valid()
  {
    var index := if failures == 0 then 0 else failures - 1;
    c.backoff[if index >= |c.backoff| then |c.backoff| - 1 else index]
  }

  datatype Settlement = Stop(state: Control, note: Note) | Go(state: Control)

  /** Looks after the outstanding adjustment, if there is one. */
  function Settle(c: Tuning, s: Control, lookup: Lookup, now: Time): Settlement
    requires c.Valid()
  {
    if s.op.None? then Go(s)
    else match lookup
      case Unreadable => Stop(s, Aborted)
      case OddStatus => Stop(s, Aborted)
      case StillInFlight => Stop(s.(status := Converging), Waiting)
      case Applied(skipped) =>
        var done := s.(op := None, failures := 0, nextRetry := None, fault := None);
        if skipped then Stop(done.(samples := 0, stable := 0, status := Converging), Superseded)
        else Stop(done.(stable := c.stableSamples, status := Stable), Confirmed)
      case Refuted(code) =>
        Go(s.(op := None, failures := s.failures + 1, nextRetry := Some(now + Backoff(c, s.failures + 1)),
              status := Degraded, fault := Some(code)))
  }

  function Counted(c: Tuning, s: Control, config: Config): Control {
    if s.config != Some(config)
    then s.(config := Some(config), samples := 1, stable := 0, failures := 0, nextRetry := None, fault := None)
    else if s.samples < c.stableSamples then s.(samples := s.samples + 1)
    else s
  }

  function Ask(c: Tuning, s: Control, now: Time, answer: Answer): Control
    requires c.Valid()
  {
    match answer
    case Queued(op) => s.(op := Some(op), status := Converging)
    case AnswerBusy => s.(status := Converging)
    case AnswerNoChange => s.(status := Stable, stable := c.stableSamples)
    case AnswerStale => s.(samples := 0, stable := 0, status := Converging)
    case AnswerError =>
      s.(failures := s.failures + 1, nextRetry := Some(now + Backoff(c, s.failures + 1)), status := Degraded,
         fault := Some("BALANCER_UNAVAILABLE"))
  }

  /** Decides on usable instances with their target weights. */
  function Decide(c: Tuning, before: Control, s: Control, e: Reading): (Control, Note)
    requires c.Valid() && e.view.Fit?
  {
    var s := Counted(c, s, e.view.config).(targets := e.view.targets);
    if s.samples < c.stableSamples then (s.(status := Converging), Gathering)
    else if e.view.within then
      var stable := if s.stable < c.stableSamples then s.stable + 1 else s.stable;
      (s.(stable := stable, status := if stable >= c.stableSamples then Stable else Converging,
          failures := 0, nextRetry := None, fault := None), Calm)
    else if s.nextRetry.Some? && e.now < s.nextRetry.value then (s.(stable := 0, status := Degraded), Retrying)
    else if !e.idMade then (before, Aborted)
    else (Ask(c, s.(stable := 0), e.now, e.answer), Asked(e.answer))
  }

  function SampleLab(c: Tuning, s: Control, e: Reading): (Control, Note)
    requires c.Valid()
  {
    match Settle(c, s, e.lookup, e.now)
    case Stop(t, note) => (t, note)
    case Go(t) =>
      if e.view.Unfit? then
        (t.(config := None, samples := 0, stable := 0, status := Converging, targets := []), Unusable)
      else Decide(c, s, t, e)
  }

  // ----- Runs ------------------------------------------------------------------------

  /** A lab that is no longer listed loses its control state. */
  datatype ControlEvent = Listed(sample: Reading) | Unlisted

  function Next(c: Tuning, s: Control, e: ControlEvent): Control
    requires c.Valid()
  {
    if e.Unlisted? then Fresh else SampleLab(c, s, e.sample).0
  }

  function After(c: Tuning, s: Control, run: seq<ControlEvent>): Control
    requires c.Valid()
  {
    if run == [] then s else Next(c, After(c, s, run[..|run| - 1]), run[|run| - 1])
  }

  /** How the last event of a run ended. */
  function LastNote(c: Tuning, s: Control, run: seq<ControlEvent>): Note
    requires c.Valid() && run != [] && run[|run| - 1].Listed?
  {
    SampleLab(c, After(c, s, run[..|run| - 1]), run[|run| - 1].sample).1
  }

  // ----- Every adjustment follows a full streak of equal samples -------------------------

  /** Consecutive evaluated samples with this configuration at the end of the run.
      Samples that only waited for an adjustment, or were given up, do not interrupt. */
  function Streak(c: Tuning, run: seq<ControlEvent>, config: Config): nat
    requires c.Valid()
  {
    if run == [] || run[|run| - 1].Unlisted? then 0
    else
      var front, e, note := run[..|run| - 1], run[|run| - 1].sample, LastNote(c, Fresh, run);
      if note.Unusable? then 0
      else if !note.Evaluated() then Streak(c, front, config)
      else if e.view.Fit? && e.view.config == config then Streak(c, front, config) + 1
      else 0
  }

  lemma DecideCounts(c: Tuning, before: Control, s: Control, e: Reading)
    requires c.Valid() && e.view.Fit?
    ensures var (t, note), config := Decide(c, before, s, e), e.view.config;
      var most := 1 + if s.config == Some(config) then s.samples else 0;
      && (note.Evaluated() || note.Aborted?)
      && (note.Evaluated() ==> t.config == Some(config) && t.samples <= most)
      && (note.Asked? ==> most >= c.stableSamples)
      && (note.Aborted? ==> t == before)
  {}

  /** What one sample does to the sample counter. */
  lemma SampleCounts(c: Tuning, s: Control, e: Reading)
    requires c.Valid()
    ensures var (t, note) := SampleLab(c, s, e);
      var most := 1 + if e.view.Fit? && s.config == Some(e.view.config) then s.samples else 0;
      && (note.Evaluated() ==> e.view.Fit? && t.config == Some(e.view.config) && t.samples <= most)
      && (note.Asked? ==> most >= c.stableSamples)
      && (note.Unusable? ==> t.config.None?)
      && (!note.Evaluated() && !note.Unusable? ==> t.config == s.config && t.samples <= s.samples)
  {
    match Settle(c, s, e.lookup, e.now)
    case Stop(_, _) =>
    case Go(t) =>
      if e.view.Fit? {
        DecideCounts(c, s, t, e);
      }
  }

  lemma {:induction false} SamplesWithinStreak(c: Tuning, run: seq<ControlEvent>)
    requires c.Valid()
    ensures var s := After(c, Fresh, run); s.config.Some? ==> s.samples <= Streak(c, run, s.config.value)
  {
    if run != [] && run[|run| - 1].Listed? {
      var front := run[..|run| - 1];
      SamplesWithinStreak(c, front);
      SampleCounts(c, After(c, Fresh, front), run[|run| - 1].sample);
    }
  }

  /** An adjustment is only ever requested after `stableSamples` consecutive samples of one configuration. */
  lemma AskedAfterStableSamples(c: Tuning, run: seq<ControlEvent>)
    requires c.Valid() && run != [] && run[|run| - 1].Listed? && LastNote(c, Fresh, run).Asked?
    ensures var view := run[|run| - 1].sample.view; view.Fit? && Streak(c, run, view.config) >= c.stableSamples
  {
    var front := run[..|run| - 1];
    SamplesWithinStreak(c, front);
    SampleCounts(c, After(c, Fresh, front), run[|run| - 1].sample);
  }

  // ----- Failures hold adjustments back ------------------------------------------------------

  /** The sample records a failure: of the outstanding adjustment, or of queueing a new one. */
  predicate Fails(c: Tuning, s: Control, e: Reading)
    requires c.Valid()
  {
    var note := SampleLab(c, s, e).1;
    (s.op.Some? && e.lookup.Refuted? && !note.Aborted?) || note == Asked(AnswerError)
  }

  /** The sample still has this configuration, and shares outside the threshold. */
  predicate Persists(e: ControlEvent, config: Config) {
    e.Listed? && e.sample.view.Fit? && e.sample.view.config == config && !e.sample.view.within
  }

  predicate Armed(s: Control, config: Config, until: Time) {
    s.op.None? && s.config == Some(config) && s.nextRetry == Some(until)
  }

  lemma FailureArms(c: Tuning, s: Control, e: Reading, config: Config)
    requires c.Valid() && Fails(c, s, e) && Persists(Listed(e), config)
    requires s.config == Some(config) || SampleLab(c, s, e).1 == Asked(AnswerError)
    ensures var t := SampleLab(c, s, e).0;
      t.failures > 0 && Armed(t, config, e.now + Backoff(c, t.failures))
  {}

  lemma ArmedStep(c: Tuning, s: Control, e: Reading, config: Config, until: Time)
    requires c.Valid() && Armed(s, config, until) && Persists(Listed(e), config)
    ensures var (t, note) := SampleLab(c, s, e); if note.Asked? then e.now >= until else Armed(t, config, until)
  {}

  /** A stretch of persisting samples in which no adjustment is requested. */
  predicate HeldBack(c: Tuning, s: Control, run: seq<ControlEvent>, config: Config)
    requires c.Valid()
  {
    run != [] ==>
      && HeldBack(c, s, run[..|run| - 1], config)
      && Persists(run[|run| - 1], config) && !LastNote(c, s, run).Asked?
  }

  lemma {:induction false} StaysArmed(c: Tuning, s: Control, run: seq<ControlEvent>, config: Config, until: Time)
    requires c.Valid() && Armed(s, config, until) && HeldBack(c, s, run, config)
    ensures Armed(After(c, s, run), config, until)
  {
    if run != [] {
      var front := run[..|run| - 1];
      StaysArmed(c, s, front, config, until);
      ArmedStep(c, After(c, s, front), run[|run| - 1].sample, config, until);
    }
  }

  lemma ArmedHoldsBack(c: Tuning, s: Control, between: seq<ControlEvent>, next: Reading, config: Config, until: Time)
    requires c.Valid() && Armed(s, config, until) && HeldBack(c, s, between, config) && Persists(Listed(next), config)
    requires SampleLab(c, After(c, s, between), next).1.Asked?
    ensures next.now >= until
  {
    StaysArmed(c, s, between, config, until);
    ArmedStep(c, After(c, s, between), next, config, until);
  }

  /** The delay after the k-th failure, k >= 1: the k-th of the list, and the last one from then on. */
  lemma DelayIsListed(c: Tuning, k: nat)
    requires c.Valid() && k >= 1
    ensures var n := |c.backoff|; Backoff(c, k) == c.backoff[(if k < n then k else n) - 1]
  {}

  /** After a failure recorded while the configuration and its imbalance persist, the next adjustment is requested
      no earlier than the delay listed for the number of failures so far, the last one if there are more. */
  lemma BackoffIsRespected(c: Tuning, s: Control, failing: Reading, t: Control, between: seq<ControlEvent>, next: Reading, config: Config)
    requires c.Valid() && Fails(c, s, failing) && Persists(Listed(failing), config)
    requires s.config == Some(config) || SampleLab(c, s, failing).1 == Asked(AnswerError)
    requires t == SampleLab(c, s, failing).0 && HeldBack(c, t, between, config) && Persists(Listed(next), config)
    requires SampleLab(c, After(c, t, between), next).1.Asked?
    ensures var n, k := |c.backoff|, t.failures;
      k >= 1 && next.now >= failing.now + c.backoff[(if k < n then k else n) - 1]
  {
    FailureArms(c, s, failing, config);
    ArmedHoldsBack(c, t, between, next, config, failing.now + Backoff(c, t.failures));
    DelayIsListed(c, t.failures);
  }

  function FailureCount(c: Tuning, s: Control, run: seq<ControlEvent>): nat
    requires c.Valid()
  {
    if run == [] then 0
    else
      var front, e := run[..|run| - 1], run[|run| - 1];
      FailureCount(c, s, front) + if e.Listed? && Fails(c, After(c, s, front), e.sample) then 1 else 0
  }

  /** No sample reported the outstanding adjustment as finished without failure. */
  predicate NoneSucceeds(run: seq<ControlEvent>) {
    forall k :: 0 <= k < |run| && run[k].Listed? ==> !run[k].sample.lookup.Applied?
  }

  /** The failure number the delay depends on counts the failures since the last clean state. */
  lemma {:induction false} FailuresAccumulate(c: Tuning, s: Control, run: seq<ControlEvent>, config: Config)
    requires c.Valid() && s.config == Some(config) && NoneSucceeds(run)
    requires forall k :: 0 <= k < |run| ==> Persists(run[k], config)
    ensures var t := After(c, s, run);
      t.config == Some(config) && t.failures == s.failures + FailureCount(c, s, run)
  {
    if run != [] {
      var front := run[..|run| - 1];
      FailuresAccumulate(c, s, front, config);
      assert Persists(run[|run| - 1], config);
      FailureAdds(c, After(c, s, front), run[|run| - 1].sample, config);
    }
  }

  lemma FailureAdds(c: Tuning, s: Control, e: Reading, config: Config)
    requires c.Valid() && s.config == Some(config) && Persists(Listed(e), config) && !e.lookup.Applied?
    ensures var t := SampleLab(c, s, e).0;
      t.config == Some(config) && t.failures == s.failures + if Fails(c, s, e) then 1 else 0
  {
    match Settle(c, s, e.lookup, e.now)
    case Stop(_, _) =>
    case Go(t) =>
      var backoff := Backoff(c, s.failures + 1);
      assert backoff > 0;
  }

  /** From a clean state, while configuration and imbalance persist: after the k-th failure recorded, the next
      adjustment is requested no earlier than the k-th delay of the list, or its last. */
  lemma DelaysFollowFailures(c: Tuning, s: Control, run: seq<ControlEvent>, failing: Reading, between: seq<ControlEvent>,
                             next: Reading, config: Config)
    requires c.Valid() && s.config == Some(config) && s.failures == 0
    requires NoneSucceeds(run) && (forall k :: 0 <= k < |run| ==> Persists(run[k], config))
    requires Persists(Listed(failing), config) && !failing.lookup.Applied? && Fails(c, After(c, s, run), failing)
    requires var t := SampleLab(c, After(c, s, run), failing).0;
      && HeldBack(c, t, between, config) && Persists(Listed(next), config)
      && SampleLab(c, After(c, t, between), next).1.Asked?
    ensures var n, k := |c.backoff|, FailureCount(c, s, run) + 1;
      next.now >= failing.now + c.backoff[(if k < n then k else n) - 1]
  {
    FailuresAccumulate(c, s, run, config);
    DelayAfter(c, After(c, s, run), failing, SampleLab(c, After(c, s, run), failing).0, between, next, config);
  }

  lemma DelayAfter(c: Tuning, s: Control, failing: Reading, t: Control, between: seq<ControlEvent>, next: Reading, config: Config)
    requires c.Valid() && s.config == Some(config) && Persists(Listed(failing), config) && !failing.lookup.Applied?
    requires Fails(c, s, failing) && t == SampleLab(c, s, failing).0 && HeldBack(c, t, between, config)
    requires Persists(Listed(next), config) && SampleLab(c, After(c, t, between), next).1.Asked?
    ensures var n, k := |c.backoff|, s.failures + 1; next.now >= failing.now + c.backoff[(if k < n then k else n) - 1]
  {
    FailureAdds(c, s, failing, config);
    BackoffIsRespected(c, s, failing, t, between, next, config);
  }
}
