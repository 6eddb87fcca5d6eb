/**
 Where the controller stands with a lab, told by how its samples ended: how many
 agreeing samples it has seen, how long shares were right, and which failure it waits out.
 */
module Standing {
  import opened Domain
  import M = Metrics
  import opened Controller

  /** The configuration under observation, its samples in a row, those with shares in place in a row, and the
      failures in a row with the time of the last. */
  datatype Account = Account(config: Option<Config>, seen: nat, calm: nat, failures: nat, failedAt: Time)

  const Opening: Account := Account(None, 0, 0, 0, 0)

  function Failed(a: Account, now: Time): Account {
    a.(failures := a.failures + 1, failedAt := now)
  }

  function Forgiven(a: Account): Account {
    a.(failures := 0)
  }

  /** A sample with this configuration counts on, or begins anew. */
  function Counting(a: Account, config: Config): Account {
    if a.config == Some(config) then a.(seen := a.seen + 1) else Account(Some(config), 1, 0, 0, 0)
  }

  /** A sample of usable instances, already counted. */
  function Judged(c: M.Tuning, a: Account, note: Note, now: Time): Account
    requires c.Valid()
  {
    if note.Gathering? then a
    else if note.Calm? then Forgiven(a).(calm := a.calm + 1)
    else if note == Asked(AnswerNoChange) then a.(calm := c.stableSamples)
    else if note == Asked(AnswerStale) then a.(seen := 0, calm := 0)
    else if note == Asked(AnswerError) then Failed(a.(calm := 0), now)
    else a.(calm := 0)
  }

  /** The account after a sample that ended with `note`. `refuted` says that the outstanding adjustment turned
      out to have failed. */
  function Entered(c: M.Tuning, a: Account, e: Reading, refuted: bool, note: Note): Account
    requires c.Valid()
  {
    var b := if refuted then Failed(a, e.now) else a;
    if note.Confirmed? then Forgiven(a).(calm := c.stableSamples)
    else if note.Superseded? then Forgiven(a).(seen := 0, calm := 0)
    else if note.Unusable? then b.(config := None, seen := 0, calm := 0)
    else if note.Evaluated() && e.view.Fit? then Judged(c, Counting(b, e.view.config), note, e.now)
    else a
  }

  predicate Refutes(s: Control, e: Reading) {
    s.op.Some? && e.lookup.Refuted?
  }

  /** The account at the end of a run of a freshly listed lab. */
  function AccountOf(c: M.Tuning, run: seq<ControlEvent>): Account
    requires c.Valid()
  {
    if run == [] || run[|run| - 1].Unlisted? then Opening
    else
      var front, e := run[..|run| - 1], run[|run| - 1].sample;
      Entered(c, AccountOf(c, front), e, Refutes(After(c, Fresh, front), e), LastNote(c, Fresh, run))
  }

  function AtMost(n: nat, limit: int): int { if n < limit then n else limit }

  /** The delay listed for the k-th failure in a row. */
  function Delay(c: M.Tuning, k: nat): int
    requires c.Valid() && k >= 1
  {
    c.backoff[(if k < |c.backoff| then k else |c.backoff|) - 1]
  }

  /** The control state keeps the account: counters up to the threshold, and the time until which it waits. */
  predicate Keeps(c: M.Tuning, s: Control, a: Account)
    requires c.Valid()
  {
    && s.config == a.config
    && s.samples == AtMost(a.seen, c.stableSamples) && s.stable == AtMost(a.calm, c.stableSamples)
    && s.failures == a.failures
    && s.nextRetry == if a.failures == 0 then None else Some(a.failedAt + Delay(c, a.failures))
  }

  lemma SettledKeeps(c: M.Tuning, s: Control, e: Reading, a: Account)
    requires c.Valid() && Keeps(c, s, a)
    ensures match Settle(c, s, e.lookup, e.now)
      case Stop(t, note) => !Refutes(s, e) && Keeps(c, t, Entered(c, a, e, false, note))
      case Go(t) => Keeps(c, t, if Refutes(s, e) then Failed(a, e.now) else a)
  {
    DelayIsListed(c, s.failures + 1);
  }

  lemma CountedKeeps(c: M.Tuning, s: Control, a: Account, config: Config)
    requires c.Valid() && Keeps(c, s, a)
    ensures Keeps(c, Counted(c, s, config), Counting(a, config))
  {}

  lemma AskedKeeps(c: M.Tuning, s: Control, now: Time, answer: Answer, a: Account)
    requires c.Valid() && Keeps(c, s, a) && a.calm == 0
    ensures Keeps(c, Ask(c, s, now, answer), Judged(c, a, Asked(answer), now))
  {
    DelayIsListed(c, a.failures + 1);
  }

  lemma DecidedKeeps(c: M.Tuning, before: Control, s: Control, e: Reading, was: Account, a: Account)
    requires c.Valid() && e.view.Fit? && Keeps(c, before, was) && Keeps(c, s, a)
    ensures var (t, note) := Decide(c, before, s, e);
      && (note.Evaluated() || note.Aborted?)
      && if note.Aborted? then Keeps(c, t, was) else Keeps(c, t, Entered(c, a, e, false, note))
  {
    CountedKeeps(c, s, a, e.view.config);
    var counted := Counted(c, s, e.view.config).(targets := e.view.targets, stable := 0);
    AskedKeeps(c, counted, e.now, e.answer, Counting(a, e.view.config).(calm := 0));
  }

  lemma SampleKeeps(c: M.Tuning, s: Control, e: Reading, a: Account)
    requires c.Valid() && Keeps(c, s, a)
    ensures var (t, note) := SampleLab(c, s, e); Keeps(c, t, Entered(c, a, e, Refutes(s, e), note))
  {
    SettledKeeps(c, s, e, a);
    match Settle(c, s, e.lookup, e.now)
    case Stop(_, _) =>
    case Go(t) =>
      if e.view.Fit? {
        DecidedKeeps(c, s, t, e, a, if Refutes(s, e) then Failed(a, e.now) else a);
      }
  }

  /** In every run the control state keeps the account of how its samples ended. */
  lemma {:induction false} StateKeepsAccount(c: M.Tuning, run: seq<ControlEvent>)
    requires c.Valid()
    ensures Keeps(c, After(c, Fresh, run), AccountOf(c, run))
  {
    if run != [] && run[|run| - 1].Listed? {
      StateKeepsAccount(c, run[..|run| - 1]);
      SampleKeeps(c, After(c, Fresh, run[..|run| - 1]), run[|run| - 1].sample, AccountOf(c, run[..|run| - 1]));
    }
  }

  // ----- When an adjustment is requested ---------------------------------------------------

  /** The last failure is waited out. A failure noticed at this very sample is not. */
  predicate WaitedOut(c: M.Tuning, a: Account, config: Config, refuted: bool, now: Time)
    requires c.Valid()
  {
    a.config == Some(config) ==> !refuted && (a.failures > 0 ==> now >= a.failedAt + Delay(c, a.failures))
  }

  lemma DecideAsks(c: M.Tuning, before: Control, s: Control, e: Reading, was: Account, refuted: bool)
    requires c.Valid() && e.view.Fit? && Keeps(c, s, if refuted then Failed(was, e.now) else was)
    ensures Decide(c, before, s, e).1.Asked? <==>
            (!e.view.within && e.idMade && Counting(was, e.view.config).seen >= c.stableSamples
             && WaitedOut(c, was, e.view.config, refuted, e.now))
  {
    CountedKeeps(c, s, if refuted then Failed(was, e.now) else was, e.view.config);
    DelayIsListed(c, was.failures + 1);
  }

  /** A sample requests an adjustment if and only if none is outstanding, the instances are usable and their shares
      out of place, enough samples of the configuration were seen in a row, this one included, the last failure is
      waited out, and an id could be made. */
  lemma AsksIff(c: M.Tuning, run: seq<ControlEvent>, e: Reading)
    requires c.Valid()
    ensures var s, a := After(c, Fresh, run), AccountOf(c, run);
      SampleLab(c, s, e).1.Asked? <==>
      (&& (s.op.None? || e.lookup.Refuted?)
       && e.view.Fit? && !e.view.within && e.idMade
       && Counting(a, e.view.config).seen >= c.stableSamples
       && WaitedOut(c, a, e.view.config, Refutes(s, e), e.now))
  {
    var s, a := After(c, Fresh, run), AccountOf(c, run);
    StateKeepsAccount(c, run);
    SettledKeeps(c, s, e, a);
    match Settle(c, s, e.lookup, e.now)
    case Stop(_, _) =>
    case Go(t) =>
      if e.view.Fit? {
        DecideAsks(c, s, t, e, a, Refutes(s, e));
      }
  }

  // ----- What the status says ------------------------------------------------------------------

  /** What the last sample that ended with a note makes of the lab. */
  function Shown(c: M.Tuning, was: ControlStatus, a: Account, note: Note): ControlStatus {
    match note
    case Aborted => was
    case Confirmed => Stable
    case Calm => if a.calm >= c.stableSamples then Stable else Converging
    case Retrying => Degraded
    case Asked(AnswerNoChange) => Stable
    case Asked(AnswerError) => Degraded
    case _ => Converging
  }

  lemma DecidedShows(c: M.Tuning, before: Control, s: Control, e: Reading, a: Account)
    requires c.Valid() && e.view.Fit? && Keeps(c, s, a)
    ensures var (t, note) := Decide(c, before, s, e);
      if note.Aborted? then t == before
      else note.Evaluated() && t.status == Shown(c, before.status, Judged(c, Counting(a, e.view.config), note, e.now), note)
  {
    CountedKeeps(c, s, a, e.view.config);
  }

  lemma SampleShows(c: M.Tuning, s: Control, e: Reading, a: Account)
    requires c.Valid() && Keeps(c, s, a)
    ensures var (t, note) := SampleLab(c, s, e); t.status == Shown(c, s.status, Entered(c, a, e, Refutes(s, e), note), note)
  {
    SettledKeeps(c, s, e, a);
    match Settle(c, s, e.lookup, e.now)
    case Stop(_, _) =>
    case Go(t) =>
      if e.view.Fit? {
        DecidedShows(c, s, t, e, if Refutes(s, e) then Failed(a, e.now) else a);
      }
  }

  /** A lab is shown as stable exactly if its adjustment was confirmed or found needless, or its shares were in
      place for enough samples in a row; as degraded exactly after a failure that is not waited out. */
  lemma StatusTells(c: M.Tuning, run: seq<ControlEvent>, e: Reading)
    requires c.Valid()
    ensures var s := After(c, Fresh, run); var (t, note) := SampleLab(c, s, e);
      t.status == Shown(c, s.status, Entered(c, AccountOf(c, run), e, Refutes(s, e), note), note)
  {
    StateKeepsAccount(c, run);
    SampleShows(c, After(c, Fresh, run), e, AccountOf(c, run));
  }
}
