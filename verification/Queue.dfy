/**
 The operation queue over whole runs: order of arrival, leases that do not
 overlap, attempts, and how operations end.
 */
module Queue {
  import opened Domain
  import opened Coupling
  import opened Effects
  import opened Leases
  import opened Lifecycles

  predicate Claims(c: Config, s: State, e: Event, id: OpId) {
    e.ClaimEvent? && e.id == id && Next(c, s, e).1 == Done
  }

  predicate Starts(c: Config, s: State, e: Event, id: OpId) {
    e.StartEvent? && e.id == id && Next(c, s, e).1 == Done
  }

  predicate Accepts(c: Config, s: State, e: Event) {
    Next(c, s, e).1.Accepted?
  }

  // ----- The history of one operation ---------------------------------------------------

  /** Claims so far, the end of the lease last granted, and how the operation ended. */
  datatype Record = Record(arrival: nat, at: Time, claims: nat, until: Option<Time>, ended: Option<bool>)

  /** How many requests a run accepts. */
  function Arrivals(c: Config, run: seq<Event>): nat {
    if run == [] then 0
    else Arrivals(c, run[..|run| - 1]) + if Accepts(c, After(c, run[..|run| - 1]), run[|run| - 1]) then 1 else 0
  }

  function Recorded(c: Config, run: seq<Event>, id: OpId): Option<Record> {
    if run == [] then None
    else
      var front, e := run[..|run| - 1], run[|run| - 1];
      var s, was := After(c, front), Recorded(c, front, id);
      if Next(c, s, e).1 == Accepted(id) && Enqueueing(e) then Some(Record(Arrivals(c, front), e.now, 0, None, None))
      else if was.None? then None
      else if Claims(c, s, e, id) then Some(was.value.(claims := was.value.claims + 1, until := Some(e.lease)))
      else if Starts(c, s, e, id) then Some(was.value.(until := Some(e.lease)))
      else if CommitsOp(c, s, e, id) && id in s.ops then Some(was.value.(ended := Some(Accomplished(s.ops[id], e.report))))
      else was
  }

  /** The row of an operation tells its history. */
  predicate Tells(s: State, id: OpId, r: Option<Record>) {
    (id in s.ops <==> r.Some?) &&
    (r.Some? ==>
      var o := s.ops[id];
      && o.row == r.value.arrival && o.createdAt == r.value.at && o.attempts == r.value.claims
      && (r.value.ended.Some? ==> o.status == if r.value.ended.value then Succeeded else Rejected)
      && (r.value.ended.None? ==>
            if r.value.until.None? then o.status == Pending
            else (o.status == Claimed || o.status == Executing) && o.lease == r.value.until.value))
  }

  lemma AcceptTells(c: Config, s: State, e: Event, id: OpId)
    requires Enqueueing(e) && Next(c, s, e).1 == Accepted(id)
    ensures id !in s.ops && Next(c, s, e).0.nextRow == s.nextRow + 1
    ensures Tells(Next(c, s, e).0, id, Some(Record(s.nextRow, e.now, 0, None, None)))
  {
    EnqueueEffect(c, s, e);
    match e
    case SubmitEvent(user, lab, input, now) => SubmitRow(c, s, e);
    case AdjustEvent(_, _, _, _, _, _) => AdjustRow(c, s, e);
    case AdvanceEvent(_, _) =>
    case _ =>
  }

  lemma SubmitRow(c: Config, s: State, e: Event)
    requires e.SubmitEvent? && Next(c, s, e).1.Accepted?
    ensures var t := Next(c, s, e).0;
      t.nextRow == s.nextRow + 1 && e.input.op in t.ops
      && t.ops[e.input.op].row == s.nextRow && t.ops[e.input.op].createdAt == e.now && t.ops[e.input.op].attempts == 0
  {
  }

  lemma AdjustRow(c: Config, s: State, e: Event)
    requires e.AdjustEvent? && Next(c, s, e).1.Accepted?
    ensures var t := Next(c, s, e).0;
      t.nextRow == s.nextRow + 1 && e.id in t.ops
      && t.ops[e.id].row == s.nextRow && t.ops[e.id].createdAt == e.now && t.ops[e.id].attempts == 0
  {
  }

  lemma OthersKeepRows(c: Config, s: State, e: Event)
    requires !Accepts(c, s, e)
    ensures Next(c, s, e).0.nextRow == s.nextRow
  {
    if e.CompleteEvent? {
      CompletionRows(s, e.id, e.owner, e.report, e.now);
    }
  }

  lemma CompletionRows(s: State, id: OpId, owner: Owner, report: Report, now: Time)
    ensures Complete(s, id, owner, report, now).0.nextRow == s.nextRow
  {
  }

  lemma CommitTells(s: State, id: OpId, owner: Owner, report: Report, now: Time, r: Record)
    requires Tells(s, id, Some(r)) && Complete(s, id, owner, report, now).1 == Done
    ensures Tells(Complete(s, id, owner, report, now).0, id, Some(r.(ended := Some(Accomplished(s.ops[id], report)))))
  {
    CommitEnds(s, id, owner, report, now);
  }

  lemma CommitEnds(s: State, id: OpId, owner: Owner, report: Report, now: Time)
    requires id in s.ops && Complete(s, id, owner, report, now).1 == Done
    ensures var t := Complete(s, id, owner, report, now).0;
      && id in t.ops && t.ops[id] == s.ops[id].(status := t.ops[id].status, owner := None, lease := 0)
      && t.ops[id].status == if Accomplished(s.ops[id], report) then Succeeded else Rejected
  {
  }

  lemma OtherTells(c: Config, s: State, e: Event, id: OpId, r: Option<Record>)
    requires Tells(s, id, r) && Next(c, s, e).1 != Accepted(id)
    requires !Claims(c, s, e, id) && !Starts(c, s, e, id) && !CommitsOp(c, s, e, id)
    ensures Tells(Next(c, s, e).0, id, r)
  {
    if e.CompleteEvent? {
      CompletionFinishes(s, e.id, e.owner, e.report, e.now);
      if e.id != id {
        CompletionFrame(s, e.id, e.owner, e.report, e.now, id);
      }
    } else if Enqueueing(e) {
      EnqueueEffect(c, s, e);
    }
  }

  lemma NeverAccepts(c: Config, s: State, e: Event)
    requires !Enqueueing(e)
    ensures !Accepts(c, s, e)
  {
    if e.CompleteEvent? {
      CompleteNeverAccepts(s, e.id, e.owner, e.report, e.now);
    }
  }

  lemma StepTells(c: Config, s: State, e: Event, id: OpId, arrivals: nat, was: Option<Record>)
    requires Tells(s, id, was) && s.nextRow == arrivals
    ensures Next(c, s, e).0.nextRow == arrivals + if Accepts(c, s, e) then 1 else 0
    ensures Tells(Next(c, s, e).0, id,
      if Next(c, s, e).1 == Accepted(id) && Enqueueing(e) then Some(Record(arrivals, e.now, 0, None, None))
      else if was.None? then None
      else if Claims(c, s, e, id) then Some(was.value.(claims := was.value.claims + 1, until := Some(e.lease)))
      else if Starts(c, s, e, id) then Some(was.value.(until := Some(e.lease)))
      else if CommitsOp(c, s, e, id) && id in s.ops then Some(was.value.(ended := Some(Accomplished(s.ops[id], e.report))))
      else was)
  {
    if Accepts(c, s, e) {
      if !Enqueueing(e) {
        NeverAccepts(c, s, e);
      } else {
        AcceptTells(c, s, e, Next(c, s, e).1.id);
        if Next(c, s, e).1 != Accepted(id) {
          OtherTells(c, s, e, id, was);
        }
      }
    } else {
      OthersKeepRows(c, s, e);
      if CommitsOp(c, s, e, id) {
        CompletionFinishes(s, e.id, e.owner, e.report, e.now);
        CommitTells(s, id, e.owner, e.report, e.now, was.value);
      } else if !Claims(c, s, e, id) && !Starts(c, s, e, id) {
        OtherTells(c, s, e, id, was);
      }
    }
  }

  /** After every run the row of an operation tells when it arrived and as which, how often it was claimed, until when
      it is leased, and whether what was committed for it worked. */
  lemma {:induction false} RowsTellHistory(c: Config, run: seq<Event>, id: OpId)
    ensures After(c, run).nextRow == Arrivals(c, run) && Tells(After(c, run), id, Recorded(c, run, id))
  {
    if run != [] {
      var front := run[..|run| - 1];
      RowsTellHistory(c, front, id);
      StepTells(c, After(c, front), run[|run| - 1], id, Arrivals(c, front), Recorded(c, front, id));
    }
  }

  /** Leases do not overlap: a claim succeeds if and only if the operation arrived, has not ended, and no lease granted
      for it is still running. */
  lemma ClaimedIffLeaseOver(c: Config, run: seq<Event>, id: OpId, owner: Owner, now: Time, lease: Time)
    ensures var r := Recorded(c, run, id);
      Next(c, After(c, run), ClaimEvent(id, owner, now, lease)).1 == Done
      <==> (r.Some? && r.value.ended.None? && (r.value.until.Some? ==> r.value.until.value <= now))
  {
    RowsTellHistory(c, run, id);
  }

  lemma {:induction false} ArrivalsGrow(c: Config, run: seq<Event>, id: OpId)
    ensures Recorded(c, run, id).Some? ==> Recorded(c, run, id).value.arrival < Arrivals(c, run)
  {
    if run != [] {
      ArrivalsGrow(c, run[..|run| - 1], id);
    }
  }

  /** No two operations have the same place in the queue. */
  lemma {:induction false} PlacesDiffer(c: Config, run: seq<Event>, i: OpId, j: OpId)
    requires i != j && i in After(c, run).ops && j in After(c, run).ops
    ensures After(c, run).ops[i].row != After(c, run).ops[j].row
  {
    RowsTellHistory(c, run, i);
    RowsTellHistory(c, run, j);
    RecordsDiffer(c, run, i, j);
  }

  lemma {:induction false} RecordsDiffer(c: Config, run: seq<Event>, i: OpId, j: OpId)
    requires i != j && Recorded(c, run, i).Some? && Recorded(c, run, j).Some?
    ensures Recorded(c, run, i).value.arrival != Recorded(c, run, j).value.arrival
  {
    var front := run[..|run| - 1];
    ArrivalsGrow(c, front, i);
    ArrivalsGrow(c, front, j);
    if Recorded(c, front, i).Some? && Recorded(c, front, j).Some? {
      RecordsDiffer(c, front, i, j);
    }
  }
}
