/** Effects happen at most once, by the latest claimant, and requests can be repeated safely. */
module Leases {
  import opened Domain
  import opened Transactions
  import opened Coupling
  import opened Effects
  import opened Evolution

  // ----- At most one commit -------------------------------------------------

  predicate CommitsOp(c: Config, s: State, e: Event, id: OpId) {
    e.CompleteEvent? && e.id == id && Next(c, s, e).1 == Done
  }

  /** How many completions of one operation a run commits. */
  function Commits(c: Config, run: seq<Event>, id: OpId): nat {
    if run == [] then 0
    else
      var front := run[..|run| - 1];
      Commits(c, front, id) + if CommitsOp(c, After(c, front), run[|run| - 1], id) then 1 else 0
  }

  predicate Finished(s: State, id: OpId) {
    id in s.ops && (s.ops[id].status == Succeeded || s.ops[id].status == Rejected)
  }

  lemma CompletionFinishes(s: State, id: OpId, owner: Owner, report: Report, now: Time)
    ensures var (t, reply) := Complete(s, id, owner, report, now);
      if reply == Done then !Finished(s, id) && HoldsLease(s, id, owner) && Finished(t, id) else t == s
  {
  }

  lemma CompletionFrame(s: State, id: OpId, owner: Owner, report: Report, now: Time, other: OpId)
    requires other != id
    ensures var t := Complete(s, id, owner, report, now).0;
      (other in t.ops <==> other in s.ops) && (other in s.ops ==> t.ops[other] == s.ops[other])
  {
  }

  lemma EnqueueFinishes(s: State, t: State, reply: Reply, id: OpId)
    requires Enqueues(s, t, reply)
    ensures Finished(t, id) <==> Finished(s, id)
  {
  }

  lemma StepFinishes(c: Config, s: State, e: Event, id: OpId)
    ensures CommitsOp(c, s, e, id) ==> !Finished(s, id)
    ensures Finished(Next(c, s, e).0, id) <==> Finished(s, id) || CommitsOp(c, s, e, id)
  {
    if e.CompleteEvent? {
      CompletionFinishes(s, e.id, e.owner, e.report, e.now);
      if e.id != id {
        CompletionFrame(s, e.id, e.owner, e.report, e.now, id);
      }
    } else if !e.ClaimEvent? && !e.StartEvent? {
      EnqueueEffect(c, s, e);
      EnqueueFinishes(s, Next(c, s, e).0, Next(c, s, e).1, id);
    }
  }

  /** Over any run, an operation commits exactly once if it is finished and not at all before. */
  lemma {:induction false} CommitsAtMostOnce(c: Config, run: seq<Event>, id: OpId)
    ensures Commits(c, run, id) == if Finished(After(c, run), id) then 1 else 0
  {
    if run != [] {
      var front := run[..|run| - 1];
      CommitsAtMostOnce(c, front, id);
      StepFinishes(c, After(c, front), run[|run| - 1], id);
    }
  }

  // ----- Only the latest claimant -------------------------------------------

  /** The owner of the last successful claim of an operation in a run. */
  function LatestClaimant(c: Config, run: seq<Event>, id: OpId): Option<Owner> {
    if run == [] then None
    else
      var front, e := run[..|run| - 1], run[|run| - 1];
      if e.ClaimEvent? && e.id == id && Next(c, After(c, front), e).1 == Done then Some(e.owner)
      else LatestClaimant(c, front, id)
  }

  predicate LeaseOf(s: State, id: OpId, claimant: Option<Owner>) {
    if id !in s.ops then claimant == None
    else match s.ops[id].status
      case Pending => claimant == None && s.ops[id].owner == None
      case Claimed => s.ops[id].owner == claimant
      case Executing => s.ops[id].owner == claimant
      case Compensating => false
      case _ => s.ops[id].owner == None
  }

  lemma EnqueueLease(s: State, t: State, reply: Reply, id: OpId, claimant: Option<Owner>)
    requires LeaseOf(s, id, claimant) && Enqueues(s, t, reply)
    ensures LeaseOf(t, id, claimant)
  {
  }

  lemma CompletionLease(s: State, id: OpId, owner: Owner, report: Report, now: Time)
    ensures var (t, reply) := Complete(s, id, owner, report, now);
      if reply == Done then id in t.ops && !t.ops[id].status.InFlight() && t.ops[id].owner == None else t == s
  {
  }

  lemma StepLease(c: Config, s: State, e: Event, id: OpId, claimant: Option<Owner>)
    requires LeaseOf(s, id, claimant)
    ensures LeaseOf(Next(c, s, e).0, id,
                    if e.ClaimEvent? && e.id == id && Next(c, s, e).1 == Done then Some(e.owner) else claimant)
  {
    if e.CompleteEvent? {
      CompletionLease(s, e.id, e.owner, e.report, e.now);
      if e.id != id {
        CompletionFrame(s, e.id, e.owner, e.report, e.now, id);
      }
    } else if !e.ClaimEvent? && !e.StartEvent? {
      EnqueueEffect(c, s, e);
      EnqueueLease(s, Next(c, s, e).0, Next(c, s, e).1, id, claimant);
    }
  }

  lemma {:induction false} LeaseFollowsClaims(c: Config, run: seq<Event>, id: OpId)
    ensures LeaseOf(After(c, run), id, LatestClaimant(c, run, id))
  {
    if run != [] {
      var front := run[..|run| - 1];
      LeaseFollowsClaims(c, front, id);
      StepLease(c, After(c, front), run[|run| - 1], id, LatestClaimant(c, front, id));
    }
  }

  /** A worker that is not the latest claimant can change neither the operation nor any lab. */
  lemma StaleWorkerChangesNothing(c: Config, run: seq<Event>, id: OpId, owner: Owner, report: Report, now: Time, lease: Time)
    requires LatestClaimant(c, run, id) != Some(owner)
    ensures Next(c, After(c, run), StartEvent(id, owner, lease)).0 == After(c, run)
    ensures Next(c, After(c, run), CompleteEvent(id, owner, report, now)).0 == After(c, run)
  {
    LeaseFollowsClaims(c, run, id);
    StaleChangesNothing(c, After(c, run), id, owner, report, now, lease);
  }

  lemma StaleChangesNothing(c: Config, s: State, id: OpId, owner: Owner, report: Report, now: Time, lease: Time)
    requires !HoldsLease(s, id, owner) && (id in s.ops && s.ops[id].status == Claimed ==> s.ops[id].owner != Some(owner))
    ensures Next(c, s, StartEvent(id, owner, lease)).0 == s && Next(c, s, CompleteEvent(id, owner, report, now)).0 == s
  {
    CompletionFinishes(s, id, owner, report, now);
  }

  // ----- Repeating a request ------------------------------------------------

  predicate Request(e: Event) {
    e.CreateEvent? || e.ActionEvent? || e.SubmitEvent?
  }

  function RequestId(e: Event): OpId
    requires Request(e)
  {
    if e.SubmitEvent? then e.input.op else e.id
  }

  /** A reused operation id never changes anything: the stored operation comes back, or a refusal. */
  lemma ReusedIdChangesNothing(c: Config, s: State, e: Event)
    requires Request(e) && RequestId(e) in s.ops
    ensures var (t, reply) := Next(c, s, e); var id := RequestId(e);
      && t == s
      && (reply == Existing(id, s.ops[id]) || reply == Refused(OperationConflict) || reply == Refused(InvalidRequest))
  {
  }

  /** The same request at another time. */
  predicate SameRequest(e: Event, f: Event) {
    Request(e) && match e
      case CreateEvent(user, course, lookup, id, lab, now) => f.CreateEvent? && f.user == user && f.course == course && f.id == id
      case ActionEvent(user, lab, id, action, reason, now) =>
        f.ActionEvent? && f.user == user && f.lab == lab && f.id == id && f.action == action
      case SubmitEvent(user, lab, input, now) => f.SubmitEvent? && f.user == user && f.lab == lab && f.input == input
      case _ => false
  }

  /** What an accepted request leaves behind for its repetitions to recognise. */
  predicate Remembered(s: State, e: Event) {
    Request(e) && RequestId(e) in s.ops &&
    var o := s.ops[RequestId(e)];
    match e
    case CreateEvent(user, course, lookup, id, lab, now) =>
      o.requester == user && o.action == CreateLab && o.lab in s.sessions && s.sessions[o.lab].course == course
    case ActionEvent(user, lab, id, action, reason, now) => o.requester == user && o.lab == lab && o.action == action
    case SubmitEvent(user, lab, input, now) =>
      && o.requester == user && o.lab == lab && o.action == input.action && ValidInput(input)
      && (if input.action.Cache() then o.payload.CachePayload? && o.payload.input == input
          else o.payload.TopologyPayload? && o.payload.input == input)
    case _ => false
  }

  lemma CreateRemembered(c: Config, s: State, e: Event)
    requires e.CreateEvent? && Next(c, s, e).1.Accepted?
    ensures Remembered(Next(c, s, e).0, e)
  {
  }

  lemma ActionRemembered(c: Config, s: State, e: Event)
    requires e.ActionEvent? && Next(c, s, e).1.Accepted?
    ensures Remembered(Next(c, s, e).0, e)
  {
  }

  lemma SubmitRemembered(c: Config, s: State, e: Event)
    requires e.SubmitEvent? && Next(c, s, e).1.Accepted?
    ensures Remembered(Next(c, s, e).0, e)
  {
  }

  lemma AcceptedIsRemembered(c: Config, s: State, e: Event)
    requires Request(e) && Next(c, s, e).1.Accepted?
    ensures Remembered(Next(c, s, e).0, e)
  {
    if e.CreateEvent? {
      CreateRemembered(c, s, e);
    } else if e.ActionEvent? {
      ActionRemembered(c, s, e);
    } else {
      SubmitRemembered(c, s, e);
    }
  }

  lemma RememberedComesBack(c: Config, s: State, e: Event, f: Event)
    requires Remembered(s, e) && SameRequest(e, f)
    ensures Next(c, s, f) == (s, Existing(RequestId(e), s.ops[RequestId(e)]))
  {
  }

  /** Once a request was accepted, repeating it at any later moment returns that operation and changes nothing. */
  lemma RepeatedRequestReturnsSameOperation(c: Config, run: seq<Event>, k: nat, f: Event)
    requires TrustedRun(c, run) && k < |run| && Request(run[k])
    requires Next(c, After(c, run[..k]), run[k]).1.Accepted? && SameRequest(run[k], f)
    ensures var s := After(c, run); var id := RequestId(run[k]);
      id in s.ops && Next(c, s, f) == (s, Existing(id, s.ops[id]))
  {
    var s, t := After(c, run[..k]), After(c, run[..k + 1]);
    assert run[..k + 1][..k] == run[..k];
    assert t == Next(c, s, run[k]).0;
    AcceptedIsRemembered(c, s, run[k]);
    RunEvolves(c, run, k + 1);
    assert Remembered(After(c, run), run[k]);
    RememberedComesBack(c, After(c, run), run[k], f);
  }
}
