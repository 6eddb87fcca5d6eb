/** What the enqueueing transactions do to the operations table. */
module Effects {
  import opened Domain
  import opened Transactions
  import opened Coupling

  predicate Enqueueing(e: Event) {
    !e.CompleteEvent? && !e.ClaimEvent? && !e.StartEvent?
  }

  /** An accepted request adds one fresh pending operation; any other reply leaves the table alone. */
  predicate Enqueues(s: State, t: State, reply: Reply) {
    && t.instances == s.instances
    && if !reply.Accepted? then t.ops == s.ops
       else
         && reply.id !in s.ops && reply.id in t.ops && t.ops == s.ops[reply.id := t.ops[reply.id]]
         && t.ops[reply.id].status == Pending && t.ops[reply.id].owner == None
  }

  lemma CreateEnqueues(s: State, q: Quota, user: UserId, course: nat, lookup: CourseLookup, id: OpId, lab: LabId, now: Time)
    ensures var (t, reply) := Create(s, q, user, course, lookup, id, lab, now);
      Enqueues(s, t, reply) && (reply.Accepted? ==> reply.id == id)
  {}

  lemma ActionEnqueues(s: State, user: UserId, lab: LabId, id: OpId, action: Action, reason: Option<Reason>, now: Time)
    ensures var (t, reply) := EnqueueAction(s, user, lab, id, action, reason, now);
      Enqueues(s, t, reply) && (reply.Accepted? ==> reply.id == id) && t.sessions.Keys == s.sessions.Keys
  {}

  lemma SubmitEnqueues(s: State, q: Quota, user: UserId, lab: LabId, input: ActionInput, now: Time)
    ensures var (t, reply) := SubmitAction(s, q, user, lab, input, now);
      Enqueues(s, t, reply) && (reply.Accepted? ==> reply.id == input.op) && t.sessions == s.sessions
  {}

  lemma AdjustEnqueues(s: State, user: UserId, lab: LabId, id: OpId, topology: Fingerprint, ws: seq<NameWeight>, now: Time)
    ensures var (t, reply) := EnqueueAdjustment(s, user, lab, id, topology, ws, now);
      Enqueues(s, t, reply) && (reply.Accepted? ==> reply.id == id) && t.sessions == s.sessions
  {
    var (t, reply) := EnqueueAdjustment(s, user, lab, id, topology, ws, now);
    if reply.Accepted? {
      assert id !in s.ops;
      assert t == Enqueue(s, id, lab, user, ApplyAdaptive, AdaptivePayload(topology, WeightMap(ws), ws), now);
    } else {
      assert t == s;
    }
  }

  lemma AdvanceEnqueues(s: State, lab: LabId, now: Time, c: Lifetime)
    ensures var (t, reply) := Advance(s, lab, now, c);
      Enqueues(s, t, reply) && (reply.Accepted? ==> reply.id == SystemExpire(lab)) && t.sessions.Keys == s.sessions.Keys
  {}

  /** The id a request would enqueue under. */
  function EnqueueId(e: Event): OpId
    requires Enqueueing(e)
  {
    match e
    case CreateEvent(_, _, _, id, _, _) => id
    case ActionEvent(_, _, id, _, _, _) => id
    case SubmitEvent(_, _, input, _) => input.op
    case AdjustEvent(_, _, id, _, _, _) => id
    case AdvanceEvent(lab, _) => SystemExpire(lab)
  }

  lemma EnqueueEffect(c: Config, s: State, e: Event)
    requires Enqueueing(e)
    ensures var (t, reply) := Next(c, s, e);
      && Enqueues(s, t, reply) && (reply.Accepted? ==> reply.id == EnqueueId(e))
      && (!e.CreateEvent? ==> t.sessions.Keys == s.sessions.Keys)
  {
    match e
    case CreateEvent(user, course, lookup, id, lab, now) => CreateEnqueues(s, c.quota, user, course, lookup, id, lab, now);
    case ActionEvent(user, lab, id, action, reason, now) => ActionEnqueues(s, user, lab, id, action, reason, now);
    case SubmitEvent(user, lab, input, now) => SubmitEnqueues(s, c.quota, user, lab, input, now);
    case AdjustEvent(user, lab, id, topology, ws, now) => AdjustEnqueues(s, user, lab, id, topology, ws, now);
    case AdvanceEvent(lab, now) => AdvanceEnqueues(s, lab, now, c.lifetime);
  }
}
