/** What the store makes of an adaptive adjustment, whatever else happens in the control plane. */
module Adjustments {
  import opened Domain
  import opened Transactions
  import opened Coupling
  import opened Effects
  import opened CouplingProof
  import opened Guarantees
  import opened Leases
  import opened Gateway
  import opened GatewayProof
  import opened LostLease
  import opened Takeover

  /** An adjustment of the lab is in flight, or applied, and then the rows carry its weights. */
  predicate Adjusts(s: State, id: OpId, lab: LabId, ws: seq<NameWeight>) {
    && id in s.ops && s.ops[id].lab == lab && s.ops[id].action == ApplyAdaptive
    && s.ops[id].payload.AdaptivePayload? && s.ops[id].payload.weights == ws
    && (s.ops[id].status.InFlight() || (s.ops[id].status == Succeeded && Carries(s, lab, ws)))
  }

  predicate Carries(s: State, lab: LabId, ws: seq<NameWeight>) {
    WeightsOf(Rows(s, lab)) == WeightMap(ws)
  }

  /** No operation of the lab is completed, except that adjustment `op` may be routed and recorded. */
  predicate Undisturbed(c: Config, s: State, e: Event, lab: LabId, op: Option<OpId>) {
    e.CompleteEvent? && e.id in s.ops && s.ops[e.id].lab == lab && Next(c, s, e).1 == Done ==>
      op == Some(e.id) && e.report == TopologyReport(Success(None), false)
  }

  lemma CompletionFinds(s: State, id: OpId, owner: Owner, report: Report, now: Time)
    requires Complete(s, id, owner, report, now).1 == Done
    ensures id in s.ops
  {
    CompletionFinishes(s, id, owner, report, now);
  }

  /** The rows of an undisturbed lab stay, and so do its operations' ends. */
  lemma RowsStay(c: Config, s: State, e: Event, lab: LabId)
    requires OpsOk(c, s) && Undisturbed(c, s, e, lab, None)
    ensures Rows(Next(c, s, e).0, lab) == Rows(s, lab)
  {
    if e.CompleteEvent? {
      CompletionFinishes(s, e.id, e.owner, e.report, e.now);
      if Next(c, s, e).1 == Done {
        CompletionFinds(s, e.id, e.owner, e.report, e.now);
        CompleteFrame(s, e.id, e.owner, e.report, e.now);
      }
    } else {
      TransactionRows(c, s, e);
    }
  }

  /** Requests and leases end no operation. */
  lemma EndsStay(c: Config, s: State, e: Event, id: OpId)
    requires !e.CompleteEvent? && id in s.ops
    ensures var t := Next(c, s, e).0;
      id in t.ops && t.ops[id].status.InFlight() == s.ops[id].status.InFlight()
      && (s.ops[id].status == Succeeded ==> t.ops[id].status == Succeeded)
  {
    if Enqueueing(e) {
      EnqueueEffect(c, s, e);
    }
  }

  lemma AllWeighed(rows: Instances, ws: seq<NameWeight>)
    requires ValidWeights(rows.Keys, ws) && rows != map[]
    ensures |WeightMap(ws)| == |ws| && WeightMap(ws) != map[]
  {
    WeightMapSize(ws);
    WeightsCover(rows.Keys, ws);
    var n :| n in rows;
    assert n in WeightMap(ws).Keys;
  }

  lemma RoutedOutcome(o: Operation)
    requires o.payload.AdaptivePayload? && |o.payload.servers| == |o.payload.weights| && o.payload.servers != map[]
    ensures TopologyOutcome(o, Success(None), false).Success?
  {
  }

  lemma HeldWeights(c: Config, s: State, id: OpId)
    requires Inv(c, s) && id in s.ops && s.ops[id].action == ApplyAdaptive && s.ops[id].status.InFlight()
    ensures s.ops[id].lab in s.sessions && s.ops[id].payload.AdaptivePayload? && Rows(s, s.ops[id].lab) != map[]
    ensures ValidWeights(Rows(s, s.ops[id].lab).Keys, s.ops[id].payload.weights)
    ensures s.ops[id].payload.servers == WeightMap(s.ops[id].payload.weights)
  {
    OperationFits(c, s, id);
  }

  lemma RecordedSucceeds(s: State, id: OpId, owner: Owner, now: Time)
    requires id in s.ops && s.ops[id].action == ApplyAdaptive && TopologyOutcome(s.ops[id], Success(None), false).Success?
    requires Complete(s, id, owner, TopologyReport(Success(None), false), now).1 == Done
    ensures var t := Complete(s, id, owner, TopologyReport(Success(None), false), now).0; id in t.ops && t.ops[id].status == Succeeded
  {
  }

  lemma RecordedWeights(c: Config, s: State, id: OpId, owner: Owner, now: Time)
    requires Held(c, s, id, owner) && s.ops[id].action == ApplyAdaptive
    ensures WeightsAfter(s, id, owner, TopologyReport(Success(None), false), now) == Target(s.ops[id])
  {
    PlannedAgrees(c, s, id, owner, Routed(None), Target(s.ops[id]), now);
  }

  /** Recording a routed adjustment writes its weights. */
  lemma RecordedIsCarried(c: Config, s: State, id: OpId, owner: Owner, now: Time)
    requires Inv(c, s) && id in s.ops && s.ops[id].action == ApplyAdaptive && s.ops[id].payload.AdaptivePayload?
    requires Complete(s, id, owner, TopologyReport(Success(None), false), now).1 == Done
    ensures var t := Complete(s, id, owner, TopologyReport(Success(None), false), now).0;
      id in t.ops && t.ops[id].status == Succeeded && Carries(t, s.ops[id].lab, s.ops[id].payload.weights)
  {
    CompletionFinishes(s, id, owner, TopologyReport(Success(None), false), now);
    OperationFits(c, s, id);
    HeldWeights(c, s, id);
    AllWeighed(Rows(s, s.ops[id].lab), s.ops[id].payload.weights);
    RoutedOutcome(s.ops[id]);
    RecordedSucceeds(s, id, owner, now);
    assert Target(s.ops[id]) == WeightMap(s.ops[id].payload.weights);
    RecordedWeights(c, s, id, owner, now);
  }

  lemma AdjustmentStep(c: Config, s: State, e: Event, lab: LabId, id: OpId, ws: seq<NameWeight>)
    requires Inv(c, s) && Adjusts(s, id, lab, ws) && Undisturbed(c, s, e, lab, Some(id))
    ensures Adjusts(Next(c, s, e).0, id, lab, ws)
  {
    if !e.CompleteEvent? {
      TransactionPayloads(c, s, e);
      TransactionRows(c, s, e);
      EndsStay(c, s, e, id);
    } else {
      CompletionFinishes(s, e.id, e.owner, e.report, e.now);
      CompletionPayloads(s, e.id, e.owner, e.report, e.now);
      if Next(c, s, e).1 == Done {
        CompletionFinds(s, e.id, e.owner, e.report, e.now);
        if e.id == id {
          RecordedIsCarried(c, s, id, e.owner, e.now);
        } else {
          CompletionFrame(s, e.id, e.owner, e.report, e.now, id);
          CompleteFrame(s, e.id, e.owner, e.report, e.now);
        }
      }
    }
  }

  // ----- Stretches of a run ------------------------------------------------------------

  /** Trusted events, among which the lab is undisturbed if `guarded`. */
  predicate Stretch(c: Config, s: State, ext: seq<Event>, lab: LabId, op: Option<OpId>, guarded: bool)
    decreases |ext|
  {
    ext != [] ==>
      && Trusted(c, s, ext[0]) && (guarded ==> Undisturbed(c, s, ext[0], lab, op))
      && Stretch(c, Next(c, s, ext[0]).0, ext[1..], lab, op, guarded)
  }

  lemma {:induction false} StretchKeepsInv(c: Config, s: State, ext: seq<Event>, lab: LabId, op: Option<OpId>, guarded: bool)
    requires Inv(c, s) && Stretch(c, s, ext, lab, op, guarded)
    ensures Inv(c, From(c, s, ext))
    decreases |ext|
  {
    if ext != [] {
      StepKeepsInv(c, s, ext[0]);
      StretchKeepsInv(c, Next(c, s, ext[0]).0, ext[1..], lab, op, guarded);
    }
  }

  /** An adjustment stays in flight until it is applied, and from then on the rows carry its weights. */
  lemma {:induction false} StretchKeepsAdjustment(c: Config, s: State, ext: seq<Event>, lab: LabId, id: OpId, ws: seq<NameWeight>)
    requires Inv(c, s) && Adjusts(s, id, lab, ws) && Stretch(c, s, ext, lab, Some(id), true)
    ensures Adjusts(From(c, s, ext), id, lab, ws)
    decreases |ext|
  {
    if ext != [] {
      StepKeepsInv(c, s, ext[0]);
      AdjustmentStep(c, s, ext[0], lab, id, ws);
      StretchKeepsAdjustment(c, Next(c, s, ext[0]).0, ext[1..], lab, id, ws);
    }
  }

  lemma {:induction false} StretchKeepsWeights(c: Config, s: State, ext: seq<Event>, lab: LabId, ws: seq<NameWeight>)
    requires Inv(c, s) && Carries(s, lab, ws) && Stretch(c, s, ext, lab, None, true)
    ensures Carries(From(c, s, ext), lab, ws)
    decreases |ext|
  {
    if ext != [] {
      StepKeepsInv(c, s, ext[0]);
      RowsStay(c, s, ext[0], lab);
      StretchKeepsWeights(c, Next(c, s, ext[0]).0, ext[1..], lab, ws);
    }
  }

  /** A new adjustment is in flight. */
  lemma AcceptedAdjusts(c: Config, s: State, user: UserId, lab: LabId, id: OpId, topology: Fingerprint, ws: seq<NameWeight>, now: Time)
    requires Next(c, s, AdjustEvent(user, lab, id, topology, ws, now)).1.Accepted?
    ensures Adjusts(Next(c, s, AdjustEvent(user, lab, id, topology, ws, now)).0, id, lab, ws)
  {
    var t := Next(c, s, AdjustEvent(user, lab, id, topology, ws, now)).0;
    assert t == Enqueue(s, id, lab, user, ApplyAdaptive, AdaptivePayload(topology, WeightMap(ws), ws), now);
  }
}
