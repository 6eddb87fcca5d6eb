/**
 A worker that loses its lease leaves the gateway as its last command left it,
 and the next worker starts the operation again from the beginning. This module
 proves exactly when gateway and database agree afterwards, if the lost worker
 has stopped; `Takeover` and `LateRoutes` deal with one that goes on.
 */
module LostLease {
  import opened Domain
  import opened Transactions
  import opened Coupling
  import opened Guarantees
  import opened Gateway
  import opened GatewayProof

  // ----- A saga started again ------------------------------------------------------

  predicate Commands(answers: seq<SystemEvent>) {
    forall i :: 0 <= i < |answers| ==> answers[i].Command?
  }

  /** The orchestrator answers what it was asked. */
  predicate Answering(c: Config, o: Operation, answers: seq<SystemEvent>)
    requires Commands(answers)
  {
    forall i :: 0 <= i < |answers| ==> TrustedLabAnswer(c, o, answers[i]) && TrustedInstanceAnswer(o, answers[i].instance)
  }

  /** Phase and upstream list after the commands of a saga, which stops at its completion. */
  function Saga(o: Operation, phase: Phase, gw: Servers, valid: bool, answers: seq<SystemEvent>): (Phase, Servers)
    requires Commands(answers)
    decreases |answers|
  {
    if answers == [] || FinalReport(o, phase).Some? then (phase, gw)
    else
      var (p, servers) := RunCommand(o, phase, gw, valid, answers[0]);
      Saga(o, p, servers, valid, answers[1..])
  }

  /** The i-th command succeeds. */
  predicate Succeeds(answers: seq<SystemEvent>, i: nat)
    requires Commands(answers)
  {
    i < |answers| && answers[i].ok
  }

  /** The commands that have to succeed for an operation, started again over upstream list `gw`, to end with
      gateway and rows in agreement, where `weights` are the weights of the rows before it. */
  predicate Recovers(o: Operation, gw: Servers, weights: Servers, valid: bool, answers: seq<SystemEvent>)
    requires Commands(answers)
  {
    match o.action
    case AddInstance => gw == weights || (Succeeds(answers, 0) && Decodes(answers[0].instance) && Succeeds(answers, 1))
    case RemoveInstance =>
      if Succeeds(answers, 0) then Succeeds(answers, 1) || Succeeds(answers, 2) else gw == weights
    case SetPerformance => true
    case SetWeights => gw == weights || Succeeds(answers, 0)
    case ApplyAdaptive => gw == weights || (valid && Succeeds(answers, 0))
    case SetMode => gw == weights
    case CreateLab => true
    case ResetLab => true
    case DestroyLab => true
    case _ => gw == weights
  }

  // ----- What each saga comes to -------------------------------------------------------

  lemma SagaStep(o: Operation, phase: Phase, gw: Servers, valid: bool, answers: seq<SystemEvent>)
    requires Commands(answers) && FinalReport(o, phase) == None
    requires FinalReport(o, Saga(o, phase, gw, valid, answers).0).Some?
    ensures answers != []
    ensures var (p, servers) := RunCommand(o, phase, gw, valid, answers[0]);
      && Saga(o, phase, gw, valid, answers) == Saga(o, p, servers, valid, answers[1..])
      && (FinalReport(o, p).Some? ==> Saga(o, phase, gw, valid, answers) == (p, servers))
  {
  }

  lemma AdditionComesTo(o: Operation, gw: Servers, valid: bool, answers: seq<SystemEvent>)
    requires Commands(answers) && o.action == AddInstance
    requires FinalReport(o, Saga(o, Ready, gw, valid, answers).0).Some?
    ensures var (phase, servers) := Saga(o, Ready, gw, valid, answers);
      && answers != []
      && if Succeeds(answers, 0) && Decodes(answers[0].instance) && Succeeds(answers, 1)
         then phase == Routed(answers[0].instance) && servers == Target(o)
         else phase == Broken && servers == gw
  {
    SagaStep(o, Ready, gw, valid, answers);
    var (p, servers) := RunCommand(o, Ready, gw, valid, answers[0]);
    if p.Created? {
      var rest := answers[1..];
      SagaStep(o, p, servers, valid, rest);
      var (p', servers') := RunCommand(o, p, servers, valid, rest[0]);
      if p' == Undo {
        SagaStep(o, p', servers', valid, rest[1..]);
      }
    }
  }

  lemma RemovalComesTo(o: Operation, gw: Servers, valid: bool, answers: seq<SystemEvent>)
    requires Commands(answers) && o.action == RemoveInstance
    requires FinalReport(o, Saga(o, Ready, gw, valid, answers).0).Some?
    ensures var (phase, servers) := Saga(o, Ready, gw, valid, answers);
      if !Succeeds(answers, 0) then phase == Broken && servers == gw
      else if Succeeds(answers, 1) then phase == Removed && servers == Target(o)
      else phase == Broken && servers == if Succeeds(answers, 2) then Previous(o) else Target(o)
  {
    SagaStep(o, Ready, gw, valid, answers);
    var (p, servers) := RunCommand(o, Ready, gw, valid, answers[0]);
    if p.Routed? {
      var rest := answers[1..];
      SagaStep(o, p, servers, valid, rest);
      var (p', servers') := RunCommand(o, p, servers, valid, rest[0]);
      if p' == Restore {
        SagaStep(o, p', servers', valid, rest[1..]);
      }
    }
  }

  lemma ResizeComesTo(o: Operation, gw: Servers, valid: bool, answers: seq<SystemEvent>)
    requires Commands(answers) && o.action == SetPerformance && gw == Target(o) == Previous(o)
    requires FinalReport(o, Saga(o, Ready, gw, valid, answers).0).Some?
    ensures var (phase, servers) := Saga(o, Ready, gw, valid, answers);
      && answers != [] && servers == gw
      && (phase == Broken || phase == Routed(answers[0].instance))
  {
    SagaStep(o, Ready, gw, valid, answers);
    var (p, servers) := RunCommand(o, Ready, gw, valid, answers[0]);
    if p.Created? {
      var rest := answers[1..];
      SagaStep(o, p, servers, valid, rest);
      var (p', servers') := RunCommand(o, p, servers, valid, rest[0]);
      if p' == Undo {
        SagaStep(o, p', servers', valid, rest[1..]);
        SagaStep(o, Restore, servers', valid, rest[1..][1..]);
      }
    }
  }

  lemma ReweighingComesTo(o: Operation, gw: Servers, valid: bool, answers: seq<SystemEvent>)
    requires Commands(answers) && (o.action == SetWeights || o.action == ApplyAdaptive)
    requires FinalReport(o, Saga(o, Ready, gw, valid, answers).0).Some?
    ensures var (phase, servers) := Saga(o, Ready, gw, valid, answers);
      if o.action == ApplyAdaptive && !valid then phase == Outdated && servers == gw
      else if Succeeds(answers, 0) then phase == Routed(None) && servers == Target(o)
      else phase == Broken && servers == gw
  {
    SagaStep(o, Ready, gw, valid, answers);
  }

  lemma LabComesTo(c: Config, o: Operation, gw: Servers, valid: bool, answers: seq<SystemEvent>, rows: Instances)
    requires Commands(answers) && Answering(c, o, answers)
    requires o.action == CreateLab || o.action == ResetLab || o.action == DestroyLab
    requires FinalReport(o, Saga(o, Ready, gw, valid, answers).0).Some?
    ensures var (phase, servers) := Saga(o, Ready, gw, valid, answers); SagaOk(c, o, phase, rows, servers)
  {
    SagaStep(o, Ready, gw, valid, answers);
  }

  lemma CacheComesTo(o: Operation, gw: Servers, valid: bool, answers: seq<SystemEvent>)
    requires Commands(answers) && o.action.Cache()
    requires FinalReport(o, Saga(o, Ready, gw, valid, answers).0).Some?
    ensures Saga(o, Ready, gw, valid, answers).1 == gw
  {
    SagaStep(o, Ready, gw, valid, answers);
  }

  // ----- Rows and gateway afterwards -----------------------------------------------------

  /** The upstream list is what the rows of a serving lab say. */
  predicate ServesRows(t: State, lab: LabId, servers: Servers) {
    lab in t.sessions && t.sessions[lab].status.Up() ==> servers == WeightsOf(Rows(t, lab))
  }

  /** Weights of the rows after a topology operation's commit. */
  function WeightsAfter(s: State, id: OpId, owner: Owner, report: Report, now: Time): Servers
    requires id in s.ops
  {
    WeightsOf(Rows(Complete(s, id, owner, report, now).0, s.ops[id].lab))
  }

  /** A saga that ends as planned, or over rows it already agrees with, commits what the gateway serves. */
  lemma PlannedAgrees(c: Config, s: State, id: OpId, owner: Owner, phase: Phase, servers: Servers, now: Time)
    requires HoldsLease(s, id, owner) && s.ops[id].action.Topology() && s.ops[id].lab in s.sessions
    requires OpOk(c.quota, s.sessions[s.ops[id].lab], Rows(s, s.ops[id].lab), s.ops[id])
    requires RowsOk(c.quota, s.sessions[s.ops[id].lab], Rows(s, s.ops[id].lab))
    requires FinalReport(s.ops[id], phase).Some? && SagaOk(c, s.ops[id], phase, Rows(s, s.ops[id].lab), servers)
    ensures WeightsAfter(s, id, owner, FinalReport(s.ops[id], phase).value, now) == servers
  {
    var o, report := s.ops[id], FinalReport(s.ops[id], phase).value;
    SagaWritesWeights(c, s.sessions[o.lab], Rows(s, o.lab), o, phase, servers);
    FinalReportTrusted(c, s, id, owner, phase, Rows(s, o.lab), servers, now);
    TopologyCompletionCommits(c, s, id, owner, report, now);
    TopologyCommitAgrees(s, id, owner, report, servers, now);
  }

  lemma StillServes(s: State, id: OpId, owner: Owner, report: Report, now: Time)
    requires id in s.ops && s.ops[id].lab in s.sessions && s.sessions[s.ops[id].lab].status.Up()
    requires (s.ops[id].action.Topology() && report.TopologyReport?) || (s.ops[id].action.Cache() && report.CacheReport?)
    ensures var t := Complete(s, id, owner, report, now).0;
      s.ops[id].lab in t.sessions && t.sessions[s.ops[id].lab].status.Up()
  {
  }

  /** The lease holder of an operation that fits its lab. */
  predicate Held(c: Config, s: State, id: OpId, owner: Owner) {
    && HoldsLease(s, id, owner) && s.ops[id].lab in s.sessions
    && OpOk(c.quota, s.sessions[s.ops[id].lab], Rows(s, s.ops[id].lab), s.ops[id])
    && RowsOk(c.quota, s.sessions[s.ops[id].lab], Rows(s, s.ops[id].lab))
  }

  /** The saga ends, and its rows then carry the gateway's weights exactly if the operation recovers. */
  predicate EndsAsRecovered(s: State, id: OpId, owner: Owner, gw: Servers, valid: bool, answers: seq<SystemEvent>, now: Time)
    requires id in s.ops && Commands(answers) && FinalReport(s.ops[id], Saga(s.ops[id], Ready, gw, valid, answers).0).Some?
  {
    var (phase, servers) := Saga(s.ops[id], Ready, gw, valid, answers);
    (WeightsAfter(s, id, owner, FinalReport(s.ops[id], phase).value, now) == servers)
    <==> Recovers(s.ops[id], gw, WeightsOf(Rows(s, s.ops[id].lab)), valid, answers)
  }

  lemma AdditionRecovers(c: Config, s: State, id: OpId, owner: Owner, gw: Servers, valid: bool, answers: seq<SystemEvent>, now: Time)
    requires Held(c, s, id, owner) && s.ops[id].action == AddInstance && Commands(answers) && Answering(c, s.ops[id], answers)
    requires FinalReport(s.ops[id], Saga(s.ops[id], Ready, gw, valid, answers).0).Some?
    ensures EndsAsRecovered(s, id, owner, gw, valid, answers, now)
  {
    var o, rows := s.ops[id], Rows(s, s.ops[id].lab);
    AdditionComesTo(o, gw, valid, answers);
    var (phase, servers) := Saga(o, Ready, gw, valid, answers);
    PlannedAgrees(c, s, id, owner, phase, if phase.Routed? then servers else WeightsOf(rows), now);
  }

  lemma RemovalRecovers(c: Config, s: State, id: OpId, owner: Owner, gw: Servers, valid: bool, answers: seq<SystemEvent>, now: Time)
    requires Held(c, s, id, owner) && s.ops[id].action == RemoveInstance && Commands(answers)
    requires FinalReport(s.ops[id], Saga(s.ops[id], Ready, gw, valid, answers).0).Some?
    ensures EndsAsRecovered(s, id, owner, gw, valid, answers, now)
  {
    var o, rows := s.ops[id], Rows(s, s.ops[id].lab);
    RemovalComesTo(o, gw, valid, answers);
    var (phase, servers) := Saga(o, Ready, gw, valid, answers);
    PlannedAgrees(c, s, id, owner, phase, if phase == Removed then servers else WeightsOf(rows), now);
    assert o.payload.name in WeightsOf(rows) && o.payload.name !in Target(o);
  }

  lemma ResizeRecovers(c: Config, s: State, id: OpId, owner: Owner, gw: Servers, valid: bool, answers: seq<SystemEvent>, now: Time)
    requires Held(c, s, id, owner) && s.ops[id].action == SetPerformance && Commands(answers) && Answering(c, s.ops[id], answers)
    requires gw == Target(s.ops[id]) || gw == WeightsOf(Rows(s, s.ops[id].lab))
    requires FinalReport(s.ops[id], Saga(s.ops[id], Ready, gw, valid, answers).0).Some?
    ensures EndsAsRecovered(s, id, owner, gw, valid, answers, now)
  {
    var o := s.ops[id];
    ResizeComesTo(o, gw, valid, answers);
    var (phase, servers) := Saga(o, Ready, gw, valid, answers);
    PlannedAgrees(c, s, id, owner, phase, servers, now);
  }

  lemma ReweighingRecovers(c: Config, s: State, id: OpId, owner: Owner, gw: Servers, valid: bool, answers: seq<SystemEvent>, now: Time)
    requires Held(c, s, id, owner) && (s.ops[id].action == SetWeights || s.ops[id].action == ApplyAdaptive) && Commands(answers)
    requires FinalReport(s.ops[id], Saga(s.ops[id], Ready, gw, valid, answers).0).Some?
    ensures EndsAsRecovered(s, id, owner, gw, valid, answers, now)
  {
    var o, rows := s.ops[id], Rows(s, s.ops[id].lab);
    ReweighingComesTo(o, gw, valid, answers);
    var (phase, servers) := Saga(o, Ready, gw, valid, answers);
    PlannedAgrees(c, s, id, owner, phase, if phase.Routed? then servers else WeightsOf(rows), now);
  }

  lemma ModeRecovers(c: Config, s: State, id: OpId, owner: Owner, gw: Servers, valid: bool, answers: seq<SystemEvent>, now: Time)
    requires Held(c, s, id, owner) && s.ops[id].action == SetMode && Commands(answers)
    ensures FinalReport(s.ops[id], Saga(s.ops[id], Ready, gw, valid, answers).0).Some?
    ensures EndsAsRecovered(s, id, owner, gw, valid, answers, now)
  {
    PlannedAgrees(c, s, id, owner, Ready, WeightsOf(Rows(s, s.ops[id].lab)), now);
  }

  lemma TopologyRecovers(c: Config, s: State, id: OpId, owner: Owner, gw: Servers, valid: bool, answers: seq<SystemEvent>, now: Time)
    requires Held(c, s, id, owner) && s.ops[id].action.Topology() && Commands(answers) && Answering(c, s.ops[id], answers)
    requires gw == WeightsOf(Rows(s, s.ops[id].lab)) || gw == Target(s.ops[id])
    requires FinalReport(s.ops[id], Saga(s.ops[id], Ready, gw, valid, answers).0).Some?
    ensures EndsAsRecovered(s, id, owner, gw, valid, answers, now)
  {
    match s.ops[id].action
    case AddInstance => AdditionRecovers(c, s, id, owner, gw, valid, answers, now);
    case RemoveInstance => RemovalRecovers(c, s, id, owner, gw, valid, answers, now);
    case SetPerformance => ResizeRecovers(c, s, id, owner, gw, valid, answers, now);
    case SetMode => ModeRecovers(c, s, id, owner, gw, valid, answers, now);
    case _ => ReweighingRecovers(c, s, id, owner, gw, valid, answers, now);
  }

  lemma TopologyReports(o: Operation, phase: Phase)
    requires FinalReport(o, phase).Some?
    ensures o.action.Topology() ==> FinalReport(o, phase).value.TopologyReport?
    ensures o.action.Cache() ==> FinalReport(o, phase).value.CacheReport?
  {
  }

  /** An operation started again over what a lost worker may have left in the gateway ends with a lab that serves
      what its rows say, or does not serve, if and only if the commands succeed that `Recovers` names. */
  lemma RestartAgreesIff(c: Config, s: State, id: OpId, owner: Owner, gw: Servers, valid: bool, answers: seq<SystemEvent>, now: Time)
    requires Held(c, s, id, owner) && Commands(answers) && Answering(c, s.ops[id], answers)
    requires gw == WeightsOf(Rows(s, s.ops[id].lab)) || gw == Target(s.ops[id])
    requires FinalReport(s.ops[id], Saga(s.ops[id], Ready, gw, valid, answers).0).Some?
    ensures var (phase, servers) := Saga(s.ops[id], Ready, gw, valid, answers);
      ServesRows(Complete(s, id, owner, FinalReport(s.ops[id], phase).value, now).0, s.ops[id].lab, servers)
      <==> Recovers(s.ops[id], gw, WeightsOf(Rows(s, s.ops[id].lab)), valid, answers)
  {
    var o := s.ops[id];
    var (phase, servers) := Saga(o, Ready, gw, valid, answers);
    var report := FinalReport(o, phase).value;
    TopologyReports(o, phase);
    if o.action.Topology() {
      TopologyRecovers(c, s, id, owner, gw, valid, answers, now);
      StillServes(s, id, owner, report, now);
    } else if o.action.Cache() {
      CacheComesTo(o, gw, valid, answers);
      CacheCommitAgrees(s, id, owner, phase, now);
      StillServes(s, id, owner, report, now);
    } else {
      LabComesTo(c, o, gw, valid, answers, Rows(s, o.lab));
      LabCommitAgrees(c, s, id, owner, phase, servers, now);
    }
  }
}
