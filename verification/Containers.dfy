/**
 The containers behind the rows. A topology operation creates, deletes or resizes a
 container and undoes that when it cannot route; this module proves exactly when the
 containers are afterwards those of the rows, with the performance the rows say.
 */
module Containers {
  import opened Domain
  import opened Transactions
  import opened Coupling
  import opened Guarantees
  import opened Lifecycles
  import opened Gateway
  import opened LostLease
  import opened Replay

  /** The containers of a lab by instance name, with their performance. */
  type Boxes = map<Name, int>

  function SizesOf(rows: Instances): Boxes {
    map n | n in rows :: rows[n].performance
  }

  /** What the command of a saga at this phase does to the containers. A failed command leaves them alone. */
  function Effect(o: Operation, phase: Phase, boxes: Boxes, ok: bool): Boxes {
    if !ok || !o.payload.TopologyPayload? then boxes
    else if (o.action == AddInstance || o.action == SetPerformance) && phase == Ready then boxes[o.payload.name := o.payload.performance]
    else if o.action == AddInstance && phase == Undo then boxes - {o.payload.name}
    else if o.action == SetPerformance && phase == Undo then boxes[o.payload.name := o.payload.previousPerformance]
    else if o.action == RemoveInstance && phase.Routed? then boxes - {o.payload.name}
    else boxes
  }

  /** The containers after the commands of a saga. */
  function BoxesAfter(o: Operation, phase: Phase, gw: Servers, valid: bool, boxes: Boxes, answers: seq<SystemEvent>): Boxes
    requires Commands(answers)
    decreases |answers|
  {
    if answers == [] || FinalReport(o, phase).Some? then boxes
    else
      var (p, servers) := RunCommand(o, phase, gw, valid, answers[0]);
      BoxesAfter(o, p, servers, valid, Effect(o, phase, boxes, answers[0].ok), answers[1..])
  }

  /** The orchestrator reports the performance it was asked for. */
  predicate AsSized(o: Operation, answers: seq<SystemEvent>)
    requires Commands(answers)
  {
    forall i :: 0 <= i < |answers| && answers[i].instance.Some? && o.payload.TopologyPayload? ==>
      answers[i].instance.value.performance == o.payload.performance
  }

  /** The container was created or resized, and then either the answer was unusable, for which nothing is undone, or
      routing failed and so did the undoing. */
  predicate Strands(o: Operation, answers: seq<SystemEvent>)
    requires Commands(answers)
  {
    && Succeeds(answers, 0)
    && (!Decodes(answers[0].instance) || (!Succeeds(answers, 1) && !Succeeds(answers, 2)))
    && (o.action == AddInstance
        || (o.action == SetPerformance && o.payload.TopologyPayload? && o.payload.performance != o.payload.previousPerformance))
  }

  // ----- What the commands come to ------------------------------------------------------

  lemma BoxesStep(o: Operation, phase: Phase, gw: Servers, valid: bool, boxes: Boxes, answers: seq<SystemEvent>)
    requires Commands(answers) && answers != [] && FinalReport(o, phase) == None
    ensures var (p, servers), more := RunCommand(o, phase, gw, valid, answers[0]), Effect(o, phase, boxes, answers[0].ok);
      && BoxesAfter(o, phase, gw, valid, boxes, answers) == BoxesAfter(o, p, servers, valid, more, answers[1..])
      && (FinalReport(o, p).Some? ==> BoxesAfter(o, phase, gw, valid, boxes, answers) == more)
  {
  }

  /** Creating or resizing: done, routed or undone. */
  function MadeOrUndone(o: Operation, boxes: Boxes, answers: seq<SystemEvent>): Boxes
    requires Commands(answers) && o.payload.TopologyPayload?
  {
    if !Succeeds(answers, 0) then boxes
    else
      var made := boxes[o.payload.name := o.payload.performance];
      if !Decodes(answers[0].instance) || Succeeds(answers, 1) || !Succeeds(answers, 2) then made
      else if o.action == AddInstance then made - {o.payload.name}
      else made[o.payload.name := o.payload.previousPerformance]
  }

  lemma AdditionBoxes(o: Operation, gw: Servers, valid: bool, boxes: Boxes, answers: seq<SystemEvent>)
    requires Commands(answers) && o.action == AddInstance && o.payload.TopologyPayload?
    requires FinalReport(o, Saga(o, Ready, gw, valid, answers).0).Some?
    ensures BoxesAfter(o, Ready, gw, valid, boxes, answers) == MadeOrUndone(o, boxes, answers)
  {
    SagaStep(o, Ready, gw, valid, answers);
    BoxesStep(o, Ready, gw, valid, boxes, answers);
    var (p, servers) := RunCommand(o, Ready, gw, valid, answers[0]);
    if p.Created? {
      var rest, made := answers[1..], Effect(o, Ready, boxes, answers[0].ok);
      SagaStep(o, p, servers, valid, rest);
      BoxesStep(o, p, servers, valid, made, rest);
      var (p', servers') := RunCommand(o, p, servers, valid, rest[0]);
      if p' == Undo {
        SagaStep(o, p', servers', valid, rest[1..]);
        BoxesStep(o, p', servers', valid, made, rest[1..]);
      }
    }
  }

  /** Undoing a resize, and putting the previous list back. */
  lemma UndoBoxes(o: Operation, gw: Servers, valid: bool, made: Boxes, answers: seq<SystemEvent>)
    requires Commands(answers) && o.action == SetPerformance && o.payload.TopologyPayload?
    requires FinalReport(o, Saga(o, Undo, gw, valid, answers).0).Some?
    ensures BoxesAfter(o, Undo, gw, valid, made, answers) ==
            if Succeeds(answers, 0) then made[o.payload.name := o.payload.previousPerformance] else made
  {
    SagaStep(o, Undo, gw, valid, answers);
    BoxesStep(o, Undo, gw, valid, made, answers);
    SagaStep(o, Restore, gw, valid, answers[1..]);
    BoxesStep(o, Restore, gw, valid, Effect(o, Undo, made, answers[0].ok), answers[1..]);
  }

  lemma ResizeBoxes(o: Operation, gw: Servers, valid: bool, boxes: Boxes, answers: seq<SystemEvent>)
    requires Commands(answers) && o.action == SetPerformance && o.payload.TopologyPayload?
    requires FinalReport(o, Saga(o, Ready, gw, valid, answers).0).Some?
    ensures BoxesAfter(o, Ready, gw, valid, boxes, answers) == MadeOrUndone(o, boxes, answers)
  {
    SagaStep(o, Ready, gw, valid, answers);
    BoxesStep(o, Ready, gw, valid, boxes, answers);
    var (p, servers) := RunCommand(o, Ready, gw, valid, answers[0]);
    if p.Created? {
      var rest, made := answers[1..], Effect(o, Ready, boxes, answers[0].ok);
      SagaStep(o, p, servers, valid, rest);
      BoxesStep(o, p, servers, valid, made, rest);
      var (p', servers') := RunCommand(o, p, servers, valid, rest[0]);
      if p' == Undo {
        UndoBoxes(o, servers', valid, made, rest[1..]);
      }
    }
  }

  lemma RemovalBoxes(o: Operation, gw: Servers, valid: bool, boxes: Boxes, answers: seq<SystemEvent>)
    requires Commands(answers) && o.action == RemoveInstance && o.payload.TopologyPayload?
    requires FinalReport(o, Saga(o, Ready, gw, valid, answers).0).Some?
    ensures BoxesAfter(o, Ready, gw, valid, boxes, answers) ==
            if Succeeds(answers, 0) && Succeeds(answers, 1) then boxes - {o.payload.name} else boxes
  {
    SagaStep(o, Ready, gw, valid, answers);
    BoxesStep(o, Ready, gw, valid, boxes, answers);
    var (p, servers) := RunCommand(o, Ready, gw, valid, answers[0]);
    if p.Routed? {
      var rest := answers[1..];
      SagaStep(o, p, servers, valid, rest);
      BoxesStep(o, p, servers, valid, boxes, rest);
      var (p', servers') := RunCommand(o, p, servers, valid, rest[0]);
      if p' == Restore {
        SagaStep(o, p', servers', valid, rest[1..]);
        BoxesStep(o, p', servers', valid, boxes, rest[1..]);
      }
    }
  }

  lemma OtherBoxes(o: Operation, gw: Servers, valid: bool, boxes: Boxes, answers: seq<SystemEvent>)
    requires Commands(answers) && (o.action == SetWeights || o.action == ApplyAdaptive || o.action == SetMode)
    requires FinalReport(o, Saga(o, Ready, gw, valid, answers).0).Some?
    ensures BoxesAfter(o, Ready, gw, valid, boxes, answers) == boxes
  {
    if o.action != SetMode {
      SagaStep(o, Ready, gw, valid, answers);
      BoxesStep(o, Ready, gw, valid, boxes, answers);
    }
  }

  // ----- What the commit leaves in the rows --------------------------------------------------

  /** The sizes a committed topology operation leaves in the rows. */
  function Committed(o: Operation, report: Report, sizes: Boxes): Boxes {
    if !Accomplished(o, report) then sizes
    else if o.action == AddInstance && Answer(report).Some? then sizes[Answer(report).value.name := Answer(report).value.performance]
    else if o.action == SetPerformance && Answer(report).Some? && Answer(report).value.name in sizes then
      sizes[Answer(report).value.name := Answer(report).value.performance]
    else if o.action == RemoveInstance && o.payload.TopologyPayload? then sizes - {o.payload.name}
    else sizes
  }

  lemma SizeAt(rows: Instances, n: Name)
    ensures n in SizesOf(rows) <==> RowAt(rows, n).Some?
    ensures n in SizesOf(rows) ==> SizesOf(rows)[n] == RowAt(rows, n).value.performance
  {
  }

  lemma CommittedSizes(s: State, id: OpId, owner: Owner, report: Report, now: Time)
    requires id in s.ops && s.ops[id].action.Topology() && s.ops[id].lab in s.sessions && Complete(s, id, owner, report, now).1 == Done
    ensures var o := s.ops[id];
      SizesOf(Rows(Complete(s, id, owner, report, now).0, o.lab)) == Committed(o, report, SizesOf(Rows(s, o.lab)))
  {
    var o, t := s.ops[id], Complete(s, id, owner, report, now).0;
    TopologyMoves(s, id, owner, report, now);
    MovedSizes(Rows(s, o.lab), Rows(t, o.lab), o, report, now);
  }

  lemma MovedSizes(rows: Instances, after: Instances, o: Operation, report: Report, now: Time)
    requires o.action.Topology()
    requires forall n :: RowAt(after, n) == RowAfter(RowAt(rows, n), n, if Accomplished(o, report) then Worked(o, report, now) else Broke(o, now))
    ensures SizesOf(after) == Committed(o, report, SizesOf(rows))
  {
    var sizes, want := SizesOf(after), Committed(o, report, SizesOf(rows));
    forall n ensures (n in sizes <==> n in want) && (n in sizes ==> sizes[n] == want[n]) {
      SizeAt(rows, n);
      SizeAt(after, n);
    }
    assert sizes.Keys == want.Keys;
  }

  // ----- Agreement --------------------------------------------------------------------------------

  /** The last report of a saga, and whether it says that the operation worked. */
  lemma LastReport(o: Operation, gw: Servers, valid: bool, answers: seq<SystemEvent>)
    requires Commands(answers) && o.payload.TopologyPayload?
    requires o.action == AddInstance || o.action == SetPerformance
    requires FinalReport(o, Saga(o, Ready, gw, valid, answers).0).Some?
    ensures var report := FinalReport(o, Saga(o, Ready, gw, valid, answers).0).value;
      && answers != []
      && (Accomplished(o, report) <==> Succeeds(answers, 0) && Decodes(answers[0].instance) && Succeeds(answers, 1))
      && (Accomplished(o, report) ==> Answer(report) == answers[0].instance)
  {
    MadeComesTo(o, gw, valid, answers);
  }

  lemma MadeComesTo(o: Operation, gw: Servers, valid: bool, answers: seq<SystemEvent>)
    requires Commands(answers) && (o.action == AddInstance || o.action == SetPerformance)
    requires FinalReport(o, Saga(o, Ready, gw, valid, answers).0).Some?
    ensures var phase := Saga(o, Ready, gw, valid, answers).0;
      && answers != []
      && if Succeeds(answers, 0) && Decodes(answers[0].instance) && Succeeds(answers, 1)
         then phase == Routed(answers[0].instance)
         else phase == Broken
  {
    if o.action == AddInstance {
      AdditionComesTo(o, gw, valid, answers);
    } else {
      SagaStep(o, Ready, gw, valid, answers);
      var (p, servers) := RunCommand(o, Ready, gw, valid, answers[0]);
      if p.Created? {
        var rest := answers[1..];
        SagaStep(o, p, servers, valid, rest);
        var (p', servers') := RunCommand(o, p, servers, valid, rest[0]);
        if p' == Undo {
          SagaStep(o, p', servers', valid, rest[1..]);
          SagaStep(o, Restore, servers', valid, rest[1..][1..]);
        }
      }
    }
  }

  /** The saga of an operation ends with the containers its commit writes into the rows, unless it strands one. */
  predicate Agree(o: Operation, gw: Servers, valid: bool, sizes: Boxes, answers: seq<SystemEvent>)
    requires Commands(answers) && FinalReport(o, Saga(o, Ready, gw, valid, answers).0).Some?
  {
    BoxesAfter(o, Ready, gw, valid, sizes, answers) == Committed(o, FinalReport(o, Saga(o, Ready, gw, valid, answers).0).value, sizes)
  }

  lemma AdditionAgrees(c: Config, row: Session, rows: Instances, o: Operation, gw: Servers, valid: bool, answers: seq<SystemEvent>)
    requires OpOk(c.quota, row, rows, o) && o.action == AddInstance && Commands(answers)
    requires Answering(c, o, answers) && AsSized(o, answers) && FinalReport(o, Saga(o, Ready, gw, valid, answers).0).Some?
    ensures Agree(o, gw, valid, SizesOf(rows), answers) <==> !Strands(o, answers)
  {
    var sizes := SizesOf(rows);
    AdditionBoxes(o, gw, valid, sizes, answers);
    LastReport(o, gw, valid, answers);
    assert o.payload.name !in sizes;
    assert sizes[o.payload.name := o.payload.performance] - {o.payload.name} == sizes;
    assert o.payload.name in sizes[o.payload.name := o.payload.performance];
  }

  lemma ResizeAgrees(c: Config, row: Session, rows: Instances, o: Operation, gw: Servers, valid: bool, answers: seq<SystemEvent>)
    requires OpOk(c.quota, row, rows, o) && o.action == SetPerformance && Commands(answers)
    requires Answering(c, o, answers) && AsSized(o, answers) && FinalReport(o, Saga(o, Ready, gw, valid, answers).0).Some?
    ensures Agree(o, gw, valid, SizesOf(rows), answers) <==> !Strands(o, answers)
  {
    var sizes := SizesOf(rows);
    ResizeBoxes(o, gw, valid, sizes, answers);
    LastReport(o, gw, valid, answers);
    var made := sizes[o.payload.name := o.payload.performance];
    assert sizes[o.payload.name] == o.payload.previousPerformance && made[o.payload.name] == o.payload.performance;
    assert made[o.payload.name := o.payload.previousPerformance] == sizes;
    assert o.payload.performance == o.payload.previousPerformance ==> made == sizes;
  }

  lemma RemovalAgrees(o: Operation, sizes: Boxes, gw: Servers, valid: bool, answers: seq<SystemEvent>)
    requires o.action == RemoveInstance && o.payload.TopologyPayload? && Commands(answers)
    requires FinalReport(o, Saga(o, Ready, gw, valid, answers).0).Some?
    ensures Agree(o, gw, valid, sizes, answers)
  {
    RemovalBoxes(o, gw, valid, sizes, answers);
    RemovalComesTo(o, gw, valid, answers);
  }

  lemma OtherAgrees(o: Operation, sizes: Boxes, gw: Servers, valid: bool, answers: seq<SystemEvent>)
    requires (o.action == SetWeights || o.action == ApplyAdaptive || o.action == SetMode) && Commands(answers)
    requires FinalReport(o, Saga(o, Ready, gw, valid, answers).0).Some?
    ensures Agree(o, gw, valid, sizes, answers)
  {
    OtherBoxes(o, gw, valid, sizes, answers);
  }

  lemma SagaReportTrusted(c: Config, s: State, id: OpId, owner: Owner, gw: Servers, valid: bool, answers: seq<SystemEvent>, now: Time)
    requires id in s.ops && s.ops[id].action.Topology() && Commands(answers) && Answering(c, s.ops[id], answers)
    requires FinalReport(s.ops[id], Saga(s.ops[id], Ready, gw, valid, answers).0).Some?
    ensures Trusted(c, s, CompleteEvent(id, owner, FinalReport(s.ops[id], Saga(s.ops[id], Ready, gw, valid, answers).0).value, now))
  {
    var o := s.ops[id];
    match o.action
    case AddInstance => MadeComesTo(o, gw, valid, answers);
    case SetPerformance => MadeComesTo(o, gw, valid, answers);
    case RemoveInstance => RemovalComesTo(o, gw, valid, answers);
    case SetMode =>
    case _ => ReweighingComesTo(o, gw, valid, answers);
  }

  lemma SagaAgrees(c: Config, row: Session, rows: Instances, o: Operation, gw: Servers, valid: bool, answers: seq<SystemEvent>)
    requires OpOk(c.quota, row, rows, o) && o.action.Topology() && Commands(answers)
    requires Answering(c, o, answers) && AsSized(o, answers) && FinalReport(o, Saga(o, Ready, gw, valid, answers).0).Some?
    ensures Agree(o, gw, valid, SizesOf(rows), answers) <==> !Strands(o, answers)
  {
    match o.action
    case AddInstance => AdditionAgrees(c, row, rows, o, gw, valid, answers);
    case SetPerformance => ResizeAgrees(c, row, rows, o, gw, valid, answers);
    case RemoveInstance => RemovalAgrees(o, SizesOf(rows), gw, valid, answers);
    case _ => OtherAgrees(o, SizesOf(rows), gw, valid, answers);
  }

  /** From containers that are those of the rows, the lease holder's topology operation ends and commits with
      containers that are those of the rows, in name and performance, if and only if it strands none. */
  lemma ContainersAgreeIff(c: Config, s: State, id: OpId, owner: Owner, gw: Servers, valid: bool, answers: seq<SystemEvent>, now: Time)
    requires Held(c, s, id, owner) && s.ops[id].action.Topology() && Commands(answers)
    requires Answering(c, s.ops[id], answers) && AsSized(s.ops[id], answers)
    requires FinalReport(s.ops[id], Saga(s.ops[id], Ready, gw, valid, answers).0).Some?
    ensures var o := s.ops[id];
      var t := Complete(s, id, owner, FinalReport(o, Saga(o, Ready, gw, valid, answers).0).value, now).0;
      (BoxesAfter(o, Ready, gw, valid, SizesOf(Rows(s, o.lab)), answers) == SizesOf(Rows(t, o.lab))) <==> !Strands(o, answers)
  {
    var o := s.ops[id];
    var report := FinalReport(o, Saga(o, Ready, gw, valid, answers).0).value;
    TopologyReports(o, Saga(o, Ready, gw, valid, answers).0);
    SagaReportTrusted(c, s, id, owner, gw, valid, answers, now);
    TopologyCompletionCommits(c, s, id, owner, report, now);
    CommittedSizes(s, id, owner, report, now);
    SagaAgrees(c, s.sessions[o.lab], Rows(s, o.lab), o, gw, valid, answers);
  }

  /** An orchestrator that creates the instance but answers without its description leaves a container without a row. */
  lemma UnusableAnswerStrands(c: Config, s: State, id: OpId, owner: Owner, gw: Servers, valid: bool, now: Time)
    requires Held(c, s, id, owner) && s.ops[id].action == AddInstance
    ensures var o, answers := s.ops[id], [Command(Work(id, owner), true, None, None, false, map[])];
      && Commands(answers) && FinalReport(o, Saga(o, Ready, gw, valid, answers).0).Some?
      && var t := Complete(s, id, owner, FinalReport(o, Saga(o, Ready, gw, valid, answers).0).value, now).0;
         BoxesAfter(o, Ready, gw, valid, SizesOf(Rows(s, o.lab)), answers) != SizesOf(Rows(t, o.lab))
  {
    var o, answers := s.ops[id], [Command(Work(id, owner), true, None, None, false, map[])];
    assert Saga(o, Ready, gw, valid, answers).0 == Broken;
    ContainersAgreeIff(c, s, id, owner, gw, valid, answers, now);
  }
}
