/** Which level answers: what was filled is found there until it expires, is pushed out, cleared or lost. */
module CacheHits {
  import opened Domain
  import opened Naming
  import L = Lru
  import opened CacheProcessor

  // ----- The accesses of a run to the local store ---------------------------------

  /** What a step does to the local store. */
  function Touches(y: System, e: Event): seq<L.Access> {
    match e
    case Begin(t, id, now) => if t in y.threads || !y.enabled then [] else [L.GetOne(id, now)]
    case WriteL1(t) => if At(y, t, e) && y.enabled then [L.PutOne(y.threads[t].v, y.threads[t].now)] else []
    case SetEnabled(enabled, now) => (if !enabled && y.enabled then [L.ClearAll] else []) + [L.Snapshot(now)]
    case Report(now) => [L.Snapshot(now)]
    case _ => []
  }

  function Accesses(c: L.Limits, db: Catalogue, run: seq<Event>): seq<L.Access> {
    if run == [] then []
    else Accesses(c, db, run[..|run| - 1]) + Touches(After(c, db, run[..|run| - 1]), run[|run| - 1])
  }

  lemma AfterOne(c: L.Limits, log: seq<L.Access>, a: L.Access)
    ensures L.After(c, log + [a]) == L.Step(c, L.After(c, log), a)
  {
    assert (log + [a])[..|log|] == log;
  }

  lemma ToggleTouches(c: L.Limits, y: System, enabled: bool, now: Time, log: seq<L.Access>)
    requires y.entries == L.After(c, log)
    ensures Toggle(y, enabled, now).entries == L.After(c, log + Touches(y, SetEnabled(enabled, now)))
  {
    if !enabled && y.enabled {
      AfterOne(c, log, L.ClearAll);
      AfterOne(c, log + [L.ClearAll], L.Snapshot(now));
      assert log + Touches(y, SetEnabled(enabled, now)) == log + [L.ClearAll] + [L.Snapshot(now)];
    } else {
      AfterOne(c, log, L.Snapshot(now));
      assert Touches(y, SetEnabled(enabled, now)) == [L.Snapshot(now)];
    }
  }

  lemma BeginTouches(c: L.Limits, db: Catalogue, y: System, e: Event, log: seq<L.Access>)
    requires y.entries == L.After(c, log) && e.Begin? && Touches(y, e) != []
    ensures Next(c, db, y, e).entries == L.After(c, log + Touches(y, e))
  {
    AfterOne(c, log, L.GetOne(e.id, e.now));
  }

  lemma WriteTouches(c: L.Limits, db: Catalogue, y: System, e: Event, log: seq<L.Access>)
    requires y.entries == L.After(c, log) && e.WriteL1? && Touches(y, e) != []
    ensures Next(c, db, y, e).entries == L.After(c, log + Touches(y, e))
  {
    AfterOne(c, log, L.PutOne(y.threads[e.t].v, y.threads[e.t].now));
  }

  lemma Untouched(c: L.Limits, db: Catalogue, y: System, e: Event)
    requires Touches(y, e) == []
    ensures Next(c, db, y, e).entries == y.entries
  {
  }

  lemma StepTouches(c: L.Limits, db: Catalogue, y: System, e: Event, log: seq<L.Access>)
    requires y.entries == L.After(c, log)
    ensures Next(c, db, y, e).entries == L.After(c, log + Touches(y, e))
  {
    if Touches(y, e) == [] {
      Untouched(c, db, y, e);
      assert log + [] == log;
    } else if e.Begin? {
      BeginTouches(c, db, y, e, log);
    } else if e.WriteL1? {
      WriteTouches(c, db, y, e, log);
    } else if e.SetEnabled? {
      ToggleTouches(c, y, e.enabled, e.now, log);
    } else {
      AfterOne(c, log, L.Snapshot(e.now));
    }
  }

  /** The local store holds what its accesses leave in it, in every interleaving. */
  lemma {:induction false} StoreFollowsAccesses(c: L.Limits, db: Catalogue, run: seq<Event>)
    ensures After(c, db, run).entries == L.After(c, Accesses(c, db, run))
  {
    if run != [] {
      StoreFollowsAccesses(c, db, run[..|run| - 1]);
      StepTouches(c, db, After(c, db, run[..|run| - 1]), run[|run| - 1], Accesses(c, db, run[..|run| - 1]));
    }
  }

  // ----- From a fill to a hit -----------------------------------------------------------

  /** The event neither disables the store nor fills `id` again, and finds it unexpired if it looks. */
  predicate Spares(y: System, e: Event, id: nat, expiry: Time) {
    match e
    case Begin(_, k, now) => k == id ==> now < expiry
    case WriteL1(t) => At(y, t, e) ==> y.threads[t].v.id != id
    case SetEnabled(enabled, now) => enabled && now < expiry
    case Report(now) => now < expiry
    case _ => true
  }

  /** The other products an event looks up in the local store or fills it with. */
  function Others(y: System, e: Event, id: nat): set<nat> {
    match e
    case Begin(_, k, _) => {k} - {id}
    case WriteL1(t) => if At(y, t, e) then {y.threads[t].v.id} - {id} else {}
    case _ => {}
  }

  /** The last fill of a product in a run: when its request began, and the other products used since. */
  datatype Fill = Fill(at: Time, others: set<nat>)

  /** The fill that is still good at the end of the run, if there is one. */
  function Good(c: L.Limits, db: Catalogue, run: seq<Event>, id: nat): Option<Fill> {
    if run == [] then None
    else
      var front, e := run[..|run| - 1], run[|run| - 1];
      var y, was := After(c, db, front), Good(c, db, front, id);
      if e.WriteL1? && At(y, e.t, e) && y.enabled && y.threads[e.t].v.id == id then Some(Fill(y.threads[e.t].now, {}))
      else if was.None? || !Spares(y, e, id, was.value.at + c.ttl) then None
      else Some(Fill(was.value.at, was.value.others + Others(y, e, id)))
  }

  /** What a good fill means for the accesses: the product is retained, from that fill, behind `others` at most. */
  predicate Holds(c: L.Limits, log: seq<L.Access>, id: nat, fill: Fill) {
    && L.Retained(c, log, id) && L.LastPut(log, id).Some? && L.LastPut(log, id).value.1 == fill.at
    && L.LastPut(log, id).value.0.id == id && L.Recent(log, id) <= fill.others
  }

  lemma AccessHolds(c: L.Limits, log: seq<L.Access>, a: L.Access, id: nat, fill: Fill, others: set<nat>)
    requires Holds(c, log, id, fill) && fill.others <= others && |others| < c.maximum
    requires match a
      case GetOne(k, now) => if k == id then now < fill.at + c.ttl else k in others
      case PutOne(v, _) => v.id != id && v.id in others
      case Snapshot(now) => now < fill.at + c.ttl
      case _ => false
    ensures Holds(c, log + [a], id, Fill(fill.at, others))
  {
    var more := log + [a];
    assert more[..|more| - 1] == log && more[|more| - 1] == a;
    assert L.Recent(more, id) <= others;
    SubsetSize(L.Recent(more, id), others);
  }

  lemma SparedHolds(c: L.Limits, y: System, e: Event, log: seq<L.Access>, id: nat, fill: Fill)
    requires y.enabled && Holds(c, log, id, fill) && Spares(y, e, id, fill.at + c.ttl)
    requires |fill.others + Others(y, e, id)| < c.maximum
    ensures Holds(c, log + Touches(y, e), id, Fill(fill.at, fill.others + Others(y, e, id)))
  {
    var touches, others := Touches(y, e), fill.others + Others(y, e, id);
    if |touches| == 0 {
      assert log + touches == log;
    } else {
      assert touches == [touches[0]];
      AccessHolds(c, log, touches[0], id, fill, others);
    }
  }

  lemma FreshHolds(c: L.Limits, log: seq<L.Access>, v: Product, at: Time)
    ensures Holds(c, log + [L.PutOne(v, at)], v.id, Fill(at, {}))
  {
    var more := log + [L.PutOne(v, at)];
    assert more[..|more| - 1] == log && more[|more| - 1] == L.PutOne(v, at);
  }

  lemma {:induction false} GoodFillHolds(c: L.Limits, db: Catalogue, run: seq<Event>, id: nat)
    requires Good(c, db, run, id).Some? && |Good(c, db, run, id).value.others| < c.maximum
    ensures After(c, db, run).enabled && Holds(c, Accesses(c, db, run), id, Good(c, db, run, id).value)
  {
    var front, e := run[..|run| - 1], run[|run| - 1];
    var y, was, log := After(c, db, front), Good(c, db, front, id), Accesses(c, db, front);
    if e.WriteL1? && At(y, e.t, e) && y.enabled && y.threads[e.t].v.id == id {
      FreshHolds(c, log, y.threads[e.t].v, y.threads[e.t].now);
    } else {
      SubsetSize(was.value.others, Good(c, db, run, id).value.others);
      GoodFillHolds(c, db, front, id);
      SparedHolds(c, y, e, log, id, was.value);
    }
  }

  /** Once the local store was filled with a product, a request for it before that fill expires is answered by the
      local store, if the store was not disabled and fewer other products than it holds were used since. */
  lemma FilledIsHit(c: L.Limits, db: Catalogue, run: seq<Event>, id: nat, t: Thread, now: Time)
    requires Keyed(db) && Good(c, db, run, id).Some? && |Good(c, db, run, id).value.others| < c.maximum
    requires now < Good(c, db, run, id).value.at + c.ttl && t !in After(c, db, run).threads
    ensures var y := After(c, db, run + [Begin(t, id, now)]);
      && id in db && t in y.threads
      && y.threads[t] == Replied(id, now, Found(db[id]), ByL1, [TraceStep(L1, Hit)])
  {
    var y := After(c, db, run);
    assert (run + [Begin(t, id, now)])[..|run|] == run;
    GoodFillHolds(c, db, run, id);
    StoreFollowsAccesses(c, db, run);
    L.RetainedHits(c, Accesses(c, db, run), id, now);
    ReachableAgrees(c, db, run);
    HitIsRow(db, y.entries, id, now);
  }

  /** The reply of a request that filled the local store leaves it filled. */
  lemma ReplyFills(c: L.Limits, db: Catalogue, run: seq<Event>, t: Thread)
    requires Keyed(db) && c.maximum >= 0 && At(After(c, db, run), t, WriteL1(t)) && After(c, db, run).enabled
    ensures var p, more := After(c, db, run).threads[t], run + [WriteL1(t)];
      && After(c, db, more).threads[t] == Replied(p.id, p.now, Found(p.v), p.source, p.trace)
      && Good(c, db, more, p.id) == Some(Fill(p.now, {}))
  {
    var more := run + [WriteL1(t)];
    assert more[..|more| - 1] == run;
    ReachableAgrees(c, db, run);
    assert PhaseOk(db, After(c, db, run).threads[t]);
  }

  // ----- Redis ---------------------------------------------------------------------------------

  /** The last that happened to a product in Redis was a successful write of it. */
  predicate Written(c: L.Limits, db: Catalogue, run: seq<Event>, id: nat) {
    run != [] &&
    var front, e := run[..|run| - 1], run[|run| - 1];
    var y := After(c, db, front);
    (e.WriteRedis? && e.ok && At(y, e.t, e) && y.threads[e.t].v.id == id)
    || (e.OtherInstanceFills? && e.id == id && id in db)
    || (Written(c, db, front, id) && !(e.RedisLoses? && e.id == id))
  }

  lemma {:induction false} WrittenIsHeld(c: L.Limits, db: Catalogue, run: seq<Event>, id: nat)
    ensures id in After(c, db, run).redis <==> Written(c, db, run, id)
  {
    if run != [] {
      WrittenIsHeld(c, db, run[..|run| - 1], id);
      RedisMoves(c, db, After(c, db, run[..|run| - 1]), run[|run| - 1], id);
    }
  }

  lemma RedisMoves(c: L.Limits, db: Catalogue, y: System, e: Event, id: nat)
    ensures id in Next(c, db, y, e).redis <==>
            ((e.WriteRedis? && e.ok && At(y, e.t, e) && y.threads[e.t].v.id == id)
             || (e.OtherInstanceFills? && e.id == id && id in db)
             || (id in y.redis && !(e.RedisLoses? && e.id == id)))
  {
  }

  /** Until it is lost, a product written to Redis is answered by Redis whenever Redis answers: with its row, which
      then goes to the local store. Otherwise the database is asked, knowing whether Redis failed. */
  lemma WrittenIsFound(c: L.Limits, db: Catalogue, run: seq<Event>, t: Thread, answer: RedisAnswer)
    requires Keyed(db) && c.maximum >= 0 && At(After(c, db, run), t, ReadRedis(t, answer))
    ensures var p, y := After(c, db, run).threads[t], After(c, db, run + [ReadRedis(t, answer)]);
      && t in y.threads
      && if answer == RedisFound && Written(c, db, run, p.id)
         then p.id in db && y.threads[t] == FillL1(p.id, p.now, db[p.id], ByRedis, p.trace + [TraceStep(Redis, Hit)])
         else if answer == RedisFailed
         then y.threads[t] == AskDatabase(p.id, p.now, true, p.trace + [TraceStep(Redis, Unavailable)])
         else y.threads[t] == AskDatabase(p.id, p.now, false, p.trace + [TraceStep(Redis, Miss)])
  {
    var p := After(c, db, run).threads[t];
    assert (run + [ReadRedis(t, answer)])[..|run|] == run;
    WrittenIsHeld(c, db, run, p.id);
    ReachableAgrees(c, db, run);
  }

  // ----- Every request ends ------------------------------------------------------------------------

  /** The local store is in use unless the operator's last word was to disable it. */
  predicate InUse(run: seq<Event>) {
    run == [] || (if run[|run| - 1].SetEnabled? then run[|run| - 1].enabled else InUse(run[..|run| - 1]))
  }

  lemma {:induction false} EnabledAsToldLast(c: L.Limits, db: Catalogue, run: seq<Event>)
    ensures After(c, db, run).enabled == InUse(run)
  {
    if run != [] {
      EnabledAsToldLast(c, db, run[..|run| - 1]);
    }
  }

  /** A request that the local store does not answer goes on to Redis, saying whether the store was in use. */
  lemma UnansweredAsksRedis(c: L.Limits, db: Catalogue, run: seq<Event>, t: Thread, id: nat, now: Time)
    requires t !in After(c, db, run).threads
    ensures var y := After(c, db, run + [Begin(t, id, now)]);
      && t in y.threads
      && (InUse(run) && L.Get(L.After(c, Accesses(c, db, run)), id, now).1.Some? <==> y.threads[t].Replied?)
      && (!y.threads[t].Replied? ==> y.threads[t] == AskRedis(id, now, [TraceStep(L1, if InUse(run) then Miss else Disabled)]))
  {
    assert (run + [Begin(t, id, now)])[..|run|] == run;
    EnabledAsToldLast(c, db, run);
    StoreFollowsAccesses(c, db, run);
  }

  function Through(c: L.Limits, db: Catalogue, y: System, t: Thread, answer: RedisAnswer, stored: bool): System {
    var y1 := Next(c, db, y, ReadRedis(t, answer));
    var y2 := Next(c, db, y1, ReadDatabase(t, true));
    var y3 := Next(c, db, y2, WriteRedis(t, stored));
    Next(c, db, y3, WriteL1(t))
  }

  /** Whatever Redis answers and whether or not it takes the row, a request replies if the database answers: with
      the row, or with "not found" exactly where there is none. */
  lemma RequestsEnd(c: L.Limits, db: Catalogue, run: seq<Event>, t: Thread, answer: RedisAnswer, stored: bool)
    requires Keyed(db) && c.maximum >= 0 && t in After(c, db, run).threads && After(c, db, run).threads[t].AskRedis?
    ensures var p, y := After(c, db, run).threads[t], Through(c, db, After(c, db, run), t, answer, stored);
      && t in y.threads && y.threads[t].Replied? && y.threads[t].id == p.id && y.threads[t].now == p.now
      && y.threads[t].lookup == if p.id in db then Found(db[p.id]) else NoProduct
  {
    var y := After(c, db, run);
    ReachableAgrees(c, db, run);
    var y1 := Next(c, db, y, ReadRedis(t, answer));
    if y1.threads[t].FillL1? {
      assert Next(c, db, y1, ReadDatabase(t, true)) == y1 && Next(c, db, y1, WriteRedis(t, stored)) == y1;
    } else if y.threads[t].id !in db {
      var y2 := Next(c, db, y1, ReadDatabase(t, true));
      assert Next(c, db, y2, WriteRedis(t, stored)) == y2 && Next(c, db, y2, WriteL1(t)) == y2;
    }
  }

  /** The latency of a reply is that of the level that answered, as its trace tells; a row found in the database
      after Redis failed counts as degraded. */
  lemma LatencyTells(c: L.Limits, db: Catalogue, ms: Latencies, run: seq<Event>, t: Thread)
    requires Keyed(db) && c.maximum >= 0 && t in After(c, db, run).threads && After(c, db, run).threads[t].Replied?
    ensures var p := After(c, db, run).threads[t]; var latency := CacheProcessor.Reported(ms, p).0.latency;
      match |p.trace|
      case 1 => latency == ms.l1
      case 2 => latency == ms.redis
      case 3 => latency == if p.lookup.Found? && p.trace[1].seen == Unavailable then ms.degraded else ms.mysql
      case _ => false
  {
    RepliesEqualDatabase(c, db, run, t);
  }
}
