/**
 Lookups through three cache levels as interleaved steps of concurrent
 requests: the process-local store, the shared Redis, and the database.
 */
module CacheProcessor {
  import opened Domain
  import L = Lru
  import S = L1Store

  type Product = L.Product
  type Catalogue = map<nat, Product>
  type Thread = nat

  datatype Layer = L1 | Redis | Mysql
  datatype Seen = Hit | Miss | Disabled | Unavailable | Absent
  datatype TraceStep = TraceStep(layer: Layer, seen: Seen)
  type Trace = seq<TraceStep>

  datatype Source = ByL1 | ByRedis | ByMysql | ByDegraded
  datatype Lookup = Found(v: Product) | NoProduct

  /** Where a request stands between two of its accesses to shared state. */
  datatype Phase =
    | AskRedis(id: nat, now: Time, trace: Trace)
    | AskDatabase(id: nat, now: Time, failed: bool, trace: Trace)
    | FillRedis(id: nat, now: Time, v: Product, source: Source, trace: Trace)
    | FillL1(id: nat, now: Time, v: Product, source: Source, trace: Trace)
    | Replied(id: nat, now: Time, lookup: Lookup, source: Source, trace: Trace)
    | Errored(id: nat)

  datatype System = System(
    entries: L.Entries,
    enabled: bool,
    redis: Catalogue,
    threads: map<Thread, Phase>)

  const Initial: System := System([], true, map[], map[])

  datatype RedisAnswer = RedisFound | RedisMissed | RedisFailed

  /** Steps of requests, of the operator, and of the environment. */
  datatype Event =
    | Begin(t: Thread, id: nat, now: Time)
    | ReadRedis(t: Thread, answer: RedisAnswer)
    | ReadDatabase(t: Thread, ok: bool)
    | WriteRedis(t: Thread, ok: bool)
    | WriteL1(t: Thread)
    | SetEnabled(enabled: bool, now: Time)
    | Report(now: Time)
    | RedisLoses(id: nat)
    | OtherInstanceFills(id: nat)

  function BeginStep(y: System, t: Thread, id: nat, now: Time): System {
    if !y.enabled then y.(threads := y.threads[t := AskRedis(id, now, [TraceStep(L1, Disabled)])])
    else
      var (entries, hit) := L.Get(y.entries, id, now);
      var phase :=
        if hit.Some? then Replied(id, now, Found(hit.value), ByL1, [TraceStep(L1, Hit)])
        else AskRedis(id, now, [TraceStep(L1, Miss)]);
      y.(entries := entries, threads := y.threads[t := phase])
  }

  /** Redis answers with what it holds, misses, or fails. */
  function RedisStep(y: System, p: Phase, answer: RedisAnswer): Phase
    requires p.AskRedis?
  {
    if answer == RedisFound && p.id in y.redis then
      FillL1(p.id, p.now, y.redis[p.id], ByRedis, p.trace + [TraceStep(Redis, Hit)])
    else
      var failed := answer == RedisFailed;
      AskDatabase(p.id, p.now, failed, p.trace + [TraceStep(Redis, if failed then Unavailable else Miss)])
  }

  function DatabaseStep(db: Catalogue, p: Phase, ok: bool): Phase
    requires p.AskDatabase?
  {
    if !ok then Errored(p.id)
    else if p.id !in db then Replied(p.id, p.now, NoProduct, ByMysql, p.trace + [TraceStep(Mysql, Absent)])
    else FillRedis(p.id, p.now, db[p.id], if p.failed then ByDegraded else ByMysql, p.trace + [TraceStep(Mysql, Hit)])
  }

  function PutIfEnabled(c: L.Limits, y: System, v: Product, now: Time): L.Entries {
    if y.enabled then L.Put(y.entries, c.maximum, c.ttl, v, now).0 else y.entries
  }

  function Toggle(y: System, enabled: bool, now: Time): System {
    var entries := if !enabled && y.enabled then [] else y.entries;
    y.(enabled := enabled, entries := L.Unexpired(entries, now))
  }

  predicate At(y: System, t: Thread, e: Event) {
    t in y.threads
    && ((e.ReadRedis? && y.threads[t].AskRedis?) || (e.ReadDatabase? && y.threads[t].AskDatabase?)
        || (e.WriteRedis? && y.threads[t].FillRedis?) || (e.WriteL1? && y.threads[t].FillL1?))
  }

  function Next(c: L.Limits, db: Catalogue, y: System, e: Event): System {
    match e
    case Begin(t, id, now) => if t in y.threads then y else BeginStep(y, t, id, now)
    case ReadRedis(t, answer) =>
      if !At(y, t, e) then y else y.(threads := y.threads[t := RedisStep(y, y.threads[t], answer)])
    case ReadDatabase(t, ok) =>
      if !At(y, t, e) then y else y.(threads := y.threads[t := DatabaseStep(db, y.threads[t], ok)])
    case WriteRedis(t, ok) =>
      if !At(y, t, e) then y
      else
        var p := y.threads[t];
        y.(redis := if ok then y.redis[p.v.id := p.v] else y.redis,
           threads := y.threads[t := FillL1(p.id, p.now, p.v, p.source, p.trace)])
    case WriteL1(t) =>
      if !At(y, t, e) then y
      else
        var p := y.threads[t];
        y.(entries := PutIfEnabled(c, y, p.v, p.now),
           threads := y.threads[t := Replied(p.id, p.now, Found(p.v), p.source, p.trace)])
    case SetEnabled(enabled, now) => Toggle(y, enabled, now)
    case Report(now) => y.(entries := L.Unexpired(y.entries, now))
    case RedisLoses(id) => y.(redis := map k | k in y.redis && k != id :: y.redis[k])
    case OtherInstanceFills(id) => if id in db then y.(redis := y.redis[id := db[id]]) else y
  }

  function After(c: L.Limits, db: Catalogue, run: seq<Event>): System {
    if run == [] then Initial else Next(c, db, After(c, db, run[..|run| - 1]), run[|run| - 1])
  }

  // ----- Agreement with the database ---------------------------------------------------

  /** Every row stands under its own id. */
  predicate Keyed(db: Catalogue) {
    forall id :: id in db ==> db[id].id == id
  }

  predicate IsRow(db: Catalogue, id: nat, v: Product) { id in db && db[id] == v }

  /** The trace of a request that has found nothing above the database. */
  predicate Missed(trace: Trace, failed: bool) {
    && |trace| == 2 && trace[0].layer == L1 && (trace[0].seen == Miss || trace[0].seen == Disabled)
    && trace[1] == TraceStep(Redis, if failed then Unavailable else Miss)
  }

  /** The trace tells where the answer came from. */
  predicate TraceTells(lookup: Lookup, source: Source, trace: Trace) {
    match source
    case ByL1 => lookup.Found? && trace == [TraceStep(L1, Hit)]
    case ByRedis =>
      && lookup.Found? && |trace| == 2 && trace[0].layer == L1 && (trace[0].seen == Miss || trace[0].seen == Disabled)
      && trace[1] == TraceStep(Redis, Hit)
    case ByMysql =>
      && |trace| == 3 && trace[2] == TraceStep(Mysql, if lookup.Found? then Hit else Absent)
      && if lookup.Found? then Missed(trace[..2], false) else Missed(trace[..2], false) || Missed(trace[..2], true)
    case ByDegraded => lookup.Found? && |trace| == 3 && trace[2] == TraceStep(Mysql, Hit) && Missed(trace[..2], true)
  }

  predicate PhaseOk(db: Catalogue, p: Phase) {
    match p
    case AskRedis(_, _, trace) =>
      |trace| == 1 && trace[0].layer == L1 && (trace[0].seen == Miss || trace[0].seen == Disabled)
    case AskDatabase(_, _, failed, trace) => Missed(trace, failed)
    case FillRedis(id, _, v, source, trace) => IsRow(db, id, v) && TraceTells(Found(v), source, trace)
    case FillL1(id, _, v, source, trace) => IsRow(db, id, v) && TraceTells(Found(v), source, trace)
    case Replied(id, _, lookup, source, trace) =>
      && TraceTells(lookup, source, trace)
      && if lookup.Found? then IsRow(db, id, lookup.v) else id !in db
    case Errored(_) => true
  }

  predicate RowsOnly(db: Catalogue, es: L.Entries) {
    forall e :: e in es ==> IsRow(db, e.product.id, e.product)
  }

  predicate Agrees(c: L.Limits, db: Catalogue, y: System) {
    && L.DistinctKeys(y.entries) && |y.entries| <= c.maximum && RowsOnly(db, y.entries)
    && (!y.enabled ==> y.entries == [])
    && (forall id :: id in y.redis ==> IsRow(db, id, y.redis[id]))
    && (forall t :: t in y.threads ==> PhaseOk(db, y.threads[t]))
  }

  /** One access to the local store keeps its entries rows of the database. */
  lemma StoreStep(c: L.Limits, db: Catalogue, es: L.Entries, a: L.Access)
    requires c.maximum >= 0 && L.DistinctKeys(es) && |es| <= c.maximum && RowsOnly(db, es)
    requires a.PutOne? ==> IsRow(db, a.v.id, a.v)
    ensures var after := L.Step(c, es, a);
      L.DistinctKeys(after) && |after| <= c.maximum && RowsOnly(db, after)
  {
    L.StepKeepsBounds(c, es, a);
    forall e | e in L.Step(c, es, a) ensures IsRow(db, e.product.id, e.product) {
      L.StepOrigin(c, es, a, e);
    }
  }

  lemma HitIsRow(db: Catalogue, es: L.Entries, id: nat, now: Time)
    requires RowsOnly(db, es)
    ensures L.Get(es, id, now).1.Some? ==> IsRow(db, id, L.Get(es, id, now).1.value)
  {
    var p := L.Position(es, id);
    if p < |es| {
      assert es[p] in es;
    }
  }

  predicate StoreOk(c: L.Limits, db: Catalogue, enabled: bool, es: L.Entries) {
    && L.DistinctKeys(es) && |es| <= c.maximum && RowsOnly(db, es)
    && (!enabled ==> es == [])
  }

  lemma RequestMoves(c: L.Limits, db: Catalogue, y: System, t: Thread, p: Phase, es: L.Entries)
    requires Agrees(c, db, y) && PhaseOk(db, p) && StoreOk(c, db, y.enabled, es)
    ensures Agrees(c, db, y.(entries := es, threads := y.threads[t := p]))
  {}

  lemma RedisStepOk(c: L.Limits, db: Catalogue, y: System, p: Phase, answer: RedisAnswer)
    requires Agrees(c, db, y) && PhaseOk(db, p) && p.AskRedis?
    ensures PhaseOk(db, RedisStep(y, p, answer))
  {}

  lemma DatabaseStepOk(db: Catalogue, p: Phase, ok: bool)
    requires PhaseOk(db, p) && p.AskDatabase?
    ensures PhaseOk(db, DatabaseStep(db, p, ok))
  {
    assert (p.trace + [TraceStep(Mysql, Hit)])[..2] == p.trace == (p.trace + [TraceStep(Mysql, Absent)])[..2];
  }

  lemma BeginAgrees(c: L.Limits, db: Catalogue, y: System, t: Thread, id: nat, now: Time)
    requires c.maximum >= 0 && Agrees(c, db, y)
    ensures Agrees(c, db, BeginStep(y, t, id, now))
  {
    if y.enabled {
      StoreStep(c, db, y.entries, L.GetOne(id, now));
      HitIsRow(db, y.entries, id, now);
    }
    var after := BeginStep(y, t, id, now);
    RequestMoves(c, db, y, t, after.threads[t], after.entries);
  }

  lemma WriteL1Agrees(c: L.Limits, db: Catalogue, y: System, t: Thread)
    requires c.maximum >= 0 && Keyed(db) && Agrees(c, db, y) && At(y, t, WriteL1(t))
    ensures Agrees(c, db, Next(c, db, y, WriteL1(t)))
  {
    var p := y.threads[t];
    assert PhaseOk(db, p);
    if y.enabled {
      StoreStep(c, db, y.entries, L.PutOne(p.v, p.now));
    }
    RequestMoves(c, db, y, t, Replied(p.id, p.now, Found(p.v), p.source, p.trace), PutIfEnabled(c, y, p.v, p.now));
  }

  lemma SweepAgrees(c: L.Limits, db: Catalogue, y: System, enabled: bool, now: Time)
    requires c.maximum >= 0 && Agrees(c, db, y)
    ensures Agrees(c, db, Toggle(y, enabled, now)) && Agrees(c, db, y.(entries := L.Unexpired(y.entries, now)))
  {
    StoreStep(c, db, y.entries, L.Snapshot(now));
  }

  lemma RequestStepAgrees(c: L.Limits, db: Catalogue, y: System, t: Thread, e: Event)
    requires c.maximum >= 0 && Agrees(c, db, y) && At(y, t, e) && (e.ReadRedis? || e.ReadDatabase?) && e.t == t
    ensures Agrees(c, db, Next(c, db, y, e))
  {
    var p := y.threads[t];
    assert PhaseOk(db, p);
    if e.ReadRedis? {
      RedisStepOk(c, db, y, p, e.answer);
      RequestMoves(c, db, y, t, RedisStep(y, p, e.answer), y.entries);
    } else {
      DatabaseStepOk(db, p, e.ok);
      RequestMoves(c, db, y, t, DatabaseStep(db, p, e.ok), y.entries);
    }
  }

  lemma StepAgrees(c: L.Limits, db: Catalogue, y: System, e: Event)
    requires c.maximum >= 0 && Keyed(db) && Agrees(c, db, y)
    ensures Agrees(c, db, Next(c, db, y, e))
  {
    match e
    case Begin(t, id, now) => BeginAgrees(c, db, y, t, id, now);
    case ReadRedis(t, answer) =>
      if At(y, t, e) {
        RequestStepAgrees(c, db, y, t, e);
      }
    case ReadDatabase(t, ok) =>
      if At(y, t, e) {
        RequestStepAgrees(c, db, y, t, e);
      }
    case WriteRedis(t, ok) => WriteRedisAgrees(c, db, y, t, ok);
    case WriteL1(t) =>
      if At(y, t, e) {
        WriteL1Agrees(c, db, y, t);
      }
    case SetEnabled(enabled, now) => SweepAgrees(c, db, y, enabled, now);
    case Report(now) => SweepAgrees(c, db, y, y.enabled, now);
    case RedisLoses(id) =>
    case OtherInstanceFills(id) =>
  }

  lemma WriteRedisAgrees(c: L.Limits, db: Catalogue, y: System, t: Thread, ok: bool)
    requires Keyed(db) && Agrees(c, db, y)
    ensures Agrees(c, db, Next(c, db, y, WriteRedis(t, ok)))
  {
    if At(y, t, WriteRedis(t, ok)) {
      assert PhaseOk(db, y.threads[t]);
    }
  }

  lemma {:induction false} ReachableAgrees(c: L.Limits, db: Catalogue, run: seq<Event>)
    requires c.maximum >= 0 && Keyed(db)
    ensures Agrees(c, db, After(c, db, run))
  {
    if run != [] {
      ReachableAgrees(c, db, run[..|run| - 1]);
      StepAgrees(c, db, After(c, db, run[..|run| - 1]), run[|run| - 1]);
    }
  }

  /** Whatever the interleaving, failures, expiries and evictions: a reply is the database row of the
      requested product, or "not found" exactly where there is none, and its trace tells the layer. */
  lemma RepliesEqualDatabase(c: L.Limits, db: Catalogue, run: seq<Event>, t: Thread)
    requires c.maximum >= 0 && Keyed(db) && t in After(c, db, run).threads && After(c, db, run).threads[t].Replied?
    ensures var p := After(c, db, run).threads[t];
      && (p.lookup == if p.id in db then Found(db[p.id]) else NoProduct)
      && TraceTells(p.lookup, p.source, p.trace)
  {
    ReachableAgrees(c, db, run);
    assert PhaseOk(db, After(c, db, run).threads[t]);
  }

  /** A disabled local store is empty, and no request in progress refills it. */
  lemma DisabledStoreIsEmpty(c: L.Limits, db: Catalogue, run: seq<Event>)
    requires c.maximum >= 0 && Keyed(db) && !After(c, db, run).enabled
    ensures After(c, db, run).entries == []
  {
    ReachableAgrees(c, db, run);
  }

  // ----- What the platform checks ------------------------------------------------------------

  datatype Latencies = Latencies(l1: int, redis: int, mysql: int, degraded: int)

  function Latency(ms: Latencies, source: Source): int {
    match source
    case ByL1 => ms.l1
    case ByRedis => ms.redis
    case ByMysql => ms.mysql
    case ByDegraded => ms.degraded
  }

  predicate Cacheable(v: Product) { v.name != "" && v.category != "" && v.version > 0 }

  /** The cache part of a traffic result. */
  datatype CacheResult = CacheResult(lookups: nat, observedAt: Time, lookup: Lookup, source: Source, latency: int, trace: Trace)

  /** What a request that replied reports, and when its batch is said to have occurred. */
  function Reported(ms: Latencies, p: Phase): (CacheResult, Time)
    requires p.Replied?
  {
    (CacheResult(1, p.now, p.lookup, p.source, Latency(ms, p.source), p.trace), p.now)
  }

  /** The checks on the cache part of a result, for a batch that occurred at `at`. */
  predicate ValidCacheResult(requested: nat, at: Time, r: CacheResult) {
    && r.lookups == 1 && r.observedAt == at && r.latency > 0 && 1 <= |r.trace| <= 3
    && (r.lookup.Found? ==> r.lookup.v.id == requested && Cacheable(r.lookup.v))
  }

  lemma RepliesPassChecks(c: L.Limits, db: Catalogue, ms: Latencies, run: seq<Event>, t: Thread)
    requires c.maximum >= 0 && Keyed(db) && (forall id :: id in db ==> Cacheable(db[id]))
    requires ms.l1 > 0 && ms.redis > 0 && ms.mysql > 0 && ms.degraded > 0
    requires t in After(c, db, run).threads && After(c, db, run).threads[t].Replied?
    ensures var p := After(c, db, run).threads[t];
      var (result, at) := Reported(ms, p);
      ValidCacheResult(p.id, at, result)
  {
    RepliesEqualDatabase(c, db, run, t);
  }

  // ----- The processor's critical sections -----------------------------------------------------

  /** The parts of a request that hold the cache lock, on the store in place. */
  class Processor {
    const l1: S.Store
    var l1Enabled: bool

    ghost predicate Valid()
      reads this, l1, l1.recency
    {
      l1.Valid()
    }

    constructor (c: L.Limits)
      ensures Valid() && fresh(l1) && l1.contents == [] && l1Enabled && l1.maximum == c.maximum && l1.ttl == c.ttl
    {
      l1 := new S.Store(c.maximum, c.ttl);
      l1Enabled := true;
    }

    /** The first step of a request. */
    method LookUp(id: nat, now: Time, ghost y: System, ghost t: Thread) returns (hit: Option<Product>, enabled: bool)
      requires Valid() && y.entries == l1.contents && y.enabled == l1Enabled
      modifies l1, l1.recency
      ensures Valid() && l1Enabled == old(l1Enabled) == enabled
      ensures var after := BeginStep(y, t, id, now);
        && l1.contents == after.entries
        && (hit.Some? <==> after.threads[t].Replied?)
        && (hit.Some? ==> after.threads[t].lookup == Found(hit.value))
    {
      enabled, hit := l1Enabled, None;
      if enabled {
        hit := l1.Get(id, now);
      }
    }

    /** The last step of a request that found its product below the local store. */
    method PutL1IfEnabled(v: Product, now: Time, ghost y: System) returns (evicted: Option<Product>)
      requires Valid() && y.entries == l1.contents && y.enabled == l1Enabled
      modifies l1, l1.recency
      ensures Valid() && l1Enabled == old(l1Enabled)
      ensures l1.contents == PutIfEnabled(L.Limits(l1.maximum, l1.ttl), y, v, now)
    {
      if !l1Enabled {
        return None;
      }
      var expiresAt;
      expiresAt, evicted := l1.Put(v, now);
    }

    method SetL1Enabled(enabled: bool, now: Time, ghost y: System) returns (live: bool, entries: L.Entries)
      requires Valid() && y.entries == l1.contents && y.enabled == l1Enabled
      modifies this, l1
      ensures Valid() && l1Enabled == enabled == live
      ensures l1.contents == Toggle(y, enabled, now).entries && entries == if enabled then l1.contents else []
    {
      var already := l1Enabled == enabled;
      l1Enabled := enabled;
      if !enabled && !already {
        var _ := l1.Clear();
      }
      entries := l1.Snapshot(now);
      if !enabled {
        entries := [];
      }
      live := enabled;
    }
  }
}
