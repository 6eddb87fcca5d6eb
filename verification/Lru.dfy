/**
 The first cache level as a value: entries from most to least recently used,
 each with an expiry fixed when it was written.
 */
module Lru {
  import opened Domain

  datatype Product = Product(id: nat, name: string, category: string, version: int)
  datatype Entry = Entry(product: Product, expiresAt: Time, lastAccessedAt: Time)
  type Entries = seq<Entry>

  predicate DistinctKeys(es: Entries) {
    forall i, j :: 0 <= i < j < |es| ==> es[i].product.id != es[j].product.id
  }

  /** The position of a key, or the length where it is absent. */
  function Position(es: Entries, id: nat): (p: nat)
    ensures p <= |es|
    ensures p < |es| ==> es[p].product.id == id
    ensures forall i :: 0 <= i < p ==> es[i].product.id != id
  {
    if es == [] then 0
    else if es[0].product.id == id then 0
    else
      var rest := Position(es[1..], id);
      assert forall i :: 1 <= i < rest + 1 ==> es[i] == es[1..][i - 1];
      rest + 1
  }

  predicate Has(es: Entries, id: nat) { Position(es, id) < |es| }

  function Without(es: Entries, p: nat): Entries
    requires p < |es|
  {
    es[..p] + es[p + 1..]
  }

  function Get(es: Entries, id: nat, now: Time): (Entries, Option<Product>) {
    var p := Position(es, id);
    if p == |es| then (es, None)
    else if now >= es[p].expiresAt then (Without(es, p), None)
    else ([es[p].(lastAccessedAt := now)] + Without(es, p), Some(es[p].product))
  }

  function Put(es: Entries, maximum: int, ttl: int, v: Product, now: Time): (Entries, Option<Product>) {
    var p, entry := Position(es, v.id), Entry(v, now + ttl, now);
    if p < |es| then ([entry] + Without(es, p), None)
    else if |es| + 1 <= maximum then ([entry] + es, None)
    else (([entry] + es)[..|es|], Some(([entry] + es)[|es|].product))
  }

  function Delete(es: Entries, id: nat): (Entries, bool) {
    var p := Position(es, id);
    if p == |es| then (es, false) else (Without(es, p), true)
  }

  /** The unexpired entries, in order. */
  function Unexpired(es: Entries, now: Time): Entries {
    if es == [] then []
    else (if now < es[0].expiresAt then [es[0]] else []) + Unexpired(es[1..], now)
  }

  // ----- Runs ---------------------------------------------------------------------

  datatype Access =
    | GetOne(id: nat, now: Time) | PutOne(v: Product, now: Time) | DeleteOne(id: nat) | ClearAll | Snapshot(now: Time)

  datatype Limits = Limits(maximum: int, ttl: int)

  function Step(c: Limits, es: Entries, a: Access): Entries {
    match a
    case GetOne(id, now) => Get(es, id, now).0
    case PutOne(v, now) => Put(es, c.maximum, c.ttl, v, now).0
    case DeleteOne(id) => Delete(es, id).0
    case ClearAll => []
    case Snapshot(now) => Unexpired(es, now)
  }

  function After(c: Limits, run: seq<Access>): Entries {
    if run == [] then [] else Step(c, After(c, run[..|run| - 1]), run[|run| - 1])
  }

  lemma PositionIsUnique(es: Entries, i: nat)
    requires DistinctKeys(es) && i < |es|
    ensures Position(es, es[i].product.id) == i
  {}

  /** Every entry kept is an old entry at its place in the old order. */
  lemma {:induction false} UnexpiredKeeps(es: Entries, now: Time)
    requires DistinctKeys(es)
    ensures DistinctKeys(Unexpired(es, now)) && |Unexpired(es, now)| <= |es|
    ensures forall e :: e in Unexpired(es, now) <==> e in es && now < e.expiresAt
  {
    if es != [] {
      UnexpiredKeeps(es[1..], now);
      assert es == [es[0]] + es[1..];
      forall e | e in Unexpired(es[1..], now) ensures e.product.id != es[0].product.id {
        assert e in es[1..];
      }
    }
  }

  /** Keys stay distinct and the store never holds more than its maximum. */
  lemma StepKeepsBounds(c: Limits, es: Entries, a: Access)
    requires c.maximum >= 0 && DistinctKeys(es) && |es| <= c.maximum
    ensures DistinctKeys(Step(c, es, a)) && |Step(c, es, a)| <= c.maximum
  {
    match a
    case GetOne(id, now) =>
      var p := Position(es, id);
      if p < |es| {
        WithoutBounds(es, p, es[p].(lastAccessedAt := now));
      }
    case PutOne(v, now) =>
      var p, entry := Position(es, v.id), Entry(v, now + c.ttl, now);
      if p < |es| {
        WithoutBounds(es, p, entry);
      } else {
        assert DistinctKeys([entry] + es);
      }
    case DeleteOne(id) =>
      var p := Position(es, id);
      if p < |es| {
        WithoutBounds(es, p, es[p]);
      }
    case ClearAll =>
    case Snapshot(now) => UnexpiredKeeps(es, now);
  }

  lemma WithoutBounds(es: Entries, p: nat, e: Entry)
    requires DistinctKeys(es) && p < |es| && e.product.id == es[p].product.id
    ensures DistinctKeys(Without(es, p)) && DistinctKeys([e] + Without(es, p))
  {
    var rest := Without(es, p);
    assert forall i :: 0 <= i < |rest| ==> rest[i] == es[if i < p then i else i + 1];
  }

  lemma {:induction false} NeverOverfull(c: Limits, run: seq<Access>)
    requires c.maximum >= 0
    ensures DistinctKeys(After(c, run)) && |After(c, run)| <= c.maximum
  {
    if run != [] {
      NeverOverfull(c, run[..|run| - 1]);
      StepKeepsBounds(c, After(c, run[..|run| - 1]), run[|run| - 1]);
    }
  }

  /** A full store that takes a new key loses exactly its least recently used entry, and nothing is lost otherwise. */
  lemma PutEvictsOldest(c: Limits, es: Entries, v: Product, now: Time)
    requires c.maximum >= 0 && DistinctKeys(es) && |es| <= c.maximum
    ensures var (after, evicted) := Put(es, c.maximum, c.ttl, v, now);
      && (evicted.Some? <==> !Has(es, v.id) && |es| == c.maximum)
      && (evicted.Some? && c.maximum > 0 ==> evicted.value == es[|es| - 1].product && evicted.value.id != v.id)
      && (evicted == Some(v) <==> c.maximum == 0)
      && (forall i :: 0 <= i < |es| && es[i].product.id != v.id && (evicted.None? || i < |es| - 1) ==> es[i] in after)
      && (c.maximum > 0 ==> after != [] && after[0] == Entry(v, now + c.ttl, now))
  {
    var p, entry := Position(es, v.id), Entry(v, now + c.ttl, now);
    var after := Put(es, c.maximum, c.ttl, v, now).0;
    forall i | 0 <= i < |es| && es[i].product.id != v.id && (Has(es, v.id) || |es| + 1 <= c.maximum || i < |es| - 1)
      ensures es[i] in after
    {
      if p < |es| {
        assert after[if i < p then i + 1 else i] == es[i];
      } else {
        assert after[i + 1] == es[i];
      }
    }
  }

  // ----- What a hit means ------------------------------------------------------------

  /** The last write of a key that was not deleted or cleared afterwards. */
  function LastPut(run: seq<Access>, id: nat): Option<(Product, Time)> {
    if run == [] then None
    else
      var front := run[..|run| - 1];
      match run[|run| - 1]
      case PutOne(v, now) => if v.id == id then Some((v, now)) else LastPut(front, id)
      case DeleteOne(d) => if d == id then None else LastPut(front, id)
      case ClearAll => None
      case _ => LastPut(front, id)
  }

  predicate WrittenAs(c: Limits, e: Entry, put: Option<(Product, Time)>) {
    put.Some? && put.value.0 == e.product && e.expiresAt == put.value.1 + c.ttl
  }

  /** Every entry holds its key's last write, with the expiry set by that write. */
  lemma {:induction false} EntriesAreLastPuts(c: Limits, run: seq<Access>)
    requires c.maximum >= 0
    ensures forall e :: e in After(c, run) ==> WrittenAs(c, e, LastPut(run, e.product.id))
  {
    if run != [] {
      var front, a := run[..|run| - 1], run[|run| - 1];
      var es := After(c, front);
      EntriesAreLastPuts(c, front);
      NeverOverfull(c, front);
      if a.Snapshot? {
        UnexpiredKeeps(es, a.now);
      }
      forall e | e in Step(c, es, a) ensures WrittenAs(c, e, LastPut(run, e.product.id)) {
        StepOrigin(c, es, a, e);
      }
    }
  }

  /** An entry after a step is new from a Put, or an old entry of an untouched key, at most accessed anew. */
  lemma StepOrigin(c: Limits, es: Entries, a: Access, e: Entry)
    requires DistinctKeys(es) && e in Step(c, es, a)
    ensures (a.PutOne? && e == Entry(a.v, a.now + c.ttl, a.now))
         || (exists was :: was in es && was.product == e.product && was.expiresAt == e.expiresAt
              && !(a.PutOne? && a.v.id == e.product.id) && !(a.DeleteOne? && a.id == e.product.id) && !a.ClearAll?)
  {
    match a
    case Snapshot(now) =>
      UnexpiredKeeps(es, now);
      assert e in es;
    case GetOne(id, now) =>
      var p := Position(es, id);
      assert e in es || (p < |es| && e == es[p].(lastAccessedAt := now) && es[p] in es);
    case PutOne(v, now) =>
      assert e == Entry(v, now + c.ttl, now) || e in es;
    case DeleteOne(id) =>
      assert e in es;
    case ClearAll =>
  }

  /** A hit returns the last value written for the key, strictly before the expiry set by that
      write: no other access extends it. */
  lemma HitIsLastPut(c: Limits, run: seq<Access>, id: nat, now: Time)
    requires c.maximum >= 0 && Get(After(c, run), id, now).1.Some?
    ensures LastPut(run, id).Some? && LastPut(run, id).value.0 == Get(After(c, run), id, now).1.value
    ensures Get(After(c, run), id, now).1.value.id == id && now < LastPut(run, id).value.1 + c.ttl
  {
    var es := After(c, run);
    EntriesAreLastPuts(c, run);
    assert es[Position(es, id)] in es;
  }

  // ----- When a hit is guaranteed --------------------------------------------------------

  /** Other keys read or written since the last read or write of this one. */
  function Recent(run: seq<Access>, id: nat): set<nat> {
    if run == [] then {}
    else
      var front := run[..|run| - 1];
      match run[|run| - 1]
      case GetOne(k, _) => if k == id then {} else Recent(front, id) + {k}
      case PutOne(v, _) => if v.id == id then {} else Recent(front, id) + {v.id}
      case _ => Recent(front, id)
  }

  /** The key was written, and since then never deleted or cleared, never seen expired, and never
      pushed out: whenever another key was written, fewer than `maximum` other keys were in recent use. */
  predicate Retained(c: Limits, run: seq<Access>, id: nat) {
    run != [] &&
    var front := run[..|run| - 1];
    match run[|run| - 1]
    case PutOne(v, _) => v.id == id || (Retained(c, front, id) && |Recent(run, id)| < c.maximum)
    case GetOne(k, now) => Retained(c, front, id) && (k == id ==> InTime(c, front, id, now))
    case DeleteOne(d) => Retained(c, front, id) && d != id
    case ClearAll => false
    case Snapshot(now) => Retained(c, front, id) && InTime(c, front, id, now)
  }

  predicate InTime(c: Limits, run: seq<Access>, id: nat, now: Time) {
    LastPut(run, id).Some? && now < LastPut(run, id).value.1 + c.ttl
  }

  /** The key is present, with only `recent` keys in front of it. */
  predicate InFront(es: Entries, id: nat, recent: set<nat>) {
    Has(es, id) && forall i :: 0 <= i < Position(es, id) ==> es[i].product.id in recent
  }

  lemma InFrontAt(es: Entries, id: nat, recent: set<nat>, p: nat)
    requires DistinctKeys(es) && p < |es| && es[p].product.id == id
    requires forall i :: 0 <= i < p ==> es[i].product.id in recent
    ensures InFront(es, id, recent)
  {
    PositionIsUnique(es, p);
  }

  /** Distinct keys all drawn from a set are no more than the set. */
  lemma {:induction false} KeysFit(es: Entries, recent: set<nat>)
    requires DistinctKeys(es) && forall i :: 0 <= i < |es| ==> es[i].product.id in recent
    ensures |es| <= |recent|
  {
    if es != [] {
      KeysFit(es[1..], recent - {es[0].product.id});
    }
  }

  lemma GetKeepsInFront(es: Entries, k: nat, now: Time, id: nat, recent: set<nat>)
    requires DistinctKeys(es) && k != id && InFront(es, id, recent)
    ensures InFront(Get(es, k, now).0, id, recent + {k})
  {
    var p, q, after := Position(es, id), Position(es, k), Get(es, k, now).0;
    if q < |es| {
      var hit := now < es[q].expiresAt;
      InFrontAt(after, id, recent + {k}, p + (if hit then 1 else 0) - if q < p then 1 else 0);
    }
  }

  lemma PutKeepsInFront(c: Limits, es: Entries, v: Product, now: Time, id: nat, recent: set<nat>)
    requires DistinctKeys(es) && |es| <= c.maximum && v.id != id && InFront(es, id, recent) && |recent + {v.id}| < c.maximum
    ensures InFront(Put(es, c.maximum, c.ttl, v, now).0, id, recent + {v.id})
  {
    var p, q := Position(es, id), Position(es, v.id);
    if q == |es| {
      KeysFit(([Entry(v, now, now)] + es)[..p + 1], recent + {v.id});
    }
    InFrontAt(Put(es, c.maximum, c.ttl, v, now).0, id, recent + {v.id}, p + 1 - if q < p then 1 else 0);
  }

  lemma DeleteKeepsInFront(es: Entries, d: nat, id: nat, recent: set<nat>)
    requires DistinctKeys(es) && d != id && InFront(es, id, recent)
    ensures InFront(Delete(es, d).0, id, recent)
  {
    var p, q := Position(es, id), Position(es, d);
    if q < |es| {
      InFrontAt(Delete(es, d).0, id, recent, p - if q < p then 1 else 0);
    }
  }

  lemma {:induction false} UnexpiredSplits(left: Entries, right: Entries, now: Time)
    ensures Unexpired(left + right, now) == Unexpired(left, now) + Unexpired(right, now)
  {
    if left == [] {
      assert left + right == right;
    } else {
      UnexpiredSplits(left[1..], right, now);
      assert (left + right)[1..] == left[1..] + right;
    }
  }

  lemma SnapshotKeepsInFront(es: Entries, now: Time, id: nat, recent: set<nat>)
    requires DistinctKeys(es) && InFront(es, id, recent) && now < es[Position(es, id)].expiresAt
    ensures InFront(Unexpired(es, now), id, recent)
  {
    var p := Position(es, id);
    var left, right := es[..p], es[p..];
    assert es == left + right && right[0] == es[p];
    UnexpiredSplits(left, right, now);
    UnexpiredKeeps(es, now);
    UnexpiredKeeps(left, now);
    var kept := Unexpired(left, now);
    forall i | 0 <= i < |kept| ensures kept[i].product.id in recent {
      assert kept[i] in left;
    }
    InFrontAt(Unexpired(es, now), id, recent, |kept|);
  }

  lemma {:induction false} RetainedIsPresent(c: Limits, run: seq<Access>, id: nat)
    requires c.maximum > 0 && Retained(c, run, id)
    ensures InFront(After(c, run), id, Recent(run, id))
    ensures WrittenAs(c, After(c, run)[Position(After(c, run), id)], LastPut(run, id))
  {
    var front, a := run[..|run| - 1], run[|run| - 1];
    var es := After(c, front);
    NeverOverfull(c, front);
    if a.PutOne? && a.v.id == id {
      assert After(c, run)[0].product.id == id;
    } else {
      RetainedIsPresent(c, front, id);
      match a
      case GetOne(k, now) =>
        if k != id {
          GetKeepsInFront(es, k, now, id, Recent(front, id));
        }
      case PutOne(v, now) => PutKeepsInFront(c, es, v, now, id, Recent(front, id));
      case DeleteOne(d) => DeleteKeepsInFront(es, d, id, Recent(front, id));
      case Snapshot(now) => SnapshotKeepsInFront(es, now, id, Recent(front, id));
    }
    EntriesAreLastPuts(c, run);
    assert After(c, run)[Position(After(c, run), id)] in After(c, run);
  }

  /** A key that stayed in recent use is found until its write expires. */
  lemma RetainedHits(c: Limits, run: seq<Access>, id: nat, now: Time)
    requires c.maximum > 0 && Retained(c, run, id) && InTime(c, run, id, now)
    ensures Get(After(c, run), id, now).1 == Some(LastPut(run, id).value.0)
  {
    RetainedIsPresent(c, run, id);
  }

  // ----- Recency follows the clock -----------------------------------------------------------

  predicate Timed(a: Access) { a.GetOne? || a.PutOne? || a.Snapshot? }

  predicate Monotone(run: seq<Access>) {
    forall i, j :: 0 <= i < j < |run| && Timed(run[i]) && Timed(run[j]) ==> run[i].now <= run[j].now
  }

  predicate UpTo(run: seq<Access>, bound: Time) {
    forall i :: 0 <= i < |run| && Timed(run[i]) ==> run[i].now <= bound
  }

  predicate NewestFirst(es: Entries, bound: Time) {
    && (forall i :: 0 <= i < |es| ==> es[i].lastAccessedAt <= bound)
    && (forall i, j :: 0 <= i < j < |es| ==> es[i].lastAccessedAt >= es[j].lastAccessedAt)
  }

  lemma {:induction false} UnexpiredNewestFirst(es: Entries, now: Time, bound: Time)
    requires DistinctKeys(es) && NewestFirst(es, bound)
    ensures NewestFirst(Unexpired(es, now), bound)
  {
    if es != [] {
      UnexpiredNewestFirst(es[1..], now, es[0].lastAccessedAt);
    }
  }

  lemma WithoutNewestFirst(es: Entries, p: nat, bound: Time)
    requires p < |es| && NewestFirst(es, bound)
    ensures NewestFirst(Without(es, p), bound)
  {
    var rest := Without(es, p);
    assert forall i :: 0 <= i < |rest| ==> rest[i] == es[if i < p then i else i + 1];
  }

  lemma PrependNewestFirst(e: Entry, es: Entries, bound: Time)
    requires NewestFirst(es, bound) && e.lastAccessedAt == bound
    ensures NewestFirst([e] + es, bound)
    ensures NewestFirst(([e] + es)[..|es|], bound)
  {}

  lemma StepNewestFirst(c: Limits, es: Entries, a: Access, bound: Time)
    requires DistinctKeys(es) && NewestFirst(es, bound) && (Timed(a) ==> a.now == bound)
    ensures NewestFirst(Step(c, es, a), bound)
  {
    match a
    case GetOne(id, now) =>
      var p := Position(es, id);
      if p < |es| {
        WithoutNewestFirst(es, p, bound);
        PrependNewestFirst(es[p].(lastAccessedAt := now), Without(es, p), bound);
      }
    case PutOne(v, now) =>
      var p, entry := Position(es, v.id), Entry(v, now + c.ttl, now);
      PrependNewestFirst(entry, es, bound);
      if p < |es| {
        WithoutNewestFirst(es, p, bound);
        PrependNewestFirst(entry, Without(es, p), bound);
      }
    case DeleteOne(id) =>
      if Has(es, id) {
        WithoutNewestFirst(es, Position(es, id), bound);
      }
    case ClearAll =>
    case Snapshot(now) => UnexpiredNewestFirst(es, now, bound);
  }

  /** With a clock that never goes back, entries are sorted by their last access. */
  lemma {:induction false} RecencyIsSorted(c: Limits, run: seq<Access>, bound: Time)
    requires c.maximum >= 0 && Monotone(run) && UpTo(run, bound)
    ensures NewestFirst(After(c, run), bound)
  {
    if run != [] {
      var front, a := run[..|run| - 1], run[|run| - 1];
      var at := if Timed(a) then a.now else bound;
      RecencyIsSorted(c, front, at);
      NeverOverfull(c, front);
      StepNewestFirst(c, After(c, front), a, at);
    }
  }
}
