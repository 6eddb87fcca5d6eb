/**
 The first cache level in place: a map from product ids to list elements, and
 the recency list of those elements, most recently used first.
 */
module L1Store {
  import opened Domain
  import opened Lru

  class Element {
    var value: Entry

    constructor (value: Entry)
      ensures this.value == value
    {
      this.value := value;
    }
  }

  type Index = map<nat, Element>

  function Elements(list: seq<Element>): set<Element> {
    set e | e in list
  }

  function WithoutElement(list: seq<Element>, p: nat): seq<Element>
    requires p < |list|
  {
    list[..p] + list[p + 1..]
  }

  function Removed(entries: Index, id: nat): Index {
    map k | k in entries && k != id :: entries[k]
  }

  /** Map and list hold the same elements, each under the id of its own product, and no other. */
  ghost predicate Linked(entries: Index, list: seq<Element>, es: Entries) {
    if es == [] then list == [] && entries == map[]
    else
      var id := es[0].product.id;
      list != [] && id in entries && entries[id] == list[0] && Linked(Removed(entries, id), list[1..], es[1..])
  }

  lemma {:induction false} LinkedHas(entries: Index, list: seq<Element>, es: Entries, id: nat)
    requires Linked(entries, list, es)
    ensures |list| == |es| == |entries|
    ensures id in entries <==> Has(es, id)
    ensures id in entries ==> list[Position(es, id)] == entries[id]
  {
    if es != [] {
      var key := es[0].product.id;
      LinkedHas(Removed(entries, key), list[1..], es[1..], id);
      assert entries.Keys == Removed(entries, key).Keys + {key};
      assert |entries.Keys| == |Removed(entries, key).Keys| + 1;
    }
  }

  lemma {:induction false} LinkedDistinct(entries: Index, list: seq<Element>, es: Entries)
    requires Linked(entries, list, es)
    ensures |list| == |es| && DistinctKeys(es)
  {
    if es != [] {
      var key := es[0].product.id;
      LinkedDistinct(Removed(entries, key), list[1..], es[1..]);
      LinkedHas(Removed(entries, key), list[1..], es[1..], key);
      assert forall i :: 0 <= i < |es| - 1 ==> es[1..][i] == es[i + 1];
    }
  }

  lemma {:induction false} RemoveLinked(entries: Index, list: seq<Element>, es: Entries, p: nat)
    requires Linked(entries, list, es) && p < |es|
    ensures |list| == |es| && es[p].product.id in entries
    ensures Linked(Removed(entries, es[p].product.id), WithoutElement(list, p), Without(es, p))
  {
    LinkedHas(entries, list, es, es[p].product.id);
    if p == 0 {
      assert WithoutElement(list, 0) == list[1..] && Without(es, 0) == es[1..];
    } else {
      var key, id := es[0].product.id, es[p].product.id;
      RemoveLinked(Removed(entries, key), list[1..], es[1..], p - 1);
      assert WithoutElement(list[1..], p - 1) == WithoutElement(list, p)[1..];
      assert Without(es[1..], p - 1) == Without(es, p)[1..];
      assert Removed(Removed(entries, key), id) == Removed(Removed(entries, id), key);
    }
  }

  lemma PrependLinked(entries: Index, list: seq<Element>, es: Entries, element: Element, e: Entry)
    requires Linked(entries, list, es) && e.product.id !in entries
    ensures Linked(entries[e.product.id := element], [element] + list, [e] + es)
  {
    assert Removed(entries[e.product.id := element], e.product.id) == entries;
    assert ([element] + list)[1..] == list && ([e] + es)[1..] == es;
  }

  /** Moving an element to the front, possibly overwriting it under the same key. */
  lemma MoveLinked(entries: Index, list: seq<Element>, es: Entries, p: nat, e: Entry)
    requires Linked(entries, list, es) && p < |es| && e.product.id == es[p].product.id
    ensures |list| == |es|
    ensures Linked(entries, [list[p]] + WithoutElement(list, p), [e] + Without(es, p))
  {
    LinkedDistinct(entries, list, es);
    LinkedHas(entries, list, es, e.product.id);
    PositionIsUnique(es, p);
    RemoveLinked(entries, list, es, p);
    var rest := Removed(entries, es[p].product.id);
    PrependLinked(rest, WithoutElement(list, p), Without(es, p), list[p], e);
    assert rest[e.product.id := list[p]] == entries;
  }

  /** The first `i` entries of `es` have been kept, and sweeping the rest completes the result. */
  ghost predicate Swept(es: Entries, i: nat, now: Time, values: Entries, result: Entries) {
    i <= |es| && values == es[..i] && result == values + Unexpired(es[i..], now)
  }

  lemma SweptOn(es: Entries, i: nat, now: Time, values: Entries, result: Entries)
    requires Swept(es, i, now, values, result) && i < |es|
    ensures if now < es[i].expiresAt then Swept(es, i + 1, now, values + [es[i]], result)
            else Swept(Without(es, i), i, now, values, result)
  {
    assert es[i..][1..] == es[i + 1..] == Without(es, i)[i..];
    assert Without(es, i)[..i] == es[..i];
  }

  class Store {
    const maximum: int
    const ttl: int
    var entries: Index
    var recency: seq<Element>
    ghost var contents: Entries

    /** `contents` lists the values in order of recency. */
    ghost predicate Valid()
      reads this, recency
    {
      && Linked(entries, recency, contents) && |recency| == |contents|
      && forall i :: 0 <= i < |recency| ==> recency[i].value == contents[i]
    }

    constructor (maximum: int, ttl: int)
      ensures Valid() && contents == [] && this.maximum == maximum && this.ttl == ttl
    {
      this.maximum, this.ttl := maximum, ttl;
      entries, recency, contents := map[], [], [];
    }

    /** Where an element stands in the list. */
    method Find(element: Element, ghost p: nat) returns (at: nat)
      requires Valid() && p < |recency| && recency[p] == element
      ensures at == p
    {
      at := 0;
      while recency[at] != element
        invariant at <= p
        decreases |recency| - at
      {
        at := at + 1;
      }
      LinkedDistinct(entries, recency, contents);
      assert contents[at] == contents[p];
    }

    method Remove(element: Element, ghost p: nat)
      requires Valid() && p < |recency| && recency[p] == element
      modifies this
      ensures Valid() && recency == WithoutElement(old(recency), p) && contents == Without(old(contents), p)
    {
      var at := Find(element, p);
      RemoveLinked(entries, recency, contents, p);
      entries := map id | id in entries && id != element.value.product.id :: entries[id];
      recency := recency[..at] + recency[at + 1..];
      contents := Without(contents, p);
    }

    /** Overwrites an element, keeping its key, and makes it the most recent. */
    method Rewrite(element: Element, value: Entry, ghost p: nat)
      requires Valid() && p < |recency| && recency[p] == element && value.product.id == element.value.product.id
      modifies this`recency, this`contents, element
      ensures Valid() && recency == [element] + WithoutElement(old(recency), p)
      ensures contents == [value] + Without(old(contents), p)
    {
      var at := Find(element, p);
      MoveLinked(entries, recency, contents, p, value);
      LinkedDistinct(entries, recency, contents);
      assert forall i :: 0 <= i < |recency| && i != p ==> contents[i] != contents[p];
      element.value := value;
      recency := [element] + (recency[..at] + recency[at + 1..]);
      contents := [value] + Without(contents, p);
    }

    method Get(id: nat, now: Time) returns (r: Option<Product>)
      requires Valid()
      modifies this, recency
      ensures Valid() && Elements(recency) <= Elements(old(recency))
      ensures (contents, r) == Lru.Get(old(contents), id, now)
    {
      LinkedHas(entries, recency, contents, id);
      if id !in entries {
        return None;
      }
      var element := entries[id];
      ghost var p := Position(contents, id);
      if now >= element.value.expiresAt {
        Remove(element, p);
        return None;
      }
      r := Some(element.value.product);
      Rewrite(element, element.value.(lastAccessedAt := now), p);
    }

    method Put(v: Product, now: Time) returns (expiresAt: Time, evicted: Option<Product>)
      requires Valid()
      modifies this, recency
      ensures Valid() && fresh(Elements(recency) - Elements(old(recency)))
      ensures expiresAt == now + ttl
      ensures (contents, evicted) == Lru.Put(old(contents), maximum, ttl, v, now)
    {
      LinkedHas(entries, recency, contents, v.id);
      expiresAt := now + ttl;
      if v.id in entries {
        Rewrite(entries[v.id], Entry(v, expiresAt, now), Position(contents, v.id));
        return expiresAt, None;
      }
      evicted := PutNew(Entry(v, expiresAt, now));
    }

    method PutNew(value: Entry) returns (evicted: Option<Product>)
      requires Valid() && value.product.id !in entries
      modifies this
      ensures Valid() && fresh(Elements(recency) - Elements(old(recency)))
      ensures var before := [value] + old(contents); var last := |before| - 1;
        && contents == (if |before| <= maximum then before else before[..last])
        && evicted == if |before| <= maximum then None else Some(before[last].product)
    {
      PushFront(value);
      assert Elements(recency) == Elements(old(recency)) + {recency[0]};
      evicted := TrimOldest();
    }

    method PushFront(value: Entry)
      requires Valid() && value.product.id !in entries
      modifies this
      ensures Valid() && contents == [value] + old(contents)
      ensures |recency| == |old(recency)| + 1 && fresh(recency[0]) && recency == [recency[0]] + old(recency)
    {
      var element := new Element(value);
      PrependLinked(entries, recency, contents, element, value);
      entries := entries[value.product.id := element];
      recency := [element] + recency;
      contents := [value] + contents;
    }

    /** Evicts the last element if there are more than the maximum. */
    method TrimOldest() returns (evicted: Option<Product>)
      requires Valid() && recency != []
      modifies this
      ensures Valid() && Elements(recency) <= Elements(old(recency))
      ensures var before := old(contents); var last := |before| - 1;
        && |before| > 0
        && contents == (if |before| <= maximum then before else before[..last])
        && evicted == if |before| <= maximum then None else Some(before[last].product)
    {
      LinkedHas(entries, recency, contents, 0);
      if |entries| <= maximum {
        return None;
      }
      var oldest := recency[|recency| - 1];
      evicted := Some(oldest.value.product);
      Remove(oldest, |recency| - 1);
    }

    method Delete(id: nat) returns (found: bool)
      requires Valid()
      modifies this
      ensures Valid() && Elements(recency) <= Elements(old(recency))
      ensures (contents, found) == Lru.Delete(old(contents), id)
    {
      LinkedHas(entries, recency, contents, id);
      if id !in entries {
        return false;
      }
      Remove(entries[id], Position(contents, id));
      return true;
    }

    /** Empties the store and returns what it held, most recent first. */
    method Clear() returns (values: seq<Product>)
      requires Valid()
      modifies this
      ensures Valid() && contents == [] && recency == []
      ensures |values| == |old(contents)| && forall i :: 0 <= i < |values| ==> values[i] == old(contents)[i].product
    {
      values := [];
      for i := 0 to |recency|
        invariant |values| == i
        invariant forall k :: 0 <= k < i ==> values[k] == contents[k].product
      {
        values := values + [recency[i].value.product];
      }
      entries, recency, contents := map[], [], [];
    }

    /** Drops every expired entry and returns the rest. */
    method Snapshot(now: Time) returns (values: Entries)
      requires Valid()
      modifies this
      ensures Valid() && Elements(recency) <= Elements(old(recency))
      ensures values == contents == Unexpired(old(contents), now)
    {
      values := [];
      var i := 0;
      ghost var result := Unexpired(contents, now);
      while i < |recency|
        invariant Valid() && Elements(recency) <= Elements(old(recency))
        invariant Swept(contents, i, now, values, result)
        decreases |recency| - i
      {
        SweptOn(contents, i, now, values, result);
        var kept := Sweep(i, now);
        if kept {
          values := values + [recency[i].value];
          i := i + 1;
        }
      }
    }

    /** Drops one element if it has expired. */
    method Sweep(i: nat, now: Time) returns (kept: bool)
      requires Valid() && i < |recency|
      modifies this
      ensures Valid() && Elements(recency) <= Elements(old(recency))
      ensures kept == (now < old(contents)[i].expiresAt)
      ensures contents == if kept then old(contents) else Without(old(contents), i)
    {
      if now < recency[i].value.expiresAt {
        return true;
      }
      Remove(recency[i], i);
      return false;
    }
  }
}
