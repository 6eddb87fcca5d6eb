/**
 The order the balancer works in: instances sorted by id, byte-wise.
 */
module ById {
  import opened Domain

  /** One instance of an adaptive lab as the balancer lists it. */
  datatype Server = Server(id: Name, container: string, running: bool, speed: int, maxLoad: int, weight: int)

  /** The byte-wise order on ids. */
  predicate Before(a: string, b: string) {
    b != [] && (a == [] || a[0] < b[0] || (a[0] == b[0] && Before(a[1..], b[1..])))
  }

  lemma {:induction false} BeforeIsStrict(a: string, b: string)
    ensures Before(a, b) ==> !Before(b, a) && a != b
  {
    if Before(a, b) && a != [] && a[0] == b[0] {
      BeforeIsStrict(a[1..], b[1..]);
    }
  }

  lemma {:induction false} BeforeIsTransitive(a: string, b: string, c: string)
    requires Before(a, b) && Before(b, c)
    ensures Before(a, c)
  {
    if a != [] && a[0] == b[0] == c[0] {
      BeforeIsTransitive(a[1..], b[1..], c[1..]);
    }
  }

  lemma {:induction false} BeforeIsTotal(a: string, b: string)
    ensures Before(a, b) || a == b || Before(b, a)
  {
    if a != [] && b != [] && a[0] == b[0] {
      BeforeIsTotal(a[1..], b[1..]);
      assert a == [a[0]] + a[1..] && b == [b[0]] + b[1..];
    }
  }

  function Insert(x: Server, sorted: seq<Server>): seq<Server> {
    if sorted == [] || Before(x.id, sorted[0].id) then [x] + sorted
    else [sorted[0]] + Insert(x, sorted[1..])
  }

  function Sort(xs: seq<Server>): (r: seq<Server>)
    ensures multiset(r) == multiset(xs) && |r| == |xs|
  {
    if xs == [] then []
    else
      InsertAdds(xs[0], Sort(xs[1..]));
      assert xs == [xs[0]] + xs[1..];
      Insert(xs[0], Sort(xs[1..]))
  }

  lemma {:induction false} InsertAdds(x: Server, sorted: seq<Server>)
    ensures multiset(Insert(x, sorted)) == multiset(sorted) + multiset{x}
    ensures |Insert(x, sorted)| == |sorted| + 1
  {
    if sorted != [] && !Before(x.id, sorted[0].id) {
      InsertAdds(x, sorted[1..]);
      assert sorted == [sorted[0]] + sorted[1..];
    }
  }

  predicate DistinctIds(xs: seq<Server>) {
    forall i, j :: 0 <= i < j < |xs| ==> xs[i].id != xs[j].id
  }

  predicate InOrder(xs: seq<Server>) {
    forall i, j :: 0 <= i < j < |xs| ==> Before(xs[i].id, xs[j].id)
  }

  lemma {:induction false} InsertInOrder(x: Server, sorted: seq<Server>)
    requires InOrder(sorted) && (forall i :: 0 <= i < |sorted| ==> sorted[i].id != x.id)
    ensures InOrder(Insert(x, sorted))
  {
    if sorted == [] {
    } else if Before(x.id, sorted[0].id) {
      forall j | 0 <= j < |sorted| ensures Before(x.id, sorted[j].id) {
        if j > 0 {
          BeforeIsTransitive(x.id, sorted[0].id, sorted[j].id);
        }
      }
    } else {
      var rest := Insert(x, sorted[1..]);
      InsertInOrder(x, sorted[1..]);
      InsertAdds(x, sorted[1..]);
      BeforeIsTotal(x.id, sorted[0].id);
      forall j | 0 <= j < |rest| ensures Before(sorted[0].id, rest[j].id) {
        assert rest[j] in multiset(rest);
        assert rest[j] == x || rest[j] in sorted[1..];
      }
    }
  }

  lemma {:induction false} SortInOrder(xs: seq<Server>)
    requires DistinctIds(xs)
    ensures InOrder(Sort(xs))
  {
    if xs != [] {
      var rest := Sort(xs[1..]);
      SortInOrder(xs[1..]);
      forall i | 0 <= i < |rest| ensures rest[i].id != xs[0].id {
        assert rest[i] in multiset(rest);
        assert rest[i] in xs[1..];
      }
      InsertInOrder(xs[0], rest);
    }
  }

  /** An ordered sequence is determined by its elements. */
  lemma {:induction false} OrderedIsUnique(a: seq<Server>, b: seq<Server>)
    requires InOrder(a) && InOrder(b) && multiset(a) == multiset(b)
    ensures a == b
  {
    assert |multiset(a)| == |a| && |multiset(b)| == |b|;
    if a != [] {
      SameFirst(a, b);
      SameRest(a, b);
      OrderedIsUnique(a[1..], b[1..]);
      assert a == [a[0]] + a[1..] && b == [b[0]] + b[1..];
    }
  }

  lemma SameFirst(a: seq<Server>, b: seq<Server>)
    requires InOrder(a) && InOrder(b) && multiset(a) == multiset(b) && a != [] && b != []
    ensures a[0] == b[0]
  {
    assert a[0] in multiset(b) && b[0] in multiset(a);
    var i :| 0 <= i < |b| && b[i] == a[0];
    var j :| 0 <= j < |a| && a[j] == b[0];
    BeforeIsStrict(b[0].id, a[0].id);
  }

  lemma SameRest(a: seq<Server>, b: seq<Server>)
    requires multiset(a) == multiset(b) && a != [] && b != [] && a[0] == b[0]
    ensures multiset(a[1..]) == multiset(b[1..])
  {
    assert a == [a[0]] + a[1..] && b == [b[0]] + b[1..];
    assert multiset(a) == multiset{a[0]} + multiset(a[1..]);
    assert multiset(b) == multiset{a[0]} + multiset(b[1..]);
    assert multiset(a[1..]) == multiset(a) - multiset{a[0]};
  }

  lemma DistinctIsPermutable(a: seq<Server>, b: seq<Server>)
    requires DistinctIds(a) && multiset(a) == multiset(b)
    ensures DistinctIds(b)
  {
    assert |multiset(a)| == |a| && |multiset(b)| == |b|;
    SortInOrder(a);
    forall i, j | 0 <= i < j < |b| ensures b[i].id != b[j].id {
      TwoPositions(b, i, j);
      if b[i].id == b[j].id {
        assert b[i] in multiset(a) && b[j] in multiset(a);
        var k :| 0 <= k < |a| && a[k] == b[i];
        var l :| 0 <= l < |a| && a[l] == b[j];
        assert k == l;
        OnceWhenDistinct(a, k);
      }
    }
  }

  lemma TwoPositions(b: seq<Server>, i: nat, j: nat)
    requires i < j < |b|
    ensures b[i] == b[j] ==> multiset(b)[b[i]] >= 2
  {
    assert b == b[..j] + b[j..];
    assert multiset(b) == multiset(b[..j]) + multiset(b[j..]);
    assert b[i] == b[..j][i] && b[..j][i] in multiset(b[..j]);
    assert b[j] == b[j..][0] && b[j..][0] in multiset(b[j..]);
  }

  lemma OnceWhenDistinct(a: seq<Server>, k: nat)
    requires DistinctIds(a) && k < |a|
    ensures multiset(a)[a[k]] == 1
  {
    assert a == a[..k] + [a[k]] + a[k + 1..];
    assert multiset(a) == multiset(a[..k]) + multiset{a[k]} + multiset(a[k + 1..]);
    assert a[k] !in a[..k] && a[k] !in a[k + 1..];
  }

  /** Listing the same instances in another order changes nothing. */
  lemma SortIgnoresOrder(a: seq<Server>, b: seq<Server>)
    requires DistinctIds(a) && multiset(a) == multiset(b)
    ensures Sort(a) == Sort(b)
  {
    DistinctIsPermutable(a, b);
    SortInOrder(a);
    SortInOrder(b);
    OrderedIsUnique(Sort(a), Sort(b));
  }
}
