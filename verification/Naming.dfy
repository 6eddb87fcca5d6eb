/** Names of application instances: "app-1", "app-2", ... */
module Naming {
  import opened Domain

  function Digit(d: nat): (c: char)
    requires d < 10
  {
    ['0', '1', '2', '3', '4', '5', '6', '7', '8', '9'][d]
  }

  function Decimal(n: nat): (s: string)
    ensures |s| > 0
  {
    if n < 10 then [Digit(n)] else Decimal(n / 10) + [Digit(n % 10)]
  }

  function InstanceName(index: nat): (s: Name) {
    "app-" + Decimal(index)
  }

  lemma {:induction false} DecimalInjective(a: nat, b: nat)
    requires Decimal(a) == Decimal(b)
    ensures a == b
  {
    var da, db := Decimal(a), Decimal(b);
    assert da[|da| - 1] == Digit(a % 10) && db[|db| - 1] == Digit(b % 10);
    assert a % 10 == b % 10;
    if a >= 10 && b >= 10 {
      assert da[..|da| - 1] == Decimal(a / 10) && db[..|db| - 1] == Decimal(b / 10);
      DecimalInjective(a / 10, b / 10);
    }
  }

  lemma InstanceNameInjective(a: nat, b: nat)
    requires InstanceName(a) == InstanceName(b)
    ensures a == b
  {
    assert InstanceName(a)[4..] == Decimal(a) && InstanceName(b)[4..] == Decimal(b);
    DecimalInjective(a, b);
  }

  /** The names app-1 .. app-n. */
  function NamesUpTo(n: nat): (names: set<Name>) {
    set i: nat | 1 <= i <= n :: InstanceName(i)
  }

  lemma {:induction false} NamesUpToSize(n: nat)
    ensures |NamesUpTo(n)| == n
  {
    if n > 0 {
      NamesUpToSize(n - 1);
      forall i: nat | InstanceName(i) == InstanceName(n) ensures i == n {
        InstanceNameInjective(i, n);
      }
      assert NamesUpTo(n) == NamesUpTo(n - 1) + {InstanceName(n)};
    } else {
      assert NamesUpTo(0) == {};
    }
  }

  lemma SubsetSize<T>(small: set<T>, large: set<T>)
    requires small <= large
    ensures |small| <= |large|
  {
    assert |large| == |small| + |large - small| by {
      assert large == small + (large - small);
    }
  }

  /** Pigeonhole: fewer than `maximum` used names leave one of app-1 .. app-maximum free. */
  lemma FreeIndexExists(used: set<Name>, maximum: nat) returns (index: nat)
    requires |used| < maximum
    ensures 1 <= index <= maximum && InstanceName(index) !in used
  {
    if forall i: nat | 1 <= i <= maximum :: InstanceName(i) in used {
      NamesUpToSize(maximum);
      SubsetSize(NamesUpTo(maximum), used);
      assert false;
    }
    index :| 1 <= index <= maximum && InstanceName(index) !in used;
  }

  /** The first free name of app-index .. app-maximum, as a search in index order. */
  function NextName(used: set<Name>, index: nat, maximum: int): (r: Option<Name>)
    decreases maximum - index
  {
    if index > maximum then None
    else if InstanceName(index) !in used then Some(InstanceName(index))
    else NextName(used, index + 1, maximum)
  }

  lemma {:induction false} NextNameIsLeast(used: set<Name>, index: nat, maximum: int, free: nat)
    requires index <= free <= maximum && InstanceName(free) !in used
    ensures exists k: nat :: index <= k <= free && NextName(used, index, maximum) == Some(InstanceName(k))
              && InstanceName(k) !in used && forall j: nat | index <= j < k :: InstanceName(j) in used
    decreases maximum - index
  {
    if InstanceName(index) !in used {
      assert NextName(used, index, maximum) == Some(InstanceName(index));
    } else {
      NextNameIsLeast(used, index + 1, maximum, free);
      var k: nat :| index + 1 <= k <= free && NextName(used, index + 1, maximum) == Some(InstanceName(k))
        && InstanceName(k) !in used && forall j: nat | index + 1 <= j < k :: InstanceName(j) in used;
      assert index <= k <= free && NextName(used, index, maximum) == Some(InstanceName(k));
    }
  }

  /** Below the limit the search always finds a name, and it is the unused one of least index. */
  lemma NextNameFound(used: set<Name>, maximum: nat)
    requires |used| < maximum
    ensures exists k: nat :: 1 <= k <= maximum && NextName(used, 1, maximum) == Some(InstanceName(k))
              && InstanceName(k) !in used && forall j: nat | 1 <= j < k :: InstanceName(j) in used
  {
    var free := FreeIndexExists(used, maximum);
    NextNameIsLeast(used, 1, maximum, free);
  }

  /** The index scan of the platform; "" stands for "no name is free". */
  method NextInstanceName(used: set<Name>, maximum: int) returns (name: Name)
    ensures |used| < maximum ==>
              (exists k: nat :: 1 <= k <= maximum && name == InstanceName(k) && name !in used
                 && forall j: nat | 1 <= j < k :: InstanceName(j) in used)
    ensures NextName(used, 1, maximum) == (if name == "" then None else Some(name))
  {
    var index := 1;
    while index <= maximum
      invariant 1 <= index
      invariant NextName(used, 1, maximum) == NextName(used, index, maximum)
      invariant forall j: nat | 1 <= j < index :: InstanceName(j) in used
    {
      name := InstanceName(index);
      if name !in used {
        return;
      }
      index := index + 1;
    }
    if |used| < maximum {
      NextNameFound(used, maximum);
    }
    name := "";
  }
}
