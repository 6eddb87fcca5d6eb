/**
 The limit on temporary containers, which additions check against persisted rows only.
 What operations in flight may still add decides exactly whether the limit can be exceeded.
 */
module Capacity {
  import opened Domain
  import opened Transactions

  // ----- What a lab holds ----------------------------------------------------------

  predicate RedisHeld(row: RedisRow) { row == RedisReady || row == RedisUnknown }

  function RedisOf(s: State, lab: LabId): RedisRow {
    if lab in s.sessions then s.sessions[lab].redisRow else NoRedisRow
  }

  function LiveRows(rows: Instances): set<Name> {
    set n | n in rows && rows[n].status != InstanceTerminated
  }

  function Holding(rows: Instances, redis: RedisRow): nat {
    |LiveRows(rows)| + if RedisHeld(redis) then 1 else 0
  }

  /** The temporary containers persisted for one lab. */
  function LabHolds(s: State, lab: LabId): nat {
    Holding(Rows(s, lab), RedisOf(s, lab))
  }

  function Max(a: nat, b: nat): nat { if a >= b then a else b }

  /** Rows that a failed reset or destruction marks as unknown, which counts them all again. */
  function Revived(rows: Instances, redis: RedisRow): nat {
    |rows| + if redis == NoRedisRow then 0 else 1
  }

  /** The most containers a lab can hold once an operation on it is complete. */
  function Peak(rows: Instances, redis: RedisRow, sc: Scenario, action: Action): nat {
    var now := Holding(rows, redis);
    match action
    case CreateLab => Max(now, sc.Containers())
    case ResetLab => Max(Max(now, sc.Containers()), Revived(rows, redis))
    case DestroyLab => Max(now, Revived(rows, redis))
    case AddInstance => now + 1
    case AddRedis => |LiveRows(rows)| + 1
    case _ => now
  }

  lemma PeakAtLeastNow(rows: Instances, redis: RedisRow, sc: Scenario, action: Action)
    ensures Peak(rows, redis, sc, action) >= Holding(rows, redis)
  {
  }

  /** How much an operation in flight may still add. */
  function Growth(s: State, id: OpId): nat {
    if id in s.ops && s.ops[id].status.InFlight() && s.ops[id].lab in s.sessions then
      var lab := s.ops[id].lab;
      PeakAtLeastNow(Rows(s, lab), RedisOf(s, lab), s.sessions[lab].scenario, s.ops[id].action);
      Peak(Rows(s, lab), RedisOf(s, lab), s.sessions[lab].scenario, s.ops[id].action) - LabHolds(s, lab)
    else 0
  }

  /** One token for every container that operations in flight may still add. */
  function Coming(s: State): set<(OpId, nat)> {
    set id, j: nat | id in s.ops && j < Growth(s, id) :: (id, j)
  }

  /** Persisted containers, and those that operations in flight may still add. */
  function Budget(s: State): nat {
    ContainersInUse(s) + |Coming(s)|
  }

  // ----- Counting ------------------------------------------------------------------------

  function Pairs(lab: LabId, names: set<Name>): set<(LabId, Name)> {
    set n | n in names :: (lab, n)
  }

  lemma {:induction false} PairsSize(lab: LabId, names: set<Name>)
    ensures |Pairs(lab, names)| == |names|
  {
    if names == {} {
      assert Pairs(lab, names) == {};
    } else {
      var n :| n in names;
      PairsSize(lab, names - {n});
      assert Pairs(lab, names) == Pairs(lab, names - {n}) + {(lab, n)};
    }
  }

  function Tokens(id: OpId, n: nat): set<(OpId, nat)> {
    set j: nat | j < n :: (id, j)
  }

  lemma {:induction false} TokensSize(id: OpId, n: nat)
    ensures |Tokens(id, n)| == n
  {
    if n == 0 {
      assert Tokens(id, n) == {};
    } else {
      TokensSize(id, n - 1);
      assert Tokens(id, n) == Tokens(id, n - 1) + {(id, n - 1)};
    }
  }

  lemma SwapSize<T>(a: set<T>, b: set<T>, own: set<T>, next: set<T>)
    requires own <= a && next <= b && a - own == b - next
    ensures |b| + |own| == |a| + |next|
  {
    assert a == (a - own) + own && b == (b - next) + next;
    assert |a| == |a - own| + |own| && |b| == |b - next| + |next|;
  }

  /** Everything but one lab's rows and Redis is as before. */
  ghost predicate OnlyLab(s: State, t: State, lab: LabId) {
    && (forall l :: l != lab ==> Rows(t, l) == Rows(s, l))
    && (forall l :: l != lab ==> (l in t.sessions <==> l in s.sessions) && (l in s.sessions ==> t.sessions[l] == s.sessions[l]))
  }

  lemma InstancesMove(s: State, t: State, lab: LabId)
    requires forall l :: l != lab ==> Rows(t, l) == Rows(s, l)
    ensures |InstancesInUse(t)| + |LiveRows(Rows(s, lab))| == |InstancesInUse(s)| + |LiveRows(Rows(t, lab))|
  {
    var own, next := Pairs(lab, LiveRows(Rows(s, lab))), Pairs(lab, LiveRows(Rows(t, lab)));
    PairsSize(lab, LiveRows(Rows(s, lab)));
    PairsSize(lab, LiveRows(Rows(t, lab)));
    forall p | p in InstancesInUse(s) && p !in own ensures p in InstancesInUse(t) && p !in next {
      assert Rows(t, p.0) == Rows(s, p.0);
    }
    forall p | p in InstancesInUse(t) && p !in next ensures p in InstancesInUse(s) && p !in own {
      assert Rows(t, p.0) == Rows(s, p.0);
    }
    SwapSize(InstancesInUse(s), InstancesInUse(t), own, next);
  }

  lemma RedisMoves(s: State, t: State, lab: LabId)
    requires forall l :: l != lab ==> RedisHeld(RedisOf(t, l)) == RedisHeld(RedisOf(s, l))
    ensures |RedisInUse(t)| + (if RedisHeld(RedisOf(s, lab)) then 1 else 0)
         == |RedisInUse(s)| + (if RedisHeld(RedisOf(t, lab)) then 1 else 0)
  {
    var own: set<LabId> := if RedisHeld(RedisOf(s, lab)) then {lab} else {};
    var next: set<LabId> := if RedisHeld(RedisOf(t, lab)) then {lab} else {};
    forall l | l in RedisInUse(s) && l !in own ensures l in RedisInUse(t) && l !in next {
      assert RedisHeld(RedisOf(t, l)) == RedisHeld(RedisOf(s, l));
    }
    forall l | l in RedisInUse(t) && l !in next ensures l in RedisInUse(s) && l !in own {
      assert RedisHeld(RedisOf(t, l)) == RedisHeld(RedisOf(s, l));
    }
    SwapSize(RedisInUse(s), RedisInUse(t), own, next);
  }

  /** A step that touches one lab moves the persisted count by what that lab gains or loses. */
  lemma CountMoves(s: State, t: State, lab: LabId)
    requires OnlyLab(s, t, lab)
    ensures ContainersInUse(t) + LabHolds(s, lab) == ContainersInUse(s) + LabHolds(t, lab)
  {
    InstancesMove(s, t, lab);
    RedisMoves(s, t, lab);
  }

  /** The operations of a step: only `id` changes, and no other operation in flight concerns its lab. */
  ghost predicate OnlyOp(s: State, t: State, id: OpId, lab: LabId) {
    && id in t.ops && t.ops[id].lab == lab
    && (forall i :: i in s.ops && i != id ==> i in t.ops && t.ops[i] == s.ops[i])
    && (forall i :: i in t.ops && i != id ==> i in s.ops)
    && (forall i :: i in s.ops && i != id && s.ops[i].status.InFlight() ==> s.ops[i].lab != lab)
  }

  lemma OtherGrowth(s: State, t: State, id: OpId, lab: LabId, i: OpId)
    requires OnlyLab(s, t, lab) && OnlyOp(s, t, id, lab) && i != id
    ensures Growth(t, i) == Growth(s, i)
  {
    if i in s.ops && s.ops[i].status.InFlight() {
      assert Rows(t, s.ops[i].lab) == Rows(s, s.ops[i].lab);
    }
  }

  lemma ComingMoves(s: State, t: State, id: OpId, lab: LabId)
    requires OnlyLab(s, t, lab) && OnlyOp(s, t, id, lab)
    ensures |Coming(t)| + Growth(s, id) == |Coming(s)| + Growth(t, id)
  {
    var own, next := Tokens(id, Growth(s, id)), Tokens(id, Growth(t, id));
    TokensSize(id, Growth(s, id));
    TokensSize(id, Growth(t, id));
    forall p | p in Coming(s) && p !in own ensures p in Coming(t) && p !in next {
      assert p.0 != id;
      OtherGrowth(s, t, id, lab, p.0);
    }
    forall p | p in Coming(t) && p !in next ensures p in Coming(s) && p !in own {
      assert p.0 != id;
      OtherGrowth(s, t, id, lab, p.0);
    }
    SwapSize(Coming(s), Coming(t), own, next);
  }

  /** A step on one lab and one operation moves the budget by what the lab gains and the operation loses. */
  lemma BudgetMoves(s: State, t: State, id: OpId, lab: LabId)
    requires OnlyLab(s, t, lab) && OnlyOp(s, t, id, lab)
    ensures Budget(t) + LabHolds(s, lab) + Growth(s, id) == Budget(s) + LabHolds(t, lab) + Growth(t, id)
  {
    CountMoves(s, t, lab);
    ComingMoves(s, t, id, lab);
  }
}
