/**
 The balancer's computations as it performs them, loop by loop.
 */
module Algorithm {
  import opened Domain
  import opened ById
  import opened Weights

  method GreatestCommonDivisor(left: int, right: int) returns (r: nat)
    ensures r == Gcd(Magnitude(left), Magnitude(right))
  {
    var a, b := left, right;
    if a < 0 {
      a := -a;
    }
    if b < 0 {
      b := -b;
    }
    while b != 0
      invariant a >= 0 && b >= 0
      invariant Gcd(a, b) == Gcd(Magnitude(left), Magnitude(right))
      decreases b
    {
      a, b := b, a % b;
    }
    return a;
  }

  /** The extreme ratios decide whether the instances are balanced. */
  lemma ExtremesDecide(xs: seq<Server>, loads: Loads, least: nat, most: nat)
    requires least < |xs| && most < |xs|
    requires forall i :: 0 <= i < |xs| ==> Ratio(loads, xs[least].id) <= Ratio(loads, xs[i].id) <= Ratio(loads, xs[most].id)
    ensures Ratio(loads, xs[most].id) - Ratio(loads, xs[least].id) <= BalanceThreshold <==> Balanced(xs, loads)
  {}

  /** The first pass: validates every instance and gathers the extremes and the sum of the ratios. */
  method Survey(values: seq<Server>, loads: Loads) returns (valid: bool, low: real, high: real, total: real)
    requires values != []
    ensures valid == ValidServers(values, loads)
    ensures valid ==> total == Total(values, loads) && (high - low <= BalanceThreshold <==> Balanced(values, loads))
  {
    low, high, total := 1.0, 0.0, 0.0;
    ghost var least, most := 0, 0;
    for i := 0 to |values|
      invariant ValidServers(values[..i], loads)
      invariant total == Total(values[..i], loads)
      invariant forall k :: 0 <= k < i ==> low <= Ratio(loads, values[k].id) <= high
      invariant i == 0 ==> low == 1.0 && high == 0.0
      invariant i > 0 ==> 0 <= least < i && Ratio(loads, values[least].id) == low
      invariant i > 0 ==> 0 <= most < i && Ratio(loads, values[most].id) == high
    {
      var instance := values[i];
      assert values[..i + 1][i] == instance && values[..i + 1][..i] == values[..i];
      if instance.id == "" || instance.speed <= 0 || instance.maxLoad <= 0 {
        assert !ValidServer(values[i], loads);
        return false, low, high, total;
      }
      var ratio := Ratio(loads, instance.id);
      if ratio < 0.0 || ratio > 1.0 {
        assert !ValidServer(values[i], loads);
        return false, low, high, total;
      }
      least, most := if ratio < low || i == 0 then i else least, if ratio > high || i == 0 then i else most;
      low, high, total := Least(low, ratio), Greatest(high, ratio), total + ratio;
    }
    assert values[..|values|] == values;
    ExtremesDecide(values, loads, least, most);
    return true, low, high, total;
  }

  /** None where the source returns an error. */
  method TargetWeights(instances: seq<Server>, loads: Loads) returns (r: Option<seq<NameWeight>>)
    ensures r.Some? <==> instances != [] && ValidServers(instances, loads)
    ensures r.Some? ==> r.value == Target(instances, loads)
  {
    if |instances| == 0 {
      return None;
    }
    var values := Sort(instances);
    SortedIsValid(instances, loads);
    var valid, low, high, total := Survey(values, loads);
    if !valid {
      return None;
    }
    var average := total / |values| as real;
    var balanced := high - low <= BalanceThreshold;
    var weights := Weigh(values, loads, average, balanced);
    return Some(weights);
  }

  /** The second and third pass. */
  method Weigh(values: seq<Server>, loads: Loads, average: real, balanced: bool) returns (r: seq<NameWeight>)
    requires values != [] && ValidServers(values, loads)
    requires average == Average(values, loads) && balanced == Balanced(values, loads)
    ensures r == TargetOf(values, loads)
  {
    var scores, highest := ScoreAll(values, loads, average, balanced);
    HighestIsPositive(values, loads);
    var weights, divisor := ScaleAll(values, scores, highest);
    ghost var percents := Percents(scores, highest);
    DivisorDivides(percents);
    r := Reduce(weights, divisor);
    assert forall k :: 0 <= k < |values| ==> r[k] == NameWeight(values[k].id, percents[k] / divisor);
  }

  /** Divides the weights in place by their common divisor. */
  method Reduce(weights: seq<NameWeight>, divisor: nat) returns (r: seq<NameWeight>)
    requires divisor > 0
    ensures |r| == |weights|
    ensures forall k :: 0 <= k < |r| ==> r[k] == NameWeight(weights[k].name, weights[k].weight / divisor)
  {
    var values := new NameWeight[|weights|](i requires 0 <= i < |weights| => weights[i]);
    for i := 0 to values.Length
      invariant forall k :: i <= k < values.Length ==> values[k] == weights[k]
      invariant forall k :: 0 <= k < i ==> values[k] == NameWeight(weights[k].name, weights[k].weight / divisor)
    {
      values[i] := values[i].(weight := values[i].weight / divisor);
    }
    return values[..];
  }

  method ScoreAll(values: seq<Server>, loads: Loads, average: real, balanced: bool) returns (scores: seq<real>, highest: real)
    requires values != [] && average == Average(values, loads) && balanced == Balanced(values, loads)
    ensures scores == Scores(values, loads) && highest == MaxOf(scores)
  {
    scores, highest := [], 0.0;
    ghost var all := Scores(values, loads);
    for i := 0 to |values|
      invariant scores == all[..i] && highest == MaxOf(scores)
    {
      var score := ScoreOne(values, loads, average, balanced, values[i]);
      assert all[..i + 1] == all[..i] + [score] && (all[..i] + [score])[..i] == all[..i];
      scores := scores + [score];
      highest := Greatest(highest, score);
    }
    assert all[..|values|] == all;
  }

  method ScoreOne(values: seq<Server>, loads: Loads, average: real, balanced: bool, x: Server) returns (score: real)
    requires values != [] && average == Average(values, loads) && balanced == Balanced(values, loads)
    ensures score == Score(values, loads, x)
  {
    var correction := 1.0;
    if !balanced {
      correction := Least(MaximumCorrection, Greatest(MinimumCorrection, 1.0 + average - Ratio(loads, x.id)));
    }
    score := x.speed as real * correction;
  }

  method ScaleAll(values: seq<Server>, scores: seq<real>, highest: real) returns (weights: seq<NameWeight>, divisor: nat)
    requires |scores| == |values| && highest > 0.0
    ensures |weights| == |values|
    ensures forall i :: 0 <= i < |values| ==> weights[i] == NameWeight(values[i].id, Percent(scores[i], highest))
    ensures divisor == GcdOf(Percents(scores, highest))
  {
    weights, divisor := [], 0;
    ghost var percents := Percents(scores, highest);
    for i := 0 to |values|
      invariant |weights| == i && divisor == GcdOf(percents[..i])
      invariant forall k :: 0 <= k < i ==> weights[k] == NameWeight(values[k].id, percents[k])
    {
      var weight := Round(scores[i] / highest * 100.0);
      if weight < 1 {
        weight := 1;
      }
      if weight > 100 {
        weight := 100;
      }
      assert weight == percents[i] && percents[..i + 1][..i] == percents[..i];
      divisor := GreatestCommonDivisor(divisor, weight);
      weights := weights + [NameWeight(values[i].id, weight)];
    }
    assert percents[..|values|] == percents;
  }

  // ----- Routing shares -----------------------------------------------------------

  function TargetTotal(ws: seq<NameWeight>): int {
    if ws == [] then 0 else TargetTotal(ws[..|ws| - 1]) + ws[|ws| - 1].weight
  }

  function CurrentTotal(xs: seq<Server>): int {
    if xs == [] then 0 else CurrentTotal(xs[..|xs| - 1]) + xs[|xs| - 1].weight
  }

  predicate ProperTargets(ws: seq<NameWeight>) {
    && (forall i :: 0 <= i < |ws| ==> ws[i].name != "" && ws[i].weight > 0)
    && (forall i, j :: 0 <= i < j < |ws| ==> ws[i].name != ws[j].name)
  }

  predicate Routable(xs: seq<Server>, ws: seq<NameWeight>) {
    forall i :: 0 <= i < |xs| ==> xs[i].weight > 0 && exists j :: 0 <= j < |ws| && ws[j].name == xs[i].id
  }

  /** The routing shares of `current` out of `all` and `target` out of `wanted` are close. */
  predicate SharesClose(current: int, all: int, target: int, wanted: int)
    requires all > 0 && wanted > 0
  {
    var gap := current as real / all as real - target as real / wanted as real;
    -0.03 < gap < 0.03
  }

  predicate WithinShares(xs: seq<Server>, ws: seq<NameWeight>) {
    && xs != [] && |xs| == |ws| && ProperTargets(ws) && Routable(xs, ws)
    && CurrentTotal(xs) > 0 && TargetTotal(ws) > 0
    && forall i, j :: 0 <= i < |xs| && 0 <= j < |ws| && ws[j].name == xs[i].id
                      ==> SharesClose(xs[i].weight, CurrentTotal(xs), ws[j].weight, TargetTotal(ws))
  }

  lemma {:induction false} TotalsPositive(xs: seq<Server>, ws: seq<NameWeight>)
    requires forall i :: 0 <= i < |xs| ==> xs[i].weight > 0
    requires forall i :: 0 <= i < |ws| ==> ws[i].weight > 0
    ensures CurrentTotal(xs) >= |xs| && TargetTotal(ws) >= |ws|
    decreases |xs| + |ws|
  {
    if xs != [] {
      TotalsPositive(xs[..|xs| - 1], ws);
    } else if ws != [] {
      TotalsPositive(xs, ws[..|ws| - 1]);
    }
  }

  predicate Collected(ws: seq<NameWeight>, targets: Servers) {
    && (forall k :: 0 <= k < |ws| ==> ws[k].name in targets && targets[ws[k].name] == ws[k].weight)
    && (forall n :: n in targets ==> exists k :: 0 <= k < |ws| && ws[k].name == n)
  }

  lemma CollectOne(ws: seq<NameWeight>, targets: Servers, w: NameWeight)
    requires Collected(ws, targets) && w.name !in targets
    ensures Collected(ws + [w], targets[w.name := w.weight])
  {
    var more := ws + [w];
    assert forall k :: 0 <= k < |more| ==> more[k] == if k < |ws| then ws[k] else w;
    var after := targets[w.name := w.weight];
    forall n | n in after ensures exists k :: 0 <= k < |more| && more[k].name == n {
      if n == w.name {
        assert more[|ws|].name == n;
      } else {
        var k :| 0 <= k < |ws| && ws[k].name == n;
        assert more[k].name == n;
      }
    }
  }

  lemma ProperOne(ws: seq<NameWeight>, targets: Servers, w: NameWeight)
    requires Collected(ws, targets) && ProperTargets(ws)
    ensures ProperTargets(ws + [w]) <==> w.name != "" && w.weight > 0 && w.name !in targets
  {
    var more := ws + [w];
    assert forall k :: 0 <= k < |more| ==> more[k] == if k < |ws| then ws[k] else w;
    if w.name in targets {
      var k :| 0 <= k < |ws| && ws[k].name == w.name;
      assert more[k].name == more[|ws|].name;
    } else {
      assert forall k :: 0 <= k < |ws| ==> ws[k].name != w.name;
      assert more[|ws|] == w;
    }
  }

  /** The targets collected from a list, unless one is improper or repeated. */
  function Gather(ws: seq<NameWeight>): Option<Servers> {
    if ws == [] then Some(map[])
    else
      var targets, w := Gather(ws[..|ws| - 1]), ws[|ws| - 1];
      if targets.None? || w.name == "" || w.weight <= 0 || w.name in targets.value then None
      else Some(targets.value[w.name := w.weight])
  }

  lemma {:induction false} GatherMeans(ws: seq<NameWeight>)
    ensures Gather(ws).Some? <==> ProperTargets(ws)
    ensures Gather(ws).Some? ==> Collected(ws, Gather(ws).value)
  {
    if ws != [] {
      var front, w := ws[..|ws| - 1], ws[|ws| - 1];
      assert ws == front + [w];
      GatherMeans(front);
      if Gather(front).Some? {
        ProperOne(front, Gather(front).value, w);
        if w.name !in Gather(front).value {
          CollectOne(front, Gather(front).value, w);
        }
      } else {
        ProperPrefix(ws, |ws| - 1);
      }
    }
  }

  lemma ProperPrefix(ws: seq<NameWeight>, n: nat)
    requires n <= |ws|
    ensures ProperTargets(ws) ==> ProperTargets(ws[..n])
  {}

  lemma {:induction false} GatherPrefix(ws: seq<NameWeight>, n: nat)
    requires n <= |ws| && Gather(ws[..n]).None?
    ensures Gather(ws).None?
  {
    if n < |ws| {
      assert ws[..|ws| - 1][..n] == ws[..n];
      GatherPrefix(ws[..|ws| - 1], n);
    } else {
      assert ws[..n] == ws;
    }
  }

  method CollectTargets(weights: seq<NameWeight>) returns (r: Option<Servers>, total: int)
    ensures r == Gather(weights)
    ensures r.Some? ==> total == TargetTotal(weights)
  {
    var targets: Servers := map[];
    total := 0;
    for i := 0 to |weights|
      invariant Gather(weights[..i]) == Some(targets) && total == TargetTotal(weights[..i])
    {
      assert weights[..i + 1][..i] == weights[..i];
      if weights[i].name == "" || weights[i].weight <= 0 || weights[i].name in targets {
        GatherPrefix(weights, i + 1);
        return None, total;
      }
      targets := targets[weights[i].name := weights[i].weight];
      total := total + weights[i].weight;
    }
    assert weights[..|weights|] == weights;
    return Some(targets), total;
  }

  method SumCurrent(instances: seq<Server>, weights: seq<NameWeight>, targets: Servers) returns (routable: bool, total: int)
    requires Collected(weights, targets)
    ensures routable == Routable(instances, weights)
    ensures routable ==> total == CurrentTotal(instances)
  {
    total := 0;
    for i := 0 to |instances|
      invariant Routable(instances[..i], weights) && total == CurrentTotal(instances[..i])
    {
      if instances[i].weight <= 0 || instances[i].id !in targets {
        assert instances[i].id in targets || forall j :: 0 <= j < |weights| ==> weights[j].name != instances[i].id;
        return false, total;
      }
      assert instances[..i + 1] == instances[..i] + [instances[i]];
      total := total + instances[i].weight;
    }
    assert instances[..|instances|] == instances;
    return true, total;
  }

  predicate AllClose(xs: seq<Server>, targets: Servers, current: int, wanted: int)
    requires current > 0 && wanted > 0
  {
    forall i :: 0 <= i < |xs| && xs[i].id in targets ==> SharesClose(xs[i].weight, current, targets[xs[i].id], wanted)
  }

  method CompareShares(instances: seq<Server>, targets: Servers, current: int, wanted: int) returns (within: bool)
    requires current > 0 && wanted > 0 && forall i :: 0 <= i < |instances| ==> instances[i].id in targets
    ensures within == AllClose(instances, targets, current, wanted)
  {
    for i := 0 to |instances|
      invariant forall k :: 0 <= k < i ==> SharesClose(instances[k].weight, current, targets[instances[k].id], wanted)
    {
      var currentShare := instances[i].weight as real / current as real;
      var targetShare := targets[instances[i].id] as real / wanted as real;
      var gap := if currentShare >= targetShare then currentShare - targetShare else targetShare - currentShare;
      if gap >= ShareThreshold {
        assert !SharesClose(instances[i].weight, current, targets[instances[i].id], wanted);
        return false;
      }
    }
    return true;
  }

  lemma CollectedDecides(xs: seq<Server>, ws: seq<NameWeight>, targets: Servers)
    requires Collected(ws, targets) && xs != [] && |xs| == |ws| && ProperTargets(ws) && Routable(xs, ws)
    ensures CurrentTotal(xs) > 0 && TargetTotal(ws) > 0
    ensures AllClose(xs, targets, CurrentTotal(xs), TargetTotal(ws)) <==> WithinShares(xs, ws)
  {
    TotalsPositive(xs, ws);
    var all, wanted := CurrentTotal(xs), TargetTotal(ws);
    if WithinShares(xs, ws) {
      forall i | 0 <= i < |xs| && xs[i].id in targets
        ensures SharesClose(xs[i].weight, all, targets[xs[i].id], wanted)
      {
        var j :| 0 <= j < |ws| && ws[j].name == xs[i].id;
      }
    }
  }

  method WeightsWithinShareThreshold(instances: seq<Server>, weights: seq<NameWeight>) returns (within: bool)
    ensures within == WithinShares(instances, weights)
  {
    if |instances| == 0 || |instances| != |weights| {
      return false;
    }
    GatherMeans(weights);
    var gathered, wanted := CollectTargets(weights);
    if gathered.None? {
      return false;
    }
    var targets := gathered.value;
    var routable, current := SumCurrent(instances, weights, targets);
    if !routable {
      return false;
    }
    CollectedDecides(instances, weights, targets);
    within := CompareShares(instances, targets, current, wanted);
  }

  /** Instances whose weights are the targets. */
  predicate CarriesTargets(xs: seq<Server>, ws: seq<NameWeight>) {
    |xs| == |ws| && forall i :: 0 <= i < |xs| ==> xs[i].id == ws[i].name && xs[i].weight == ws[i].weight
  }

  lemma {:induction false} SameTotals(xs: seq<Server>, ws: seq<NameWeight>)
    requires CarriesTargets(xs, ws)
    ensures CurrentTotal(xs) == TargetTotal(ws)
  {
    if xs != [] {
      SameTotals(xs[..|xs| - 1], ws[..|ws| - 1]);
    }
  }

  lemma {:induction false} TotalOfCurrentPrepend(x: Server, xs: seq<Server>)
    ensures CurrentTotal([x] + xs) == x.weight + CurrentTotal(xs)
  {
    var all := [x] + xs;
    if xs == [] {
      assert all[..0] == [];
    } else {
      TotalOfCurrentPrepend(x, xs[..|xs| - 1]);
      assert all[..|all| - 1] == [x] + xs[..|xs| - 1];
    }
  }

  lemma {:induction false} InsertAddsWeight(x: Server, xs: seq<Server>)
    ensures CurrentTotal(Insert(x, xs)) == x.weight + CurrentTotal(xs)
  {
    TotalOfCurrentPrepend(x, xs);
    if xs != [] && !Before(x.id, xs[0].id) {
      InsertAddsWeight(x, xs[1..]);
      TotalOfCurrentPrepend(xs[0], Insert(x, xs[1..]));
      TotalOfCurrentPrepend(xs[0], xs[1..]);
      assert xs == [xs[0]] + xs[1..];
    }
  }

  lemma {:induction false} SortKeepsWeight(xs: seq<Server>)
    ensures CurrentTotal(Sort(xs)) == CurrentTotal(xs)
  {
    if xs != [] {
      SortKeepsWeight(xs[1..]);
      InsertAddsWeight(xs[0], Sort(xs[1..]));
      TotalOfCurrentPrepend(xs[0], xs[1..]);
      assert xs == [xs[0]] + xs[1..];
    }
  }

  /** Once the targets are applied, in whatever order the instances are listed, the shares agree. */
  lemma AppliedIsWithinShares(xs: seq<Server>, ws: seq<NameWeight>)
    requires xs != [] && ProperTargets(ws) && CarriesTargets(Sort(xs), ws)
    ensures WithinShares(xs, ws)
  {
    var vs := Sort(xs);
    SameTotals(vs, ws);
    SortKeepsWeight(xs);
    TotalsPositive([], ws);
    forall i | 0 <= i < |xs| ensures exists j :: 0 <= j < |ws| && ws[j].name == xs[i].id && ws[j].weight == xs[i].weight {
      assert xs[i] in multiset(vs);
      var j :| 0 <= j < |vs| && vs[j] == xs[i];
      assert ws[j].name == xs[i].id;
    }
  }
}
