/**
 Target weights of the adaptive balancer: processing speed corrected by load,
 scaled to 1..100 and reduced by the greatest common divisor.
 */
module Weights {
  import opened Domain
  import opened ById

  const BalanceThreshold: real := 0.05
  const MinimumCorrection: real := 0.25
  const MaximumCorrection: real := 1.75
  const ShareThreshold: real := 0.03

  type Loads = map<Name, real>

  function Least(a: real, b: real): real { if a <= b then a else b }
  function Greatest(a: real, b: real): real { if a >= b then a else b }

  /** Rounding half away from zero, of a number that is not negative. */
  function Round(x: real): int { (x + 0.5).Floor }

  function Ratio(loads: Loads, id: Name): real {
    if id in loads then loads[id] else 0.0
  }

  predicate ValidServer(x: Server, loads: Loads) {
    x.id != "" && x.speed > 0 && x.maxLoad > 0 && 0.0 <= Ratio(loads, x.id) <= 1.0
  }

  predicate ValidServers(xs: seq<Server>, loads: Loads) {
    forall i :: 0 <= i < |xs| ==> ValidServer(xs[i], loads)
  }

  // ----- The quantities the weights are made of ---------------------------------

  function Total(xs: seq<Server>, loads: Loads): real {
    if xs == [] then 0.0 else Total(xs[..|xs| - 1], loads) + Ratio(loads, xs[|xs| - 1].id)
  }

  function Average(xs: seq<Server>, loads: Loads): real
    requires xs != []
  {
    Total(xs, loads) / |xs| as real
  }

  /** No two load ratios are further apart than the threshold. */
  predicate Balanced(xs: seq<Server>, loads: Loads) {
    forall i, j :: 0 <= i < |xs| && 0 <= j < |xs| ==> Ratio(loads, xs[i].id) - Ratio(loads, xs[j].id) <= BalanceThreshold
  }

  function Correction(xs: seq<Server>, loads: Loads, id: Name): real
    requires xs != []
  {
    if Balanced(xs, loads) then 1.0
    else Least(MaximumCorrection, Greatest(MinimumCorrection, 1.0 + Average(xs, loads) - Ratio(loads, id)))
  }

  function Score(xs: seq<Server>, loads: Loads, x: Server): real
    requires xs != []
  {
    x.speed as real * Correction(xs, loads, x.id)
  }

  function Scores(xs: seq<Server>, loads: Loads): seq<real> {
    seq(|xs|, i requires 0 <= i < |xs| => Score(xs, loads, xs[i]))
  }

  function MaxOf(scores: seq<real>): real {
    if scores == [] then 0.0 else Greatest(MaxOf(scores[..|scores| - 1]), scores[|scores| - 1])
  }

  /** A score as a whole percentage of the highest score, at least 1. */
  function Percent(score: real, highest: real): int
    requires highest > 0.0
  {
    var w := Round(score / highest * 100.0);
    var w := if w < 1 then 1 else w;
    if w > 100 then 100 else w
  }

  function Percents(scores: seq<real>, highest: real): seq<int>
    requires highest > 0.0
  {
    seq(|scores|, i requires 0 <= i < |scores| => Percent(scores[i], highest))
  }

  function Gcd(a: nat, b: nat): nat
    decreases b
  {
    if b == 0 then a else Gcd(b, a % b)
  }

  function GcdOf(ws: seq<int>): nat {
    if ws == [] then 0 else Gcd(GcdOf(ws[..|ws| - 1]), Magnitude(ws[|ws| - 1]))
  }

  function Magnitude(n: int): nat { if n < 0 then -n else n }

  /** The weights of instances already sorted by id. */
  function TargetOf(xs: seq<Server>, loads: Loads): seq<NameWeight>
    requires xs != [] && ValidServers(xs, loads)
  {
    HighestIsPositive(xs, loads);
    var percents := Percents(Scores(xs, loads), MaxOf(Scores(xs, loads)));
    var divisor := GcdOf(percents);
    DivisorDivides(percents);
    seq(|xs|, i requires 0 <= i < |xs| => NameWeight(xs[i].id, percents[i] / divisor))
  }

  function Target(instances: seq<Server>, loads: Loads): seq<NameWeight>
    requires instances != [] && ValidServers(instances, loads)
  {
    SortedIsValid(instances, loads);
    TargetOf(Sort(instances), loads)
  }

  lemma SortedIsValid(instances: seq<Server>, loads: Loads)
    ensures ValidServers(instances, loads) <==> ValidServers(Sort(instances), loads)
    ensures instances != [] <==> Sort(instances) != []
  {
    var vs := Sort(instances);
    forall i | 0 <= i < |vs| && ValidServers(instances, loads) ensures ValidServer(vs[i], loads) {
      assert vs[i] in multiset(vs);
      assert vs[i] in instances;
    }
    forall i | 0 <= i < |instances| && ValidServers(vs, loads) ensures ValidServer(instances[i], loads) {
      assert instances[i] in multiset(vs);
      assert instances[i] in vs;
    }
  }

  // ----- Scores and their maximum -------------------------------------------------

  lemma {:induction false} MaxOfIsMaximum(scores: seq<real>)
    requires forall i :: 0 <= i < |scores| ==> scores[i] > 0.0
    ensures forall i :: 0 <= i < |scores| ==> scores[i] <= MaxOf(scores)
    ensures scores != [] ==> MaxOf(scores) in scores
  {
    if scores != [] {
      MaxOfIsMaximum(scores[..|scores| - 1]);
    }
  }

  lemma CorrectionBounds(xs: seq<Server>, loads: Loads, id: Name)
    requires xs != []
    ensures MinimumCorrection <= Correction(xs, loads, id) <= MaximumCorrection
  {}

  lemma ScorePositive(xs: seq<Server>, loads: Loads, x: Server)
    requires xs != [] && x.speed > 0
    ensures Score(xs, loads, x) > 0.0
  {
    CorrectionBounds(xs, loads, x.id);
  }

  lemma HighestIsPositive(xs: seq<Server>, loads: Loads)
    requires xs != [] && ValidServers(xs, loads)
    ensures MaxOf(Scores(xs, loads)) > 0.0
    ensures forall i :: 0 <= i < |xs| ==> 0.0 < Score(xs, loads, xs[i]) <= MaxOf(Scores(xs, loads))
  {
    var scores := Scores(xs, loads);
    forall i | 0 <= i < |xs| ensures scores[i] > 0.0 {
      ScorePositive(xs, loads, xs[i]);
    }
    MaxOfIsMaximum(scores);
    forall i | 0 <= i < |xs| ensures 0.0 < Score(xs, loads, xs[i]) <= MaxOf(scores) {
      assert scores[i] == Score(xs, loads, xs[i]);
    }
    assert scores[0] <= MaxOf(scores);
  }

  // ----- The greatest common divisor ------------------------------------------------

  predicate Multiple(d: int, k: int, n: int) { n == d * k }

  ghost predicate Divides(d: int, n: int) {
    exists k: int :: Multiple(d, k, n)
  }

  lemma DividesRemainder(d: int, a: nat, b: nat)
    requires b != 0 && Divides(d, b)
    ensures Divides(d, a % b) <==> Divides(d, a)
  {
    var q := a / b;
    var k :| Multiple(d, k, b);
    assert a == b * q + a % b;
    if Divides(d, a) {
      var m :| Multiple(d, m, a);
      assert Multiple(d, m - k * q, a % b);
    }
    if Divides(d, a % b) {
      var m :| Multiple(d, m, a % b);
      assert Multiple(d, k * q + m, a);
    }
  }

  lemma {:induction false} GcdDivides(a: nat, b: nat, d: int)
    ensures Divides(d, Gcd(a, b)) <==> Divides(d, a) && Divides(d, b)
    ensures a + b > 0 ==> Gcd(a, b) > 0
    decreases b
  {
    if b != 0 {
      GcdDivides(b, a % b, d);
      if Divides(d, b) {
        DividesRemainder(d, a, b);
      }
    } else {
      assert Multiple(d, 0, 0);
    }
  }

  /** The divisors of the common divisor are exactly the common divisors. */
  lemma {:induction false} GcdOfDivides(ws: seq<int>, d: int)
    requires forall i :: 0 <= i < |ws| ==> ws[i] >= 0
    ensures Divides(d, GcdOf(ws)) <==> forall i :: 0 <= i < |ws| ==> Divides(d, ws[i])
    ensures (exists i :: 0 <= i < |ws| && ws[i] > 0) ==> GcdOf(ws) > 0
  {
    if ws == [] {
      assert Multiple(d, 0, 0);
    } else {
      var front := ws[..|ws| - 1];
      GcdOfDivides(front, d);
      GcdDivides(GcdOf(front), ws[|ws| - 1], d);
      assert forall i :: 0 <= i < |front| ==> front[i] == ws[i];
    }
  }

  lemma DivisorDivides(percents: seq<int>)
    requires percents != [] && forall i :: 0 <= i < |percents| ==> percents[i] >= 1
    ensures GcdOf(percents) > 0
    ensures forall i :: 0 <= i < |percents| ==> Divides(GcdOf(percents), percents[i])
  {
    assert percents[0] > 0;
    var d: int := GcdOf(percents);
    assert Multiple(d, 1, d);
    GcdOfDivides(percents, d);
  }

  lemma ProductOrder(d: int, k: int, m: int)
    requires d >= 1
    ensures k <= m <==> d * k <= d * m
  {}

  lemma ExactQuotient(w: int, d: int)
    requires w >= 1 && d >= 1 && Divides(d, w)
    ensures (w / d) * d == w && 1 <= w / d <= w
  {
    var k :| Multiple(d, k, w);
    var q := w / d;
    assert d * q <= w < d * (q + 1);
    ProductOrder(d, k, q);
    ProductOrder(d, q + 1, k);
    ProductOrder(d, k, 0);
    ProductOrder(k, 1, d);
  }

  // ----- What the target weights promise ---------------------------------------------

  /** The unreduced percentages of the sorted instances. */
  function PercentsOf(xs: seq<Server>, loads: Loads): seq<int>
    requires xs != [] && ValidServers(xs, loads)
  {
    HighestIsPositive(xs, loads);
    Percents(Scores(xs, loads), MaxOf(Scores(xs, loads)))
  }

  /** One weight per instance, in strict id order, each in 1..100. */
  lemma TargetShape(xs: seq<Server>, loads: Loads)
    requires xs != [] && ValidServers(xs, loads)
    ensures var ws, vs := Target(xs, loads), Sort(xs);
      && |ws| == |xs|
      && (forall i :: 0 <= i < |ws| ==> ws[i].name == vs[i].id && 1 <= ws[i].weight <= 100)
      && (DistinctIds(xs) ==> forall i, j :: 0 <= i < j < |ws| ==> Before(ws[i].name, ws[j].name))
  {
    var ws, vs := Target(xs, loads), Sort(xs);
    SortedIsValid(xs, loads);
    var percents := PercentsOf(vs, loads);
    var g := GcdOf(percents);
    DivisorDivides(percents);
    forall i | 0 <= i < |ws| ensures 1 <= ws[i].weight <= 100 {
      ExactQuotient(percents[i], g);
    }
    if DistinctIds(xs) {
      SortInOrder(xs);
    }
  }

  ghost predicate CommonDivisor(d: int, ws: seq<int>) {
    forall i :: 0 <= i < |ws| ==> Divides(d, ws[i])
  }

  function WeightValues(ws: seq<NameWeight>): seq<int> {
    seq(|ws|, i requires 0 <= i < |ws| => ws[i].weight)
  }

  /** The weights have no common divisor but 1. */
  lemma TargetCoprime(xs: seq<Server>, loads: Loads, d: int)
    requires xs != [] && ValidServers(xs, loads)
    requires CommonDivisor(d, WeightValues(Target(xs, loads)))
    ensures d <= 1
  {
    SortedIsValid(xs, loads);
    var percents := PercentsOf(Sort(xs), loads);
    DivisorDivides(percents);
    var ws := WeightValues(Target(xs, loads));
    forall i | 0 <= i < |percents| ensures Divides(d, percents[i] / GcdOf(percents)) {
      assert ws[i] == percents[i] / GcdOf(percents);
    }
    if d > 1 {
      ReducedIsCoprime(percents, d);
    }
  }

  lemma ScaledDivides(w: int, d: int, g: int)
    requires w >= 1 && g >= 1 && Divides(g, w) && Divides(d, w / g)
    ensures Divides(d * g, w)
  {
    ExactQuotient(w, g);
    var k :| Multiple(d, k, w / g);
    assert (d * k) * g == (d * g) * k;
    assert Multiple(d * g, k, w);
  }

  /** Dividing by the common divisor leaves only 1 in common. */
  lemma ReducedIsCoprime(percents: seq<int>, d: int)
    requires percents != [] && forall i :: 0 <= i < |percents| ==> percents[i] >= 1
    requires GcdOf(percents) > 0
    requires forall i :: 0 <= i < |percents| ==> Divides(d, percents[i] / GcdOf(percents))
    ensures d <= 1
  {
    var g: int := GcdOf(percents);
    DivisorDivides(percents);
    forall i | 0 <= i < |percents| ensures Divides(d * g, percents[i]) {
      ScaledDivides(percents[i], d, g);
    }
    GcdOfDivides(percents, d * g);
    var m :| Multiple(d * g, m, g);
    NoSelfMultiple(d, g, m);
  }

  lemma NoSelfMultiple(d: int, g: int, m: int)
    requires g > 0 && g == (d * g) * m
    ensures d <= 1
  {
    if d > 1 {
      ProductOrder(g, 2, d);
      if m >= 1 {
        ProductOrder(d * g, 1, m);
      } else {
        ProductOrder(d * g, m, 0);
      }
    }
  }

  /** The order in which instances are listed does not matter. */
  lemma TargetIgnoresOrder(xs: seq<Server>, ys: seq<Server>, loads: Loads)
    requires xs != [] && ValidServers(xs, loads)
    requires DistinctIds(xs) && multiset(xs) == multiset(ys)
    ensures ys != [] && ValidServers(ys, loads) && Target(xs, loads) == Target(ys, loads)
  {
    SortIgnoresOrder(xs, ys);
    SortedIsValid(xs, loads);
    SortedIsValid(ys, loads);
  }

  lemma PercentMonotone(low: real, high: real, highest: real)
    requires low <= high && highest > 0.0
    ensures Percent(low, highest) <= Percent(high, highest)
  {
    assert low / highest <= high / highest;
    assert low / highest * 100.0 + 0.5 <= high / highest * 100.0 + 0.5;
  }

  lemma ScoreMonotone(xs: seq<Server>, loads: Loads, x: Server, y: Server)
    requires xs != [] && 0 < y.speed <= x.speed && Ratio(loads, x.id) <= Ratio(loads, y.id)
    ensures Score(xs, loads, y) <= Score(xs, loads, x)
  {
    var cx, cy := Correction(xs, loads, x.id), Correction(xs, loads, y.id);
    CorrectionBounds(xs, loads, y.id);
    assert cy <= cx;
    RealProductOrder(y.speed as real, x.speed as real, cy, cx);
  }

  lemma RealProductOrder(a: real, b: real, c: real, d: real)
    requires 0.0 <= a <= b && 0.0 <= c <= d
    ensures a * c <= b * d
  {
    assert a * c <= b * c <= b * d;
  }

  /** A faster instance with no higher load never gets a smaller weight. */
  lemma TargetMonotone(xs: seq<Server>, loads: Loads, i: nat, j: nat)
    requires xs != [] && ValidServers(xs, loads) && i < |xs| && j < |xs|
    requires var vs := Sort(xs);
      vs[i].speed >= vs[j].speed && Ratio(loads, vs[i].id) <= Ratio(loads, vs[j].id)
    ensures |Target(xs, loads)| == |xs| && Target(xs, loads)[i].weight >= Target(xs, loads)[j].weight
  {
    var vs := Sort(xs);
    SortedIsValid(xs, loads);
    assert ValidServer(vs[j], loads);
    ScoreMonotone(vs, loads, vs[i], vs[j]);
    ScoresDecide(vs, loads, i, j);
  }

  lemma ScoresDecide(vs: seq<Server>, loads: Loads, i: nat, j: nat)
    requires vs != [] && ValidServers(vs, loads) && i < |vs| && j < |vs|
    requires Score(vs, loads, vs[j]) <= Score(vs, loads, vs[i])
    ensures TargetOf(vs, loads)[i].weight >= TargetOf(vs, loads)[j].weight
  {
    var percents, scores := PercentsOf(vs, loads), Scores(vs, loads);
    HighestIsPositive(vs, loads);
    PercentMonotone(scores[j], scores[i], MaxOf(scores));
    DivisorDivides(percents);
    QuotientMonotone(percents[j], percents[i], GcdOf(percents));
  }

  lemma QuotientMonotone(a: int, b: int, d: int)
    requires 1 <= a <= b && d >= 1 && Divides(d, a) && Divides(d, b)
    ensures a / d <= b / d
  {
    ExactQuotient(a, d);
    ExactQuotient(b, d);
    ProductOrder(d, a / d, b / d);
  }

  /** The exact share, in percent of the highest score. */
  function Ideal(xs: seq<Server>, loads: Loads, x: Server): real
    requires xs != [] && MaxOf(Scores(xs, loads)) > 0.0
  {
    Score(xs, loads, x) / MaxOf(Scores(xs, loads)) * 100.0
  }

  lemma PercentAccuracy(score: real, highest: real)
    requires 0.0 < score <= highest
    ensures var ideal, w := score / highest * 100.0, Percent(score, highest) as real;
      && 0.0 < ideal <= 100.0
      && (-0.5 <= w - ideal <= 0.5 || (w == 1.0 && 0.0 < w - ideal < 1.0))
  {
    var q := score / highest;
    assert q * highest == score;
    assert 0.0 < q <= 1.0;
  }

  /** Weight times the common divisor is a percentage of the highest score, up to rounding. */
  lemma RoundedShares(xs: seq<Server>, loads: Loads)
    requires xs != [] && ValidServers(xs, loads)
    ensures var vs, ws := Sort(xs), Target(xs, loads);
      && vs != [] && ValidServers(vs, loads) && MaxOf(Scores(vs, loads)) > 0.0 && |ws| == |vs|
      && exists divisor: int :: divisor >= 1 && Scaled(vs, loads, ws, divisor)
  {
    var vs, ws := Sort(xs), Target(xs, loads);
    SortedIsValid(xs, loads);
    HighestIsPositive(vs, loads);
    var percents := PercentsOf(vs, loads);
    DivisorDivides(percents);
    var divisor: int := GcdOf(percents);
    forall i | 0 <= i < |ws| ensures Close(ws[i].weight * divisor, Ideal(vs, loads, vs[i])) {
      ExactQuotient(percents[i], divisor);
      PercentAccuracy(Score(vs, loads, vs[i]), MaxOf(Scores(vs, loads)));
    }
    assert Scaled(vs, loads, ws, divisor);
  }

  predicate Close(w: int, ideal: real) {
    -0.5 <= w as real - ideal <= 0.5 || (w == 1 && 0.0 < w as real - ideal < 1.0)
  }

  predicate Scaled(vs: seq<Server>, loads: Loads, ws: seq<NameWeight>, divisor: int)
    requires vs != [] && MaxOf(Scores(vs, loads)) > 0.0 && |ws| == |vs|
  {
    forall i :: 0 <= i < |vs| ==> Close(ws[i].weight * divisor, Ideal(vs, loads, vs[i]))
  }

  /** While loads are balanced, the weights depend on ids and speeds alone. */
  lemma BalancedIgnoresLoads(xs: seq<Server>, ys: seq<Server>, loads: Loads, others: Loads)
    requires xs != [] && Paired(xs, ys)
    requires ValidServers(xs, loads) && Balanced(xs, loads)
    requires ValidServers(ys, others) && Balanced(ys, others)
    ensures Target(xs, loads) == Target(ys, others)
  {
    var vs, us := Sort(xs), Sort(ys);
    SortedIsValid(xs, loads);
    SortedIsValid(ys, others);
    SortPairs(xs, ys);
    SortedIsBalanced(xs, loads);
    SortedIsBalanced(ys, others);
    PairedTargets(vs, loads, us, others);
  }

  lemma PairedTargets(vs: seq<Server>, loads: Loads, us: seq<Server>, others: Loads)
    requires vs != [] && Paired(vs, us) && ValidServers(vs, loads) && ValidServers(us, others)
    requires Balanced(vs, loads) && Balanced(us, others)
    ensures TargetOf(vs, loads) == TargetOf(us, others)
  {
    assert Scores(vs, loads) == Scores(us, others);
  }

  lemma SortedIsBalanced(xs: seq<Server>, loads: Loads)
    ensures Balanced(xs, loads) <==> Balanced(Sort(xs), loads)
  {
    var vs := Sort(xs);
    forall i, j | 0 <= i < |vs| && 0 <= j < |vs| && Balanced(xs, loads)
      ensures Ratio(loads, vs[i].id) - Ratio(loads, vs[j].id) <= BalanceThreshold
    {
      assert vs[i] in multiset(vs) && vs[j] in multiset(vs);
      assert vs[i] in xs && vs[j] in xs;
    }
    forall i, j | 0 <= i < |xs| && 0 <= j < |xs| && Balanced(vs, loads)
      ensures Ratio(loads, xs[i].id) - Ratio(loads, xs[j].id) <= BalanceThreshold
    {
      assert xs[i] in multiset(vs) && xs[j] in multiset(vs);
      assert xs[i] in vs && xs[j] in vs;
    }
  }

  predicate Paired(xs: seq<Server>, ys: seq<Server>) {
    |xs| == |ys| && forall i :: 0 <= i < |xs| ==> xs[i].id == ys[i].id && xs[i].speed == ys[i].speed
  }

  lemma {:induction false} InsertPairs(x: Server, y: Server, xs: seq<Server>, ys: seq<Server>)
    requires Paired(xs, ys) && x.id == y.id && x.speed == y.speed
    ensures Paired(Insert(x, xs), Insert(y, ys))
  {
    if xs != [] && !Before(x.id, xs[0].id) {
      InsertPairs(x, y, xs[1..], ys[1..]);
    }
  }

  lemma {:induction false} SortPairs(xs: seq<Server>, ys: seq<Server>)
    requires Paired(xs, ys)
    ensures Paired(Sort(xs), Sort(ys))
  {
    if xs != [] {
      SortPairs(xs[1..], ys[1..]);
      InsertPairs(xs[0], ys[0], Sort(xs[1..]), Sort(ys[1..]));
    }
  }

  // ----- The load feedback --------------------------------------------------------------

  lemma {:induction false} TotalOfPrepend(x: Server, xs: seq<Server>, loads: Loads)
    ensures Total([x] + xs, loads) == Ratio(loads, x.id) + Total(xs, loads)
  {
    var all := [x] + xs;
    if xs == [] {
      assert all[..0] == [];
    } else {
      TotalOfPrepend(x, xs[..|xs| - 1], loads);
      assert all[..|all| - 1] == [x] + xs[..|xs| - 1];
    }
  }

  lemma {:induction false} TotalOfInsert(x: Server, xs: seq<Server>, loads: Loads)
    ensures Total(Insert(x, xs), loads) == Ratio(loads, x.id) + Total(xs, loads)
  {
    TotalOfPrepend(x, xs, loads);
    if xs != [] && !Before(x.id, xs[0].id) {
      TotalOfInsert(x, xs[1..], loads);
      TotalOfPrepend(xs[0], Insert(x, xs[1..]), loads);
      TotalOfPrepend(xs[0], xs[1..], loads);
      assert xs == [xs[0]] + xs[1..];
    }
  }

  lemma {:induction false} SortKeepsTotal(xs: seq<Server>, loads: Loads)
    ensures Total(Sort(xs), loads) == Total(xs, loads)
  {
    if xs != [] {
      SortKeepsTotal(xs[1..], loads);
      TotalOfInsert(xs[0], Sort(xs[1..]), loads);
      TotalOfPrepend(xs[0], xs[1..], loads);
      assert xs == [xs[0]] + xs[1..];
    }
  }

  /** Feedback points the right way: out of balance, exactly the instances loaded below the
      average of the listed instances gain score, and exactly those above it lose score. */
  lemma FeedbackDirection(xs: seq<Server>, loads: Loads, x: Server)
    requires xs != [] && ValidServers(xs, loads) && x in xs && !Balanced(xs, loads)
    ensures var vs := Sort(xs);
      && vs != []
      && (Score(vs, loads, x) > x.speed as real <==> Ratio(loads, x.id) < Average(xs, loads))
      && (Score(vs, loads, x) < x.speed as real <==> Ratio(loads, x.id) > Average(xs, loads))
  {
    var vs := Sort(xs);
    SortKeepsTotal(xs, loads);
    SortedIsBalanced(xs, loads);
    SpeedPositive(xs, loads, x);
    CorrectionDirection(vs, loads, x);
  }

  lemma SpeedPositive(xs: seq<Server>, loads: Loads, x: Server)
    requires ValidServers(xs, loads) && x in xs
    ensures x.speed > 0
  {}

  lemma CorrectionDirection(vs: seq<Server>, loads: Loads, x: Server)
    requires vs != [] && !Balanced(vs, loads) && x.speed > 0
    ensures Score(vs, loads, x) > x.speed as real <==> Ratio(loads, x.id) < Average(vs, loads)
    ensures Score(vs, loads, x) < x.speed as real <==> Ratio(loads, x.id) > Average(vs, loads)
  {
    ProductAgainst(x.speed as real, Correction(vs, loads, x.id));
  }

  lemma ProductAgainst(a: real, c: real)
    requires a > 0.0
    ensures a * c > a <==> c > 1.0
    ensures a * c < a <==> c < 1.0
  {}

  // ----- The weights from the inputs alone ------------------------------------------------

  /** The load given for an instance; an instance without one counts as unloaded. */
  function Given(loads: Loads, x: Server): real {
    if x.id in loads then loads[x.id] else 0.0
  }

  function GivenSum(xs: seq<Server>, loads: Loads): real {
    if xs == [] then 0.0 else Given(loads, xs[0]) + GivenSum(xs[1..], loads)
  }

  function Mean(xs: seq<Server>, loads: Loads): real
    requires xs != []
  {
    GivenSum(xs, loads) / |xs| as real
  }

  /** Two loads are more than 5% of capacity apart. */
  predicate Uneven(xs: seq<Server>, loads: Loads) {
    exists i, j :: 0 <= i < |xs| && 0 <= j < |xs| && Given(loads, xs[i]) - Given(loads, xs[j]) > 0.05
  }

  /** Speed counts in full in balance; out of balance it counts by one plus mean minus own load, no less than a
      quarter and no more than one and three quarters. */
  function Factor(xs: seq<Server>, loads: Loads, x: Server): real
    requires xs != []
  {
    var factor := 1.0 + Mean(xs, loads) - Given(loads, x);
    if !Uneven(xs, loads) then 1.0 else if factor < 0.25 then 0.25 else if factor > 1.75 then 1.75 else factor
  }

  function Worth(xs: seq<Server>, loads: Loads, x: Server): real
    requires xs != []
  {
    x.speed as real * Factor(xs, loads, x)
  }

  /** The instance of highest worth. */
  predicate Best(xs: seq<Server>, loads: Loads, b: nat) {
    b < |xs| && forall i :: 0 <= i < |xs| ==> Worth(xs, loads, xs[i]) <= Worth(xs, loads, xs[b])
  }

  lemma {:induction false} GivenSumIsTotal(xs: seq<Server>, loads: Loads)
    ensures GivenSum(xs, loads) == Total(xs, loads)
  {
    if xs != [] {
      GivenSumIsTotal(xs[1..], loads);
      TotalOfPrepend(xs[0], xs[1..], loads);
      assert xs == [xs[0]] + xs[1..];
    }
  }

  lemma UnevenIsUnbalanced(xs: seq<Server>, loads: Loads)
    ensures Uneven(xs, loads) <==> !Balanced(Sort(xs), loads)
  {
    SortedIsBalanced(xs, loads);
    if !Balanced(xs, loads) {
      var i, j :| 0 <= i < |xs| && 0 <= j < |xs| && Ratio(loads, xs[i].id) - Ratio(loads, xs[j].id) > BalanceThreshold;
      assert Given(loads, xs[i]) - Given(loads, xs[j]) > 0.05;
    }
  }

  lemma MeanIsAverage(xs: seq<Server>, loads: Loads)
    requires xs != []
    ensures Sort(xs) != [] && Mean(xs, loads) == Average(Sort(xs), loads)
  {
    GivenSumIsTotal(xs, loads);
    SortKeepsTotal(xs, loads);
  }

  lemma FactorIsCorrection(xs: seq<Server>, loads: Loads, x: Server)
    requires xs != []
    ensures Sort(xs) != [] && Factor(xs, loads, x) == Correction(Sort(xs), loads, x.id)
  {
    UnevenIsUnbalanced(xs, loads);
    MeanIsAverage(xs, loads);
    assert Given(loads, x) == Ratio(loads, x.id);
  }

  lemma WorthIsScore(xs: seq<Server>, loads: Loads, x: Server)
    requires xs != []
    ensures Sort(xs) != [] && Worth(xs, loads, x) == Score(Sort(xs), loads, x)
  {
    FactorIsCorrection(xs, loads, x);
    SameProduct(x.speed as real, Factor(xs, loads, x), Correction(Sort(xs), loads, x.id));
  }

  lemma SameProduct(v: real, a: real, b: real)
    requires a == b
    ensures v * a == v * b
  {}

  lemma BestIsHighest(xs: seq<Server>, loads: Loads, b: nat)
    requires xs != [] && ValidServers(xs, loads) && Best(xs, loads, b)
    ensures Sort(xs) != [] && Worth(xs, loads, xs[b]) == MaxOf(Scores(Sort(xs), loads)) > 0.0
  {
    var vs := Sort(xs);
    SortedIsValid(xs, loads);
    HighestIsPositive(vs, loads);
    var scores := Scores(vs, loads);
    MaxOfIsMaximum(scores);
    var j :| 0 <= j < |scores| && scores[j] == MaxOf(scores);
    assert vs[j] in multiset(xs);
    var i :| 0 <= i < |xs| && xs[i] == vs[j];
    WorthIsScore(xs, loads, xs[i]);
    WorthIsScore(xs, loads, xs[b]);
    assert xs[b] in multiset(vs);
    var k :| 0 <= k < |vs| && vs[k] == xs[b];
    assert scores[k] <= MaxOf(scores);
  }

  predicate InProportion(xs: seq<Server>, loads: Loads, b: nat, vs: seq<Server>, ws: seq<NameWeight>, divisor: int)
    requires xs != [] && b < |xs| && Worth(xs, loads, xs[b]) > 0.0 && |ws| == |vs|
  {
    forall i :: 0 <= i < |vs| ==> Close(ws[i].weight * divisor, Worth(xs, loads, vs[i]) / Worth(xs, loads, xs[b]) * 100.0)
  }

  /** Weight times one common divisor is the instance's worth in percent of the best, up to rounding:
      within one half, or within one where the minimum of 1 applies. */
  lemma TargetAccuracy(xs: seq<Server>, loads: Loads, b: nat)
    requires xs != [] && ValidServers(xs, loads) && Best(xs, loads, b)
    ensures var vs, ws := Sort(xs), Target(xs, loads);
      && Worth(xs, loads, xs[b]) > 0.0 && |ws| == |vs| == |xs|
      && exists divisor: int :: divisor >= 1 && InProportion(xs, loads, b, vs, ws, divisor)
  {
    var vs, ws := Sort(xs), Target(xs, loads);
    RoundedShares(xs, loads);
    BestIsHighest(xs, loads, b);
    var divisor: int :| divisor >= 1 && Scaled(vs, loads, ws, divisor);
    forall i | 0 <= i < |vs| ensures Close(ws[i].weight * divisor, Worth(xs, loads, vs[i]) / Worth(xs, loads, xs[b]) * 100.0) {
      WorthIsScore(xs, loads, vs[i]);
    }
    assert InProportion(xs, loads, b, vs, ws, divisor);
  }

  lemma IdleAndFull(a: Server, b: Server, loads: Loads)
    requires a.id == "a" && b.id == "b" && a.speed == b.speed == 10 && loads == map["a" := 0.0, "b" := 1.0]
    ensures Worth([a, b], loads, a) == 15.0 && Worth([a, b], loads, b) == 5.0 && Best([a, b], loads, 0)
  {
    var xs := [a, b];
    assert xs[1..] == [b] && [b][1..] == [];
    assert GivenSum([b], loads) == 1.0;
    assert Mean(xs, loads) == 0.5;
    assert Given(loads, xs[1]) - Given(loads, xs[0]) > 0.05;
    assert Factor(xs, loads, a) == 1.5 && Factor(xs, loads, b) == 0.5;
  }

  /** Equal speeds, one instance unloaded and one full: three to one. */
  lemma IdleAgainstFull(a: Server, b: Server, loads: Loads)
    requires a.id == "a" && b.id == "b" && a.speed == b.speed == 10 && a.maxLoad > 0 && b.maxLoad > 0
    requires loads == map["a" := 0.0, "b" := 1.0]
    ensures ValidServers([a, b], loads) && Target([a, b], loads) == [NameWeight("a", 100), NameWeight("b", 33)]
  {
    var xs := [a, b];
    IdleAndFull(a, b, loads);
    InAlphabet(a, b);
    TargetShape(xs, loads);
    TargetAccuracy(xs, loads, 0);
    IdleWeights(a, b, loads, Target(xs, loads));
  }

  lemma IdleWeights(a: Server, b: Server, loads: Loads, ws: seq<NameWeight>)
    requires |ws| == 2 && Worth([a, b], loads, a) == 15.0 && Worth([a, b], loads, b) == 5.0
    requires exists d: int :: d >= 1 && InProportion([a, b], loads, 0, [a, b], ws, d)
    ensures ws[0].weight == 100 && ws[1].weight == 33
  {
    var d: int :| d >= 1 && InProportion([a, b], loads, 0, [a, b], ws, d);
    assert [a, b][0] == a && [a, b][1] == b;
    ThreeToOne(ws[0].weight, ws[1].weight, d);
  }

  lemma ThreeToOne(w: int, v: int, d: int)
    requires d >= 1 && Close(w * d, 15.0 / 15.0 * 100.0) && Close(v * d, 5.0 / 15.0 * 100.0)
    ensures w == 100 && v == 33
  {
    assert w * d == 100 && v * d == 33;
    UnitDivisor(w, v, d);
  }

  lemma InAlphabet(a: Server, b: Server)
    requires a.id == "a" && b.id == "b"
    ensures Sort([a, b]) == [a, b]
  {
    assert [a, b][1..] == [b] && [b][1..] == [];
    assert Sort([b]) == [b];
    assert Before("a", "b");
  }

  lemma UnitDivisor(w: int, v: int, d: int)
    requires d >= 1 && w * d == 100 && v * d == 33
    ensures d == 1
  {
    assert (w - 3 * v) * d == 1;
  }
}
