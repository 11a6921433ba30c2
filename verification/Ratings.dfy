/** The Elo-MMR update of one contest: performances by divide and conquer, then new means. */
module Ratings {
  import opened Variance
  import opened Solver

  // VALID_RANGE: twenty standard deviations of a newcomer, SD_INIT = 328.33 * 200 / 212.
  const SD_INIT: real := 328.33 * 200.0 / 212.0
  const RANGE_LOW: real := 1500.0 - 20.0 * SD_INIT
  const RANGE_HIGH: real := 1500.0 + 20.0 * SD_INIT

  lemma InitialDeviation()
    ensures SD_INIT * SD_INIT == MODEL.init && RANGE_LOW < RANGE_HIGH
  {
  }

  type Spread = d: real | d > 0.0 witness 1.0

  // The wins and losses of a player ranked r, each weighted by the opponent's spread; a tie
  // counts for neither.
  function Target(delta: seq<Spread>, ranking: seq<real>, r: real): real
    requires |delta| == |ranking|
  {
    if ranking == [] then 0.0
    else Outcome(delta[0], ranking[0], r) + Target(delta[1..], ranking[1..], r)
  }

  function Outcome(d: Spread, s: real, r: real): real {
    if s > r then 1.0 / d else if s < r then -(1.0 / d) else 0.0
  }

  /** A worse rank never has a larger target. */
  lemma {:induction false} TargetFalls(delta: seq<Spread>, ranking: seq<real>, r: real, r': real)
    requires |delta| == |ranking| && r <= r'
    ensures Target(delta, ranking, r') <= Target(delta, ranking, r)
  {
    if ranking != [] {
      assert 1.0 / delta[0] > 0.0;
      TargetFalls(delta[1..], ranking[1..], r, r');
    }
  }

  ghost predicate Sorted(ranking: seq<real>) {
    forall i, j :: 0 <= i <= j < |ranking| ==> ranking[i] <= ranking[j]
  }

  lemma {:induction false} TargetAppend(delta: seq<Spread>, ranking: seq<real>, d: Spread, s: real, r: real)
    requires |delta| == |ranking|
    ensures Target(delta + [d], ranking + [s], r) == Target(delta, ranking, r) + Outcome(d, s, r)
  {
    if ranking == [] {
      assert Target([d][1..], [s][1..], r) == 0.0;
    } else {
      TargetAppend(delta[1..], ranking[1..], d, s, r);
      assert (delta + [d])[1..] == delta[1..] + [d] && (ranking + [s])[1..] == ranking[1..] + [s];
    }
  }

  // x is in the valid range, and no point of that range more than 2 away from it is on the wrong side of the target.
  ghost predicate Near(f: real -> real, target: real, x: real) {
    RANGE_LOW <= x <= RANGE_HIGH && forall y :: RANGE_LOW <= y <= RANGE_HIGH ==> OnItsSide(f, target, x, y)
  }

  predicate OnItsSide(f: real -> real, target: real, x: real, y: real) {
    (f(y) <= target ==> y <= x + 2.0) && (f(y) >= target ==> x - 2.0 <= y)
  }

  function Clamp(x: real): real {
    if x < RANGE_LOW then RANGE_LOW else if x > RANGE_HIGH then RANGE_HIGH else x
  }

  /** Then x is within 2 of the exact solution, where there is one, or of the end of the range beyond which that
      lies. */
  lemma NearRoot(f: real -> real, target: real, x: real, root: real)
    requires Increasing(f) && Near(f, target, x) && f(root) == target
    ensures -2.0 <= x - Clamp(root) <= 2.0
  {
    var y := Clamp(root);
    assert OnItsSide(f, target, x, y);
    assert root < y ==> f(root) < f(y);
    assert y < root ==> f(y) < f(root);
  }

  // From i to j, performances do not increase, and each is near its target.
  ghost predicate Settled(p: seq<real>, f: real -> real, targets: seq<real>, i: nat, j: nat) {
    && i <= j < |p| == |targets|
    && (forall k :: i <= k <= j ==> Near(f, targets[k], p[k]))
    && (forall a, b :: i <= a <= b <= j ==> p[b] <= p[a])
  }

  ghost predicate SameOutside(p: seq<real>, q: seq<real>, i: nat, j: nat) {
    |p| == |q| && forall k :: 0 <= k < |p| && !(i < k < j) ==> p[k] == q[k]
  }

  lemma JoinHalves(p: seq<real>, q: seq<real>, f: real -> real, targets: seq<real>, i: nat, k: nat, j: nat)
    requires Settled(p, f, targets, i, k) && Settled(q, f, targets, k, j) && SameOutside(p, q, k, j)
    ensures Settled(q, f, targets, i, j)
  {
    assert forall a :: i <= a <= k ==> q[a] == p[a];
    forall a, b | i <= a <= b <= j ensures q[b] <= q[a] {
      assert a <= k <= b ==> q[b] <= q[k] <= q[a];
    }
  }

  // ----- The equation of a performance -----

  // What someone of strength x is expected to score against all players, each weighed by the spread, beyond what a
  // player ranked r scored: 1 for a win, -1 for a loss, and for a tie what is expected between equals.
  function Surplus(tanh: real -> real, means: seq<real>, delta: seq<Spread>, ranking: seq<real>, r: real, x: real): real
    requires |means| == |delta| == |ranking|
  {
    if means == [] then 0.0
    else
      var d, s := delta[0], ranking[0];
      (1.0 / d) * (tanh((x - means[0]) / (2.0 * d)) - if s > r then 1.0 else if s < r then -1.0 else 0.0)
      + Surplus(tanh, means[1..], delta[1..], ranking[1..], r, x)
  }

  function PlayerTerms(means: seq<real>, delta: seq<Spread>): (terms: seq<Term>)
    requires |means| == |delta|
    ensures |terms| == |means|
  {
    seq(|means|, i requires 0 <= i < |means| => Logistic(means[i], delta[i], 1.0))
  }

  /** The performance that is sought is the strength at which the player did just as expected. */
  lemma SurplusIsExcess(tanh: real -> real, means: seq<real>, delta: seq<Spread>, ranking: seq<real>, r: real, x: real)
    requires |means| == |delta| == |ranking|
    ensures Surplus(tanh, means, delta, ranking, r, x) ==
            Objective(tanh, PlayerTerms(means, delta), 0.0)(x) - Target(delta, ranking, r)
  {
    SurplusSplits(tanh, means, delta, ranking, r, x);
  }

  lemma {:induction false} SurplusSplits(tanh: real -> real, means: seq<real>, delta: seq<Spread>, ranking: seq<real>,
                                         r: real, x: real)
    requires |means| == |delta| == |ranking|
    ensures Surplus(tanh, means, delta, ranking, r, x) ==
            EvalTanhs(tanh, PlayerTerms(means, delta), x) - Target(delta, ranking, r)
  {
    if means != [] {
      SurplusSplits(tanh, means[1..], delta[1..], ranking[1..], r, x);
      PlayerTermsSplit(tanh, means, delta, x);
      ScoreIsOutcome(delta[0], tanh((x - means[0]) / (2.0 * delta[0])), ranking[0], r);
    }
  }

  lemma PlayerTermsSplit(tanh: real -> real, means: seq<real>, delta: seq<Spread>, x: real)
    requires |means| == |delta| > 0
    ensures EvalTanhs(tanh, PlayerTerms(means, delta), x) ==
            (1.0 / delta[0]) * tanh((x - means[0]) / (2.0 * delta[0])) +
            EvalTanhs(tanh, PlayerTerms(means[1..], delta[1..]), x)
  {
    var terms := PlayerTerms(means, delta);
    assert terms[1..] == PlayerTerms(means[1..], delta[1..]);
  }

  lemma ScoreIsOutcome(d: Spread, y: real, s: real, r: real)
    ensures (1.0 / d) * (y - if s > r then 1.0 else if s < r then -1.0 else 0.0) == (1.0 / d) * y - Outcome(d, s, r)
  {
    var score := if s > r then 1.0 else if s < r then -1.0 else 0.0;
    Distributes(1.0 / d, y, score);
    assert Outcome(d, s, r) == (1.0 / d) * score;
  }

  lemma Distributes(a: real, b: real, c: real)
    ensures a * (b - c) == a * b - a * c
  {
  }

  // The same near-solution, of the equation written as f = 0.
  lemma NearShifted(f: real -> real, target: real, g: real -> real, x: real)
    requires Near(f, target, x) && forall y :: g(y) == f(y) - target
    ensures Near(g, 0.0, x)
  {
    forall y | RANGE_LOW <= y <= RANGE_HIGH ensures OnItsSide(g, 0.0, x, y) {
      assert OnItsSide(f, target, x, y);
    }
  }

  /** The contest that is being rated, and the performances found so far. */
  class Contest {
    const tanh: real -> real
    const ranking: seq<real>
    const delta: seq<Spread>
    const terms: seq<Term>
    const newP: array<real>

    ghost predicate Valid() {
      && Increasing(tanh) && Proper(terms) && terms != []
      && |delta| == |ranking| == newP.Length && Sorted(ranking)
    }

    constructor (tanh: real -> real, ranking: seq<real>, oldMean: seq<real>, delta: seq<Spread>)
      requires Increasing(tanh) && Sorted(ranking) && |ranking| == |oldMean| == |delta| > 0
      ensures Valid() && fresh(newP) && this.tanh == tanh && this.ranking == ranking && this.delta == delta
      ensures |terms| == |ranking| && forall i :: 0 <= i < |terms| ==> terms[i] == Logistic(oldMean[i], delta[i], 1.0)
    {
      this.tanh, this.ranking, this.delta := tanh, ranking, delta;
      terms := seq(|ranking|, i requires 0 <= i < |ranking| => Logistic(oldMean[i], delta[i], 1.0));
      newP := new real[|ranking|];
    }

    function F(): real -> real {
      Objective(tanh, terms, 0.0)
    }

    function TargetOf(i: nat): real
      requires i < |ranking| == |delta|
    {
      Target(delta, ranking, ranking[i])
    }

    function Targets(): (r: seq<real>)
      requires |ranking| == |delta|
      ensures |r| == |ranking| && forall i :: 0 <= i < |r| ==> r[i] == TargetOf(i)
    {
      seq(|ranking|, i requires 0 <= i < |ranking| => TargetOf(i))
    }

    lemma RootsFall(i: nat, j: nat, x: real, y: real)
      requires Valid() && i <= j < |ranking| && F()(x) == TargetOf(i) && F()(y) == TargetOf(j)
      ensures y <= x
    {
      TargetFalls(delta, ranking, ranking[i], ranking[j]);
      ObjectiveIncreases(tanh, terms, 0.0);
      var f := F();
      assert x < y ==> f(x) < f(y);
    }

    // The target of player i, summed over all players.
    method SumTarget(i: nat) returns (target: real)
      requires Valid() && i < |ranking|
      ensures target == TargetOf(i)
    {
      var r := ranking[i];
      target := 0.0;
      for j := 0 to |ranking|
        invariant target == Target(delta[..j], ranking[..j], r)
      {
        TargetAppend(delta[..j], ranking[..j], delta[j], ranking[j], r);
        assert delta[..j + 1] == delta[..j] + [delta[j]] && ranking[..j + 1] == ranking[..j] + [ranking[j]];
        target := target + Outcome(delta[j], ranking[j], r);
      }
      assert delta[..|ranking|] == delta && ranking[..|ranking|] == ranking;
    }

    method SolveIdx(i: nat, lo: real, hi: real)
      requires Valid() && i < newP.Length && lo <= hi
      modifies newP
      ensures newP[..] == old(newP[..])[i := Bisect(F(), TargetOf(i), lo, hi)]
    {
      var target := SumTarget(i);
      var x := Solve(tanh, terms, target, 0.0, lo, hi);
      newP[i] := x;
    }

    // Player k between i and j, solved in the bracket that i and j leave, stays between them and near its target,
    // though the bracket is made of approximations.
    lemma BracketIsSafe(i: nat, k: nat, j: nat, hi: real, lo: real)
      requires Valid() && i <= k <= j < |ranking| && lo <= hi
      requires Near(F(), TargetOf(i), hi) && Near(F(), TargetOf(j), lo)
      ensures lo <= Bisect(F(), TargetOf(k), lo, hi) <= hi && Near(F(), TargetOf(k), Bisect(F(), TargetOf(k), lo, hi))
    {
      ObjectiveIncreases(tanh, terms, 0.0);
      TargetFalls(delta, ranking, ranking[i], ranking[k]);
      TargetFalls(delta, ranking, ranking[k], ranking[j]);
      var f, t := F(), TargetOf(k);
      BracketKeepsNear(f, TargetOf(i), t, TargetOf(j), hi, lo);
    }

    lemma BracketKeepsNear(f: real -> real, above: real, t: real, below: real, hi: real, lo: real)
      requires Increasing(f) && below <= t <= above && lo <= hi && Near(f, above, hi) && Near(f, below, lo)
      ensures lo <= Bisect(f, t, lo, hi) <= hi && Near(f, t, Bisect(f, t, lo, hi))
    {
      var x := Bisect(f, t, lo, hi);
      BisectNear(f, t, lo, hi, lo);
      forall y | RANGE_LOW <= y <= RANGE_HIGH ensures OnItsSide(f, t, x, y) {
        if y < lo {
          assert f(y) < f(lo) && OnItsSide(f, below, lo, y);
        } else if y > hi {
          assert f(hi) < f(y) && OnItsSide(f, above, hi, y);
        } else {
          BisectNear(f, t, lo, hi, y);
        }
      }
    }

    method SolveBetween(i: nat, k: nat, j: nat)
      requires Valid() && i < k < j < newP.Length && newP[j] <= newP[i]
      requires Near(F(), TargetOf(i), newP[i]) && Near(F(), TargetOf(j), newP[j])
      modifies newP
      ensures SameOutside(old(newP[..]), newP[..], i, j)
      ensures newP[j] <= newP[k] <= newP[i] && Near(F(), TargetOf(k), newP[k])
    {
      BracketIsSafe(i, k, j, newP[i], newP[j]);
      SolveIdx(k, newP[j], newP[i]);
      assert newP[..][k] == newP[k] && newP[..][i] == newP[i] && newP[..][j] == newP[j];
    }

    /** Fills all indices strictly between i and j. */
    method DivConq(i: nat, j: nat)
      requires Valid() && i < j < newP.Length && newP[j] <= newP[i]
      requires Near(F(), TargetOf(i), newP[i]) && Near(F(), TargetOf(j), newP[j])
      modifies newP
      decreases j - i
      ensures SameOutside(old(newP[..]), newP[..], i, j)
      ensures Settled(newP[..], F(), Targets(), i, j)
    {
      if j - i > 1 {
        var k := (i + j) / 2;
        SolveBetween(i, k, j);
        ghost var p := newP[..];
        DivConq(i, k);
        ghost var q := newP[..];
        assert q[k] == p[k] && q[j] == p[j];
        DivConq(k, j);
        JoinHalves(q, newP[..], F(), Targets(), i, k, j);
      }
    }

    lemma RangeIsSafe(i: nat)
      requires Valid() && i < |ranking|
      ensures Near(F(), TargetOf(i), Bisect(F(), TargetOf(i), RANGE_LOW, RANGE_HIGH))
    {
      ObjectiveIncreases(tanh, terms, 0.0);
      BisectInBounds(F(), TargetOf(i), RANGE_LOW, RANGE_HIGH);
      forall y | RANGE_LOW <= y <= RANGE_HIGH
        ensures OnItsSide(F(), TargetOf(i), Bisect(F(), TargetOf(i), RANGE_LOW, RANGE_HIGH), y)
      {
        BisectNear(F(), TargetOf(i), RANGE_LOW, RANGE_HIGH, y);
      }
    }

    /** All performances of a contest of at least two players: they do not increase along the ranking, and each is near
        its target. */
    method Performances()
      requires Valid() && newP.Length >= 2
      modifies newP
      ensures Settled(newP[..], F(), Targets(), 0, newP.Length - 1)
    {
      var n := newP.Length;
      ghost var last := n - 1;
      ObjectiveIncreases(tanh, terms, 0.0);
      TargetFalls(delta, ranking, ranking[0], ranking[last]);
      BisectMonotone(F(), TargetOf(last), TargetOf(0), RANGE_LOW, RANGE_HIGH);
      RangeIsSafe(0);
      RangeIsSafe(last);
      SolveIdx(0, RANGE_LOW, RANGE_HIGH);
      ghost var first := newP[..];
      SolveIdx(n - 1, RANGE_LOW, RANGE_HIGH);
      assert newP[..][0] == first[0] && newP[..][n - 1] == newP[n - 1];
      DivConq(0, n - 1);
    }
  }

  // ----- The prior's weight -----

  // The share of the variance that carries over to the next older contest.
  function Keep(m: Model, t: nat): (k: real)
    requires m.beta2 > 0.0 && m.drift > 0.0 && m.init > 0.0
    ensures 0.0 < k < 1.0
  {
    var v := Var(m, t);
    KeepInUnit(v, m.drift);
    v / (v + m.drift)
  }

  lemma KeepInUnit(v: real, c: real)
    requires v > 0.0 && c > 0.0
    ensures 0.0 < v / (v + c) < 1.0
  {
    Quotient(v, v + c, v / (v + c));
  }

  // A weight falls with the square of the share that is kept.
  function Weaken(w: real, k: real): real {
    w * (k * k)
  }

  // A sum and what w adds to it.
  function Plus(sum: real, w: real, amount: real): real {
    sum + w * amount
  }

  lemma WeakenPositive(w: real, k: real)
    requires 0.0 < w && 0.0 < k
    ensures 0.0 < Weaken(w, k)
  {
    var q := k * k;
    Positive(k, k, q);
    Positive(w, q, w * q);
  }

  // The summed weight of the newest performance and the `older` before it, when the newest is
  // contest n.
  function WeightSum(m: Model, n: nat, older: nat): real
    requires m.beta2 > 0.0 && m.drift > 0.0 && m.init > 0.0 && older <= n
  {
    if older == 0 then 1.0 / m.beta2
    else 1.0 / m.beta2 + Weaken(WeightSum(m, n - 1, older - 1), Keep(m, n - 1))
  }

  lemma Precision(m: Model, n: nat)
    requires Sound(m) && n > 0
    ensures 1.0 / Var(m, n) == 1.0 / m.beta2 + Keep(m, n - 1) * (1.0 / Var(m, n - 1))
  {
    var v := Var(m, n - 1);
    NextForm(m, v);
    KeepTimes(v, m.drift);
  }

  lemma KeepTimes(v: real, c: real)
    requires v > 0.0 && c > 0.0
    ensures (v / (v + c)) * (1.0 / v) == 1.0 / (v + c)
  {
  }

  /** The weights of a history of n - 1 contests never use up the precision after contest n: what
      is left for the prior is positive. */
  lemma {:induction false} PriorWeightPositive(m: Model, n: nat, older: nat)
    requires Sound(m) && older < n
    ensures WeightSum(m, n, older) < 1.0 / Var(m, n)
  {
    Precision(m, n);
    var k, p, rest := Keep(m, n - 1), 1.0 / Var(m, n - 1), 0.0;
    if older > 0 {
      PriorWeightPositive(m, n - 1, older - 1);
      rest := WeightSum(m, n - 1, older - 1);
    }
    SquareLoses(k, rest, p);
    assert Weaken(0.0, k) == 0.0;
  }

  lemma SquareLoses(k: real, w: real, p: real)
    requires 0.0 < k < 1.0 && w < p && 0.0 < p
    ensures Weaken(w, k) < k * p
  {
    var q := k * k;
    Positive(k, 1.0 - k, k * (1.0 - k));
    assert q < k;
    Positive(k, k, q);
    Positive(q, p - w, q * (p - w));
    Positive(k - q, p, (k - q) * p);
  }

  // The weight that the contests before contest n carry, relative to contest n.
  function Carry(m: Model, n: nat, older: nat): real
    requires m.beta2 > 0.0 && m.drift > 0.0 && m.init > 0.0 && older <= n
  {
    if older == 0 then 0.0 else Weaken(WeightSum(m, n - 1, older - 1), Keep(m, n - 1))
  }

  lemma CarrySplits(m: Model, n: nat, older: nat)
    requires Sound(m) && 0 < older <= n
    ensures Carry(m, n, older) == Weaken(1.0 / m.beta2 + Carry(m, n - 1, older - 1), Keep(m, n - 1))
  {
  }

  lemma CarryStep(total: real, wSum: real, wPrev: real, k: real, unit: real, rest: real, carry: real, w: real,
                  wSum': real)
    requires total == Plus(wSum, wPrev, carry) && carry == Weaken(unit + rest, k)
    requires w == Weaken(wPrev, k) && wSum' == Plus(wSum, w, unit)
    ensures total == Plus(wSum', w, rest)
  {
  }

  lemma WholeRatio(v: real)
    requires v > 0.0
    ensures v / (v + 0.0) == 1.0
  {
  }

  // The share of its weight that the j-th newest performance keeps of the one before.
  method Share(table: VarianceTable, n: nat, j: nat) returns (k: real)
    requires table.Valid() && j <= n
    modifies table
    ensures table.Valid() && k > 0.0
    ensures k == if j == 0 then 1.0 else Keep(table.m, n - j)
  {
    var gamma2 := if j > 0 then table.m.drift else 0.0;
    var hVar := table.Get(n - j);
    k := hVar / (hVar + gamma2);
    if j == 0 {
      WholeRatio(hVar);
    }
  }

  // The weight of the j-th newest performance, given the one before, and the new sum.
  method Weigh(table: VarianceTable, n: nat, j: nat, wPrev: real, wSum: real) returns (w: real, wSum': real)
    requires table.Valid() && j <= n && wPrev > 0.0
    modifies table
    ensures table.Valid() && w > 0.0
    ensures w == Weight(table.m, n, j, wPrev)
    ensures wSum' == Plus(wSum, w, 1.0 / table.m.beta2)
  {
    var k := Share(table, n, j);
    w := Weaken(wPrev, k);
    WeakenPositive(wPrev, k);
    wSum' := wSum + Over(w, table.m.beta2);
  }

  function Over(w: real, b: real): (r: real)
    requires b > 0.0
    ensures r == w * (1.0 / b)
  {
    w / b
  }

  function Weight(m: Model, n: nat, j: nat, wPrev: real): real
    requires Sound(m) && j <= n
  {
    Weaken(wPrev, if j == 0 then 1.0 else Keep(m, n - j))
  }

  // The sum so far and the weight still to be carried make up the whole sum.
  ghost predicate Weighed(m: Model, n: nat, older: nat, j: nat, wPrev: real, wSum: real)
    requires Sound(m) && older < n && j <= older + 1
  {
    if j == 0 then wPrev == 1.0 && wSum == 0.0
    else WeightSum(m, n, older) == Plus(wSum, wPrev, Carry(m, n - (j - 1), older - (j - 1)))
  }

  lemma WeighedFirst(m: Model, n: nat, older: nat, w: real, wSum: real)
    requires Sound(m) && older < n
    requires w == Weight(m, n, 0, 1.0) && wSum == Plus(0.0, w, 1.0 / m.beta2)
    ensures w == 1.0 && Weighed(m, n, older, 1, w, wSum)
  {
  }

  lemma WeighedLater(m: Model, n: nat, older: nat, j: nat, wPrev: real, wSum: real, w: real, wSum': real)
    requires Sound(m) && older < n && 0 < j <= older && Weighed(m, n, older, j, wPrev, wSum)
    requires w == Weight(m, n, j, wPrev)
    requires wSum' == Plus(wSum, w, 1.0 / m.beta2)
    ensures Weighed(m, n, older, j + 1, w, wSum')
  {
    var total, unit, rest := WeightSum(m, n, older), 1.0 / m.beta2, Carry(m, n - j, older - j);
    var carry := Carry(m, n - (j - 1), older - (j - 1));
    CarrySplits(m, n - (j - 1), older - (j - 1));
    CarryStep(total, wSum, wPrev, Keep(m, n - j), unit, rest, carry, w, wSum');
  }

  // The weight of the j-th newest performance.
  function WeightAt(m: Model, n: nat, j: nat): real
    requires Sound(m) && j <= n
  {
    Weight(m, n, j, if j == 0 then 1.0 else WeightAt(m, n, j - 1))
  }

  /** Each performance weighs the square of that share less than the one after it, and the newest weighs 1. */
  lemma WeightsFall(m: Model, n: nat, j: nat)
    requires Sound(m) && j <= n
    ensures WeightAt(m, n, 0) == 1.0
    ensures j > 0 ==>
              var v := Var(m, n - j);
              var share := v / (v + m.drift);
              WeightAt(m, n, j) == WeightAt(m, n, j - 1) * (share * share)
  {
  }

  // The summed precision of the newest k performances.
  function Precisions(m: Model, n: nat, k: nat): real
    requires Sound(m) && k <= n + 1
  {
    if k == 0 then 0.0 else Precisions(m, n, k - 1) + WeightAt(m, n, k - 1) * (1.0 / m.beta2)
  }

  /** The prior is left what all performances together leave of the precision. */
  lemma PriorGetsTheRest(m: Model, n: nat, older: nat)
    requires Sound(m) && older < n
    ensures PriorWeight(m, n, older) == 1.0 / Var(m, n) - Precisions(m, n, older + 1)
  {
    PrecisionsWeigh(m, n, older, older + 1);
  }

  lemma PrecisionsNext(m: Model, n: nat, k: nat)
    requires Sound(m) && 0 < k <= n + 1
    ensures Precisions(m, n, k) == Plus(Precisions(m, n, k - 1), WeightAt(m, n, k - 1), 1.0 / m.beta2)
    ensures WeightAt(m, n, k - 1) == Weight(m, n, k - 1, if k == 1 then 1.0 else WeightAt(m, n, k - 2))
  {
    Added(Precisions(m, n, k - 1), WeightAt(m, n, k - 1), 1.0 / m.beta2);
  }

  lemma Added(sum: real, w: real, amount: real)
    ensures Plus(sum, w, amount) == sum + w * amount
  {
  }

  lemma {:induction false} PrecisionsWeigh(m: Model, n: nat, older: nat, j: nat)
    requires Sound(m) && older < n && 0 < j <= older + 1
    ensures Weighed(m, n, older, j, WeightAt(m, n, j - 1), Precisions(m, n, j))
  {
    if j == 1 {
      PrecisionsNext(m, n, 1);
      WeighedFirst(m, n, older, WeightAt(m, n, 0), Precisions(m, n, 1));
    } else {
      PrecisionsWeigh(m, n, older, j - 1);
      PrecisionsNext(m, n, j);
      WeighedLater(m, n, older, j - 1, WeightAt(m, n, j - 2), Precisions(m, n, j - 1), WeightAt(m, n, j - 1),
                   Precisions(m, n, j));
    }
  }

  function HistoryTerms(m: Model, n: nat, all: seq<real>, sd: Spread): seq<Term>
    requires Sound(m) && |all| <= n
  {
    seq(|all|, j requires 0 <= j < |all| => Logistic(all[j], sd, WeightAt(m, n, j)))
  }

  // The precision after contest n that the newest performance and the `older` before it leave.
  function PriorWeight(m: Model, n: nat, older: nat): (w0: real)
    requires Sound(m) && older < n
    ensures w0 > 0.0
  {
    PriorWeightPositive(m, n, older);
    1.0 / Var(m, n) - WeightSum(m, n, older)
  }

  /** The logistic terms of one player's new mean, and the weight left for the prior. */
  method MeanTerms(table: VarianceTable, times: nat, all: seq<real>, sd: Spread) returns (terms: seq<Term>, w0: real)
    requires table.Valid() && 0 < |all| <= times + 1
    modifies table
    ensures table.Valid() && Proper(terms)
    ensures terms == HistoryTerms(table.m, times + 1, all, sd)
    ensures w0 == PriorWeight(table.m, times + 1, |all| - 1)
  {
    var n := times + 1;
    var wPrev: real, wSum: real := 1.0, 0.0;
    terms := [];
    for j := 0 to |all|
      invariant table.Valid() && Proper(terms)
      invariant terms == HistoryTerms(table.m, n, all[..j], sd)
      invariant Weighing(table.m, n, |all| - 1, j, wPrev, wSum)
    {
      wPrev, wSum := WeighNext(table, n, |all| - 1, j, wPrev, wSum);
      HistoryGrows(table.m, n, all, sd, j);
      terms := terms + [Logistic(all[j], sd, wPrev)];
    }
    assert all[..|all|] == all;
    var v := table.Get(n);
    w0 := 1.0 / v - wSum;
  }

  // What the loop over a history keeps after j performances.
  ghost predicate Weighing(m: Model, n: nat, older: nat, j: nat, wPrev: real, wSum: real)
    requires Sound(m) && older < n && j <= older + 1
  {
    && wPrev > 0.0 && Weighed(m, n, older, j, wPrev, wSum)
    && (j > 0 ==> wPrev == WeightAt(m, n, j - 1))
  }

  method WeighNext(table: VarianceTable, n: nat, older: nat, j: nat, wPrev: real, wSum: real)
    returns (w: real, wSum': real)
    requires table.Valid() && j <= older < n && Weighing(table.m, n, older, j, wPrev, wSum)
    modifies table
    ensures table.Valid() && w == WeightAt(table.m, n, j)
    ensures Weighing(table.m, n, older, j + 1, w, wSum')
  {
    w, wSum' := Weigh(table, n, j, wPrev, wSum);
    if j == 0 {
      WeighedFirst(table.m, n, older, w, wSum');
    } else {
      WeighedLater(table.m, n, older, j, wPrev, wSum, w, wSum');
    }
  }

  lemma HistoryGrows(m: Model, n: nat, all: seq<real>, sd: Spread, j: nat)
    requires Sound(m) && j < |all| <= n
    ensures HistoryTerms(m, n, all[..j + 1], sd) ==
            HistoryTerms(m, n, all[..j], sd) + [Logistic(all[j], sd, WeightAt(m, n, j))]
  {
  }

  // What `recalculate_ratings` gives as the new mean: where bisection of the valid range finds the
  // prior's pull and the performances balanced.
  function MeanOf(tanh: real -> real, m: Model, n: nat, all: seq<real>, oldMean: real, sd: Spread): real
    requires Sound(m) && 0 < |all| <= n
  {
    var terms, w0 := HistoryTerms(m, n, all, sd), PriorWeight(m, n, |all| - 1);
    var target := Aim(w0, EvalTanhs(tanh, terms[1..], oldMean), oldMean);
    Bisect(Objective(tanh, terms, w0), target, RANGE_LOW, RANGE_HIGH)
  }

  // ----- The equation of a new mean -----

  // What the j-th newest performance p, of weight w, pulls at x.
  function Pull(tanh: real -> real, w: real, sd: Spread, p: real, x: real): real {
    (w / sd) * tanh((x - p) / (2.0 * sd))
  }

  // What the performances from the j-th newest on pull at x, the older ones beyond what they pulled at the old mean.
  function Pulls(tanh: real -> real, m: Model, n: nat, all: seq<real>, oldMean: real, sd: Spread, x: real, j: nat): real
    requires Sound(m) && j <= |all| <= n
    decreases |all| - j
  {
    if j == |all| then 0.0
    else
      var w := WeightAt(m, n, j);
      Pull(tanh, w, sd, all[j], x) - (if j > 0 then Pull(tanh, w, sd, all[j], oldMean) else 0.0)
      + Pulls(tanh, m, n, all, oldMean, sd, x, j + 1)
  }

  // The new mean is sought where the prior, which draws to the old mean, and all performances balance.
  function Balance(tanh: real -> real, m: Model, n: nat, all: seq<real>, oldMean: real, sd: Spread): real -> real
    requires Sound(m) && 0 < |all| <= n
  {
    (x: real) => PriorWeight(m, n, |all| - 1) * (x - oldMean) + Pulls(tanh, m, n, all, oldMean, sd, x, 0)
  }

  lemma {:induction false} PullsAreTerms(tanh: real -> real, m: Model, n: nat, all: seq<real>, oldMean: real,
                                         sd: Spread, x: real, j: nat)
    requires Sound(m) && j <= |all| <= n
    ensures var terms := HistoryTerms(m, n, all, sd);
            Pulls(tanh, m, n, all, oldMean, sd, x, j) ==
            EvalTanhs(tanh, terms[j..], x) - EvalTanhs(tanh, terms[if j > 0 || all == [] then j else 1..], oldMean)
    decreases |all| - j
  {
    var terms := HistoryTerms(m, n, all, sd);
    if j < |all| {
      PullsAreTerms(tanh, m, n, all, oldMean, sd, x, j + 1);
      TermsFrom(tanh, terms, j, x);
      TermsFrom(tanh, terms, j, oldMean);
      PullIsTerm(tanh, m, n, all, sd, x, j);
      PullIsTerm(tanh, m, n, all, sd, oldMean, j);
    }
  }

  lemma TermsFrom(tanh: real -> real, terms: seq<Term>, j: nat, x: real)
    requires j < |terms|
    ensures EvalTanhs(tanh, terms[j..], x) == TermAt(tanh, terms[j], x) + EvalTanhs(tanh, terms[j + 1..], x)
  {
    assert terms[j..][1..] == terms[j + 1..] && terms[j..][0] == terms[j];
  }

  lemma PullIsTerm(tanh: real -> real, m: Model, n: nat, all: seq<real>, sd: Spread, x: real, j: nat)
    requires Sound(m) && j < |all| <= n
    ensures TermAt(tanh, HistoryTerms(m, n, all, sd)[j], x) == Pull(tanh, WeightAt(m, n, j), sd, all[j], x)
  {
  }

  lemma BalanceIsExcess(tanh: real -> real, m: Model, n: nat, all: seq<real>, oldMean: real, sd: Spread, x: real)
    requires Sound(m) && 0 < |all| <= n
    ensures var terms, w0 := HistoryTerms(m, n, all, sd), PriorWeight(m, n, |all| - 1);
            Balance(tanh, m, n, all, oldMean, sd)(x) ==
            Objective(tanh, terms, w0)(x) - Aim(w0, EvalTanhs(tanh, terms[1..], oldMean), oldMean)
  {
    var terms, w0 := HistoryTerms(m, n, all, sd), PriorWeight(m, n, |all| - 1);
    PullsAreTerms(tanh, m, n, all, oldMean, sd, x, 0);
    assert terms[0..] == terms;
    Distributes(w0, x, oldMean);
  }

  lemma BalanceIncreases(tanh: real -> real, m: Model, n: nat, all: seq<real>, oldMean: real, sd: Spread)
    requires Increasing(tanh) && Sound(m) && 0 < |all| <= n && Proper(HistoryTerms(m, n, all, sd))
    ensures Increasing(Balance(tanh, m, n, all, oldMean, sd))
  {
    var terms, w0 := HistoryTerms(m, n, all, sd), PriorWeight(m, n, |all| - 1);
    var f, g := Objective(tanh, terms, w0), Balance(tanh, m, n, all, oldMean, sd);
    ObjectiveIncreases(tanh, terms, w0);
    forall x, y | x < y ensures g(x) < g(y) {
      BalanceIsExcess(tanh, m, n, all, oldMean, sd, x);
      BalanceIsExcess(tanh, m, n, all, oldMean, sd, y);
      assert f(x) < f(y);
    }
  }

  lemma MeanIsNear(tanh: real -> real, m: Model, n: nat, all: seq<real>, oldMean: real, sd: Spread)
    requires Increasing(tanh) && Sound(m) && 0 < |all| <= n && Proper(HistoryTerms(m, n, all, sd))
    ensures Near(Balance(tanh, m, n, all, oldMean, sd), 0.0, MeanOf(tanh, m, n, all, oldMean, sd))
  {
    var terms, w0 := HistoryTerms(m, n, all, sd), PriorWeight(m, n, |all| - 1);
    var f, target := Objective(tanh, terms, w0), Aim(w0, EvalTanhs(tanh, terms[1..], oldMean), oldMean);
    ObjectiveIncreases(tanh, terms, w0);
    BisectIsNear(f, target);
    forall y ensures Balance(tanh, m, n, all, oldMean, sd)(y) == f(y) - target {
      BalanceIsExcess(tanh, m, n, all, oldMean, sd, y);
    }
    NearShifted(f, target, Balance(tanh, m, n, all, oldMean, sd), MeanOf(tanh, m, n, all, oldMean, sd));
  }

  lemma BisectIsNear(f: real -> real, target: real)
    requires Increasing(f)
    ensures Near(f, target, Bisect(f, target, RANGE_LOW, RANGE_HIGH))
  {
    BisectInBounds(f, target, RANGE_LOW, RANGE_HIGH);
    forall y | RANGE_LOW <= y <= RANGE_HIGH ensures OnItsSide(f, target, Bisect(f, target, RANGE_LOW, RANGE_HIGH), y) {
      BisectNear(f, target, RANGE_LOW, RANGE_HIGH, y);
    }
  }

  /** The exact balance point lies above, at or below the old mean just as the newest performance does. */
  lemma MeanFollowsPerformance(tanh: real -> real, m: Model, n: nat, all: seq<real>, oldMean: real, sd: Spread,
                               root: real)
    requires Increasing(tanh) && tanh(0.0) == 0.0 && Sound(m) && 0 < |all| <= n && Proper(HistoryTerms(m, n, all, sd))
    requires Balance(tanh, m, n, all, oldMean, sd)(root) == 0.0
    ensures root > oldMean <==> all[0] > oldMean
    ensures root == oldMean <==> all[0] == oldMean
  {
    var g, w := Balance(tanh, m, n, all, oldMean, sd), WeightAt(m, n, 0);
    BalanceIncreases(tanh, m, n, all, oldMean, sd);
    PullsCancel(tanh, m, n, all, oldMean, sd, 1);
    assert HistoryTerms(m, n, all, sd)[0] == Logistic(all[0], sd, w);
    SignOfTerm(tanh, Logistic(all[0], sd, w), oldMean);
    assert g(oldMean) == Pull(tanh, w, sd, all[0], oldMean);
    SignOfRise(g, root, oldMean);
  }

  lemma SignOfRise(g: real -> real, x: real, y: real)
    requires Increasing(g)
    ensures (g(x) < g(y) <==> x < y) && (g(x) == g(y) <==> x == y)
  {
    assert x < y ==> g(x) < g(y);
    assert y < x ==> g(y) < g(x);
  }

  lemma {:induction false} PullsCancel(tanh: real -> real, m: Model, n: nat, all: seq<real>, oldMean: real, sd: Spread,
                                       j: nat)
    requires Sound(m) && 0 < j <= |all| <= n
    ensures Pulls(tanh, m, n, all, oldMean, sd, oldMean, j) == 0.0
    decreases |all| - j
  {
    if j < |all| {
      PullsCancel(tanh, m, n, all, oldMean, sd, j + 1);
    }
  }

  /** The new mean of one player is near the balance point of the prior and all performances, the older ones counting
      only by how much their pull has changed. */
  method NewMean(tanh: real -> real, table: VarianceTable, times: nat, performance: real, history: seq<real>,
                 oldMean: real, sd: Spread)
    returns (mean: real)
    requires Increasing(tanh) && table.Valid() && |history| <= times
    modifies table
    ensures table.Valid() && RANGE_LOW <= mean <= RANGE_HIGH
    ensures mean == MeanOf(tanh, table.m, times + 1, [performance] + history, oldMean, sd)
    ensures Increasing(Balance(tanh, table.m, times + 1, [performance] + history, oldMean, sd))
    ensures Near(Balance(tanh, table.m, times + 1, [performance] + history, oldMean, sd), 0.0, mean)
  {
    ghost var all := [performance] + history;
    var terms, w0 := MeanTerms(table, times, [performance] + history, sd);
    var target := Aim(w0, EvalTanhs(tanh, terms[1..], oldMean), oldMean);
    MeanIsNear(tanh, table.m, times + 1, all, oldMean, sd);
    BalanceIncreases(tanh, table.m, times + 1, all, oldMean, sd);
    mean := Solve(tanh, terms, target, w0, RANGE_LOW, RANGE_HIGH);
  }

  // ----- The whole update -----

  datatype Player = Player(oldMean: real, times: nat, history: seq<real>)

  // The spread of a player's performance, where `spread` is TANH_C times the square root.
  function DeltaOf(m: Model, spread: real -> Spread, p: Player): Spread
    requires m.beta2 > 0.0 && m.drift > 0.0 && m.init > 0.0
  {
    spread(Var(m, p.times) + m.drift + m.beta2)
  }

  /** Everybody's new mean. A contest of fewer than two players changes nothing. Otherwise performances do not increase
      along the ranking, each is near the strength at which the player did as expected, and each new mean is near the
      balance of the old one and all performances. */
  method Recalculate(tanh: real -> real, spread: real -> Spread, table: VarianceTable, ranking: seq<real>,
                     players: seq<Player>)
    returns (newMean: seq<real>, newP: seq<real>)
    requires Increasing(tanh) && table.Valid() && |players| == |ranking| && Sorted(ranking)
    requires forall p :: p in players ==> |p.history| <= p.times
    modifies table
    ensures |newMean| == |newP| == |players| && table.Valid()
    ensures |players| < 2 ==> forall i :: 0 <= i < |players| ==> newMean[i] == newP[i] == players[i].oldMean
    ensures |players| >= 2 ==> forall i, j :: 0 <= i <= j < |players| ==> newP[j] <= newP[i]
    ensures |players| >= 2 ==> forall i :: 0 <= i < |players| ==>
              Near(Excess(tanh, table.m, spread, players, ranking, i), 0.0, newP[i])
    ensures |players| >= 2 ==> forall i :: 0 <= i < |players| ==>
              MeanFits(tanh, table.m, players[i], newP[i], newMean[i], spread(table.m.beta2))
  {
    var oldMeans := seq(|players|, i requires 0 <= i < |players| => players[i].oldMean);
    if |players| < 2 {
      return oldMeans, oldMeans;
    }
    var deltas := SpreadsOf(table, spread, players);
    newP := AllPerformances(tanh, ranking, oldMeans, deltas);
    forall i | 0 <= i < |players| ensures Near(Excess(tanh, table.m, spread, players, ranking, i), 0.0, newP[i]) {
      PerformanceIsNear(tanh, table.m, spread, players, ranking, i, oldMeans, deltas, newP[i]);
    }
    newMean := Means(tanh, table, players, newP, spread(table.m.beta2));
  }

  method SpreadsOf(table: VarianceTable, spread: real -> Spread, players: seq<Player>) returns (deltas: seq<Spread>)
    requires table.Valid()
    modifies table
    ensures table.Valid() && deltas == Deltas(table.m, spread, players)
  {
    deltas := [];
    for i := 0 to |players|
      invariant table.Valid() && deltas == Deltas(table.m, spread, players[..i])
    {
      var v := table.Get(players[i].times);
      deltas := deltas + [spread(v + table.m.drift + table.m.beta2)];
    }
    assert players[..|players|] == players;
  }

  function Deltas(m: Model, spread: real -> Spread, players: seq<Player>): (deltas: seq<Spread>)
    requires m.beta2 > 0.0 && m.drift > 0.0 && m.init > 0.0
    ensures |deltas| == |players|
  {
    seq(|players|, i requires 0 <= i < |players| => DeltaOf(m, spread, players[i]))
  }

  function OldMeans(players: seq<Player>): (means: seq<real>)
    ensures |means| == |players|
  {
    seq(|players|, i requires 0 <= i < |players| => players[i].oldMean)
  }

  method AllPerformances(tanh: real -> real, ranking: seq<real>, means: seq<real>, deltas: seq<Spread>)
    returns (newP: seq<real>)
    requires Increasing(tanh) && Sorted(ranking) && |ranking| == |means| == |deltas| >= 2
    ensures |newP| == |ranking| && forall i, j :: 0 <= i <= j < |newP| ==> newP[j] <= newP[i]
    ensures forall i :: 0 <= i < |newP| ==>
              Near(Objective(tanh, PlayerTerms(means, deltas), 0.0), Target(deltas, ranking, ranking[i]), newP[i])
  {
    var contest := new Contest(tanh, ranking, means, deltas);
    assert contest.terms == PlayerTerms(means, deltas);
    contest.Performances();
    newP := contest.newP[..];
    forall i | 0 <= i < |newP|
      ensures Near(Objective(tanh, PlayerTerms(means, deltas), 0.0), Target(deltas, ranking, ranking[i]), newP[i])
    {
      assert Near(contest.F(), contest.Targets()[i], newP[i]);
    }
  }

  // How far someone of strength x would have been expected to do better than player i did.
  function Excess(tanh: real -> real, m: Model, spread: real -> Spread, players: seq<Player>, ranking: seq<real>,
                  i: nat): real -> real
    requires m.beta2 > 0.0 && m.drift > 0.0 && m.init > 0.0 && i < |players| == |ranking|
  {
    (x: real) => Surplus(tanh, OldMeans(players), Deltas(m, spread, players), ranking, ranking[i], x)
  }

  lemma PerformanceIsNear(tanh: real -> real, m: Model, spread: real -> Spread, players: seq<Player>,
                          ranking: seq<real>, i: nat, means: seq<real>, deltas: seq<Spread>, p: real)
    requires m.beta2 > 0.0 && m.drift > 0.0 && m.init > 0.0 && i < |players| == |ranking|
    requires means == OldMeans(players) && deltas == Deltas(m, spread, players)
    requires Near(Objective(tanh, PlayerTerms(means, deltas), 0.0), Target(deltas, ranking, ranking[i]), p)
    ensures Near(Excess(tanh, m, spread, players, ranking, i), 0.0, p)
  {
    var f, target := Objective(tanh, PlayerTerms(means, deltas), 0.0), Target(deltas, ranking, ranking[i]);
    forall y ensures Excess(tanh, m, spread, players, ranking, i)(y) == f(y) - target {
      SurplusIsExcess(tanh, means, deltas, ranking, ranking[i], y);
    }
    NearShifted(f, target, Excess(tanh, m, spread, players, ranking, i), p);
  }

  method Means(tanh: real -> real, table: VarianceTable, players: seq<Player>, newP: seq<real>, sd: Spread)
    returns (newMean: seq<real>)
    requires Increasing(tanh) && table.Valid() && |players| == |newP|
    requires forall p :: p in players ==> |p.history| <= p.times
    modifies table
    ensures |newMean| == |players| && table.Valid()
    ensures forall i :: 0 <= i < |players| ==> MeanFits(tanh, table.m, players[i], newP[i], newMean[i], sd)
  {
    newMean := [];
    for i := 0 to |players|
      invariant table.Valid() && |newMean| == i
      invariant forall k :: 0 <= k < i ==> MeanFits(tanh, table.m, players[k], newP[k], newMean[k], sd)
    {
      var mean := MeanOfPlayer(tanh, table, players[i], newP[i], sd);
      newMean := newMean + [mean];
    }
  }

  method MeanOfPlayer(tanh: real -> real, table: VarianceTable, p: Player, performance: real, sd: Spread)
    returns (mean: real)
    requires Increasing(tanh) && table.Valid() && |p.history| <= p.times
    modifies table
    ensures table.Valid() && MeanFits(tanh, table.m, p, performance, mean, sd)
  {
    mean := NewMean(tanh, table, p.times, performance, p.history, p.oldMean, sd);
  }

  // The mean is in the valid range and near the balance point, which is the only one.
  ghost predicate MeanFits(tanh: real -> real, m: Model, p: Player, performance: real, mean: real, sd: Spread)
    requires Sound(m)
  {
    && |p.history| <= p.times && RANGE_LOW <= mean <= RANGE_HIGH
    && Increasing(Balance(tanh, m, p.times + 1, [performance] + p.history, p.oldMean, sd))
    && Near(Balance(tanh, m, p.times + 1, [performance] + p.history, p.oldMean, sd), 0.0, mean)
  }

  // w0 * p0, where p0 is the old mean moved by the history's pull e.
  function Aim(w0: real, e: real, oldMean: real): (target: real)
    requires w0 > 0.0
    ensures target == w0 * oldMean + e
  {
    PriorTarget(w0, e, oldMean);
    w0 * (e / w0 + oldMean)
  }

  lemma PriorTarget(w: real, e: real, mean: real)
    requires w > 0.0
    ensures w * (e / w + mean) == w * mean + e
  {
    assert w * (e / w) == e;
  }

  lemma SignOfTerm(tanh: real -> real, t: Term, x: real)
    requires Increasing(tanh) && tanh(0.0) == 0.0 && t.wt > 0.0
    ensures TermAt(tanh, t, x) < 0.0 <==> x < t.mu
    ensures TermAt(tanh, t, x) == 0.0 <==> x == t.mu
  {
    assert t.mu - t.mu == 0.0;
    assert TermAt(tanh, t, t.mu) == 0.0;
    if x < t.mu {
      TermIncreases(tanh, t, x, t.mu);
    } else if t.mu < x {
      TermIncreases(tanh, t, t.mu, x);
    }
  }
}
