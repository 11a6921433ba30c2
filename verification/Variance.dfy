/** The rating system's variance after t rated contests, and the deduction shown to users. */
module Variance {
  // The three constants of the model: the variance of one performance, the variance of a
  // newcomer, and the variance added by every contest.
  datatype Model = Model(beta2: real, init: real, drift: real)

  const MODEL: Model := Model(328.33 * 328.33,
                              40000.0 * ((328.33 * 328.33) / 44944.0),
                              1219.047619 * ((328.33 * 328.33) / 44944.0))

  // All constants are positive, and a newcomer is above the limit.
  ghost predicate Sound(m: Model) {
    && m.beta2 > 0.0 && m.init > 0.0 && m.drift > 0.0
    && m.init * m.init + m.drift * m.init > m.drift * m.beta2
  }

  lemma ModelIsSound()
    ensures Sound(MODEL)
  {
  }

  // One rated contest: the drift of a contest is added, and one performance is observed.
  function Next(m: Model, v: real): real
    requires m.beta2 > 0.0 && m.drift > 0.0 && v > 0.0
  {
    1.0 / (1.0 / (v + m.drift) + 1.0 / m.beta2)
  }

  function Var(m: Model, t: nat): (v: real)
    requires m.beta2 > 0.0 && m.drift > 0.0 && m.init > 0.0
    ensures v > 0.0
  {
    if t == 0 then m.init else Next(m, Var(m, t - 1))
  }

  // VAR_LIM, as the positive root of v^2 + c v = c BETA2 that its closed form denotes.
  ghost predicate IsLimit(m: Model, l: real) {
    l > 0.0 && l * l + m.drift * l == m.drift * m.beta2
  }

  /** The table that get_var keeps between calls. */
  class VarianceTable {
    const m: Model
    var cache: seq<real>

    ghost predicate Valid()
      reads this
    {
      Sound(m) && |cache| > 0 && forall i :: 0 <= i < |cache| ==> cache[i] == Var(m, i)
    }

    constructor (m: Model)
      requires Sound(m)
      ensures Valid() && this.m == m && cache == [m.init]
    {
      this.m := m;
      cache := [m.init];
    }

    /** Whatever was asked before, the answer is the recurrence's. */
    method Get(t: nat) returns (v: real)
      requires Valid()
      modifies this
      ensures Valid() && v == Var(m, t)
      ensures old(cache) <= cache && |cache| == if t < |old(cache)| then |old(cache)| else t + 1
    {
      while t >= |cache|
        invariant Valid() && old(cache) <= cache
        invariant |cache| > |old(cache)| ==> |cache| <= t + 1
        decreases t - |cache|
      {
        cache := cache + [Next(m, cache[|cache| - 1])];
      }
      v := cache[t];
    }
  }

  lemma NextForm(m: Model, v: real)
    requires m.beta2 > 0.0 && m.drift > 0.0 && v > 0.0
    ensures Next(m, v) * (v + m.drift + m.beta2) == m.beta2 * (v + m.drift)
    ensures 0.0 < Next(m, v)
    ensures 1.0 / Next(m, v) == 1.0 / (v + m.drift) + 1.0 / m.beta2
  {
    Harmonic(v + m.drift, m.beta2);
  }

  lemma Harmonic(a: real, b: real)
    requires a > 0.0 && b > 0.0
    ensures 1.0 / a + 1.0 / b > 0.0
    ensures var h := 1.0 / (1.0 / a + 1.0 / b); h > 0.0 && h * (a + b) == b * a && 1.0 / h == 1.0 / a + 1.0 / b
  {
    var s := 1.0 / a + 1.0 / b;
    assert s * (a * b) == a + b by {
      assert (1.0 / a) * a == 1.0 && (1.0 / b) * b == 1.0;
      assert s * (a * b) == ((1.0 / a) * a) * b + ((1.0 / b) * b) * a;
    }
    var h := 1.0 / s;
    assert h * s == 1.0;
    assert h * (a + b) == (h * s) * (a * b);
    assert 1.0 / h == s;
  }

  /** The closed form of VAR_LIM, with r = sqrt(c^2 + 4 BETA2 c), is the limit, and the only one. */
  lemma ClosedForm(m: Model, r: real, l: real)
    requires Sound(m) && r >= 0.0 && r * r == m.drift * m.drift + 4.0 * m.beta2 * m.drift
    ensures IsLimit(m, l) <==> l == (r - m.drift) / 2.0
  {
    var c, b := m.drift, m.beta2;
    var x := (r - c) / 2.0;
    Positive(b, c, b * c);
    assert (r - c) * (r + c) == r * r - c * c;
    PositiveFactor(r - c, r + c, (r - c) * (r + c));
    assert x * x + c * x == x * (x + c);
    assert x * (x + c) == (r - c) * (r + c) / 4.0;
    if l > 0.0 {
      if l < x { SquareGrows(l, x, c); }
      if x < l { SquareGrows(x, l, c); }
    }
  }

  /** One contest moves the variance strictly towards the limit, by a factor that does not
      depend on where it is. */
  lemma NextTowardsLimit(m: Model, v: real, l: real)
    requires Sound(m) && IsLimit(m, l) && v > l
    ensures l < Next(m, v) < v
    ensures (Next(m, v) - l) * (l + m.drift + m.beta2) <= m.beta2 * (v - l)
  {
    NextForm(m, v);
    LimitBelowBeta(m.beta2, m.drift, l);
    Towards(m.beta2, m.drift, l, v, Next(m, v));
  }

  lemma Towards(b: real, c: real, l: real, v: real, n: real)
    requires 0.0 < c && 0.0 < l < v && l < b
    requires n * (v + c + b) == b * (v + c) && l * l + c * l == c * b
    ensures l < n < v && (n - l) * (l + c + b) <= b * (v - l)
  {
    NextGaps(b, c, l, v, n);
    Positive(b - l, v - l, (b - l) * (v - l));
    PositiveFactor(n - l, v + c + b, (b - l) * (v - l));
    SquareGrows(l, v, c);
    PositiveFactor(v - n, v + c + b, v * v + c * v - b * c);
    LessTimes(n - l, l + c + b, v + c + b);
    LessTimes(v - l, b - l, b);
  }

  // The algebra of one step: n (v + c + b) = b (v + c) and l (l + c) = b c.
  lemma NextGaps(b: real, c: real, l: real, v: real, n: real)
    requires n * (v + c + b) == b * (v + c) && l * l + c * l == c * b
    ensures (n - l) * (v + c + b) == (b - l) * (v - l)
    ensures (v - n) * (v + c + b) == v * v + c * v - b * c
  {
    assert (n - l) * (v + c + b) == n * (v + c + b) - l * v - c * l - l * b;
    assert (b - l) * (v - l) == b * v - b * l - l * v + l * l;
    assert b * (v + c) == b * v + b * c;
    assert (v - n) * (v + c + b) == v * v + v * c + v * b - n * (v + c + b);
  }

  lemma LimitBelowBeta(b: real, c: real, l: real)
    requires c > 0.0 && l > 0.0 && l * l + c * l == c * b
    ensures l < b
  {
    Positive(l, l, l * l);
    if b <= l {
      LessTimes(c, b, l);
    }
  }

  // Products are named, so that the solver keeps them apart.
  lemma Positive(x: real, y: real, p: real)
    requires x > 0.0 && y > 0.0 && p == x * y
    ensures p > 0.0
  {
  }

  lemma PositiveFactor(x: real, y: real, p: real)
    requires p == x * y && p > 0.0 && y > 0.0
    ensures x > 0.0
  {
  }

  lemma LessTimes(x: real, y: real, z: real)
    requires x >= 0.0 && y <= z
    ensures x * y <= x * z
  {
  }

  lemma SquareGrows(x: real, y: real, c: real)
    requires 0.0 <= x < y && c >= 0.0
    ensures x * x + c * x < y * y + c * y
  {
    assert y * y - x * x == (y - x) * (y + x);
    Positive(y - x, y + x, (y - x) * (y + x));
    LessTimes(c, x, y);
  }

  /** Every contest lowers the variance, and none takes it to the limit. */
  lemma {:induction false} VarDecreases(m: Model, t: nat, l: real)
    requires Sound(m) && IsLimit(m, l)
    ensures l < Var(m, t + 1) < Var(m, t)
  {
    AboveLimit(m, t, l);
    NextTowardsLimit(m, Var(m, t), l);
  }

  lemma {:induction false} AboveLimit(m: Model, t: nat, l: real)
    requires Sound(m) && IsLimit(m, l)
    ensures l < Var(m, t)
  {
    if t == 0 {
      var v, c := m.init, m.drift;
      assert v * v + c * v > c * m.beta2;
      assert (v - l) * (v + l + c) == v * v + c * v - (l * l + c * l);
      PositiveFactor(v - l, v + l + c, (v - l) * (v + l + c));
    } else {
      AboveLimit(m, t - 1, l);
      NextTowardsLimit(m, Var(m, t - 1), l);
    }
  }

  lemma {:induction false} VarStrictlyDecreasing(m: Model, s: nat, t: nat, l: real)
    requires Sound(m) && IsLimit(m, l) && s < t
    ensures Var(m, t) < Var(m, s)
  {
    VarDecreases(m, t - 1, l);
    if s < t - 1 {
      VarStrictlyDecreasing(m, s, t - 1, l);
    }
  }

  // After t contests the excess is divided by at least this.
  ghost function Decay(m: Model, l: real, t: nat): (f: real)
    requires Sound(m) && l > 0.0
    ensures f >= 1.0
  {
    var h := (l + m.drift) / m.beta2;
    assert h > 0.0;
    1.0 + (t as real) * h
  }

  /** The excess over the limit vanishes at least as fast as 1/t. */
  lemma {:induction false} VarConverges(m: Model, t: nat, l: real)
    requires Sound(m) && IsLimit(m, l)
    ensures (Var(m, t) - l) * Decay(m, l, t) <= m.init - l
  {
    if t == 0 {
      assert Decay(m, l, 0) == 1.0;
    } else {
      VarConverges(m, t - 1, l);
      var e, e' := Excess(m, t, l);
      ConvergeStep(m, m.init - l, e, e', l, t - 1);
    }
  }

  lemma Excess(m: Model, t: nat, l: real) returns (e: real, e': real)
    requires Sound(m) && IsLimit(m, l) && t > 0
    ensures e == Var(m, t - 1) - l && e' == Var(m, t) - l
    ensures e' >= 0.0 && e' * (l + m.drift + m.beta2) <= m.beta2 * e
  {
    AboveLimit(m, t - 1, l);
    AboveLimit(m, t, l);
    NextTowardsLimit(m, Var(m, t - 1), l);
    e, e' := Var(m, t - 1) - l, Var(m, t) - l;
  }

  lemma ConvergeStep(m: Model, e0: real, e: real, e': real, l: real, t: nat)
    requires Sound(m) && l > 0.0 && e' >= 0.0
    requires e * Decay(m, l, t) <= e0 && e' * (l + m.drift + m.beta2) <= m.beta2 * e
    ensures e' * Decay(m, l, t + 1) <= e0
  {
    Rescale(m.beta2, l + m.drift, e, e');
    ShrinkStep(e, e', (l + m.drift) / m.beta2, t as real);
  }

  // If one step divides by at least 1 + h, a bound of order 1 / (1 + s h) carries over.
  lemma ShrinkStep(e: real, e': real, h: real, s: real)
    requires e' >= 0.0 && h >= 0.0 && s >= 0.0 && e' * (1.0 + h) <= e
    ensures e' * (1.0 + (s + 1.0) * h) <= e * (1.0 + s * h)
  {
    var g := 1.0 + s * h;
    assert h * h >= 0.0;
    LessTimes(s, 0.0, h * h);
    assert (1.0 + h) * g == 1.0 + (s + 1.0) * h + s * (h * h);
    LessTimes(e', 1.0 + (s + 1.0) * h, (1.0 + h) * g);
    assert e' * ((1.0 + h) * g) == (e' * (1.0 + h)) * g;
    LessTimes(g, e' * (1.0 + h), e);
  }

  lemma Rescale(b: real, k: real, e: real, e': real)
    requires b > 0.0 && e' * (k + b) <= b * e
    ensures e' * (1.0 + k / b) <= e
  {
    var h := k / b;
    assert b * h == k;
    assert b * (e' * (1.0 + h)) == e' * (k + b);
    Cancel(b, e' * (1.0 + h), e);
  }

  lemma Cancel(k: real, x: real, y: real)
    requires k > 0.0 && k * x <= k * y
    ensures x <= y
  {
  }

  /** With s = sqrt(Var(t)), s' = sqrt(Var(t + 1)) and d = SD_LIM: the deduction s' - d from a
      displayed rating is positive, smaller than the one before this contest, and vanishes at
      least as fast as 1/t. */
  lemma {:induction false} DeductionShrinks(m: Model, t: nat, l: real, d: real, s: real, s': real)
    requires Sound(m) && IsLimit(m, l) && d > 0.0 && d * d == l
    requires s > 0.0 && s * s == Var(m, t) && s' > 0.0 && s' * s' == Var(m, t + 1)
    ensures 0.0 < s' - d < s - d
    ensures (s' - d) * d * Decay(m, l, t + 1) <= m.init - l
  {
    VarDecreases(m, t, l);
    RootGrows(d, s');
    RootGrows(s', s);
    VarConverges(m, t + 1, l);
    RootGapBound(s', d, l, Var(m, t + 1), Decay(m, l, t + 1), m.init - l);
  }

  lemma RootGapBound(s: real, d: real, l: real, v: real, f: real, bound: real)
    requires 0.0 < d < s && f > 0.0 && l == d * d && v == s * s && (v - l) * f <= bound
    ensures (s - d) * d * f <= bound
  {
    assert (s - d) * (s + d) == v - l;
    LessTimes(s - d, d, s + d);
    LessTimes(f, (s - d) * d, v - l);
  }

  lemma RootGrows(x: real, y: real)
    requires x > 0.0 && y > 0.0 && x * x < y * y
    ensures x < y
  {
    assert y * y - x * x == (y - x) * (y + x);
    PositiveFactor(y - x, y + x, (y - x) * (y + x));
  }
}
