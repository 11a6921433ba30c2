/** Root finding for the rating update: bisection of a strictly increasing function. */
module Solver {
  import opened Options

  ghost predicate Increasing(f: real -> real) {
    forall x, y :: x < y ==> f(x) < f(y)
  }

  // One logistic term of a performance or rating estimate.
  datatype Logistic = Logistic(mu: real, sd: real, wt: real)
  type Term = t: Logistic | t.sd > 0.0 witness Logistic(0.0, 1.0, 1.0)

  ghost predicate Proper(terms: seq<Term>) {
    forall i :: 0 <= i < |terms| ==> terms[i].wt > 0.0
  }

  function TermAt(tanh: real -> real, t: Term, x: real): real {
    (t.wt / t.sd) * tanh((x - t.mu) / (2.0 * t.sd))
  }

  function EvalTanhs(tanh: real -> real, terms: seq<Term>, x: real): real {
    if terms == [] then 0.0 else TermAt(tanh, terms[0], x) + EvalTanhs(tanh, terms[1..], x)
  }

  // The function whose root is sought: a line plus the terms.
  function ValueAt(tanh: real -> real, terms: seq<Term>, lin: real, x: real): real {
    lin * x + EvalTanhs(tanh, terms, x)
  }

  function Objective(tanh: real -> real, terms: seq<Term>, lin: real): real -> real {
    (x: real) => ValueAt(tanh, terms, lin, x)
  }

  lemma TermIncreases(tanh: real -> real, t: Term, x: real, y: real)
    requires Increasing(tanh) && t.wt > 0.0 && x < y
    ensures TermAt(tanh, t, x) < TermAt(tanh, t, y)
  {
    var a, b, d := x - t.mu, y - t.mu, 2.0 * t.sd;
    assert b / d - a / d == (b - a) / d > 0.0;
    var k := t.wt / t.sd;
    assert k > 0.0;
    var u, v := tanh(a / d), tanh(b / d);
    assert u < v;
    assert k * v - k * u == k * (v - u);
    assert k * (v - u) > 0.0;
  }

  lemma {:induction false} TermsIncrease(tanh: real -> real, terms: seq<Term>, x: real, y: real)
    requires Increasing(tanh) && Proper(terms) && x < y
    ensures EvalTanhs(tanh, terms, x) <= EvalTanhs(tanh, terms, y)
    ensures terms != [] ==> EvalTanhs(tanh, terms, x) < EvalTanhs(tanh, terms, y)
  {
    if terms != [] {
      TermIncreases(tanh, terms[0], x, y);
      TermsIncrease(tanh, terms[1..], x, y);
    }
  }

  /** A positive slope, or at least one term, makes the objective strictly increasing. */
  lemma ObjectiveIncreases(tanh: real -> real, terms: seq<Term>, lin: real)
    requires Increasing(tanh) && Proper(terms)
    requires lin > 0.0 || (lin == 0.0 && terms != [])
    ensures Increasing(Objective(tanh, terms, lin))
  {
    var f := Objective(tanh, terms, lin);
    forall x: real, y: real | x < y ensures f(x) < f(y) {
      TermsIncrease(tanh, terms, x, y);
      assert lin > 0.0 ==> lin * (y - x) > 0.0;
      assert lin * y - lin * x == lin * (y - x);
    }
  }

  // What `solve` computes: bisect down to a bracket of length 2, then interpolate.
  function Bisect(f: real -> real, target: real, l: real, r: real): real
    decreases (r - l).Floor
  {
    if r - l > 2.0 then
      var x := (l + r) / 2.0;
      Halves(l, r);
      if f(x) > target then Bisect(f, target, l, x)
      else if f(x) < target then Bisect(f, target, x, r)
      else x
    else Interpolate(f, target, l, r)
  }

  function Interpolate(f: real -> real, target: real, l: real, r: real): real {
    if target <= f(l) then l
    else if target >= f(r) then r
    else
      Mix(l, r, (target - f(l)) / (f(r) - f(l)))
  }

  function Mix(l: real, r: real, ratio: real): real {
    l * (1.0 - ratio) + r * ratio
  }

  lemma Halves(l: real, r: real)
    requires r - l > 2.0
    ensures var x := (l + r) / 2.0; (r - x).Floor < (r - l).Floor && (x - l).Floor < (r - l).Floor
    ensures (r - l).Floor >= 0
  {
  }

  /** `solve`, with the objective's values at the bracket kept once computed. */
  method Solve(tanh: real -> real, terms: seq<Term>, target: real, lin: real, lo: real, hi: real) returns (x: real)
    ensures x == Bisect(Objective(tanh, terms, lin), target, lo, hi)
  {
    ghost var f := Objective(tanh, terms, lin);
    var l, r := lo, hi;
    var ly: Option<real>, ry: Option<real> := None, None;
    while r - l > 2.0
      invariant Bisect(f, target, l, r) == Bisect(f, target, lo, hi)
      invariant (ly.Some? ==> ly.value == f(l)) && (ry.Some? ==> ry.value == f(r))
      decreases (r - l).Floor
    {
      x := (l + r) / 2.0;
      Halves(l, r);
      var y := ValueAt(tanh, terms, lin, x);
      if y > target {
        r, ry := x, Some(y);
      } else if y < target {
        l, ly := x, Some(y);
      } else {
        return x;
      }
    }
    assert Bisect(f, target, l, r) == Interpolate(f, target, l, r);
    assert f(l) == ValueAt(tanh, terms, lin, l) && f(r) == ValueAt(tanh, terms, lin, r);
    if ly.None? {
      ly := Some(ValueAt(tanh, terms, lin, l));
    }
    if target <= ly.value {
      return l;
    }
    if ry.None? {
      ry := Some(ValueAt(tanh, terms, lin, r));
    }
    if target >= ry.value {
      return r;
    }
    return Mix(l, r, (target - ly.value) / (ry.value - ly.value));
  }

  lemma MixInBounds(l: real, r: real, a: real, b: real)
    requires l <= r && 0.0 < a < b
    ensures l <= Mix(l, r, a / b) <= r
  {
    var q := a / b;
    Quotient(a, b, q);
    Product(r - l, q);
    assert Mix(l, r, q) == l + (r - l) * q;
  }

  lemma Quotient(a: real, b: real, q: real)
    requires 0.0 < a < b && q == a / b
    ensures 0.0 < q < 1.0
  {
    QuotientOf(a, b, q);
  }

  lemma QuotientOf(a: real, b: real, q: real)
    requires 0.0 < a < b && q * b == a
    ensures 0.0 < q < 1.0
  {
    assert (1.0 - q) * b == b - a;
    if q <= 0.0 {
      NotPositive(q, b, q * b);
    }
    if q >= 1.0 {
      NotPositive(1.0 - q, b, (1.0 - q) * b);
    }
  }

  lemma NotPositive(x: real, y: real, p: real)
    requires x <= 0.0 && y >= 0.0 && p == x * y
    ensures p <= 0.0
  {
  }

  lemma Product(d: real, q: real)
    requires d >= 0.0 && 0.0 <= q <= 1.0
    ensures 0.0 <= d * q <= d
  {
  }

  lemma InterpolateInBounds(f: real -> real, target: real, l: real, r: real)
    requires l <= r
    ensures l <= Interpolate(f, target, l, r) <= r
  {
    if f(l) < target < f(r) {
      MixInBounds(l, r, target - f(l), f(r) - f(l));
    }
  }

  /** Whether or not the target is reached at all, the result lies in the bracket, is an end of it when the target lies
      beyond, and no point of the bracket more than 2 away from it is on the wrong side of the target. */
  lemma {:induction false} BisectNear(f: real -> real, target: real, l: real, r: real, y: real)
    requires Increasing(f) && l <= y <= r
    ensures var x := Bisect(f, target, l, r);
            && l <= x <= r && (target <= f(l) ==> x == l) && (target >= f(r) ==> x == r)
            && (f(y) <= target ==> y <= x + 2.0) && (f(y) >= target ==> x - 2.0 <= y)
    decreases (r - l).Floor
  {
    if r - l > 2.0 {
      var x := (l + r) / 2.0;
      Halves(l, r);
      if f(x) > target {
        BisectNear(f, target, l, x, if y < x then y else x);
      } else if f(x) < target {
        BisectNear(f, target, x, r, if y > x then y else x);
      }
    } else {
      InterpolateInBounds(f, target, l, r);
      assert l < r ==> f(l) < f(r);
    }
  }

  /** The result lies in the bracket, is an end of it when the root is not strictly inside, and is otherwise within 2 of
      the root. */
  lemma BisectAccurate(f: real -> real, target: real, l: real, r: real, root: real)
    requires Increasing(f) && l <= r && f(root) == target
    ensures var x := Bisect(f, target, l, r);
            && l <= x <= r
            && (root <= l ==> x == l) && (root >= r ==> x == r)
            && (l <= root <= r ==> -2.0 <= x - root <= 2.0)
  {
    BisectNear(f, target, l, r, if root < l then l else if root > r then r else root);
    assert root < l ==> f(root) < f(l);
    assert r < root ==> f(r) < f(root);
  }

  lemma {:induction false} BisectInBounds(f: real -> real, target: real, l: real, r: real)
    requires Increasing(f) && l <= r
    ensures l <= Bisect(f, target, l, r) <= r
    decreases (r - l).Floor
  {
    if r - l > 2.0 {
      var x := (l + r) / 2.0;
      Halves(l, r);
      if f(x) > target {
        BisectInBounds(f, target, l, x);
      } else if f(x) < target {
        BisectInBounds(f, target, x, r);
      }
    } else {
      InterpolateInBounds(f, target, l, r);
    }
  }

  /** A larger target never gives a smaller result, also when neither has an exact root. */
  lemma {:induction false} BisectMonotone(f: real -> real, t: real, t': real, l: real, r: real)
    requires Increasing(f) && l <= r && t <= t'
    ensures Bisect(f, t, l, r) <= Bisect(f, t', l, r)
    decreases (r - l).Floor
  {
    if r - l > 2.0 {
      var x := (l + r) / 2.0;
      Halves(l, r);
      BisectInBounds(f, t, l, x);
      BisectInBounds(f, t', x, r);
      if f(x) > t' {
        BisectMonotone(f, t, t', l, x);
      } else if f(x) < t {
        BisectMonotone(f, t, t', x, r);
      }
    } else {
      BisectInBounds(f, t, l, r);
      BisectInBounds(f, t', l, r);
      if f(l) < t && t' < f(r) {
        InterpolateMonotone(l, r, f(l), f(r), t, t');
      }
    }
  }

  lemma InterpolateMonotone(l: real, r: real, fl: real, fr: real, t: real, t': real)
    requires l <= r && fl < t <= t' < fr
    ensures Mix(l, r, (t - fl) / (fr - fl)) <= Mix(l, r, (t' - fl) / (fr - fl))
  {
    var d := fr - fl;
    QuotientMonotone(t - fl, t' - fl, d);
    MixMonotone(l, r, (t - fl) / d, (t' - fl) / d);
  }

  lemma QuotientMonotone(a: real, b: real, d: real)
    requires a <= b && d > 0.0
    ensures a / d <= b / d
  {
  }

  lemma MixMonotone(l: real, r: real, p: real, q: real)
    requires l <= r && p <= q
    ensures Mix(l, r, p) <= Mix(l, r, q)
  {
    assert Mix(l, r, q) - Mix(l, r, p) == (r - l) * (q - p);
  }
}
