/** Sums over finite sets, in whatever order their elements are taken. */
module Sums {
  ghost function SumOver<K(!new)>(keys: set<K>, f: K -> real): real {
    if keys == {} then 0.0
    else
      var k :| k in keys;
      f(k) + SumOver(keys - {k}, f)
  }

  lemma {:induction false} SumWithout<K(!new)>(keys: set<K>, f: K -> real, k: K)
    requires k in keys
    ensures SumOver(keys, f) == f(k) + SumOver(keys - {k}, f)
    decreases keys
  {
    var first :| first in keys && SumOver(keys, f) == f(first) + SumOver(keys - {first}, f);
    if first != k {
      SumWithout(keys - {first}, f, k);
      SumWithout(keys - {k}, f, first);
      assert keys - {first} - {k} == keys - {k} - {first};
    }
  }

  lemma {:induction false} SumGrows<K(!new)>(keys: set<K>, more: set<K>, f: K -> real, g: K -> real)
    requires keys <= more
    requires (forall k :: k in keys ==> f(k) <= g(k)) && (forall k :: k in more ==> g(k) >= 0.0)
    ensures SumOver(keys, f) <= SumOver(more, g)
    decreases more
  {
    if more != {} {
      var k :| k in more;
      SumWithout(more, g, k);
      if k in keys {
        SumWithout(keys, f, k);
        SumGrows(keys - {k}, more - {k}, f, g);
      } else {
        SumGrows(keys, more - {k}, f, g);
      }
    }
  }

  lemma {:induction false} SumSame<K(!new)>(keys: set<K>, f: K -> real, g: K -> real)
    requires forall k :: k in keys ==> f(k) == g(k)
    ensures SumOver(keys, f) == SumOver(keys, g)
    decreases keys
  {
    if keys != {} {
      var k :| k in keys;
      SumWithout(keys, f, k);
      SumWithout(keys, g, k);
      SumSame(keys - {k}, f, g);
    }
  }

  lemma {:induction false} SumScaled<K(!new)>(keys: set<K>, f: K -> real, g: K -> real, rate: real)
    requires forall k :: k in keys ==> g(k) == f(k) * rate
    ensures SumOver(keys, g) == SumOver(keys, f) * rate
    decreases keys
  {
    if keys != {} {
      var k :| k in keys;
      SumWithout(keys, f, k);
      SumWithout(keys, g, k);
      SumScaled(keys - {k}, f, g, rate);
      Distribute(f(k), SumOver(keys - {k}, f), rate);
    }
  }

  lemma Distribute(x: real, y: real, rate: real)
    ensures (x + y) * rate == x * rate + y * rate
  {
  }
}
