/** Ranks of a scoreboard in which equal keys share the middle of the places they fill. */
module TieRanks {
  // The first and the one-past-last position of the run of equal keys around i.
  function Start<K(==)>(keys: seq<K>, i: nat): (s: nat)
    requires i < |keys|
    ensures s <= i && (s == 0 || keys[s - 1] != keys[s])
    ensures forall j :: s <= j <= i ==> keys[j] == keys[i]
  {
    if i == 0 || keys[i - 1] != keys[i] then i else Start(keys, i - 1)
  }

  function End<K(==)>(keys: seq<K>, i: nat): (e: nat)
    requires i < |keys|
    ensures i < e <= |keys| && (e == |keys| || keys[e - 1] != keys[e])
    ensures forall j :: i <= j < e ==> keys[j] == keys[i]
    decreases |keys| - i
  {
    if i + 1 == |keys| || keys[i + 1] != keys[i] then i + 1 else End(keys, i + 1)
  }

  // The average of the places Start + 1 .. End.
  function Middle(s: nat, e: nat): real {
    ((s + 1 + e) as real) / 2.0
  }

  ghost predicate IsRanking<K>(keys: seq<K>, ranks: seq<real>) {
    |ranks| == |keys| && RankedSoFar(keys, ranks)
  }

  lemma RunIs<K>(keys: seq<K>, s: nat, i: nat, e: nat)
    requires s <= i < e <= |keys|
    requires forall j :: s <= j < e ==> keys[j] == keys[s]
    requires (s == 0 || keys[s - 1] != keys[s]) && (e == |keys| || keys[e] != keys[s])
    ensures Start(keys, i) == s && End(keys, i) == e
  {
    StartIs(keys, s, i);
    EndIs(keys, i, e);
  }

  lemma {:induction false} StartIs<K>(keys: seq<K>, s: nat, i: nat)
    requires s <= i < |keys| && forall j :: s <= j <= i ==> keys[j] == keys[s]
    requires s == 0 || keys[s - 1] != keys[s]
    ensures Start(keys, i) == s
  {
    if s < i {
      StartIs(keys, s, i - 1);
    }
  }

  lemma {:induction false} EndIs<K>(keys: seq<K>, i: nat, e: nat)
    requires i < e <= |keys| && forall j :: i <= j < e ==> keys[j] == keys[i]
    requires e == |keys| || keys[e] != keys[i]
    ensures End(keys, i) == e
    decreases e - i
  {
    if i + 1 < e {
      EndIs(keys, i + 1, e);
    }
  }

  /** `tie_ranker`: the buffered run is given its rank when the key changes. */
  method TieRanker<K(==)>(keys: seq<K>) returns (ranks: seq<real>)
    ensures IsRanking(keys, ranks)
  {
    var rank, delta, buf := 0, 1, 0;
    ranks := [];
    for i := 0 to |keys|
      invariant |ranks| + buf == i && (i == 0 ==> rank == 0 && delta == 1)
      invariant i > 0 ==> delta == buf > 0 && rank == |ranks| + 1
      invariant forall j :: |ranks| <= j < i ==> keys[j] == keys[|ranks|]
      invariant i > 0 && |ranks| > 0 ==> keys[|ranks| - 1] != keys[|ranks|]
      invariant RankedSoFar(keys, ranks)
    {
      if i == 0 || keys[i] != keys[i - 1] {
        ranks := Flush(keys, ranks, rank, delta, buf);
        rank, delta, buf := rank + delta, 0, 0;
      }
      delta, buf := delta + 1, buf + 1;
    }
    ranks := Flush(keys, ranks, rank, delta, buf);
  }

  ghost predicate RankedSoFar<K>(keys: seq<K>, ranks: seq<real>) {
    |ranks| <= |keys| && forall j :: 0 <= j < |ranks| ==> ranks[j] == Middle(Start(keys, j), End(keys, j))
  }

  lemma RankNext<K>(keys: seq<K>, ranks: seq<real>, s: nat, e: nat, shared: real)
    requires RankedSoFar(keys, ranks) && s <= |ranks| < e <= |keys| && shared == Middle(s, e)
    requires forall j :: s <= j < e ==> keys[j] == keys[s]
    requires (s == 0 || keys[s - 1] != keys[s]) && (e == |keys| || keys[e] != keys[s])
    ensures RankedSoFar(keys, ranks + [shared])
  {
    RunIs(keys, s, |ranks|, e);
  }

  // Yields the rank of the buffered run once for each of its members.
  method Flush<K(==)>(keys: seq<K>, yielded: seq<real>, rank: int, delta: int, buf: nat) returns (ranks: seq<real>)
    requires |yielded| + buf <= |keys| && (buf > 0 ==> delta == buf && rank == |yielded| + 1)
    requires forall j :: |yielded| <= j < |yielded| + buf ==> keys[j] == keys[|yielded|]
    requires buf > 0 && |yielded| > 0 ==> keys[|yielded| - 1] != keys[|yielded|]
    requires buf > 0 && |yielded| + buf < |keys| ==> keys[|yielded| + buf] != keys[|yielded|]
    requires RankedSoFar(keys, yielded)
    ensures |ranks| == |yielded| + buf && RankedSoFar(keys, ranks)
  {
    var shared := rank as real + (delta - 1) as real / 2.0;
    SharedIsMiddle(|yielded|, rank, delta, buf, shared);
    ranks := yielded;
    for n := 0 to buf
      invariant |ranks| == |yielded| + n && RankedSoFar(keys, ranks)
    {
      RankNext(keys, ranks, |yielded|, |yielded| + buf, shared);
      ranks := ranks + [shared];
    }
  }

  lemma SharedIsMiddle(s: nat, rank: int, delta: int, buf: nat, shared: real)
    requires (buf > 0 ==> delta == buf && rank == s + 1) && shared == rank as real + (delta - 1) as real / 2.0
    ensures buf > 0 ==> shared == Middle(s, s + buf)
  {
  }

  function Sum(s: seq<real>): real {
    if s == [] then 0.0 else Sum(s[..|s| - 1]) + s[|s| - 1]
  }

  function Times(n: nat, c: real): real {
    n as real * c
  }

  function Triangle(n: nat): real {
    (n * (n + 1)) as real / 2.0
  }

  lemma TimesNext(n: nat, c: real)
    ensures Times(0, c) == 0.0 && Times(n + 1, c) == Times(n, c) + c
  {
  }

  lemma {:induction false} SumOfRun(s: seq<real>, a: nat, b: nat, c: real)
    requires a <= b <= |s| && forall i :: a <= i < b ==> s[i] == c
    ensures Sum(s[..b]) == Sum(s[..a]) + Times(b - a, c)
  {
    TimesNext(0, c);
    if a < b {
      SumOfRun(s, a, b - 1, c);
      TimesNext(b - 1 - a, c);
      assert s[..b][..b - 1] == s[..b - 1];
    }
  }

  /** Sharing places conserves them: the ranks of n members always add up to 1 + 2 + ... + n. */
  lemma RanksAddUp<K>(keys: seq<K>, ranks: seq<real>)
    requires IsRanking(keys, ranks)
    ensures Sum(ranks) == Triangle(|keys|)
  {
    PlacesAddUp(keys, ranks, |keys|);
    assert ranks[..|keys|] == ranks;
  }

  lemma {:induction false} PlacesAddUp<K>(keys: seq<K>, ranks: seq<real>, e: nat)
    requires IsRanking(keys, ranks) && e <= |keys|
    requires 0 < e < |keys| ==> keys[e - 1] != keys[e]
    ensures Sum(ranks[..e]) == Triangle(e)
  {
    if e > 0 {
      var s := Start(keys, e - 1);
      PlacesAddUp(keys, ranks, s);
      forall i | s <= i < e ensures ranks[i] == Middle(s, e) {
        RunIs(keys, s, i, e);
      }
      SumOfRun(ranks, s, e, Middle(s, e));
      Places(s, e);
    }
  }

  lemma Places(s: nat, e: nat)
    requires s <= e
    ensures Triangle(s) + Times(e - s, Middle(s, e)) == Triangle(e)
  {
    assert (e - s) * (s + 1 + e) == e * (e + 1) - s * (s + 1);
    assert (e - s) as real * (s + 1 + e) as real == ((e - s) * (s + 1 + e)) as real;
  }

  /** Ranks never fall along the scoreboard, and are equal exactly within a run of equal keys. */
  lemma RanksGrow<K>(keys: seq<K>, ranks: seq<real>, i: nat, j: nat)
    requires IsRanking(keys, ranks) && i <= j < |keys|
    ensures ranks[i] <= ranks[j]
    ensures ranks[i] == ranks[j] <==> j < End(keys, i)
  {
    var s, e := Start(keys, i), End(keys, i);
    if j < e {
      RunIs(keys, s, j, e);
    } else {
      var s', e' := Start(keys, j), End(keys, j);
      var last, next := keys[e - 1], keys[e];
      assert s' < e ==> last == next;
    }
  }

  // A scoreboard in order: whoever stands earlier has the same key or a strictly better one.
  ghost predicate InOrder<K(!new)>(keys: seq<K>, better: (K, K) -> bool) {
    && (forall a, b :: better(a, b) ==> !better(b, a))
    && (forall i, j :: 0 <= i < j < |keys| ==> keys[i] == keys[j] || better(keys[i], keys[j]))
  }

  ghost function Betters<K>(keys: seq<K>, better: (K, K) -> bool, k: K): set<nat> {
    set j: nat | j < |keys| && better(keys[j], k)
  }

  ghost function Equals<K>(keys: seq<K>, k: K): set<nat> {
    set j: nat | j < |keys| && keys[j] == k
  }

  /** On an ordered scoreboard a rank is the number of strictly better members plus half of one
      more than the number of equal ones. */
  lemma RankCountsBetters<K(!new)>(keys: seq<K>, better: (K, K) -> bool, ranks: seq<real>, i: nat)
    requires IsRanking(keys, ranks) && InOrder(keys, better) && i < |keys|
    ensures ranks[i] == |Betters(keys, better, keys[i])| as real + (|Equals(keys, keys[i])| + 1) as real / 2.0
  {
    var s, e := Start(keys, i), End(keys, i);
    forall j: nat | j < |keys|
      ensures j < s <==> better(keys[j], keys[i])
      ensures s <= j < e <==> keys[j] == keys[i]
    {
      RunSeparates(keys, better, i, j);
    }
    assert Betters(keys, better, keys[i]) == Interval(0, s);
    assert Equals(keys, keys[i]) == Interval(s, e);
  }

  lemma RunSeparates<K(!new)>(keys: seq<K>, better: (K, K) -> bool, i: nat, j: nat)
    requires InOrder(keys, better) && i < |keys| && j < |keys|
    ensures j < Start(keys, i) <==> better(keys[j], keys[i])
    ensures Start(keys, i) <= j < End(keys, i) <==> keys[j] == keys[i]
  {
    var s, e := Start(keys, i), End(keys, i);
    if j < s {
      Apart(keys, better, j, s, i);
    } else if e <= j {
      Apart(keys, better, i, e, j);
    }
  }

  lemma Apart<K(!new)>(keys: seq<K>, better: (K, K) -> bool, i: nat, b: nat, j: nat)
    requires InOrder(keys, better) && i < b <= j < |keys| && keys[b - 1] != keys[b]
    requires keys[b - 1] == keys[i] || keys[b] == keys[j]
    ensures better(keys[i], keys[j]) && !better(keys[j], keys[i]) && keys[i] != keys[j]
  {
    var x, y, last, next := keys[i], keys[j], keys[b - 1], keys[b];
    assert better(last, next);
    assert x == last || better(x, last);
    assert y == next || better(next, y);
    assert x == y || better(x, y);
  }

  ghost function Interval(a: nat, b: nat): (s: set<nat>)
    requires a <= b
    ensures |s| == b - a && forall j: nat :: j in s <==> a <= j < b
  {
    if a == b then {} else Interval(a, b - 1) + {b - 1}
  }
}
