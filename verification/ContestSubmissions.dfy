/** One user's submissions to one contest problem, and the ranking query over them. */
module ContestSubmissions {
  // `counted` says that the result is neither missing nor a compile or internal error.
  datatype Submission = Submission(date: int, points: nat, counted: bool)

  // MAX(points).
  function Best(subs: seq<Submission>): (m: nat)
    ensures forall s :: s in subs ==> s.points <= m
    ensures subs != [] ==> exists s :: s in subs && s.points == m
    ensures subs == [] ==> m == 0
  {
    if subs == [] then 0
    else
      var m := Best(subs[1..]);
      if subs[0].points > m then subs[0].points
      else
        assert subs[1..] != [] ==> exists s :: s in subs[1..] && s.points == m && s in subs;
        m
  }

  lemma {:induction false} BestIsReached(subs: seq<Submission>) returns (s: Submission)
    requires subs != []
    ensures s in subs && s.points == Best(subs)
  {
    s := subs[0];
    if subs[1..] != [] && Best(subs[1..]) >= s.points {
      s := BestIsReached(subs[1..]);
    }
  }

  // MIN(date) among those with p points.
  function FirstWith(subs: seq<Submission>, p: nat): (t: int)
    requires exists s :: s in subs && s.points == p
    ensures exists s :: s in subs && s.points == p && s.date == t
    ensures forall s :: s in subs && s.points == p ==> t <= s.date
  {
    if exists s :: s in subs[1..] && s.points == p then
      var t := FirstWith(subs[1..], p);
      assert exists s :: s in subs[1..] && s.points == p && s.date == t && s in subs;
      if subs[0].points == p && subs[0].date < t then subs[0].date else t
    else
      subs[0].date
  }

  // The submissions that satisfy p, in order.
  function Filter(subs: seq<Submission>, p: Submission -> bool): (r: seq<Submission>)
    ensures forall s :: s in r <==> s in subs && p(s)
  {
    if subs == [] then []
    else
      var rest := Filter(subs[1..], p);
      if p(subs[0]) then [subs[0]] + rest else rest
  }

  function Counted(subs: seq<Submission>): seq<Submission> {
    Filter(subs, (s: Submission) => s.counted)
  }

  // date <= t.
  function UpTo(subs: seq<Submission>, t: int): seq<Submission> {
    Filter(subs, (s: Submission) => s.date <= t)
  }

  // date < t.
  function Before(subs: seq<Submission>, t: int): (r: seq<Submission>)
    ensures forall s :: s in r <==> s in subs && s.date < t
  {
    Filter(subs, (s: Submission) => s.date < t)
  }

  lemma FilterStep(x: Submission, subs: seq<Submission>, p: Submission -> bool)
    ensures Filter([x] + subs, p) == if p(x) then [x] + Filter(subs, p) else Filter(subs, p)
  {
    assert ([x] + subs)[1..] == subs;
  }

  lemma {:induction false} FiltersCommute(subs: seq<Submission>, p: Submission -> bool, q: Submission -> bool)
    ensures Filter(Filter(subs, p), q) == Filter(Filter(subs, q), p)
  {
    if subs != [] {
      FiltersCommute(subs[1..], p, q);
      FilterStep(subs[0], Filter(subs[1..], p), q);
      FilterStep(subs[0], Filter(subs[1..], q), p);
    }
  }

  lemma {:induction false} FilterAbsorbs(subs: seq<Submission>, p: Submission -> bool, q: Submission -> bool)
    requires forall s :: q(s) ==> p(s)
    ensures Filter(Filter(subs, p), q) == Filter(subs, q)
  {
    if subs != [] {
      FilterAbsorbs(subs[1..], p, q);
      FilterStep(subs[0], Filter(subs[1..], p), q);
    }
  }

  lemma {:induction false} FilterKeepsAll(subs: seq<Submission>, p: Submission -> bool)
    requires forall s :: s in subs ==> p(s)
    ensures Filter(subs, p) == subs
  {
    if subs != [] {
      FilterKeepsAll(subs[1..], p);
    }
  }

  lemma CountedBefore(subs: seq<Submission>, freeze: int)
    ensures Counted(Before(subs, freeze)) == Before(Counted(subs), freeze)
  {
    FiltersCommute(subs, (s: Submission) => s.date < freeze, (s: Submission) => s.counted);
  }

  /** What happened up to a moment before the freeze is the same with and without what came after the freeze. */
  lemma UpToBefore(subs: seq<Submission>, t: int, freeze: int)
    requires t < freeze
    ensures UpTo(Before(subs, freeze), t) == UpTo(subs, t)
  {
    FilterAbsorbs(subs, (s: Submission) => s.date < freeze, (s: Submission) => s.date <= t);
  }

  lemma BeforeAll(subs: seq<Submission>, freeze: int)
    requires forall s :: s in subs ==> s.date < freeze
    ensures Before(subs, freeze) == subs
  {
    FilterKeepsAll(subs, (s: Submission) => s.date < freeze);
  }

  /** The best result before the freeze: never better than the best of all, and the same one at the same time when the
      best of all came before the freeze. */
  lemma BestBefore(subs: seq<Submission>, freeze: int)
    ensures Best(Before(subs, freeze)) <= Best(subs)
    ensures subs != [] && FirstWith(subs, Best(subs)) < freeze ==>
              Before(subs, freeze) != [] && Best(Before(subs, freeze)) == Best(subs) &&
              FirstWith(Before(subs, freeze), Best(subs)) == FirstWith(subs, Best(subs))
  {
    var early := Before(subs, freeze);
    if early != [] {
      var s := BestIsReached(early);
    }
    if subs != [] && FirstWith(subs, Best(subs)) < freeze {
      var s :| s in subs && s.points == Best(subs) && s.date == FirstWith(subs, Best(subs));
      assert s in early;
    }
  }

  // ----- Outcomes -----

  // How many submissions up to a moment have a result that is neither missing nor a compile or internal error.
  ghost function Tries(subs: seq<Submission>, t: int): nat {
    if subs == [] then 0 else Tries(subs[1..], t) + if subs[0].counted && subs[0].date <= t then 1 else 0
  }

  ghost function AllTries(subs: seq<Submission>): nat {
    if subs == [] then 0 else AllTries(subs[1..]) + if subs[0].counted then 1 else 0
  }

  lemma {:induction false} CountedAll(subs: seq<Submission>)
    ensures |Counted(subs)| == AllTries(subs)
  {
    if subs != [] {
      CountedAll(subs[1..]);
    }
  }

  // The best result on a problem, when it was first reached, and the tries up to that moment.
  datatype Outcome = Outcome(points: nat, time: int, tries: nat)

  ghost function OutcomeOf(subs: seq<Submission>): Outcome {
    if subs == [] then Outcome(0, 0, 0) else
    var time := FirstWith(subs, Best(subs));
    Outcome(Best(subs), time, Tries(subs, time))
  }

  ghost function Outcomes(problems: seq<seq<Submission>>): (r: seq<Outcome>)
    ensures |r| == |problems|
  {
    if problems == [] then []
    else Outcomes(problems[..|problems| - 1]) + [OutcomeOf(problems[|problems| - 1])]
  }

  // A penalty for every try but one. (A best result that is not counted itself takes one off.)
  ghost function Penalty(tries: nat, penalty: nat): int {
    if tries == 0 then 0 - penalty else if tries == 1 then 0 else Penalty(tries - 1, penalty) + penalty
  }

  lemma {:induction false} CountedTries(subs: seq<Submission>, t: int)
    ensures |UpTo(Counted(subs), t)| == Tries(subs, t)
  {
    if subs != [] {
      CountedTries(subs[1..], t);
      FilterStep(subs[0], Counted(subs[1..]), (s: Submission) => s.date <= t);
    }
  }

  lemma {:induction false} Multiplied(tries: nat, penalty: nat)
    ensures Penalty(tries, penalty) == (tries - 1) * penalty
  {
    if tries > 1 {
      Multiplied(tries - 1, penalty);
    }
  }

  // The same submissions with one more among them.
  ghost predicate OneMore(more: seq<Submission>, subs: seq<Submission>, s: Submission) {
    multiset(more) == multiset(subs + [s])
  }

  lemma {:induction false} TriesSplit(a: seq<Submission>, b: seq<Submission>, t: int)
    ensures Tries(a + b, t) == Tries(a, t) + Tries(b, t)
  {
    if a == [] {
      assert a + b == b;
    } else {
      assert (a + b)[1..] == a[1..] + b;
      TriesSplit(a[1..], b, t);
    }
  }

  lemma TakeOut(subs: seq<Submission>, k: nat, t: int)
    requires k < |subs|
    ensures multiset(subs[..k] + subs[k + 1..]) == multiset(subs) - multiset{subs[k]}
    ensures Tries(subs, t) ==
            Tries(subs[..k] + subs[k + 1..], t) + if subs[k].counted && subs[k].date <= t then 1 else 0
  {
    var before, after := subs[..k], subs[k + 1..];
    assert subs == before + ([subs[k]] + after);
    TriesSplit(before, [subs[k]] + after, t);
    TriesSplit([subs[k]], after, t);
    TriesSplit(before, after, t);
  }

  // The first submission of a, taken out of both.
  lemma TakeFirst(a: seq<Submission>, b: seq<Submission>, t: int) returns (rest: seq<Submission>)
    requires multiset(a) == multiset(b) && a != []
    ensures multiset(a[1..]) == multiset(rest) && Tries(a, t) - Tries(a[1..], t) == Tries(b, t) - Tries(rest, t)
  {
    assert a[0] in multiset(b);
    var k :| 0 <= k < |b| && b[k] == a[0];
    rest := b[..k] + b[k + 1..];
    TakeOut(b, k, t);
    assert a == [a[0]] + a[1..];
  }

  /** The number of tries is a matter of which submissions there are, not of their order. */
  lemma {:induction false} TriesIgnoreOrder(a: seq<Submission>, b: seq<Submission>, t: int)
    requires multiset(a) == multiset(b)
    ensures Tries(a, t) == Tries(b, t)
  {
    if a == [] {
      assert |multiset(b)| == 0;
    } else {
      var rest := TakeFirst(a, b, t);
      TriesIgnoreOrder(a[1..], rest, t);
    }
  }

  lemma OneMoreTries(more: seq<Submission>, subs: seq<Submission>, s: Submission, t: int)
    requires OneMore(more, subs, s)
    ensures Tries(more, t) == Tries(subs, t) + if s.counted && s.date <= t then 1 else 0
    ensures forall x :: x in more <==> x in subs || x == s
  {
    TriesIgnoreOrder(more, subs + [s], t);
    TriesSplit(subs, [s], t);
    forall x ensures x in more <==> x in subs || x == s {
      assert x in multiset(more) <==> x in multiset(subs + [s]);
    }
  }

  /** One more submission that does not reach the best result of its problem is one more try, if it is counted and was
      made no later than that result, and otherwise no change at all. */
  lemma OneMoreOutcome(more: seq<Submission>, subs: seq<Submission>, s: Submission)
    requires OneMore(more, subs, s) && s.points < Best(subs)
    ensures var o := OutcomeOf(subs);
            OutcomeOf(more) == o.(tries := o.tries + if s.counted && s.date <= o.time then 1 else 0)
  {
    OneMoreTries(more, subs, s, FirstWith(subs, Best(subs)));
  }

  lemma {:induction false} OutcomesAfter(after: seq<seq<Submission>>, problems: seq<seq<Submission>>, i: nat)
    requires i < |problems| == |after| && forall j :: 0 <= j < |problems| && j != i ==> after[j] == problems[j]
    ensures Outcomes(problems)[i] == OutcomeOf(problems[i])
    ensures Outcomes(after) == Outcomes(problems)[i := OutcomeOf(after[i])]
  {
    var n := |problems| - 1;
    if i < n {
      OutcomesAfter(after[..n], problems[..n], i);
    } else {
      assert after[..n] == problems[..n];
    }
  }
}
