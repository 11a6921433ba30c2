/** Per-batch scoring: the best row of every problem and batch, and what a participation makes of them. */
module BatchResults {
  import opened Sums

  type Problem = nat
  type Batch = nat
  type Key = (Problem, Batch)

  datatype Points = Points(points: real, total: real)

  // A submission to a contest problem. Batch 0 stands for the cases outside any batch.
  datatype Submission = Submission(id: nat, problem: Problem, date: int, done: bool, legacy: bool,
                                   casePoints: real, caseTotal: real, batches: map<Batch, Points>)

  // The contest's points for a problem, and whether contest and problem both give partial points.
  datatype Value = Value(points: real, partial: bool)

  datatype Contest = Contest(values: map<Problem, Value>, tolerance: real)

  function Abs(x: real): real {
    if x < 0.0 then -x else x
  }

  // The share of the problem's points that a batch earned.
  function Scaled(c: Contest, s: Submission, b: Batch): real
    requires s.problem in c.values && b in s.batches
  {
    var v := c.values[s.problem];
    if s.caseTotal <= 0.0 then 0.0
    else if !s.legacy && !v.partial && Abs(s.casePoints - s.caseTotal) > Abs(s.caseTotal) * c.tolerance then 0.0
    else s.batches[b].points * v.points / s.caseTotal
  }

  // Every submission is to a problem of the contest and has its own id.
  ghost predicate Proper(c: Contest, subs: seq<Submission>) {
    && (forall s :: s in subs ==> s.problem in c.values)
    && (forall s, t :: s in subs && t in subs && s.id == t.id ==> s == t)
  }

  ghost predicate NoNegativePoints(c: Contest, subs: seq<Submission>) {
    && (forall p :: p in c.values ==> c.values[p].points >= 0.0)
    && (forall s, b :: s in subs && b in s.batches ==> s.batches[b].points >= 0.0)
  }

  lemma ScaledIsNotNegative(c: Contest, subs: seq<Submission>, s: Submission, b: Batch)
    requires Proper(c, subs) && NoNegativePoints(c, subs) && s in subs && b in s.batches
    ensures Scaled(c, s, b) >= 0.0
  {
    NotNegative(s.batches[b].points, c.values[s.problem].points, s.caseTotal);
  }

  lemma NotNegative(x: real, y: real, z: real)
    requires x >= 0.0 && y >= 0.0
    ensures z > 0.0 ==> x * y / z >= 0.0
  {
    var p := x * y;
    assert p >= 0.0;
    assert z > 0.0 ==> p / z >= 0.0;
  }

  // A finished submission with a result for the batch.
  predicate Scores(s: Submission, k: Key) {
    s.done && s.problem == k.0 && k.1 in s.batches
  }

  // batch_points DESC, date ASC, subid ASC.
  predicate Precedes(c: Contest, s: Submission, t: Submission, b: Batch)
    requires s.problem in c.values && t.problem in c.values && b in s.batches && b in t.batches
  {
    var x, y := Scaled(c, s, b), Scaled(c, t, b);
    x > y || (x == y && (s.date < t.date || (s.date == t.date && s.id <= t.id)))
  }

  /** The row of rank 1: it precedes every other. */
  ghost predicate IsBest(c: Contest, subs: seq<Submission>, k: Key, s: Submission)
    requires Proper(c, subs)
  {
    s in subs && Scores(s, k) && forall t :: t in subs && Scores(t, k) ==> Precedes(c, s, t, k.1)
  }

  function Keys(subs: seq<Submission>): (keys: set<Key>)
    ensures forall k :: k in keys <==> exists s :: s in subs && Scores(s, k)
  {
    if subs == [] then {}
    else
      var s := subs[0];
      var rest := Keys(subs[1..]);
      assert forall k :: (exists t :: t in subs && Scores(t, k)) <==>
               Scores(s, k) || exists t :: t in subs[1..] && Scores(t, k);
      if s.done then rest + set b | b in s.batches :: (s.problem, b) else rest
  }

  // The row of rank 1, by one scan.
  function BestOf(c: Contest, subs: seq<Submission>, k: Key): (s: Submission)
    requires Proper(c, subs) && k in Keys(subs)
    ensures IsBest(c, subs, k, s)
  {
    if k in Keys(subs[1..]) then
      var s := BestOf(c, subs[1..], k);
      if Scores(subs[0], k) && Precedes(c, subs[0], s, k.1) then subs[0] else s
    else subs[0]
  }

  lemma BestIsUnique(c: Contest, subs: seq<Submission>, k: Key, s: Submission, t: Submission)
    requires Proper(c, subs) && IsBest(c, subs, k, s) && IsBest(c, subs, k, t)
    ensures s == t
  {
  }

  /** No other finished submission earned more on the batch, none as much earlier, and none as much at the same time
      with a smaller number. */
  lemma BestEarnsMost(c: Contest, subs: seq<Submission>, k: Key, t: Submission)
    requires Proper(c, subs) && t in subs && t.done && t.problem == k.0 && k.1 in t.batches
    ensures k in Keys(subs)
    ensures var s := BestOf(c, subs, k);
            && s.done && s.problem == k.0 && k.1 in s.batches
            && Scaled(c, t, k.1) <= Scaled(c, s, k.1)
            && (Scaled(c, t, k.1) == Scaled(c, s, k.1) ==> s.date <= t.date)
            && (Scaled(c, t, k.1) == Scaled(c, s, k.1) && t.date == s.date ==> s.id <= t.id)
  {
    assert Scores(t, k);
    assert Precedes(c, BestOf(c, subs, k), t, k.1);
  }

  // What a submission's batches earned in cases, and in points of the contest.
  ghost function CasesOf(s: Submission): Batch -> real {
    b => if b in s.batches then s.batches[b].points else 0.0
  }

  ghost function SharesOf(c: Contest, s: Submission): Batch -> real
    requires s.problem in c.values
  {
    b => if b in s.batches then Scaled(c, s, b) else 0.0
  }

  lemma SharesInProportion(c: Contest, s: Submission)
    requires s.problem in c.values && s.caseTotal > 0.0
    requires s.legacy || c.values[s.problem].partial || Abs(s.casePoints - s.caseTotal) <= s.caseTotal * c.tolerance
    ensures SumOver(s.batches.Keys, SharesOf(c, s)) ==
            SumOver(s.batches.Keys, CasesOf(s)) * (c.values[s.problem].points / s.caseTotal)
  {
    var rate := c.values[s.problem].points / s.caseTotal;
    forall b | b in s.batches ensures SharesOf(c, s)(b) == CasesOf(s)(b) * rate {
      AtRate(s.batches[b].points, c.values[s.problem].points, s.caseTotal);
    }
    SumScaled(s.batches.Keys, CasesOf(s), SharesOf(c, s), rate);
  }

  lemma AtRate(x: real, v: real, z: real)
    requires z > 0.0
    ensures x * v / z == x * (v / z)
  {
  }

  /** A submission that earned all its cases gets all the points that the contest gives for the problem; where points
      are all or nothing, one that earned less gets none for any batch. */
  lemma FullMarks(c: Contest, s: Submission)
    requires s.problem in c.values && s.caseTotal > 0.0
    ensures SumOver(s.batches.Keys, CasesOf(s)) == s.caseTotal == s.casePoints && c.tolerance >= 0.0 ==>
              SumOver(s.batches.Keys, SharesOf(c, s)) == c.values[s.problem].points
    ensures !s.legacy && !c.values[s.problem].partial && s.casePoints < s.caseTotal - s.caseTotal * c.tolerance ==>
              forall b :: b in s.batches ==> Scaled(c, s, b) == 0.0
  {
    if SumOver(s.batches.Keys, CasesOf(s)) == s.caseTotal == s.casePoints && c.tolerance >= 0.0 {
      NotNegative(s.caseTotal, c.tolerance, 1.0);
      SharesInProportion(c, s);
    }
  }

  /** Which rows the query returns does not depend on the order of the submissions. */
  lemma OrderDoesNotMatter(c: Contest, subs: seq<Submission>, other: seq<Submission>, k: Key)
    requires Proper(c, subs) && Proper(c, other) && (forall s :: s in subs <==> s in other)
    ensures Keys(subs) == Keys(other)
    ensures k in Keys(subs) ==> BestOf(c, subs, k) == BestOf(c, other, k)
  {
    if k in Keys(subs) {
      BestIsUnique(c, subs, k, BestOf(c, subs, k), BestOf(c, other, k));
    }
  }

  // A batch counts for the best that any submission earned on it; a batch nobody has a result for counts nothing.
  function BatchScore(c: Contest, subs: seq<Submission>, k: Key): (r: real)
    requires Proper(c, subs)
    ensures forall s :: s in subs && Scores(s, k) ==> Scaled(c, s, k.1) <= r
  {
    if k in Keys(subs) then Scaled(c, BestOf(c, subs, k), k.1) else 0.0
  }

  lemma BatchScoreIsNotNegative(c: Contest, subs: seq<Submission>, k: Key)
    requires Proper(c, subs) && NoNegativePoints(c, subs)
    ensures BatchScore(c, subs, k) >= 0.0
  {
    if k in Keys(subs) {
      ScaledIsNotNegative(c, subs, BestOf(c, subs, k), k.1);
    }
  }

  // ----- The newest submission only -----

  predicate Newer(t: Submission, s: Submission) {
    t.date > s.date || (t.date == s.date && t.id > s.id)
  }

  predicate Outdated(subs: seq<Submission>, s: Submission) {
    exists t :: t in subs && t.problem == s.problem && t.done && Newer(t, s)
  }

  // What `latest=True` leaves of the finished submissions, scanned against all of them.
  function Latest(subs: seq<Submission>, all: seq<Submission>): (r: seq<Submission>)
    ensures forall s :: s in r <==> s in subs && s.done && !Outdated(all, s)
  {
    if subs == [] then []
    else (if subs[0].done && !Outdated(all, subs[0]) then [subs[0]] else []) + Latest(subs[1..], all)
  }

  /** Of each problem at most one submission is left: the newest finished one. */
  lemma LatestIsNewest(c: Contest, subs: seq<Submission>, s: Submission)
    requires Proper(c, subs) && s in subs && s.done
    ensures s in Latest(subs, subs) <==>
            forall t :: t in subs && t.done && t.problem == s.problem && t != s ==> Newer(s, t)
  {
  }

  /** All rows of one problem come from the same submission, so no result of an older one can slip in. */
  lemma LatestRowsAgree(c: Contest, subs: seq<Submission>, k: Key, l: Key)
    requires Proper(c, subs) && k in Keys(Latest(subs, subs)) && l in Keys(Latest(subs, subs)) && k.0 == l.0
    ensures BestOf(c, Latest(subs, subs), k) == BestOf(c, Latest(subs, subs), l)
  {
    var s, t := BestOf(c, Latest(subs, subs), k), BestOf(c, Latest(subs, subs), l);
    LatestIsNewest(c, subs, s);
    LatestIsNewest(c, subs, t);
  }
}
