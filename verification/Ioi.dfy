/** The IOI scoreboard: every problem's visible batches, each at the best that was earned on it. */
module Ioi {
  import opened BatchResults
  import opened Sums

  datatype Row = Row(problem: Problem, date: int, batch: Batch, points: real)

  type Hidden = map<Problem, set<Batch>>

  // Cases outside any batch are never hidden.
  predicate Visible(hidden: Hidden, k: Key) {
    k.1 == 0 || k.0 !in hidden || k.1 !in hidden[k.0]
  }

  // The rows of the query, one for each problem and batch, in the order of `keys`.
  function Rows(c: Contest, subs: seq<Submission>, keys: seq<Key>): seq<Row>
    requires Proper(c, subs) && forall k :: k in keys ==> k in Keys(subs)
  {
    if keys == [] then []
    else Rows(c, subs, keys[..|keys| - 1]) + [RowFor(c, subs, keys[|keys| - 1])]
  }

  function RowFor(c: Contest, subs: seq<Submission>, k: Key): Row
    requires Proper(c, subs) && k in Keys(subs)
  {
    var s := BestOf(c, subs, k);
    Row(k.0, s.date, k.1, Scaled(c, s, k.1))
  }

  function VisibleScore(c: Contest, subs: seq<Submission>, hidden: Hidden): Key -> real
    requires Proper(c, subs)
  {
    (k: Key) => if Visible(hidden, k) then BatchScore(c, subs, k) else 0.0
  }

  /** The score by definition: the sum over all visible batches. */
  ghost function Score(c: Contest, subs: seq<Submission>, hidden: Hidden): real
    requires Proper(c, subs)
  {
    SumOver(Keys(subs), VisibleScore(c, subs, hidden))
  }

  /** The score is a matter of which submissions there are, not of their order. */
  lemma ScoreIgnoresOrder(c: Contest, subs: seq<Submission>, other: seq<Submission>, hidden: Hidden)
    requires Proper(c, subs) && Proper(c, other) && (forall s :: s in subs <==> s in other)
    ensures Score(c, subs, hidden) == Score(c, other, hidden)
  {
    OrderDoesNotMatter(c, subs, other, (0, 0));
    forall k ensures BatchScore(c, subs, k) == BatchScore(c, other, k) {
      OrderDoesNotMatter(c, subs, other, k);
    }
    SumSame(Keys(subs), VisibleScore(c, subs, hidden), VisibleScore(c, other, hidden));
  }

  /** More submissions never lower the score. */
  lemma ScoreNeverDrops(c: Contest, subs: seq<Submission>, more: seq<Submission>, hidden: Hidden)
    requires Proper(c, subs) && Proper(c, more) && NoNegativePoints(c, more) && (forall s :: s in subs ==> s in more)
    ensures Score(c, subs, hidden) <= Score(c, more, hidden)
  {
    forall k
      ensures BatchScore(c, more, k) >= 0.0
      ensures k in Keys(subs) ==> k in Keys(more) && BatchScore(c, subs, k) <= BatchScore(c, more, k)
    {
      BatchScoreIsNotNegative(c, more, k);
      if k in Keys(subs) {
        assert Scores(BestOf(c, subs, k), k);
      }
    }
    SumGrows(Keys(subs), Keys(more), VisibleScore(c, subs, hidden), VisibleScore(c, more, hidden));
  }

  // What one submission earned on its visible batches.
  function Earned(c: Contest, s: Submission, hidden: Hidden): Key -> real
    requires s.problem in c.values
  {
    (k: Key) => if Visible(hidden, k) && k.1 in s.batches then Scaled(c, s, k.1) else 0.0
  }

  /** The score is at least what any single finished submission earned. */
  lemma ScoreCoversEach(c: Contest, subs: seq<Submission>, s: Submission, hidden: Hidden)
    requires Proper(c, subs) && NoNegativePoints(c, subs) && s in subs && s.done
    ensures SumOver((set b | b in s.batches :: (s.problem, b)), Earned(c, s, hidden)) <= Score(c, subs, hidden)
  {
    var keys := set b | b in s.batches :: (s.problem, b);
    forall k | k in keys ensures k in Keys(subs) && Earned(c, s, hidden)(k) <= VisibleScore(c, subs, hidden)(k) {
      assert Scores(s, k);
    }
    forall k | k in Keys(subs) ensures VisibleScore(c, subs, hidden)(k) >= 0.0 {
      BatchScoreIsNotNegative(c, subs, k);
    }
    SumGrows(keys, Keys(subs), Earned(c, s, hidden), VisibleScore(c, subs, hidden));
  }

  // ----- The participation -----

  // Points and seconds; `useTime` says that the contest breaks ties by time.
  datatype ProblemData = ProblemData(points: real, time: real)

  datatype Rules = Rules(hidden: Hidden, useTime: bool, start: int)

  type Board = map<Problem, ProblemData>

  function Touch(data: Board, row: Row, rules: Rules): Board {
    var d := if row.problem in data then data[row.problem] else ProblemData(0.0, 0.0);
    var dt := if rules.useTime then (row.date - rules.start) as real else 0.0;
    data[row.problem := if Visible(rules.hidden, (row.problem, row.batch))
                        then ProblemData(d.points + row.points, if dt > d.time then dt else d.time) else d]
  }

  function PointsIn(data: Board): Problem -> real {
    p => if p in data then data[p].points else 0.0
  }

  function TimesIn(data: Board): Problem -> real {
    p => if p in data && data[p].points != 0.0 then data[p].time else 0.0
  }

  lemma TouchAdds(data: Board, row: Row, rules: Rules)
    ensures var after := Touch(data, row, rules);
            SumOver(after.Keys, PointsIn(after)) ==
            SumOver(data.Keys, PointsIn(data)) + if Visible(rules.hidden, (row.problem, row.batch)) then row.points
              else 0.0
  {
    var after := Touch(data, row, rules);
    var p := row.problem;
    SumWithout(after.Keys, PointsIn(after), p);
    SumSame(after.Keys - {p}, PointsIn(data), PointsIn(after));
    if p in data {
      SumWithout(data.Keys, PointsIn(data), p);
      assert after.Keys == data.Keys;
    } else {
      assert after.Keys - {p} == data.Keys;
    }
  }

  // All rows, one after the other.
  function Collected(rows: seq<Row>, rules: Rules): Board {
    if rows == [] then map[] else Touch(Collected(rows[..|rows| - 1], rules), rows[|rows| - 1], rules)
  }

  /** Summing by problems is summing by rows, and that is the score. */
  lemma CollectedScore(c: Contest, subs: seq<Submission>, keys: seq<Key>, rules: Rules)
    requires Proper(c, subs) && (forall k :: k in keys <==> k in Keys(subs))
    requires Distinct(keys)
    ensures var data := Collected(Rows(c, subs, keys), rules);
            SumOver(data.Keys, PointsIn(data)) == Score(c, subs, rules.hidden)
  {
    CollectedSum(c, subs, keys, rules);
    RowSumIsScore(c, subs, keys, rules.hidden);
    assert Elements(keys) == Keys(subs);
  }

  lemma {:induction false} CollectedSum(c: Contest, subs: seq<Submission>, keys: seq<Key>, rules: Rules)
    requires Proper(c, subs) && forall k :: k in keys ==> k in Keys(subs)
    ensures var data := Collected(Rows(c, subs, keys), rules);
            SumOver(data.Keys, PointsIn(data)) == RowSum(c, subs, keys, rules.hidden)
  {
    if keys != [] {
      var n := |keys| - 1;
      CollectedSum(c, subs, keys[..n], rules);
      var rows, row := Rows(c, subs, keys[..n]), RowFor(c, subs, keys[n]);
      assert (rows + [row])[..|rows|] == rows;
      TouchAdds(Collected(rows, rules), row, rules);
    }
  }

  // What a user earned on the visible batches of one problem, among the first problems and batches of the query.
  ghost function EarnedOn(c: Contest, subs: seq<Submission>, keys: seq<Key>, p: Problem, hidden: Hidden): real
    requires Proper(c, subs) && forall k :: k in keys ==> k in Keys(subs)
  {
    if keys == [] then 0.0 else
    var k := keys[|keys| - 1];
    EarnedOn(c, subs, keys[..|keys| - 1], p, hidden) +
    if k.0 == p && Visible(hidden, k) then BatchScore(c, subs, k) else 0.0
  }

  // When the best result of a batch was reached, in seconds from the start, if the contest breaks ties by time.
  ghost function ReachedAt(c: Contest, subs: seq<Submission>, k: Key, rules: Rules): real
    requires Proper(c, subs) && k in Keys(subs)
  {
    if rules.useTime then (BestOf(c, subs, k).date - rules.start) as real else 0.0
  }

  // The last of these moments, over the visible batches of a problem.
  ghost predicate IsLastOn(time: real, c: Contest, subs: seq<Submission>, keys: seq<Key>, p: Problem, rules: Rules)
    requires Proper(c, subs) && forall k :: k in keys ==> k in Keys(subs)
  {
    && time >= 0.0
    && (forall b :: (p, b) in keys && Visible(rules.hidden, (p, b)) ==> ReachedAt(c, subs, (p, b), rules) <= time)
    && (time > 0.0 ==>
          exists b :: (p, b) in keys && Visible(rules.hidden, (p, b)) && ReachedAt(c, subs, (p, b), rules) == time)
  }

  ghost predicate IsBoard(data: Board, c: Contest, subs: seq<Submission>, keys: seq<Key>, rules: Rules)
    requires Proper(c, subs) && forall k :: k in keys ==> k in Keys(subs)
  {
    && (forall p :: p in data <==> exists b :: (p, b) in keys)
    && (forall p :: p in data ==>
          data[p].points == EarnedOn(c, subs, keys, p, rules.hidden) && IsLastOn(data[p].time, c, subs, keys, p, rules))
  }

  lemma {:induction false} NothingOn(c: Contest, subs: seq<Submission>, keys: seq<Key>, p: Problem, hidden: Hidden)
    requires Proper(c, subs) && (forall k :: k in keys ==> k in Keys(subs)) && forall b :: (p, b) !in keys
    ensures EarnedOn(c, subs, keys, p, hidden) == 0.0
  {
    if keys != [] {
      var k := keys[|keys| - 1];
      assert (k.0, k.1) in keys;
      NothingOn(c, subs, keys[..|keys| - 1], p, hidden);
    }
  }

  // One more row keeps the other problems as they are, and brings its own up to date.
  lemma BoardNext(data: Board, c: Contest, subs: seq<Submission>, keys: seq<Key>, k: Key, rules: Rules)
    requires Proper(c, subs) && (forall x :: x in keys + [k] ==> x in Keys(subs)) && k in Keys(subs)
    requires IsBoard(data, c, subs, keys, rules)
    ensures IsBoard(Touch(data, RowFor(c, subs, k), rules), c, subs, keys + [k], rules)
  {
    var after := Touch(data, RowFor(c, subs, k), rules);
    forall p: Problem ensures p in after <==> exists b :: (p, b) in keys + [k] {
      KeysNext(keys, k, p);
    }
    forall p | p in after
      ensures after[p].points == EarnedOn(c, subs, keys + [k], p, rules.hidden)
      ensures IsLastOn(after[p].time, c, subs, keys + [k], p, rules)
    {
      ProblemNext(data, c, subs, keys, k, p, rules);
    }
  }

  lemma ProblemNext(data: Board, c: Contest, subs: seq<Submission>, keys: seq<Key>, k: Key, p: Problem, rules: Rules)
    requires Proper(c, subs) && (forall x :: x in keys + [k] ==> x in Keys(subs)) && k in Keys(subs)
    requires IsBoard(data, c, subs, keys, rules) && (p in data || p == k.0)
    ensures var after := Touch(data, RowFor(c, subs, k), rules);
            && after[p].points == EarnedOn(c, subs, keys + [k], p, rules.hidden)
            && IsLastOn(after[p].time, c, subs, keys + [k], p, rules)
  {
    if p !in data {
      NothingOn(c, subs, keys, p, rules.hidden);
    }
    var before := if p in data then data[p] else ProblemData(0.0, 0.0);
    EarnedNext(before.points, c, subs, keys, k, p, rules.hidden);
    LastOnNext(before.time, Touch(data, RowFor(c, subs, k), rules)[p].time, c, subs, keys, k, p, rules);
  }

  lemma KeysNext(keys: seq<Key>, k: Key, p: Problem)
    ensures (exists b :: (p, b) in keys + [k]) <==> p == k.0 || exists b :: (p, b) in keys
  {
    assert (k.0, k.1) in keys + [k];
    if b :| (p, b) in keys {
      assert (p, b) in keys + [k];
    }
  }

  lemma EarnedNext(before: real, c: Contest, subs: seq<Submission>, keys: seq<Key>, k: Key, p: Problem, hidden: Hidden)
    requires Proper(c, subs) && (forall x :: x in keys + [k] ==> x in Keys(subs)) && k in Keys(subs)
    requires before == EarnedOn(c, subs, keys, p, hidden)
    ensures EarnedOn(c, subs, keys + [k], p, hidden) ==
            before + if k.0 == p && Visible(hidden, k) then RowFor(c, subs, k).points else 0.0
  {
    assert (keys + [k])[..|keys|] == keys;
  }

  lemma LastOnNext(before: real, time: real, c: Contest, subs: seq<Submission>, keys: seq<Key>, k: Key, p: Problem,
                   rules: Rules)
    requires Proper(c, subs) && (forall x :: x in keys + [k] ==> x in Keys(subs)) && k in Keys(subs)
    requires IsLastOn(before, c, subs, keys, p, rules)
    requires time == if k.0 == p && Visible(rules.hidden, k) && ReachedAt(c, subs, k, rules) > before
                     then ReachedAt(c, subs, k, rules) else before
    ensures IsLastOn(time, c, subs, keys + [k], p, rules)
  {
    assert forall b :: (p, b) in keys + [k] <==> (p, b) in keys || (p, b) == k;
    if time > before {
      assert (p, k.1) in keys + [k] && ReachedAt(c, subs, (p, k.1), rules) == time;
    }
  }

  lemma CollectedNext(c: Contest, subs: seq<Submission>, keys: seq<Key>, rules: Rules)
    requires Proper(c, subs) && keys != [] && forall k :: k in keys ==> k in Keys(subs)
    ensures var n := |keys| - 1;
            Collected(Rows(c, subs, keys), rules) ==
            Touch(Collected(Rows(c, subs, keys[..n]), rules), RowFor(c, subs, keys[n]), rules)
  {
    var n := |keys| - 1;
    var rows, row := Rows(c, subs, keys[..n]), RowFor(c, subs, keys[n]);
    assert (rows + [row])[..|rows|] == rows;
  }

  /** The board holds for every problem with a row what was earned on its visible batches, and when the last of that was
      reached. */
  lemma {:induction false} CollectedBoard(c: Contest, subs: seq<Submission>, keys: seq<Key>, rules: Rules)
    requires Proper(c, subs) && forall k :: k in keys ==> k in Keys(subs)
    ensures IsBoard(Collected(Rows(c, subs, keys), rules), c, subs, keys, rules)
  {
    if keys != [] {
      var n := |keys| - 1;
      CollectedBoard(c, subs, keys[..n], rules);
      CollectedNext(c, subs, keys, rules);
      assert keys == keys[..n] + [keys[n]];
      BoardNext(Collected(Rows(c, subs, keys[..n]), rules), c, subs, keys[..n], keys[n], rules);
    }
  }

  class Participation {
    var score: real
    var cumtime: real
    var formatData: Board

    constructor ()
    {
      score, cumtime, formatData := 0.0, 0.0, map[];
    }

    /** Recomputes the row; `keys` is the order in which the query returns the problems' batches. */
    method UpdateParticipation(c: Contest, subs: seq<Submission>, keys: seq<Key>, rules: Rules)
      requires Proper(c, subs) && (forall k :: k in keys <==> k in Keys(subs))
      requires Distinct(keys)
      modifies this
      ensures score == Score(c, subs, rules.hidden)
      ensures formatData == Collected(Rows(c, subs, keys), rules) && IsBoard(formatData, c, subs, keys, rules)
      ensures var time := if rules.useTime then SumOver(formatData.Keys, TimesIn(formatData)) else 0.0;
              cumtime == if time < 0.0 then 0.0 else time
    {
      var rows := Rows(c, subs, keys);
      var data: Board := map[];
      for i := 0 to |rows|
        invariant data == Collected(rows[..i], rules)
      {
        assert rows[..i + 1][..i] == rows[..i];
        data := Touch(data, rows[i], rules);
      }
      assert rows[..|rows|] == rows;
      CollectedScore(c, subs, keys, rules);
      CollectedBoard(c, subs, keys, rules);
      var total, time := SumUp(data, rules.useTime);
      score, cumtime, formatData := total, if time < 0.0 then 0.0 else time, data;
    }

    // The second loop: over the problems' data, in any order.
    method SumUp(data: Board, useTime: bool) returns (total: real, time: real)
      ensures total == SumOver(data.Keys, PointsIn(data))
      ensures time == if useTime then SumOver(data.Keys, TimesIn(data)) else 0.0
    {
      total, time := 0.0, 0.0;
      var left := data.Keys;
      while left != {}
        invariant left <= data.Keys && total + SumOver(left, PointsIn(data)) == SumOver(data.Keys, PointsIn(data))
        invariant if useTime then time + SumOver(left, TimesIn(data)) == SumOver(data.Keys, TimesIn(data))
                  else time == 0.0
      {
        var p :| p in left;
        SumWithout(left, PointsIn(data), p);
        SumWithout(left, TimesIn(data), p);
        if useTime && data[p].points != 0.0 {
          time := time + data[p].time;
        }
        total, left := total + data[p].points, left - {p};
      }
    }
  }

  ghost function RowSum(c: Contest, subs: seq<Submission>, keys: seq<Key>, hidden: Hidden): real
    requires Proper(c, subs)
  {
    if keys == [] then 0.0
    else RowSum(c, subs, keys[..|keys| - 1], hidden) + VisibleScore(c, subs, hidden)(keys[|keys| - 1])
  }

  ghost predicate Distinct(keys: seq<Key>) {
    forall i, j :: 0 <= i < j < |keys| ==> keys[i] != keys[j]
  }

  ghost function Elements(keys: seq<Key>): set<Key> {
    set k | k in keys
  }

  lemma ElementsButLast(keys: seq<Key>)
    requires keys != [] && Distinct(keys)
    ensures Elements(keys) - {keys[|keys| - 1]} == Elements(keys[..|keys| - 1]) && Distinct(keys[..|keys| - 1])
  {
  }

  lemma {:induction false} RowSumIsScore(c: Contest, subs: seq<Submission>, keys: seq<Key>, hidden: Hidden)
    requires Proper(c, subs) && Distinct(keys)
    ensures RowSum(c, subs, keys, hidden) == SumOver(Elements(keys), VisibleScore(c, subs, hidden))
  {
    if keys != [] {
      RowSumIsScore(c, subs, keys[..|keys| - 1], hidden);
      ElementsButLast(keys);
      SumWithout(Elements(keys), VisibleScore(c, subs, hidden), keys[|keys| - 1]);
    }
  }
}
