/** The ICPC scoreboard: live and frozen columns in one pass over the problems. */
module Icpc {
  import opened Options
  import opened ContestSubmissions

  // Times in seconds; `frozen` says that this participation is subject to the freeze.
  datatype Rules = Rules(penalty: nat, start: int, frozen: bool, freeze: int)

  datatype Cell = Cell(time: int, points: nat, frozenPoints: nat, tries: nat, frozenTries: nat, isFrozen: bool)

  // What one problem adds to the columns of a participation.
  datatype Share = Share(score: nat, minutes: int, penalty: int)

  // The two halves of a participation's row.
  datatype Half = LiveHalf | FrozenHalf

  const NO_SHARE: Share := Share(0, 0, 0)

  datatype Columns = Columns(sum: Share, last: int)

  function Add(c: Columns, s: Share): Columns {
    Columns(Share(c.sum.score + s.score, c.sum.minutes + s.minutes, c.sum.penalty + s.penalty),
            if s.score > 0 && s.minutes > c.last then s.minutes else c.last)
  }

  // cumtime, as stored.
  function Cumtime(c: Columns): int {
    c.sum.minutes + c.sum.penalty
  }

  // ----- One problem -----

  // The simple definition: the best result counts at its first time, with the wrong tries before it.
  function Live(subs: seq<Submission>, rules: Rules): Share {
    var points := Best(subs);
    if points == 0 then NO_SHARE
    else
      var time := FirstWith(subs, points);
      Scored(points, time, |UpTo(Counted(subs), time)|, rules)
  }

  function Scored(points: nat, time: int, tries: nat, rules: Rules): Share {
    Share(points, (time - rules.start) / 60, if rules.penalty > 0 then (tries - 1) * rules.penalty else 0)
  }

  // The frozen share of the one pass: the live share, or nothing when that was earned after the freeze.
  function Frozen(subs: seq<Submission>, rules: Rules): Share {
    if Best(subs) > 0 && rules.frozen && FirstWith(subs, Best(subs)) >= rules.freeze then NO_SHARE
    else Live(subs, rules)
  }

  // MAX(date).
  function LastOf(subs: seq<Submission>): (r: Option<int>)
    ensures r.None? <==> subs == []
    ensures r.Some? ==> (exists s :: s in subs && s.date == r.value) && forall s :: s in subs ==> s.date <= r.value
  {
    if subs == [] then None
    else match LastOf(subs[1..])
      case None => Some(subs[0].date)
      case Some(t) =>
        assert exists s :: s in subs[1..] && s.date == t && s in subs;
        if subs[0].date > t then Some(subs[0].date) else Some(t)
  }

  // The cell of a problem with at least one submission.
  function CellOf(subs: seq<Submission>, rules: Rules): Cell
    requires subs != []
  {
    var points := Best(subs);
    var time, counted := FirstWith(subs, points), Counted(subs);
    var tries := if rules.penalty == 0 then 0 else if points > 0 then |UpTo(counted, time)| else |counted|;
    var late := rules.frozen && time >= rules.freeze;
    var isFrozen := if rules.penalty > 0 && points == 0
                    then rules.frozen && counted != [] && LastOf(counted).value >= rules.freeze else late;
    Cell(time - rules.start, points, if points > 0 && !late then points else 0, tries,
         if rules.penalty > 0 && points > 0 && late then |counted| else tries, isFrozen)
  }

  /** What a frozen cell shows: it is marked exactly when it hides a result, or when an unsolved problem was tried after
      the freeze; otherwise it shows the live points and tries. */
  lemma FrozenCell(subs: seq<Submission>, rules: Rules)
    requires subs != []
    ensures var c := CellOf(subs, rules);
            && c.frozenPoints == Frozen(subs, rules).score
            && (!c.isFrozen ==> c.frozenPoints == c.points && c.frozenTries == c.tries)
            && (c.points > 0 ==> (c.isFrozen <==> c.frozenPoints != c.points))
            && (c.points == 0 && rules.penalty > 0 ==>
                  (c.isFrozen <==> rules.frozen && exists s :: s in Counted(subs) && s.date >= rules.freeze))
  {
  }

  /** The cell's own numbers: the tries are those up to the best result, or all when nothing was scored or, in the
      frozen half, when the best result came after the freeze; a contest without penalties counts none. */
  lemma CellShows(subs: seq<Submission>, rules: Rules)
    requires subs != []
    ensures var c, o := CellOf(subs, rules), OutcomeOf(subs);
            var late := rules.frozen && o.time >= rules.freeze;
            && c.points == o.points && c.time == o.time - rules.start
            && c.tries == (if rules.penalty == 0 then 0 else if o.points > 0 then o.tries else AllTries(subs))
            && c.frozenTries == (if rules.penalty > 0 && o.points > 0 && late then AllTries(subs) else c.tries)
  {
    CountedTries(subs, OutcomeOf(subs).time);
    CountedAll(subs);
  }

  /** Up to the freeze, the frozen share is the live share of what came before it: if and only if the best result was
      first reached before the freeze or nothing was scored before it. */
  lemma FrozenIsEarlyLive(subs: seq<Submission>, rules: Rules)
    requires rules.frozen
    ensures var early := Before(subs, rules.freeze);
            Frozen(subs, rules) == Live(early, rules) <==>
            (Best(early) == 0 || FirstWith(subs, Best(subs)) < rules.freeze)
    ensures Frozen(subs, rules).score <= Live(Before(subs, rules.freeze), rules).score
    ensures Frozen(subs, rules).score == Live(Before(subs, rules.freeze), rules).score <==>
            Frozen(subs, rules) == Live(Before(subs, rules.freeze), rules)
  {
    var early := Before(subs, rules.freeze);
    BestBefore(subs, rules.freeze);
    if Best(subs) > 0 && FirstWith(subs, Best(subs)) < rules.freeze {
      CountedBefore(subs, rules.freeze);
      UpToBefore(Counted(subs), FirstWith(subs, Best(subs)), rules.freeze);
    }
  }

  /** A result that is improved after the freeze loses what it was worth before: the frozen scoreboard, which showed
      its points at the freeze, now shows nothing. */
  lemma LateImprovementHides(subs: seq<Submission>, rules: Rules)
    requires rules.frozen && Best(Before(subs, rules.freeze)) > 0
    requires subs != [] && FirstWith(subs, Best(subs)) >= rules.freeze
    ensures Frozen(subs, rules) == NO_SHARE
    ensures Live(Before(subs, rules.freeze), rules).score == Best(Before(subs, rules.freeze)) > 0
  {
    BestBefore(subs, rules.freeze);
  }

  lemma TwoSubmissions(subs: seq<Submission>, s: Submission, t: Submission, freeze: int)
    requires subs == [s, t] && s.points < t.points && s.date < freeze <= t.date
    ensures Best(subs) == t.points && FirstWith(subs, t.points) == t.date
    ensures Before(subs, freeze) == [s] && Best([s]) == s.points
  {
    assert t in subs;
    FilterStep(t, [], (x: Submission) => x.date < freeze);
    FilterStep(s, [t], (x: Submission) => x.date < freeze);
    assert [s] + [t] == subs && [t] + [] == [t];
  }

  /** Such a case: 30 points at 50 and 60 points at 150, with the freeze at 100. */
  lemma LateImprovementCase(subs: seq<Submission>, rules: Rules)
    requires subs == [Submission(50, 30, true), Submission(150, 60, true)] && rules == Rules(20, 0, true, 100)
    ensures Frozen(subs, rules).score == 0 && Live(Before(subs, rules.freeze), rules).score == 30
  {
    TwoSubmissions(subs, subs[0], subs[1], rules.freeze);
    LateImprovementHides(subs, rules);
  }

  lemma AddAgrees(c: Columns, d: Columns, s: Share, t: Share)
    requires c.sum.score <= d.sum.score && (c.sum.score == d.sum.score <==> c == d)
    requires s.score <= t.score && (s.score == t.score <==> s == t)
    ensures Add(c, s).sum.score <= Add(d, t).sum.score
    ensures Add(c, s) == Add(d, t) <==> c == d && s == t
    ensures Add(c, s).sum.score == Add(d, t).sum.score <==> c == d && s == t
  {
  }

  // Every submission scores all or nothing.
  ghost predicate AllOrNothing(subs: seq<Submission>, full: nat) {
    forall s :: s in subs ==> s.points == 0 || s.points == full
  }

  lemma AllOrNothingAgrees(subs: seq<Submission>, full: nat, rules: Rules)
    requires rules.frozen && AllOrNothing(subs, full)
    ensures Frozen(subs, rules) == Live(Before(subs, rules.freeze), rules)
  {
    var early := Before(subs, rules.freeze);
    FrozenIsEarlyLive(subs, rules);
    if early != [] && Best(early) > 0 {
      var s := BestIsReached(early);
      var best := BestIsReached(subs);
      assert s.points == full == best.points;
    }
  }

  // ----- All problems -----

  // Problems without submissions do not appear in the query's result; they add nothing.
  function LiveColumns(problems: seq<seq<Submission>>, rules: Rules): Columns {
    if problems == [] then Columns(NO_SHARE, 0)
    else Add(LiveColumns(problems[..|problems| - 1], rules), Live(problems[|problems| - 1], rules))
  }

  function FrozenColumns(problems: seq<seq<Submission>>, rules: Rules): Columns {
    if problems == [] then Columns(NO_SHARE, 0)
    else Add(FrozenColumns(problems[..|problems| - 1], rules), Frozen(problems[|problems| - 1], rules))
  }

  function Early(problems: seq<seq<Submission>>, freeze: int): (r: seq<seq<Submission>>)
    ensures |r| == |problems|
  {
    seq(|problems|, i requires 0 <= i < |problems| => Before(problems[i], freeze))
  }

  /** The three frozen columns are the live columns of the submissions before the freeze, exactly when no problem has a
      result before the freeze that was only improved on after it; and the frozen score never exceeds that score. */
  lemma {:induction false} FrozenColumnsAgree(problems: seq<seq<Submission>>, rules: Rules)
    requires rules.frozen
    ensures var simple := LiveColumns(Early(problems, rules.freeze), rules);
            && FrozenColumns(problems, rules).sum.score <= simple.sum.score
            && (FrozenColumns(problems, rules) == simple <==> NoLateImprovement(problems, rules))
            && (FrozenColumns(problems, rules).sum.score == simple.sum.score <==> NoLateImprovement(problems, rules))
  {
    if problems != [] {
      var n := |problems| - 1;
      var rest, last := problems[..n], problems[n];
      FrozenColumnsAgree(rest, rules);
      FrozenIsEarlyLive(last, rules);
      AddAgrees(FrozenColumns(rest, rules), LiveColumns(Early(rest, rules.freeze), rules),
                Frozen(last, rules), Live(Before(last, rules.freeze), rules));
      EarlyLive(problems, rules);
      LastImprovement(problems, rules);
    }
  }

  lemma EarlyLive(problems: seq<seq<Submission>>, rules: Rules)
    requires problems != []
    ensures var n := |problems| - 1;
            LiveColumns(Early(problems, rules.freeze), rules) ==
            Add(LiveColumns(Early(problems[..n], rules.freeze), rules), Live(Before(problems[n], rules.freeze), rules))
  {
    var n := |problems| - 1;
    assert Early(problems, rules.freeze)[..n] == Early(problems[..n], rules.freeze);
  }

  lemma LastImprovement(problems: seq<seq<Submission>>, rules: Rules)
    requires problems != []
    ensures var n := |problems| - 1;
            NoLateImprovement(problems, rules) <==>
                NoLateImprovement(problems[..n], rules) && Settles(problems[n], rules)
  {
    var n := |problems| - 1;
    assert problems == problems[..n] + [problems[n]];
  }

  // The best result was first reached before the freeze, or nothing was scored before it.
  ghost predicate Settles(subs: seq<Submission>, rules: Rules) {
    Best(Before(subs, rules.freeze)) == 0 || FirstWith(subs, Best(subs)) < rules.freeze
  }

  ghost predicate NoLateImprovement(problems: seq<seq<Submission>>, rules: Rules) {
    forall i :: 0 <= i < |problems| ==> Settles(problems[i], rules)
  }

  /** All-or-nothing problems never improve late, so their frozen scoreboard is the one everybody saw at the freeze. */
  lemma AllOrNothingColumns(problems: seq<seq<Submission>>, full: seq<nat>, rules: Rules)
    requires rules.frozen && |full| == |problems|
    requires forall i :: 0 <= i < |problems| ==> AllOrNothing(problems[i], full[i])
    ensures FrozenColumns(problems, rules) == LiveColumns(Early(problems, rules.freeze), rules)
  {
    forall i | 0 <= i < |problems| ensures Settles(problems[i], rules) {
      AllOrNothingAgrees(problems[i], full[i], rules);
      FrozenIsEarlyLive(problems[i], rules);
    }
    FrozenColumnsAgree(problems, rules);
  }

  /** Without a freeze the two halves of the row are the same. */
  lemma {:induction false} UnfrozenColumns(problems: seq<seq<Submission>>, rules: Rules)
    requires !rules.frozen
    ensures FrozenColumns(problems, rules) == LiveColumns(problems, rules)
  {
    if problems != [] {
      UnfrozenColumns(problems[..|problems| - 1], rules);
    }
  }

  // ----- What the stored numbers are -----

  // Something was scored and, as far as the frozen half of the row is concerned, the best of it before the freeze.
  ghost predicate Earned(o: Outcome, rules: Rules, half: Half) {
    o.points > 0 && (half.FrozenHalf? && rules.frozen ==> o.time < rules.freeze)
  }

  // Whole minutes from the start.
  ghost function Minutes(o: Outcome, rules: Rules): int {
    (o.time - rules.start) / 60
  }

  ghost function ScoreOf(outcomes: seq<Outcome>, rules: Rules, half: Half): nat {
    if outcomes == [] then 0 else
    var o := outcomes[|outcomes| - 1];
    ScoreOf(outcomes[..|outcomes| - 1], rules, half) + if Earned(o, rules, half) then o.points else 0
  }

  // The minutes until each problem was earned, and the penalty for every try before the one that earned it.
  ghost function TimeOf(outcomes: seq<Outcome>, rules: Rules, half: Half): int {
    if outcomes == [] then 0 else
    var o := outcomes[|outcomes| - 1];
    TimeOf(outcomes[..|outcomes| - 1], rules, half) +
    if Earned(o, rules, half) then Minutes(o, rules) + Penalty(o.tries, rules.penalty) else 0
  }

  // The minute of the last problem earned.
  ghost predicate IsLast(last: int, outcomes: seq<Outcome>, rules: Rules, half: Half) {
    && last >= 0 && (forall o :: o in outcomes && Earned(o, rules, half) ==> Minutes(o, rules) <= last)
    && (last > 0 ==> exists o :: o in outcomes && Earned(o, rules, half) && Minutes(o, rules) == last)
  }

  // One half of a row: the points of the problems earned, their minutes with the penalties, and the last of them.
  ghost predicate Sums(score: int, cumtime: int, last: int, outcomes: seq<Outcome>, rules: Rules, half: Half) {
    && score == ScoreOf(outcomes, rules, half) && cumtime == TimeOf(outcomes, rules, half)
    && IsLast(last, outcomes, rules, half)
  }

  ghost function ShareOf(subs: seq<Submission>, rules: Rules, half: Half): Share {
    if half.LiveHalf? then Live(subs, rules) else Frozen(subs, rules)
  }

  ghost function ColumnsOf(problems: seq<seq<Submission>>, rules: Rules, half: Half): Columns {
    if half.LiveHalf? then LiveColumns(problems, rules) else FrozenColumns(problems, rules)
  }

  // What an outcome adds to one half.
  ghost predicate Counts(s: Share, o: Outcome, rules: Rules, half: Half) {
    if Earned(o, rules, half) then s == Share(o.points, Minutes(o, rules), Penalty(o.tries, rules.penalty))
    else s == NO_SHARE
  }

  lemma ShareCounts(subs: seq<Submission>, rules: Rules, half: Half)
    ensures Counts(ShareOf(subs, rules, half), OutcomeOf(subs), rules, half)
  {
    if Best(subs) > 0 {
      CountedTries(subs, FirstWith(subs, Best(subs)));
      Multiplied(OutcomeOf(subs).tries, rules.penalty);
    }
  }

  lemma SumsNext(c: Columns, s: Share, outcomes: seq<Outcome>, o: Outcome, rules: Rules, half: Half)
    requires Sums(c.sum.score, Cumtime(c), c.last, outcomes, rules, half) && Counts(s, o, rules, half)
    ensures var after := Add(c, s);
            Sums(after.sum.score, Cumtime(after), after.last, outcomes + [o], rules, half)
  {
    assert (outcomes + [o])[..|outcomes|] == outcomes;
  }

  lemma ColumnsAdd(problems: seq<seq<Submission>>, rules: Rules, half: Half)
    requires problems != []
    ensures ColumnsOf(problems, rules, half) ==
            Add(ColumnsOf(problems[..|problems| - 1], rules, half), ShareOf(problems[|problems| - 1], rules, half))
    ensures Outcomes(problems) == Outcomes(problems[..|problems| - 1]) + [OutcomeOf(problems[|problems| - 1])]
  {
  }

  lemma {:induction false} ColumnsAreSums(problems: seq<seq<Submission>>, rules: Rules, half: Half)
    ensures var c := ColumnsOf(problems, rules, half);
            Sums(c.sum.score, Cumtime(c), c.last, Outcomes(problems), rules, half)
  {
    if problems != [] {
      var rest, subs := problems[..|problems| - 1], problems[|problems| - 1];
      ColumnsAreSums(rest, rules, half);
      ColumnsAdd(problems, rules, half);
      ShareCounts(subs, rules, half);
      SumsNext(ColumnsOf(rest, rules, half), ShareOf(subs, rules, half), Outcomes(rest), OutcomeOf(subs), rules, half);
    }
  }

  lemma {:induction false} OneTryMore(outcomes: seq<Outcome>, i: nat, rules: Rules, half: Half)
    requires i < |outcomes|
    ensures var o := outcomes[i];
            var after := outcomes[i := o.(tries := o.tries + 1)];
            && ScoreOf(after, rules, half) == ScoreOf(outcomes, rules, half)
            && TimeOf(after, rules, half) ==
               TimeOf(outcomes, rules, half) + if Earned(o, rules, half) then rules.penalty else 0
  {
    var n := |outcomes| - 1;
    var more := outcomes[i].(tries := outcomes[i].tries + 1);
    if i < n {
      assert outcomes[i := more][..n] == outcomes[..n][i := more];
      OneTryMore(outcomes[..n], i, rules, half);
    } else {
      assert outcomes[i := more][..n] == outcomes[..n];
    }
  }

  lemma LastStays(outcomes: seq<Outcome>, i: nat, last: int, rules: Rules, half: Half)
    requires i < |outcomes|
    ensures var o := outcomes[i];
            IsLast(last, outcomes[i := o.(tries := o.tries + 1)], rules, half) <==> IsLast(last, outcomes, rules, half)
  {
    var o := outcomes[i];
    var more := o.(tries := o.tries + 1);
    var after := outcomes[i := more];
    assert after[i] == more && more in after;
    forall x | x in outcomes ensures x == o || x in after {
      var j :| 0 <= j < |outcomes| && outcomes[j] == x;
      assert after[j] == if j == i then more else x;
    }
    forall x | x in after ensures x == more || x in outcomes {
      var j :| 0 <= j < |after| && after[j] == x;
    }
    assert Earned(more, rules, half) == Earned(o, rules, half) && Minutes(more, rules) == Minutes(o, rules);
  }

  // One more submission to the problem at i, which does not reach the best result there.
  ghost predicate TriedMore(after: seq<seq<Submission>>, problems: seq<seq<Submission>>, i: nat, s: Submission) {
    && i < |problems| == |after| && OneMore(after[i], problems[i], s) && s.points < Best(problems[i])
    && forall j :: 0 <= j < |problems| && j != i ==> after[j] == problems[j]
  }

  lemma OutcomesMore(after: seq<seq<Submission>>, problems: seq<seq<Submission>>, i: nat, s: Submission)
    returns (extra: nat)
    requires TriedMore(after, problems, i, s)
    ensures var o := OutcomeOf(problems[i]);
            && extra == (if s.counted && s.date <= o.time then 1 else 0)
            && Outcomes(problems)[i] == o
            && Outcomes(after) == Outcomes(problems)[i := o.(tries := o.tries + extra)]
  {
    extra := if s.counted && s.date <= OutcomeOf(problems[i]).time then 1 else 0;
    OneMoreOutcome(after[i], problems[i], s);
    OutcomesAfter(after, problems, i);
  }

  lemma SumsAfter(score: int, cumtime: int, last: int, outcomes: seq<Outcome>, i: nat, extra: nat, rules: Rules,
                  half: Half)
    requires Sums(score, cumtime, last, outcomes, rules, half) && i < |outcomes| && extra <= 1
    ensures var o := outcomes[i];
            Sums(score, cumtime + if Earned(o, rules, half) && extra == 1 then rules.penalty else 0, last,
                 outcomes[i := o.(tries := o.tries + extra)], rules, half)
  {
    if extra == 1 {
      OneTryMore(outcomes, i, rules, half);
      LastStays(outcomes, i, last, rules, half);
    } else {
      assert outcomes[i := outcomes[i]] == outcomes;
    }
  }

  /** One more submission that does not reach the best result of its problem costs exactly the penalty if it is counted
      and was made no later than that result of a problem earned, and otherwise nothing; the score and the last minute
      stay. */
  lemma FurtherTry(after: seq<seq<Submission>>, problems: seq<seq<Submission>>, i: nat, s: Submission, score: int,
                   cumtime: int, last: int, rules: Rules, half: Half)
    requires TriedMore(after, problems, i, s) && Sums(score, cumtime, last, Outcomes(problems), rules, half)
    ensures var o := OutcomeOf(problems[i]);
            var extra := if Earned(o, rules, half) && s.counted && s.date <= o.time then rules.penalty else 0;
            Sums(score, cumtime + extra, last, Outcomes(after), rules, half)
  {
    var extra := OutcomesMore(after, problems, i, s);
    SumsAfter(score, cumtime, last, Outcomes(problems), i, extra, rules, half);
  }

  // ----- The participation -----

  function Cells(problems: seq<seq<Submission>>, rules: Rules): seq<Cell> {
    if problems == [] then []
    else
      var last := problems[|problems| - 1];
      Cells(problems[..|problems| - 1], rules) + if last == [] then [] else [CellOf(last, rules)]
  }

  lemma ColumnsNext(problems: seq<seq<Submission>>, i: nat, rules: Rules)
    requires i < |problems|
    ensures var s := problems[i];
            && LiveColumns(problems[..i + 1], rules) ==
               (if s == [] then LiveColumns(problems[..i], rules)
                else Add(LiveColumns(problems[..i], rules), Live(s, rules)))
            && FrozenColumns(problems[..i + 1], rules) ==
               (if s == [] then FrozenColumns(problems[..i], rules)
                else Add(FrozenColumns(problems[..i], rules), Frozen(s, rules)))
            && Cells(problems[..i + 1], rules) ==
               Cells(problems[..i], rules) + (if s == [] then [] else [CellOf(s, rules)])
  {
    assert problems[..i + 1][..i] == problems[..i];
  }

  class Participation {
    var score: nat
    var cumtime: int
    var tiebreaker: int
    var frozenScore: nat
    var frozenCumtime: int
    var frozenTiebreaker: int
    var formatData: seq<Cell>

    constructor ()
    {
      score, cumtime, tiebreaker, frozenScore, frozenCumtime, frozenTiebreaker, formatData := 0, 0, 0, 0, 0, 0, [];
    }

    ghost predicate Shows(live: Columns, frozen: Columns)
      reads this
    {
      && score == live.sum.score && cumtime == Cumtime(live) && tiebreaker == live.last
      && frozenScore == frozen.sum.score && frozenCumtime == Cumtime(frozen) && frozenTiebreaker == frozen.last
    }

    /** Recomputes both halves of the row: in each the sum of the points of the problems earned, their minutes with the
        penalties for the tries before, and the minute of the last of them. */
    method UpdateParticipation(problems: seq<seq<Submission>>, rules: Rules)
      modifies this
      ensures Shows(LiveColumns(problems, rules), FrozenColumns(problems, rules))
      ensures Sums(score, cumtime, tiebreaker, Outcomes(problems), rules, LiveHalf)
      ensures Sums(frozenScore, frozenCumtime, frozenTiebreaker, Outcomes(problems), rules, FrozenHalf)
      ensures formatData == Cells(problems, rules)
    {
      var live, frozen, data := Collect(problems, rules);
      BothSums(problems, rules, live, frozen);
      Store(live, frozen, data);
    }

    // What the row stores of the two halves.
    method Store(live: Columns, frozen: Columns, data: seq<Cell>)
      modifies this
      ensures Shows(live, frozen) && formatData == data
    {
      score, cumtime, tiebreaker := live.sum.score, Cumtime(live), live.last;
      frozenScore, frozenCumtime, frozenTiebreaker := frozen.sum.score, Cumtime(frozen), frozen.last;
      formatData := data;
    }

    lemma BothSums(problems: seq<seq<Submission>>, rules: Rules, live: Columns, frozen: Columns)
      requires live == LiveColumns(problems, rules) && frozen == FrozenColumns(problems, rules)
      ensures Sums(live.sum.score, Cumtime(live), live.last, Outcomes(problems), rules, LiveHalf)
      ensures Sums(frozen.sum.score, Cumtime(frozen), frozen.last, Outcomes(problems), rules, FrozenHalf)
    {
      ColumnsAreSums(problems, rules, LiveHalf);
      ColumnsAreSums(problems, rules, FrozenHalf);
    }

    // One pass over the rows of the query.
    method Collect(problems: seq<seq<Submission>>, rules: Rules)
      returns (live: Columns, frozen: Columns, data: seq<Cell>)
      ensures live == LiveColumns(problems, rules) && frozen == FrozenColumns(problems, rules)
      ensures data == Cells(problems, rules)
    {
      live, frozen, data := Columns(NO_SHARE, 0), Columns(NO_SHARE, 0), [];
      for i := 0 to |problems|
        invariant live == LiveColumns(problems[..i], rules) && frozen == FrozenColumns(problems[..i], rules)
        invariant data == Cells(problems[..i], rules)
      {
        ColumnsNext(problems, i, rules);
        if problems[i] != [] {
          var cell, share, shown := Row(problems[i], rules);
          live, frozen := Add(live, share), Add(frozen, shown);
          data := data + [cell];
        }
      }
      assert problems[..|problems|] == problems;
    }

    // One row of the query: the cell, and what it adds to both halves.
    method Row(subs: seq<Submission>, rules: Rules) returns (cell: Cell, live: Share, frozen: Share)
      requires subs != []
      ensures cell == CellOf(subs, rules) && live == Live(subs, rules) && frozen == Frozen(subs, rules)
    {
      var points := Best(subs);
      var time := FirstWith(subs, points);
      var isFrozen := rules.frozen && time >= rules.freeze;
      var tries, frozenTries, penalty, frozenPenalty := 0, 0, 0, 0;
      if rules.penalty != 0 {
        var counted := Counted(subs);
        if points != 0 {
          tries := |UpTo(counted, time)|;
          penalty := (tries - 1) * rules.penalty;
          if !isFrozen {
            frozenPenalty, frozenTries := (tries - 1) * rules.penalty, tries;
          } else {
            frozenTries := |counted|;
          }
        } else {
          tries, frozenTries := |counted|, |counted|;
          var last := LastOf(counted);
          isFrozen := rules.frozen && last.Some? && last.value >= rules.freeze;
        }
      }
      var minutes := (time - rules.start) / 60;
      live, frozen := NO_SHARE, NO_SHARE;
      var frozenPoints := 0;
      if points != 0 {
        live := Share(points, minutes, penalty);
        if !isFrozen {
          frozenPoints := points;
          frozen := Share(points, minutes, frozenPenalty);
        }
      }
      cell := Cell(time - rules.start, points, frozenPoints, tries, frozenTries, isFrozen);
    }
  }
}
