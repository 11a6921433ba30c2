/** The VNOJ scoreboard: the frozen columns come from a second pass over the submissions before the freeze. */
module Vnoj {
  import opened Options
  import opened ContestSubmissions

  // Times in seconds; `freezes` says that the contest has a freeze at all.
  datatype Rules = Rules(penalty: nat, lastOnly: bool, start: int, freezes: bool, freeze: int)

  datatype Data = Data(time: int, points: nat, penalty: int)

  // One problem in the stored data: the live half, the submissions after the freeze, and the frozen half.
  datatype Cell = Cell(data: Data, pending: Option<nat>, frozen: Option<Data>)

  type Problem = nat

  datatype Info = Info(cumtime: int, score: nat, tiebreaker: int, data: map<Problem, Data>)

  // The running totals of one pass.
  datatype Totals = Totals(cumtime: int, last: int, penalty: int, score: nat)

  function AddData(t: Totals, d: Data, rules: Rules): Totals {
    Totals(if d.points > 0 then t.cumtime + d.time else t.cumtime,
           if d.points > 0 && d.time > t.last then d.time else t.last,
           if d.points > 0 && rules.penalty > 0 then t.penalty + Seconds(d.penalty, rules) else t.penalty,
           t.score + d.points)
  }

  function Seconds(tries: int, rules: Rules): int {
    tries * rules.penalty * 60
  }

  // ----- The live pass, as a definition -----

  // The data of a problem with at least one submission.
  function DataOf(subs: seq<Submission>, rules: Rules): Data
    requires subs != []
  {
    var points := Best(subs);
    var time := FirstWith(subs, points);
    Data(time - rules.start, points,
         if rules.penalty == 0 then 0
         else if points > 0 then |UpTo(Counted(subs), time)| - 1 else |Counted(subs)|)
  }

  type Board = seq<(Problem, seq<Submission>)>

  ghost predicate IsBoard(board: Board) {
    forall i, j :: 0 <= i < j < |board| ==> board[i].0 != board[j].0
  }

  function TotalsOf(board: Board, rules: Rules): Totals {
    if board == [] then Totals(0, 0, 0, 0)
    else
      var (_, subs) := board[|board| - 1];
      var before := TotalsOf(board[..|board| - 1], rules);
      if subs == [] then before else AddData(before, DataOf(subs, rules), rules)
  }

  function AllData(board: Board, rules: Rules): map<Problem, Data> {
    if board == [] then map[]
    else
      var (prob, subs) := board[|board| - 1];
      var before := AllData(board[..|board| - 1], rules);
      if subs == [] then before else before[prob := DataOf(subs, rules)]
  }

  // How many counted submissions came after the freeze.
  function Pending(subs: seq<Submission>, freeze: int): nat {
    |Filter(Counted(subs), (s: Submission) => s.date >= freeze)|
  }

  function AllPending(board: Board, freeze: int): map<Problem, nat> {
    if board == [] then map[]
    else
      var (prob, subs) := board[|board| - 1];
      var before := AllPending(board[..|board| - 1], freeze);
      if subs == [] then before else before[prob := Pending(subs, freeze)]
  }

  lemma {:induction false} SplitAtFreeze(subs: seq<Submission>, freeze: int)
    ensures |Before(subs, freeze)| + |Filter(subs, (s: Submission) => s.date >= freeze)| == |subs|
  {
    if subs != [] {
      SplitAtFreeze(subs[1..], freeze);
    }
  }

  /** The pending tries are exactly those that the frozen scoreboard does not know. */
  lemma PendingIsTheRest(subs: seq<Submission>, freeze: int)
    ensures |Counted(Before(subs, freeze))| + Pending(subs, freeze) == |Counted(subs)|
  {
    CountedBefore(subs, freeze);
    SplitAtFreeze(Counted(subs), freeze);
  }

  function InfoOf(board: Board, rules: Rules): Info {
    var t := TotalsOf(board, rules);
    Info((if rules.lastOnly then t.last else t.cumtime) + t.penalty, t.score, t.last, AllData(board, rules))
  }

  function Early(board: Board, freeze: int): Board {
    if board == [] then []
    else
      var n := |board| - 1;
      Early(board[..n], freeze) + [(board[n].0, Before(board[n].1, freeze))]
  }

  // ----- The two passes -----

  /** One row of either query: in the frozen pass, the ranking query and the tries are both cut at the freeze, and the
      result is what the live pass would find if the later submissions did not exist. */
  method Row(subs: seq<Submission>, rules: Rules, frozen: bool) returns (row: Option<Data>)
    ensures var seen := if frozen then Before(subs, rules.freeze) else subs;
            row == if seen == [] then None else Some(DataOf(seen, rules))
  {
    var ranked := if frozen then Before(subs, rules.freeze) else subs;
    if ranked == [] {
      return None;
    }
    var points := Best(ranked);
    var time := FirstWith(ranked, points);
    var prev := 0;
    if rules.penalty > 0 {
      var counted := Counted(subs);
      if frozen {
        CountedBefore(subs, rules.freeze);
        counted := Before(counted, rules.freeze);
      }
      if points > 0 {
        prev := |UpTo(counted, time)| - 1;
      } else {
        prev := |counted|;
      }
    }
    return Some(Data(time - rules.start, points, prev));
  }

  /** One pass: the frozen pass computes exactly the live scoreboard of the submissions before the freeze. */
  method CalculateParticipationInfo(board: Board, rules: Rules, frozen: bool)
    returns (info: Info, pending: map<Problem, nat>)
    requires IsBoard(board)
    ensures info == InfoOf(if frozen then Early(board, rules.freeze) else board, rules)
    ensures HasSums(info, if frozen then Early(board, rules.freeze) else board, rules)
    ensures pending == if !frozen && rules.freezes then AllPending(board, rules.freeze) else map[]
  {
    var t, data;
    t, data, pending := Collect(board, rules, frozen);
    info := Info((if rules.lastOnly then t.last else t.cumtime) + t.penalty, t.score, t.last, data);
    InfoHasSums(if frozen then Early(board, rules.freeze) else board, rules);
  }

  // The rows of the query, one after the other.
  method Collect(board: Board, rules: Rules, frozen: bool)
    returns (t: Totals, data: map<Problem, Data>, pending: map<Problem, nat>)
    ensures t == TotalsOf(Seen(board, rules, frozen), rules) && data == AllData(Seen(board, rules, frozen), rules)
    ensures pending == if !frozen && rules.freezes then AllPending(board, rules.freeze) else map[]
  {
    t, data, pending := Totals(0, 0, 0, 0), map[], map[];
    for i := 0 to |board|
      invariant t == TotalsOf(Seen(board[..i], rules, frozen), rules)
      invariant data == AllData(Seen(board[..i], rules, frozen), rules)
      invariant pending == if !frozen && rules.freezes then AllPending(board[..i], rules.freeze) else map[]
    {
      SeenNext(board, i, rules, frozen);
      var (prob, subs) := board[i];
      var row := Row(subs, rules, frozen);
      if row.Some? {
        t, data := AddData(t, row.value, rules), data[prob := row.value];
      }
      assert board[..i + 1][..i] == board[..i];
      if row.Some? && !frozen && rules.freezes {
        pending := pending[prob := Pending(subs, rules.freeze)];
      }
    }
    assert board[..|board|] == board;
  }

  function Seen(board: Board, rules: Rules, frozen: bool): Board {
    if frozen then Early(board, rules.freeze) else board
  }

  lemma SeenNext(board: Board, i: nat, rules: Rules, frozen: bool)
    requires i < |board|
    ensures var subs := if frozen then Before(board[i].1, rules.freeze) else board[i].1;
            var seen, next := Seen(board[..i], rules, frozen), Seen(board[..i + 1], rules, frozen);
            && next == seen + [(board[i].0, subs)]
            && TotalsOf(next, rules) ==
               (if subs == [] then TotalsOf(seen, rules)
                else AddData(TotalsOf(seen, rules), DataOf(subs, rules), rules))
            && AllData(next, rules) ==
               (if subs == [] then AllData(seen, rules) else AllData(seen, rules)[board[i].0 := DataOf(subs, rules)])
  {
    assert board[..i + 1][..i] == board[..i];
    var seen := Seen(board[..i], rules, frozen);
    var x := (board[i].0, if frozen then Before(board[i].1, rules.freeze) else board[i].1);
    assert board[..i + 1] == board[..i] + [board[i]];
    assert Seen(board[..i + 1], rules, frozen) == seen + [x];
    assert (seen + [x])[..|seen|] == seen;
  }

  /** The frozen score never exceeds the live one. */
  lemma {:induction false} FrozenScoreIsLower(board: Board, rules: Rules)
    ensures InfoOf(Early(board, rules.freeze), rules).score <= InfoOf(board, rules).score
  {
    if board != [] {
      var n := |board| - 1;
      FrozenScoreIsLower(board[..n], rules);
      BestBefore(board[n].1, rules.freeze);
      EarlyNext(board, rules.freeze);
    }
  }

  lemma EarlyNext(board: Board, freeze: int)
    requires board != []
    ensures var n := |board| - 1;
            var early := Early(board, freeze);
            |early| == |board| && early[..n] == Early(board[..n], freeze) &&
            early[n] == (board[n].0, Before(board[n].1, freeze))
  {
    EarlyLength(board[..|board| - 1], freeze);
  }

  lemma {:induction false} EarlyLength(board: Board, freeze: int)
    ensures |Early(board, freeze)| == |board|
  {
    if board != [] {
      EarlyLength(board[..|board| - 1], freeze);
    }
  }

  /** When nothing came after the freeze, the frozen scoreboard is the live one. */
  lemma {:induction false} NothingLate(board: Board, rules: Rules)
    requires forall i :: 0 <= i < |board| ==> forall s :: s in board[i].1 ==> s.date < rules.freeze
    ensures Early(board, rules.freeze) == board
  {
    if board != [] {
      var n := |board| - 1;
      NothingLate(board[..n], rules);
      BeforeAll(board[n].1, rules.freeze);
      assert board == board[..n] + [board[n]];
    }
  }

  // ----- What the stored numbers are -----

  ghost function ProblemsOf(board: Board): (r: seq<seq<Submission>>)
    ensures |r| == |board|
  {
    if board == [] then [] else ProblemsOf(board[..|board| - 1]) + [board[|board| - 1].1]
  }

  ghost function ScoreOf(outcomes: seq<Outcome>): nat {
    if outcomes == [] then 0 else ScoreOf(outcomes[..|outcomes| - 1]) + outcomes[|outcomes| - 1].points
  }

  // The seconds from the start to the first best result, over the problems with points.
  ghost function TimeOf(outcomes: seq<Outcome>, start: int): int {
    if outcomes == [] then 0 else
    var o := outcomes[|outcomes| - 1];
    TimeOf(outcomes[..|outcomes| - 1], start) + if o.points > 0 then o.time - start else 0
  }

  // The penalty minutes for every try before that result, in seconds.
  ghost function PenaltyOf(outcomes: seq<Outcome>, minutes: nat): int {
    if outcomes == [] then 0 else
    var o := outcomes[|outcomes| - 1];
    PenaltyOf(outcomes[..|outcomes| - 1], minutes) + if o.points > 0 then Penalty(o.tries, 60 * minutes) else 0
  }

  // The second at which the last best result was reached.
  ghost predicate IsLast(last: int, outcomes: seq<Outcome>, start: int) {
    && last >= 0 && (forall o :: o in outcomes && o.points > 0 ==> o.time - start <= last)
    && (last > 0 ==> exists o :: o in outcomes && o.points > 0 && o.time - start == last)
  }

  /** One half of a row: the points, and the seconds of the problems with points, or of the last of them alone, with the
      penalties for the tries before. */
  ghost predicate Sums(score: int, cumtime: int, last: int, outcomes: seq<Outcome>, rules: Rules) {
    && score == ScoreOf(outcomes) && IsLast(last, outcomes, rules.start)
    && cumtime ==
       (if rules.lastOnly then last else TimeOf(outcomes, rules.start)) + PenaltyOf(outcomes, rules.penalty)
  }

  ghost predicate Added(t: Totals, outcomes: seq<Outcome>, rules: Rules) {
    && t.score == ScoreOf(outcomes) && IsLast(t.last, outcomes, rules.start)
    && t.cumtime == TimeOf(outcomes, rules.start) && t.penalty == PenaltyOf(outcomes, rules.penalty)
  }

  // What an outcome adds to the totals.
  ghost function AddOutcome(t: Totals, o: Outcome, rules: Rules): Totals {
    if o.points == 0 then t else
    var dt := o.time - rules.start;
    Totals(t.cumtime + dt, if dt > t.last then dt else t.last, t.penalty + Penalty(o.tries, 60 * rules.penalty),
           t.score + o.points)
  }

  lemma PenaltySeconds(tries: nat, rules: Rules)
    ensures Seconds(tries - 1, rules) == Penalty(tries, 60 * rules.penalty)
  {
    Multiplied(tries, 60 * rules.penalty);
  }

  lemma DataAdds(t: Totals, subs: seq<Submission>, rules: Rules)
    requires subs != []
    ensures AddData(t, DataOf(subs, rules), rules) == AddOutcome(t, OutcomeOf(subs), rules)
  {
    var o := OutcomeOf(subs);
    CountedTries(subs, o.time);
    PenaltySeconds(o.tries, rules);
  }

  lemma OutcomeAdds(t: Totals, outcomes: seq<Outcome>, o: Outcome, rules: Rules)
    requires Added(t, outcomes, rules)
    ensures Added(AddOutcome(t, o, rules), outcomes + [o], rules)
  {
    assert (outcomes + [o])[..|outcomes|] == outcomes;
  }

  lemma TotalsNext(board: Board, rules: Rules)
    requires board != []
    ensures var n := |board| - 1;
            && TotalsOf(board, rules) == AddOutcome(TotalsOf(board[..n], rules), OutcomeOf(board[n].1), rules)
            && Outcomes(ProblemsOf(board)) == Outcomes(ProblemsOf(board[..n])) + [OutcomeOf(board[n].1)]
  {
    var n := |board| - 1;
    if board[n].1 != [] {
      DataAdds(TotalsOf(board[..n], rules), board[n].1, rules);
    }
    assert ProblemsOf(board)[..n] == ProblemsOf(board[..n]);
  }

  lemma {:induction false} TotalsAreSums(board: Board, rules: Rules)
    ensures Added(TotalsOf(board, rules), Outcomes(ProblemsOf(board)), rules)
  {
    if board != [] {
      var n := |board| - 1;
      TotalsAreSums(board[..n], rules);
      TotalsNext(board, rules);
      OutcomeAdds(TotalsOf(board[..n], rules), Outcomes(ProblemsOf(board[..n])), OutcomeOf(board[n].1), rules);
    }
  }

  ghost predicate HasSums(info: Info, board: Board, rules: Rules) {
    Sums(info.score, info.cumtime, info.tiebreaker, Outcomes(ProblemsOf(board)), rules)
  }

  lemma InfoHasSums(board: Board, rules: Rules)
    ensures HasSums(InfoOf(board, rules), board, rules)
  {
    TotalsAreSums(board, rules);
  }

  /** The numbers of a problem: the wrong tries before the best result, or all tries when nothing was scored. */
  lemma DataShows(subs: seq<Submission>, rules: Rules)
    requires subs != []
    ensures var d, o := DataOf(subs, rules), OutcomeOf(subs);
            && d.points == o.points && d.time == o.time - rules.start
            && d.penalty == if rules.penalty == 0 then 0 else if o.points > 0 then o.tries - 1 else AllTries(subs)
  {
    CountedTries(subs, OutcomeOf(subs).time);
    CountedAll(subs);
  }

  class Participation {
    var score: nat
    var cumtime: int
    var tiebreaker: int
    var frozenScore: nat
    var frozenCumtime: int
    var frozenTiebreaker: int
    var formatData: map<Problem, Cell>

    constructor ()
    {
      score, cumtime, tiebreaker, frozenScore, frozenCumtime, frozenTiebreaker, formatData := 0, 0, 0, 0, 0, 0, map[];
    }

    ghost predicate Shows(board: Board, rules: Rules)
      reads this`score, this`cumtime, this`tiebreaker
    {
      var info := InfoOf(board, rules);
      && score == info.score && cumtime == info.cumtime && tiebreaker == info.tiebreaker
      && Sums(score, cumtime, tiebreaker, Outcomes(ProblemsOf(board)), rules)
    }

    ghost predicate ShowsFrozen(early: Board, rules: Rules)
      reads this`frozenScore, this`frozenCumtime, this`frozenTiebreaker
    {
      var info := InfoOf(early, rules);
      && frozenScore == info.score && frozenCumtime == info.cumtime && frozenTiebreaker == info.tiebreaker
      && Sums(frozenScore, frozenCumtime, frozenTiebreaker, Outcomes(ProblemsOf(early)), rules)
    }

    /** Recomputes the row. A contest without a freeze leaves the frozen columns as they are. */
    method UpdateParticipation(board: Board, rules: Rules)
      requires IsBoard(board)
      modifies this
      ensures Shows(board, rules)
      ensures if rules.freezes then ShowsFrozen(Early(board, rules.freeze), rules)
              else frozenScore == old(frozenScore) && frozenCumtime == old(frozenCumtime) &&
                   frozenTiebreaker == old(frozenTiebreaker)
      ensures IsMerged(formatData, AllData(board, rules),
                       if rules.freezes then AllPending(board, rules.freeze) else map[],
                       if rules.freezes then AllData(Early(board, rules.freeze), rules) else map[], rules.freezes)
    {
      var live, pending := UpdateLive(board, rules);
      var early := map[];
      if rules.freezes {
        early := UpdateFrozen(board, rules);
      }
      formatData := Merge(live, pending, early, rules.freezes);
    }

    method UpdateLive(board: Board, rules: Rules) returns (data: map<Problem, Data>, pending: map<Problem, nat>)
      requires IsBoard(board)
      modifies this`score, this`cumtime, this`tiebreaker
      ensures Shows(board, rules) && data == AllData(board, rules)
      ensures pending == if rules.freezes then AllPending(board, rules.freeze) else map[]
    {
      var info;
      info, pending := CalculateParticipationInfo(board, rules, false);
      score, cumtime, tiebreaker, data := info.score, info.cumtime, info.tiebreaker, info.data;
    }

    method UpdateFrozen(board: Board, rules: Rules) returns (data: map<Problem, Data>)
      requires IsBoard(board)
      modifies this`frozenScore, this`frozenCumtime, this`frozenTiebreaker
      ensures ShowsFrozen(Early(board, rules.freeze), rules) && data == AllData(Early(board, rules.freeze), rules)
    {
      var info, _ := CalculateParticipationInfo(board, rules, true);
      frozenScore, frozenCumtime, frozenTiebreaker, data := info.score, info.cumtime, info.tiebreaker, info.data;
    }
  }

  function Merge(live: map<Problem, Data>, pending: map<Problem, nat>, early: map<Problem, Data>,
                 freezes: bool): (r: map<Problem, Cell>)
    ensures IsMerged(r, live, pending, early, freezes)
  {
    map p | p in live ::
      Cell(live[p], Lookup(pending, p), if !freezes then None else if p in early then Some(early[p])
           else Some(Data(0, 0, 0)))
  }

  /** Every problem of the live pass, with its pending tries; and in a contest with a freeze with what the frozen pass
      has of it, or zeros. */
  ghost predicate IsMerged(cells: map<Problem, Cell>, live: map<Problem, Data>, pending: map<Problem, nat>,
                           early: map<Problem, Data>, freezes: bool)
  {
    && cells.Keys == live.Keys
    && forall p :: p in cells ==>
      && cells[p].data == live[p] && (cells[p].pending.Some? <==> p in pending)
      && (p in pending ==> cells[p].pending == Some(pending[p]))
      && (cells[p].frozen.Some? <==> freezes)
      && (freezes && p in early ==> cells[p].frozen == Some(early[p]))
      && (freezes && p !in early ==> cells[p].frozen == Some(Data(0, 0, 0)))
  }
}
