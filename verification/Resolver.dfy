/** The scoreboard resolver: frozen results are revealed row by row, and rows climb as their scores grow. */
module Resolver {
  // ----- Moving one element up -----

  // s with the element at i taken out and put back at k, above the others.
  function Move<T>(s: seq<T>, i: nat, k: nat): (r: seq<T>)
    requires k <= i < |s|
    ensures |r| == |s|
  {
    seq(|s|, p requires 0 <= p < |s| => s[if p < k || p > i then p else if p == k then i else p - 1])
  }

  lemma MoveAt<T>(s: seq<T>, i: nat, k: nat, p: nat)
    requires k <= i < |s| && p < |s|
    ensures Move(s, i, k)[p] == s[if p < k || p > i then p else if p == k then i else p - 1]
  {
  }

  lemma MoveParts<T>(s: seq<T>, i: nat, k: nat)
    requires k <= i < |s|
    ensures s == s[..k] + s[k..i] + [s[i]] + s[i + 1..]
    ensures Move(s, i, k) == s[..k] + [s[i]] + s[k..i] + s[i + 1..]
  {
  }

  lemma SwapPermutes<T>(a: seq<T>, b: seq<T>, c: seq<T>, d: seq<T>)
    ensures multiset(a + c + b + d) == multiset(a + b + c + d)
  {
  }

  lemma MovePermutes<T>(s: seq<T>, i: nat, k: nat)
    requires k <= i < |s|
    ensures multiset(Move(s, i, k)) == multiset(s)
  {
    MoveParts(s, i, k);
    SwapPermutes(s[..k], s[k..i], [s[i]], s[i + 1..]);
  }

  ghost predicate Falling(scores: seq<int>) {
    forall a, b :: 0 <= a < b < |scores| ==> scores[a] >= scores[b]
  }

  /** If only the element at i may be too low in the order, lifting it past everything smaller puts it right. */
  lemma MoveKeepsFalling(scores: seq<int>, was: seq<int>, i: nat, k: nat)
    requires k <= i < |scores| == |was| && Falling(was) && scores[i] >= was[i]
    requires forall p :: 0 <= p < |was| && p != i ==> scores[p] == was[p]
    requires forall p :: k <= p < i ==> scores[p] <= scores[i]
    requires k > 0 ==> scores[k - 1] >= scores[i]
    ensures Falling(Move(scores, i, k))
  {
    var r := Move(scores, i, k);
    forall a, b | 0 <= a < b < |r| ensures r[a] >= r[b] {
      MoveAt(scores, i, k, a);
      MoveAt(scores, i, k, b);
    }
  }

  // ----- Rows -----

  datatype Verdict = NA | AC | PA | WA

  datatype Part = Part(oldPoint: int, newPoint: int, oldVerdict: Verdict, newVerdict: Verdict)

  // A user's result on one problem, and on its subtasks 1, 2, ...
  datatype Cell = Cell(whole: Part, subs: map<nat, Part>)

  datatype Status = Untouched | Solved | Partially | Failed | Frozen

  function StatusOf(c: Part): Status {
    if c.oldVerdict.NA? && c.newVerdict.NA? then Untouched
    else if c.oldVerdict.AC? then Solved
    else if c.oldVerdict.PA? && c.newVerdict.NA? then Partially
    else if c.newVerdict.NA? && c.oldVerdict.WA? then Failed
    else Frozen
  }

  /** Exactly the results that were not solved at the freeze, and were tried by the end, are frozen. */
  lemma FrozenMeans(c: Part)
    ensures StatusOf(c).Frozen? <==> c.oldVerdict != AC && c.newVerdict != NA
  {
  }

  function Reveal(c: Part): Part {
    Part(c.newPoint, 0, c.newVerdict, NA)
  }

  /** What has been revealed is not frozen, whatever it was. */
  lemma RevealedIsNotFrozen(c: Part)
    ensures !StatusOf(Reveal(c)).Frozen?
  {
  }

  // What revealing a result adds to the score: a result that got worse takes nothing off.
  function Gained(c: Part): (gain: int)
    ensures gain >= 0
  {
    if c.newPoint > c.oldPoint then c.newPoint - c.oldPoint else 0
  }

  function PointStatus(point: int, best: int): Verdict {
    if point == best then AC else if point == 0 then WA else PA
  }

  function Total(points: seq<int>): int {
    if points == [] then 0 else Total(points[..|points| - 1]) + points[|points| - 1]
  }

  /** A problem whose subtasks all display their full points displays the full points of the problem, so that it is
      shown as solved, and a problem that displays anything else is not. */
  lemma {:induction false} FullPointsSolve(subs: map<nat, Part>, full: seq<int>)
    requires forall s :: 1 <= s <= |full| ==> s in subs && subs[s].oldPoint == full[s - 1]
    ensures ShownSubs(subs, |full|) == Total(full)
    ensures forall point :: PointStatus(point, Total(full)).AC? <==> point == ShownSubs(subs, |full|)
    ensures forall point :: PointStatus(point, Total(full)) == WA <==> point == 0 != ShownSubs(subs, |full|)
  {
    if full != [] {
      FullPointsSolve(subs, full[..|full| - 1]);
    }
  }

  class Row {
    const user: nat
    const last: int
    var score: int
    var rankShow: int
    var problem: map<nat, Cell>

    constructor (user: nat, last: int, score: int, problem: map<nat, Cell>)
      ensures this.user == user && this.last == last && this.score == score && this.problem == problem
    {
      this.user, this.last, this.score, this.problem, rankShow := user, last, score, problem, -1;
    }
  }

  // The displayed points of problems 1..n.
  function Shown(problem: map<nat, Cell>, n: nat): int
    requires forall j :: 1 <= j <= n ==> j in problem
  {
    if n == 0 then 0 else Shown(problem, n - 1) + problem[n].whole.oldPoint
  }

  lemma {:induction false} ShownAfter(problem: map<nat, Cell>, n: nat, j: nat, c: Cell)
    requires forall i :: 1 <= i <= n ==> i in problem
    requires 1 <= j
    ensures Shown(problem[j := c], n) ==
            Shown(problem, n) + if j <= n then c.whole.oldPoint - problem[j].whole.oldPoint else 0
  {
    if n > 0 {
      ShownAfter(problem, n - 1, j, c);
    }
  }

  // The subtasks 1..m-1 revealed, except those that were solved before the freeze.
  function Revealed(subs: map<nat, Part>, m: nat): (r: map<nat, Part>)
    ensures r.Keys == subs.Keys
  {
    map s | s in subs :: if 1 <= s < m && !subs[s].oldVerdict.AC? then Reveal(subs[s]) else subs[s]
  }

  lemma RevealedNext(subs: map<nat, Part>, m: nat)
    requires 1 <= m && m in subs
    ensures Revealed(subs, 1) == subs
    ensures Revealed(subs, m + 1) ==
            if subs[m].oldVerdict.AC? then Revealed(subs, m) else Revealed(subs, m)[m := Reveal(subs[m])]
  {
  }

  datatype Op =
    | SubOp(user: nat, index: nat, sub: nat, oldPoint: int, newPoint: int)
    | ProblemOp(user: nat, index: nat, oldPoint: int, newPoint: int, oldRank: nat, newRank: nat)
    | Show(user: nat)
    | Delay

  // One operation as a display carries it out.
  ghost function Apply<T>(order: seq<T>, op: Op): (r: seq<T>)
    ensures |r| == |order|
  {
    if op.ProblemOp? && 1 <= op.newRank <= op.oldRank <= |order| then Move(order, op.oldRank - 1, op.newRank - 1)
    else order
  }

  lemma ApplyPermutes<T>(order: seq<T>, op: Op)
    ensures multiset(Apply(order, op)) == multiset(order)
  {
    var r := Apply(order, op);
    if r != order {
      var i, k := op.oldRank - 1, op.newRank - 1;
      assert r == Move(order, i, k);
      MovePermutes(order, i, k);
    }
  }

  // What a display that knows only the operations makes of the initial order.
  ghost function Replay<T>(start: seq<T>, ops: seq<Op>): (order: seq<T>)
    ensures |order| == |start|
  {
    if ops == [] then start else Apply(Replay(start, ops[..|ops| - 1]), ops[|ops| - 1])
  }

  lemma ReplayNext<T>(start: seq<T>, ops: seq<Op>, op: Op)
    ensures Replay(start, ops + [op]) == Apply(Replay(start, ops), op)
  {
    assert (ops + [op])[..|ops|] == ops;
  }

  /** However long the ceremony, the rows are those it started with. */
  lemma {:induction false} ReplayPermutes<T>(start: seq<T>, ops: seq<Op>)
    ensures multiset(Replay(start, ops)) == multiset(start)
  {
    if ops != [] {
      ReplayPermutes(start, ops[..|ops| - 1]);
      ApplyPermutes(Replay(start, ops[..|ops| - 1]), ops[|ops| - 1]);
    }
  }

  // What one click of the ceremony does.
  datatype Step = Pausing | Showing(place: nat) | Opening(place: nat, problem: nat, sub: nat) | Nothing

  // ----- The scoreboard -----

  ghost predicate Distinct(rows: seq<Row>) {
    forall a, b :: 0 <= a < b < |rows| ==> rows[a] != rows[b]
  }

  ghost predicate Numbered(rows: seq<Row>)
    reads rows`rankShow
  {
    forall a :: 0 <= a < |rows| ==> rows[a].rankShow == a + 1
  }

  ghost function ScoresOf(rows: seq<Row>): (s: seq<int>)
    reads rows`score
    ensures |s| == |rows| && forall a :: 0 <= a < |rows| ==> s[a] == rows[a].score
  {
    if rows == [] then [] else ScoresOf(rows[..|rows| - 1]) + [rows[|rows| - 1].score]
  }

  datatype Snapshot = Snapshot(score: int, problem: map<nat, Cell>)

  ghost function SnapshotsOf(rows: seq<Row>): (p: seq<Snapshot>)
    reads rows`problem, rows`score
    ensures |p| == |rows| && forall a :: 0 <= a < |rows| ==> p[a] == Snapshot(rows[a].score, rows[a].problem)
  {
    if rows == [] then []
    else SnapshotsOf(rows[..|rows| - 1]) + [Snapshot(rows[|rows| - 1].score, rows[|rows| - 1].problem)]
  }

  // All rows but the one at i are like this.
  ghost predicate OthersAs(rows: seq<Row>, i: nat, was: seq<Snapshot>)
    reads rows`problem, rows`score
  {
    |was| == |rows| && forall a :: 0 <= a < |rows| && a != i ==> Snapshot(rows[a].score, rows[a].problem) == was[a]
  }

  lemma MoveKeepsDistinct(rows: seq<Row>, i: nat, k: nat)
    requires k <= i < |rows| && Distinct(rows)
    ensures Distinct(Move(rows, i, k))
  {
    forall a, b | 0 <= a < b < |rows| ensures Move(rows, i, k)[a] != Move(rows, i, k)[b] {
      MoveAt(rows, i, k, a);
      MoveAt(rows, i, k, b);
    }
  }

  // The rows from k on while the one at i is on its way up: the places above k and below i are untouched, those
  // between have moved down by one, and k is free.
  ghost predicate Climbing(rows: seq<Row>, s: seq<Row>, i: nat, k: nat) {
    && |rows| == |s| && k <= i < |s|
    && (forall p :: 0 <= p < k || i < p < |s| ==> rows[p] == s[p])
    && (forall p :: k < p <= i ==> rows[p] == s[p - 1])
  }

  ghost predicate ClimbRanks(s: seq<Row>, i: nat, k: nat)
    requires k <= i < |s|
    reads s`rankShow
  {
    && (forall p :: 0 <= p < k || i < p < |s| ==> s[p].rankShow == p + 1)
    && (forall p :: k <= p < i ==> s[p].rankShow == p + 2)
    && s[i].rankShow == k + 1
  }

  lemma ClimbEnds(rows: seq<Row>, s: seq<Row>, i: nat, k: nat)
    requires Climbing(rows, s, i, k) && ClimbRanks(s, i, k) && Distinct(s)
    ensures var r := rows[k := s[i]]; r == Move(s, i, k) && Distinct(r) && Numbered(r)
  {
    var r := rows[k := s[i]];
    forall p | 0 <= p < |s| ensures r[p] == Move(s, i, k)[p] && r[p].rankShow == p + 1 {
      MoveAt(s, i, k, p);
    }
    assert r == Move(s, i, k);
    MoveKeepsDistinct(s, i, k);
  }

  // Every row has a cell for every problem, and every cell a part for every subtask.
  predicate Shaped(problem: map<nat, Cell>, problemSub: seq<nat>) {
    forall j :: 1 <= j <= |problemSub| ==>
      j in problem && forall s :: 1 <= s <= problemSub[j - 1] ==> s in problem[j].subs
  }

  ghost predicate AllShaped(rows: seq<Row>, problemSub: seq<nat>)
    reads rows`problem
  {
    forall a :: 0 <= a < |rows| ==> Shaped(rows[a].problem, problemSub)
  }

  lemma ShapedAfter(problem: map<nat, Cell>, problemSub: seq<nat>, j: nat, c: Cell)
    requires Shaped(problem, problemSub) && j in problem && c.subs.Keys == problem[j].subs.Keys
    ensures Shaped(problem[j := c], problemSub)
  {
  }

  lemma MoveKeepsShaped(s: seq<Row>, i: nat, k: nat, problemSub: seq<nat>)
    requires k <= i < |s| && AllShaped(s, problemSub)
    ensures AllShaped(Move(s, i, k), problemSub)
  {
  }

  function FrozenIn(problem: map<nat, Cell>, n: nat): set<nat> {
    set j | j in problem && 1 <= j <= n && StatusOf(problem[j].whole).Frozen?
  }

  lemma RevealUnfreezes(problem: map<nat, Cell>, n: nat, j: nat, c: Cell)
    requires j in problem && c.whole == Reveal(problem[j].whole)
    ensures FrozenIn(problem[j := c], n) == FrozenIn(problem, n) - {j}
  {
    RevealedIsNotFrozen(problem[j].whole);
  }

  ghost predicate NoneFrozen(r: Row, n: nat)
    reads r`problem
  {
    FrozenIn(r.problem, n) == {}
  }

  function RevealedCell(c: Cell, m: nat): Cell {
    Cell(Reveal(c.whole), Revealed(c.subs, m))
  }

  // Every cell is the original one, or what revealing it gives when its result was frozen.
  ghost predicate Resolved(now: map<nat, Cell>, was: map<nat, Cell>, subFrozen: seq<nat>) {
    && now.Keys == was.Keys
    && forall j :: 1 <= j <= |subFrozen| && j in was ==>
      now[j] == was[j] || (StatusOf(was[j].whole).Frozen? && now[j] == RevealedCell(was[j], subFrozen[j - 1]))
  }

  lemma RevealResolves(now: map<nat, Cell>, was: map<nat, Cell>, subFrozen: seq<nat>, j: nat)
    requires Resolved(now, was, subFrozen) && j in FrozenIn(now, |subFrozen|)
    ensures Resolved(now[j := RevealedCell(now[j], subFrozen[j - 1])], was, subFrozen)
  {
    RevealedIsNotFrozen(was[j].whole);
  }

  // A result with what was behind it in front, and nothing behind it.
  ghost predicate BroughtOut(now: Part, was: Part) {
    && now.oldPoint == was.newPoint && now.oldVerdict == was.newVerdict
    && now.newPoint == 0 && now.newVerdict == NA
  }

  /** A result that was not solved at the freeze but tried by the end is brought out, and with it those of its subtasks
      below m that were not solved at the freeze; nothing else changes. */
  ghost predicate CellEnds(now: Cell, was: Cell, m: nat) {
    if was.whole.oldVerdict == AC || was.whole.newVerdict == NA then now == was else
    && BroughtOut(now.whole, was.whole) && now.subs.Keys == was.subs.Keys
    && forall s :: s in was.subs ==>
      if 1 <= s < m && was.subs[s].oldVerdict != AC then BroughtOut(now.subs[s], was.subs[s])
      else now.subs[s] == was.subs[s]
  }

  lemma RevealedEnds(c: Cell, m: nat)
    requires c.whole.oldVerdict != AC && c.whole.newVerdict != NA
    ensures CellEnds(RevealedCell(c, m), c, m)
  {
  }

  /** When nothing is frozen any more, exactly the frozen results were replaced, by what was behind them. */
  lemma ResolvedFully(now: map<nat, Cell>, was: map<nat, Cell>, subFrozen: seq<nat>, j: nat)
    requires Resolved(now, was, subFrozen) && FrozenIn(now, |subFrozen|) == {}
    requires 1 <= j <= |subFrozen| && j in was
    ensures CellEnds(now[j], was[j], subFrozen[j - 1])
  {
    assert j !in FrozenIn(now, |subFrozen|);
    FrozenMeans(was[j].whole);
    if now[j] != was[j] {
      RevealedEnds(was[j], subFrozen[j - 1]);
    }
  }

  /** Revealing a result adds what it gained to the score, so that the score keeps its distance from the sum of the
      displayed points, except that a result that got worse is not taken off the score. */
  lemma RevealKeepsDistance(problem: map<nat, Cell>, n: nat, j: nat, c: Cell, score: int)
    requires (forall i :: 1 <= i <= n ==> i in problem) && 1 <= j <= n && c.whole == Reveal(problem[j].whole)
    ensures var w := problem[j].whole;
            (score + Gained(w)) - Shown(problem[j := c], n) ==
            score - Shown(problem, n) + if w.newPoint < w.oldPoint then w.oldPoint - w.newPoint else 0
  {
    ShownAfter(problem, n, j, c);
  }

  // The displayed points of subtasks 1..n.
  function ShownSubs(subs: map<nat, Part>, n: nat): int
    requires forall s :: 1 <= s <= n ==> s in subs
  {
    if n == 0 then 0 else ShownSubs(subs, n - 1) + subs[n].oldPoint
  }

  lemma {:induction false} ShownSubsAfter(subs: map<nat, Part>, n: nat, s: nat, c: Part)
    requires 1 <= s && forall i :: 1 <= i <= n ==> i in subs
    ensures ShownSubs(subs[s := c], n) ==
            ShownSubs(subs, n) + if s <= n then c.oldPoint - subs[s].oldPoint else 0
  {
    if n > 0 {
      ShownSubsAfter(subs, n - 1, s, c);
    }
  }

  // What is still to be gained: among problems 1..n, by those with more points behind what is displayed, if they were
  // not solved at the freeze but tried by the end.
  ghost function Gain(problem: map<nat, Cell>, n: nat): (gain: int)
    ensures gain >= 0
  {
    if n == 0 then 0 else
    Gain(problem, n - 1) +
    if n in problem && problem[n].whole.oldVerdict != AC && problem[n].whole.newVerdict != NA
       && problem[n].whole.newPoint > problem[n].whole.oldPoint
    then problem[n].whole.newPoint - problem[n].whole.oldPoint
    else 0
  }

  /** Revealing a frozen result takes its gain out of what is still to be gained. */
  lemma {:induction false} GainAfter(problem: map<nat, Cell>, n: nat, j: nat, c: Cell)
    requires 1 <= j && j in problem && StatusOf(problem[j].whole).Frozen? && c.whole == Reveal(problem[j].whole)
    ensures Gain(problem[j := c], n) == Gain(problem, n) - if j <= n then Gained(problem[j].whole) else 0
  {
    FrozenMeans(problem[j].whole);
    if n > 0 {
      GainAfter(problem, n - 1, j, c);
    }
  }

  lemma {:induction false} NothingToGain(problem: map<nat, Cell>, n: nat, all: nat)
    requires n <= all && FrozenIn(problem, all) == {}
    ensures Gain(problem, n) == 0
  {
    if n > 0 {
      NothingToGain(problem, n - 1, all);
      assert n !in FrozenIn(problem, all);
      if n in problem {
        FrozenMeans(problem[n].whole);
      }
    }
  }

  // And what a row has gained since is what is no longer to be gained.
  ghost predicate AllResolved(all: set<Row>, was: map<Row, Snapshot>, subFrozen: seq<nat>)
    reads all`problem, all`score
  {
    forall r :: r in all ==>
      && r in was && Resolved(r.problem, was[r].problem, subFrozen)
      && r.score + Gain(r.problem, |subFrozen|) == was[r].score + Gain(was[r].problem, |subFrozen|)
  }

  // A row changed, by revealing one of its frozen results.
  lemma StillResolved(all: set<Row>, was: map<Row, Snapshot>, subFrozen: seq<nat>, row: Row, before: Snapshot, j: nat)
    requires row in all && row in was && j in FrozenIn(before.problem, |subFrozen|)
    requires Resolved(before.problem, was[row].problem, subFrozen)
    requires before.score + Gain(before.problem, |subFrozen|) ==
             was[row].score + Gain(was[row].problem, |subFrozen|)
    requires row.problem == before.problem[j := RevealedCell(before.problem[j], subFrozen[j - 1])]
    requires row.score == before.score + Gained(before.problem[j].whole)
    requires AllResolved(all - {row}, was, subFrozen)
    ensures AllResolved(all, was, subFrozen)
  {
    RevealResolves(before.problem, was[row].problem, subFrozen, j);
    GainAfter(before.problem, |subFrozen|, j, row.problem[j]);
  }

  // The frozen cells of all rows.
  ghost function FrozenCells(all: set<Row>, n: nat): set<(Row, nat)>
    reads all`problem
  {
    set r, j | r in all && j in FrozenIn(r.problem, n) :: (r, j)
  }

  predicate Outranks(r: Row, above: Row, byTime: bool)
    reads r`score, above`score
  {
    above.score < r.score || (byTime && above.score == r.score && above.last > r.last)
  }

  // k is where the row at i has to stop: it outranks all rows between, and not the next one.
  ghost predicate StopsAt(s: seq<Row>, i: nat, k: nat, byTime: bool)
    requires k <= i < |s|
    reads s`score
  {
    (forall p :: k <= p < i ==> Outranks(s[i], s[p], byTime)) && (k > 0 ==> !Outranks(s[i], s[k - 1], byTime))
  }

  // The scores were in order, and only the one at i has grown since.
  ghost predicate Grown(s: seq<Row>, was: seq<int>, i: nat)
    reads s`score
  {
    && i < |s| == |was| && Falling(was) && s[i].score >= was[i]
    && forall p :: 0 <= p < |s| && p != i ==> s[p].score == was[p]
  }

  lemma StoppedRowsFall(s: seq<Row>, was: seq<int>, i: nat, k: nat, byTime: bool)
    requires k <= i < |s| && Grown(s, was, i) && StopsAt(s, i, k, byTime)
    ensures Falling(ScoresOf(Move(s, i, k)))
  {
    ScoresMove(s, i, k);
    MoveKeepsFalling(ScoresOf(s), was, i, k);
  }

  ghost predicate OneEach(rows: seq<Row>) {
    forall a, b :: 0 <= a < b < |rows| ==> rows[a].user != rows[b].user
  }

  lemma UsersMove(rows: seq<Row>, i: nat, k: nat)
    requires k <= i < |rows|
    ensures (set r | r in Move(rows, i, k) :: r.user) == (set r | r in rows :: r.user)
    ensures OneEach(rows) ==> OneEach(Move(rows, i, k))
  {
    forall a, b | 0 <= a < b < |rows| && OneEach(rows) ensures Move(rows, i, k)[a].user != Move(rows, i, k)[b].user {
      MoveAt(rows, i, k, a);
      MoveAt(rows, i, k, b);
    }
    forall p | 0 <= p < |rows| ensures Move(rows, i, k)[p] in rows && rows[p] in Move(rows, i, k) {
      MoveAt(rows, i, k, p);
      MoveAt(rows, i, k, if p < k || p > i then p else if p == i then k else p + 1);
    }
  }

  // By score and, among equals, by the time of the last submission.
  ghost predicate InOrder(s: seq<Row>)
    reads s`score
  {
    forall a, b :: 0 <= a < b < |s| ==> !Outranks(s[b], s[a], true)
  }

  // The same, but for the row at i, which may be too low.
  ghost predicate InOrderBut(s: seq<Row>, i: nat)
    reads s`score
  {
    forall a, b :: 0 <= a < b < |s| && b != i ==> !Outranks(s[b], s[a], true)
  }

  lemma StoppedRowsInOrder(s: seq<Row>, i: nat, k: nat)
    requires k <= i < |s| && InOrderBut(s, i) && StopsAt(s, i, k, true)
    ensures InOrder(Move(s, i, k))
  {
    var r := Move(s, i, k);
    forall a, b | 0 <= a < b < |r| ensures !Outranks(r[b], r[a], true) {
      MoveAt(s, i, k, a);
      MoveAt(s, i, k, b);
      if b == k && a < k - 1 {
        assert !Outranks(s[k - 1], s[a], true);
      }
    }
  }

  /** If the row stops below its equals, the order by time holds afterwards if and only if it holds between the row and
      the one just above it. */
  lemma StoppedBelowEquals(s: seq<Row>, i: nat, k: nat)
    requires k <= i < |s| && InOrderBut(s, i) && StopsAt(s, i, k, false)
    ensures InOrder(Move(s, i, k)) <==> k == 0 || Behind(Move(s, i, k), k)
  {
    var r := Move(s, i, k);
    MoveAt(s, i, k, k);
    if k > 0 {
      MoveAt(s, i, k, k - 1);
      assert Behind(r, k) <==> !Outranks(s[i], s[k - 1], true);
    }
    if k == 0 || Behind(r, k) {
      StoppedRowsInOrder(s, i, k);
    }
  }

  lemma StoppedInOrder(s: seq<Row>, i: nat, k: nat, byTime: bool)
    requires k <= i < |s| && InOrderBut(s, i) && StopsAt(s, i, k, byTime)
    ensures InOrder(Move(s, i, k)) <==> byTime || k == 0 || Behind(Move(s, i, k), k)
  {
    if byTime {
      StoppedRowsInOrder(s, i, k);
    } else {
      StoppedBelowEquals(s, i, k);
    }
  }

  /** A board is in order if and only if every row stands right behind the one above it. */
  lemma NeighboursInOrder(s: seq<Row>)
    ensures InOrder(s) <==> forall a :: 0 < a < |s| ==> Behind(s, a)
  {
    if InOrder(s) {
      forall a | 0 < a < |s| ensures Behind(s, a) {
        assert !Outranks(s[a], s[a - 1], true);
      }
    }
    if forall a :: 0 < a < |s| ==> Behind(s, a) {
      forall a, b | 0 <= a < b < |s| ensures !Outranks(s[b], s[a], true) {
        FarBehind(s, a, b);
      }
    }
  }

  // The row has a smaller score than the one above it, or the same one and no earlier last submission.
  ghost predicate Behind(s: seq<Row>, a: nat)
    requires 0 < a < |s|
    reads s`score
  {
    s[a].score < s[a - 1].score || (s[a].score == s[a - 1].score && s[a - 1].last <= s[a].last)
  }

  lemma {:induction false} FarBehind(s: seq<Row>, a: nat, b: nat)
    requires a <= b < |s| && forall p :: 0 < p < |s| ==> Behind(s, p)
    ensures s[b].score < s[a].score || (s[b].score == s[a].score && s[a].last <= s[b].last)
  {
    if a < b {
      FarBehind(s, a, b - 1);
      assert Behind(s, b);
    }
  }

  lemma ScoresMove(rows: seq<Row>, i: nat, k: nat)
    requires k <= i < |rows|
    ensures ScoresOf(Move(rows, i, k)) == Move(ScoresOf(rows), i, k)
  {
    forall p | 0 <= p < |rows| ensures ScoresOf(Move(rows, i, k))[p] == Move(ScoresOf(rows), i, k)[p] {
      MoveAt(rows, i, k, p);
      MoveAt(ScoresOf(rows), i, k, p);
    }
  }

  // What the start of the ceremony settles: where each user's score has to end, and whether equals stand by time.
  datatype Goal = Goal(finals: map<nat, int>, timed: bool)

  class Scoreboard {
    const problemSub: seq<nat>
    const subFrozen: seq<nat>
    // The full points of each subtask, and the final points by user, problem and subtask.
    const full: seq<seq<int>>
    const points: map<nat, map<nat, seq<int>>>
    var check: set<(nat, nat, nat)>
    var isshow: seq<nat>
    var delay: bool
    var rankarr: seq<Row>
    var operations: seq<Op>
    ghost const start: seq<Row>
    ghost var goal: Goal

    constructor (problemSub: seq<nat>, subFrozen: seq<nat>, full: seq<seq<int>>, points: map<nat, map<nat, seq<int>>>,
                 rankarr: seq<Row>)
      ensures this.problemSub == problemSub && this.subFrozen == subFrozen && this.full == full && this.points == points
      ensures this.rankarr == start == rankarr && operations == [] && check == {}
      ensures isshow == [] && !delay
    {
      this.problemSub, this.subFrozen, this.full, this.points := problemSub, subFrozen, full, points;
      this.rankarr, this.start, operations, check := rankarr, rankarr, [], {};
      isshow, delay := [], false;
      goal := Goal(map[], false);
    }

    // Numbers the rows, which were sorted by score and time.
    method NumberRows()
      requires SizesOk() && Distinct(rankarr) && InOrder(rankarr) && AllShaped(rankarr, problemSub)
      requires rankarr == start && operations == []
      modifies rankarr`rankShow
      ensures Board()
    {
      for i := 0 to |rankarr|
        invariant forall p :: 0 <= p < i ==> rankarr[p].rankShow == p + 1
      {
        rankarr[i].rankShow := i + 1;
      }
      forall a, b | 0 <= a < b < |rankarr| ensures ScoresOf(rankarr)[a] >= ScoresOf(rankarr)[b] {
        assert !Outranks(rankarr[b], rankarr[a], true);
      }
    }

    ghost predicate SizesOk() {
      |subFrozen| == |problemSub| && forall j :: 0 <= j < |subFrozen| ==> subFrozen[j] <= problemSub[j] + 1
    }

    // The rows stand in the order of their scores, with their places as ranks.
    ghost predicate Standing()
      reads this`rankarr, rankarr`score, rankarr`rankShow, rankarr`problem
    {
      SizesOk() && Distinct(rankarr) && Numbered(rankarr) && Falling(ScoresOf(rankarr)) &&
        AllShaped(rankarr, problemSub)
    }

    // And the operations have moved them there.
    ghost predicate Board()
      reads this`rankarr, this`operations, rankarr`score, rankarr`rankShow, rankarr`problem
    {
      Standing() && Replay(start, operations) == rankarr
    }

    // The row above the free place k moves into it.
    method Pass(tmp: Row, above: Row, k: nat, ghost s: seq<Row>, ghost i: nat)
      requires 0 < k && Climbing(rankarr, s, i, k) && ClimbRanks(s, i, k) && Distinct(s)
      requires tmp == s[i] && above == rankarr[k - 1]
      modifies this`rankarr, tmp`rankShow, above`rankShow
      ensures Climbing(rankarr, s, i, k - 1) && ClimbRanks(s, i, k - 1)
    {
      tmp.rankShow := tmp.rankShow - 1;
      above.rankShow := above.rankShow + 1;
      rankarr := rankarr[k := above];
    }

    // Makes every row directly above i that the row at i outranks move down, and frees place k.
    method Climb(i: nat, byTime: bool) returns (k: nat)
      requires i < |rankarr| && Distinct(rankarr) && Numbered(rankarr)
      modifies this`rankarr, rankarr`rankShow
      ensures Climbing(rankarr, old(rankarr), i, k) && ClimbRanks(old(rankarr), i, k)
      ensures StopsAt(old(rankarr), i, k, byTime)
    {
      ghost var s := rankarr;
      var tmp := rankarr[i];
      k := i;
      while k > 0 && Outranks(tmp, rankarr[k - 1], byTime)
        invariant Climbing(rankarr, s, i, k) && ClimbRanks(s, i, k)
        invariant forall p :: k <= p < i ==> Outranks(tmp, s[p], byTime)
        modifies this`rankarr, s`rankShow
      {
        Pass(tmp, rankarr[k - 1], k, s, i);
        k := k - 1;
      }
    }

    // Lifts the row at i past every row directly above it that it outranks, and renumbers both.
    method Raise(i: nat, byTime: bool) returns (k: nat)
      requires i < |rankarr| && Distinct(rankarr) && Numbered(rankarr)
      modifies this`rankarr, rankarr`rankShow
      ensures k <= i && rankarr == Move(old(rankarr), i, k) && Distinct(rankarr) && Numbered(rankarr)
      ensures StopsAt(old(rankarr), i, k, byTime)
    {
      ghost var s := rankarr;
      var tmp := rankarr[i];
      k := Climb(i, byTime);
      ClimbEnds(rankarr, s, i, k);
      rankarr := rankarr[k := tmp];
    }

    method Emit(op: Op)
      requires !op.ProblemOp?
      modifies this`operations
      ensures operations == old(operations) + [op] && Replay(start, operations) == Replay(start, old(operations))
    {
      ReplayNext(start, operations, op);
      operations := operations + [op];
    }

    // Reveals the subtasks of one cell that were not solved before the freeze.
    method RevealParts(row: Row, j: nat)
      requires 1 <= j <= |subFrozen| == |problemSub| && subFrozen[j - 1] <= problemSub[j - 1] + 1
      requires Shaped(row.problem, problemSub)
      modifies row`problem, this`operations
      ensures row.problem ==
              old(row.problem)[j := old(row.problem)[j].(subs := Revealed(old(row.problem)[j].subs, subFrozen[j - 1]))]
      ensures old(operations) <= operations && Replay(start, operations) == Replay(start, old(operations))
    {
      ghost var was := row.problem;
      ghost var subs := was[j].subs;
      assert was == was[j := was[j]];
      if subFrozen[j - 1] == 0 {
        assert Revealed(subs, 0) == subs;
        return;
      }
      assert Revealed(subs, 1) == subs;
      for sub := 1 to subFrozen[j - 1]
        invariant row.problem == was[j := was[j].(subs := Revealed(subs, sub))]
        invariant old(operations) <= operations && Replay(start, operations) == Replay(start, old(operations))
      {
        RevealedNext(subs, sub);
        var cell := row.problem[j];
        var part := cell.subs[sub];
        if part.oldVerdict.AC? {
          continue;
        }
        row.problem := row.problem[j := cell.(subs := cell.subs[sub := Reveal(part)])];
        Emit(SubOp(row.user, j, sub, part.oldPoint, part.newPoint));
      }
    }

    // The row's points on one problem become the new ones; its score only ever grows.
    method RevealWhole(row: Row, j: nat) returns (whole: Part)
      requires j in row.problem
      modifies row`score, row`problem
      ensures whole == old(row.problem)[j].whole
      ensures row.problem == old(row.problem)[j := old(row.problem)[j].(whole := Reveal(whole))]
      ensures row.score == old(row.score) + Gained(whole)
    {
      whole := row.problem[j].whole;
      if whole.newPoint > whole.oldPoint {
        row.score := row.score + (whole.newPoint - whole.oldPoint);
      }
      row.problem := row.problem[j := row.problem[j].(whole := Reveal(whole))];
    }

    // The row at i, which alone may have gained since the scores were `was`, takes its place, and the move is logged.
    method Settle(i: nat, byTime: bool, j: nat, whole: Part, ghost was: seq<int>) returns (k: nat)
      requires Grown(rankarr, was, i) && Distinct(rankarr) && Numbered(rankarr) && Replay(start, operations) == rankarr
      requires AllShaped(rankarr, problemSub) && SizesOk()
      modifies this`rankarr, this`operations, rankarr`rankShow
      ensures k <= i && rankarr == Move(old(rankarr), i, k)
      ensures Board()
      ensures old(InOrderBut(rankarr, i)) ==> (InOrder(rankarr) <==> byTime || k == 0 || Behind(rankarr, k))
      ensures operations ==
              old(operations) + [ProblemOp(old(rankarr)[i].user, j, whole.oldPoint, whole.newPoint, i + 1, k + 1)]
      ensures StopsAt(old(rankarr), i, k, byTime)
    {
      ghost var s := rankarr;
      var user := rankarr[i].user;
      k := Lift(i, byTime, was);
      LogMove(s, i, k, ProblemOp(user, j, whole.oldPoint, whole.newPoint, i + 1, k + 1));
    }

    method Lift(i: nat, byTime: bool, ghost was: seq<int>) returns (k: nat)
      requires Grown(rankarr, was, i) && Distinct(rankarr) && Numbered(rankarr) && AllShaped(rankarr, problemSub) &&
               SizesOk()
      modifies this`rankarr, rankarr`rankShow
      ensures k <= i && rankarr == Move(old(rankarr), i, k) && StopsAt(old(rankarr), i, k, byTime) && Standing()
      ensures old(InOrderBut(rankarr, i)) ==> (InOrder(rankarr) <==> byTime || k == 0 || Behind(rankarr, k))
    {
      ghost var s, inOrder := rankarr, InOrderBut(rankarr, i);
      k := Raise(i, byTime);
      assert inOrder == InOrderBut(s, i);
      if inOrder {
        StoppedInOrder(s, i, k, byTime);
      }
      StoppedRowsFall(s, was, i, k, byTime);
      MoveKeepsShaped(s, i, k, problemSub);
    }

    method LogMove(ghost s: seq<Row>, ghost i: nat, ghost k: nat, op: Op)
      requires k <= i < |s| && rankarr == Move(s, i, k) && Replay(start, operations) == s
      requires op.ProblemOp? && op.oldRank == i + 1 && op.newRank == k + 1 && Standing()
      modifies this`operations
      ensures Board() && operations == old(operations) + [op]
    {
      ReplayNext(start, operations, op);
      operations := operations + [op];
    }

    // Reveals one frozen cell of a row.
    method RevealCell(row: Row, j: nat, ghost all: set<Row>) returns (whole: Part)
      requires 1 <= j <= |subFrozen| == |problemSub| && subFrozen[j - 1] <= problemSub[j - 1] + 1
      requires Shaped(row.problem, problemSub) && row in all
      modifies row`score, row`problem, this`operations
      ensures whole == old(row.problem[j].whole)
      ensures Shaped(row.problem, problemSub)
      ensures row.problem ==
              old(row.problem)[j := Cell(Reveal(whole), Revealed(old(row.problem)[j].subs, subFrozen[j - 1]))]
      ensures FrozenCells(all, |problemSub|) == old(FrozenCells(all, |problemSub|)) - {(row, j)}
      ensures row.score == old(row.score) + Gained(whole)
      ensures old(operations) <= operations && Replay(start, operations) == Replay(start, old(operations))
    {
      ghost var problem, n := row.problem, |problemSub|;
      ghost var before := FrozenCells(all, n);
      RevealParts(row, j);
      whole := RevealWhole(row, j);
      ghost var c := row.problem[j];
      assert row.problem == problem[j := c];
      ShapedAfter(problem, problemSub, j, c);
      RevealUnfreezes(problem, n, j, c);
      assert forall r, k :: (r, k) in FrozenCells(all, n) <==> (r, k) in before && (r, k) != (row, j);
    }

    // The same for the row at i, as a step of the scoreboard that leaves only its place to be found.
    method RevealAt(row: Row, i: nat, j: nat, ghost all: set<Row>) returns (whole: Part)
      requires Board() && i < |rankarr| && 1 <= j <= |problemSub| && row == rankarr[i] && row in all
      modifies row`score, row`problem, this`operations
      ensures whole == old(row.problem[j].whole)
      ensures Grown(rankarr, old(ScoresOf(rankarr)), i) && AllShaped(rankarr, problemSub)
      ensures row.problem ==
              old(row.problem)[j := Cell(Reveal(whole), Revealed(old(row.problem)[j].subs, subFrozen[j - 1]))]
      ensures row.score == old(row.score) + Gained(whole)
      ensures FrozenCells(all, |problemSub|) == old(FrozenCells(all, |problemSub|)) - {(row, j)}
      ensures old(operations) <= operations && Replay(start, operations) == rankarr
      ensures old(InOrder(rankarr)) ==> InOrderBut(rankarr, i)
    {
      whole := RevealCell(row, j, all);
    }

    /** Reveals one frozen cell of the row at i, and lifts the row to its place. */
    method Unfreeze(i: nat, j: nat, ghost all: set<Row>) returns (k: nat)
      requires Board() && i < |rankarr| && 1 <= j <= |problemSub| && rankarr[i] in all
      modifies this`rankarr, this`operations, rankarr`score, rankarr`problem, rankarr`rankShow
      ensures Board() && k <= i && rankarr == Move(old(rankarr), i, k)
      ensures FrozenCells(all, |problemSub|) == old(FrozenCells(all, |problemSub|)) - {(old(rankarr)[i], j)}
      ensures forall r :: r in all && r != old(rankarr)[i] ==> r.score == old(r.score) && r.problem == old(r.problem)
      ensures var row, problem := old(rankarr)[i], old(rankarr[i].problem);
              var whole := problem[j].whole;
              && row.problem == problem[j := Cell(Reveal(whole), Revealed(problem[j].subs, subFrozen[j - 1]))]
              && row.score == old(rankarr[i].score) + Gained(whole)
              && old(operations) < operations
              && operations[|operations| - 1] == ProblemOp(row.user, j, whole.oldPoint, whole.newPoint, i + 1, k + 1)
      ensures StopsAt(old(rankarr), i, k, false)
      ensures old(InOrder(rankarr)) ==> (InOrder(rankarr) <==> k == 0 || Behind(rankarr, k))
    {
      ghost var was := ScoresOf(rankarr);
      var whole := RevealAt(rankarr[i], i, j, all);
      k := Settle(i, false, j, whole, was);
    }

    // The same, as far as it matters for what is resolved.
    method UnfreezeRow(i: nat, j: nat, ghost all: set<Row>)
      requires Board() && i < |rankarr| && j in FrozenIn(rankarr[i].problem, |problemSub|) && rankarr[i] in all
      modifies this`rankarr, this`operations, rankarr`score, rankarr`problem, rankarr`rankShow
      ensures Board() && SameBelow(rankarr, old(rankarr), i)
      ensures FrozenCells(all, |problemSub|) < old(FrozenCells(all, |problemSub|))
      ensures forall r :: r in all && r != old(rankarr)[i] ==> r.score == old(r.score) && r.problem == old(r.problem)
      ensures var row, problem := old(rankarr)[i], old(rankarr[i].problem);
              && row.problem ==
                 problem[j := Cell(Reveal(problem[j].whole), Revealed(problem[j].subs, subFrozen[j - 1]))]
              && row.score == old(rankarr[i].score) + Gained(problem[j].whole)
    {
      ghost var s := rankarr;
      assert (s[i], j) in FrozenCells(all, |problemSub|);
      var k := Unfreeze(i, j, all);
      MoveBelow(s, i, k);
    }

    // The same rows, and from i + 1 on in the same places.
    ghost predicate SameBelow(rows: seq<Row>, was: seq<Row>, i: nat) {
      && |rows| == |was| && (forall r :: r in rows ==> r in was)
      && forall p :: i < p < |was| ==> rows[p] == was[p]
    }

    lemma MoveBelow(s: seq<Row>, i: nat, k: nat)
      requires k <= i < |s|
      ensures SameBelow(Move(s, i, k), s, i)
    {
      forall p | 0 <= p < |s| ensures Move(s, i, k)[p] in s && (p > i ==> Move(s, i, k)[p] == s[p]) {
        MoveAt(s, i, k, p);
      }
    }

    ghost predicate NextFrozen(problem: map<nat, Cell>, j: nat) {
      if j == 0 then FrozenIn(problem, |problemSub|) == {} else
      j in FrozenIn(problem, |problemSub|) && forall p :: 1 <= p < j ==> p !in FrozenIn(problem, |problemSub|)
    }

    // The first frozen problem of a row, or 0.
    method FindFrozen(row: Row) returns (j: nat)
      requires Shaped(row.problem, problemSub)
      ensures NextFrozen(row.problem, j)
    {
      for i := 1 to |problemSub| + 1
        invariant forall p :: 1 <= p < i ==> p !in FrozenIn(row.problem, |problemSub|)
      {
        if StatusOf(row.problem[i].whole).Frozen? {
          return i;
        }
      }
      return 0;
    }

    ghost predicate Settled(from: nat)
      reads this`rankarr, rankarr`problem
    {
      forall p :: from <= p < |rankarr| ==> NoneFrozen(rankarr[p], |problemSub|)
    }

    ghost predicate Within(all: set<Row>)
      reads this`rankarr
    {
      forall r :: r in rankarr ==> r in all
    }

    // Everything from a place downwards is revealed; `was` is how the rows began.
    ghost predicate Resolving(from: nat, all: set<Row>, was: map<Row, Snapshot>)
      reads this`rankarr, this`operations, rankarr`score, rankarr`rankShow, rankarr`problem, all`score, all`problem
    {
      Board() && Within(all) && Settled(from) && AllResolved(all, was, subFrozen)
    }

    method UnfreezeOne(i: nat, j: nat, ghost all: set<Row>, ghost was: map<Row, Snapshot>)
      requires i < |rankarr| && Board() && Within(all) && AllResolved(all, was, subFrozen)
      requires j in FrozenIn(rankarr[i].problem, |problemSub|)
      modifies this`rankarr, this`operations, all`score, all`problem, all`rankShow
      ensures Board() && Within(all) && AllResolved(all, was, subFrozen)
      ensures |rankarr| == |old(rankarr)| && forall p :: i < p < |rankarr| ==>
                rankarr[p] == old(rankarr)[p] && rankarr[p].problem == old(rankarr[p].problem)
      ensures FrozenCells(all, |problemSub|) < old(FrozenCells(all, |problemSub|))
    {
      ghost var s := rankarr;
      ghost var before := Snapshot(s[i].score, s[i].problem);
      UnfreezeRow(i, j, all);
      StillResolved(all, was, subFrozen, s[i], before, j);
    }

    // One round at place i: one frozen cell fewer, and the rows below keep their results.
    method SettleStep(i: nat, j: nat, ghost all: set<Row>, ghost was: map<Row, Snapshot>)
      requires i < |rankarr| && Resolving(i + 1, all, was) && j in FrozenIn(rankarr[i].problem, |problemSub|)
      modifies this`rankarr, this`operations, all`score, all`problem, all`rankShow
      ensures |rankarr| == |old(rankarr)| && Resolving(i + 1, all, was)
      ensures FrozenCells(all, |problemSub|) < old(FrozenCells(all, |problemSub|))
    {
      UnfreezeOne(i, j, all, was);
    }

    method SettleRound(i: nat, j: nat, ghost all: set<Row>, ghost was: map<Row, Snapshot>) returns (j': nat)
      requires i < |rankarr| && Resolving(i + 1, all, was) && j in FrozenIn(rankarr[i].problem, |problemSub|)
      modifies this`rankarr, this`operations, all`score, all`problem, all`rankShow
      ensures |rankarr| == |old(rankarr)| && Resolving(i + 1, all, was)
      ensures NextFrozen(rankarr[i].problem, j')
      ensures FrozenCells(all, |problemSub|) < old(FrozenCells(all, |problemSub|))
    {
      SettleStep(i, j, all, was);
      j' := FindFrozen(rankarr[i]);
    }

    lemma OneMoreSettled(i: nat, all: set<Row>, was: map<Row, Snapshot>)
      requires i < |rankarr| && Resolving(i + 1, all, was) && NextFrozen(rankarr[i].problem, 0)
      ensures Resolving(i, all, was)
    {
    }

    // Reveals everything at place i: a row that climbs away hands the place to the one above it.
    method SettlePlace(i: nat, ghost all: set<Row>, ghost was: map<Row, Snapshot>)
      requires i < |rankarr| && Resolving(i + 1, all, was)
      modifies this`rankarr, this`operations, all`score, all`problem, all`rankShow
      ensures |rankarr| == |old(rankarr)| && Resolving(i, all, was)
    {
      var j := FindFrozen(rankarr[i]);
      if j > 0 {
        SettleFrozen(i, j, all, was);
      } else {
        OneMoreSettled(i, all, was);
      }
    }

    method SettleFrozen(i: nat, first: nat, ghost all: set<Row>, ghost was: map<Row, Snapshot>)
      requires i < |rankarr| && Resolving(i + 1, all, was) && first > 0 && NextFrozen(rankarr[i].problem, first)
      modifies this`rankarr, this`operations, all`score, all`problem, all`rankShow
      ensures |rankarr| == |old(rankarr)| && Resolving(i, all, was)
    {
      var j := first;
      ghost var n, frozen := |rankarr|, FrozenCells(all, |problemSub|);
      while j > 0
        invariant i < |rankarr| == n && Resolving(i + 1, all, was) && NextFrozen(rankarr[i].problem, j)
        invariant frozen == FrozenCells(all, |problemSub|)
        decreases frozen
      {
        j := SettleRound(i, j, all, was);
        frozen := FrozenCells(all, |problemSub|);
      }
      OneMoreSettled(i, all, was);
    }

    /** What resolving leaves of a row: every result on the board that was not solved at the freeze, but tried by the
        end, is brought out, and the score has grown by exactly the sum of what those results had to gain. */
    ghost predicate RowEnds(now: Snapshot, was: Snapshot) {
      && |subFrozen| == |problemSub| && now.problem.Keys == was.problem.Keys
      && (forall j :: 1 <= j <= |problemSub| && j in was.problem ==>
            CellEnds(now.problem[j], was.problem[j], subFrozen[j - 1]))
      && now.score == was.score + Gain(was.problem, |problemSub|)
    }

    /** Resolves the board from the last place upwards: the same rows, each with its frozen results brought out and
        added up, stand in the order of their scores with their places as ranks, where the operations have moved
        them. */
    method ResolveFrozen(ghost all: set<Row>)
      requires Board() && Within(all)
      modifies this`rankarr, this`operations, all`score, all`problem, all`rankShow
      ensures Board() && Settled(0) && multiset(rankarr) == multiset(start)
      ensures AllResolved(all, old(map r: Row | r in all :: Snapshot(r.score, r.problem)), subFrozen)
      ensures forall r :: r in rankarr ==>
                r in all && RowEnds(Snapshot(r.score, r.problem), old(Snapshot(r.score, r.problem)))
    {
      ghost var was := map r: Row | r in all :: Snapshot(r.score, r.problem);
      ResolveAll(all, was);
      ReplayPermutes(start, operations);
      AllEnd(all, was);
    }

    method ResolveAll(ghost all: set<Row>, ghost was: map<Row, Snapshot>)
      requires Resolving(|rankarr|, all, was)
      modifies this`rankarr, this`operations, all`score, all`problem, all`rankShow
      ensures Resolving(0, all, was)
    {
      var i: nat := |rankarr|;
      while i > 0
        invariant 0 <= i <= |rankarr| && Resolving(i, all, was)
      {
        i := i - 1;
        SettlePlace(i, all, was);
      }
    }

    lemma AllEnd(all: set<Row>, was: map<Row, Snapshot>)
      requires Resolving(0, all, was)
      ensures forall r :: r in rankarr ==> r in was && RowEnds(Snapshot(r.score, r.problem), was[r])
    {
      forall p | 0 <= p < |rankarr|
        ensures RowEnds(Snapshot(rankarr[p].score, rankarr[p].problem), was[rankarr[p]])
      {
        assert NoneFrozen(rankarr[p], |problemSub|);
        RowResolved(Snapshot(rankarr[p].score, rankarr[p].problem), was[rankarr[p]]);
      }
    }

    lemma RowResolved(now: Snapshot, was: Snapshot)
      requires SizesOk() && Resolved(now.problem, was.problem, subFrozen)
      requires now.score + Gain(now.problem, |subFrozen|) == was.score + Gain(was.problem, |subFrozen|)
      requires FrozenIn(now.problem, |problemSub|) == {}
      ensures RowEnds(now, was)
    {
      forall j | 1 <= j <= |problemSub| && j in was.problem
        ensures CellEnds(now.problem[j], was.problem[j], subFrozen[j - 1])
      {
        ResolvedFully(now.problem, was.problem, subFrozen, j);
      }
      NothingToGain(now.problem, |problemSub|, |problemSub|);
    }

    ghost function RowAt(i: nat): Row
      requires i < |rankarr|
      reads this`rankarr
    {
      rankarr[i]
    }

    predicate Known(user: nat, j: nat, sub: nat) {
      && user in points && j in points[user] && 1 <= j <= |problemSub| == |full|
      && 1 <= sub <= problemSub[j - 1] && sub < |points[user][j]| && sub <= |full[j - 1]|
    }

    // The final result of a subtask.
    function Final(user: nat, j: nat, sub: nat): Part
      requires Known(user, j, sub)
    {
      var point := points[user][j][sub];
      Part(point, 0, PointStatus(point, full[j - 1][sub - 1]), NA)
    }

    // The cell of a problem once the final result of one more subtask is shown.
    function Opened(cell: Cell, user: nat, j: nat, sub: nat): Cell
      requires Known(user, j, sub) && sub in cell.subs
    {
      var total := cell.whole.oldPoint + points[user][j][sub] - cell.subs[sub].oldPoint;
      Cell(Part(total, 0, PointStatus(total, Total(full[j - 1])), NA), cell.subs[sub := Final(user, j, sub)])
    }

    /** Opening a subtask keeps the points of the problem in step with those of its subtasks 1..n. */
    lemma OpenedKeepsTotal(cell: Cell, user: nat, j: nat, sub: nat, n: nat)
      requires Known(user, j, sub) && sub <= n && forall s :: 1 <= s <= n ==> s in cell.subs
      ensures var after, best := Opened(cell, user, j, sub), Total(full[j - 1]);
              && (after.whole.oldVerdict.AC? <==> after.whole.oldPoint == best)
              && (after.whole.oldVerdict.WA? <==> after.whole.oldPoint == 0 != best)
              && after.whole.oldPoint - ShownSubs(after.subs, n) == cell.whole.oldPoint - ShownSubs(cell.subs, n)
    {
      ShownSubsAfter(cell.subs, n, sub, Final(user, j, sub));
    }

    // The score of a row once one more subtask of a problem is open: it grows by what the problem gains.
    function OpenedScore(score: int, problem: map<nat, Cell>, user: nat, j: nat, sub: nat): (r: int)
      requires Known(user, j, sub) && Shaped(problem, problemSub)
      ensures r >= score
    {
      var before, after := problem[j].whole.oldPoint, Opened(problem[j], user, j, sub).whole.oldPoint;
      score + if after > before then after - before else 0
    }

    method OpenCell(row: Row, j: nat, sub: nat) returns (whole: Part)
      requires Known(row.user, j, sub) && Shaped(row.problem, problemSub)
      modifies row`score, row`problem, this`operations
      ensures row.problem == old(row.problem)[j := Opened(old(row.problem)[j], row.user, j, sub)]
      ensures row.score == old(OpenedScore(row.score, row.problem, row.user, j, sub))
      ensures Shaped(row.problem, problemSub)
      ensures old(operations) <= operations && Replay(start, operations) == Replay(start, old(operations))
    {
      ghost var problem := row.problem;
      var cell := row.problem[j];
      var part := cell.subs[sub];
      var point := points[row.user][j][sub];
      var total := cell.whole.oldPoint + point - part.oldPoint;
      var shown := cell.whole.(newPoint := total, newVerdict := PointStatus(total, Total(full[j - 1])));
      Emit(SubOp(row.user, j, sub, part.oldPoint, point));
      var revealed := part.(newPoint := point, newVerdict := PointStatus(point, full[j - 1][sub - 1]));
      row.problem := row.problem[j := Cell(shown, cell.subs[sub := Reveal(revealed)])];
      whole := RevealWhole(row, j);
      ShapedAfter(problem, problemSub, j, row.problem[j]);
    }

    method OpenAt(row: Row, i: nat, j: nat, sub: nat) returns (whole: Part)
      requires Board() && i < |rankarr| && row == rankarr[i] && Known(row.user, j, sub)
      modifies this`check, row`score, row`problem, this`operations
      ensures check == old(check) + {(row.user, j, sub)}
      ensures row.problem == old(row.problem)[j := Opened(old(row.problem)[j], row.user, j, sub)]
      ensures row.score == old(OpenedScore(row.score, row.problem, row.user, j, sub))
      ensures OthersAs(rankarr, i, old(SnapshotsOf(rankarr)))
      ensures Grown(rankarr, old(ScoresOf(rankarr)), i) && AllShaped(rankarr, problemSub)
      ensures old(InOrder(rankarr)) ==> InOrderBut(rankarr, i)
      ensures old(operations) <= operations && Replay(start, operations) == rankarr
    {
      check := check + {(row.user, j, sub)};
      whole := OpenCell(row, j, sub);
    }

    method Open(row: Row, i: nat, j: nat, sub: nat) returns (k: nat)
      requires Board() && i < |rankarr| && row == rankarr[i] && Known(row.user, j, sub)
      modifies this`check, this`rankarr, this`operations, row`score, row`problem, rankarr`rankShow
      ensures check == old(check) + {(row.user, j, sub)}
      ensures Board() && k <= i && rankarr == Move(old(rankarr), i, k)
      ensures row.problem == old(row.problem)[j := Opened(old(row.problem)[j], row.user, j, sub)]
      ensures row.score == old(OpenedScore(row.score, row.problem, row.user, j, sub))
      ensures OthersAs(old(rankarr), i, old(SnapshotsOf(rankarr)))
      ensures old(InOrder(rankarr)) ==> InOrder(rankarr)
    {
      ghost var was := ScoresOf(rankarr);
      var whole := OpenAt(row, i, j, sub);
      k := Settle(i, true, j, whole, was);
    }

    /** Opens one more subtask of the row at i. Unless that was done before, the row takes its place, its score grown by
        what the problem gained, the board stays a board, and if it was in order by score and time it still is. */
    method Operation(i: nat, j: nat, sub: nat) returns (done: bool, ghost k: nat)
      requires Board() && i < |rankarr| && Known(rankarr[i].user, j, sub)
      modifies this`check, this`rankarr, this`operations, RowAt(i)`score, RowAt(i)`problem, rankarr`rankShow
      ensures done == ((old(rankarr)[i].user, j, sub) !in old(check))
      ensures check == old(check) + {(old(rankarr)[i].user, j, sub)}
      ensures Board() && k <= i && rankarr == if done then Move(old(rankarr), i, k) else old(rankarr)
      ensures done ==>
                var row, problem := old(rankarr)[i], old(rankarr[i].problem);
                && row.score == old(OpenedScore(rankarr[i].score, rankarr[i].problem, rankarr[i].user, j, sub))
                && row.problem == problem[j := Opened(problem[j], row.user, j, sub)]
                && OthersAs(old(rankarr), i, old(SnapshotsOf(rankarr)))
      ensures !done ==> unchanged(rankarr) && operations == old(operations)
      ensures old(InOrder(rankarr)) ==> InOrder(rankarr)
    {
      var row := rankarr[i];
      k := i;
      done := (row.user, j, sub) !in check;
      if done {
        k := Open(row, i, j, sub);
      }
    }

    // ----- The ceremony after the freeze: one operation at a time -----

    // The final points are complete, and each user has one row.
    ghost predicate Roster()
      reads this`rankarr
    {
      && SizesOk() && (forall j :: 0 <= j < |subFrozen| ==> 1 <= subFrozen[j])
      && (forall u, j :: u in points && j in points[u] ==>
            1 <= j <= |problemSub| == |full| && problemSub[j - 1] < |points[u][j]| &&
              problemSub[j - 1] <= |full[j - 1]|)
      && (set r | r in rankarr :: r.user) == points.Keys && OneEach(rankarr)
    }

    // A subtask before the freeze.
    predicate IsEarly(j: nat, s: nat) {
      1 <= j <= |subFrozen| == |problemSub| && 1 <= s < subFrozen[j - 1]
    }

    ghost predicate EarlierChecked()
      reads this`check
    {
      SizesOk() && forall u, j: nat, s: nat :: u in points && IsEarly(j, s) ==> (u, j, s) in check
    }

    // A subtask after the freeze of a problem a user tried.
    predicate IsLate(u: nat, j: nat, s: nat) {
      && u in points && j in points[u] && 1 <= j <= |problemSub| == |subFrozen|
      && subFrozen[j - 1] <= s <= problemSub[j - 1]
    }

    // Such a subtask that is still to be opened.
    predicate IsPending(open: set<(nat, nat, nat)>, u: nat, j: nat, s: nat) {
      IsLate(u, j, s) && (u, j, s) !in open
    }

    ghost predicate AllOpened(open: set<(nat, nat, nat)>, u: nat) {
      forall j, s :: !IsPending(open, u, j, s)
    }

    // The opened subtasks of a user after the freeze display their final results.
    ghost predicate DisplaysFinal(problem: map<nat, Cell>, open: set<(nat, nat, nat)>, u: nat) {
      forall j: nat, s: nat :: IsLate(u, j, s) && (u, j, s) in open ==>
        Known(u, j, s) && j in problem && s in problem[j].subs && problem[j].subs[s] == Final(u, j, s)
    }

    // What a subtask after the freeze still has to gain: nothing, once it has been opened.
    ghost function LateGain(problem: map<nat, Cell>, open: set<(nat, nat, nat)>, u: nat, j: nat, s: nat): (gain: int)
      ensures gain >= 0
    {
      if IsPending(open, u, j, s) && Known(u, j, s) && j in problem && s in problem[j].subs
         && points[u][j][s] > problem[j].subs[s].oldPoint
      then points[u][j][s] - problem[j].subs[s].oldPoint
      else 0
    }

    // The same for the subtasks 1..s of a problem, and for the problems 1..n.
    ghost function SubGains(problem: map<nat, Cell>, open: set<(nat, nat, nat)>, u: nat, j: nat, s: nat): (gain: int)
      ensures gain >= 0
    {
      if s == 0 then 0 else SubGains(problem, open, u, j, s - 1) + LateGain(problem, open, u, j, s)
    }

    ghost function LateGains(problem: map<nat, Cell>, open: set<(nat, nat, nat)>, u: nat, n: nat): (gain: int)
      requires n <= |problemSub|
      ensures gain >= 0
    {
      if n == 0 then 0 else LateGains(problem, open, u, n - 1) + SubGains(problem, open, u, n, problemSub[n - 1])
    }

    // Where the score has to end.
    ghost function Due(row: Snapshot, open: set<(nat, nat, nat)>, u: nat): int {
      row.score + LateGains(row.problem, open, u, |problemSub|)
    }

    ghost predicate IsDue(row: Snapshot, open: set<(nat, nat, nat)>, u: nat, ends: map<nat, int>) {
      u in ends && Due(row, open, u) == ends[u]
    }

    lemma {:induction false} SubGainsAfter(problem: map<nat, Cell>, open: set<(nat, nat, nat)>, u: nat, j: nat, s: nat,
                                           p: nat, n: nat)
      requires IsPending(open, u, j, s) && Known(u, j, s) && Shaped(problem, problemSub)
      ensures var after := problem[j := Opened(problem[j], u, j, s)];
              SubGains(after, open + {(u, j, s)}, u, p, n) ==
              SubGains(problem, open, u, p, n) - if p == j && s <= n then LateGain(problem, open, u, j, s) else 0
    {
      if n > 0 {
        SubGainsAfter(problem, open, u, j, s, p, n - 1);
      }
    }

    lemma {:induction false} LateGainsAfter(problem: map<nat, Cell>, open: set<(nat, nat, nat)>, u: nat, j: nat, s: nat,
                                            n: nat)
      requires IsPending(open, u, j, s) && Known(u, j, s) && Shaped(problem, problemSub) && n <= |problemSub|
      ensures var after := problem[j := Opened(problem[j], u, j, s)];
              LateGains(after, open + {(u, j, s)}, u, n) ==
              LateGains(problem, open, u, n) - if j <= n then LateGain(problem, open, u, j, s) else 0
    {
      if n > 0 {
        LateGainsAfter(problem, open, u, j, s, n - 1);
        SubGainsAfter(problem, open, u, j, s, n, problemSub[n - 1]);
      }
    }

    lemma {:induction false} SubGainsElsewhere(problem: map<nat, Cell>, open: set<(nat, nat, nat)>, v: nat,
                                               opened': (nat, nat, nat), j: nat, n: nat)
      requires opened'.0 != v
      ensures SubGains(problem, open + {opened'}, v, j, n) == SubGains(problem, open, v, j, n)
    {
      if n > 0 {
        SubGainsElsewhere(problem, open, v, opened', j, n - 1);
      }
    }

    lemma {:induction false} LateGainsElsewhere(problem: map<nat, Cell>, open: set<(nat, nat, nat)>, v: nat,
                                                opened': (nat, nat, nat), n: nat)
      requires opened'.0 != v && n <= |problemSub|
      ensures LateGains(problem, open + {opened'}, v, n) == LateGains(problem, open, v, n)
    {
      if n > 0 {
        LateGainsElsewhere(problem, open, v, opened', n - 1);
        SubGainsElsewhere(problem, open, v, opened', n, problemSub[n - 1]);
      }
    }

    lemma {:induction false} NoSubGains(problem: map<nat, Cell>, open: set<(nat, nat, nat)>, u: nat, j: nat, n: nat)
      requires AllOpened(open, u)
      ensures SubGains(problem, open, u, j, n) == 0
    {
      if n > 0 {
        NoSubGains(problem, open, u, j, n - 1);
      }
    }

    lemma {:induction false} NoLateGains(problem: map<nat, Cell>, open: set<(nat, nat, nat)>, u: nat, n: nat)
      requires AllOpened(open, u) && n <= |problemSub|
      ensures LateGains(problem, open, u, n) == 0
    {
      if n > 0 {
        NoLateGains(problem, open, u, n - 1);
        NoSubGains(problem, open, u, n, problemSub[n - 1]);
      }
    }

    /** Opening a subtask moves what it has to gain into the score. */
    lemma OpenKeepsDue(row: Snapshot, open: set<(nat, nat, nat)>, u: nat, j: nat, s: nat)
      requires IsPending(open, u, j, s) && Known(u, j, s) && Shaped(row.problem, problemSub)
      ensures var after := Snapshot(OpenedScore(row.score, row.problem, u, j, s),
                                    row.problem[j := Opened(row.problem[j], u, j, s)]);
              Due(after, open + {(u, j, s)}, u) == Due(row, open, u)
    {
      LateGainsAfter(row.problem, open, u, j, s, |problemSub|);
    }

    ghost predicate AllDisplayFinal(rows: seq<Row>, were: seq<Snapshot>, open: set<(nat, nat, nat)>,
                                    ends: map<nat, int>)
    {
      |were| == |rows| && forall a :: 0 <= a < |rows| ==>
        DisplaysFinal(were[a].problem, open, rows[a].user) && IsDue(were[a], open, rows[a].user, ends)
    }

    ghost predicate OpenedFinal(rows: seq<Row>, open: set<(nat, nat, nat)>, ends: map<nat, int>)
      reads rows`problem, rows`score
    {
      AllDisplayFinal(rows, SnapshotsOf(rows), open, ends)
    }

    // The users shown so far are those of the lowest rows, from the last place upwards, and have nothing left to open.
    ghost predicate ShownFromBelow(rows: seq<Row>, open: set<(nat, nat, nat)>, shown: seq<nat>) {
      && |shown| <= |rows|
      && forall a :: |rows| - |shown| <= a < |rows| ==>
        shown[|rows| - 1 - a] == rows[a].user && AllOpened(open, rows[a].user)
    }

    ghost predicate Ceremony()
      reads this`rankarr, this`operations, this`check, this`isshow, this`goal
      reads rankarr`score, rankarr`rankShow, rankarr`problem
    {
      && Board() && Roster() && EarlierChecked() && (goal.timed ==> InOrder(rankarr))
      && OpenedFinal(rankarr, check, goal.finals) && ShownFromBelow(rankarr, check, isshow)
    }

    /** At the start of the ceremony the subtasks before the freeze of every user count as opened, and no others. */
    method StartCeremony(users: nat)
      requires Board() && Roster() && isshow == [] && forall u :: u in points ==> 1 <= u <= users
      modifies this`check, this`goal
      ensures Ceremony() && goal.timed == InOrder(rankarr)
      ensures forall u, j: nat, s: nat :: (u, j, s) in check <==> 1 <= u <= users && IsEarly(j, s)
    {
      var early := EarlyOfAll(users);
      Begin(early);
    }

    method Begin(early: set<(nat, nat, nat)>)
      requires Board() && Roster() && isshow == []
      requires forall u, j: nat, s: nat :: u in points && IsEarly(j, s) ==> (u, j, s) in early
      requires forall u, j: nat, s: nat :: (u, j, s) in early ==> IsEarly(j, s)
      modifies this`check, this`goal
      ensures Ceremony() && goal.timed == InOrder(rankarr) && check == early
    {
      MarkOpened(early);
      ghost var ends := Ends(rankarr, SnapshotsOf(rankarr), early);
      NothingLateOpen(rankarr, SnapshotsOf(rankarr), early, ends);
      SetGoal(Goal(ends, InOrder(rankarr)));
    }

    ghost function Ends(rows: seq<Row>, were: seq<Snapshot>, open: set<(nat, nat, nat)>): (ends: map<nat, int>)
      requires |were| == |rows| && OneEach(rows)
      ensures forall a :: 0 <= a < |rows| ==> IsDue(were[a], open, rows[a].user, ends)
    {
      if rows == [] then map[]
      else
        var n := |rows| - 1;
        Ends(rows[..n], were[..n], open)[rows[n].user := Due(were[n], open, rows[n].user)]
    }

    method MarkOpened(early: set<(nat, nat, nat)>)
      requires Board() && Roster()
      modifies this`check
      ensures Board() && Roster() && check == early
    {
      check := early;
    }

    ghost method SetGoal(aim: Goal)
      requires Board() && Roster() && EarlierChecked() && OpenedFinal(rankarr, check, aim.finals)
      requires ShownFromBelow(rankarr, check, isshow) && (aim.timed ==> InOrder(rankarr))
      modifies this`goal
      ensures Ceremony() && goal == aim
    {
      goal := aim;
    }

    lemma NothingLateOpen(rows: seq<Row>, were: seq<Snapshot>, open: set<(nat, nat, nat)>, ends: map<nat, int>)
      requires |were| == |rows| && forall u, j: nat, s: nat :: (u, j, s) in open ==> IsEarly(j, s)
      requires forall a :: 0 <= a < |rows| ==> IsDue(were[a], open, rows[a].user, ends)
      ensures AllDisplayFinal(rows, were, open, ends)
    {
    }

    method EarlyOfAll(users: nat) returns (early: set<(nat, nat, nat)>)
      requires Roster()
      ensures forall u, j: nat, s: nat :: (u, j, s) in early <==> 1 <= u <= users && IsEarly(j, s)
    {
      early := {};
      for i := 1 to users + 1
        invariant forall u, j: nat, s: nat :: (u, j, s) in early <==> 1 <= u < i && IsEarly(j, s)
      {
        var ofUser := EarlyOf(i);
        early := early + ofUser;
      }
    }

    method EarlyOf(u: nat) returns (early: set<(nat, nat, nat)>)
      requires Roster()
      ensures forall v, j: nat, s: nat :: (v, j, s) in early <==> v == u && IsEarly(j, s)
    {
      early := {};
      for p := 1 to |problemSub| + 1
        invariant forall v, j: nat, s: nat :: (v, j, s) in early <==> v == u && j < p && IsEarly(j, s)
      {
        ghost var before := early;
        for t := 1 to subFrozen[p - 1]
          invariant forall v, j: nat, s: nat :: (v, j, s) in early <==>
                      (v, j, s) in before || (v == u && j == p && 1 <= s < t)
        {
          early := early + {(u, p, t)};
        }
      }
    }

    ghost function Pending(open: set<(nat, nat, nat)>): set<(nat, nat, nat)> {
      if |problemSub| != |subFrozen| then {} else
      set u, j, s | u in points && j in points[u] && 1 <= j <= |problemSub| &&
        subFrozen[j - 1] <= s <= problemSub[j - 1] &&
                    IsPending(open, u, j, s) :: (u, j, s)
    }

    lemma OpenOne(open: set<(nat, nat, nat)>, u: nat, j: nat, s: nat)
      requires IsPending(open, u, j, s)
      ensures |Pending(open + {(u, j, s)})| == |Pending(open)| - 1
    {
      assert (u, j, s) in Pending(open);
      assert Pending(open + {(u, j, s)}) == Pending(open) - {(u, j, s)};
    }

    ghost function Unshown(shown: seq<nat>): set<nat> {
      set u | u in points && u !in shown
    }

    lemma ShowOne(shown: seq<nat>, u: nat)
      requires u in Unshown(shown)
      ensures |Unshown(shown + [u])| == |Unshown(shown)| - 1
    {
      assert Unshown(shown + [u]) == Unshown(shown) - {u};
    }

    ghost function WorkLeft(open: set<(nat, nat, nat)>, shown: seq<nat>, delay: bool): nat {
      |Pending(open)| + 2 * |Unshown(shown)| + if delay then 1 else 0
    }

    // How many operations are still to come.
    ghost function Work(): nat
      reads this`check, this`isshow, this`delay
    {
      WorkLeft(check, isshow, delay)
    }

    /** When nothing is left to do, the users have been shown in the reverse of the final ranking, every subtask after
        the freeze displays its final result, every score is the one at the start plus what the user's subtasks after
        the freeze had to gain, and the rows stand by score, and among equals by time if they did at the start. */
    lemma CeremonyEnds()
      requires Ceremony() && Work() == 0
      ensures |isshow| == |rankarr|
      ensures forall a :: 0 <= a < |rankarr| ==> isshow[|rankarr| - 1 - a] == rankarr[a].user
      ensures forall a, j: nat, s: nat :: 0 <= a < |rankarr| && IsLate(rankarr[a].user, j, s) ==>
                Known(rankarr[a].user, j, s) && j in rankarr[a].problem && s in rankarr[a].problem[j].subs &&
                var point, best := points[rankarr[a].user][j][s], full[j - 1][s - 1];
                rankarr[a].problem[j].subs[s] ==
                Part(point, 0, if point == best then AC else if point == 0 then WA else PA, NA)
      ensures forall a :: 0 <= a < |rankarr| ==>
                rankarr[a].user in goal.finals && rankarr[a].score == goal.finals[rankarr[a].user]
      ensures Falling(ScoresOf(rankarr)) && (goal.timed ==> InOrder(rankarr))
    {
      ShownPlaces();
      ScoresEnd();
      if rankarr != [] {
        UserKnown(0);
        assert rankarr[0].user !in Unshown(isshow);
      }
      forall u: nat, j: nat, s: nat | IsLate(u, j, s) ensures (u, j, s) in check {
        assert (u, j, s) !in Pending(check);
      }
    }

    lemma ScoresEnd()
      requires OpenedFinal(rankarr, check, goal.finals) && Pending(check) == {}
      ensures forall a :: 0 <= a < |rankarr| ==>
                rankarr[a].user in goal.finals && rankarr[a].score == goal.finals[rankarr[a].user]
    {
      forall a | 0 <= a < |rankarr|
        ensures rankarr[a].user in goal.finals && rankarr[a].score == goal.finals[rankarr[a].user]
      {
        forall j: nat, s: nat ensures !IsPending(check, rankarr[a].user, j, s) {
          assert (rankarr[a].user, j, s) !in Pending(check);
        }
        NoLateGains(rankarr[a].problem, check, rankarr[a].user, |problemSub|);
        assert IsDue(SnapshotsOf(rankarr)[a], check, rankarr[a].user, goal.finals);
      }
    }

    lemma UserKnown(i: nat)
      requires Roster() && i < |rankarr|
      ensures rankarr[i].user in points
    {
      assert rankarr[i] in rankarr;
    }

    lemma RowOf(u: nat) returns (i: nat)
      requires Roster() && u in points
      ensures i < |rankarr| && rankarr[i].user == u
    {
      assert u in (set r | r in rankarr :: r.user);
      var r :| r in rankarr && r.user == u;
      i :| i < |rankarr| && rankarr[i] == r;
    }

    // Exactly the users of the lowest rows have been shown.
    lemma ShownPlaces()
      requires Roster() && ShownFromBelow(rankarr, check, isshow)
      ensures forall a :: 0 <= a < |rankarr| ==> (rankarr[a].user in isshow <==> a >= |rankarr| - |isshow|)
    {
      forall a | 0 <= a < |rankarr| ensures rankarr[a].user in isshow <==> a >= |rankarr| - |isshow| {
        if a >= |rankarr| - |isshow| {
          assert isshow[|rankarr| - 1 - a] == rankarr[a].user;
        } else {
          forall q | 0 <= q < |isshow| ensures isshow[q] != rankarr[a].user {
            assert isshow[q] == rankarr[|rankarr| - 1 - q].user;
          }
        }
      }
    }

    // Whether all of a user's subtasks are open.
    method AllOpen(u: nat) returns (ok: bool)
      requires Roster() && EarlierChecked() && u in points
      ensures ok == AllOpened(check, u)
    {
      ok := true;
      for j := 1 to |problemSub| + 1
        invariant ok == (forall p: nat, s :: p < j ==> !IsPending(check, u, p, s))
      {
        if j in points[u] {
          for s := 1 to problemSub[j - 1] + 1
            invariant ok == ((forall p: nat, t :: p < j ==> !IsPending(check, u, p, t)) &&
                             (forall t: nat :: t < s ==> !IsPending(check, u, j, t)))
          {
            if (u, j, s) !in check {
              assert IsEarly(j, s) || IsPending(check, u, j, s);
              ok := false;
            }
          }
        }
      }
    }

    // The lowest row that is not shown yet, or -1.
    ghost predicate IsLowestUnshown(i: int)
      reads this`rankarr, this`isshow
    {
      && -1 <= i < |rankarr| && (i >= 0 ==> rankarr[i].user !in isshow)
      && forall p :: i < p < |rankarr| ==> rankarr[p].user in isshow
    }

    method LowestUnshown() returns (i: int)
      ensures IsLowestUnshown(i)
    {
      i := |rankarr| - 1;
      while i >= 0 && rankarr[i].user in isshow
        invariant -1 <= i < |rankarr|
        invariant forall p :: i < p < |rankarr| ==> rankarr[p].user in isshow
      {
        i := i - 1;
      }
    }

    // The lowest row not shown yet has a user with nothing left to open.
    ghost predicate CanShow(i: int)
      reads this`rankarr, this`isshow, this`check
    {
      IsLowestUnshown(i) && i >= 0 && AllOpened(check, rankarr[i].user)
    }

    ghost predicate ShowReady()
      reads this`rankarr, this`isshow, this`check
    {
      exists i :: CanShow(i)
    }

    lemma OneLowest(i: int)
      requires IsLowestUnshown(i) && !CanShow(i)
      ensures !ShowReady()
    {
      forall p ensures !CanShow(p) {
        if p > i && p < |rankarr| {
          assert rankarr[p].user in isshow;
        } else if -1 <= p < i {
          assert rankarr[i].user !in isshow;
        }
      }
    }

    /** What the next click does: it pauses after a row was shown, or else shows the lowest row not shown yet if nothing
        of it is left to open, or else opens the first subtask left of the first problem of the lowest row with one. */
    ghost predicate Next(step: Step)
      reads this`check, this`isshow, this`delay, this`rankarr
    {
      match step
      case Pausing => delay
      case Showing(i) => !delay && CanShow(i)
      case Opening(i, j, s) => !delay && !ShowReady() && IsNextPending(i, j, s)
      case Nothing => !delay && !ShowReady() && Pending(check) == {}
    }

    ghost function CheckAfter(step: Step): set<(nat, nat, nat)>
      requires Next(step)
      reads this`check, this`isshow, this`delay, this`rankarr
    {
      if step.Opening? then check + {(rankarr[step.place].user, step.problem, step.sub)} else check
    }

    ghost function ShownAfter(step: Step): seq<nat>
      requires Next(step)
      reads this`check, this`isshow, this`delay, this`rankarr
    {
      if step.Showing? then isshow + [rankarr[step.place].user] else isshow
    }

    /** A click does exactly one piece of the work left, and there is none only when nothing is left to do. */
    lemma ClickWorks(step: Step)
      requires Ceremony() && Next(step)
      ensures if step.Nothing? then Work() == 0
              else WorkLeft(CheckAfter(step), ShownAfter(step), step.Showing?) == Work() - 1
    {
      match step
      case Pausing =>
      case Showing(i) =>
        UserKnown(i);
        ShowOne(isshow, rankarr[i].user);
      case Opening(i, j, s) =>
        OpenOne(check, rankarr[i].user, j, s);
      case Nothing =>
        NothingToShow();
    }

    // The place of the lowest row not shown yet, and whether it can be shown.
    method NextToShow() returns (found: bool, i: int)
      requires Roster() && EarlierChecked()
      ensures IsLowestUnshown(i) && found == CanShow(i)
    {
      i := LowestUnshown();
      found := false;
      if i >= 0 {
        UserKnown(i);
        found := AllOpen(rankarr[i].user);
      }
    }

    method Announce(u: nat, ghost i: int)
      requires Roster() && ShownFromBelow(rankarr, check, isshow) && CanShow(i) && u == rankarr[i].user
      modifies this`isshow, this`delay, this`operations
      ensures delay && isshow == old(isshow) + [u] && operations == old(operations) + [Show(u)]
      ensures Replay(start, operations) == Replay(start, old(operations))
      ensures ShownFromBelow(rankarr, check, isshow)
    {
      LowestPlace(i);
      Emit(Show(u));
      delay, isshow := true, isshow + [u];
    }

    lemma LowestPlace(i: int)
      requires Roster() && ShownFromBelow(rankarr, check, isshow) && IsLowestUnshown(i)
      ensures i == |rankarr| - 1 - |isshow|
    {
      ShownPlaces();
      assert i + 1 < |rankarr| ==> rankarr[i + 1].user in isshow;
    }

    method ShowNext(u: nat, ghost i: int)
      requires Ceremony() && !delay && CanShow(i) && u == rankarr[i].user
      modifies this`isshow, this`delay, this`operations
      ensures Ceremony() && delay && isshow == old(isshow) + [u] && operations == old(operations) + [Show(u)]
    {
      Announce(u, i);
    }

    /** Shows the user of the lowest row not shown yet, exactly when all its subtasks are open. */
    method ShowRank() returns (shown: bool, ghost i: int)
      requires Ceremony() && !delay
      modifies this`isshow, this`delay, this`operations
      ensures Ceremony()
      ensures old(IsLowestUnshown(i)) && shown == old(CanShow(i)) == old(ShowReady())
      ensures shown ==> delay && isshow == old(isshow) + [rankarr[i].user] &&
                        operations == old(operations) + [Show(rankarr[i].user)]
      ensures !shown ==> !delay && !ShowReady() && isshow == old(isshow) && operations == old(operations)
    {
      var place;
      shown, place := NextToShow();
      i := place;
      if shown {
        ShowNext(rankarr[place].user, place);
      } else {
        OneLowest(i);
      }
    }

    // The first subtask of a user's problem that is still to be opened, or 0.
    method FindSub(u: nat, j: nat) returns (s: nat)
      requires Roster() && u in points && j in points[u]
      ensures if s == 0 then forall t :: !IsPending(check, u, j, t)
              else IsPending(check, u, j, s) && forall t: nat :: t < s ==> !IsPending(check, u, j, t)
    {
      for t := subFrozen[j - 1] to problemSub[j - 1] + 1
        invariant forall p: nat :: p < t ==> !IsPending(check, u, j, p)
      {
        if (u, j, t) !in check {
          return t;
        }
      }
      return 0;
    }

    // The first subtask of the first problem of a user that is still to be opened.
    ghost predicate IsFirstPending(u: nat, j: nat, s: nat)
      reads this`check
    {
      && IsPending(check, u, j, s)
      && (forall q: nat, t :: q < j ==> !IsPending(check, u, q, t))
      && (forall t: nat :: t < s ==> !IsPending(check, u, j, t))
    }

    method FindProblem(u: nat) returns (j: nat, s: nat)
      requires Roster() && u in points
      ensures if s == 0 then AllOpened(check, u) else IsFirstPending(u, j, s)
    {
      for p := 1 to |problemSub| + 1
        invariant forall q: nat, t :: q < p ==> !IsPending(check, u, q, t)
      {
        if p in points[u] {
          s := FindSub(u, p);
          if s != 0 {
            return p, s;
          }
        }
      }
      return 0, 0;
    }

    // And this of the lowest row that has one.
    ghost predicate IsNextPending(i: nat, j: nat, s: nat)
      reads this`check, this`rankarr
    {
      && i < |rankarr| && IsFirstPending(rankarr[i].user, j, s)
      && forall p :: i < p < |rankarr| ==> AllOpened(check, rankarr[p].user)
    }

    method FindPending() returns (i: nat, j: nat, s: nat)
      requires Roster()
      ensures if s == 0 then Pending(check) == {} else IsNextPending(i, j, s)
    {
      i := |rankarr|;
      while i > 0
        invariant i <= |rankarr|
        invariant forall p :: i <= p < |rankarr| ==> AllOpened(check, rankarr[p].user)
      {
        i := i - 1;
        UserKnown(i);
        j, s := FindProblem(rankarr[i].user);
        if s != 0 {
          return;
        }
      }
      forall u | u in points ensures AllOpened(check, u) {
        var a := RowOf(u);
      }
      return 0, 0, 0;
    }

    // Opening a late subtask shows its final result and leaves those opened before.
    lemma OpenDisplays(problem: map<nat, Cell>, open: set<(nat, nat, nat)>, u: nat, j: nat, s: nat)
      requires DisplaysFinal(problem, open, u) && Known(u, j, s) && Shaped(problem, problemSub)
      ensures DisplaysFinal(problem[j := Opened(problem[j], u, j, s)], open + {(u, j, s)}, u)
    {
    }

    lemma OthersDisplay(problem: map<nat, Cell>, open: set<(nat, nat, nat)>, v: nat, u: nat, j: nat, s: nat)
      requires DisplaysFinal(problem, open, v) && u != v
      ensures DisplaysFinal(problem, open + {(u, j, s)}, v)
    {
    }

    lemma OpenedFinalMoves(rows: seq<Row>, open: set<(nat, nat, nat)>, ends: map<nat, int>, i: nat, k: nat)
      requires k <= i < |rows| && OpenedFinal(rows, open, ends)
      ensures OpenedFinal(Move(rows, i, k), open, ends)
    {
      forall a | 0 <= a < |rows|
        ensures DisplaysFinal(Move(rows, i, k)[a].problem, open, Move(rows, i, k)[a].user)
        ensures IsDue(SnapshotsOf(Move(rows, i, k))[a], open, Move(rows, i, k)[a].user, ends)
      {
        MoveAt(rows, i, k, a);
      }
    }

    // So do all rows, when only the one at i has changed since the subtasks opened were `open`, and has moved to k.
    lemma RowsDisplay(rows: seq<Row>, were: seq<Snapshot>, open: set<(nat, nat, nat)>, ends: map<nat, int>, i: nat,
                      j: nat, s: nat, k: nat)
      requires k <= i < |rows| && OneEach(rows) && Known(rows[i].user, j, s) && AllDisplayFinal(rows, were, open, ends)
      requires IsPending(open, rows[i].user, j, s) && Shaped(were[i].problem, problemSub) && OthersAs(rows, i, were)
      requires rows[i].problem == were[i].problem[j := Opened(were[i].problem[j], rows[i].user, j, s)]
      requires rows[i].score == OpenedScore(were[i].score, were[i].problem, rows[i].user, j, s)
      ensures OpenedFinal(Move(rows, i, k), open + {(rows[i].user, j, s)}, ends)
    {
      var user, after := rows[i].user, open + {(rows[i].user, j, s)};
      forall a | 0 <= a < |rows|
        ensures DisplaysFinal(rows[a].problem, after, rows[a].user)
        ensures IsDue(SnapshotsOf(rows)[a], after, rows[a].user, ends)
      {
        if a == i {
          OpenDisplays(were[i].problem, open, user, j, s);
          OpenKeepsDue(were[i], open, user, j, s);
        } else {
          OthersDisplay(were[a].problem, open, rows[a].user, user, j, s);
          LateGainsElsewhere(were[a].problem, open, rows[a].user, (user, j, s), |problemSub|);
        }
      }
      OpenedFinalMoves(rows, after, ends, i, k);
    }

    // A row with something left to open stands above those shown.
    lemma PendingIsAbove(i: nat, j: nat, s: nat)
      requires Roster() && ShownFromBelow(rankarr, check, isshow) && i < |rankarr| &&
               IsPending(check, rankarr[i].user, j, s)
      ensures i < |rankarr| - |isshow|
    {
      assert !AllOpened(check, rankarr[i].user);
    }

    // The row that climbs stays above those shown.
    lemma ShownStay(rows: seq<Row>, open: set<(nat, nat, nat)>, shown: seq<nat>, i: nat, k: nat,
                    opened': (nat, nat, nat))
      requires ShownFromBelow(rows, open, shown) && k <= i < |rows| - |shown|
      ensures ShownFromBelow(Move(rows, i, k), open + {opened'}, shown)
    {
      forall a | |rows| - |shown| <= a < |rows| ensures
        Move(rows, i, k)[a] == rows[a] && AllOpened(open + {opened'}, rows[a].user)
      {
        MoveAt(rows, i, k, a);
        forall j, s ensures !IsPending(open + {opened'}, rows[a].user, j, s) {
          assert !IsPending(open, rows[a].user, j, s);
        }
      }
    }

    method OpenRow(i: nat, j: nat, s: nat) returns (ghost k: nat)
      requires Board() && Roster() && EarlierChecked() && i < |rankarr| && IsPending(check, rankarr[i].user, j, s)
      modifies this`check, this`rankarr, this`operations, RowAt(i)`score, RowAt(i)`problem, rankarr`rankShow
      ensures Board() && Roster() && EarlierChecked()
      ensures check == old(check) + {(old(rankarr)[i].user, j, s)} && k <= i && rankarr == Move(old(rankarr), i, k)
      ensures var row, problem := old(rankarr)[i], old(rankarr[i].problem);
              && Known(row.user, j, s) && Shaped(problem, problemSub)
              && row.score == old(OpenedScore(rankarr[i].score, rankarr[i].problem, rankarr[i].user, j, s))
              && row.problem == problem[j := Opened(problem[j], row.user, j, s)]
      ensures OthersAs(old(rankarr), i, old(SnapshotsOf(rankarr))) && (old(InOrder(rankarr)) ==> InOrder(rankarr))
    {
      ghost var rows := rankarr;
      var done;
      done, k := Operation(i, j, s);
      UsersMove(rows, i, k);
    }

    // The same, keeping what the opened subtasks display.
    method OpenFinal(i: nat, j: nat, s: nat) returns (ghost k: nat)
      requires Board() && Roster() && EarlierChecked() && i < |rankarr| && IsPending(check, rankarr[i].user, j, s)
      requires OpenedFinal(rankarr, check, goal.finals)
      modifies this`check, this`rankarr, this`operations, RowAt(i)`score, RowAt(i)`problem, rankarr`rankShow
      ensures Board() && Roster() && EarlierChecked()
      ensures OpenedFinal(rankarr, check, goal.finals) && (old(InOrder(rankarr)) ==> InOrder(rankarr))
      ensures check == old(check) + {(old(rankarr)[i].user, j, s)} && k <= i && rankarr == Move(old(rankarr), i, k)
    {
      ghost var rows, open, were := rankarr, check, SnapshotsOf(rankarr);
      k := OpenRow(i, j, s);
      RowsDisplay(rows, were, open, goal.finals, i, j, s, k);
    }

    method OpenNext(i: nat, j: nat, s: nat) returns (ghost k: nat)
      requires Ceremony() && i < |rankarr| && IsPending(check, rankarr[i].user, j, s)
      modifies this`check, this`rankarr, this`operations, RowAt(i)`score, RowAt(i)`problem, rankarr`rankShow
      ensures Ceremony()
      ensures check == old(check) + {(old(rankarr)[i].user, j, s)} && k <= i && rankarr == Move(old(rankarr), i, k)
    {
      PendingIsAbove(i, j, s);
      ghost var rows, open, user := rankarr, check, rankarr[i].user;
      k := OpenFinal(i, j, s);
      ShownStay(rows, open, isshow, i, k, (user, j, s));
    }

    method OpenPending() returns (more: bool, ghost step: Step, ghost k: nat)
      requires Ceremony() && !delay && !ShowReady()
      modifies this`check, this`rankarr, this`operations, rankarr`score, rankarr`problem, rankarr`rankShow
      ensures Ceremony() && old(Next(step)) && !step.Showing? && more == !step.Nothing?
      ensures check == old(CheckAfter(step))
      ensures if step.Opening? then k <= step.place && rankarr == Move(old(rankarr), step.place, k)
              else rankarr == old(rankarr)
    {
      var i, j, s;
      i, j, s := Pick();
      step := if s == 0 then Nothing else Opening(i, j, s);
      more, k := s != 0, 0;
      if more {
        k := OpenNext(i, j, s);
      }
    }

    method Pick() returns (i: nat, j: nat, s: nat)
      requires Ceremony() && !delay && !ShowReady()
      ensures Next(if s == 0 then Nothing else Opening(i, j, s))
    {
      i, j, s := FindPending();
    }

    // While someone is left to be shown, and nothing left to open, the lowest of them can be.
    lemma NothingToShow()
      requires Ceremony() && !ShowReady() && Pending(check) == {}
      ensures Unshown(isshow) == {}
    {
      ShownPlaces();
      var i := |rankarr| - 1 - |isshow|;
      assert IsLowestUnshown(i);
      if i >= 0 {
        forall j: nat, s: nat ensures !IsPending(check, rankarr[i].user, j, s) {
          assert (rankarr[i].user, j, s) !in Pending(check);
        }
        assert CanShow(i);
      }
      forall u | u in points ensures u in isshow {
        var a := RowOf(u);
      }
    }

    // What an operation that moves no row says.
    method Say(op: Op)
      requires Ceremony() && !op.ProblemOp?
      modifies this`operations
      ensures Ceremony() && operations == old(operations) + [op]
    {
      Emit(op);
    }

    method Pause()
      requires Ceremony() && delay
      modifies this`delay, this`operations
      ensures Ceremony() && !delay && operations == old(operations) + [Delay]
    {
      delay := false;
      Say(Delay);
    }

    method NextOperation() returns (more: bool, ghost step: Step, ghost k: nat)
      requires Ceremony()
      modifies this`check, this`isshow, this`delay, this`rankarr, this`operations
      modifies rankarr`score, rankarr`problem, rankarr`rankShow
      ensures Ceremony() && old(Next(step)) && more == !step.Nothing?
      ensures Work() == if more then old(Work()) - 1 else 0
      ensures delay == step.Showing?
      ensures isshow == old(ShownAfter(step))
      ensures check == old(CheckAfter(step))
      ensures if step.Opening? then k <= step.place && rankarr == Move(old(rankarr), step.place, k)
              else rankarr == old(rankarr)
    {
      forall s | Next(s) {
        ClickWorks(s);
      }
      if delay {
        Pause();
        more, step, k := true, Pausing, 0;
      } else {
        more, step, k := Advance();
      }
    }

    method Advance() returns (more: bool, ghost step: Step, ghost k: nat)
      requires Ceremony() && !delay
      modifies this`check, this`isshow, this`delay, this`rankarr, this`operations
      modifies rankarr`score, rankarr`problem, rankarr`rankShow
      ensures Ceremony() && old(Next(step)) && more == !step.Nothing?
      ensures delay == step.Showing?
      ensures isshow == old(ShownAfter(step))
      ensures check == old(CheckAfter(step))
      ensures if step.Opening? then k <= step.place && rankarr == Move(old(rankarr), step.place, k)
              else rankarr == old(rankarr)
    {
      var shown, i := ShowRank();
      if shown {
        more, step, k := true, Showing(i), 0;
      } else {
        more, step, k := OpenPending();
      }
    }
  }

  // A row in front, and one that draws level with it once its frozen result is shown, though it got there earlier.
  method TwoRows() returns (board: Scoreboard, first: Row, second: Row)
    ensures fresh(board) && fresh(first) && fresh(second) && board.Board() && board.rankarr == [first, second]
    ensures InOrder(board.rankarr) && |board.problemSub| == 1 && first.score == 10 && second.score == 0
    ensures 1 in second.problem && Gained(second.problem[1].whole) == 10 && second.last < first.last
  {
    var done, frozen := Cell(Part(10, 0, AC, NA), map[]), Cell(Part(0, 10, WA, AC), map[]);
    first := new Row(1, 5, 10, map[1 := done]);
    second := new Row(2, 3, 0, map[1 := frozen]);
    board := new Scoreboard([0], [0], [[]], map[], [first, second]);
    TwoInOrder(first, second, board.problemSub);
    board.NumberRows();
  }

  lemma TwoInOrder(first: Row, second: Row, problemSub: seq<nat>)
    requires first != second && second.score < first.score && problemSub == [0]
    requires 1 in first.problem && 1 in second.problem
    ensures Distinct([first, second]) && InOrder([first, second]) && AllShaped([first, second], problemSub)
  {
    NeighboursInOrder([first, second]);
  }

  /** A board that leaves the order by time: the row that draws level stays below. */
  method TimeOrderLost() returns (board: Scoreboard)
    ensures board.Board() && !InOrder(board.rankarr)
  {
    var first, second;
    board, first, second := TwoRows();
    var k := board.Unfreeze(1, 1, {first, second});
    StaysBelow(board.rankarr, first, second, k);
  }

  lemma StaysBelow(rows: seq<Row>, first: Row, second: Row, k: nat)
    requires k <= 1 && rows == Move([first, second], 1, k) && first.score == second.score == 10
    requires second.last < first.last && StopsAt([first, second], 1, k, false)
    ensures !InOrder(rows)
  {
    var s := [first, second];
    assert k == 0 ==> Outranks(s[1], s[0], false);
    MoveAt(s, 1, k, 0);
    MoveAt(s, 1, k, 1);
    assert Outranks(rows[1], rows[0], true);
  }
}
