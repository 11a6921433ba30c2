/** One run from its first test case to its verdict: the score is taken from that run's cases alone. */
module GradingRuns {
  import opened Options
  import opened Tokens
  import opened DispatchTokens

  // What a judge reports: cases outside any batch, or one batch of cases.
  datatype Segment = Plain(reports: seq<Report>) | Batch(reports: seq<Report>)

  function PacketsOf(segment: Segment): seq<Body> {
    match segment
    case Plain(reports) => [TestCases(reports)]
    case Batch(reports) => [BatchBegin, TestCases(reports), BatchEnd]
  }

  function AllPackets(segments: seq<Segment>): seq<Body> {
    if segments == [] then [] else PacketsOf(segments[0]) + AllPackets(segments[1..])
  }

  // The cases as they should be stored when n batches went before: batches are numbered in the order of arrival.
  function Labelled(segments: seq<Segment>, n: nat): seq<Case> {
    if segments == [] then []
    else match segments[0]
      case Plain(reports) => CasesOf(reports, None) + Labelled(segments[1..], n)
      case Batch(reports) => CasesOf(reports, Some(n + 1)) + Labelled(segments[1..], n + 1)
  }

  lemma LabelledFirst(cases: seq<Case>, segments: seq<Segment>, n: nat)
    requires segments != []
    ensures var first := segments[0];
            var own := CasesOf(first.reports, if first.Batch? then Some(n + 1) else None);
            (cases + own) + Labelled(segments[1..], if first.Batch? then n + 1 else n) == cases + Labelled(segments, n)
  {
    var first := segments[0];
    var own := CasesOf(first.reports, if first.Batch? then Some(n + 1) else None);
    var rest := Labelled(segments[1..], if first.Batch? then n + 1 else n);
    assert Labelled(segments, n) == own + rest;
    Associative(cases, own, rest);
  }

  lemma Associative(a: seq<Case>, b: seq<Case>, c: seq<Case>)
    ensures (a + b) + c == a + (b + c)
  {
  }

  // A handler receives a packet of its own run.
  function Step(e: Effect, id: Id, body: Body, score: Scoring): Effect {
    Handled(e.rows, e.worker, Packet(Some(id), e.worker.dispatchId, body), 0, score)
  }

  // A handler receives the packets of its run one by one.
  function Play(e: Effect, id: Id, bodies: seq<Body>, score: Scoring): Effect
    decreases |bodies|
  {
    if bodies == [] then e
    else Play(Step(e, id, bodies[0], score), id, bodies[1..], score)
  }

  lemma {:induction false} PlayAppend(e: Effect, id: Id, xs: seq<Body>, ys: seq<Body>, score: Scoring)
    ensures Play(e, id, xs + ys, score) == Play(Play(e, id, xs, score), id, ys, score)
    decreases |xs|
  {
    if xs == [] {
      assert xs + ys == ys;
    } else {
      assert (xs + ys)[0] == xs[0] && (xs + ys)[1..] == xs[1..] + ys;
      PlayAppend(Step(e, id, xs[0], score), id, xs[1..], ys, score);
    }
  }

  // Between segments: n batches are over, `cases` are stored, and nothing else has changed. A handler may still
  // believe that it is inside a batch of its previous run; it does no harm, since no batch has a number yet.
  predicate Grading(before: Rows, e: Effect, id: Id, t: Token, n: nat, cases: seq<Case>) {
    && id in e.rows && e.rows.Keys == before.Keys && (forall k :: k in before && k != id ==> e.rows[k] == before[k])
    && var row, w := e.rows[id], e.worker;
       && row.status.G? && row.token == Some(t) && row.cases == cases
       && w.working == Some(id) && w.dispatchId == Some(t)
       && (w.batchId == if n == 0 then None else Some(n)) && (w.inBatch ==> n == 0)
  }

  // The same within the n-th batch.
  predicate InsideBatch(before: Rows, e: Effect, id: Id, t: Token, n: nat, cases: seq<Case>) {
    n > 0 && e.worker.inBatch && Grading(before, e.(worker := e.worker.(inBatch := false)), id, t, n, cases)
  }

  lemma PlayOne(e: Effect, id: Id, body: Body, score: Scoring)
    ensures Play(e, id, [body], score) == Step(e, id, body, score)
  {
    var next := Step(e, id, body, score);
    assert [body][1..] == [];
    assert Play(next, id, [], score) == next;
  }

  lemma PlaySegment(before: Rows, e: Effect, id: Id, t: Token, n: nat, cases: seq<Case>, segment: Segment,
                    score: Scoring)
    requires Grading(before, e, id, t, n, cases)
    ensures var n' := if segment.Batch? then n + 1 else n;
            Grading(before, Play(e, id, PacketsOf(segment), score), id, t, n',
                    cases + CasesOf(segment.reports, if segment.Batch? then Some(n + 1) else None))
  {
    var report := TestCases(segment.reports);
    match segment
    case Plain(_) =>
      PlainStep(before, e, id, t, n, cases, segment.reports, score);
      PlayOne(e, id, report, score);
    case Batch(_) =>
      BatchSteps(before, e, id, t, n, cases, segment.reports, score);
      PlayThree(e, id, BatchBegin, report, BatchEnd, score);
  }

  lemma PlainStep(before: Rows, e: Effect, id: Id, t: Token, n: nat, cases: seq<Case>, reports: seq<Report>,
                  score: Scoring)
    requires Grading(before, e, id, t, n, cases)
    ensures Grading(before, Step(e, id, TestCases(reports), score), id, t, n, cases + CasesOf(reports, None))
  {
  }

  lemma BatchSteps(before: Rows, e: Effect, id: Id, t: Token, n: nat, cases: seq<Case>, reports: seq<Report>,
                   score: Scoring)
    requires Grading(before, e, id, t, n, cases)
    ensures var e1 := Step(e, id, BatchBegin, score);
            var e2 := Step(e1, id, TestCases(reports), score);
            Grading(before, Step(e2, id, BatchEnd, score), id, t, n + 1, cases + CasesOf(reports, Some(n + 1)))
  {
    var e1 := Step(e, id, BatchBegin, score);
    assert InsideBatch(before, e1, id, t, n + 1, cases);
    BatchedStep(before, e1, id, t, n + 1, cases, reports, score);
    LeaveBatch(before, Step(e1, id, TestCases(reports), score), id, t, n + 1, cases + CasesOf(reports, Some(n + 1)),
               score);
  }

  lemma BatchedStep(before: Rows, e: Effect, id: Id, t: Token, n: nat, cases: seq<Case>, reports: seq<Report>,
                    score: Scoring)
    requires InsideBatch(before, e, id, t, n, cases)
    ensures InsideBatch(before, Step(e, id, TestCases(reports), score), id, t, n, cases + CasesOf(reports, Some(n)))
  {
  }

  lemma LeaveBatch(before: Rows, e: Effect, id: Id, t: Token, n: nat, cases: seq<Case>, score: Scoring)
    requires InsideBatch(before, e, id, t, n, cases)
    ensures Grading(before, Step(e, id, BatchEnd, score), id, t, n, cases)
  {
  }

  lemma PlayThree(e: Effect, id: Id, a: Body, b: Body, c: Body, score: Scoring)
    ensures Play(e, id, [a, b, c], score) == Step(Step(Step(e, id, a, score), id, b, score), id, c, score)
  {
    var e1 := Step(e, id, a, score);
    var e2 := Step(e1, id, b, score);
    PlayOne(e, id, a, score);
    PlayOne(e1, id, b, score);
    PlayOne(e2, id, c, score);
    PlayAppend(e, id, [a], [b, c], score);
    PlayAppend(e1, id, [b], [c], score);
    assert [a] + [b, c] == [a, b, c] && [b] + [c] == [b, c];
  }

  lemma {:induction false} PlaySegments(before: Rows, e: Effect, id: Id, t: Token, n: nat, cases: seq<Case>,
                                        segments: seq<Segment>, score: Scoring)
    returns (n': nat)
    requires Grading(before, e, id, t, n, cases)
    ensures Grading(before, Play(e, id, AllPackets(segments), score), id, t, n', cases + Labelled(segments, n))
    decreases |segments|
  {
    if segments == [] {
      assert cases + Labelled(segments, n) == cases;
      n' := n;
    } else {
      var first, rest := segments[0], segments[1..];
      PlaySegment(before, e, id, t, n, cases, first, score);
      PlayAppend(e, id, PacketsOf(first), AllPackets(rest), score);
      var m := if first.Batch? then n + 1 else n;
      var own := CasesOf(first.reports, if first.Batch? then Some(n + 1) else None);
      LabelledFirst(cases, segments, n);
      n' := PlaySegments(before, Play(e, id, PacketsOf(first), score), id, t, m, cases + own, rest, score);
    }
  }

  /** The begin of a current run changes nothing exactly when the run has an opened usage that began before, or when
      there is nothing to reset. */
  lemma BeginChangesNothing(rows: Rows, w: Worker, id: Id, score: Scoring)
    requires Current(rows, w, id, w.dispatchId) && w.working == Some(id)
    ensures Step(Effect(rows, w), id, GradingBegin, score) == Effect(rows, w) <==>
            w.usage.Started? || w.usage.Finished? ||
            (w.usage.Unopened? && w.batchId.None? && rows[id] == Begin(rows[id]))
  {
    var e := Step(Effect(rows, w), id, GradingBegin, score);
    if w.usage.Unopened? || w.usage.Opened? {
      assert e.rows[id] == Begin(rows[id]);
      assert rows[id] == Begin(rows[id]) ==> e.rows == rows;
    }
  }

  /** So once a run that was acknowledged has begun, the packet can be repeated at any time without effect. */
  lemma {:induction false} RepeatedBegin(e: Effect, id: Id, bodies: seq<Body>, score: Scoring)
    requires e.worker.usage.Started?
    ensures var e' := Play(e, id, bodies, score);
            e'.worker.usage.Started? && Step(e', id, GradingBegin, score) == e'
    decreases |bodies|
  {
    if bodies != [] {
      StaysStarted(e, id, bodies[0], score);
      RepeatedBegin(Step(e, id, bodies[0], score), id, bodies[1..], score);
    }
  }

  lemma StaysStarted(e: Effect, id: Id, body: Body, score: Scoring)
    requires e.worker.usage.Started?
    ensures Step(e, id, body, score).worker.usage.Started?
  {
  }

  /** Without the acknowledgement it does have one: the cases stored so far are lost. */
  lemma UnacknowledgedBeginForgets(row: Row, w: Worker, id: Id, report: Report, score: Scoring)
    requires InProgress(row.status) && row.token.Some? && w.working == Some(id) && w.dispatchId == row.token
    requires w.usage.Unopened?
    ensures var bodies := [GradingBegin, TestCases([report]), GradingBegin];
            var reported := Play(Effect(map[id := row], w), id, bodies[..2], score).rows;
            var after := Play(Effect(map[id := row], w), id, bodies, score).rows;
            id in reported && |reported[id].cases| == 1 && id in after && after[id].cases == []
  {
    var e := Effect(map[id := row], w);
    var body, begin := TestCases([report]), GradingBegin;
    PlayThree(e, id, begin, body, begin, score);
    PlayAppend(e, id, [begin], [body], score);
    PlayOne(e, id, begin, score);
    BeginResets(e.rows, w, id, score);
    var e1 := Step(e, id, begin, score);
    PlayOne(e1, id, body, score);
    CaseAdded(e1.rows, e1.worker, id, report, score);
    var e2 := Step(e1, id, body, score);
    BeginResets(e2.rows, e2.worker, id, score);
    assert [begin, body, begin][..2] == [begin] + [body];
  }

  lemma BeginResets(rows: Rows, w: Worker, id: Id, score: Scoring)
    requires Current(rows, w, id, w.dispatchId) && w.working == Some(id) && w.usage.Unopened?
    ensures Step(Effect(rows, w), id, GradingBegin, score) == Effect(rows[id := Begin(rows[id])], w.(batchId := None))
  {
  }

  lemma CaseAdded(rows: Rows, w: Worker, id: Id, report: Report, score: Scoring)
    requires Current(rows, w, id, w.dispatchId) && w.working == Some(id)
    ensures var e := Step(Effect(rows, w), id, TestCases([report]), score);
            && e.worker == w && e.rows.Keys == rows.Keys && |e.rows[id].cases| == |rows[id].cases| + 1
            && e.rows[id].status == rows[id].status && e.rows[id].token == rows[id].token
  {
    var batch := if w.inBatch then w.batchId else None;
    assert CasesOf([report], batch) == [Case(report.position, batch, report.points)];
  }

  /** Whatever the row held before, and whatever the handler was left with by its previous run, grading from begin to
      end stores exactly the cases reported in between, each in its batch, scores them, touches no other row and frees
      the judge. */
  lemma RunScoresItsOwnCases(rows: Rows, w: Worker, id: Id, segments: seq<Segment>, score: Scoring)
    requires id in rows && InProgress(rows[id].status) && rows[id].token.Some?
    requires w.working == Some(id) && w.dispatchId == rows[id].token && (w.usage.Unopened? || w.usage.Opened?)
    ensures var e := Play(Effect(rows, w), id, [GradingBegin] + AllPackets(segments) + [GradingEnd], score);
            && id in e.rows && e.rows[id].cases == Labelled(segments, 0) && e.rows[id].token == rows[id].token
            && (match score(Labelled(segments, 0))
                case Scored(points) => e.rows[id].status.D? && e.rows[id].points == Some(points)
                case Unscorable(message) => e.rows[id].status.IE? && e.rows[id].error == Some(message))
            && e.worker.onCommit == Release(id)
            && e.rows.Keys == rows.Keys && (forall k :: k in rows && k != id ==> e.rows[k] == rows[k])
  {
    var e := Effect(rows, w);
    var t := rows[id].token.value;
    PlayOne(e, id, GradingBegin, score);
    var e1 := Play(e, id, [GradingBegin], score);
    assert Grading(rows, e1, id, t, 0, []);
    var n := PlaySegments(rows, e1, id, t, 0, [], segments, score);
    assert [] + Labelled(segments, 0) == Labelled(segments, 0);
    var e2 := Play(e1, id, AllPackets(segments), score);
    PlayOne(e2, id, GradingEnd, score);
    PlayAppend(e, id, [GradingBegin], AllPackets(segments) + [GradingEnd], score);
    PlayAppend(e1, id, AllPackets(segments), [GradingEnd], score);
    assert [GradingBegin] + AllPackets(segments) + [GradingEnd] ==
           [GradingBegin] + (AllPackets(segments) + [GradingEnd]);
  }
}
