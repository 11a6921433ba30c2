/** What packets, lost connections and requests leave in a row, field by field, and where every verdict comes from. */
module PacketEffects {
  import opened Options
  import opened Tokens
  import opened DispatchTokens
  import opened DispatchRuns

  // ----- The row of a run -----

  // Stored test cases are as they were reported, in the order of the report, under one batch.
  ghost predicate CasesAdded(before: seq<Case>, after: seq<Case>, reports: seq<Report>, batch: Option<nat>) {
    && |after| == |before| + |reports| && after[..|before|] == before
    && forall k :: 0 <= k < |reports| ==>
         after[|before| + k] == Case(reports[k].position, batch, reports[k].points)
  }

  // One more than the highest position reported.
  ghost predicate AfterAll(current: nat, reports: seq<Report>) {
    && (exists k :: 0 <= k < |reports| && current == reports[k].position + 1)
    && forall k :: 0 <= k < |reports| ==> reports[k].position < current
  }

  // What the packet of a handler's own current run leaves in the row.
  ghost predicate RowAfter(w: Worker, before: Row, after: Row, body: Body, minted: Token, score: Scoring) {
    match body
    case CompileError(log) => after == before.(status := CE, error := Some(log))
    case InternalError(message) => after == before.(status := IE, error := Some(message))
    case Terminated => after == before.(status := AB, points := Some(0.0))
    case GradingEnd =>
      (match score(before.cases)
       case Scored(points) => after == before.(status := D, points := Some(points))
       case Unscorable(message) => after == before.(status := IE, points := Some(0.0), error := Some(message)))
    case GradingBegin =>
      after == if w.usage.Started? || w.usage.Finished? then before
               else before.(status := G, current := 1, batched := false, cases := [])
    case CompileMessage(log) => after == before.(error := Some(log))
    case Acknowledged => after == if w.usage.Unopened? then before.(status := P) else before
    case BatchBegin => after == if w.batchId.None? then before.(batched := true) else before
    case BatchEnd => after == before
    case TestCases(reports) =>
      if reports == [] then after == before
      else
        && after == before.(current := after.current, cases := after.cases) && AfterAll(after.current, reports)
        && CasesAdded(before.cases, after.cases, reports, if w.inBatch then w.batchId else None)
    case DataPrepared(_) => after == before
    case DataUnavailable(sha) =>
      after == if w.remoteRun == Some(sha) && w.preparing && w.retryable && (before.status.QU? || before.status.P?)
               then before.(status := QU, token := Some(minted)) else before
  }

  // The run that a handler works on, with its row in progress.
  predicate OwnRun(rows: Rows, w: Worker, id: Id) {
    Owns(rows, w, id) && InProgress(rows[id].status)
  }

  lemma {:induction false} CasesAreStored(before: seq<Case>, reports: seq<Report>, batch: Option<nat>)
    ensures CasesAdded(before, before + CasesOf(reports, batch), reports, batch)
  {
    if reports != [] {
      var n := |reports| - 1;
      CasesAreStored(before, reports[..n], batch);
      assert before + CasesOf(reports, batch) ==
             before + CasesOf(reports[..n], batch) + [Case(reports[n].position, batch, reports[n].points)];
    }
  }

  lemma {:induction false} MaxIsHighest(reports: seq<Report>)
    requires reports != []
    ensures AfterAll(MaxPosition(reports) + 1, reports)
  {
    var n := |reports| - 1;
    if n > 0 {
      MaxIsHighest(reports[..n]);
      var k :| 0 <= k < n && MaxPosition(reports[..n]) + 1 == reports[..n][k].position + 1;
      assert reports[k] == reports[..n][k];
      forall i | 0 <= i < |reports| ensures reports[i].position < MaxPosition(reports) + 1 {
        if i < n {
          assert reports[..n][i] == reports[i];
        }
      }
    }
  }

  // The packet names the handler's run, or, from a judge that is not remote, no run.
  predicate Addressed(w: Worker, tag: Option<Token>) {
    tag == w.dispatchId || (tag.None? && w.remoteRun.None?)
  }

  /** Every packet of a handler's own run leaves in its row exactly what it says, and nothing in any other. */
  lemma PacketWrites(rows: Rows, w: Worker, id: Id, tag: Option<Token>, body: Body, minted: Token, score: Scoring)
    requires OwnRun(rows, w, id) && Addressed(w, tag)
    ensures var after := Handled(rows, w, Packet(Some(id), tag, body), minted, score).rows;
            && id in after && RowAfter(w, rows[id], after[id], body, minted, score)
            && after.Keys == rows.Keys && forall k :: k in rows && k != id ==> after[k] == rows[k]
  {
    match body
    case TestCases(reports) => ReportsAreStored(rows, w, id, reports, minted, score);
    case _ =>
  }

  lemma ReportsAreStored(rows: Rows, w: Worker, id: Id, reports: seq<Report>, minted: Token, score: Scoring)
    requires OwnRun(rows, w, id)
    ensures var after := Applied(rows, w, id, TestCases(reports), minted, score).rows;
            && id in after && RowAfter(w, rows[id], after[id], TestCases(reports), minted, score)
            && after.Keys == rows.Keys && forall k :: k in rows && k != id ==> after[k] == rows[k]
  {
    if reports != [] {
      CasesAreStored(rows[id].cases, reports, if w.inBatch then w.batchId else None);
      MaxIsHighest(reports);
    }
  }

  // What it leaves of the handler: a final packet asks for the judge's release, batches are numbered from 1.
  ghost predicate WorkerAfter(w: Worker, row: Row, after: Worker, id: Id, body: Body) {
    match body
    case CompileError(_) => after == w.(onCommit := Release(id))
    case InternalError(_) => after == w.(onCommit := Release(id))
    case Terminated => after == w.(onCommit := Release(id))
    case GradingEnd => after == w.(onCommit := Release(id), batchId := None)
    case GradingBegin =>
      after == (match w.usage
                case Unopened => w.(batchId := None)
                case Opened => w.(batchId := None, usage := Started)
                case _ => w)
    case CompileMessage(_) => after == w
    case Acknowledged => after == if w.usage.Unopened? then w.(usage := Opened) else w
    case BatchBegin => after == w.(inBatch := true, batchId := Some(if w.batchId.None? then 1 else w.batchId.value + 1))
    case BatchEnd => after == w.(inBatch := false)
    case TestCases(_) => after == w
    case DataPrepared(sha) => after == if w.remoteRun == Some(sha) then w.(preparing := false) else w
    case DataUnavailable(sha) =>
      after == if w.remoteRun == Some(sha) && w.preparing && w.retryable && (row.status.QU? || row.status.P?)
               then w.(onCommit := Defer(id)) else w
  }

  lemma PacketMoves(rows: Rows, w: Worker, id: Id, tag: Option<Token>, body: Body, minted: Token, score: Scoring)
    requires OwnRun(rows, w, id) && Addressed(w, tag)
    ensures WorkerAfter(w, rows[id], Handled(rows, w, Packet(Some(id), tag, body), minted, score).worker, id, body)
  {
  }

  /** After the commit a handler is without work if and only if the scheduler agreed and it was its own run that ended
      or went back; a run that ended leaves nothing remote behind, and a usage that was opened is finished. */
  lemma CommitMoves(w: Worker, granted: bool)
    ensures var after := Committed(w, granted);
            var ended := w.onCommit.Release? && w.working == Some(w.onCommit.id);
            && after.onCommit.Nothing? && after.dispatchId == w.dispatchId && after.batchId == w.batchId
            && after.working == (if granted && (ended || w.onCommit.Defer?) then None else w.working)
            && (ended || (granted && w.onCommit.Defer?) ==> !after.preparing && after.remoteRun.None?)
            && (!ended && !(granted && w.onCommit.Defer?) ==>
                  after.preparing == w.preparing && after.remoteRun == w.remoteRun)
            && after.usage == if (ended || w.onCommit.Defer?) && !w.usage.Unopened? then Finished else w.usage
  {
  }

  /** A lost connection: a remote run that is still preparing goes back to the queue, and fails if the scheduler does
      not take it back; any other run fails. */
  lemma DisconnectWrites(rows: Rows, w: Worker, id: Id, granted: bool, minted: Token)
    requires OwnRun(rows, w, id) && rows[id].token != Some(minted)
    ensures var after := Disconnected(rows, w, granted, minted).rows;
            var back := w.preparing && w.retryable && (rows[id].status.QU? || rows[id].status.P?);
            && after == rows[id := if back then rows[id].(status := QU, token := Some(minted))
                                   else rows[id].(status := IE, error := Some(""))]
  {
  }

  // ----- Dispatch and requests -----

  /** When a dispatch succeeds, and why it does not. */
  lemma DispatchDecides(rows: Rows, w: Worker, id: Id, expected: Option<Token>, f: Findings)
    ensures var (e, verdict) := Dispatched(rows, w, id, expected, f);
            var current := id in rows && (rows[id].status.QU? || rows[id].status.P? || rows[id].status.G?) &&
                           (expected.None? || expected == rows[id].token) && f.allowed && f.sameRoot;
            var ready := id in rows && (f.remote ==> f.publication.Some? && rows[id].token.Some?);
            && (verdict.Accepted? <==> current && f.eligible && f.filesError.None? && ready && f.sent)
            && (verdict.Deferred? <==> current && (!f.eligible || (f.filesError.None? && !ready)))
            && (verdict.Failed? <==> current && f.eligible && f.filesError.None? && ready && !f.sent)
            && e.rows == if current && f.eligible && f.filesError.Some?
                         then rows[id := rows[id].(status := IE, points := Some(0.0), error := f.filesError)] else rows
  {
  }

  /** A dispatch that succeeds makes the row's run the handler's own, unopened, and a remote one with its publication
      still to be prepared; any other leaves the handler its work. */
  lemma DispatchMoves(rows: Rows, w: Worker, id: Id, expected: Option<Token>, f: Findings)
    ensures var (e, verdict) := Dispatched(rows, w, id, expected, f);
            if verdict.Accepted?
            then id in rows && e.worker == Worker(Some(id), rows[id].token, if f.remote then f.publication else None,
                                                  f.remote, true, Unopened, w.batchId, w.inBatch, w.onCommit)
            else e.worker.working == w.working && e.worker.onCommit == w.onCommit && e.worker.retryable
  {
  }

  /** A judge that acknowledges something else than its run makes that run fail, and with it what it acknowledged, if
      that was waiting in the queue. A handler whose run was superseded does nothing of the kind. */
  lemma WrongAcknowledgeWrites(rows: Rows, w: Worker, id: Id, got: Option<Id>, minted: Token, score: Scoring)
    requires w.working == Some(id) && id in rows && rows[id].token.Some? && w.remoteRun.None? && got != Some(id)
    requires got.Some? ==> got.value in rows
    requires got.Some? && got.value in rows ==> Current(rows, w, got.value, None)
    ensures var own := rows[id].token == w.dispatchId && InProgress(rows[id].status);
            var after := Handled(rows, w, Packet(got, None, Acknowledged), minted, score);
            && after.worker == w
            && forall k :: k in rows ==>
                 && k in after.rows
                 && after.rows[k] == if own && (k == id || (got == Some(k) && rows[k].status.QU?))
                                     then rows[k].(status := IE, error := None) else rows[k]
  {
  }

  /** What the site may do to a row before it asks for a run: claim one that is not being judged, an aborted one only
      for a rejudge; put off or give up any that was not aborted. */
  lemma PrepareDecides(rows: Rows, id: Id, what: Preparation)
    requires id in rows
    ensures var row, after := rows[id], Prepared(rows, id, what);
            after == match what
                     case Claim(rejudge) =>
                       if row.status.QU? || row.status.D? || row.status.CE? || row.status.IE? ||
                          (row.status.AB? && rejudge)
                       then rows[id := row.(status := P)] else rows
                     case PutOff => if row.status.AB? then rows else rows[id := row.(status := QU)]
                     case Refuse(message) =>
                       if row.status.AB? then rows else rows[id := row.(status := IE, error := Some(message))]
  {
  }

  /** A request is taken for a submission that is finished, or queued without a run, or claimed by the caller; one that
      was aborted has to be a rejudge. What is left is a fresh run: nothing of the old one but the row. */
  lemma RequestStartsAfresh(rows: Rows, id: Id, request: Request, minted: Token)
    requires id in rows
    ensures var row, after := rows[id], Requested(rows, id, request, minted);
            var taken := if request.storageClaimed then row.status.P?
                         else row.status.D? || row.status.CE? || row.status.IE? ||
                              (row.status.AB? && request.rejudge) || (row.status.QU? && row.token.None?);
            && Accepts(row, request) == taken
            && after == if taken
                        then rows[id := Row(if request.storageClaimed then P else QU, Some(minted), None, [],
                                            row.current, row.batched, None)]
                        else rows
  {
  }

  // ----- Where a status comes from -----

  // The step that gives a row with a token this status, in the state before it.
  ghost predicate Causes(s: World, step: Step, score: Scoring, id: Id, status: Status) {
    id in s.rows &&
    match step
    case Receive(worker, packet, _) =>
      && worker in s.workers && Owns(s.rows, s.workers[worker], id)
      && (match packet.body
          case CompileError(_) => status.CE?
          case InternalError(_) => status.IE?
          case Terminated => status.AB?
          case GradingEnd => if score(s.rows[id].cases).Scored? then status.D? else status.IE?
          case GradingBegin => status.G?
          case Acknowledged => status.P? || status.IE?
          case DataUnavailable(_) => status.QU?
          case _ => false)
    case Disconnect(worker, _, _) =>
      worker in s.workers && Owns(s.rows, s.workers[worker], id) && (status.QU? || status.IE?)
    case Dispatch(_, at, _, f) => at == id && f.filesError.Some? && status.IE?
    case Ask(at, request, _) => at == id && (if request.storageClaimed then status.P? else status.QU?)
    case FailToSend(at, token) => at == id && s.rows[id].token == Some(token) && status.IE?
    case Abort(at, seen, atJudge) => at == id && !seen.D? && !atJudge && status.AB?
    case Prepare(at, what) =>
      at == id && (match what
                   case Claim(_) => status.P?
                   case PutOff => status.QU?
                   case Refuse(_) => status.IE?)
    case _ => false
  }

  /** A row with a token changes its status only by a step that stands for the new one: CE only by a compile error, D
      only by the end of grading with a score, AB only by a termination, each of the row's own run, or by the site. */
  lemma StatusHasCause(s: World, step: Step, score: Scoring, id: Id)
    requires Enabled(s, step) && id in s.rows && s.rows[id].token.Some?
    ensures id in Next(s, step, score).rows
    ensures var status := Next(s, step, score).rows[id].status;
            status != s.rows[id].status ==> Causes(s, step, score, id, status)
  {
    TokenReplaced(s, step, score, id);
    if !Same(s.rows, Next(s, step, score).rows, id) {
      OnlyOwnRunWrites(s, step, score, id);
      match step
      case Receive(worker, packet, minted) => PacketCauses(s, worker, packet, minted, score, id);
      case _ =>
    }
  }

  lemma PacketCauses(s: World, worker: WorkerId, packet: Packet, minted: Token, score: Scoring, id: Id)
    requires worker in s.workers && id in s.rows && s.rows[id].token.Some? && Owns(s.rows, s.workers[worker], id)
    requires id in Handled(s.rows, s.workers[worker], packet, minted, score).rows
    ensures var status := Handled(s.rows, s.workers[worker], packet, minted, score).rows[id].status;
            status != s.rows[id].status ==> Causes(s, Receive(worker, packet, minted), score, id, status)
  {
  }

  lemma TokenAt(states: seq<World>, steps: seq<Step>, score: Scoring, i: nat, k: nat, id: Id)
    requires Run(states, steps, score) && Good(states[0]) && i <= k < |states|
    requires id in states[i].rows && states[i].rows[id].token.Some?
    ensures id in states[k].rows && states[k].rows[id].token.Some?
  {
    RunEvolves(states, steps, score, i, id);
    TokenStays(states, steps, i, k, id);
  }

  // A step that changes the row's status stands for the new one.
  ghost predicate Stands(s: World, step: Step, s': World, score: Scoring, id: Id)
    requires id in s.rows && id in s'.rows
  {
    s'.rows[id].status != s.rows[id].status ==> Causes(s, step, score, id, s'.rows[id].status)
  }

  ghost predicate AllStand(states: seq<World>, steps: seq<Step>, score: Scoring, i: nat, id: Id) {
    && |states| == |steps| + 1
    && (forall k :: i <= k < |states| ==> id in states[k].rows)
    && (forall k :: i <= k < |steps| ==> Stands(states[k], steps[k], states[k + 1], score, id))
  }

  lemma RunStands(states: seq<World>, steps: seq<Step>, score: Scoring, i: nat, id: Id)
    requires Run(states, steps, score) && Good(states[0]) && i < |states|
    requires id in states[i].rows && states[i].rows[id].token.Some?
    ensures AllStand(states, steps, score, i, id)
  {
    forall k | i <= k < |states| ensures id in states[k].rows {
      TokenAt(states, steps, score, i, k, id);
    }
    forall k | i <= k < |steps| ensures Stands(states[k], steps[k], states[k + 1], score, id) {
      TokenAt(states, steps, score, i, k, id);
      StatusHasCause(states[k], steps[k], score, id);
    }
  }

  // Step k gives the row this status, which it keeps up to moment j.
  ghost predicate Given(states: seq<World>, steps: seq<Step>, score: Scoring, k: nat, j: nat, id: Id, status: Status) {
    && k < j < |states| == |steps| + 1 && Causes(states[k], steps[k], score, id, status)
    && forall n :: k < n <= j ==> id in states[n].rows && states[n].rows[id].status == status
  }

  lemma GivenLonger(states: seq<World>, steps: seq<Step>, score: Scoring, k: nat, j: nat, id: Id, status: Status)
    requires j > 0 && Given(states, steps, score, k, j - 1, id, status) && j < |states|
    requires id in states[j].rows && states[j].rows[id].status == status
    ensures Given(states, steps, score, k, j, id, status)
  {
  }

  lemma GivenNow(states: seq<World>, steps: seq<Step>, score: Scoring, k: nat, id: Id, status: Status)
    requires k + 1 < |states| == |steps| + 1 && Causes(states[k], steps[k], score, id, status)
    requires id in states[k + 1].rows && states[k + 1].rows[id].status == status
    ensures Given(states, steps, score, k, k + 1, id, status)
  {
  }

  /** Over whole runs: a status that a row with a token has got since some moment was given to it by a step that stands
      for it, and has been there ever since. */
  lemma VerdictHasCause(states: seq<World>, steps: seq<Step>, score: Scoring, i: nat, j: nat, id: Id) returns (k: nat)
    requires Run(states, steps, score) && Good(states[0]) && i <= j < |states|
    requires id in states[i].rows && states[i].rows[id].token.Some? && id in states[j].rows
    requires states[i].rows[id].status != states[j].rows[id].status
    ensures i <= k && Given(states, steps, score, k, j, id, states[j].rows[id].status)
  {
    RunStands(states, steps, score, i, id);
    k := LastCause(states, steps, score, i, j, id);
  }

  lemma {:induction false} LastCause(states: seq<World>, steps: seq<Step>, score: Scoring, i: nat, j: nat, id: Id)
    returns (k: nat)
    requires AllStand(states, steps, score, i, id) && i <= j < |states|
    requires states[i].rows[id].status != states[j].rows[id].status
    ensures i <= k && Given(states, steps, score, k, j, id, states[j].rows[id].status)
  {
    var status := states[j].rows[id].status;
    if states[j - 1].rows[id].status == status {
      k := LastCause(states, steps, score, i, j - 1, id);
      GivenLonger(states, steps, score, k, j, id, status);
    } else {
      k := j - 1;
      assert Stands(states[k], steps[k], states[k + 1], score, id);
      GivenNow(states, steps, score, k, id, status);
    }
  }
}
