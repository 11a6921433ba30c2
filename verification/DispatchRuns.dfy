/** Runs of the token protocol: only the handler that holds a row's token writes the row. */
module DispatchRuns {
  import opened Options
  import opened Tokens
  import opened DispatchTokens

  type WorkerId = nat

  datatype World = World(rows: Rows, workers: map<WorkerId, Worker>, used: set<Token>)

  datatype Step =
    | Create(id: Id, row: Row)
    | Ask(id: Id, request: Request, minted: Token)
    | FailToSend(id: Id, token: Token)
    | Abort(id: Id, seen: Status, atJudge: bool)
    | Prepare(id: Id, what: Preparation)
    | Join(worker: WorkerId)
    | Dispatch(worker: WorkerId, id: Id, expected: Option<Token>, findings: Findings)
    | Receive(worker: WorkerId, packet: Packet, minted: Token)
    | Finish(worker: WorkerId, granted: bool)
    | Disconnect(worker: WorkerId, granted: bool, minted: Token)

  const NEWCOMER: Worker := Worker(None, None, None, false, false, Unopened, None, false, Nothing)

  predicate ByHandler(step: Step) {
    step.Receive? || step.Finish? || step.Disconnect?
  }

  // Tokens are minted fresh, new rows have none, and a handler takes one thing at a time.
  predicate Enabled(s: World, step: Step) {
    match step
    case Create(id, row) => id !in s.rows && row.token.None?
    case Ask(id, _, minted) => minted !in s.used
    case FailToSend(_, _) => true
    case Abort(_, _, _) => true
    case Prepare(_, _) => true
    case Join(worker) => worker !in s.workers
    case Dispatch(worker, _, _, _) =>
      worker in s.workers && s.workers[worker].working.None? && s.workers[worker].onCommit.Nothing?
    case Receive(worker, _, minted) => worker in s.workers && s.workers[worker].onCommit.Nothing? && minted !in s.used
    case Finish(worker, _) => worker in s.workers
    case Disconnect(worker, _, minted) =>
      worker in s.workers && s.workers[worker].onCommit.Nothing? && minted !in s.used
  }

  function Acted(s: World, worker: WorkerId, e: Effect, minted: set<Token>): World {
    World(e.rows, s.workers[worker := e.worker], s.used + minted)
  }

  function Next(s: World, step: Step, score: Scoring): World
    requires Enabled(s, step)
  {
    match step
    case Create(id, row) => s.(rows := s.rows[id := row])
    case Ask(id, request, minted) => s.(rows := Requested(s.rows, id, request, minted), used := s.used + {minted})
    case FailToSend(id, token) => s.(rows := SendFailed(s.rows, id, token))
    case Abort(id, seen, atJudge) => s.(rows := SiteAborted(s.rows, id, seen, atJudge))
    case Prepare(id, what) => s.(rows := Prepared(s.rows, id, what))
    case Join(worker) => s.(workers := s.workers[worker := NEWCOMER])
    case Dispatch(worker, id, expected, findings) =>
      Acted(s, worker, Dispatched(s.rows, s.workers[worker], id, expected, findings).0, {})
    case Receive(worker, packet, minted) =>
      Acted(s, worker, Handled(s.rows, s.workers[worker], packet, minted, score), {minted})
    case Finish(worker, granted) => s.(workers := s.workers[worker := Committed(s.workers[worker], granted)])
    case Disconnect(worker, granted, minted) =>
      Acted(s, worker, Disconnected(s.rows, s.workers[worker], granted, minted), {minted})
  }

  // ----- One step -----

  predicate Same(before: Rows, after: Rows, id: Id) {
    Lookup(before, id) == Lookup(after, id)
  }

  // The handler runs exactly the row's current run.
  predicate Owns(rows: Rows, w: Worker, id: Id) {
    id in rows && w.working == Some(id) && w.dispatchId == rows[id].token
  }

  // Only the run that a handler was given can be written by it: rows that carry a token and are not its own, and
  // rows that are finished, stay as they are.
  predicate Untouchable(rows: Rows, w: Worker, id: Id) {
    id in rows && (!InProgress(rows[id].status) || (rows[id].token.Some? && !Owns(rows, w, id)))
  }

  lemma AcknowledgeFenced(rows: Rows, w: Worker, got: Option<Id>, id: Id)
    requires Untouchable(rows, w, id)
    requires got.Some? ==> Current(rows, w, got.value, None)
    ensures Same(rows, OnAcknowledged(rows, w, got).rows, id)
  {
  }

  lemma RetryFenced(rows: Rows, w: Worker, id: Id, minted: Token)
    requires Untouchable(rows, w, id)
    ensures Same(rows, Retried(rows, w, minted).rows, id)
  {
  }

  lemma AppliedFenced(rows: Rows, w: Worker, at: Id, body: Body, minted: Token, score: Scoring, id: Id)
    requires Untouchable(rows, w, id) && Current(rows, w, at, None)
    ensures Same(rows, Applied(rows, w, at, body, minted, score).rows, id)
  {
    AcknowledgeFenced(rows, w, Some(at), id);
    RetryFenced(rows, w, id, minted);
  }

  /** No packet of a handler touches a finished row, or a row whose token is not the handler's. */
  lemma PacketFenced(rows: Rows, w: Worker, p: Packet, minted: Token, score: Scoring, id: Id)
    requires Untouchable(rows, w, id)
    ensures Same(rows, Handled(rows, w, p, minted, score).rows, id)
  {
    RetryFenced(rows, w, id, minted);
    if p.id.None? {
      AcknowledgeFenced(rows, w, None, id);
    } else if Current(rows, w, p.id.value, p.tag) {
      AppliedFenced(rows, w, p.id.value, p.body, minted, score, id);
    }
  }

  lemma DisconnectFenced(rows: Rows, w: Worker, granted: bool, minted: Token, id: Id)
    requires Untouchable(rows, w, id)
    ensures Same(rows, Disconnected(rows, w, granted, minted).rows, id)
  {
    RetryFenced(rows, w, id, minted);
  }

  lemma StepFenced(s: World, step: Step, score: Scoring, id: Id)
    requires Enabled(s, step) && ByHandler(step) && Untouchable(s.rows, s.workers[step.worker], id)
    ensures Same(s.rows, Next(s, step, score).rows, id)
  {
    match step
    case Receive(worker, packet, minted) => PacketFenced(s.rows, s.workers[worker], packet, minted, score, id);
    case Disconnect(worker, granted, minted) => DisconnectFenced(s.rows, s.workers[worker], granted, minted, id);
    case Finish(_, _) =>
  }

  /** The fence needs the token: any handler may write an unfinished row that has none. */
  lemma {:induction false} WithoutTokenNoFence(w: Worker, row: Row, id: Id, log: string, minted: Token, score: Scoring)
    requires InProgress(row.status) && row.token.None? && row.error != Some(log) && w.remoteRun.None?
    ensures Handled(map[id := row], w, Packet(Some(id), None, CompileMessage(log)), minted, score).rows[id].error ==
            Some(log)
  {
    assert Current(map[id := row], w, id, None);
  }

  // The only way in which a handler replaces a token: its own remote run, not yet grading, goes back to the queue.
  predicate IsRetry(before: Rows, after: Rows, w: Worker, id: Id, minted: Token) {
    && id in before && id in after && Owns(before, w, id) && w.preparing
    && (before[id].status.QU? || before[id].status.P?)
    && after[id] == before[id].(status := QU, token := Some(minted))
  }

  lemma RetryToken(rows: Rows, w: Worker, id: Id, minted: Token)
    requires id in rows
    ensures var after := Retried(rows, w, minted).rows;
            id in after && (after[id].token == rows[id].token || IsRetry(rows, after, w, id, minted))
  {
  }

  lemma AppliedToken(rows: Rows, w: Worker, at: Id, body: Body, minted: Token, score: Scoring, id: Id)
    requires id in rows && at in rows
    ensures var after := Applied(rows, w, at, body, minted, score).rows;
            id in after && (after[id].token == rows[id].token || IsRetry(rows, after, w, id, minted))
  {
    RetryToken(rows, w, id, minted);
  }

  lemma PacketToken(rows: Rows, w: Worker, p: Packet, minted: Token, score: Scoring, id: Id)
    requires id in rows
    ensures var after := Handled(rows, w, p, minted, score).rows;
            id in after && (after[id].token == rows[id].token || IsRetry(rows, after, w, id, minted))
  {
    RetryToken(rows, w, id, minted);
    if p.id.Some? && Current(rows, w, p.id.value, p.tag) {
      AppliedToken(rows, w, p.id.value, p.body, minted, score, id);
    }
  }

  lemma DisconnectToken(rows: Rows, w: Worker, granted: bool, minted: Token, id: Id)
    requires id in rows
    ensures var after := Disconnected(rows, w, granted, minted).rows;
            id in after && (after[id].token == rows[id].token || IsRetry(rows, after, w, id, minted))
  {
    if CanRetry(rows, w) && w.working == Some(id) {
      assert Retried(rows, w, minted).rows[id].token == Some(minted);
    }
  }

  // The worker whose step may replace the row's token, and the ways in which the site may.
  predicate Replaces(s: World, step: Step, id: Id) {
    id in s.rows &&
    match step
    case Ask(at, request, _) => at == id && Accepts(s.rows[id], request)
    case Receive(worker, _, _) =>
      worker in s.workers && Owns(s.rows, s.workers[worker], id) && s.workers[worker].preparing
    case Disconnect(worker, _, _) =>
      worker in s.workers && Owns(s.rows, s.workers[worker], id) && s.workers[worker].preparing
    case _ => false
  }

  function Minted(step: Step): Option<Token> {
    match step
    case Ask(_, _, minted) => Some(minted)
    case Receive(_, _, minted) => Some(minted)
    case Disconnect(_, _, minted) => Some(minted)
    case _ => None
  }

  /** A row is never lost, and its token changes only to a newly minted one, when the site takes a request for the
      row or the row's own handler gives a remote run back. */
  lemma TokenReplaced(s: World, step: Step, score: Scoring, id: Id)
    requires Enabled(s, step) && id in s.rows
    ensures var s' := Next(s, step, score);
            id in s'.rows &&
            (s'.rows[id].token != s.rows[id].token ==>
               Replaces(s, step, id) && Minted(step).Some? && s'.rows[id].token == Minted(step))
  {
    match step
    case Receive(worker, packet, minted) => PacketToken(s.rows, s.workers[worker], packet, minted, score, id);
    case Disconnect(worker, granted, minted) => DisconnectToken(s.rows, s.workers[worker], granted, minted, id);
    case _ =>
  }

  /** A request that does not carry the storage claim never replaces the token of an unfinished run. */
  lemma RequestSparesLiveRun(row: Row, request: Request)
    requires !request.storageClaimed && InProgress(row.status) && row.token.Some?
    ensures !Accepts(row, request)
  {
  }

  /** A dispatch that is accepted gives the handler exactly the row's run, and the run that was asked for; otherwise
      the row changes only when its files turn out to be invalid, and the handler stays idle. */
  lemma DispatchStartsCurrentRun(rows: Rows, w: Worker, id: Id, expected: Option<Token>, f: Findings)
    requires w.working.None?
    ensures var (e, verdict) := Dispatched(rows, w, id, expected, f);
            && (verdict.Accepted? ==>
                  && e.rows == rows && Owns(rows, e.worker, id) && Current(rows, e.worker, id, None)
                  && (expected.Some? ==> e.worker.dispatchId == expected))
            && (!verdict.Accepted? ==> e.worker.working.None?)
            && (e.rows != rows ==> verdict.Invalid? && e.rows[id].status.IE? && f.filesError.Some?)
  {
  }

  /** When the run of a judge is over but its row belongs to a newer run, the final packet leaves that row alone and
      asks the scheduler to release the judge. Whether it is released is up to the scheduler: if that refuses, the
      handler goes on with the submission that it was working on. */
  lemma StaleEndAsksForRelease(rows: Rows, w: Worker, id: Id, body: Body, minted: Token, score: Scoring, granted: bool)
    requires id in rows && w.working == Some(id) && IsTerminal(body) && !Current(rows, w, id, w.dispatchId)
    requires !(InProgress(rows[id].status) && rows[id].token.None?)
    ensures var e := Handled(rows, w, Packet(Some(id), w.dispatchId, body), minted, score);
            && e.rows == rows && e.worker == w.(onCommit := Release(id))
            && Committed(e.worker, granted).working == if granted then None else Some(id)
  {
  }

  /** The final packet of a current run finishes its row and releases the judge. */
  lemma EndFinishes(rows: Rows, w: Worker, id: Id, body: Body, minted: Token, score: Scoring)
    requires Current(rows, w, id, w.dispatchId) && Owns(rows, w, id) && IsTerminal(body) && !body.DataUnavailable?
    ensures var e := Handled(rows, w, Packet(Some(id), w.dispatchId, body), minted, score);
            && !InProgress(e.rows[id].status) && e.rows[id].token == rows[id].token
            && e.rows[id].cases == rows[id].cases && e.worker.onCommit == Release(id)
  {
  }

  // ----- Whole runs -----

  ghost predicate Run(states: seq<World>, steps: seq<Step>, score: Scoring) {
    && |states| == |steps| + 1
    && forall i :: 0 <= i < |steps| ==>
         Enabled(states[i], steps[i]) && states[i + 1] == Next(states[i], steps[i], score)
  }

  // Every token in sight was minted.
  ghost predicate Good(s: World) {
    && (forall id :: id in s.rows && s.rows[id].token.Some? ==> s.rows[id].token.value in s.used)
    && (forall j :: j in s.workers && s.workers[j].dispatchId.Some? ==> s.workers[j].dispatchId.value in s.used)
  }

  lemma StepGood(s: World, step: Step, score: Scoring)
    requires Enabled(s, step) && Good(s)
    ensures Good(Next(s, step, score)) && s.used <= Next(s, step, score).used
  {
    var s' := Next(s, step, score);
    forall id | id in s'.rows && s'.rows[id].token.Some? ensures s'.rows[id].token.value in s'.used {
      if id in s.rows {
        TokenReplaced(s, step, score, id);
      } else {
        RowsOnlyCreated(s, step, score, id);
      }
    }
    forall j | j in s'.workers && s'.workers[j].dispatchId.Some? ensures s'.workers[j].dispatchId.value in s'.used {
      if j in s.workers {
        DispatchIdRead(s, step, score, j);
      }
    }
  }

  lemma RowsOnlyCreated(s: World, step: Step, score: Scoring, id: Id)
    requires Enabled(s, step) && id !in s.rows && id in Next(s, step, score).rows
    ensures step.Create? && Next(s, step, score).rows[id].token.None?
  {
  }

  lemma AppliedKeepsDispatchId(rows: Rows, w: Worker, id: Id, body: Body, minted: Token, score: Scoring)
    requires id in rows
    ensures Applied(rows, w, id, body, minted, score).worker.dispatchId == w.dispatchId
  {
  }

  lemma UnaddressedKeepsDispatchId(rows: Rows, w: Worker, body: Body, minted: Token)
    ensures Unaddressed(rows, w, body, minted).worker.dispatchId == w.dispatchId
  {
  }

  lemma PacketKeepsDispatchId(rows: Rows, w: Worker, p: Packet, minted: Token, score: Scoring)
    ensures Handled(rows, w, p, minted, score).worker.dispatchId == w.dispatchId
  {
    if p.id.None? {
      UnaddressedKeepsDispatchId(rows, w, p.body, minted);
    } else if p.id.value in rows {
      AppliedKeepsDispatchId(rows, w, p.id.value, p.body, minted, score);
    }
  }

  lemma DispatchIdRead(s: World, step: Step, score: Scoring, j: WorkerId)
    requires Enabled(s, step) && j in s.workers
    ensures var s' := Next(s, step, score);
            && j in s'.workers
            && (s'.workers[j].dispatchId == s.workers[j].dispatchId ||
                (step.Dispatch? && step.worker == j && step.id in s.rows &&
                 s'.workers[j].dispatchId == s.rows[step.id].token))
  {
    match step
    case Receive(worker, packet, minted) => PacketKeepsDispatchId(s.rows, s.workers[worker], packet, minted, score);
    case _ =>
  }

  // The site gives up on the submission, or prepares to have it judged again.
  predicate BySite(step: Step, id: Id) {
    || (step.Abort? && step.id == id && GivesUp(step.seen, step.atJudge))
    || (step.Prepare? && step.id == id)
  }

  // What every step keeps of one row.
  ghost predicate Evolves(s: World, step: Step, s': World, id: Id)
    requires id in s.rows
  {
    && s.used <= s'.used && id in s'.rows
    && var before, after := s.rows[id], s'.rows[id];
       && (before.token.Some? ==> before.token.value in s.used)
       && (after.token == before.token || (after.token.Some? && after.token.value !in s.used))
       && (!InProgress(before.status) && after.token == before.token && !BySite(step, id) ==> after == before)
       && (ByHandler(step) && step.worker in s.workers && Untouchable(s.rows, s.workers[step.worker], id) ==>
           after == before)
  }

  lemma StepEvolves(s: World, step: Step, score: Scoring, s': World, id: Id)
    requires Enabled(s, step) && s' == Next(s, step, score) && Good(s) && id in s.rows
    ensures Evolves(s, step, s', id)
  {
    StepGood(s, step, score);
    TokenReplaced(s, step, score, id);
    if ByHandler(step) && Untouchable(s.rows, s.workers[step.worker], id) {
      StepFenced(s, step, score, id);
    }
  }

  // From state i on, the row exists and every step keeps what steps keep.
  ghost predicate Evolution(states: seq<World>, steps: seq<Step>, i: nat, id: Id) {
    && |states| == |steps| + 1
    && (forall k :: i <= k < |states| ==> id in states[k].rows)
    && (forall k :: i <= k < |steps| ==> Evolves(states[k], steps[k], states[k + 1], id))
  }

  lemma {:induction false} RunGood(states: seq<World>, steps: seq<Step>, score: Scoring, i: nat)
    requires Run(states, steps, score) && Good(states[0]) && i < |states|
    ensures Good(states[i])
  {
    if i > 0 {
      RunGood(states, steps, score, i - 1);
      StepGood(states[i - 1], steps[i - 1], score);
    }
  }

  lemma {:induction false} RowStays(states: seq<World>, steps: seq<Step>, score: Scoring, i: nat, k: nat, id: Id)
    requires Run(states, steps, score) && i <= k < |states| && id in states[i].rows
    ensures id in states[k].rows
  {
    if i < k {
      RowStays(states, steps, score, i, k - 1, id);
      TokenReplaced(states[k - 1], steps[k - 1], score, id);
    }
  }

  lemma RunEvolves(states: seq<World>, steps: seq<Step>, score: Scoring, i: nat, id: Id)
    requires Run(states, steps, score) && Good(states[0]) && i < |states| && id in states[i].rows
    ensures Evolution(states, steps, i, id)
  {
    forall k | i <= k < |states| ensures id in states[k].rows {
      RowStays(states, steps, score, i, k, id);
    }
    forall k | i <= k < |steps| ensures Evolves(states[k], steps[k], states[k + 1], id) {
      RunGood(states, steps, score, k);
      StepEvolves(states[k], steps[k], score, states[k + 1], id);
    }
  }

  /** A token that a row has lost, or never had, never comes back to it. */
  lemma {:induction false} TokenNeverReturns(states: seq<World>, steps: seq<Step>, i: nat, j: nat, id: Id, t: Token)
    requires Evolution(states, steps, i, id) && i <= j < |states|
    requires t in states[i].used && states[i].rows[id].token != Some(t)
    ensures t in states[j].used && states[j].rows[id].token != Some(t)
  {
    if i < j {
      TokenNeverReturns(states, steps, i, j - 1, id, t);
      assert Evolves(states[j - 1], steps[j - 1], states[j], id);
    }
  }

  /** A row that carries a token always carries one, and the tokens in use only grow. */
  lemma {:induction false} TokenStays(states: seq<World>, steps: seq<Step>, i: nat, j: nat, id: Id)
    requires Evolution(states, steps, i, id) && i <= j < |states| && states[i].rows[id].token.Some?
    ensures states[j].rows[id].token.Some? && states[i].used <= states[j].used
  {
    if i < j {
      TokenStays(states, steps, i, j - 1, id);
      assert Evolves(states[j - 1], steps[j - 1], states[j], id);
    }
  }

  /** Fencing over whole runs: once a row carries a token other than a handler's, nothing that this handler receives,
      finishes or leaves behind ever changes the row, until the handler is given another run. */
  lemma SupersededNeverWrites(states: seq<World>, steps: seq<Step>, score: Scoring, i: nat, j: nat, id: Id, t: Token)
    requires Run(states, steps, score) && Good(states[0]) && i <= j < |steps|
    requires id in states[i].rows && states[i].rows[id].token.Some? && states[i].rows[id].token != Some(t)
    requires t in states[i].used && ByHandler(steps[j])
    requires steps[j].worker in states[j].workers && states[j].workers[steps[j].worker].dispatchId == Some(t)
    ensures Same(states[j].rows, states[j + 1].rows, id)
  {
    RunEvolves(states, steps, score, i, id);
    TokenNeverReturns(states, steps, i, j, id, t);
    TokenStays(states, steps, i, j, id);
    assert Evolves(states[j], steps[j], states[j + 1], id);
  }

  /** A verdict is final: a finished row is the same as long as it carries its token, whatever arrives, unless the
      site itself aborts the submission or prepares to have it judged again. */
  lemma VerdictIsFinal(states: seq<World>, steps: seq<Step>, score: Scoring, i: nat, j: nat, id: Id)
    requires Run(states, steps, score) && Good(states[0]) && i <= j < |states| && id in states[i].rows
    requires states[i].rows[id].token.Some? && !InProgress(states[i].rows[id].status)
    requires id in states[j].rows && states[j].rows[id].token == states[i].rows[id].token
    requires forall k :: i <= k < j ==> !BySite(steps[k], id)
    ensures states[j].rows[id] == states[i].rows[id]
  {
    RunEvolves(states, steps, score, i, id);
    FinishedEvolves(states, steps, i, j, j, id);
  }

  lemma {:induction false} FinishedEvolves(states: seq<World>, steps: seq<Step>, i: nat, k: nat, j: nat, id: Id)
    requires Evolution(states, steps, i, id) && i <= k <= j < |states|
    requires states[i].rows[id].token.Some? && !InProgress(states[i].rows[id].status)
    requires states[j].rows[id].token == states[i].rows[id].token
    requires forall n :: i <= n < j ==> !BySite(steps[n], id)
    ensures states[k].rows[id] == states[i].rows[id]
  {
    if i < k {
      FinishedEvolves(states, steps, i, k - 1, j, id);
      assert Evolves(states[k - 1], steps[k - 1], states[k], id);
      var t := states[i].rows[id].token.value;
      TokenStays(states, steps, k - 1, k, id);
      if states[k].rows[id].token != Some(t) {
        TokenNeverReturns(states, steps, k, j, id, t);
      }
    }
  }

  /** The site's own abort spares a finished row if and only if the site saw it graded, or the bridge left it to the
      judge, or it changes nothing: a verdict that arrived after the site looked is lost, and so are compile and
      internal errors, however fresh. */
  lemma AbortSparesVerdict(rows: Rows, id: Id, seen: Status, atJudge: bool)
    requires id in rows && !InProgress(rows[id].status)
    ensures SiteAborted(rows, id, seen, atJudge) == rows <==>
            seen.D? || atJudge || (rows[id].status.AB? && rows[id].points == Some(0.0))
    ensures SiteAborted(rows, id, seen, atJudge) != rows ==> SiteAborted(rows, id, seen, atJudge)[id].status.AB?
  {
    var row := if GivesUp(seen, atJudge) then rows[id].(status := AB, points := Some(0.0)) else rows[id];
    assert SiteAborted(rows, id, seen, atJudge)[id] == row;
    assert row == rows[id] ==> SiteAborted(rows, id, seen, atJudge) == rows;
  }

  /** The two ways in which it does not: a verdict that the site has not seen, and a compile error that it has. */
  lemma AbortOverwrites(graded: Row, failed: Row, id: Id)
    requires graded.status.D? && failed.status.CE?
    ensures SiteAborted(map[id := graded], id, G, false)[id].status.AB?
    ensures SiteAborted(map[id := failed], id, failed.status, false)[id].status.AB?
  {
  }

  /** Whoever changes a row that carries a token without replacing it either runs that token on that row or dispatches
      it to a judge, or is the site. */
  lemma OnlyOwnRunWrites(s: World, step: Step, score: Scoring, id: Id)
    requires Enabled(s, step) && id in s.rows && s.rows[id].token.Some?
    requires !Same(s.rows, Next(s, step, score).rows, id)
    ensures match step
            case Receive(worker, _, _) => Owns(s.rows, s.workers[worker], id)
            case Disconnect(worker, _, _) => Owns(s.rows, s.workers[worker], id)
            case Dispatch(_, at, expected, f) =>
              at == id && (expected.Some? ==> expected == s.rows[id].token) && f.filesError.Some?
            case Ask(at, request, _) => at == id && Accepts(s.rows[id], request)
            case FailToSend(at, token) => at == id && s.rows[id].token == Some(token)
            case Abort(at, seen, atJudge) => at == id && GivesUp(seen, atJudge)
            case Prepare(at, what) => at == id && MayPrepare(s.rows[id].status, what)
            case _ => false
  {
    if ByHandler(step) && Untouchable(s.rows, s.workers[step.worker], id) {
      StepFenced(s, step, score, id);
    }
  }
}
