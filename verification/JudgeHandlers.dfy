/** The handler of one judge: its fields and the submission table, changed packet by packet. */
module JudgeHandlers {
  import opened Options
  import opened Tokens
  import opened DispatchTokens
  import opened SubmissionTables
  import opened DispatchRuns
  import opened PacketEffects

  // A packet of a run that is not current changes nothing.
  function Guarded(e: Effect, id: Id, tag: Option<Token>, body: Body, minted: Token, score: Scoring): Effect {
    if Current(e.rows, e.worker, id, tag) then Applied(e.rows, e.worker, id, body, minted, score) else e
  }

  class JudgeHandler {
    const db: SubmissionTable
    const score: Scoring
    var working: Option<Id>
    var dispatchId: Option<Token>
    var remoteRun: Option<Digest>
    var remotePreparing: bool
    var retryable: bool
    var usage: Usage
    var batchId: Option<nat>
    var inBatch: bool
    var onCommit: Commit

    constructor (db: SubmissionTable, score: Scoring)
      ensures this.db == db && this.score == score
      ensures State() == Worker(None, None, None, false, false, Unopened, None, false, Nothing)
    {
      this.db, this.score := db, score;
      working, dispatchId, remoteRun, remotePreparing, retryable := None, None, None, false, false;
      usage, batchId, inBatch, onCommit := Unopened, None, false, Nothing;
    }

    function State(): Worker
      reads this
    {
      Worker(working, dispatchId, remoteRun, remotePreparing, retryable, usage, batchId, inBatch, onCommit)
    }

    function Now(): Effect
      reads this, db
    {
      Effect(db.rows, State())
    }

    method CurrentScoreRun(id: Id, tag: Option<Token>) returns (current: bool)
      ensures current == Current(db.rows, State(), id, tag)
    {
      if id !in db.rows || !InProgress(db.rows[id].status) {
        return false;
      }
      var token := db.rows[id].token;
      if tag.Some? && tag != token {
        return false;
      }
      if token.None? {
        return true;
      }
      return working == Some(id) && dispatchId == token;
    }

    // Fails for a submission that this judge was not given.
    method FreeSelf(id: Id) returns (ok: bool)
      modifies this`onCommit
      ensures ok == (working == Some(id))
      ensures onCommit == if ok then Release(id) else old(onCommit)
    {
      ok := working == Some(id);
      if ok {
        onCommit := Release(id);
      }
    }

    method OnSubmissionProcessing(id: Id, tag: Option<Token>)
      requires Current(db.rows, State(), id, tag)
      modifies db, this`usage
      ensures if old(usage) == Unopened
              then usage == Opened && db.rows == old(db.rows)[id := old(db.rows)[id].(status := P)]
              else usage == old(usage) && db.rows == old(db.rows)
    {
      if usage != Unopened {
        return;
      }
      usage := Opened;
      db.rows := db.rows[id := db.rows[id].(status := P)];
    }

    method OnSubmissionAcknowledged(id: Option<Id>, tag: Option<Token>)
      requires id.Some? ==> Current(db.rows, State(), id.value, tag)
      modifies db, this`usage
      ensures Now() == old(OnAcknowledged(db.rows, State(), id))
    {
      if working.Some? {
        var current := CurrentScoreRun(working.value, None);
        if !current {
          return;
        }
      }
      if id.None? || id != working {
        OnWrongAcknowledge(working, id);
        return;
      }
      OnSubmissionProcessing(id.value, tag);
    }

    method OnWrongAcknowledge(expected: Option<Id>, got: Option<Id>)
      modifies db
      ensures db.rows == WrongAcknowledge(old(db.rows), expected, got)
    {
      if expected.Some? && expected.value in db.rows {
        db.rows := db.rows[expected.value := db.rows[expected.value].(status := IE, error := None)];
      }
      if got.Some? && got.value in db.rows && db.rows[got.value].status.QU? {
        db.rows := db.rows[got.value := db.rows[got.value].(status := IE, error := None)];
      }
    }

    method OnGradingBegin(id: Id, tag: Option<Token>)
      modifies db, this`batchId, this`usage
      ensures Now() == old(Guarded(Now(), id, tag, GradingBegin, 0, score))
    {
      var current := CurrentScoreRun(id, tag);
      if !current || working != Some(id) || usage.Started? || usage.Finished? {
        return;
      }
      if usage.Opened? {
        usage := Started;
      }
      batchId := None;
      db.rows := db.rows[id := db.rows[id].(status := G, current := 1, batched := false)];
      db.rows := db.rows[id := db.rows[id].(cases := [])];
    }

    method OnGradingEnd(id: Id, tag: Option<Token>)
      modifies db, this`batchId, this`onCommit
      ensures Now() == old(Guarded(Now(), id, tag, GradingEnd, 0, score))
    {
      var current := CurrentScoreRun(id, tag);
      if !current {
        return;
      }
      var ok := FreeSelf(id);
      if !ok {
        return;
      }
      batchId := None;
      var row := db.rows[id];
      if row.token != dispatchId {
        return;
      }
      match score(row.cases)
      case Scored(points) =>
        db.rows := db.rows[id := row.(status := D, points := Some(points))];
      case Unscorable(message) =>
        FailScoringResult(id, message);
    }

    method FailScoringResult(id: Id, message: string)
      requires id in db.rows
      modifies db
      ensures db.rows == old(db.rows)[id := old(db.rows)[id].(status := IE, points := Some(0.0),
                                                              error := Some(message))]
    {
      db.rows := db.rows[id := db.rows[id].(status := IE, points := Some(0.0), error := Some(message))];
    }

    method OnCompileError(id: Id, tag: Option<Token>, log: string)
      modifies db, this`onCommit
      ensures Now() == old(Guarded(Now(), id, tag, CompileError(log), 0, score))
    {
      var current := CurrentScoreRun(id, tag);
      if current {
        var ok := FreeSelf(id);
        if ok {
          db.rows := db.rows[id := db.rows[id].(status := CE, error := Some(log))];
        }
      }
    }

    method OnCompileMessage(id: Id, tag: Option<Token>, log: string)
      modifies db
      ensures Now() == old(Guarded(Now(), id, tag, CompileMessage(log), 0, score))
    {
      var current := CurrentScoreRun(id, tag);
      if current {
        db.rows := db.rows[id := db.rows[id].(error := Some(log))];
      }
    }

    method OnInternalError(id: Id, tag: Option<Token>, message: string)
      modifies db, this`onCommit
      ensures Now() == old(Guarded(Now(), id, tag, InternalError(message), 0, score))
    {
      var current := CurrentScoreRun(id, tag);
      if current {
        var ok := FreeSelf(id);
        if ok {
          db.rows := db.rows[id := db.rows[id].(status := IE, error := Some(message))];
        }
      }
    }

    method OnSubmissionTerminated(id: Id, tag: Option<Token>)
      modifies db, this`onCommit
      ensures Now() == old(Guarded(Now(), id, tag, Terminated, 0, score))
    {
      var current := CurrentScoreRun(id, tag);
      if current {
        var ok := FreeSelf(id);
        if ok {
          db.rows := db.rows[id := db.rows[id].(status := AB, points := Some(0.0))];
        }
      }
    }

    method OnBatchBegin(id: Id, tag: Option<Token>)
      modifies db, this`inBatch, this`batchId
      ensures Now() == old(Guarded(Now(), id, tag, BatchBegin, 0, score))
    {
      var current := CurrentScoreRun(id, tag);
      if !current {
        return;
      }
      inBatch := true;
      var n := 0;
      if batchId.Some? {
        n := batchId.value;
      } else {
        db.rows := db.rows[id := db.rows[id].(batched := true)];
      }
      batchId := Some(n + 1);
    }

    method OnBatchEnd(id: Id, tag: Option<Token>)
      modifies this`inBatch
      ensures Now() == old(Guarded(Now(), id, tag, BatchEnd, 0, score))
    {
      var current := CurrentScoreRun(id, tag);
      if current {
        inBatch := false;
      }
    }

    method OnTestCase(id: Id, tag: Option<Token>, updates: seq<Report>)
      modifies db
      ensures Now() == old(Guarded(Now(), id, tag, TestCases(updates), 0, score))
    {
      var current := CurrentScoreRun(id, tag);
      if !current || working != Some(id) || updates == [] {
        return;
      }
      var maxPosition, created := 0, [];
      for n := 0 to |updates|
        invariant created == CasesOf(updates[..n], if inBatch then batchId else None)
        invariant n > 0 ==> maxPosition == MaxPosition(updates[..n])
      {
        assert updates[..n + 1][..n] == updates[..n];
        if n == 0 || updates[n].position > maxPosition {
          maxPosition := updates[n].position;
        }
        created := created + [Case(updates[n].position, if inBatch then batchId else None, updates[n].points)];
      }
      assert updates[..|updates|] == updates;
      db.rows := db.rows[id := db.rows[id].(current := maxPosition + 1)];
      db.rows := db.rows[id := db.rows[id].(cases := db.rows[id].cases + created)];
    }

    method OnProblemDataPrepared(sha: Digest)
      modifies this`remotePreparing
      ensures Now() == old(OnPrepared(db.rows, State(), sha))
    {
      if remoteRun == Some(sha) {
        remotePreparing := false;
      }
    }

    method OnProblemDataUnavailable(sha: Digest, minted: Token)
      modifies db, this`onCommit
      ensures Now() == old(OnUnavailable(db.rows, State(), sha, minted))
    {
      if remoteRun == Some(sha) {
        var _ := RetryRemoteSubmission(minted);
      }
    }

    method RetryRemoteSubmission(minted: Token) returns (retried: bool)
      modifies db, this`onCommit
      ensures Now() == old(Retried(db.rows, State(), minted)) && retried == old(CanRetry(db.rows, State()))
    {
      if !remotePreparing || !retryable || working.None? || working.value !in db.rows {
        return false;
      }
      var id := working.value;
      var row := db.rows[id];
      if (!row.status.QU? && !row.status.P?) || row.token != dispatchId {
        return false;
      }
      db.rows := db.rows[id := row.(status := QU, token := Some(minted))];
      onCommit := Defer(id);
      return true;
    }

    // The callback for the packet's name.
    method Callback(id: Id, tag: Option<Token>, body: Body, minted: Token)
      requires Current(db.rows, State(), id, tag)
      modifies db, this
      ensures Now() == old(Applied(db.rows, State(), id, body, minted, score))
    {
      match body
      case GradingBegin => OnGradingBegin(id, tag);
      case GradingEnd => OnGradingEnd(id, tag);
      case CompileError(log) => OnCompileError(id, tag, log);
      case CompileMessage(log) => OnCompileMessage(id, tag, log);
      case InternalError(message) => OnInternalError(id, tag, message);
      case Terminated => OnSubmissionTerminated(id, tag);
      case Acknowledged => OnSubmissionAcknowledged(Some(id), tag);
      case BatchBegin => OnBatchBegin(id, tag);
      case BatchEnd => OnBatchEnd(id, tag);
      case TestCases(updates) => OnTestCase(id, tag, updates);
      case DataPrepared(sha) => OnProblemDataPrepared(sha);
      case DataUnavailable(sha) => OnProblemDataUnavailable(sha, minted);
    }

    method HandleUnaddressed(body: Body, minted: Token)
      modifies db, this
      ensures Now() == old(Unaddressed(db.rows, State(), body, minted))
    {
      match body
      case Acknowledged => OnSubmissionAcknowledged(None, None);
      case DataPrepared(sha) => OnProblemDataPrepared(sha);
      case DataUnavailable(sha) => OnProblemDataUnavailable(sha, minted);
      case _ =>
    }

    // The rows that this handler has no right to.
    ghost predicate Fenced(was: Rows, w: Worker)
      reads db
    {
      forall id :: Untouchable(was, w, id) ==> Same(was, db.rows, id)
    }

    // A packet of the handler's own run, whose row is in progress.
    ghost predicate IsOwn(packet: Packet)
      reads this, db
    {
      packet.id.Some? && OwnRun(db.rows, State(), packet.id.value) && Addressed(State(), packet.tag)
    }

    /** Any packet from the judge. What it says is left in the row of the handler's own run; rows that are finished or
        carry the token of another run are left alone. */
    method HandleSubmissionPacket(packet: Packet, minted: Token)
      modifies db, this
      ensures Now() == old(Handled(db.rows, State(), packet, minted, score))
      ensures Fenced(old(db.rows), old(State()))
      ensures old(IsOwn(packet)) ==>
        var id := packet.id.value;
        && id in db.rows && RowAfter(old(State()), old(db.rows)[id], db.rows[id], packet.body, minted, score)
        && WorkerAfter(old(State()), old(db.rows)[id], State(), id, packet.body)
    {
      forall id | Untouchable(db.rows, State(), id) {
        PacketFenced(db.rows, State(), packet, minted, score, id);
      }
      if IsOwn(packet) {
        PacketWrites(db.rows, State(), packet.id.value, packet.tag, packet.body, minted, score);
        PacketMoves(db.rows, State(), packet.id.value, packet.tag, packet.body, minted, score);
      }
      if packet.id.None? {
        HandleUnaddressed(packet.body, minted);
        return;
      }
      var id := packet.id.value;
      if remoteRun.Some? && packet.tag != dispatchId {
        return;
      }
      if id !in db.rows {
        return;
      }
      var current := CurrentScoreRun(id, packet.tag);
      if current {
        Callback(id, packet.tag, packet.body, minted);
      } else if IsTerminal(packet.body) && working == Some(id) && (packet.tag.None? || packet.tag == dispatchId) {
        var _ := FreeSelf(id);
      }
    }

    // `release` or `retry`, run once the transaction has committed; `granted` is the scheduler's answer.
    method RunOnCommit(granted: bool)
      modifies this
      ensures State() == old(Committed(State(), granted))
    {
      match onCommit
      case Nothing =>
      case Release(id) =>
        onCommit := Nothing;
        if working == Some(id) {
          FinishUsage();
          remotePreparing, remoteRun := false, None;
          if granted {
            working := None;
          }
        }
      case Defer(_) =>
        onCommit := Nothing;
        FinishUsage();
        if granted {
          working, remotePreparing, remoteRun := None, false, None;
        }
    }

    method FinishUsage()
      modifies this`usage
      ensures usage == Close(old(usage))
    {
      if usage != Unopened {
        usage := Finished;
      }
    }

    /** The connection is lost. A remote run that is still preparing goes back to the queue; any other current run
        fails, and all other rows that carry a token or are finished are left alone. */
    method OnDisconnect(granted: bool, minted: Token)
      modifies db, this
      ensures Now() == old(Disconnected(db.rows, State(), granted, minted))
      ensures Fenced(old(db.rows), old(State()))
    {
      forall id | Untouchable(db.rows, State(), id) {
        DisconnectFenced(db.rows, State(), granted, minted, id);
      }
      var retried := RetryRemoteSubmission(minted);
      if retried {
        RunOnCommit(granted);
      }
      if working.Some? {
        FinishUsage();
        var current := CurrentScoreRun(working.value, None);
        if current {
          db.rows := db.rows[working.value := db.rows[working.value].(status := IE, error := Some(""))];
        }
      }
    }

    /** Takes a submission from the scheduler. */
    method Submit(id: Id, expected: Option<Token>, f: Findings) returns (verdict: Verdict)
      requires working.None?
      modifies db, this
      ensures (Now(), verdict) == old(Dispatched(db.rows, State(), id, expected, f))
    {
      retryable := true;
      if id !in db.rows {
        return Invalid;
      }
      var row := db.rows[id];
      if !InProgress(row.status) || (expected.Some? && expected != row.token) || !f.allowed || !f.sameRoot {
        return Invalid;
      }
      if !f.eligible {
        return Deferred;
      }
      if f.filesError.Some? {
        FailScoringResult(id, f.filesError.value);
        return Invalid;
      }
      dispatchId := row.token;
      remoteRun, remotePreparing := None, false;
      if f.remote {
        if f.publication.None? || dispatchId.None? {
          return Deferred;
        }
        remoteRun, remotePreparing := f.publication, true;
      }
      working, usage := Some(id), Unopened;
      if !f.sent {
        working, remotePreparing, remoteRun := None, false, None;
        return Failed;
      }
      return Accepted;
    }
  }
}
