/** What each step of the site, the bridge and the judges does to the submissions' rows. */
module DispatchTokens {
  import opened Options
  import opened Tokens

  type Id = nat
  type Digest = nat

  datatype Status = QU | P | G | D | CE | IE | AB

  datatype Case = Case(position: nat, batch: Option<nat>, points: real)

  // One row of the submission table and its test cases.
  datatype Row = Row(status: Status, token: Option<Token>, points: Option<real>, cases: seq<Case>,
                     current: nat, batched: bool, error: Option<string>)

  type Rows = map<Id, Row>

  datatype Usage = Unopened | Opened | Started | Finished

  // What a handler does once its transaction has committed.
  datatype Commit = Nothing | Release(id: Id) | Defer(id: Id)

  // The fields of one judge's handler. `retryable` says that a request was kept for a retry.
  datatype Worker = Worker(working: Option<Id>, dispatchId: Option<Token>, remoteRun: Option<Digest>,
                           preparing: bool, retryable: bool, usage: Usage, batchId: Option<nat>, inBatch: bool,
                           onCommit: Commit)

  datatype Effect = Effect(rows: Rows, worker: Worker)

  predicate InProgress(status: Status) {
    status.QU? || status.P? || status.G?
  }

  // ----- The site -----

  datatype Request = Request(rejudge: bool, storageClaimed: bool)

  // `_queue_submission` takes the request.
  predicate Accepts(row: Row, request: Request) {
    && !(row.status.AB? && !request.rejudge)
    && (if request.storageClaimed then row.status.P?
        else !row.status.P? && !row.status.G? && !(row.status.QU? && row.token.Some?))
  }

  function Queued(row: Row, request: Request, minted: Token): Row {
    row.(status := if request.storageClaimed then P else QU, token := Some(minted), points := None, cases := [],
         error := None)
  }

  function Requested(rows: Rows, id: Id, request: Request, minted: Token): Rows {
    if id in rows && Accepts(rows[id], request) then rows[id := Queued(rows[id], request, minted)] else rows
  }

  // The request could not be handed to the bridge, or got a wrong answer.
  function SendFailed(rows: Rows, id: Id, token: Token): Rows {
    if id in rows && InProgress(rows[id].status) && rows[id].token == Some(token)
    then rows[id := rows[id].(status := IE)]
    else rows
  }

  // The site aborts a submission that it saw in the status `seen`, unless that was finished or the bridge says that
  // the judge takes care of it.
  predicate GivesUp(seen: Status, atJudge: bool) {
    !seen.D? && !atJudge
  }

  function SiteAborted(rows: Rows, id: Id, seen: Status, atJudge: bool): Rows {
    if GivesUp(seen, atJudge) && id in rows then rows[id := rows[id].(status := AB, points := Some(0.0))] else rows
  }

  // Before it has a submission judged, the site can claim its row, put the request off, or give it up, when the
  // problem's files are not in place. None of this looks at tokens.
  datatype Preparation = Claim(rejudge: bool) | PutOff | Refuse(message: string)

  predicate MayPrepare(status: Status, what: Preparation) {
    match what
    case Claim(rejudge) => !status.P? && !status.G? && (status.AB? ==> rejudge)
    case PutOff => !status.AB?
    case Refuse(_) => !status.AB?
  }

  function Prepared(rows: Rows, id: Id, what: Preparation): Rows {
    if id in rows && MayPrepare(rows[id].status, what) then
      rows[id := match what
                 case Claim(_) => rows[id].(status := P)
                 case PutOff => rows[id].(status := QU)
                 case Refuse(message) => rows[id].(status := IE, error := Some(message))]
    else rows
  }

  // ----- Dispatch -----

  datatype Verdict = Accepted | Deferred | Invalid | Failed

  // What the handler finds out on its way: the problem's lock, its root, whether this judge can take it,
  // whether its files are valid, whether the judge is remote and has a publication, and whether sending works.
  datatype Findings = Findings(allowed: bool, sameRoot: bool, eligible: bool, filesError: Option<string>,
                               remote: bool, publication: Option<Digest>, sent: bool)

  function Dispatched(rows: Rows, w: Worker, id: Id, expected: Option<Token>, f: Findings): (Effect, Verdict) {
    var w := w.(retryable := true);
    if id !in rows || !InProgress(rows[id].status) || (expected.Some? && expected != rows[id].token) ||
       !f.allowed || !f.sameRoot then (Effect(rows, w), Invalid)
    else if !f.eligible then (Effect(rows, w), Deferred)
    else if f.filesError.Some? then
      (Effect(rows[id := rows[id].(status := IE, points := Some(0.0), error := f.filesError)], w), Invalid)
    else
      var w := w.(dispatchId := rows[id].token, remoteRun := None, preparing := false);
      if f.remote && (f.publication.None? || w.dispatchId.None?) then (Effect(rows, w), Deferred)
      else
        var w := w.(usage := Unopened);
        if !f.sent then (Effect(rows, w), Failed)
        else (Effect(rows, w.(working := Some(id), remoteRun := if f.remote then f.publication else None,
                              preparing := f.remote)), Accepted)
  }

  // ----- Packets -----

  datatype Report = Report(position: nat, points: real)

  datatype Body =
    | GradingBegin | GradingEnd | CompileError(log: string) | CompileMessage(log: string)
    | InternalError(message: string) | Terminated | Acknowledged | BatchBegin | BatchEnd
    | TestCases(reports: seq<Report>) | DataPrepared(sha: Digest) | DataUnavailable(sha: Digest)

  datatype Packet = Packet(id: Option<Id>, tag: Option<Token>, body: Body)

  datatype Score = Scored(points: real) | Unscorable(message: string)
  type Scoring = seq<Case> -> Score

  predicate IsTerminal(body: Body) {
    body.GradingEnd? || body.CompileError? || body.InternalError? || body.Terminated? || body.DataUnavailable?
  }

  // `_current_score_run`: the row is in progress, the packet names no other run, and the handler holds the row's
  // token. A row without a token accepts any handler.
  predicate Current(rows: Rows, w: Worker, id: Id, tag: Option<Token>) {
    && id in rows && InProgress(rows[id].status)
    && (tag.Some? ==> tag == rows[id].token)
    && (rows[id].token.Some? ==> w.working == Some(id) && w.dispatchId == rows[id].token)
  }

  function MaxPosition(reports: seq<Report>): nat
    requires reports != []
  {
    var last := reports[|reports| - 1].position;
    if |reports| == 1 then last
    else
      var m := MaxPosition(reports[..|reports| - 1]);
      if last > m then last else m
  }

  function CasesOf(reports: seq<Report>, batch: Option<nat>): seq<Case> {
    if reports == [] then []
    else
      var last := reports[|reports| - 1];
      CasesOf(reports[..|reports| - 1], batch) + [Case(last.position, batch, last.points)]
  }

  function Begin(row: Row): Row {
    row.(status := G, current := 1, batched := false, cases := [])
  }

  // The row at the end of its run.
  function Ended(row: Row, score: Scoring): Row {
    match score(row.cases)
    case Scored(points) => row.(status := D, points := Some(points))
    case Unscorable(message) => row.(status := IE, points := Some(0.0), error := Some(message))
  }

  // The judge acknowledged `got` though it works on something else.
  function WrongAcknowledge(rows: Rows, working: Option<Id>, got: Option<Id>): Rows {
    var rows := if working.Some? && working.value in rows
                then rows[working.value := rows[working.value].(status := IE, error := None)] else rows;
    if got.Some? && got.value in rows && rows[got.value].status.QU?
    then rows[got.value := rows[got.value].(status := IE, error := None)] else rows
  }

  function OnAcknowledged(rows: Rows, w: Worker, id: Option<Id>): Effect {
    if w.working.Some? && !Current(rows, w, w.working.value, None) then Effect(rows, w)
    else if id != w.working || id.None? then Effect(WrongAcknowledge(rows, w.working, id), w)
    else if w.usage != Unopened || id.value !in rows then Effect(rows, w)
    else Effect(rows[id.value := rows[id.value].(status := P)], w.(usage := Opened))
  }

  // Preparing remote data failed: the run goes back to the queue under a new token.
  predicate CanRetry(rows: Rows, w: Worker) {
    && w.preparing && w.retryable && w.working.Some? && w.working.value in rows
    && var row := rows[w.working.value];
       (row.status.QU? || row.status.P?) && row.token == w.dispatchId
  }

  function Retried(rows: Rows, w: Worker, minted: Token): Effect {
    if CanRetry(rows, w) then
      var id := w.working.value;
      Effect(rows[id := rows[id].(status := QU, token := Some(minted))], w.(onCommit := Defer(id)))
    else Effect(rows, w)
  }

  // What the packet of a current run does.
  function Applied(rows: Rows, w: Worker, id: Id, body: Body, minted: Token, score: Scoring): Effect
    requires id in rows
  {
    var row := rows[id];
    var freed := w.(onCommit := Release(id));
    match body
    case GradingBegin =>
      if w.working != Some(id) || w.usage.Started? || w.usage.Finished? then Effect(rows, w)
      else Effect(rows[id := Begin(row)], w.(batchId := None, usage := if w.usage.Opened? then Started else w.usage))
    case GradingEnd =>
      if w.working != Some(id) then Effect(rows, w)
      else Effect(if row.token == w.dispatchId then rows[id := Ended(row, score)] else rows, freed.(batchId := None))
    case CompileError(log) =>
      if w.working != Some(id) then Effect(rows, w)
      else Effect(rows[id := row.(status := CE, error := Some(log))], freed)
    case InternalError(message) =>
      if w.working != Some(id) then Effect(rows, w)
      else Effect(rows[id := row.(status := IE, error := Some(message))], freed)
    case Terminated =>
      if w.working != Some(id) then Effect(rows, w)
      else Effect(rows[id := row.(status := AB, points := Some(0.0))], freed)
    case CompileMessage(log) => Effect(rows[id := row.(error := Some(log))], w)
    case Acknowledged => OnAcknowledged(rows, w, Some(id))
    case BatchBegin =>
      if w.batchId.None? then Effect(rows[id := row.(batched := true)], w.(inBatch := true, batchId := Some(1)))
      else Effect(rows, w.(inBatch := true, batchId := Some(w.batchId.value + 1)))
    case BatchEnd => Effect(rows, w.(inBatch := false))
    case TestCases(reports) =>
      if w.working != Some(id) || reports == [] then Effect(rows, w)
      else
        var batch := if w.inBatch then w.batchId else None;
        Effect(rows[id := row.(current := MaxPosition(reports) + 1, cases := row.cases + CasesOf(reports, batch))], w)
    case DataPrepared(sha) => OnPrepared(rows, w, sha)
    case DataUnavailable(sha) => OnUnavailable(rows, w, sha, minted)
  }

  function OnPrepared(rows: Rows, w: Worker, sha: Digest): Effect {
    Effect(rows, if w.remoteRun == Some(sha) then w.(preparing := false) else w)
  }

  function OnUnavailable(rows: Rows, w: Worker, sha: Digest, minted: Token): Effect {
    if w.remoteRun == Some(sha) then Retried(rows, w, minted) else Effect(rows, w)
  }

  // A packet that names no submission. Most callbacks fail on it before they write.
  function Unaddressed(rows: Rows, w: Worker, body: Body, minted: Token): Effect {
    match body
    case Acknowledged => OnAcknowledged(rows, w, None)
    case DataPrepared(sha) => OnPrepared(rows, w, sha)
    case DataUnavailable(sha) => OnUnavailable(rows, w, sha, minted)
    case _ => Effect(rows, w)
  }

  function Handled(rows: Rows, w: Worker, p: Packet, minted: Token, score: Scoring): Effect {
    if p.id.None? then Unaddressed(rows, w, p.body, minted)
    else
      var id := p.id.value;
      if (w.remoteRun.Some? && p.tag != w.dispatchId) || id !in rows then Effect(rows, w)
      else if Current(rows, w, id, p.tag) then Applied(rows, w, id, p.body, minted, score)
      else if IsTerminal(p.body) && w.working == Some(id) && (p.tag.None? || p.tag == w.dispatchId)
      then Effect(rows, w.(onCommit := Release(id)))
      else Effect(rows, w)
  }

  // After the commit; `granted` is the scheduler's answer.
  function Committed(w: Worker, granted: bool): Worker {
    var done := w.(onCommit := Nothing);
    match w.onCommit
    case Nothing => w
    case Release(id) =>
      if w.working != Some(id) then done
      else done.(usage := Close(w.usage), preparing := false, remoteRun := None,
                 working := if granted then None else w.working)
    case Defer(id) =>
      if granted then done.(usage := Close(w.usage), working := None, preparing := false, remoteRun := None)
      else done.(usage := Close(w.usage))
  }

  function Close(usage: Usage): Usage {
    if usage.Unopened? then Unopened else Finished
  }

  function Disconnected(rows: Rows, w: Worker, granted: bool, minted: Token): Effect {
    var retried := Retried(rows, w, minted);
    var left := if CanRetry(rows, w) then Committed(retried.worker, granted) else w;
    var closed := if left.working.Some? then left.(usage := Close(left.usage)) else left;
    if left.working.Some? && Current(retried.rows, left, left.working.value, None) then
      var id := left.working.value;
      Effect(retried.rows[id := retried.rows[id].(status := IE, error := Some(""))], closed)
    else Effect(retried.rows, closed)
  }
}
