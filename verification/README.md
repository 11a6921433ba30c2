# A model of the judging site's core

This project models, in Dafny, the parts of the site where state, recursion or arithmetic make a mistake easy and
hard to notice, and proves what they promise.

- **The bridge's scheduler** (`PriorityList`, `JudgeScheduler`): the four-class queue kept as one list with markers,
  its three indexes, and the recursive hand-out of work, for any mix of outcomes of a dispatch.
- **The dispatch-token protocol** (`Tokens`, `DispatchTokens`, `SubmissionTables`, `JudgeHandlers`, `DispatchRuns`,
  `GradingRuns`, `PacketEffects`): the site, the bridge and its handlers as a transition system over the submissions' rows. The classes
  are proved to take exactly the system's steps, which are spelled out field by field; the fencing theorems, and where
  every verdict comes from, are about all its runs.
- **The Elo-MMR rating update** (`TieRanks`, `Solver`, `Variance`, `Ratings`), over real numbers, with `tanh` as any
  strictly increasing function.
- **The scoreboard resolver** (`Resolver`), **contest scoring** (`ContestSubmissions`, `Icpc`, `Vnoj`, `BatchResults`,
  `Sums`, `Ioi`), **problem labels** (`ProblemLabels`), **the websocket daemon** (`MessageQueue`, `MessageLog`,
  `Daemon`), **packet framing** (`Framing`) and **exact test groups** (`TestcaseGroups`).

Code that changes objects in place is a class whose methods change fields, each tied to a function of the old state;
code made of expressions is functions. `dfyconfig.toml` lists all files.

## What the proofs found

- Handing a run back (`judge_list.py:115-127`) drops the recorded token of the submission even when a separately
  requested rejudge is already queued, although the comment there says not to replace that token. The rejudge is then
  dispatched with whatever token its row carries. `JudgeList.Defer` states this as the code does it, and
  `JudgeScheduler.RejudgeLosesToken` is a run that gets there.
- An entry can be dispatched while an older run of the same submission is still assigned (`judge_list.py:61`). The
  older worker's assignment is then lost, whatever the answer to the dispatch: exactly for the submissions somebody was
  asked about (`JudgeScheduler.AssignmentSurvives`). Its release is refused later (`judge_list.py:157-160`), so it
  stays busy: `JudgeScheduler.WorkerStaysBusy` is a run, `DispatchRuns.StaleEndAsksForRelease` says what the handler
  does then.
- Enabling judges iterates the live set (`judge_list.py:131-135`): a dispatch that fails on the way removes a judge and
  ends the loop with an exception. `JudgeList.UpdateDisableJudge` states exactly when.
- The fence around a row needs its token. A row without one, such as a new submission before its first request, can be
  written by any handler while it is in progress (`judge_handler.py:272-273`): `DispatchRuns.WithoutTokenNoFence`.
- The frozen ICPC columns are not always what everybody saw at the freeze: a partial result before the freeze that is
  improved after it counts nothing in the frozen columns. `Icpc.FrozenColumnsAgree` gives the exact condition,
  `Icpc.LateImprovementCase` an input.
- The resolver does not take a result that got worse off the score: `Resolver.RevealKeepsDistance`.
- A channel named like a property that every JavaScript object has (`constructor`, for example) passes every filter,
  because filters are consulted with `in` on a plain object (`daemon.js:123`, `daemon.js:247`). `MessageLog.Passes`
  models it.
- A connection that sets `start_msg` below the last message it was sent and chooses its channels again, with no post in
  between, gets messages twice (`daemon.js:85-119`). `MessageLog.CatchUpOrder` gives the exact condition,
  `Daemon.MessageSentTwice` a run. What is sent after the latest choice of channels is exact for every connection.
- A repeated grading-begin clears the cases stored so far if the run was never acknowledged
  (`judge_handler.py:627-634`): `GradingRuns.BeginChangesNothing`, `GradingRuns.UnacknowledgedBeginForgets`.
- The site's abort asks only whether the status it loaded earlier is the graded one (`judgeapi.py:232`), so it can
  overwrite a verdict that arrived meanwhile, and compile and internal errors even if it has seen them:
  `DispatchRuns.AbortSparesVerdict`, `DispatchRuns.AbortOverwrites`.
- Revealing the frozen results keeps the board in the order of scores only: `Resolver.TimeOrderLost`.

## Model

| member | source | states |
|---|---|---|
| `PriorityList.ScannedPriority` | repo/judge/bridge/judge_list.py:49-55 | counting the markers passed on the way to an entry recovers exactly the class the entry was queued with |
| `PriorityList.NextMarker` | repo/judge/bridge/judge_list.py:52-53 | markers are met in order, so the next one met is that of the class being scanned |
| `PriorityList.InsertKeepsOrder` | repo/judge/bridge/judge_list.py:256-259 | inserting before a class marker keeps all four markers and the (class, arrival) order, and adds only the new entry |
| `PriorityList.RemoveKeepsOrder` | repo/judge/bridge/judge_list.py:84-85 | removing an entry keeps the markers and the order |
| `PriorityList.RemoveUndoesInsert` | repo/judge/bridge/judge_list.py:180-181 | removing an entry just inserted gives back the old queue |
| `JudgeScheduler.Judge.Submit` | repo/judge/bridge/judge_handler.py:356-386 | the four ways in which a dispatch can end, given from outside, and what each leaves on the judge |
| `JudgeScheduler.Judge.TakesExactly` | repo/judge/bridge/judge_handler.py:254-259 | which judges take a request: one that asks for a judge goes to the judge of that name, even a disabled one, any other to judges that are not disabled; never to a banned one |
| `JudgeScheduler.JudgeList.constructor` | repo/judge/bridge/judge_list.py:29-36 | an empty scheduler satisfies the invariant: four markers in order, node_map a bijection with the entries, assignments and tokens consistent |
| `JudgeScheduler.JudgeList.Offer` | repo/judge/bridge/judge_list.py:60-79 | one dispatch: assigned when it succeeds, unassigned otherwise, token dropped when invalid, judge dropped when it failed |
| `JudgeScheduler.JudgeList.Next` | repo/judge/bridge/judge_list.py:51-60 | the walk stops at the first entry this judge can run, or where the reservation rule holds rejudges back; the class read off is the queued one |
| `JudgeScheduler.JudgeList.OneLeftIdle` | repo/judge/bridge/judge_list.py:54-56 | a dispatch the reservation rule lets through leaves at most one judge enabled or some enabled judge idle |
| `JudgeScheduler.JudgeList.ReservingMeans` | repo/judge/bridge/judge_list.py:54-56 | rejudges are held back exactly while two judges are enabled and no two of them are free |
| `JudgeScheduler.JudgeList.HandleFreeJudge` | repo/judge/bridge/judge_list.py:47-87 | terminates for any sequence of answers and keeps the invariant; the trail is exactly the answers given from the first to the last dispatch of the call; the judge gets the first entry in (class, arrival) order that it can run and did not itself refuse, remembered with its queued class, or ends idle with nothing for it, or is lost by an answer that says so; once it is lost, every other judge left idle has been tried, and has nothing that it takes but what it refused or what is held back; entries leave the queue only when settled; busy judges are neither asked nor disturbed |
| `JudgeScheduler.JudgeList.EndedCovers` | repo/judge/bridge/judge_list.py:47-87 | a judge that was served is not left idle while a contest or default entry waits that it could run and did not itself defer |
| `JudgeScheduler.JudgeList.HandleIdle` | repo/judge/bridge/judge_list.py:79-81 | every idle judge of a snapshot that may lose members meanwhile is tried; afterwards every judge left idle has nothing in the queue that it takes, but for entries it refused in this call and rejudges that are held back now |
| `JudgeScheduler.AssignmentSurvives` | repo/judge/bridge/judge_list.py:60-86 | over any call, the assignment of a judge that is not asked survives if and only if nobody was asked about its submission, however that ended |
| `JudgeScheduler.JudgeList.ConservedOutright` | repo/judge/bridge/judge_list.py:47-87 | without a deferral in the call, work is conserved without exception |
| `JudgeScheduler.JudgeList.SelectJudge` | repo/judge/bridge/judge_list.py:217-233 | a new request goes to a free judge of least load; a rejudge never takes the last free one of several candidates |
| `JudgeScheduler.JudgeList.Place` | repo/judge/bridge/judge_list.py:223-260 | a new request goes at once to a free judge of least load, if the reservation rule allows one; after a deferral all other idle judges are tried; it ends up queued under its class, assigned under its recorded token and remembered with its class, or settled by an answer; the recursion after failures ends because the judges get fewer |
| `JudgeScheduler.JudgeList.Wait` | repo/judge/bridge/judge_list.py:205-212 | a request for a submission being judged waits in the queue under its own token if that differs from the worker's; otherwise nothing changes; work stays conserved if and only if nothing is queued, or it is a rejudge, or no idle judge takes it |
| `JudgeScheduler.JudgeList.JudgeRequest` | repo/judge/bridge/judge_list.py:199-260 | the whole of judge(): a duplicate changes nothing; a request for a submission being judged waits under its class and token; any other is first offered to a free judge of least load, and is queued as the new entry under its class with the token recorded, or assigned under that token, or settled; it is queued without an offer only if no judge may have it now, and after a deferral every other idle judge has been tried; a queued request arrives after everything queued before it; work is conserved but for what a judge deferred in this call, with the exact condition for a submission being judged |
| `JudgeScheduler.JudgeList.LaterArrival` | repo/judge/bridge/judge_list.py:210-211 | first come, first served: a request that is queued arrives after all that were queued before it |
| `JudgeScheduler.JudgeList.OnJudgeFree` | repo/judge/bridge/judge_list.py:154-166 | a judge is released exactly when the submission is assigned to it, and is then served at once; otherwise nothing changes, and it stays as busy as it was |
| `JudgeScheduler.JudgeList.Register` | repo/judge/bridge/judge_list.py:92-97 | a new judge is served: the invariant and work conservation are kept |
| `JudgeScheduler.JudgeList.UpdateProblems` | repo/judge/bridge/judge_list.py:105-107 | a judge whose problem list changed is served, and how that ended is stated; the invariant and work conservation are kept |
| `JudgeScheduler.JudgeList.RetryQueued` | repo/judge/bridge/judge_list.py:109-113 | from any state: afterwards every judge left idle has nothing in the queue that it takes, but for entries it refused in this call and rejudges that are held back now |
| `JudgeScheduler.JudgeList.Remove` | repo/judge/bridge/judge_list.py:137-149 | the judge is gone and no submission is assigned to it; a single judge left idle is served, and how that ended is stated; otherwise nothing else changes |
| `JudgeScheduler.JudgeList.Abort` | repo/judge/bridge/judge_list.py:168-183 | an abort reaches the worker or takes the entry, its index and its token away, and nothing else |
| `JudgeScheduler.JudgeList.Defer` | repo/judge/bridge/judge_list.py:115-127 | a run given back is admitted again under its new token and its old class, offered to the other idle judges, queued behind everything else or assigned; with a rejudge already queued, the queue stays and the token recorded for that rejudge is dropped |
| `JudgeScheduler.JudgeList.Discard` | repo/judge/bridge/judge_handler.py:532-534 | a judge whose connection is lost is taken out first: nothing else changes and work stays conserved |
| `JudgeScheduler.RejudgeLosesToken` | repo/judge/bridge/judge_list.py:115-127 | a run that reaches that case from an empty scheduler: a judge joins, is given the run under one token, a rejudge is requested under a second, the run is given back under a third; the queued rejudge is left without a token |
| `JudgeScheduler.WorkerStaysBusy` | repo/judge/bridge/judge_list.py:60-61 | a run in which an assignment is overwritten: another judge joins and is given the new run, so the release of the first judge is refused and it stays busy |
| `JudgeScheduler.JudgeList.UpdateDisableJudge` | repo/judge/bridge/judge_list.py:129-135 | only judges of the name change; the only idle judge of the name, once enabled, is served, and how that ended is stated; the loop over the live set ends early exactly when the answer to some dispatch on the way was a failure |
| `SubmissionTables.SubmissionTable.QueueSubmission` | repo/judge/judgeapi.py:88-157 | a request is taken exactly under the guards, and then installs the fresh token, the status, and no points, cases or error; otherwise the table is unchanged |
| `SubmissionTables.SubmissionTable.MarkSendFailed` | repo/judge/judgeapi.py:205-213 | a failed hand-over finishes the row only while it still carries that request's token |
| `SubmissionTables.SubmissionTable.AbortSubmission` | repo/judge/judgeapi.py:227-241 | the site's own abort writes the row whatever its token, but not when it saw the submission finished or when the bridge leaves it to the judge |
| `SubmissionTables.SubmissionTable.PrepareJudging` | repo/judge/models/submission.py:289-331 | before a request the site can claim the row, put it off or refuse it, whatever its token, unless it is aborted |
| `JudgeHandlers.JudgeHandler.CurrentScoreRun` | repo/judge/bridge/judge_handler.py:265-275 | decides whether a packet belongs to the row's current run |
| `JudgeHandlers.JudgeHandler.Submit` | repo/judge/bridge/judge_handler.py:356-452 | dispatch, branch by branch, as the step of the protocol |
| `JudgeHandlers.JudgeHandler.OnGradingBegin` | repo/judge/bridge/judge_handler.py:621-641 | begins a run: the step of the protocol, which clears the row's cases unless the run's usage has begun before |
| `JudgeHandlers.JudgeHandler.OnGradingEnd` | repo/judge/bridge/judge_handler.py:643-706 | ends a run: scores the stored cases, or fails the row when they cannot be scored |
| `JudgeHandlers.JudgeHandler.OnTestCase` | repo/judge/bridge/judge_handler.py:859-940 | stores the reported cases with the current batch and the highest position |
| `JudgeHandlers.JudgeHandler.OnBatchBegin` | repo/judge/bridge/judge_handler.py:840-850 | numbers the batches of a run from 1 |
| `JudgeHandlers.JudgeHandler.OnSubmissionAcknowledged` | repo/judge/bridge/judge_handler.py:482-500 | a right acknowledgement marks the row as processing once; a wrong one fails the handler's own current row, and a queued row it named |
| `JudgeHandlers.JudgeHandler.RetryRemoteSubmission` | repo/judge/bridge/judge_handler.py:512-543 | a remote run that is still preparing goes back to QU under a fresh token, only if the row is QU or P and still the handler's |
| `JudgeHandlers.JudgeHandler.HandleSubmissionPacket` | repo/judge/bridge/judge_handler.py:572-602 | every packet, current or stale, has exactly the effect of the protocol's step; for the handler's own run that effect is spelled out field by field for each kind of packet, and rows that are finished or carry the token of another run are left alone |
| `JudgeHandlers.JudgeHandler.RunOnCommit` | repo/judge/bridge/judge_handler.py:963-975 | what runs after the commit, when the scheduler agrees and when it does not |
| `JudgeHandlers.JudgeHandler.OnDisconnect` | repo/judge/bridge/judge_handler.py:107-132 | a lost connection gives a preparing remote run back, or fails the row if it is still the handler's current run, and leaves the same rows alone |
| `DispatchRuns.PacketFenced` | repo/judge/bridge/judge_handler.py:572-602 | no packet changes a finished row, or a row whose token is not the handler's |
| `DispatchRuns.DisconnectFenced` | repo/judge/bridge/judge_handler.py:107-132 | nor does a disconnect |
| `DispatchRuns.WithoutTokenNoFence` | repo/judge/bridge/judge_handler.py:272-273 | the fence rests on the token: a row without one is written by any handler, shown on a concrete packet |
| `DispatchRuns.TokenReplaced` | repo/judge/judgeapi.py:120-143 | rows are never lost; a token changes only to a freshly minted one, by an accepted request for that row or by its own handler giving a remote run back |
| `DispatchRuns.RequestSparesLiveRun` | repo/judge/judgeapi.py:126-128 | a request without the storage claim is never taken while a run with a token is unfinished |
| `DispatchRuns.DispatchStartsCurrentRun` | repo/judge/bridge/judge_handler.py:361-386 | an accepted dispatch makes the handler the row's current run, under the expected token; a refused one leaves it idle |
| `DispatchRuns.StaleEndAsksForRelease` | repo/judge/bridge/judge_handler.py:592-594 | the final packet of a superseded run leaves the row alone and asks for the judge's release; the judge is free afterwards if the scheduler grants it, and works on the same submission if not |
| `DispatchRuns.EndFinishes` | repo/judge/bridge/judge_handler.py:643-648 | the final packet of a current run finishes its row and releases the judge |
| `DispatchRuns.TokenNeverReturns` | repo/judge/bridge/judge_handler.py:526-527 | over whole runs: a token that a row lost never comes back to it |
| `DispatchRuns.TokenStays` | repo/judge/judgeapi.py:120-121 | over whole runs: a row that carries a token always carries one |
| `DispatchRuns.SupersededNeverWrites` | repo/judge/bridge/judge_handler.py:265-275 | over whole runs: once a row carries another token, nothing a handler of the old run receives or leaves behind changes it, until that handler is given another run |
| `DispatchRuns.VerdictIsFinal` | repo/judge/bridge/judge_handler.py:267-268 | over whole runs: a finished row is the same as long as it carries its token, unless the site itself gives up on it or prepares to have it judged again |
| `DispatchRuns.AbortSparesVerdict` | repo/judge/judgeapi.py:230-240 | the site's abort leaves a finished row alone if and only if the site saw it graded, or the bridge left it to the judge, or it was aborted with no points already |
| `DispatchRuns.AbortOverwrites` | repo/judge/judgeapi.py:230-240 | inputs where it does not: a verdict the site has not seen yet, and a compile error that it has |
| `DispatchRuns.OnlyOwnRunWrites` | repo/judge/bridge/judge_handler.py:274-275 | whoever changes a row with a token owns that run, dispatches it, or is the site |
| `PacketEffects.PacketWrites` | repo/judge/bridge/judge_handler.py:572-948 | what each packet of a handler's own run leaves in the row: CE with the log, IE with the message, AB with 0 points, D with the score of the stored cases, P on acknowledgement, the reported cases and one more than the highest position, and no other row changes |
| `PacketEffects.PacketMoves` | repo/judge/bridge/judge_handler.py:572-948 | what it leaves of the handler: each final packet asks for the release, batches are numbered, the usage moves on |
| `PacketEffects.CommitMoves` | repo/judge/bridge/judge_handler.py:963-975 | after the commit the handler is free if and only if the scheduler agreed and it was its own run that ended or went back |
| `PacketEffects.DisconnectWrites` | repo/judge/bridge/judge_handler.py:107-132 | a lost connection gives a preparing remote run back under the fresh token, and fails any other with IE |
| `PacketEffects.DispatchDecides` | repo/judge/bridge/judge_handler.py:361-452 | a dispatch succeeds, is put off, is refused or fails exactly under the guards, and fails the row only for invalid files |
| `PacketEffects.DispatchMoves` | repo/judge/bridge/judge_handler.py:388-452 | a dispatch that succeeds makes the row's run the handler's own; any other leaves it its work |
| `PacketEffects.WrongAcknowledgeWrites` | repo/judge/bridge/judge_handler.py:482-500 | a wrong acknowledgement fails the handler's own current run and a queued row it named, and nothing else |
| `PacketEffects.RequestStartsAfresh` | repo/judge/judgeapi.py:110-157 | a request is taken exactly for a finished row, a queued one without a run, a claimed one, and an aborted one only as a rejudge; nothing of the old run is left |
| `PacketEffects.PrepareDecides` | repo/judge/models/submission.py:289-331 | which rows the site may claim, put off or refuse, and what each leaves |
| `PacketEffects.StatusHasCause` | repo/judge/bridge/judge_handler.py:265-275 | a row with a token changes its status only by a step that stands for the new one: CE only by a compile error of its own run, D only by the end of grading with a score, AB only by a termination or the site |
| `PacketEffects.VerdictHasCause` | repo/judge/bridge/judge_handler.py:265-275 | over whole runs: the status a row has got since some moment was given to it by such a step, and has been there ever since |
| `GradingRuns.RunScoresItsOwnCases` | repo/judge/bridge/judge_handler.py:621-697 | from grading-begin to grading-end the row stores exactly the cases reported in between, each in its own batch, whatever was stored before and whatever batch state the handler was left with; it is scored on them, no other row changes, and the judge is freed |
| `GradingRuns.BeginChangesNothing` | repo/judge/bridge/judge_handler.py:621-634 | a grading-begin of a current run changes nothing if and only if the run's usage had begun, or there is no usage and nothing to reset |
| `GradingRuns.RepeatedBegin` | repo/judge/bridge/judge_handler.py:627-628 | so after the first begin of an acknowledged run, whatever other packets follow, a repeated one changes nothing |
| `GradingRuns.UnacknowledgedBeginForgets` | repo/judge/bridge/judge_handler.py:627-634 | without the acknowledgement a repeated begin loses the cases stored so far |
| `TieRanks.TieRanker` | repo/judge/ratings.py:23-40 | every member gets the middle of the places that its run of equal keys fills |
| `TieRanks.RanksAddUp` | repo/judge/ratings.py:23-40 | n ranks always add up to n(n+1)/2 |
| `TieRanks.RanksGrow` | repo/judge/ratings.py:23-40 | ranks never fall, and are equal exactly within a run of equal keys |
| `TieRanks.RankCountsBetters` | repo/judge/ratings.py:23-40 | on an ordered scoreboard a rank is the number strictly better plus half of (size of the tie group + 1) |
| `Solver.ObjectiveIncreases` | repo/judge/ratings.py:43-44 | a positive slope or at least one logistic term makes the objective strictly increasing |
| `Solver.Solve` | repo/judge/ratings.py:47-69 | the loop with its cached end values computes the bisection |
| `Solver.BisectAccurate` | repo/judge/ratings.py:47-69 | the result lies in the bracket, is an end when the root is outside, and is within 2 of a root inside |
| `Solver.BisectNear` | repo/judge/ratings.py:47-69 | with or without a root, no point of the bracket more than 2 away from the result is on the wrong side of the target |
| `Solver.BisectInBounds` | repo/judge/ratings.py:47-69 | the result lies in the bracket even when there is no exact root |
| `Solver.BisectMonotone` | repo/judge/ratings.py:47-69 | a larger target never gives a smaller result |
| `Variance.ModelIsSound` | repo/judge/ratings.py:14-17 | the source's constants satisfy what the recurrence needs |
| `Variance.VarianceTable.Get` | repo/judge/ratings.py:72-76 | whatever was asked before, the memoised answer is the recurrence's |
| `Variance.ClosedForm` | repo/judge/ratings.py:18 | VAR_LIM is the positive root of v^2 + cv = c BETA2, and the only one |
| `Variance.VarDecreases` | repo/judge/ratings.py:72-76 | every contest lowers the variance, and none takes it to the limit |
| `Variance.VarStrictlyDecreasing` | repo/judge/ratings.py:72-76 | the variance is strictly decreasing in the number of contests |
| `Variance.VarConverges` | repo/judge/ratings.py:72-76 | the excess over the limit vanishes at least as fast as 1/t |
| `Variance.DeductionShrinks` | repo/judge/ratings.py:135-137 | the deduction from a displayed rating is positive, shrinks with each contest, and vanishes at least as fast as 1/t |
| `Ratings.InitialDeviation` | repo/judge/ratings.py:17-18 | SD_INIT is the root of VAR_INIT, and the valid range is not empty |
| `Ratings.TargetFalls` | repo/judge/ratings.py:92-99 | a worse rank never has a larger target |
| `Ratings.Contest.SumTarget` | repo/judge/ratings.py:90-99 | the target of a player sums its wins and losses; ties count for neither |
| `Ratings.Contest.RootsFall` | repo/judge/ratings.py:102 | exact performances do not increase along the ranking |
| `Ratings.Contest.BracketIsSafe` | repo/judge/ratings.py:106 | a bracket made of approximate neighbours gives a result between them that is as near to its own target as they are to theirs |
| `Ratings.Contest.DivConq` | repo/judge/ratings.py:102-108 | fills all indices strictly between; performances do not increase, stay in the valid range, and none is more than 2 from its target |
| `Ratings.Contest.Performances` | repo/judge/ratings.py:113-117 | the same for every contest of two or more players, whether or not the exact performances exist or lie in the valid range |
| `Ratings.NearRoot` | repo/judge/ratings.py:47-69 | such a performance is within 2 of the exact one where that exists, or of the end of the valid range beyond which it lies |
| `Ratings.PriorWeightPositive` | repo/judge/ratings.py:118-131 | the weights of a history never use up the precision, so the prior's weight is positive |
| `Ratings.MeanTerms` | repo/judge/ratings.py:119-131 | the loop gives each performance the product of squared shares as its weight, and leaves exactly the prior's weight |
| `Ratings.NewMean` | repo/judge/ratings.py:118-133 | the new mean is within 2 of the range's point where the prior, drawing to the old mean, balances the newest performance and what the older ones pull beyond what they pulled at the old mean |
| `Ratings.MeanFollowsPerformance` | repo/judge/ratings.py:132-133 | the balance point of the new mean lies above, at or below the old mean exactly as the newest performance does |
| `Ratings.SurplusIsExcess` | repo/judge/ratings.py:43-99 | the objective less the target is, player by player, the expected result less the actual one |
| `Ratings.WeightsFall` | repo/judge/ratings.py:113-121 | the newest performance weighs 1, and each older one has the weight of the next newer times a squared share |
| `Ratings.PriorGetsTheRest` | repo/judge/ratings.py:122-123 | the prior's weight is what all performances together leave of the precision |
| `Ratings.Recalculate` | repo/judge/ratings.py:79-133 | performances do not increase along the ranking, each within 2 of where the expected result equals the actual one; each new mean is within 2 of the balance of the old mean and all performances; fewer than two players change nothing |
| `Resolver.RevealedIsNotFrozen` | repo/resources/resolver.js:32-44 | what has been revealed is never frozen, whatever it was |
| `Resolver.FrozenMeans` | repo/resources/resolver.js:32-44 | exactly the results that were not solved at the freeze, and were tried by the end, are frozen |
| `Resolver.MoveKeepsFalling` | repo/resources/resolver.js:193-200 | lifting a row that gained past every smaller score keeps the board sorted by score |
| `Resolver.Scoreboard.NumberRows` | repo/resources/resolver.js:136-140 | the sorted rows get their places as ranks |
| `Resolver.Scoreboard.Raise` | repo/resources/resolver.js:193-200 | the in-place loop is one move of the row, and ranks equal places afterwards |
| `Resolver.Scoreboard.RevealParts` | repo/resources/resolver.js:150-170 | reveals exactly the subtasks before the freeze that were not solved |
| `Resolver.Scoreboard.Unfreeze` | repo/resources/resolver.js:147-204 | one pass: exactly one frozen cell fewer and none more; the row gains what the result gained and climbs exactly past the rows of smaller score; the last operation carries its old and new place; the order by time among equals holds afterwards if and only if it holds between the row and the one above it |
| `Resolver.NeighboursInOrder` | repo/resources/resolver.js:127-134 | a board is in the order of score and then time if and only if every two neighbours are |
| `Resolver.TimeOrderLost` | repo/resources/resolver.js:193-200 | a run in which revealing leaves the order by time: a row that draws level stays below one that got there later |
| `Resolver.Scoreboard.ResolveFrozen` | repo/resources/resolver.js:142-207 | terminates; each result not solved at the freeze but tried by the end becomes its final points and verdict with nothing behind it, and so do its unsolved subtasks before the freeze; every other result is unchanged; every score grows by exactly the sum of the positive differences; rows are a permutation of those at the start, sorted by score, ranked by place |
| `Resolver.GainAfter` | repo/resources/resolver.js:185-192 | revealing a frozen result takes exactly its gain out of what is still to be gained |
| `Resolver.ResolvedFully` | repo/resources/resolver.js:189-192 | in the end exactly the results with an old verdict other than AC and a new one were replaced, by what was behind them |
| `Resolver.RevealKeepsDistance` | repo/resources/resolver.js:185-192 | the score keeps its distance from the displayed points, except that a result that got worse is not taken off |
| `Resolver.ReplayPermutes` | repo/resources/resolver.js:171-183 | a display that only replays the emitted (old_rank, new_rank) moves always shows the same rows; that its order is the board's is part of the board's invariant |
| `Resolver.Scoreboard.Operation` | repo/resources/resolver.js:282-345 | opening a subtask twice changes nothing; otherwise the row's score grows by exactly what its problem gained, no other row's results change, the board stays a board, and the order by score and then time is kept if it held |
| `Resolver.Scoreboard.OpenedKeepsTotal` | repo/resources/resolver.js:285-290 | the points of a problem stay in step with those of its subtasks; it is shown as solved exactly at its full points, and as failed exactly at none |
| `Resolver.FullPointsSolve` | repo/resources/resolver.js:62-71 | a problem whose subtasks all display their full points is shown as solved, and one that displays anything else is not |
| `Resolver.Scoreboard.StartCeremony` | repo/resources/resolver.js:208-219 | exactly the subtasks before the freeze count as opened when the ceremony starts, which establishes its invariant |
| `Resolver.Scoreboard.NextOperation` | repo/resources/resolver.js:249-280 | which click comes next, exactly: a pause after a row was shown, or the lowest row not shown yet if nothing of it is left to open, or the first subtask left of the lowest row with one; it does only that and one piece of the remaining work; the rows shown are always the lowest ones, in their final places |
| `Resolver.Scoreboard.OpenNext` | repo/resources/resolver.js:282-345 | opening any subtask still to be opened, in turn or by a click on its cell, keeps everything the ceremony has shown: no row already shown moves |
| `Resolver.Scoreboard.ClickWorks` | repo/resources/resolver.js:249-280 | each click leaves one piece of work less, and nothing is left to do exactly when there is no next click, so the ceremony ends |
| `Resolver.Scoreboard.CeremonyEnds` | repo/resources/resolver.js:222-280 | at the end the users have been shown in exactly the reverse of the final ranking, every subtask after the freeze displays its final points with AC exactly at full points and WA exactly at none, every score is the one at the start plus what the user's late subtasks had to gain, and equals stand by time if they did at the start |
| `Resolver.Scoreboard.OpenKeepsDue` | repo/resources/resolver.js:285-322 | opening a subtask moves exactly what it has to gain into the score |
| `Resolver.Scoreboard.ShowRank` | repo/resources/resolver.js:222-248 | shows the user of the lowest row not shown yet, exactly when all its subtasks are open; otherwise it changes nothing |
| `ContestSubmissions.BestBefore` | repo/judge/contest_format/icpc.py:64-69 | the best result before the freeze never exceeds the best of all, and is the same at the same time when that came before the freeze |
| `ContestSubmissions.UpToBefore` | repo/judge/contest_format/icpc.py:92 | what happened up to a moment before the freeze does not depend on what came after it |
| `Icpc.FrozenIsEarlyLive` | repo/judge/contest_format/icpc.py:80-125 | per problem, the one-pass frozen share equals the live share of the early submissions if and only if the best was first reached before the freeze or nothing was scored before it |
| `Icpc.FrozenColumnsAgree` | repo/judge/contest_format/icpc.py:136-142 | the three frozen columns equal the live columns of the early submissions if and only if no problem improved an early result late; the frozen score never exceeds that score |
| `Icpc.LateImprovementHides` | repo/judge/contest_format/icpc.py:80-125 | where the condition fails, the frozen share is nothing although the live share at the freeze was the best early result |
| `Icpc.LateImprovementCase` | repo/judge/contest_format/icpc.py:80-125 | an input where it fails: 30 points at 50 and 60 at 150 with the freeze at 100 give 0 against 30 |
| `Icpc.AllOrNothingColumns` | repo/judge/contest_format/icpc.py:76-142 | for all-or-nothing points they are always equal |
| `Icpc.UnfrozenColumns` | repo/judge/contest_format/icpc.py:80 | without a freeze both halves of the row are equal |
| `Icpc.FrozenCell` | repo/judge/contest_format/icpc.py:97-134 | which cells are marked frozen, and what they hide |
| `Icpc.Participation.UpdateParticipation` | repo/judge/contest_format/icpc.py:48-145 | in both halves: the score is the sum of the best points, the cumulative time the sum of the minutes to the first best result and a penalty for every counted try before it, the tiebreaker the last of those minutes; the frozen half takes only what was reached before the freeze |
| `ContestSubmissions.TriesIgnoreOrder` | repo/judge/contest_format/icpc.py:86-92 | the number of tries is a matter of which submissions there are, not of their order |
| `ContestSubmissions.OneMoreOutcome` | repo/judge/contest_format/icpc.py:86-92 | one more submission that does not reach the best result is one more try exactly if it is counted and was made no later than that result |
| `Icpc.FurtherTry` | repo/judge/contest_format/icpc.py:86-140 | on the stored numbers: such a try costs exactly the penalty in each half that its problem is earned in, and otherwise nothing; score and tiebreaker stay |
| `Icpc.CellShows` | repo/judge/contest_format/icpc.py:97-134 | what a cell shows: the time and points of the best result, the tries up to it, or all tries when nothing was scored |
| `Vnoj.CalculateParticipationInfo` | repo/judge/contest_format/vnoj.py:79-137 | the frozen pass computes exactly the live scoreboard of the submissions before the freeze; either is the sum of the points, of the seconds to the first best results (or only the last of them) and of the penalty minutes in seconds |
| `Vnoj.FrozenScoreIsLower` | repo/judge/contest_format/vnoj.py:148-150 | the frozen score never exceeds the score |
| `Vnoj.NothingLate` | repo/judge/contest_format/vnoj.py:79-137 | when nothing came after the freeze, the frozen pass sees the live scoreboard |
| `Vnoj.PendingIsTheRest` | repo/judge/contest_format/vnoj.py:125-128 | the pending tries are exactly those the frozen scoreboard does not count |
| `Vnoj.DataShows` | repo/judge/contest_format/vnoj.py:94-123 | a problem's data: time and points of the best result, and the wrong tries before it, or all tries when nothing was scored |
| `Vnoj.Participation.UpdateParticipation` | repo/judge/contest_format/vnoj.py:139-164 | live and frozen columns as those sums, and the merged data with the pending tries and zeros where the frozen pass has no row |
| `BatchResults.BestOf` | repo/judge/contest_format/batch_results.py:25-28 | the row of rank 1 of a problem and batch precedes every other |
| `BatchResults.BestIsUnique` | repo/judge/contest_format/batch_results.py:25-28 | there is only one such row |
| `BatchResults.BestEarnsMost` | repo/judge/contest_format/batch_results.py:25-28 | no other finished submission earned more on the batch, nor as much earlier, nor as much at the same time with a smaller number |
| `BatchResults.FullMarks` | repo/judge/contest_format/batch_results.py:31-37 | a submission that earned all its cases gets all points of the problem; where points are all or nothing, one that earned less gets none |
| `BatchResults.OrderDoesNotMatter` | repo/judge/contest_format/batch_results.py:21-62 | which rows are returned depends on the set of submissions only |
| `BatchResults.LatestIsNewest` | repo/judge/contest_format/batch_results.py:12-18 | of each problem the newest finished submission is left, and no other |
| `BatchResults.LatestRowsAgree` | repo/judge/contest_format/batch_results.py:12-18 | all rows of one problem come from that submission |
| `Ioi.ScoreIgnoresOrder` | repo/judge/contest_format/ioi.py:49-71 | the score does not depend on the order of the submissions |
| `Ioi.ScoreNeverDrops` | repo/judge/contest_format/ioi.py:49-71 | more submissions never lower the score |
| `Ioi.ScoreCoversEach` | repo/judge/contest_format/ioi.py:49-71 | the score is at least what any single finished submission earned on its visible batches |
| `Ioi.CollectedScore` | repo/judge/contest_format/ioi.py:57-68 | summing by problems is summing by rows |
| `Ioi.CollectedBoard` | repo/judge/contest_format/ioi.py:49-61 | the board holds for exactly the problems with a row what was earned on their visible batches and when the last of that was reached |
| `Ioi.Participation.UpdateParticipation` | repo/judge/contest_format/ioi.py:42-74 | the two loops compute the score; each problem's points and the moment its last visible batch was best; and the cumulative time, the sum of those moments over problems with points, never below zero |
| `ProblemLabels.GetLabelForProblem` | repo/judge/contest_format/icpc.py:235-241 | the loop writes the bijective base-26 number of index + 1 |
| `ProblemLabels.ReadWritten` | repo/judge/contest_format/icpc.py:235-241 | a label reads back as its number, so no two problems share one |
| `ProblemLabels.WriteRead` | repo/judge/contest_format/icpc.py:235-241 | every word over A-Z is the label of the number it reads as |
| `ProblemLabels.LabelOrder` | repo/judge/contest_format/icpc.py:235-241 | index order is label order by length, then alphabetically |
| `MessageQueue.Queue.Push` | repo/websocket/queue.js:75-85 | appends to the linked list |
| `MessageQueue.Queue.Pop` | repo/websocket/queue.js:89-97 | takes the first element off a non-empty list |
| `MessageQueue.Queue.Unshift` | repo/websocket/queue.js:103-110 | prepends to the linked list |
| `MessageQueue.Queue.ToArray` | repo/websocket/queue.js:63-69 | walking the list gives its contents |
| `MessageQueue.FromArray` | repo/websocket/queue.js:56-62 | a list built from an array has its contents |
| `MessageLog.LogNext` | repo/websocket/daemon.js:66-69 | one more message pushes out the oldest exactly when the log is full; numbers stay consecutive |
| `MessageLog.UnreadExactly` | repo/websocket/daemon.js:122-127 | what is to be sent from a position on is each message once, in order, exactly if the filter lets it through |
| `MessageLog.SentExactly` | repo/websocket/daemon.js:122-127 | since it last chose its channels, a connection was sent exactly the messages its filter lets through, each once and in order |
| `MessageLog.ReadRetained` | repo/websocket/daemon.js:43-49 | catching up finds exactly the retained messages above the cursor and moves it to the newest |
| `MessageLog.CatchUpOrder` | repo/websocket/daemon.js:43-49 | choosing channels again keeps everything sent once and in order if and only if no passing message at or below the last one sent is read again |
| `MessageLog.NothingRepeated` | repo/websocket/daemon.js:43-49 | a cursor at or above the last message sent repeats nothing |
| `MessageLog.LowCursorRepeats` | repo/websocket/daemon.js:43-49 | a cursor below it does: the failing input |
| `MessageLog.AnswerIsFirst` | repo/websocket/daemon.js:255-260 | a long-poll answer was asked for, nothing before it was, and there is none only if nothing was asked for |
| `Daemon.Daemon.MessagesPost` | repo/websocket/daemon.js:57-77 | the log holds the last min(n, maxQueue) messages with consecutive ids; every follower is sent the message exactly if its filter lets it through, and its cursor is at it; every waiting request that matches is answered with its first match and no longer waits |
| `Daemon.Daemon.SetFilter` | repo/websocket/daemon.js:91-119 | a connection is sent the retained messages above its cursor that its channels let through, exactly, and is in order afterwards if and only if it was before and nothing is repeated; an empty choice is refused |
| `Daemon.Daemon.StartMsg` | repo/websocket/daemon.js:85-87 | the cursor may be set to anything at any time; nothing is sent, and every promise to every connection stands |
| `Daemon.Daemon.FollowerMissesNothing` | repo/websocket/daemon.js:85-127 | every follower, whatever start_msg it sent, has got every message since it last chose its channels once, in order, exactly if its filter lets it through |
| `Daemon.Daemon.CursorKeepsOrder` | repo/websocket/daemon.js:85-127 | choosing channels again repeats nothing unless the cursor was set below the last message sent and nothing has been posted since |
| `Daemon.MessageSentTwice` | repo/websocket/daemon.js:85-119 | the run in which a message is sent twice: follow, receive, set the cursor back, choose the channel again |
| `Daemon.Daemon.LongPoll` | repo/websocket/daemon.js:246-268 | answered at once by the first retained match above `last`, or else left waiting |
| `Framing.PackThenUnpack` | repo/judge/bridge/base_handler.py:14-15 | the length prefix round-trips |
| `Framing.UnpackThenPack` | repo/judge/bridge/base_handler.py:14-15 | the most significant byte comes first, and every four bytes are the prefix of one length |
| `Framing.Socket.RecvExact` | repo/judge/judgeapi.py:19-27 | however the stream is cut, exactly the requested prefix, or failure when the stream is shorter |
| `Framing.ReadReply` | repo/judge/judgeapi.py:69-72 | a framed reply is read back exactly |
| `Framing.PacketHandler.ReadSizedPacket` | repo/judge/bridge/base_handler.py:73-93 | one packet of a given size: delivered, too large, cut off, or unreadable |
| `Framing.PacketHandler.Handle` | repo/judge/bridge/base_handler.py:151-176 | for any splitting of the stream, exactly the parsed packets are delivered, and the connection ends for the parsed reason |
| `Framing.ParseFrames` | repo/judge/bridge/base_handler.py:200-204 | packets that were sent come out again, all and in order, whatever cut-off tail follows |
| `Framing.ParseExplained` | repo/judge/bridge/base_handler.py:73-93 | nothing else comes out: the delivered packets are the whole frames at the front, and reading stops only where no readable packet begins |
| `Framing.PacketHandler.Send` | repo/judge/bridge/base_handler.py:200-204 | appends one frame |
| `TestcaseGroups.PlanIsExact` | repo/resources/testcase-groups.js:10-29 | a plan gives every group its exact share, at least one test each, and all tests in total; blank input gives no groups; which input each refusal answers |
| `TestcaseGroups.BlankPlan` | repo/resources/testcase-groups.js:11 | the plan is empty if and only if the input has only blanks |
| `TestcaseGroups.WordEnds` | repo/resources/testcase-groups.js:11-12 | a word ends at the first blank, or with the text |
| `TestcaseGroups.LineRead` | repo/resources/testcase-groups.js:11-12 | what is written in words with blanks between is read as these words |
| `TestcaseGroups.DecimalRead` | repo/resources/testcase-groups.js:13-18 | a written number is read as that number, with any zeros in front |
| `TestcaseGroups.SharesExact` | repo/resources/testcase-groups.js:20-25 | share by share: exact, or refused at the first share that is no whole number |
| `TestcaseGroups.RefusedAsNotDivisible` | repo/resources/testcase-groups.js:22-23 | refused as not divisible exactly when the input is valid and some share is no whole number |

## Left out

- Sockets, threads, timers, JSON, zlib and HTTP. Compression is any function with an inverse; each public method of
  `JudgeList`, and each packet under the problem's row lock, is one atomic step.
- The PROXY prologue of a proxied connection (`base_handler.py:95-171`); the framing theorems are about the plain path.
- What is only logged, posted as an event or counted: usage statistics except whether a run has begun, streaks,
  statistics, contest refreshes, ping and load.
- `Submission` fields that no guard reads (time, memory, result, language and so on), and how cases add up to points
  (`finalize_batch_results`, `scaled_score`): scoring is any function of the stored cases.
- JudgeScheduler.Judge.Submit: takes its outcome from a sequence that is given from outside, any sequence at all; which
  outcome the handler picks is `JudgeHandlers.JudgeHandler.Submit`. The two meet in the token: what the scheduler
  recorded is the expected token.
- JudgeScheduler.JudgeList.Register: requires that the judge is not working. A client that sends its handshake a second
  time while it works is served again by the source (`judge_handler.py:191-210`), which can leave two submissions
  assigned to it.
- Whether a problem's files are in place, and when the site looks again (`models/submission.py:225-288`): its
  preparations are steps that may happen at any time.
- The "no response" timer and the abort message: closing the connection is the disconnect step.
- The unlocked "not working" check before a problem list is updated (`judge_handler.py:615`) is a condition of
  `JudgeScheduler.JudgeList.UpdateProblems` inside the step.
- `abort_problem`, which is a loop of aborts over a database query, and disconnecting judges by name, which changes no
  scheduler state.
- Work conservation is about contest and default entries, since rejudges may be held back, and assumes that what a judge
  supports changes only by a new problem list.
- The random choice among judges of equal load: any judge of least load may be chosen.
- Floating point: ratings and batch points are real numbers, contest points and resolver points are integers of the
  configured precision. Rounding a rating to an integer is not modelled; the deduction before it is. `tanh` is any
  strictly increasing function, and TANH_C times a square root any function to positive numbers.
- The database and the queries over it: rows are maps, ranking queries are functions over sequences of submissions.
  `rate_contest` and the selection of users are not part of this model.
- Parsing `hidden_subtasks` strings (`ioi.py:21-36`): hidden batches are sets of numbers.
- The resolver's rows as they are first built from the contest's data (`resolver.js:72-121`), the library sort, and the
  copy `rank_frozen`; sorted rows of any contents are the starting point.
- MessageQueue.Queue.Pop: requires a non-empty queue; on an empty one the source decrements the length below zero.
- Malformed commands to the websocket daemon, its timeouts, and the per-request handling of errors.
- All HTML display methods, admin pages, forms, URLs, feeds and settings.
