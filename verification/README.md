# Verified model of the Go SDK's durable execution and connect worker

The SDK re-runs a workflow function from the top on every request. Step tools answer from the request's memo or
report an op and leave by a control panic; a connect worker receives such requests over a WebSocket and must not
lose a response, an owner of a connection, or a signing key on the way. This project models that logic in Dafny and
proves what holds over every program, every memo, every executor schedule and every interleaving of the worker's
goroutines. `dafny verify dfyconfig.toml` checks all of it.

## How it is laid out

- Replay engine. `Json`, `Errors`, `Decimal`, `StepKeys` (step keys before hashing), `Memo` (how each tool reads its
  memo), `Engine` (the invocation manager as a class, and as functions), `Workflow` (programs over the tools, one pass,
  `group.Parallel` as a loop), `PassShape` (what every pass keeps), `BranchEndings` (what
  `Parallel` makes of its branches, and how calls are numbered), `Response` (the reply on the three transports),
  `BodyOutcomes` and `BodyReports` (what becomes of a step body), `Direct` (the straight-through reference run),
  `Executor` (what the environments share), `SequentialReplay`, `Schedules`, `MemoOutcomes`, `PairedPasses` and
  `TargetedRequests` (a targeted pass beside an untargeted one), `StraightKeys`, `Settlement` (what settling one op
  comes to), `ParallelReplay` (one op settled per reply), `Frontier` (the calls that are open over a memo),
  `OpSchedules` (several ops of a reply settled, in any order, over older memos), `SharedIds`.
- Delivery. `MessageBuffer` (pending and buffered responses, `flush` with its nested loops), `WorkerPool`.
- Connection. `ConnectReports` (how failures become reports), `RunLoop` (the loop goroutine's variables, as a class and
  as functions), `Reconnection` (the loop composed with its connection goroutines), `ReconnectionSafety`,
  `ReconnectionProgress`.
- Signatures. `QueryText` (hex, decimal and query text with their readers), `Signature`.

A workflow is an inductive program: it returns, panics, calls a tool, or runs branches; what follows a call depends on
the call's result. Step bodies are an oracle over the call (id and position). The executor is the environment: it
serves requests, stores results under op IDs, wrapped as `{"data": ...}` or raw (as handler_test.go:457-464 does), stores
failures as `{"error": ...}`, and retries failing steps. A raw result must have no top-level `data` or `error` member;
`Memo.RawDataReadsBackIff` shows that this is exactly what reading it back takes.

## Where the code differs from its intent

- connect/connection.go:311-313 means to reconnect after EOF or a closed socket, but wraps the zero close error. The
  run loop finds a close error with an empty reason and stops (connect/handler.go:283-292). `RunLoop.LossRetriedIff` gives the
  exact set of lost connections that are replaced.
- A targeted request whose target is not among the open steps leaves no op behind and is reported as "done", exactly when
  an untargeted plan-first request over the same memo would only be told plans (`TargetedRequests.TargetedDoneIff`).
- A failing targeted body is reported as its step's failure exactly when the untargeted reply over the same memo lists no
  sleep, wait or invoke before the plan of that step; otherwise the whole function fails
  (`TargetedRequests.TargetedFailureReportedIff`).
- A targeted step's failure that is reported as such carries no retry hints, whatever its error says, when another
  branch panics: the panic is the invocation's error, and only the op is left of it
  (`BodyReports.StepFailureKeepsHints`).
- Streaming replies drop the retry hints of a failed step (`Response.StreamReply`).
- Validation normalises a key twice, signing once, so a key with two prefixes accepts its own signature only if the code
  does not tell the two remainders apart (`Signature.DoublePrefixAcceptedIff`, `Signature.RoundTripIff`).
- Branches of one `Parallel` may share a step id only as far as the earlier branch has counted it in every pass: of two
  sequential branches, the later one keeps its positions exactly when it calls no id that the earlier one calls after its
  first call (`SharedIds.LaterKeptIff`); otherwise ops can ask for calls that no straight run makes.
- Workers leave on cancellation without draining the queue. From any state `Wait` can still return exactly when a worker
  is left or nothing is in progress (`WorkerPool.WaitCanReturnIff`).

## Model

| member | source | states |
|---|---|---|
| StepKeys.KeyCollisions | internal/sdkrequest/manager.go:149-157 | two calls share a key exactly when they are the same call or one id spells out the other call's suffixed key |
| StepKeys.CollisionFreeIff | internal/sdkrequest/manager.go:149-157 | a set of ids never collides exactly when no id is another's id, colon and positive position |
| Memo.WrappedDataReadsBack | step/run.go:38-78 | a result stored as `{"data": ...}` reads back as that result, for every result type |
| Memo.WrappedErrorReadsBack | step/run.go:47-62 | a stored failure reads back as a StepError with its name, message and data; without decodable data it fails the invocation |
| Memo.RawDataReadsBackIff | step/run.go:43-77 | a result stored raw reads back as itself for every type exactly when it has no top-level data or error member |
| Memo.WaitReads | step/wait_for_event.go:57-67 | a null memo gives the zero value and "event not received"; any other gives its value, or fails the invocation if the type does not take it |
| Memo.SleepReads | step/sleep.go:21-24 | a memo of whatever content ends the sleep without an error |
| Memo.InvokeReadsData | step/invoke.go:54-60 | the last `data` member is the result, an `error` beside it or not |
| Memo.InvokeReadsError | step/invoke.go:64-74 | without `data`, the last `error` member gives the zero value and a non-retried error with its message; one that is not an object, or whose message is no text, fails the invocation |
| Memo.InvokeReadsFailure | step/invoke.go:64-74 | `{"error":{"message": m}}` gives the zero value and a non-retried error with message m |
| Memo.InvokeReadsNothingElse | step/invoke.go:49-77 | every other memo of an invoked function fails the invocation |
| Memo.RunReadsError | step/run.go:47-62 | an `error` member in any letter case gives a StepError with its name, message and data, and fails the invocation when one of them cannot be read |
| Memo.RunReadsData | step/run.go:67-78 | without it, the last `data` member in any letter case is the result |
| Memo.RunReadsBare | step/run.go:64-78 | without both, the memo itself is |
| Json.EntryIsLast | step/invoke.go:48-54 | a key of a decoded map comes from its last member |
| Json.FieldIsLast | step/run.go:23-26 | a struct field comes from the last member with its name in any letter case |
| Json.StringFieldReads | step/invoke.go:65-68 | a string field takes the last text given to it, and a value that is neither text nor null is an error |
| Engine.BodyIsReported | step/run.go:97-134 | what is left of a body by how it ends: result, failure, step error let through, value JSON cannot hold, panic; later tools stop in every case |
| Engine.SleepAsks | step/sleep.go:25-32 | the op of a sleep: its id, kind and name, and its duration |
| Engine.WaitAsks | step/wait_for_event.go:45-74 | the op of a wait: event and timeout, the condition only if there is one, its own name before the step id |
| Engine.InvokeAsks | step/invoke.go:34-43 | the op of an invocation: function, data and user, and the timeout only if there is one |
| Engine.Manager.constructor | internal/sdkrequest/manager.go:61-74 | a fresh manager: no positions, ops or error |
| Engine.Manager.NextOp | internal/sdkrequest/manager.go:119-139 | hands out 0 and then one more each time per id, changing nothing else |
| Engine.Manager.Append | internal/sdkrequest/manager.go:96-106 | adds one op at the end |
| Engine.Manager.RunStep | step/run.go:28-135 | the manager's whole new state and the ending of `Run`: cancelled, memo, other target, plan, body returned, failed or panicked |
| Engine.Manager.Delegate | step/sleep.go:18-34 | the same for Sleep, and for WaitForEvent and Invoke with their own ops and memos |
| Engine.Manager.UseMemo | step/invoke.go:46-78 | a readable memo is the tool's result, an unreadable one records the error and hijacks |
| Workflow.RunParallel | experimental/group/group.go:14-54 | branches run in order under their own recover; a panic beats a hijack beats the results, which come in branch order |
| Workflow.Perform | handler.go:1336-1356 | running a program against the manager is the pass function |
| Workflow.InvokeOnce | handler.go:1244-1377 | one invocation: response, ops, and the precedence panic, step error, returned error |
| BranchEndings.MemoReachesCode | step/run.go:38-78 | the code goes on with what a call's memo says; a memo that cannot be read ends the pass with its error |
| BranchEndings.ReturnIsHandedOn | handler.go:1335-1374 | the function's value and error, or its panic, are the invocation's |
| BranchEndings.ParallelEndsLike | experimental/group/group.go:14-54 | the last panic of a branch is the whole's; without one a hijacked branch hijacks it; otherwise the results reach the code in branch order |
| BranchEndings.ExecCounts | internal/sdkrequest/manager.go:119-139 | in every pass a call's position is the number of calls with its id before it |
| PassShape.ExecMoves | step/run.go:80-134 | over any program: a cancelled context freezes the manager, ops are new and unmemoized, at most one body runs and its op is last, an untargeted hijack leaves an op, an error or a cancelled context |
| PassShape.AtMostOneBody | step/run.go:84-134 | at most one body a pass, its op unique and last, only the target's body under a target, none when planning first |
| PassShape.NoBodyInsideParallel | experimental/group/group.go:18-42 | an untargeted pass runs no body inside Parallel |
| PassShape.OpsAreUnmemoized | step/run.go:35-38 | every returned op has an ID absent from the request's steps |
| PassShape.OpIdsDistinct | internal/sdkrequest/manager.go:96-139 | with collision-free ids the returned op IDs are pairwise distinct |
| Response.ClassifyTells | handler.go:919-974 | told from the error tree: not retried exactly if it holds a NoRetry error, or a StepError not reported by its op alone; the first RetryAt time, under every status; the body of an error, its prefix included |
| Response.HttpReply | handler.go:920-991 | status 500, 206 or 200 with body and retry headers is the common classification |
| Response.ConnectReply | connect/invoke.go:121-211 | the connect transport classifies exactly like HTTP |
| Response.StreamReply | handler.go:946-966 | streaming agrees with it exactly unless a reported step failure carries retry hints |
| Response.DoneIffReturned | handler.go:1358-1376 | an untargeted request is "done" exactly when the workflow function itself returned without error, with that value |
| BodyReports.ExecRecords | step/run.go:99-134 | whatever runs around it, a body's report is the pass's last op and a failure's error stays recorded |
| BodyReports.BrokenIsErrored | step/run.go:99-134 | a pass that ran a body which panics, returns what JSON cannot hold or lets a step error through is an error of the function |
| BodyReports.StepFailureReportedIff | handler.go:925-931 | the reply's side of it: a failing body is reported as its step's failure exactly when its op is the only one |
| BodyReports.StepFailureKeepsHints | handler.go:919-935 | a reported step failure carries the hints of the body's error, exactly unless another branch panicked |
| BodyReports.SleepHidesStepFailure | experimental/group/group.go:24-51 | a sleep planned in an earlier branch turns a targeted step's failure into the function's failure |
| TargetedRequests.TargetedFailureReportedIff | step/run.go:80-122 | a failing targeted body is reported as its step's failure exactly when the untargeted reply over the same memo lists no waiting op before that step's plan, otherwise as an error of the function |
| TargetedRequests.TargetedDoneIff | step/run.go:80-93 | over every program a targeted request is "done" exactly when the untargeted plan-first reply is done, then with the same reply, or, falsely and without a result, when that reply lists only plans and not the target |
| Direct.ExecFront | internal/sdkrequest/manager.go:119-139 | whatever the memo, a pass counts every id outside the late ones as the straight run does |
| Direct.ExecFollows | step/run.go:28-135 | one pass over a truthful memo against the straight run, for programs in which no branch uses an id an earlier one calls late: no foreign call or op, same value if it gets through, gets through if everything is memoized |
| SequentialReplay.ReplayRefinesStraightRun | step/run.go:33-134 | replaying from an empty memo answers exactly like the straight run, for every sequential program, oracle, retry limit and flag, with results stored wrapped, or raw when they cannot be misread, in a number of rounds given in closed form |
| SequentialReplay.RoundsWhenNothingFails | step/run.go:84-93 | that number is steps + 1, plus one per `Run` when the executor plans first |
| SequentialReplay.PositionsArePrefix | internal/sdkrequest/manager.go:119-139 | a larger memo only extends the calls handed out, so a step's key never changes between rounds |
| BodyOutcomes.BodyReadsBack | step/run.go:99-134 | what the executor stores for a body, wrapped or raw, reads back as what a straight-line caller gets |
| Schedules.CompletesOnce | step/run.go:38-78 | over any schedule no body completes twice and every completion is memoized |
| Schedules.StepGrows | internal/sdkrequest/manager.go:112-117 | no event overwrites or drops a memo entry |
| Schedules.DoneIsStraightResult | handler.go:1358-1376 | after any schedule, an untargeted "done" is the straight run's value in every world that gives what the memo holds, and there is one |
| Schedules.PassProgress | experimental/group/group.go:44-51 | a plan-first pass over an unfinished run ends with ops only, each for an open call of the straight run; over a finished one it returns |
| MemoOutcomes.MemoHoldsOutcomes | step/run.go:33-134 | over any mix of targeted, untargeted, failing and repeated requests, every memo entry belongs to a call of the straight run and holds an outcome that call produced |
| PairedPasses.ExecPaired | step/run.go:80-93 | an untargeted and a targeted pass over one memo: if the first plans the target, the second runs that very body and reports nothing else exactly when no waiting op precedes the plan; otherwise both end alike |
| StraightKeys.StraightKeysApart | internal/sdkrequest/manager.go:119-157 | with collision-free ids no two calls of a run share a key |
| Settlement.TargetedRequestSettlesIff | step/run.go:80-134 | a targeted request for a planned body runs it and settles it or ends with an error; when the workflow returns it settles it exactly when the body does not fail or no waiting op precedes its plan |
| Settlement.PassOffers | experimental/group/group.go:24-51 | an untargeted pass over an unfinished, returning run ends with ops, over a finished one with the results |
| Settlement.OpsOffer | experimental/group/group.go:24-51 | every op of a reply that is not an error is for an open call of the straight run: it asks for the call or reports what its body gave |
| Frontier.ReplyIsOpen | experimental/group/group.go:24-51 | an untargeted reply that runs no body lists the ops of exactly the open calls, in order: those the memo lets every branch reach but does not hold |
| ParallelReplay.ParallelRefinesStraightRun | experimental/group/group.go:14-54 | for a workflow whose straight run returns, whichever op is settled each round, the end is the straight run's answer, failed steps included, after settling each of its calls and running each of its bodies exactly once |
| ParallelReplay.ParallelEnds | experimental/group/group.go:14-54 | for every workflow, every body and every pick the rounds end with an error or the straight run's answer, with an error if the straight run fails |
| OpSchedules.BooksKept | step/run.go:38-78 | whatever ops of whatever replies are settled, in any order and over any memo between the reply's and the latest, the memo holds only calls of the straight run, each with its own outcome |
| OpSchedules.OfferStays | step/run.go:35-38 | an op once reported can be settled at any later time unless its call has been |
| OpSchedules.SchedulesRefineStraightRun | handler.go:1358-1376 | for a workflow whose straight run returns, over every such schedule each settling deed settles one more call of the straight run, and the next untargeted reply is its answer exactly when all are settled; until then it lists ops that can be settled |
| SharedIds.LaterKeptIff | internal/sdkrequest/manager.go:119-139 | of two sequential branches the later keeps its straight positions over every memo exactly when it calls no id the earlier one calls after its first call |
| SharedIds.FirstPassAsksForTheWrongCall | internal/sdkrequest/manager.go:119-139 | with an id called late and shared, the first pass asks for a call that no straight run makes |
| Errors.NodesAreTree | errors/errors.go:52-63 | the tree is the error and the trees of what it unwraps to |
| Errors.JoinedInOrder | errors/errors.go:83-89 | joined errors are searched in the order they were joined |
| Errors.HintsKeepMessage | errors/errors.go:47-107 | any number of NoRetry and RetryAt wrappers keep the message and the kind of an error |
| Errors.HintsForbidRetries | errors/errors.go:36-74 | one NoRetry among any number of wrappers forbids retries |
| Errors.HintsTimeRetries | errors/errors.go:76-107 | the outermost RetryAt among the wrappers gives the time |
| Errors.HintsKeepTime | errors/errors.go:36-63 | without a RetryAt wrapper the time is that of the error itself |
| Errors.FindIsFirstNode | errors/errors.go:32-89 | the walk of an error tree finds exactly its outermost, leftmost error of the kind |
| Errors.StepAndNoRetryInTree | errors/errors.go:32-45 | IsStepError and IsNoRetryError hold exactly when the tree contains such an error |
| Errors.RetryAtIsOutermost | errors/errors.go:83-89 | the retry time is that of the outermost, leftmost RetryAt error |
| Errors.NoRetryAtMeansNone | errors/errors.go:83-89 | no RetryAt error, no retry time |
| MessageBuffer.Buffer.constructor | connect/buffer.go:20-28 | an empty buffer |
| MessageBuffer.Buffer.HasMessages | connect/buffer.go:61-66 | whether anything is buffered |
| MessageBuffer.Buffer.Append | connect/buffer.go:68-76 | buffers a response and takes it off the pending ones |
| MessageBuffer.Buffer.AddPending | connect/buffer.go:78-82 | registers a response as pending |
| MessageBuffer.Buffer.TimerFires | connect/buffer.go:93-99 | moves a response that is still pending to the buffer, otherwise nothing |
| MessageBuffer.Buffer.Acknowledge | connect/buffer.go:104-109 | takes a response off the pending ones |
| MessageBuffer.Buffer.Deliver | connect/invoke.go:42-57 | a written response stays pending, a failed write leaves it buffered only |
| MessageBuffer.Buffer.Flush | connect/buffer.go:30-59 | success: every message sent once, at most four failed sends, nothing left; failure: exactly five failed sends and a rest; sent and left partition the buffer |
| MessageBuffer.Buffer.FlushPass | connect/buffer.go:40-49 | one range over the map sends until the first failure, and fails at most once |
| MessageBuffer.MoveMeans | connect/buffer.go:68-109 | which map has the response after each event, all other entries being unchanged |
| MessageBuffer.DecidedIsNotPending | connect/buffer.go:84-109 | once its timer has fired, its write has failed or it was acknowledged, a response is never pending again but buffered, acknowledged or accepted |
| MessageBuffer.AcknowledgedIsNotFlushed | connect/buffer.go:84-109 | a response acknowledged while pending, whose write did not fail, is never buffered or sent by a flush |
| MessageBuffer.HappenConserves | connect/buffer.go:68-109 | every event keeps each response pending, buffered, acknowledged or accepted, and the maps disjoint |
| MessageBuffer.NothingIsLost | connect/invoke.go:42-57 | so over every interleaving of registrations, timers, failed writes, acks and flushes |
| MessageBuffer.DisjointIffNotBuffered | connect/buffer.go:82 | registering keeps the maps disjoint exactly when the id is not buffered yet |
| WorkerPool.AlwaysAccounted | connect/worker_pool.go:22-59 | in progress = announced + blocked + queued + running; queue and running within the concurrency; taken in the order sent, none twice |
| WorkerPool.WaitMeansFinished | connect/worker_pool.go:53-59 | Wait can return exactly when every added message has finished |
| WorkerPool.AbandonedStays | connect/worker_pool.go:36-51 | once all workers have left, nothing finishes and the in-progress count never falls |
| WorkerPool.WaitCanReturnIff | connect/worker_pool.go:36-55 | from any accounted state some continuation lets `Wait` return exactly when a worker is left or nothing is in progress |
| WorkerPool.WorkersStay | connect/worker_pool.go:30-44 | until the context is cancelled, or while none has left, there are as many workers as the concurrency says |
| WorkerPool.EveryMessageCanFinish | connect/worker_pool.go:22-59 | until then every message ever added can still be finished |
| ConnectReports.WrappingKeepsCauses | connect/handshake.go:16-36 | any depth of `%w` and reconnect wrapping keeps the cause that is found |
| ConnectReports.PrepareSucceedsIff | connect/workerapi.go:47-84 | the start request succeeds exactly with status 200 and a readable body, the handshake exactly with both expected messages and a written one between |
| ConnectReports.PrepareReportsExactly | connect/connection.go:106-159 | every failure before the hand-over is reconnectable; "unauthenticated" is reported exactly on 401, "too many connections" exactly on 429 |
| ConnectReports.LossReportsExactly | connect/connection.go:299-322 | every lost connection is reported reconnectable with the reason by which it is judged |
| RunLoop.Runner.constructor | connect/handler.go:161-193 | the loop starts with the primary key, no attempts, and the signal unsent |
| RunLoop.Runner.Signal | connect/handler.go:210-213 | the signal is sent only the first time |
| RunLoop.Runner.OnConnected | connect/handler.go:208-216 | active, no attempts, caller told |
| RunLoop.Runner.OnDone | connect/handler.go:219-308 | what a report does: end or delay, key, state and signal |
| RunLoop.Runner.OnCancelledWhileWaiting | connect/handler.go:313-320 | cancellation while waiting tells the caller nil once |
| RunLoop.Runner.Proceed | connect/handler.go:326-345 | gives up at five attempts, otherwise counts one and launches with the current key |
| RunLoop.DelaysAre | connect/handler.go:470-480 | the delay after each number of attempts |
| RunLoop.FailedStartEndsLoopIff | connect/handler.go:233-271 | exactly which failures before the hand-over end the loop: 401 without another key, and 429 at the start |
| RunLoop.LossRetriedIff | connect/connection.go:301-322 | exactly which lost connections are replaced |
| RunLoop.EofEndsTheLoop | connect/connection.go:310-314 | plain EOF is reported for reconnection and still ends the loop |
| RunLoop.RefusedStart | connect/handler.go:246-271 | a 401 ends the loop exactly when no unused fallback key exists, and otherwise switches to it |
| ReconnectionSafety.OneReportOwner | connect/connection.go:272-297 | exactly one connection owes a report or the loop is between report and launch, across draining hand-overs; it carries the loop's key; after the end a report is owed exactly after a cancelled select |
| ReconnectionSafety.OneInitialSignal | connect/handler.go:208-231 | at most one initial signal, nil only after a connection or cancellation, and the send of lines 225-228 unreachable |
| ReconnectionSafety.KeyFallsBackOnce | connect/handler.go:246-271 | every launch uses the primary key before the first refusal and the fallback after it; a second refusal, or the first without fallback, ends the loop |
| ReconnectionSafety.BoundedReconnection | connect/handler.go:305-345 | between connected events at most five launches and six reports, delays strictly increasing table entries, never the capped one |
| ReconnectionProgress.FirstLaunch | connect/handler.go:323-345 | the first launch uses the primary key |
| ReconnectionProgress.TriesAgainIff | connect/handler.go:326-345 | after a wait the loop launches another connection with its key exactly if it has launched fewer than five since the last connected event, and otherwise ends |
| ReconnectionProgress.CanConnectIff | connect/handler.go:196-346 | from any state of an uncancelled worker a connected event can be reached exactly unless the loop has ended, all five launches failed, or a report that ends it is waiting |
| ReconnectionProgress.EndTellsCaller | connect/handler.go:218-333 | the caller of Connect has been told exactly once when the loop ends, unless it ends by seeing the cancellation in its select |
| ReconnectionProgress.FailureIsReported | connect/connection.go:106-322 | a failure before the hand-over, messages that cannot be flushed and a reading that ends are each reported for another connection |
| ReconnectionProgress.ShutdownIsReported | connect/connection.go:324-357 | a connection of a cancelled worker shuts down and reports that no other is wanted |
| ReconnectionSafety.BackoffRises | connect/handler.go:470-480 | the delays within the attempt limit are distinct rising table entries |
| ReconnectionSafety.StateIsShown | connect/handler.go:214-233 | State() is decided by the latest connected event or report |
| QueryText.AtoiReadsDecimal | signature.go:83-86 | a printed 64-bit timestamp reads back |
| QueryText.HexInjective | signature.go:50 | different codes print differently |
| QueryText.HexReadsBack | signature.go:50 | each byte is two lower-case digits, the high one first |
| QueryText.ParseTwoPairs | signature.go:79-82 | two plain fields of query text read back as written |
| Signature.NormalizeStripsPrefix | signature.go:172-174 | a key of the form signkey-word-rest normalises to rest |
| Signature.NormalizeLeavesOthers | signature.go:24 | exactly the keys not of that form are left alone |
| Signature.ExpiredIff | signature.go:87-90 | expired means more than five minutes old or so far ahead that the time wraps |
| Signature.SignatureText | signature.go:29-52 | a signature is its second in decimal and the code in hex over message and second, under the key without its prefix |
| Signature.SignsCanonicalForm | signature.go:32-38 | a JSON body is signed in its canonical form |
| Signature.SignsNothing | signature.go:32-38 | an empty body and one that is not JSON are signed as the empty message |
| Signature.SameFormSignsAlike | signature.go:29-101 | bodies with one canonical form have the same signatures and verdicts |
| Signature.RequestAcceptedIff | signature.go:76-101 | a request is accepted exactly with an unexpired time and the code over its canonical form and that time |
| Signature.VerdictOnFields | signature.go:79-98 | which of the three errors, or none, any two fields of plain text get |
| Signature.PrintInjective | signature.go:51 | a signature text determines its timestamp and code |
| Signature.AcceptedIff | signature.go:76-101 | exactly the text due for an unexpired timestamp is accepted |
| Signature.SignedIsAcceptedIff | signature.go:141-170 | a fresh signature is accepted under a key exactly when the two codes agree |
| Signature.RoundTripIff | signature.go:29-101 | a body's own signature is accepted when the key has no second prefix, and, where the code tells the two remainders apart, only then |
| Signature.DoublePrefixAcceptedIff | signature.go:76-98 | every key with two prefixes accepts its own signature exactly when the codes under the two remainders coincide |
| Signature.PrefixDoesNotMatter | signature.go:29-30 | the prefix of a key does not change its signatures |
| Signature.FallbackVerdict | signature.go:107-137 | accepted exactly when one of the keys validates; the key returned validates, the primary one first |
| Signature.SignerIsRecognisedIff | signature.go:107-137 | a fresh request is accepted exactly when its code agrees with that of the primary or a present fallback key |
| Signature.ExchangeSucceeds | signature.go:107-170 | request accepted under either key, and the response signed with the key found is accepted in turn |
| Signature.TrimmedIff | signature.go:144 | which received bodies are validated as the body that was signed |

## Left out

- ParallelRefinesStraightRun: the executor must be careful about bodies that fail (TargetedRequestSettlesIff is the exact condition of each round; without it ParallelEnds holds), and raw results must be readable as for RawDataReadsBackIff. One op per reply; SchedulesRefineStraightRun has several ops per reply and older memos.
- SchedulesRefineStraightRun: a body has one outcome, its final one; retried attempts are covered by MemoHoldsOutcomes and CompletesOnce. Deeds happen one after another, a deed being a whole request with its reply; two requests for one body at the same time are not modelled.
- ExecFollows: for nested or non-sequential branches the condition on shared ids is sufficient; it is shown exact for two sequential branches (LaterKeptIff).
- ReplayRefinesStraightRun: the executor stops at the first reply that is an error of the function; function-level retries are not modelled.
- MemoHoldsOutcomes: is stated for worlds that give what the final memo holds, since the straight run it compares with depends on the values stored; Remembered is one.
- AlwaysAccounted: the pool is a state machine over channel operations, not a class, because its state is shared by senders and workers.
- Flush: other goroutines wait for the buffer's lock while it runs, so their events come before or after it; the order of the range over the map is arbitrary.
- SHA-1: step keys are compared before hashing; hashed IDs behave alike if SHA-1 is injective on the keys in use.
- HMAC-SHA256 (section 2 of RFC 2104) and JSON canonicalisation (RFC 8785) are parameters; a body that does not canonicalise counts as empty, as in the code.
- Reflection and generic decoding: a result type is its zero value and a decoding function; step/infer.go is left out.
- Error texts are abbreviated; only their structure as trees of wrappers is kept.
- Step tools called inside step bodies, user code that recovers the control panic, and goroutines started by user code.
- The empty or `step` target id, which both transports turn into no target before the engine sees it.
- Wall-clock time in the worker: timers, heartbeats and timeouts are events that may happen at any moment.
- The flush before a reconnect (connect/handler.go:297-303) and after the loop (connect/handler.go:367-376): their result does not reach the loop's variables.
- The caller's side of `Connect` and `Close` beyond cancellation: a send on initialConnectionDone counts as received at once, so a send without receiver is not modelled.
- The ack frame decoder (connect/connection.go:360-369) fills the wrong message, so acknowledge gets an empty id; only the buffer's own operation is modelled.
- The pool's context and the worker pool's wait inside a graceful shutdown: shutdown may take any time.
- Network, WebSocket, protobuf and HTTP plumbing, registration and sync requests, inspection bodies, logging and environment lookups.
- Function lookup, registration order and configuration conversion (handler.go:299-340, connect.go:92-120): straight-line lookups.
- Query text: bytes above ASCII and the limit on the number of parameters in newer Go versions.
