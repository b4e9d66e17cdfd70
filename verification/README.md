# Verification of the MiniCronet client

This Dafny project models the parts of the repository where several threads, three languages and
two flow-control schemes meet, and proves what holds in every run.

One HTTP body crosses three layers: the C++ `Request` (a network runner, a callback runner and any
number of API threads around one atomic `read_state_`), the Rust `RequestShared` (a mutex-guarded
queue with a 1 MiB ceiling) and the Python `_AsyncState` (an event loop that polls in batches of
64). Around it stand the WebSocket pipeline, the ownership of engines across `fork()`, the engine
cache and the cookie policy that rests on it, and a few loops over bytes, headers and redirects.

Concurrency is modelled as steps. Each atomic operation, lock region, posted task and loop callback
is one step; an action fixes every choice the step leaves open; the network queue and the callback
queue are FIFO sequences; and `Reachable` means reachable by some run of actions. The step functions
are the specifications of the imperative code: every class (`Request`, `RequestShared`,
`AsyncState`, `WebSocket`, `WebSocketShared`, `Process`, `SessionCache`, ...) has a `View`, and its
methods are proved to do to the view exactly what the step function says. The table below names the
methods that loop, branch on shared state or return a decision; the handlers that only store fields
are proved against their step functions in the same way and have no row.

What the step functions themselves must do is said without them. Each machine keeps a history that no
step reads: what Chromium, the timer and the callers brought about (`reports`), what callers asked for
(`calls`), and what crossed each layer. The theorems compare the two ends: every callback is one
report word for word, every outcome has its cause, every call has its effect.

| file | models |
|---|---|
| `Prelude.dfy` | bytes, chunks, the longest prefix of chunks within a limit |
| `RequestQueue.dfy` | crates/minicronet/src/request.rs, the lock regions |
| `CoreRequest.dfy` | core/source/request.cc, tasks and compare-exchanges |
| `Pipeline.dfy` | both as one concurrent machine, with Chromium as environment |
| `PipelineTokens`, `PipelineTrace`, `PipelineFlow`, `PipelineData`, `PipelineHops`, `PipelineReports` | its invariants |
| `PipelineTheorems.dfy` | what follows for every reachable state |
| `RequestWait.dfy` | threads and tasks asleep on the Rust condition variable and wakers |
| `AsyncState.dfy` | `_AsyncState` and the two body readers of sessions.py |
| `PyRequest.dfy` | `PyRequest` of bindings/python/src/lib.rs |
| `Bridge.dfy`, `BridgeWake`, `BridgeData`, `BridgeHops`, `BridgeHeads`, `BridgeTheorems` | all three layers as one machine |
| `BridgeEndings.dfy`, `BridgeHeadError` | what each ending means, and the run on which the readers differ |
| `WebSocketCore`, `WebSocketSystem`, `WebSocketTheorems`, `WebSocketReports` | core/source/websocket.cc |
| `WebSocketQueue.dfy` | crates/minicronet/src/websocket.rs, the bounded queue |
| `ForkTree.dfy` | core/source/engine.cc over a tree of processes |
| `EngineCache.dfy`, `EngineLru` | bindings/python engine.py, least recently used |
| `CookiePolicy.dfy`, `CookieRuns` | the two-store cookie policy of sessions.py |
| `RedirectChain.dfy` | `Session.send` and the redirects driven from Python |
| `Rechunking.dfy` | `iter_content`, `RawStream.read`, `iter_lines` |
| `Lifetimes.dfy` | the reference counts of C handles and Rust callback state |
| `TrustAnchors.dfy` | the three parsers of the trust-anchor payload |

## Environment

Task runners are FIFO and run one task at a time. Chromium calls a delegate only while `request_`
or `channel_` is alive, hands over 1 to 32768 bytes per read, and reads WebSocket data only between
`ReadFrames` and the first data frame that is still pending. Rust callbacks do not panic (the
WebSocket queue covers panics too), the asyncio loop is open, `Start` has returned before other API
calls overlap it, and a thread that forks is not inside the functions of engine.cc. A request or a
WebSocket registers the callbacks the Rust crate registers; absent WebSocket callbacks are covered.

## What the proofs found

* The header contract at core/abi/minicronet.h:47-52 promises no order between `on_redirect` and
  `on_complete`. The code does order them: both are posted to the same sequenced runner, so nothing
  follows `on_complete` (`CallbackOrder`).
* A WebSocket send queue loses less than a subsequence claim suggests: what reaches the channel is a
  prefix of the accepted sends (`SendsThenClose`).
* The cookie line on the wire is not always the jar's, since the mirror the session consults can
  fall behind the Core's store: a WebSocket handshake is answered on the same store and absorbed
  nowhere (`WebSocketLeavesCookie`), and neither is a request that fails after its head or a followed
  redirect (`FailedSendLeavesCookie`), which is just what the retry loop repeats
  (`RetryAfterLostAnswer`). `PolicyExactly` says for every run which of mirror, store, jar and header
  decides. A caller can rely on the jar's line if no WebSocket was opened and no send failed after an
  answer on that engine configuration in its generation: then it goes out if and only if the jar has
  a line for the URL or the request brought no `Cookie` header (`PolicyHolds`), and a request with
  its own jar keeps it over all its retries (`RetriesCarry`). `prepare` gives every request a jar,
  but a `PreparedRequest` assembled by hand has none, uses the session's and keeps the header of its
  first attempt, so a retry can send a cookie the server has just deleted (`StaleHeaderOnRetry`).
* `iter_lines` depends on the chunk size. It agrees with splitting the whole body if and only if no
  block boundary falls inside a CR LF; otherwise each such boundary adds one empty line
  (`IterLinesExactly`); CR LF read byte by byte is the smallest case (`ChunkSizeShows`).
* `RawStream.read` with a negative amount does not read everything, as a file would: it pulls nothing
  and keeps the end of the buffer, so it returns all that is left if and only if nothing is
  (`RawStream.Read`).
* `Retain` stops at the top of its range, so a refused `mn_request_start` restores the count if and
  only if it was not saturated (`PublicHandle.Start`).
* core/source/engine.cc:361-366 expects no further use of a Runtime in an unusable process. That
  holds in every run in which nobody there calls `task_runner()` (`RuntimeStaysAbsent`).
  `task_runner()` itself has no such test: on an engine that crossed the fork it starts a new
  Runtime, so an idle unusable process can get one if and only if it holds an engine
  (`RebuildsIffItHoldsAnEngine`), and one that does is reachable (`UnusableWithRuntime`). Every wait
  still targets the waiting process's own thread.
* When a native error is recorded while a streaming caller still waits for the head, the call raises
  it and yields nothing, where the synchronous call would have returned a Response if there was one
  and then its chunks. So a Response is withheld if and only if there was a response, and chunks are
  lost with it if and only if a body had been delivered (`HeadErrorMatchesSyncIff`);
  `HeadErrorLosesBody` is a run on which one had.
* A clean end means a whole body and a whole redirect history in every read that follows redirects,
  and in every other read in which none was received (`CleanEndIsComplete`). If one was, the redirect
  is the response: its head and no body (`CleanEndOnHop`), which is what the synchronous path
  returns. With the endings above this leaves only a timeout and a cancel without a synchronous
  counterpart.

## Model

| member | source | states |
|---|---|---|
| Prelude.FittingPrefixIsMaximal | bindings/python/chrome_client/_python_impl/sessions.py:271-275 | the prefix of chunks a limit lets through is within the limit and no longer prefix is |
| RequestQueue.RequestShared.HandleBody | crates/minicronet/src/request.rs:639-667 | on_body appends the chunk and pauses exactly when the ceiling is reached before any terminal result |
| RequestQueue.RequestShared.Take | crates/minicronet/src/request.rs:541-555 | take_body: front chunk first, then the error once, then the end |
| RequestQueue.RequestShared.TryNext | crates/minicronet/src/request.rs:451-459 | one take, then at most one clear, and a resume exactly when the pause was cleared |
| RequestQueue.RequestShared.TryTakeResponse | crates/minicronet/src/request.rs:505-528 | the head or the failure is handed out once |
| RequestQueue.OnBodyValid | crates/minicronet/src/request.rs:646-652 | body_bytes stays the real size and a recorded pause means a full queue |
| RequestQueue.NextValid | crates/minicronet/src/request.rs:532-555 | a take removes exactly the front chunk; a resume is due exactly when a recorded pause meets a queue with room, and then the pause is gone |
| RequestQueue.StreamEnds | crates/minicronet/src/request.rs:541-555 | takes after the end hand out every queued chunk in order, then the error once if there is one, then the end as often as asked |
| CoreRequest.Request.UploadWrite | core/source/request.cc:152-167 | which chunks are accepted, and that an accepted one is posted |
| CoreRequest.Request.FollowRedirect | core/source/request.cc:169-178 | the deferred flag is consumed and a follow task posted only for a live deferred hop |
| CoreRequest.Request.DoResumeRead | core/source/request.cc:466-497 | the whole retry loop among other threads' stores, posts and spurious failures takes exactly the machine's steps |
| CoreRequest.ResumeUndisturbed | core/source/request.cc:466-497 | left alone, a pause ends with one ReadMore and otherwise the resume is recorded |
| CoreRequest.PauseAndResumeCommute | core/source/request.cc:455-497 | pause and resume in either order leave reading on with exactly one ReadMore |
| PipelineTokens.TokenStep | core/source/request.cc:360-497 | every step of every thread keeps the single read token |
| PipelineTrace.ScanIffOrderly | core/abi/minicronet.h:47-52 | the order automaton accepts exactly the traces that keep the promises about positions |
| PipelineTrace.TraceStep | core/source/request.cc:310-448 | every step keeps the order of the callbacks received and queued |
| PipelineFlow.FlowStep | crates/minicronet/src/request.rs:532-555 | every step keeps the accounting of pauses, clears and resumes and the queue's ceiling |
| PipelineData.ConserveStep | crates/minicronet/src/request.rs:541-555 | every step keeps taken, queued and posted chunks equal, in order, to the delivered ones |
| PipelineData.UploadStep | core/source/request.cc:152-167 | every step keeps accepted uploads in order on their way to the writer |
| PipelineData.HopStep | core/source/request.cc:304-330 | every step keeps at most one follower for at most one deferred hop |
| PipelineReports.ReportStep | core/source/request.cc:304-448 | every step keeps the callbacks one for one, in order and word for word, what URLRequest, the timer and the callers brought about |
| PipelineReports.CallStep | core/source/request.cc:125-178 | every step keeps a cancel, a follow, a deadline and a start done or on their way until the request is over |
| PipelineTheorems.InvStep | core/source/request.cc:125-525 | all invariants together survive every step of every thread |
| PipelineTheorems.NoStrandedPause | core/source/request.cc:455-497 | in every reachable state a paused Core has a full queue with the pause on record, or a consumer on its way to resume it |
| PipelineTheorems.ResumeLands | core/source/request.cc:466-497 | from any step of ResumeRead a resumer left alone ends a pause with one ReadMore |
| PipelineTheorems.QueueBound | crates/minicronet/src/request.rs:646-652 | the queue never exceeds the ceiling plus one read buffer, plus one per resume from outside the stream |
| PipelineTheorems.OneReadToken | core/source/request.cc:360-497 | exactly one party can cause the next read between response and completion, and URLRequest is never misused |
| PipelineTheorems.CallbackOrder | core/abi/minicronet.h:47-52 | every trace has at most one on_complete, last, on_response before every on_body and before success |
| PipelineTheorems.CallbacksAreReports | core/source/request.cc:317-448 | each callback carries exactly the redirect, head, chunk or ending it reports, none is invented and none missing |
| PipelineTheorems.CompletionHasItsCause | core/source/request.cc:408-418 | on_complete reports success if and only if URLRequest reported the end of the body, and a failure code if and only if something failed with it |
| PipelineTheorems.TerminalHasItsCause | core/source/request.cc:499-525 | the terminal result on record is that of the one thing that ended the request, the last report |
| PipelineTheorems.HeadConserved | crates/minicronet/src/request.rs:505-528 | the head in the queue and the one a take hands out are the one URLRequest reported |
| PipelineTheorems.FailureHasItsCode | crates/minicronet/src/request.rs:521-524 | a failure handed out for the head or the body has the code of what ended the request |
| PipelineTheorems.CallsTakeEffect | core/source/request.cc:142-150 | until the request is over a cancel that passed its check is on its way, a deadline has its timer, and in error mode a redirect is about to fail it |
| PipelineTheorems.EndsTheRequest | core/source/request.cc:310-315 | the cancel task and the timer end the request with CANCELED and TIMEOUT |
| PipelineTheorems.FollowsTakeEffect | core/source/request.cc:169-178 | a follow is accepted exactly while a deferred redirect is unclaimed, and every accepted one is carried out, queued or about to be |
| PipelineTheorems.UploadsAreAccepted | core/source/request.cc:152-167 | a chunk is accepted exactly for a started, unfinished chunked request without a final chunk yet, unless it is empty and not final |
| RequestWait.NobodySleepsOver | crates/minicronet/src/request.rs:408-420 | nobody sleeps on the condition variable over something to take; once a terminal result is recorded every wait returns, after success with a head |
| RequestWait.SleepersStep | crates/minicronet/src/request.rs:172-180 | every lock region that gives a waiter something to take notifies it |
| PipelineTheorems.BodyConserved | crates/minicronet/src/request.rs:541-555 | taken, queued and posted bytes are the delivered bytes in order |
| PipelineTheorems.TerminalIsLast | core/source/request.cc:499-525 | nothing is queued behind a recorded terminal result |
| PipelineTheorems.FailureHasNoBody | core/source/request.cc:360-366 | a request that fails before its response never had a body |
| PipelineTheorems.EndMeansAll | crates/minicronet/src/request.rs:546-553 | a consumer that sees the end has taken everything delivered |
| PipelineTheorems.UploadsInOrder | core/source/request.cc:152-167 | the writer has a prefix of the accepted chunks, all of them once the tasks drained, none after the final one |
| PipelineTheorems.HopsFollowedOnce | core/source/request.cc:304-330 | each deferred hop is followed at most once |
| AsyncState.SyncBodyReader.ReadAll | bindings/python/chrome_client/_python_impl/sessions.py:261-276 | the maximal prefix of chunks within the limit, then ResponseTooLarge exactly if something was cut, else the terminal result |
| AsyncState.AsyncState.Process | bindings/python/chrome_client/_python_impl/sessions.py:411-429 | one batch applied event by event, and a re-arm exactly for a full batch of an open state |
| AsyncState.AsyncState.Next | bindings/python/chrome_client/_python_impl/sessions.py:318-345 | one pull of the asynchronous reader up to its next suspension |
| PyRequest.Request.DoPollOne | bindings/python/src/lib.rs:575-665 | hop, then head, then body, and what each leaves behind |
| PyRequest.Request.PollEvents | bindings/python/src/lib.rs:555-571 | polls until nothing, a terminal event or the limit |
| PyRequest.OnePollIs | bindings/python/src/lib.rs:575-665 | the machine's three lock regions together are poll_one |
| PyRequest.PollRunIsPollEvents | bindings/python/src/lib.rs:555-571 | without interference the machine polls the same events, queue, handle and resumes as poll_events |
| BridgeWake.WakeStep | bindings/python/src/lib.rs:499-571 | every step of the callback runner, the loop and the coroutine keeps the wakeup invariant |
| BridgeWake.SleepStep | bindings/python/chrome_client/_python_impl/sessions.py:522-524 | every step keeps a sleeping coroutine without anything to return |
| BridgeData.EndStep | bindings/python/src/lib.rs:610-665 | the terminal event leaves an empty queue for good and carries the Core's outcome |
| BridgeHeads.HeadsStep | bindings/python/chrome_client/_python_impl/sessions.py:415-419 | every step keeps the head in the batch or the state the reported one, and a body or a clean end behind it |
| BridgeData.BatchOk | bindings/python/chrome_client/_python_impl/sessions.py:411-426 | a whole batch appends exactly its bodies, up to the limit |
| BridgeTheorems.InvStep | bindings/python/chrome_client/_python_impl/sessions.py:399-546 | all invariants of the three layers survive every step |
| BridgeTheorems.NoLostWakeup | bindings/python/src/lib.rs:503-515 | an unpolled event has a notify queued, a hook still to run, or a full buffer that will reschedule |
| BridgeTheorems.ThrottleEnds | bindings/python/chrome_client/_python_impl/sessions.py:403-405 | while throttled there is a chunk to pull, and the pull that makes room queues a notify |
| BridgeTheorems.SleeperHasNothing | bindings/python/chrome_client/_python_impl/sessions.py:522-524 | a coroutine asleep on a clear event has no chunk, no error and no end |
| BridgeTheorems.FutureSleeperHasNothing | bindings/python/chrome_client/_python_impl/sessions.py:497-499 | an unresolved future means the request is not over |
| BridgeTheorems.PythonBufferBound | bindings/python/chrome_client/_python_impl/sessions.py:403-407 | buffered stays below its limit plus one batch of maximal chunks and is the real size |
| BridgeTheorems.ClosedLetsGo | bindings/python/chrome_client/_python_impl/sessions.py:526-546 | a finished state has no chunk, no timer and no event callback left, however it ended |
| BridgeTheorems.DeadlineFires | bindings/python/chrome_client/_python_impl/sessions.py:503-505 | until the request is done its deadline runs; when it fires it records the timeout, drops the event callback and settles or wakes the caller |
| BridgeTheorems.TimeoutIsRaised | bindings/python/chrome_client/_python_impl/sessions.py:503-505 | the waiting coroutine then raises it |
| BridgeTheorems.AwaitedErrorIsRaised | bindings/python/chrome_client/_python_impl/sessions.py:1573-1580 | an error recorded while the head is awaited is raised there, unless it is the body's size, which waits for the reader |
| BridgeEndings.EndToEnd | bindings/python/chrome_client/_python_impl/sessions.py:447-458 | processed, polled, queued and posted chunks are in order what URLRequest delivered, and what the caller got or will get is the part of the processed ones the limit lets through, streamed or not |
| PipelineHops.AnswerStep | core/source/request.cc:304-366 | every step keeps the reported response and redirects those Chromium reported, and no deferred redirect open after the response |
| PipelineTheorems.UnfollowedHop | core/source/request.cc:304-330 | a deferred redirect nobody follows is all the server answers |
| BridgeHops.HopsStep | bindings/python/src/lib.rs:575-608 | every step keeps processed, polled and queued redirects equal, in order, to those received |
| BridgeEndings.HopsEndToEnd | bindings/python/chrome_client/_python_impl/sessions.py:460-464 | the hops of the state are the received redirects the loop processed, in order |
| BridgeEndings.ReturnedHead | bindings/python/chrome_client/_python_impl/sessions.py:415-419 | a Response the caller was given has the status and headers URLRequest reported |
| BridgeEndings.CleanEndIsComplete | bindings/python/chrome_client/_python_impl/sessions.py:318-334 | a clean end means that URLRequest reported the end of the body; it returned the whole body, as the synchronous reader would, the reported head and the whole history, if redirects are followed or none was received |
| BridgeEndings.CleanEndOnHop | bindings/python/chrome_client/_python_impl/sessions.py:460-479 | a clean end on a redirect that is not followed has its status and headers and no body |
| BridgeEndings.TooLargeMatchesSync | bindings/python/chrome_client/_python_impl/sessions.py:448-452 | ResponseTooLarge comes exactly where the synchronous path raises it, after the same prefix, whatever would still have come |
| BridgeEndings.ErrorMatchesSync | bindings/python/chrome_client/_python_impl/sessions.py:328-331 | a native error of the reader, or of a call for the whole response, has its cause and comes after a whole body within the limit, as on the synchronous path |
| BridgeEndings.HeadErrorMatchesSyncIff | bindings/python/chrome_client/_python_impl/sessions.py:1566-1573 | a native error raised while the head is awaited withholds a Response the synchronous call returns if and only if there was a response, and its chunks and error agree if and only if no body had been delivered |
| BridgeHeadError.HeadErrorLosesBody | bindings/python/chrome_client/_python_impl/sessions.py:1566-1573 | a reachable state in which it does not: one chunk delivered, none yielded |
| WebSocketCore.WebSocket.Close | core/source/websocket.cc:226-236 | accepted once, and closing from then on |
| WebSocketCore.WebSocket.DoTerminate | core/source/websocket.cc:431-499 | the first end wins: all flags, one terminal callback |
| WebSocketCore.WebSocket.DoOnRead | core/source/websocket.cc:125-127 | all frames of a read are delivered and reading goes on only if none is pending |
| WebSocketCore.WebSocket.DoResumeReading | core/source/websocket.cc:402-410 | reading resumes exactly when the last pending frame is done |
| WebSocketTheorems.FlowStep | core/source/websocket.cc:338-410 | every step keeps pending_data_ equal to the data not yet resumed, and one reason to read |
| WebSocketTheorems.TraceStep | core/source/websocket.cc:412-499 | every step keeps the callback order and the single end |
| WebSocketTheorems.WireStep | core/source/websocket.cc:290-310 | every step keeps the wire a prefix of the accepted sends |
| WebSocketTheorems.ReadingNeverStops | core/source/websocket.cc:338-410 | pending_data_ never underflows, an open socket has exactly one reason to read on, ReadFrames never overlaps |
| WebSocketTheorems.EndsOnce | core/source/websocket.cc:412-499 | exactly one terminal callback, last, and on_open first |
| WebSocketTheorems.SendsThenClose | core/source/websocket.cc:212-310 | frames out are a prefix of the accepted sends, then at most one close, at most one Close succeeds |
| WebSocketReports.ReportStep | core/source/websocket.cc:338-499 | every step keeps the callbacks one for one what the channel, the timer and the callers brought about |
| WebSocketReports.CallStep | core/source/websocket.cc:212-263 | every step keeps a cancel, a deadline and a close done or on their way until the socket has ended |
| WebSocketReports.CallbacksAreReports | core/source/websocket.cc:373-499 | every message callback has the kind, payload and final flag of its frame, in order, and the terminal one what the cause of the end reported |
| WebSocketReports.CallsTakeEffect | core/source/websocket.cc:212-248 | sends are refused only before the socket is open and after someone closed it; a cancel and a close that were accepted are on their way, and the close goes out with what the caller gave it |
| WebSocketReports.EndsTheSocket | core/source/websocket.cc:283-340 | the cancel task and the timer end the socket with the failure of each |
| WebSocketReports.SendsAreMessages | core/source/websocket.cc:212-224 | no continuation frame is ever sent |
| WebSocketQueue.WebSocketShared.DoPush | crates/minicronet/src/websocket.rs:119-156 | an event is queued and counted, or everything is replaced by one failure |
| WebSocketQueue.WebSocketShared.TryNext | crates/minicronet/src/websocket.rs:367-374 | events come out in order and are uncounted |
| WebSocketQueue.Bounded | crates/minicronet/src/websocket.rs:124-146 | before the end the count is exact, both limits hold and nothing is lost |
| WebSocketQueue.KeptIffRoom | crates/minicronet/src/websocket.rs:119-156 | an event is kept, behind those offered and not yet taken, if and only if fewer than 1024 wait and their payload bytes with its own fit into 4 MiB; otherwise one failure replaces all |
| WebSocketQueue.PanicEnds | crates/minicronet/src/websocket.rs:169-190 | a callback panic ends an open queue behind what waits in it |
| WebSocketQueue.FailsClosed | crates/minicronet/src/websocket.rs:119-156 | the stream is a prefix of the offered events, or one followed by one synthetic failure; at most one terminal event, last |
| WebSocketQueue.Exhausted | crates/minicronet/src/websocket.rs:380-397 | after the last event None for ever, whatever is pushed |
| ForkTree.Process.GetRuntime | core/source/engine.cc:307-315 | one Runtime per process, built once |
| ForkTree.Process.DoForkChild | core/source/engine.cc:356-370 | new generation, unusable exactly if there was a Runtime or it was before, no Runtime, mutex free |
| ForkTree.Process.Create | core/source/engine.cc:390-418 | null in an unusable process, else an engine with the current generation that waits on this process's Runtime |
| ForkTree.Process.Destroy | core/source/engine.cc:440-467 | returns at once without a context or with a stale generation, shuts down in place on the network thread, and else waits on this process's Runtime |
| ForkTree.InvStep | core/source/engine.cc:307-485 | every step of every thread in every process keeps all of it |
| ForkTree.WaitsAreLocal | core/source/engine.cc:440-485 | every task and every wait targets a network thread started in the same process, so every wait can end |
| ForkTree.StampTellsHome | core/source/engine.cc:440-452 | an engine's generation is the current one exactly in the process that created it, and stale exactly where the process is already marked unusable |
| ForkTree.MutexIsFreed | core/source/engine.cc:345-370 | the mutex is free in the child at once and in the parent after the handler, and a locked one always has a holder that can free it |
| ForkTree.UnusableIffTainted | core/source/engine.cc:356-370 | unusable exactly if the process or an ancestor was forked from one with a Runtime |
| ForkTree.TaintedForGood | core/source/engine.cc:400-402 | in such a process Create returns null for good and no engine is ever created |
| ForkTree.UntaintedCreates | core/source/engine.cc:400-406 | in any other process Create is not refused for a fork |
| ForkTree.CreateCompletes | core/source/engine.cc:390-418 | a whole Create in such a process is never stuck, starts the Runtime if there is none, waits for this process's thread, and adds one engine of the current generation |
| ForkTree.DestroyCompletes | core/source/engine.cc:440-467 | a whole destruction removes exactly that engine: on this process's thread if it was created here, else at once and without touching anything |
| ForkTree.OneRuntime | core/source/engine.cc:307-315 | a process constructs at most one Runtime, and has one exactly if it did |
| ForkTree.RuntimeStaysAbsent | core/source/engine.cc:356-366 | an unusable process gets no Runtime in any run in which nobody there calls task_runner |
| ForkTree.InheritedEngineRebuildsRuntime | core/source/engine.cc:420-422 | task_runner on an inherited engine starts a Runtime in an unusable process |
| ForkTree.RebuildsIffItHoldsAnEngine | core/source/engine.cc:420-422 | an idle unusable process can ever get a Runtime if and only if it holds an engine |
| ForkTree.ForkWithEngine | core/source/engine.cc:356-370 | such a process is reachable: create an engine and fork |
| ForkTree.UnusableWithRuntime | core/source/engine.cc:420-422 | so is an unusable process that has a Runtime |
| EngineCache.SessionCache.Lookup | bindings/python/chrome_client/_python_impl/engine.py:146-162 | get: closed, hit, failed build and miss with eviction, after the fork reset |
| EngineCache.SessionCache.EvictOldest | bindings/python/chrome_client/_python_impl/engine.py:159-161 | the eviction loop removes oldest first down to the limit |
| EngineCache.OperationsKeepValid | bindings/python/chrome_client/_python_impl/engine.py:138-178 | every operation keeps order free of duplicates, with the keys of slots, within the limit, distinct slots |
| EngineLru.RefinesLru | bindings/python/chrome_client/_python_impl/engine.py:138-178 | after any calls on a new cache, in any processes, a configuration is cached exactly if it was used, has not been taken away or left behind by a fork since, and never had max live others used after it; the order is by last use |
| EngineLru.GetsAnswer | bindings/python/chrome_client/_python_impl/engine.py:146-162 | every get returns what the calls before it say: the slot last built for a live configuration, else a new slot or the failed build, and closed exactly after a close |
| EngineLru.CachedIffRecent | bindings/python/chrome_client/_python_impl/engine.py:146-162 | after gets in one process, exactly if fewer than max distinct others were used since |
| EngineLru.SameSlot | bindings/python/chrome_client/_python_impl/engine.py:146-167 | two gets in one process, forked or not, with fewer than max distinct others between return the same slot, whatever else is discarded |
| CookiePolicy.CookieSession.ResolveCookies | bindings/python/chrome_client/_python_impl/sessions.py:837-854 | which slot is used and which header the request gets |
| CookiePolicy.FreshGeneration | bindings/python/chrome_client/_python_impl/engine.py:61-64 | a bumped generation always yields an unused slot with an empty mirror and store |
| CookieRuns.SendOnceWire | bindings/python/chrome_client/_python_impl/sessions.py:1217-1230 | the line one attempt puts on the wire, for any mirror and store |
| CookieRuns.PolicyExactly | bindings/python/chrome_client/_python_impl/sessions.py:837-873 | after any run of sends (absorbed, failed before or after an answer), WebSockets, edits and closes, when exactly the wire carries the jar's line |
| CookieRuns.PolicyHolds | bindings/python/chrome_client/_python_impl/sessions.py:837-854 | on an engine configuration that saw no WebSocket and no send failing after an answer, exactly if the jar has a line or the request no header |
| CookieRuns.NothingLost | bindings/python/chrome_client/_python_impl/sessions.py:856-871 | a run without such operations meets that condition for every configuration |
| CookieRuns.RequestCarriesItsJar | bindings/python/chrome_client/_python_impl/sessions.py:837-854 | the jar in question is the request's own, else the session's as the last edit or absorbed response left it |
| CookieRuns.LeavesIff | bindings/python/chrome_client/_python_impl/sessions.py:1217-1230 | a request leaves unless the session was closed, the Core refused its engine, or refused the new one it needs |
| CookieRuns.AttemptLeaves | bindings/python/chrome_client/_python_impl/sessions.py:844-854 | the engine is replaced, by a new one of the next generation, exactly if its store would override the jar's line |
| CookieRuns.WebSocketLeavesCookie | bindings/python/chrome_client/_python_impl/sessions.py:1038-1061 | a cookie a handshake set is sent by a request whose jar does not have it |
| CookieRuns.FailedSendLeavesCookie | bindings/python/chrome_client/_python_impl/sessions.py:1255-1277 | so is one set by an answer whose request failed before it was absorbed |
| CookieRuns.RetriesCarryIff | bindings/python/chrome_client/_python_impl/sessions.py:1176-1191 | a request with its own jar carries its line on every attempt exactly if store and mirror are in step at each |
| CookieRuns.RetriesCarry | bindings/python/chrome_client/_python_impl/sessions.py:1176-1191 | which they are if nothing was lost before and no attempt fails after an answer |
| CookieRuns.RetryAfterLostAnswer | bindings/python/chrome_client/_python_impl/sessions.py:1183-1186 | the retry of an attempt that failed past its head sends the cookie that head set |
| CookieRuns.StaleHeaderOnRetry | bindings/python/chrome_client/_python_impl/sessions.py:837-843 | for every URL and line, a request on the session's jar resends a deleted cookie on a retry |
| RedirectChain.FollowInPython | bindings/python/chrome_client/_python_impl/sessions.py:1201-1215 | the history is the followed redirects in order, at most the limit, each hop obeying the reply before it |
| RedirectChain.ChainFollows | bindings/python/chrome_client/_python_impl/sessions.py:1090-1101 | each hop requests exactly the Location of the reply before it, the history has the URLs requested, and what the policy does not name stays |
| RedirectChain.ChainStops | bindings/python/chrome_client/_python_impl/sessions.py:1201-1215 | a chain delivers the first reply that does not redirect, refuses one that does exactly at the limit, and raises a failed transfer |
| RedirectChain.Send | bindings/python/chrome_client/_python_impl/sessions.py:1174-1193 | at most retry.count + 1 + max_redirects transfers; a transfer is repeated exactly if it failed, other than for its size, or was answered with a status to retry, and retries are left |
| RedirectChain.AuthorizationStaysHome | bindings/python/chrome_client/_python_impl/sessions.py:1085-1088 | hop k carries Authorization exactly while no hop has left the first host |
| RedirectChain.HopBody | bindings/python/chrome_client/_python_impl/sessions.py:1090-1101 | body and content headers go together, exactly for GET and HEAD; the cookie header always goes |
| RedirectChain.SafeStaysSafe | bindings/python/chrome_client/_python_impl/sessions.py:1075-1099 | once GET or HEAD the method never changes and no body comes back |
| RedirectChain.PreservingChain | bindings/python/chrome_client/_python_impl/sessions.py:1075-1099 | 307 and 308 repeat any other method with its body |
| RedirectChain.MethodOfHop | bindings/python/chrome_client/_python_impl/sessions.py:1075-1083 | the exact method of every hop |
| Rechunking.StreamChunks | bindings/python/chrome_client/_python_impl/models.py:646-659 | for any reader chunking the blocks of the whole body; after a failure only full blocks |
| Rechunking.SliceContent | bindings/python/chrome_client/_python_impl/models.py:633-641 | the same blocks for a body in memory |
| Rechunking.IterContent | bindings/python/chrome_client/_python_impl/models.py:628-641 | which chunk sizes are refused, the default, and the same blocks streamed or not |
| Rechunking.BlocksMeaning | bindings/python/chrome_client/_python_impl/models.py:646-659 | blocks concatenate to the body, all but the last exactly full, none empty |
| Rechunking.BlocksUnique | bindings/python/chrome_client/_python_impl/models.py:651-659 | full blocks and a shorter rest are the blocks, so the chunking of the reader does not matter |
| Rechunking.RawStream.Read | bindings/python/chrome_client/_python_impl/models.py:387-401 | a read takes min(n, remaining) bytes off the front; what a negative amount does |
| Rechunking.RawStream.ReadAll | bindings/python/chrome_client/_python_impl/models.py:388-394 | read(None) returns the rest and closes |
| Rechunking.ReadsAreSlices | bindings/python/chrome_client/_python_impl/models.py:387-401 | successive reads are consecutive slices |
| Rechunking.IterLines | bindings/python/chrome_client/_python_impl/models.py:673-688 | the loop yields the specified lines |
| Rechunking.FeedMeaning | bindings/python/chrome_client/_python_impl/models.py:681-685 | no line contains a break, and an unfinished line is exactly the end of a text that does not end in one |
| Rechunking.FeedWeaves | bindings/python/chrome_client/_python_impl/models.py:681-685 | the lines with the LF, CR or CR LF behind each and the unfinished one are the text |
| Rechunking.WeaveFeeds | bindings/python/chrome_client/_python_impl/models.py:681-685 | and there is no other way to cut it into lines without breaks |
| Rechunking.CutIs | bindings/python/chrome_client/_python_impl/models.py:681-685 | the test on the last byte finds exactly the unfinished line |
| Rechunking.IterLinesExactly | bindings/python/chrome_client/_python_impl/models.py:673-688 | the lines of the whole body plus one empty line per CR LF a block boundary splits; equal exactly if none is |
| Rechunking.ChunkSizeShows | bindings/python/chrome_client/_python_impl/models.py:673-688 | one CR LF read byte by byte yields two empty lines, not one |
| Rechunking.LinesWithoutCr | bindings/python/chrome_client/_python_impl/models.py:673-688 | a body without CR yields its LF-separated lines for every chunk size |
| Lifetimes.PublicHandle.Retain | core/source/minicronet.cc:129-135 | one more, except at the top of the range |
| Lifetimes.PublicHandle.Start | core/source/minicronet.cc:437-447 | a refused start restores the count exactly if it was not saturated |
| Lifetimes.FreedExactlyOnce | crates/minicronet/src/request.rs:220-318 | over create failure, refused start, drop and completion: no callback or release on freed state, no double free, everything freed in the end |
| Lifetimes.DropsAreFirst | crates/minicronet/src/request.rs:610-616 | whoever gives the callback state's count back is the first to do so, so the state is still there to be read |
| Lifetimes.StartRefBalanced | core/source/request.cc:508-524 | the reference of a start is given back once, by the refusal or after the last callback |
| TrustAnchors.Tiles | tools/generate-profile-table.py:354-363 | the check accepts exactly the payloads tiled by their prefixes |
| TrustAnchors.TiledIffEncoding | tools/generate-profile-table.py:354-363 | those are exactly the encodings of ID lists |
| TrustAnchors.SplitIds | core/source/profile_ssl_config_service.cc:48-61 | the set of IDs, or nothing for a malformed payload |
| TrustAnchors.ClearedIffMalformed | core/source/profile_ssl_config_service.cc:52-57 | a payload is cleared exactly if the generator rejects it |
| TrustAnchors.DecodeTrustAnchors | tools/inspect-client-hello.py:89-102 | the IDs before the first malformed one |
| TrustAnchors.InnerIds | tools/inspect-client-hello.py:89-102 | the length is in network order, what follows it is ignored, a short body is read as far as it goes: the IDs are those before the first malformed one, all of them for an encoding |
| TrustAnchors.EncodeIds | tools/inspect-client-hello.py:94-102 | re-prefixing the split IDs in order gives the payload back, all of it exactly if it was tiled |
| TrustAnchors.IdsOfEncoded | core/source/profile_ssl_config_service.cc:48-61 | splitting an encoded list gives the list |

## Left out

- PipelineTheorems.QueueBound: sizes are unbounded integers; `saturating_add` on `usize` would differ only above 2^64 - 1 queued bytes.
- AsyncState.AsyncState.DoFinish: one flag records a cancel and a mere detach alike, since either drops the event callback.
- PyRequest.Request.PollEvents: a lock poisoned by a panic is not modelled, so polling does not fail.
- ForkTree.StampTellsHome: the generation is unbounded; `sig_atomic_t` would wrap after 2^31 nested forks.
- BridgeEndings.EndToEnd: the cancel that `_AsyncState` issues is modelled as a cancel some API thread may issue at any time, not as the same call.
- Lifetimes.FreedExactlyOnce: one wrapper with its clones, as the Rust crate uses the C functions; other C callers' own retains are covered by `PublicHandle` only.
- RedirectChain.Send: adapters other than the built-in one, hooks, `raise_for_status` and the delays between attempts are not modelled; a streamed body is a value here, while the real generator is empty when sent again.
- CookieRuns.PolicyExactly: runs with `discard_cookies`, which deliberately do not mirror the store, and jars whose line changes with time alone; a server's answer changes the store and, when absorbed, the mirror in one and the same way.
- BridgeEndings.CleanEndOnHop: a reader that does not follow redirects is paired with a Core that does not either, as `request` in lib.rs pairs them, and nobody else calls `follow_redirect` on it.
- The Cookie line of a WebSocket handshake itself, which is the session jar's unless the store has one.
- Rechunking.IterLinesExactly: decoding to text (which knows more line breaks) and an explicit delimiter.
- `Request` objects created through C without on_response, on_body or on_redirect, where reading goes on without the callback runner.
- Request authentication and certificate callbacks, load flags, priorities, header and URL validation, and the mapping of error codes.
- RequestWait.NobodySleepsOver: one waiter for the head and one for the body, as the crate hands out; timed waits and the Python `wait_manual` and `wait_redirect` polls are not modelled.
- `_AsyncState.drain_chunks`, which has no caller, and Rust callback panics of a request, after which on_complete overwrites the terminal result.
- The asynchronous engine of WebSockets in lib.rs, which repeats the request bridge on the bounded queue.
- Chromium itself: sockets, caches, cookie parsing and matching, TLS; the Python 3.6 binding, profile data and build tools.
