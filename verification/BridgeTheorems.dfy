/**
 * What holds in every reachable state of the three layers together: no lost
 * wakeup, bounded buffering, nothing lost or reordered end to end, and the
 * asynchronous reader agreeing with the synchronous one.
 */
module BridgeTheorems {
  import opened Prelude
  import opened RequestQueue
  import opened CoreRequest
  import opened Pipeline
  import opened PipelineFlow
  import PipelineTheorems
  import opened AsyncState
  import opened Bridge
  import opened BridgeWake
  import opened BridgeData
  import opened BridgeHops
  import opened BridgeHeads

  predicate ReadingOk(py: Py, processed: seq<Chunk>, yielded: seq<Chunk>, read: nat, c: Consumer,
                      whole: bool) {
    && PyOk(py, processed, yielded, whole)
    && read == Total(yielded)
    && (py.timer.Yes? ==> py.done.No?)
    && (c.AwaitingHead? || c.SleepingHead? ==> |yielded| == 0)
  }

  /** An outcome the _AsyncState recorded is the one poll_events ended with. */
  predicate CauseOk(py: Py, ended: Option<Outcome>, poll: PollPc, whole: bool) {
    && (Settled(py, whole) ==> ended.Some? && !EndsBatch(PollEvents(poll)))
    && (py.error.Some? && py.error.value.Native? ==> ended == Some(Failed(py.error.value.code)))
    && (whole && py.done.Yes? && py.error.None? ==> ended == Some(Finished))
    && (whole && !py.config.stream && py.future.Resolved? ==> ended == Some(Finished))
  }

  predicate ReaderOk(b: B) {
    && ReadingOk(b.py, b.processed, b.yielded, b.read, b.consumer, Whole(b.py, b.hops))
    && CauseOk(b.py, b.ended, b.poll, Whole(b.py, b.hops))
  }

  /** What each way to end says about the chunks processed so far. */
  predicate OutcomeOk(b: B) {
    var limit := b.py.config.limit;
    b.py.timer.No? &&
    match b.consumer
    case Over(CleanEnd) =>
      && (Whole(b.py, b.hops) ==> b.ended == Some(Finished) && Fits(b.processed, limit))
      && (if b.py.config.stream then b.yielded == FittingPrefix(b.processed, limit)
          else b.py.body == Flatten(FittingPrefix(b.processed, limit)))
    case Over(Raised(TooLarge)) =>
      && !Fits(b.processed, limit)
      && (b.py.config.stream ==> b.yielded == FittingPrefix(b.processed, limit))
    case Over(Raised(Native(code))) =>
      && b.ended == Some(Failed(code)) && Fits(b.processed, limit)
      && (b.py.config.stream ==> b.yielded == b.processed)
    case HeadRaised(error) =>
      && error != TooLarge && |b.yielded| == 0
      && (error.Native? ==> b.ended == Some(Failed(error.code)) && Fits(b.processed, limit))
    case _ => true
  }

  predicate ReaderInv(b: B) {
    if b.py.closed.No? then ReaderOk(b) else OutcomeOk(b)
  }

  predicate BufferInv(b: B) {
    b.py.config.stream ==>
      && b.py.buffered <= STREAM_BUFFER_LIMIT - 1 + ASYNC_POLL_BATCH * READ_BUFFER_SIZE
      && (!b.poll.NotPolling? ==> b.py.buffered < STREAM_BUFFER_LIMIT)
  }

  // ---- the consuming coroutine --------------------------------------------------------------

  /** A pull moves the front chunk; the reader's own limit test never fires. */
  lemma PullOk(py: Py, processed: seq<Chunk>, yielded: seq<Chunk>, whole: bool)
    requires PyOk(py, processed, yielded, whole) && py.config.stream && py.closed.No?
    ensures var (next, pull) := NextChunk(py, Total(yielded));
      && (pull.Yield? ==>
            && next.closed.No? && py.chunks != [] && pull.chunk == py.chunks[0]
            && PyOk(next, processed, yielded + [pull.chunk], whole)
            && Total(yielded) + |pull.chunk| == Total(yielded + [pull.chunk]))
      && (pull.Raise? ==> |py.chunks| == 0 && py.error == Some(pull.error))
      && (pull.Stop? ==> |py.chunks| == 0 && py.error.None? && py.done.Yes?)
  {
    if py.chunks != [] {
      var chunk, rest := py.chunks[0], py.chunks[1..];
      var limit, whole := py.config.limit, FittingPrefix(processed, py.config.limit);
      assert whole == (yielded + [chunk]) + rest;
      TotalAppend(yielded, [chunk]);
      TotalOne(chunk);
      TotalAppend(yielded + [chunk], rest);
      FittingPrefixIsMaximal(processed, limit, 0);
    }
  }

  lemma ReaderYields(b: B)
    requires BridgeInv(b) && SleepInv(b) && ReaderInv(b) && BEnabled(b, ConsumerStep)
    requires (b.consumer.AwaitingChunk? || b.consumer.SleepingChunk?) && b.py.chunks != []
    ensures ReaderInv(RunChunkConsumer(b))
  {
    PullOk(b.py, b.processed, b.yielded, Whole(b.py, b.hops));
  }

  lemma ReaderChunk(b: B)
    requires BridgeInv(b) && SleepInv(b) && ReaderInv(b) && BEnabled(b, ConsumerStep)
    requires b.consumer.AwaitingChunk? || b.consumer.SleepingChunk?
    ensures ReaderInv(RunChunkConsumer(b))
  {
    if b.py.chunks != [] {
      ReaderYields(b);
    } else {
      assert b.yielded + [] == b.yielded;
    }
  }

  lemma ReaderStreamHead(b: B)
    requires BridgeInv(b) && SleepInv(b) && ReaderInv(b) && BEnabled(b, ConsumerStep)
    requires (b.consumer.AwaitingHead? || b.consumer.SleepingHead?) && b.py.config.stream
    ensures ReaderInv(RunHeadConsumer(b))
  {
  }

  lemma ReaderHead(b: B)
    requires BridgeInv(b) && SleepInv(b) && ReaderInv(b) && BEnabled(b, ConsumerStep)
    requires b.consumer.AwaitingHead? || b.consumer.SleepingHead?
    ensures ReaderInv(RunHeadConsumer(b))
  {
    if b.py.config.stream { ReaderStreamHead(b); }
  }

  // ---- the loop -------------------------------------------------------------------------

  /** After a batch, what it recorded has its cause in the batch or before it. */
  lemma CauseBatch(py: Py, ended: Option<Outcome>, poll: PollPc, whole: bool)
    requires poll.PollEnd? && py.closed.No? && LastOnly(poll.events)
    requires CauseOk(py, ended, poll, whole) && (whole ==> Whole(py, EventHops(poll.events)))
    requires var e := poll.events;
      EndsBatch(e) ==>
        && (e[|e| - 1].DoneEvent? ==> ended == Some(Finished))
        && (e[|e| - 1].ErrorEvent? ==> ended == Some(Failed(e[|e| - 1].code)))
    ensures CauseOk(ApplyAll(py, poll.events), ended, NotPolling, whole)
  {
    var e := poll.events;
    ApplyAllFacts(py, e);
    KeepsError(py, e);
    ErrorCause(py, e);
    if whole {
      DoneCause(py, e);
      if !py.config.stream { ResolveCause(py, e); }
    }
  }

  lemma ReadingBatch(py: Py, processed: seq<Chunk>, yielded: seq<Chunk>, read: nat, c: Consumer,
                     events: seq<Event>, whole: bool)
    requires ReadingOk(py, processed, yielded, read, c, whole) && DoneOk(py) && py.closed.No?
    requires LastOnly(events) && (Settled(py, whole) ==> |EventBodies(events)| == 0)
    requires whole ==> Whole(py, EventHops(events))
    ensures ReadingOk(ApplyAll(py, events), processed + EventBodies(events), yielded, read, c, whole)
  {
    BatchOk(py, processed, yielded, events, whole);
    TimerCause(py, events);
  }

  lemma ReaderBatch(b: B)
    requires BridgeInv(b) && SleepInv(b) && BatchInv(b) && ReaderInv(b) && b.poll.PollEnd?
    ensures var e := b.poll.events;
      var py, whole := ApplyAll(b.py, e), Whole(b.py, b.hops + EventHops(e));
      && py.closed.No? && py.config == b.py.config
      && ReadingOk(py, b.processed + EventBodies(e), b.yielded, b.read, b.consumer, whole)
      && CauseOk(py, b.ended, NotPolling, whole)
  {
    var e := b.poll.events;
    var whole := Whole(b.py, b.hops + EventHops(e));
    ApplyAllFacts(b.py, e);
    ReadingBatch(b.py, b.processed, b.yielded, b.read, b.consumer, e, whole);
    CauseBatch(b.py, b.ended, b.poll, whole);
  }

  lemma ReaderProcess(b: B)
    requires BridgeInv(b) && SleepInv(b) && BatchInv(b) && ReaderInv(b) && b.poll.PollEnd?
    ensures ReaderInv(RunProcess(b))
  {
    var e := b.poll.events;
    var py := ApplyAll(b.py, e);
    ReaderBatch(b);
    ReaderScheduling(py, py.notifies + 1, b.processed + EventBodies(e), b.yielded, b.read,
                     b.consumer, b.ended, NotPolling, Whole(b.py, b.hops + EventHops(e)));
  }

  /** A poll step neither changes a recorded end nor adds a second one. */
  lemma PollKeepsEnd(b: B, next: B)
    requires BridgeInv(b)
    requires (b.poll.AtHop? && next == RunPollHop(b)) || (b.poll.AtHead? && next == RunPollHead(b))
             || (b.poll.AtBody? && next == RunPollBody(b))
    ensures b.ended.Some? ==> next.ended == b.ended
    ensures b.ended.Some? && EndsBatch(PollEvents(next.poll)) ==> EndsBatch(PollEvents(b.poll))
  {
  }

  lemma CauseKept(py: Py, ended: Option<Outcome>, poll: PollPc, ended': Option<Outcome>, poll': PollPc,
                  whole: bool)
    requires CauseOk(py, ended, poll, whole)
    requires ended.Some? ==> ended' == ended
    requires ended.Some? && EndsBatch(PollEvents(poll')) ==> EndsBatch(PollEvents(poll))
    ensures CauseOk(py, ended', poll', whole)
  {
  }

  /** A poll step changes nothing the coroutine reads but the recorded end. */
  lemma ReaderKept(b: B, next: B)
    requires ReaderInv(b) && b.py.closed.No?
    requires next.py == b.py && next.processed == b.processed && next.yielded == b.yielded
    requires next.read == b.read && next.consumer == b.consumer && next.hops == b.hops
    requires b.ended.Some? ==> next.ended == b.ended
    requires b.ended.Some? && EndsBatch(PollEvents(next.poll)) ==> EndsBatch(PollEvents(b.poll))
    ensures ReaderInv(next)
  {
    CauseKept(b.py, b.ended, b.poll, next.ended, next.poll, Whole(b.py, b.hops));
  }

  lemma ReaderPollHop(b: B)
    requires BridgeInv(b) && ReaderInv(b) && b.poll.AtHop?
    ensures ReaderInv(RunPollHop(b))
  {
    PollKeepsEnd(b, RunPollHop(b));
    ReaderKept(b, RunPollHop(b));
  }

  lemma ReaderPollHead(b: B)
    requires BridgeInv(b) && ReaderInv(b) && b.poll.AtHead?
    ensures ReaderInv(RunPollHead(b))
  {
    PollKeepsEnd(b, RunPollHead(b));
    ReaderKept(b, RunPollHead(b));
  }

  lemma ReaderPollBody(b: B)
    requires BridgeInv(b) && ReaderInv(b) && b.poll.AtBody?
    ensures ReaderInv(RunPollBody(b))
  {
    PollKeepsEnd(b, RunPollBody(b));
    ReaderKept(b, RunPollBody(b));
  }

  lemma ReaderNotify(b: B)
    requires ReaderInv(b) && BEnabled(b, NotifyRun)
    ensures ReaderInv(RunNotify(b))
  {
  }

  /** The fields only the loop's scheduling reads do not matter here. */
  lemma ReaderScheduling(py: Py, n: nat, processed: seq<Chunk>, yielded: seq<Chunk>, read: nat,
                         c: Consumer, ended: Option<Outcome>, poll: PollPc, whole: bool)
    requires ReadingOk(py, processed, yielded, read, c, whole) && CauseOk(py, ended, poll, whole)
    ensures ReadingOk(py.(notifies := n), processed, yielded, read, c, whole)
    ensures CauseOk(py.(notifies := n), ended, poll, whole)
  {
  }

  /** The last step of the hook posts a notify. */
  lemma ReaderHookWon(b: B)
    requires ReaderInv(b) && b.p.cbPc.InHook? && b.hook.HookWon?
    ensures ReaderInv(RunHook(b))
  {
    if b.py.closed.No? {
      ReaderScheduling(b.py, b.py.notifies + 1, b.processed, b.yielded, b.read, b.consumer,
                       b.ended, b.poll, Whole(b.py, b.hops));
    }
  }

  lemma ReaderHookEarlier(b: B)
    requires ReaderInv(b) && b.p.cbPc.InHook? && !b.hook.HookWon?
    ensures ReaderInv(RunHook(b))
  {
    assert RunHook(b).py == b.py;
  }

  lemma ReaderTimer(b: B)
    requires HandleInv(b) && SleepInv(b) && ReaderInv(b) && BEnabled(b, TimerExpires)
    ensures ReaderInv(BStep(b, TimerExpires))
  {
  }

  lemma ReaderStep(b: B, a: BAction)
    requires BridgeInv(b) && SleepInv(b) && BatchInv(b) && ReaderInv(b) && BEnabled(b, a)
    ensures ReaderInv(BStep(b, a))
  {
    match a
    case CoreStep(_) =>
    case HookClone => ReaderHookEarlier(b);
    case HookSwap => ReaderHookEarlier(b);
    case HookPost => ReaderHookWon(b);
    case NotifyRun => ReaderNotify(b);
    case PollHop => ReaderPollHop(b);
    case PollHead => ReaderPollHead(b);
    case PollBody => ReaderPollBody(b);
    case ProcessBatch => ReaderProcess(b);
    case ConsumerStep =>
      if b.consumer.AwaitingHead? || b.consumer.SleepingHead? { ReaderHead(b); }
      else { ReaderChunk(b); }
    case ConsumerAbandon =>
    case TimerExpires => ReaderTimer(b);
  }

  // ---- bounded buffering ------------------------------------------------------------------

  lemma {:induction false} BodiesBounded(events: seq<Event>)
    requires ChunksOk(EventBodies(events))
    ensures Total(EventBodies(events)) <= |events| * READ_BUFFER_SIZE
  {
    if events != [] {
      var first := if events[0].BodyEvent? then [events[0].chunk] else [];
      var rest := EventBodies(events[1..]);
      assert EventBodies(events) == first + rest;
      assert forall i :: 0 <= i < |rest| ==> rest[i] == EventBodies(events)[|first| + i];
      BodiesBounded(events[1..]);
      TotalAppend(first, rest);
      if events[0].BodyEvent? {
        assert EventBodies(events)[0] == events[0].chunk;
        TotalOne(events[0].chunk);
      }
    }
  }

  lemma ChunksSuffix(taken: seq<Chunk>, processed: seq<Chunk>, bodies: seq<Chunk>)
    requires taken == processed + bodies && ChunksOk(taken)
    ensures ChunksOk(bodies)
  {
    assert forall i :: 0 <= i < |bodies| ==> bodies[i] == taken[|processed| + i];
  }

  lemma BatchSize(b: B)
    requires Reachable(b.p) && BatchInv(b) && b.poll.PollEnd?
    ensures Total(EventBodies(b.poll.events)) <= ASYNC_POLL_BATCH * READ_BUFFER_SIZE
  {
    PipelineTheorems.TakenChunks(b.p);
    ChunksSuffix(b.p.h.taken, b.processed, EventBodies(b.poll.events));
    BodiesBounded(b.poll.events);
  }

  lemma BufferProcess(b: B)
    requires Reachable(b.p) && BatchInv(b) && BufferInv(b) && b.poll.PollEnd? && b.py.closed.No?
    ensures BufferInv(RunProcess(b))
  {
    BatchSize(b);
    ApplyAllFacts(b.py, b.poll.events);
    BatchBuffered(b.py, b.poll.events);
  }

  lemma BufferHook(b: B)
    requires BufferInv(b) && b.p.cbPc.InHook?
    ensures BufferInv(RunHook(b))
  {
  }

  lemma BufferConsumer(b: B)
    requires BufferInv(b) && BEnabled(b, ConsumerStep)
    ensures BufferInv(RunConsumer(b))
  {
  }

  lemma BufferStep(b: B, a: BAction)
    requires Reachable(b.p) && BridgeInv(b) && SleepInv(b) && BatchInv(b) && BufferInv(b)
    requires BEnabled(b, a)
    ensures BufferInv(BStep(b, a))
  {
    match a
    case CoreStep(_) =>
    case HookClone => BufferHook(b);
    case HookSwap => BufferHook(b);
    case HookPost => BufferHook(b);
    case NotifyRun =>
    case ProcessBatch => BufferProcess(b);
    case ConsumerStep => BufferConsumer(b);
    case _ =>
  }

  // ---- every run --------------------------------------------------------------------------

  predicate LoopInv(b: B) {
    BridgeInv(b) && SleepInv(b) && EndInv(b) && BatchInv(b)
  }

  predicate ReadInv(b: B) { ReaderInv(b) && BufferInv(b) }

  predicate ReplyInv(b: B) {
    HopsInv(b) && QuietInv(b) && HeadsInv(b) && ClockInv(b)
  }

  predicate Inv(b: B) { LoopInv(b) && ReadInv(b) && ReplyInv(b) }

  lemma PipelineInit(config: Config, async: AsyncConfig)
    ensures Reachable(BInit(config, async).p)
  {
    PipelineTheorems.ReachableInit(config);
    PipelineTheorems.ReachableStep(Init(config), Api(CallStart));
  }

  lemma LoopInit(config: Config, async: AsyncConfig)
    ensures LoopInv(BInit(config, async))
  {
  }

  lemma ReadInit(config: Config, async: AsyncConfig)
    ensures ReadInv(BInit(config, async))
  {
    assert Fits([], async.limit);
  }

  lemma ReplyInit(config: Config, async: AsyncConfig)
    ensures ReplyInv(BInit(config, async))
  {
  }

  /** Too large is only what has something in it. */
  lemma CauseIsThere(b: B)
    requires ReaderInv(b)
    ensures CauseFits(b)
  {
    assert Fits([], b.py.config.limit);
    if b.py.closed.No? && b.py.error == Some(TooLarge) { assert b.processed != []; }
  }

  lemma LoopStep(b: B, a: BAction)
    requires LoopInv(b) && Reachable(b.p) && BEnabled(b, a)
    ensures LoopInv(BStep(b, a))
  {
    WakeStep(b, a);
    SleepStep(b, a);
    EndStep(b, a);
    BatchStep(b, a);
  }

  lemma ReadStep(b: B, a: BAction)
    requires LoopInv(b) && ReadInv(b) && Reachable(b.p) && BEnabled(b, a)
    ensures ReadInv(BStep(b, a))
  {
    ReaderStep(b, a);
    BufferStep(b, a);
  }

  lemma ReplyStep(b: B, a: BAction)
    requires Inv(b) && Reachable(b.p) && BEnabled(b, a)
    ensures ReplyInv(BStep(b, a))
  {
    HopsStep(b, a);
    QuietStep(b, a);
    CauseIsThere(b);
    HeadsStep(b, a);
    ClockStep(b, a);
  }

  /** Every step of every thread, of the loop and of the coroutine keeps every invariant. */
  lemma InvStep(b: B, a: BAction)
    requires Inv(b) && Reachable(b.p) && BEnabled(b, a)
    ensures Inv(BStep(b, a)) && Reachable(BStep(b, a).p)
  {
    ReachableBridgeStep(b, a);
    LoopStep(b, a);
    ReadStep(b, a);
    ReplyStep(b, a);
  }

  // One run for each part, so that no proof sees more of Inv than it needs.

  lemma {:induction false} PipelineRun(states: seq<B>, actions: seq<BAction>, n: nat)
    requires BRun(states, actions) && n <= |actions|
    ensures Reachable(states[n].p)
  {
    if n == 0 {
      var config, async :| states[0] == BInit(config, async);
      PipelineInit(config, async);
    } else {
      PipelineRun(states, actions, n - 1);
      ReachableBridgeStep(states[n - 1], actions[n - 1]);
    }
  }

  lemma {:induction false} LoopRun(states: seq<B>, actions: seq<BAction>, n: nat)
    requires BRun(states, actions) && n <= |actions|
    ensures LoopInv(states[n])
  {
    if n == 0 {
      var config, async :| states[0] == BInit(config, async);
      LoopInit(config, async);
    } else {
      LoopRun(states, actions, n - 1);
      PipelineRun(states, actions, n - 1);
      LoopStep(states[n - 1], actions[n - 1]);
    }
  }

  lemma {:induction false} ReadRun(states: seq<B>, actions: seq<BAction>, n: nat)
    requires BRun(states, actions) && n <= |actions|
    ensures ReadInv(states[n])
  {
    if n == 0 {
      var config, async :| states[0] == BInit(config, async);
      ReadInit(config, async);
    } else {
      ReadRun(states, actions, n - 1);
      LoopRun(states, actions, n - 1);
      PipelineRun(states, actions, n - 1);
      ReadStep(states[n - 1], actions[n - 1]);
    }
  }

  lemma {:induction false} ReplyRun(states: seq<B>, actions: seq<BAction>, n: nat)
    requires BRun(states, actions) && n <= |actions|
    ensures ReplyInv(states[n])
  {
    if n == 0 {
      var config, async :| states[0] == BInit(config, async);
      ReplyInit(config, async);
    } else {
      ReplyRun(states, actions, n - 1);
      ReadRun(states, actions, n - 1);
      LoopRun(states, actions, n - 1);
      PipelineRun(states, actions, n - 1);
      ReplyStep(states[n - 1], actions[n - 1]);
    }
  }

  lemma ReachablePipeline(b: B)
    requires BReachable(b)
    ensures Reachable(b.p)
  {
    var states, actions :| BRun(states, actions) && states[|actions|] == b;
    PipelineRun(states, actions, |actions|);
  }

  lemma ReachableLoop(b: B)
    requires BReachable(b)
    ensures LoopInv(b)
  {
    var states, actions :| BRun(states, actions) && states[|actions|] == b;
    LoopRun(states, actions, |actions|);
  }

  lemma ReachableRead(b: B)
    requires BReachable(b)
    ensures ReadInv(b)
  {
    var states, actions :| BRun(states, actions) && states[|actions|] == b;
    ReadRun(states, actions, |actions|);
  }

  lemma ReachableReply(b: B)
    requires BReachable(b)
    ensures ReplyInv(b)
  {
    var states, actions :| BRun(states, actions) && states[|actions|] == b;
    ReplyRun(states, actions, |actions|);
  }

  lemma ReachableWake(b: B)
    requires BReachable(b)
    ensures BridgeInv(b)
  {
    ReachableLoop(b);
  }

  lemma ReachableSleep(b: B)
    requires BReachable(b)
    ensures SleepInv(b)
  {
    ReachableLoop(b);
  }

  lemma ReachableReader(b: B)
    requires BReachable(b)
    ensures ReaderInv(b)
  {
    ReachableRead(b);
  }

  lemma ReachableBuffer(b: B)
    requires BReachable(b)
    ensures BufferInv(b) && BridgeInv(b)
  {
    ReachableRead(b);
    ReachableLoop(b);
  }

  lemma ReachableBatch(b: B)
    requires BReachable(b)
    ensures BatchInv(b) && Reachable(b.p)
  {
    ReachableLoop(b);
    ReachablePipeline(b);
  }

  lemma ReachableHops(b: B)
    requires BReachable(b)
    ensures HopsInv(b) && QuietInv(b) && Reachable(b.p)
  {
    ReachableReply(b);
    ReachablePipeline(b);
  }

  lemma ReachableHeads(b: B)
    requires BReachable(b)
    ensures HeadsInv(b) && Reachable(b.p)
  {
    ReachableReply(b);
    ReachablePipeline(b);
  }

  lemma ReachableClock(b: B)
    requires BReachable(b)
    ensures ClockInv(b)
  {
    ReachableReply(b);
  }

  /** Once the terminal event was polled nothing is left in the Rust queue. */
  lemma ReachableEnd(b: B)
    requires BReachable(b)
    ensures b.ended.Some? ==> b.p.q.terminal == b.ended && |b.p.q.body| == 0
    ensures b.py.closed.Yes? ==> b.poll.NotPolling?
  {
    ReachableLoop(b);
  }

  /** A throttled state has a full buffer, hence a chunk to pull. */
  lemma ReachableThrottle(b: B)
    requires BReachable(b) && b.py.closed.No? && b.py.throttled.Yes?
    ensures b.py.config.stream && |b.py.chunks| > 0
  {
    ReachableWake(b);
    ReachableReader(b);
  }

  /**
   * No lost wakeup: between loop callbacks of an open, unfinished request, an
   * event poll_events would return means a notify is queued, or the callback
   * runner is inside the hook and still to post one or to find one posted, or
   * the buffer is full and the next pop that makes room reschedules.
   */
  lemma NoLostWakeup(b: B)
    requires BReachable(b)
    requires b.py.closed.No? && b.py.done.No? && b.poll.NotPolling?
    ensures Pollable(b) ==>
      || b.py.notifies >= 1
      || b.p.cbPc.InHook?
      || (b.py.throttled.Yes? && b.py.buffered >= STREAM_BUFFER_LIMIT)
    ensures Pollable(b) && b.p.cbPc.InHook? && b.hook.HookCloned? && b.handle.scheduled.Yes? ==>
      b.py.notifies >= 1 || b.py.throttled.Yes?
    ensures b.py.throttled.Yes? ==> |b.py.chunks| > 0
  {
    ReachableWake(b);
    if b.py.throttled.Yes? { ReachableThrottle(b); }
  }

  /** While throttled, the pop that brings the buffer under the limit queues a notify. */
  lemma ThrottleEnds(b: B)
    requires BReachable(b) && b.py.closed.No? && b.py.throttled.Yes? && b.poll.NotPolling?
    ensures var (next, pull) := NextChunk(b.py, b.read);
      && pull.Yield?
      && (next.buffered < STREAM_BUFFER_LIMIT ==>
            next.throttled.No? && next.notifies == b.py.notifies + 1)
      && (next.buffered >= STREAM_BUFFER_LIMIT ==> next.throttled.Yes?)
  {
    ReachableWake(b);
    ReachableThrottle(b);
    ReachableReader(b);
    if b.py.chunks != [] { PullOk(b.py, b.processed, b.yielded, Whole(b.py, b.hops)); }
  }

  /** A coroutine asleep on a clear event has no chunk, no error and no end to report. */
  lemma SleeperHasNothing(b: B)
    requires BReachable(b) && b.py.config.stream && b.py.wake.No?
    ensures b.consumer.SleepingChunk? ==>
      |b.py.chunks| == 0 && b.py.error.None? && b.py.done.No?
    ensures b.consumer.SleepingHead? ==>
      b.py.head.status == 0 && b.py.error.None? && b.py.done.No?
  {
    ReachableSleep(b);
  }

  /** A caller that awaits the whole response sleeps only while nothing has ended it. */
  lemma FutureSleeperHasNothing(b: B)
    requires BReachable(b) && !b.py.config.stream && b.consumer.SleepingHead?
    ensures b.py.future.Unresolved? ==> b.py.done.No? && b.py.error.None?
  {
    ReachableSleep(b);
  }

  /** The Python buffer stays below its limit plus one batch of maximal chunks. */
  lemma PythonBufferBound(b: B)
    requires BReachable(b) && b.py.config.stream
    ensures b.py.buffered < STREAM_BUFFER_LIMIT + ASYNC_POLL_BATCH * READ_BUFFER_SIZE
    ensures b.py.closed.No? ==> b.py.buffered == Total(b.py.chunks)
  {
    ReachableBuffer(b);
    ReachableReader(b);
  }

  /** After its end, however it came, the state holds no chunk, no timer and no event callback. */
  lemma ClosedLetsGo(b: B)
    requires BReachable(b) && b.py.closed.Yes?
    ensures b.py.chunks == [] && b.py.buffered == 0
    ensures b.py.timer.No? && b.handle.attached.No? && b.py.detached.Yes?
  {
    ReachableClock(b);
  }

  /**
   * A deadline ends the request: it runs until something else has, it fails the call with a
   * timeout when it fires, and it drops the event callback; nothing else reports a timeout.
   */
  lemma DeadlineFires(b: B)
    requires BReachable(b) && b.py.closed.No?
    ensures b.py.done.No? ==> b.py.timer == b.py.config.deadline
    ensures b.py.error == Some(TimedOut) ==> b.py.config.deadline.Yes?
    ensures b.py.timer.Yes? ==>
      var next := Expire(b.py);
      && next.error == Some(TimedOut) && next.done.Yes? && next.timer.No? && next.detached.Yes?
      && (!b.py.config.stream ==> next.future == Rejected(TimedOut))
      && (b.py.config.stream ==> next.wake.Yes?)
  {
    ReachableClock(b);
    ReachableReader(b);
    ReachableSleep(b);
  }

  /** And the coroutine that waits for the head, or for a chunk there is none of, gets it. */
  lemma TimeoutIsRaised(b: B)
    requires BReachable(b) && BEnabled(b, TimerExpires) && Waiting(b.consumer)
    requires b.py.closed.No?
    ensures var next := BStep(b, TimerExpires);
      && BEnabled(next, ConsumerStep)
      && var after := BStep(next, ConsumerStep);
      if b.consumer.AwaitingChunk? || b.consumer.SleepingChunk? then
        b.py.chunks == [] ==> after.consumer == Over(Raised(TimedOut))
      else after.consumer == if b.py.config.stream then HeadRaised(TimedOut) else Over(Raised(TimedOut))
  {
    DeadlineFires(b);
    ReachableSleep(b);
  }

  /** An error recorded while the head is awaited is raised there, unless it is the body's size. */
  lemma AwaitedErrorIsRaised(b: B)
    requires BReachable(b) && b.py.config.stream && b.poll.NotPolling? && b.py.error.Some?
    requires b.consumer.AwaitingHead? || b.consumer.SleepingHead?
    ensures BEnabled(b, ConsumerStep)
    ensures b.py.error != Some(TooLarge) ==>
      BStep(b, ConsumerStep).consumer == HeadRaised(b.py.error.value)
    ensures b.py.error == Some(TooLarge) ==> BStep(b, ConsumerStep).consumer == AwaitingChunk
  {
    ReachableSleep(b);
  }
}
