/**
 * No lost wakeup in the asyncio bridge: an event the loop has not polled always
 * has something on its way that will make the loop poll, and a sleeping
 * coroutine has nothing it could act on.
 */
module BridgeWake {
  import opened Prelude
  import opened RequestQueue
  import opened CoreRequest
  import opened Pipeline
  import opened AsyncState
  import opened Bridge

  // ---- what poll_one would find ---------------------------------------------------------

  predicate HopPollable(b: B) { b.p.q.redirects != [] }

  predicate HeadPollable(b: B) { b.handle.future.Yes? && TakeResponse(b.p.q).1.Some? }

  predicate BodyPollable(b: B) { b.handle.stream.Yes? && TakeBody(b.p.q).1.Some? }

  predicate Pollable(b: B) { HopPollable(b) || HeadPollable(b) || BodyPollable(b) }

  /** A notify is queued on the loop, or the callback runner is before its swap or its post. */
  predicate Covered(b: B) { b.py.notifies >= 1 || b.p.cbPc.InHook? }

  predicate EndsBatch(events: seq<Event>) {
    events != [] && Terminal(events[|events| - 1])
  }

  // ---- invariants -----------------------------------------------------------------------

  predicate HandleInv(b: B) {
    && (b.handle.attached.Yes? ==>
          && b.handle.done.No? && b.py.detached.No?
          && (b.handle.future.Yes? <==> b.handle.stream.No?))
    && (b.handle.attached.No? ==>
          && b.handle.future.No?
          && (b.py.closed.Yes? || b.py.done.Yes?
              || (b.poll.PollEnd? && EndsBatch(b.poll.events))))
    && (b.handle.done.Yes? <==> b.ended.Some?)
    && (!b.p.cbPc.InHook? ==> b.hook.HookEntered?)
    && (b.py.closed.Yes? ==> b.poll.NotPolling?)
    && (b.poll.AtHop? || b.poll.AtHead? || b.poll.AtBody? ==> |b.poll.events| < ASYNC_POLL_BATCH)
  }

  /** notify_scheduled and throttled each stand for a notify that is coming. */
  predicate FlagInv(b: B) {
    b.py.closed.No? ==>
      && (b.handle.scheduled.Yes? ==>
            b.py.notifies >= 1 || b.hook.HookWon? || b.py.throttled.Yes?)
      && (b.py.throttled.Yes? ==>
            b.py.config.stream && b.py.buffered >= STREAM_BUFFER_LIMIT && b.poll.NotPolling?)
  }

  predicate WakeInv(b: B) {
    b.handle.attached.Yes? && b.py.closed.No? ==>
      match b.poll
      case NotPolling => Pollable(b) ==> Covered(b) || b.py.throttled.Yes?
      case AtHop(_) => true
      case AtHead(_) => HopPollable(b) ==> Covered(b)
      case AtBody(_) => HopPollable(b) || HeadPollable(b) ==> Covered(b)
      case PollEnd(e) => |e| == ASYNC_POLL_BATCH || (Pollable(b) ==> Covered(b))
  }

  predicate BridgeInv(b: B) {
    HandleInv(b) && FlagInv(b) && WakeInv(b)
  }

  // ---- steps of the other threads ---------------------------------------------------------

  /** A pipeline step other than a new callback leaves the Rust queue and the hook alone. */
  lemma PlainFrame(s: State, a: Action)
    requires Enabled(s, a) && PlainStep(a) && a != OnRunner(CbRun)
    ensures Step(s, a).q == s.q
    ensures Step(s, a).cbPc.InHook? <==> s.cbPc.InHook?
  {
  }

  lemma WakeCore(b: B, a: Action)
    requires BridgeInv(b) && BEnabled(b, CoreStep(a))
    ensures BridgeInv(BStep(b, CoreStep(a)))
  {
    if a == OnRunner(CbRun) {
      assert Step(b.p, a).cbPc.InHook?;
    } else {
      PlainFrame(b.p, a);
    }
  }

  lemma WakeHookDone(b: B)
    requires BridgeInv(b) && b.p.cbPc.InHook? && b.hook.HookEntered?
    ensures BridgeInv(RunHook(b))
  {
    assert Step(b.p, OnRunner(CbHookDone)).q == b.p.q;
  }

  lemma WakeHookSwap(b: B)
    requires BridgeInv(b) && b.p.cbPc.InHook? && b.hook.HookCloned?
    ensures BridgeInv(RunHook(b))
  {
    assert Step(b.p, OnRunner(CbHookDone)).q == b.p.q;
  }

  lemma WakeHookPost(b: B)
    requires BridgeInv(b) && b.p.cbPc.InHook? && b.hook.HookWon?
    ensures BridgeInv(RunHook(b))
  {
    assert Step(b.p, OnRunner(CbHookDone)).q == b.p.q;
  }

  // ---- the loop -------------------------------------------------------------------------

  lemma WakeNotify(b: B)
    requires BridgeInv(b) && BEnabled(b, NotifyRun)
    ensures BridgeInv(RunNotify(b))
  {
  }

  lemma WakePollHop(b: B)
    requires BridgeInv(b) && b.poll.AtHop?
    ensures BridgeInv(RunPollHop(b))
  {
  }

  lemma WakePollHead(b: B)
    requires BridgeInv(b) && b.poll.AtHead?
    ensures BridgeInv(RunPollHead(b))
  {
  }

  lemma WakePollData(b: B)
    requires BridgeInv(b) && b.poll.AtBody? && b.p.q.body != []
    ensures BridgeInv(RunPollBody(b))
  {
  }

  lemma WakePollBody(b: B)
    requires BridgeInv(b) && b.poll.AtBody?
    ensures BridgeInv(RunPollBody(b))
  {
    if b.p.q.body != [] { WakePollData(b); }
  }

  /** What one event does to the fields that decide about wakeups. */
  lemma ApplyFacts(py: Py, e: Event)
    ensures var next := Apply(py, e);
      && next.closed == py.closed && next.notifies == py.notifies
      && next.throttled == py.throttled && next.config == py.config
      && (py.done.Yes? || Terminal(e) ==> next.done.Yes?)
      && (next.detached.Yes? ==> py.detached.Yes? || next.done.Yes?)
      && (py.detached.Yes? ==> next.detached.Yes?)
  {
  }

  lemma {:induction false} ApplyAllFacts(py: Py, events: seq<Event>)
    requires py.closed.No?
    ensures var next := ApplyAll(py, events);
      && next.closed.No? && next.notifies == py.notifies
      && next.throttled == py.throttled && next.config == py.config
      && (py.done.Yes? || EndsBatch(events) ==> next.done.Yes?)
      && (next.detached.Yes? ==> py.detached.Yes? || next.done.Yes?)
      && (py.detached.Yes? ==> next.detached.Yes?)
    decreases |events|
  {
    if events != [] {
      ApplyFacts(py, events[0]);
      ApplyAllFacts(Apply(py, events[0]), events[1..]);
    }
  }

  lemma WakeProcess(b: B)
    requires BridgeInv(b) && b.poll.PollEnd?
    ensures BridgeInv(RunProcess(b))
  {
    ApplyAllFacts(b.py, b.poll.events);
  }

  lemma WakeStreamHead(b: B)
    requires BridgeInv(b) && b.poll.NotPolling? && b.py.config.stream
    ensures BridgeInv(RunHeadConsumer(b))
  {
  }

  /** A settled future ends the request: the handle is detached and nothing is owed. */
  lemma WakeFinish(b: B, consumer: Consumer)
    requires BridgeInv(b) && b.poll.NotPolling?
    ensures BridgeInv(WithPy(b, Finish(b.py)).(consumer := consumer))
  {
  }

  lemma WakeHeadConsumer(b: B)
    requires BridgeInv(b) && b.poll.NotPolling?
    ensures BridgeInv(RunHeadConsumer(b))
  {
    if b.py.config.stream {
      WakeStreamHead(b);
    } else {
      match b.py.future
      case Unresolved =>
      case Resolved => WakeFinish(b, Over(CleanEnd));
      case Rejected(error) => WakeFinish(b, Over(Raised(error)));
      case Cancelled => WakeFinish(b, Abandoned);
    }
  }

  lemma WakeChunkConsumer(b: B)
    requires BridgeInv(b) && b.poll.NotPolling?
    ensures BridgeInv(RunChunkConsumer(b))
  {
  }

  lemma WakeStep(b: B, a: BAction)
    requires BridgeInv(b) && BEnabled(b, a)
    ensures BridgeInv(BStep(b, a))
  {
    match a
    case CoreStep(x) => WakeCore(b, x);
    case HookClone => WakeHookDone(b);
    case HookSwap => WakeHookSwap(b);
    case HookPost => WakeHookPost(b);
    case NotifyRun => WakeNotify(b);
    case PollHop => WakePollHop(b);
    case PollHead => WakePollHead(b);
    case PollBody => WakePollBody(b);
    case ProcessBatch => WakeProcess(b);
    case ConsumerStep =>
      if b.consumer.AwaitingHead? || b.consumer.SleepingHead? { WakeHeadConsumer(b); }
      else { WakeChunkConsumer(b); }
    case ConsumerAbandon =>
    case TimerExpires =>
  }

  // ---- sleeping coroutines ------------------------------------------------------------

  /** Asleep on `wake` with the event clear: there is nothing to return. */
  predicate ChunkSleepOk(py: Py) {
    py.wake.No? ==> |py.chunks| == 0 && py.error.None? && py.done.No?
  }

  predicate HeadSleepOk(py: Py) {
    py.wake.No? ==> py.head.status == 0 && py.error.None? && py.done.No?
  }

  predicate DoneOk(py: Py) {
    && (py.error.Some? ==> py.done.Yes?)
    && (!py.config.stream && py.done.Yes? ==> !py.future.Unresolved?)
  }

  predicate SleepInv(b: B) {
    && (b.py.closed.Yes? <==> !Waiting(b.consumer))
    && (!b.py.config.stream ==> !b.consumer.AwaitingChunk? && !b.consumer.SleepingChunk?)
    && (b.py.closed.No? ==>
          && DoneOk(b.py)
          && (b.py.config.stream && b.consumer.SleepingChunk? ==> ChunkSleepOk(b.py))
          && (b.py.config.stream && b.consumer.SleepingHead? ==> HeadSleepOk(b.py)))
  }

  lemma SleepApply(py: Py, e: Event)
    requires DoneOk(py)
    ensures var next := Apply(py, e);
      && DoneOk(next)
      && (py.config.stream && ChunkSleepOk(py) ==> ChunkSleepOk(next))
      && (py.config.stream && HeadSleepOk(py) ==> HeadSleepOk(next))
  {
  }

  lemma {:induction false} SleepApplyAll(py: Py, events: seq<Event>)
    requires DoneOk(py)
    ensures var next := ApplyAll(py, events);
      && DoneOk(next)
      && (py.config.stream && ChunkSleepOk(py) ==> ChunkSleepOk(next))
      && (py.config.stream && HeadSleepOk(py) ==> HeadSleepOk(next))
    decreases |events|
  {
    if events != [] {
      SleepApply(py, events[0]);
      ApplyFacts(py, events[0]);
      SleepApplyAll(Apply(py, events[0]), events[1..]);
    }
  }

  lemma SleepConsumer(b: B)
    requires SleepInv(b) && BEnabled(b, ConsumerStep)
    ensures SleepInv(RunConsumer(b))
  {
  }

  lemma SleepStep(b: B, a: BAction)
    requires BridgeInv(b) && SleepInv(b) && BEnabled(b, a)
    ensures SleepInv(BStep(b, a))
  {
    match a
    case ConsumerStep => SleepConsumer(b);
    case ProcessBatch =>
      SleepApplyAll(b.py, b.poll.events);
      ApplyAllFacts(b.py, b.poll.events);
    case _ =>
  }
}
