/**
 * The asyncio bridge on top of the request pipeline: bindings/python/src/lib.rs
 * between the Core's callback runner and the event loop, and the _AsyncState
 * that drains it. One machine covers all three layers, from URLRequest to the
 * consuming coroutine.
 *
 * The event loop is one thread. It runs one callback or coroutine step at a
 * time, but poll_events releases it to the callback runner between its locks.
 */
module Bridge {
  import opened Prelude
  import opened RequestQueue
  import opened CoreRequest
  import opened Pipeline
  import opened AsyncState

  /** The callback runner inside the event hook: before the clone, before the swap, after winning it. */
  datatype HookPc = HookEntered | HookCloned | HookWon

  /** PyRequest: the installed hook, response_future, body_stream, done and notify_scheduled. */
  datatype Handle = Handle(attached: Flag, future: Flag, stream: Flag, done: Flag, scheduled: Flag)

  /** poll_events between its lock regions, with the events drained so far. */
  datatype PollPc =
    | NotPolling
    | AtHop(events: seq<Event>)
    | AtHead(events: seq<Event>)
    | AtBody(events: seq<Event>)
    | PollEnd(events: seq<Event>)

  datatype Consumer =
    | AwaitingHead
    | SleepingHead
    | AwaitingChunk
    | SleepingChunk
    | HeadRaised(error: Failure)
    | Over(ending: Ending)
    | Abandoned

  /** `processed`, `hops`, `yielded` and `ended` only record what happened. */
  datatype B = B(
    p: State,
    hook: HookPc,
    handle: Handle,
    poll: PollPc,
    py: Py,
    consumer: Consumer,
    read: nat,
    processed: seq<Chunk>,
    hops: seq<Hop>,
    yielded: seq<Chunk>,
    ended: Option<Outcome>)

  datatype BAction =
    | CoreStep(action: Action)
    | HookClone
    | HookSwap
    | HookPost
    | NotifyRun
    | PollHop
    | PollHead
    | PollBody
    | ProcessBatch
    | ConsumerStep
    | ConsumerAbandon
    | TimerExpires

  /** The state after start_async: hook installed, request started, future stored. */
  function BInit(config: Config, async: AsyncConfig): B {
    B(ApiStep(Init(config), CallStart), HookEntered, Handle(Yes, Yes, No, No, No), NotPolling,
      NewPy(async), AwaitingHead, 0, [], [], [], None)
  }

  predicate Waiting(c: Consumer) {
    c.AwaitingHead? || c.SleepingHead? || c.AwaitingChunk? || c.SleepingChunk?
  }

  /** A sleeping coroutine runs again once its event is set or its future settled. */
  predicate Runnable(b: B) {
    match b.consumer
    case AwaitingHead | AwaitingChunk => true
    case SleepingHead => if b.py.config.stream then b.py.wake.Yes? else !b.py.future.Unresolved?
    case SleepingChunk => b.py.wake.Yes?
    case _ => false
  }

  /** The callback runner's hook and the loop's polls are spelled out below. */
  predicate PlainStep(a: Action) {
    !a.Consumer? && a != OnRunner(CbHookDone)
  }

  predicate BEnabled(b: B, a: BAction) {
    match a
    case CoreStep(x) => PlainStep(x) && Enabled(b.p, x)
    case HookClone => b.p.cbPc.InHook? && b.hook.HookEntered?
    case HookSwap => b.p.cbPc.InHook? && b.hook.HookCloned?
    case HookPost => b.p.cbPc.InHook? && b.hook.HookWon?
    case NotifyRun => b.poll.NotPolling? && b.py.notifies > 0
    case PollHop => b.poll.AtHop?
    case PollHead => b.poll.AtHead?
    case PollBody => b.poll.AtBody?
    case ProcessBatch => b.poll.PollEnd?
    case ConsumerStep => b.poll.NotPolling? && Runnable(b)
    case ConsumerAbandon => b.poll.NotPolling? && Waiting(b.consumer)
    case TimerExpires => b.poll.NotPolling? && b.py.timer.Yes?
  }

  // ---- event hook ---------------------------------------------------------------------

  function HookDone(b: B): B
    requires b.p.cbPc.InHook?
  {
    b.(p := Step(b.p, OnRunner(CbHookDone)), hook := HookEntered)
  }

  function RunHook(b: B): B
    requires b.p.cbPc.InHook?
  {
    match b.hook
    case HookEntered => if b.handle.attached.No? then HookDone(b) else b.(hook := HookCloned)
    case HookCloned =>
      if b.handle.scheduled.Yes? then HookDone(b)
      else b.(handle := b.handle.(scheduled := Yes), hook := HookWon)
    case HookWon => HookDone(b.(py := b.py.(notifies := b.py.notifies + 1)))
  }

  // ---- poll_events ----------------------------------------------------------------------

  predicate Terminal(e: Event) {
    e.DoneEvent? || e.ErrorEvent?
  }

  /** finish(): the hook and the response future are dropped. */
  function Detach(h: Handle): Handle {
    h.(attached := No, future := No)
  }

  function Push(events: seq<Event>, e: Event): PollPc {
    if Terminal(e) || |events| + 1 == ASYNC_POLL_BATCH then PollEnd(events + [e])
    else AtHop(events + [e])
  }

  function Take(p: State, a: TakeAction): State {
    Step(p, Consumer(a))
  }

  function RunNotify(b: B): B
    requires b.py.notifies > 0
  {
    b.(py := NotifyStarts(b.py),
       poll := if Polls(b.py) then AtHop([]) else NotPolling,
       handle := if Polls(b.py) then b.handle.(scheduled := No) else b.handle)
  }

  function RunPollHop(b: B): B
    requires b.poll.AtHop?
  {
    var e := b.poll.events;
    if b.p.q.redirects == [] then b.(poll := AtHead(e))
    else b.(p := Take(b.p, TakeHop), poll := Push(e, RedirectEvent(b.p.q.redirects[0])))
  }

  /** A terminal event: done is swapped, and finish() runs if it was not set before. */
  function Ends(b: B, e: Event, outcome: Outcome): B
    requires b.poll.AtHead? || b.poll.AtBody?
  {
    if b.handle.done.Yes? then b.(poll := PollEnd(b.poll.events))
    else b.(handle := Detach(b.handle).(done := Yes), poll := Push(b.poll.events, e),
            ended := Some(outcome))
  }

  function RunPollHead(b: B): B
    requires b.poll.AtHead?
  {
    var e := b.poll.events;
    if b.handle.future.No? then b.(poll := AtBody(e))
    else
      match TakeResponse(b.p.q).1
      case None => b.(poll := AtBody(e))
      case Some(GotHead(head)) =>
        b.(p := Take(b.p, TakeHead), handle := b.handle.(future := No, stream := Yes),
           poll := Push(e, ResponseEvent(head)))
      case Some(HeadFailed(code)) =>
        Ends(b.(p := Take(b.p, TakeHead), handle := b.handle.(future := No)), ErrorEvent(code),
             Failed(code))
  }

  function RunPollBody(b: B): B
    requires b.poll.AtBody?
  {
    var e := b.poll.events;
    if b.handle.stream.No? then b.(poll := PollEnd(e))
    else
      match Next(b.p.q).1
      case None => b.(poll := PollEnd(e))
      case Some(Data(chunk)) => b.(p := Take(b.p, TakeBodyItem), poll := Push(e, BodyEvent(chunk)))
      case Some(End) => Ends(b.(p := Take(b.p, TakeBodyItem)), DoneEvent, Finished)
      case Some(Error(code)) =>
        Ends(b.(p := Take(b.p, TakeBodyItem)), ErrorEvent(code), Failed(code))
  }

  // ---- the loop ---------------------------------------------------------------------------

  function EventBodies(events: seq<Event>): seq<Chunk> {
    if events == [] then []
    else (if events[0].BodyEvent? then [events[0].chunk] else []) + EventBodies(events[1..])
  }

  function EventHops(events: seq<Event>): seq<Hop> {
    if events == [] then []
    else (if events[0].RedirectEvent? then [events[0].hop] else []) + EventHops(events[1..])
  }

  /** A Python function ran; a cancel or detach it made reaches the handle. */
  function WithPy(b: B, py: Py): B {
    b.(py := py, handle := if py.detached.Yes? then Detach(b.handle) else b.handle)
  }

  function RunProcess(b: B): B
    requires b.poll.PollEnd?
  {
    WithPy(b, Drained(b.py, b.poll.events)).(
      poll := NotPolling,
      processed := b.processed + EventBodies(b.poll.events),
      hops := b.hops + EventHops(b.poll.events))
  }

  /** Awaiting the head of a streamed response, or the whole result otherwise. */
  function RunHeadConsumer(b: B): B {
    if b.py.config.stream then
      var (py, pull) := AwaitHead(b.py);
      WithPy(b, py).(
        consumer := match pull
                    case Raise(error) => HeadRaised(error)
                    case HeadReady => AwaitingChunk
                    case _ => SleepingHead)
    else
      match b.py.future
      case Unresolved => b.(consumer := SleepingHead)
      case Resolved => WithPy(b, Finish(b.py)).(consumer := Over(CleanEnd))
      case Rejected(error) => WithPy(b, Finish(b.py)).(consumer := Over(Raised(error)))
      case Cancelled => WithPy(b, Finish(b.py)).(consumer := Abandoned)
  }

  function RunChunkConsumer(b: B): B {
    var (py, pull) := NextChunk(b.py, b.read);
    WithPy(b, py).(
      consumer := match pull
                  case Yield(_) => AwaitingChunk
                  case Raise(error) => Over(Raised(error))
                  case Stop => Over(CleanEnd)
                  case _ => SleepingChunk,
      read := if pull.Yield? then b.read + |pull.chunk| else b.read,
      yielded := if pull.Yield? then b.yielded + [pull.chunk] else b.yielded)
  }

  function RunConsumer(b: B): B {
    if b.consumer.AwaitingHead? || b.consumer.SleepingHead? then RunHeadConsumer(b)
    else RunChunkConsumer(b)
  }

  function BStep(b: B, a: BAction): B
    requires BEnabled(b, a)
  {
    match a
    case CoreStep(x) => b.(p := Step(b.p, x))
    case HookClone | HookSwap | HookPost => RunHook(b)
    case NotifyRun => RunNotify(b)
    case PollHop => RunPollHop(b)
    case PollHead => RunPollHead(b)
    case PollBody => RunPollBody(b)
    case ProcessBatch => RunProcess(b)
    case ConsumerStep => RunConsumer(b)
    case ConsumerAbandon => WithPy(b, Finish(b.py)).(consumer := Abandoned)
    case TimerExpires => WithPy(b, Expire(b.py))
  }

  ghost predicate IsInit(b: B) {
    exists config, async :: b == BInit(config, async)
  }

  predicate Move(b: B, a: BAction, next: B) {
    BEnabled(b, a) && next == BStep(b, a)
  }

  /** A run as the states it visits and the actions between them. */
  ghost predicate BRun(states: seq<B>, actions: seq<BAction>) {
    && |states| == |actions| + 1
    && IsInit(states[0])
    && forall i {:trigger actions[i]} :: 0 <= i < |actions| ==> Move(states[i], actions[i], states[i + 1])
  }

  ghost predicate BReachable(b: B) {
    exists states, actions :: BRun(states, actions) && states[|actions|] == b
  }
}
