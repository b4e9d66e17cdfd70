/**
 * The bytes on their way from the Rust queue through the event batch and the
 * _AsyncState to the coroutine, and what the coroutine's ending then means.
 */
module BridgeData {
  import opened Prelude
  import opened RequestQueue
  import opened CoreRequest
  import opened Pipeline
  import PipelineTheorems
  import opened AsyncState
  import opened Bridge
  import opened BridgeWake

  function PollEvents(poll: PollPc): seq<Event> {
    if poll.NotPolling? then [] else poll.events
  }

  lemma {:induction false} EventBodiesAppend(events: seq<Event>, e: Event)
    ensures EventBodies(events + [e])
            == EventBodies(events) + if e.BodyEvent? then [e.chunk] else []
  {
    if events != [] {
      assert (events + [e])[1..] == events[1..] + [e];
      EventBodiesAppend(events[1..], e);
    }
  }

  predicate LastOnly(events: seq<Event>) {
    forall i :: 0 <= i < |events| - 1 ==> !Terminal(events[i])
  }

  // ---- the terminal event ---------------------------------------------------------------

  /** Once the terminal event was polled the queue is empty for good and its outcome is the Core's. */
  predicate EndInv(b: B) {
    && (b.ended.Some? ==> b.p.q.terminal == b.ended && |b.p.q.body| == 0)
    && (b.handle.stream.Yes? ==> b.p.q.responseTaken.Yes?)
    && (b.handle.future.Yes? ==> b.p.q.responseTaken.No?)
    && (b.p.q.terminalErrorTaken.Yes? ==> b.handle.done.Yes?)
  }

  /** Every bridge step is one pipeline step or none. */
  lemma ReachableBridgeStep(b: B, a: BAction)
    requires Reachable(b.p) && BEnabled(b, a)
    ensures Reachable(BStep(b, a).p)
  {
    match a
    case CoreStep(x) => PipelineTheorems.ReachableStep(b.p, x);
    case HookClone => PipelineTheorems.ReachableStep(b.p, OnRunner(CbHookDone));
    case HookSwap => PipelineTheorems.ReachableStep(b.p, OnRunner(CbHookDone));
    case HookPost => PipelineTheorems.ReachableStep(b.p, OnRunner(CbHookDone));
    case PollHop => PipelineTheorems.ReachableStep(b.p, Consumer(TakeHop));
    case PollHead => PipelineTheorems.ReachableStep(b.p, Consumer(TakeHead));
    case PollBody => PipelineTheorems.ReachableStep(b.p, Consumer(TakeBodyItem));
    case _ =>
  }

  lemma EndCore(b: B, a: Action)
    requires Reachable(b.p) && BridgeInv(b) && EndInv(b) && BEnabled(b, CoreStep(a))
    ensures EndInv(BStep(b, CoreStep(a)))
  {
    if a == OnRunner(CbRun) {
      if b.p.q.terminal.Some? { PipelineTheorems.TerminalIsLast(b.p); }
    } else {
      PlainFrame(b.p, a);
    }
  }

  lemma EndHead(b: B)
    requires Reachable(b.p) && BridgeInv(b) && EndInv(b) && b.poll.AtHead?
    ensures EndInv(RunPollHead(b))
  {
    PipelineTheorems.FailureHasNoBody(b.p);
  }

  lemma EndBodyData(b: B)
    requires HandleInv(b) && EndInv(b) && b.poll.AtBody? && b.p.q.body != []
    ensures EndInv(RunPollBody(b))
  {
  }

  lemma EndBodyOver(b: B)
    requires HandleInv(b) && EndInv(b) && b.poll.AtBody? && b.p.q.body == []
    ensures EndInv(RunPollBody(b))
  {
  }

  lemma EndBody(b: B)
    requires HandleInv(b) && EndInv(b) && b.poll.AtBody?
    ensures EndInv(RunPollBody(b))
  {
    if b.p.q.body != [] { EndBodyData(b); } else { EndBodyOver(b); }
  }

  /** Only the polls touch what EndInv is about. */
  lemma EndFrame(b: B, next: B)
    requires EndInv(b)
    requires next.p.q == b.p.q && next.ended == b.ended
    requires next.handle.done == b.handle.done && next.handle.stream == b.handle.stream
    requires next.handle.future.Yes? ==> b.handle.future.Yes?
    ensures EndInv(next)
  {
  }

  lemma EndHook(b: B)
    requires EndInv(b) && b.p.cbPc.InHook?
    ensures EndInv(RunHook(b))
  {
    assert Step(b.p, OnRunner(CbHookDone)).q == b.p.q;
    EndFrame(b, RunHook(b));
  }

  lemma EndHeadConsumer(b: B)
    requires EndInv(b)
    ensures EndInv(RunHeadConsumer(b))
  {
    EndFrame(b, RunHeadConsumer(b));
  }

  lemma EndConsumer(b: B)
    requires EndInv(b) && BEnabled(b, ConsumerStep)
    ensures EndInv(RunConsumer(b))
  {
    if b.consumer.AwaitingHead? || b.consumer.SleepingHead? { EndHeadConsumer(b); }
    else { EndFrame(b, RunChunkConsumer(b)); }
  }

  lemma EndStep(b: B, a: BAction)
    requires Reachable(b.p) && BridgeInv(b) && EndInv(b) && BEnabled(b, a)
    ensures EndInv(BStep(b, a))
  {
    match a
    case CoreStep(x) => EndCore(b, x);
    case HookClone => EndHook(b);
    case HookSwap => EndHook(b);
    case HookPost => EndHook(b);
    case PollHop =>
    case PollHead => EndHead(b);
    case PollBody => EndBody(b);
    case ConsumerStep => EndConsumer(b);
    case _ => EndFrame(b, BStep(b, a));
  }

  // ---- the batch ------------------------------------------------------------------------

  /** What the events of the current batch stand for. */
  predicate BatchHolds(taken: seq<Chunk>, processed: seq<Chunk>, poll: PollPc, ended: Option<Outcome>) {
    var e := PollEvents(poll);
    && taken == processed + EventBodies(e)
    && |e| <= ASYNC_POLL_BATCH
    && LastOnly(e)
    && (EndsBatch(e) ==>
          && poll.PollEnd?
          && (e[|e| - 1].DoneEvent? ==> ended == Some(Finished))
          && (e[|e| - 1].ErrorEvent? ==> ended == Some(Failed(e[|e| - 1].code))))
    && (ended.Some? && !EndsBatch(e) ==> |EventBodies(e)| == 0)
  }

  predicate BatchInv(b: B) {
    BatchHolds(b.p.h.taken, b.processed, b.poll, b.ended)
  }

  /** Still between two events of the batch. */
  predicate Collecting(poll: PollPc) {
    (poll.AtHop? || poll.AtHead? || poll.AtBody?) && |poll.events| < ASYNC_POLL_BATCH
  }

  /** A hop or a head joins the batch. */
  lemma BatchOther(taken: seq<Chunk>, processed: seq<Chunk>, poll: PollPc, ended: Option<Outcome>,
                   e: Event)
    requires BatchHolds(taken, processed, poll, ended) && Collecting(poll)
    requires !Terminal(e) && !e.BodyEvent?
    ensures BatchHolds(taken, processed, Push(poll.events, e), ended)
  {
    EventBodiesAppend(poll.events, e);
    assert EventBodies(poll.events) + [] == EventBodies(poll.events);
  }

  /** A chunk joins the batch as it leaves the Rust queue. */
  lemma BatchChunk(taken: seq<Chunk>, processed: seq<Chunk>, poll: PollPc, ended: Option<Outcome>,
                   chunk: Chunk)
    requires BatchHolds(taken, processed, poll, ended) && Collecting(poll) && ended.None?
    ensures BatchHolds(taken + [chunk], processed, Push(poll.events, BodyEvent(chunk)), ended)
  {
    var bodies := EventBodies(poll.events);
    EventBodiesAppend(poll.events, BodyEvent(chunk));
    assert processed + (bodies + [chunk]) == (processed + bodies) + [chunk];
  }

  predicate Reports(e: Event, outcome: Outcome) {
    match outcome
    case Finished => e.DoneEvent?
    case Failed(code) => e == ErrorEvent(code)
  }

  /** The terminal event ends the batch the first time, and is dropped after that. */
  lemma BatchEnds(taken: seq<Chunk>, processed: seq<Chunk>, poll: PollPc, ended: Option<Outcome>,
                  e: Event, outcome: Outcome)
    requires BatchHolds(taken, processed, poll, ended) && Collecting(poll) && Reports(e, outcome)
    ensures ended.None? ==> BatchHolds(taken, processed, Push(poll.events, e), Some(outcome))
    ensures ended.Some? ==> BatchHolds(taken, processed, PollEnd(poll.events), ended)
  {
    EventBodiesAppend(poll.events, e);
    assert EventBodies(poll.events) + [] == EventBodies(poll.events);
  }

  lemma BatchMoves(taken: seq<Chunk>, processed: seq<Chunk>, poll: PollPc, ended: Option<Outcome>)
    requires BatchHolds(taken, processed, poll, ended) && Collecting(poll)
    ensures BatchHolds(taken, processed, AtHead(poll.events), ended)
    ensures BatchHolds(taken, processed, AtBody(poll.events), ended)
    ensures BatchHolds(taken, processed, PollEnd(poll.events), ended)
  {
  }

  lemma BatchHop(b: B)
    requires HandleInv(b) && BatchInv(b) && b.poll.AtHop?
    ensures BatchInv(RunPollHop(b))
  {
    BatchMoves(b.p.h.taken, b.processed, b.poll, b.ended);
    if b.p.q.redirects != [] {
      BatchOther(b.p.h.taken, b.processed, b.poll, b.ended, RedirectEvent(b.p.q.redirects[0]));
    }
  }

  lemma BatchHead(b: B)
    requires HandleInv(b) && BatchInv(b) && b.poll.AtHead?
    ensures BatchInv(RunPollHead(b))
  {
    BatchMoves(b.p.h.taken, b.processed, b.poll, b.ended);
    match TakeResponse(b.p.q).1
    case None =>
    case Some(GotHead(head)) =>
      BatchOther(b.p.h.taken, b.processed, b.poll, b.ended, ResponseEvent(head));
    case Some(HeadFailed(code)) =>
      BatchEnds(b.p.h.taken, b.processed, b.poll, b.ended, ErrorEvent(code), Failed(code));
  }

  lemma BatchBodyData(b: B)
    requires HandleInv(b) && EndInv(b) && BatchInv(b) && b.poll.AtBody?
    requires b.handle.stream.Yes? && b.p.q.body != []
    ensures BatchInv(RunPollBody(b))
  {
    BatchChunk(b.p.h.taken, b.processed, b.poll, b.ended, b.p.q.body[0]);
  }

  lemma BatchBody(b: B)
    requires HandleInv(b) && EndInv(b) && BatchInv(b) && b.poll.AtBody?
    ensures BatchInv(RunPollBody(b))
  {
    BatchMoves(b.p.h.taken, b.processed, b.poll, b.ended);
    if b.handle.stream.Yes? {
      match Next(b.p.q).1
      case None =>
      case Some(Data(_)) => BatchBodyData(b);
      case Some(End) =>
        BatchEnds(b.p.h.taken, b.processed, b.poll, b.ended, DoneEvent, Finished);
      case Some(Error(code)) =>
        BatchEnds(b.p.h.taken, b.processed, b.poll, b.ended, ErrorEvent(code), Failed(code));
    }
  }

  lemma BatchStep(b: B, a: BAction)
    requires BridgeInv(b) && EndInv(b) && BatchInv(b) && BEnabled(b, a)
    ensures BatchInv(BStep(b, a))
  {
    match a
    case CoreStep(x) => assert Step(b.p, x).h.taken == b.p.h.taken;
    case PollHop => BatchHop(b);
    case PollHead => BatchHead(b);
    case PollBody => BatchBody(b);
    case _ =>
  }

  // ---- the _AsyncState --------------------------------------------------------------------

  /** No redirect has ended the read: redirects are followed, or the loop processed none. */
  predicate Whole(py: Py, hops: seq<Hop>) {
    py.config.follow || |hops| == 0
  }

  /** No body may follow once this holds; `whole` is Whole of the hops processed so far. */
  predicate Settled(py: Py, whole: bool) {
    || (py.error.Some? && py.error.value.Native?)
    || (!py.config.stream && whole && py.future.Resolved?)
  }

  /** The fields of an open _AsyncState in terms of the chunks it has processed. */
  predicate PyOk(py: Py, processed: seq<Chunk>, yielded: seq<Chunk>, whole: bool) {
    var limit := py.config.limit;
    && py.total == Total(processed)
    && (!Fits(processed, limit) ==> py.error.Some?)
    && (py.error == Some(TooLarge) ==> !Fits(processed, limit))
    && (Settled(py, whole) ==> Fits(processed, limit))
    && (py.config.stream ==>
          yielded + py.chunks == FittingPrefix(processed, limit) && py.buffered == Total(py.chunks))
    && (!py.config.stream ==>
          && py.body == Flatten(FittingPrefix(processed, limit))
          && |py.chunks| == 0 && |yielded| == 0
          && (py.future.Rejected? ==> py.error == Some(py.future.error)))
  }

  lemma BodyOk(py: Py, processed: seq<Chunk>, yielded: seq<Chunk>, chunk: Chunk, whole: bool)
    requires PyOk(py, processed, yielded, whole) && DoneOk(py) && !Settled(py, whole)
    ensures PyOk(OnBodyEvent(py, chunk), processed + [chunk], yielded, whole)
    ensures OnBodyEvent(py, chunk).buffered <= py.buffered + |chunk|
  {
    var limit, longer := py.config.limit, processed + [chunk];
    TotalAppend(processed, [chunk]);
    TotalOne(chunk);
    assert longer[..|longer| - 1] == processed;
    if !Fits(processed, limit) {
      FittingPrefixStable(processed, [chunk], limit);
    } else if Fits(longer, limit) {
      FlattenAppend(processed, [chunk]);
      FlattenOne(chunk);
      TotalAppend(py.chunks, [chunk]);
      assert yielded + (py.chunks + [chunk]) == (yielded + py.chunks) + [chunk];
    }
  }

  lemma OtherOk(py: Py, processed: seq<Chunk>, yielded: seq<Chunk>, e: Event, whole: bool)
    requires PyOk(py, processed, yielded, whole) && DoneOk(py) && !e.BodyEvent?
    requires whole ==> py.config.follow || !e.RedirectEvent?
    ensures PyOk(Apply(py, e), processed, yielded, whole)
  {
  }

  lemma {:induction false} BatchBuffered(py: Py, events: seq<Event>)
    requires py.closed.No?
    ensures ApplyAll(py, events).buffered <= py.buffered + Total(EventBodies(events))
    decreases |events|
  {
    if events != [] {
      var e, rest := events[0], events[1..];
      var bodies := if e.BodyEvent? then [e.chunk] else [];
      ApplyFacts(py, e);
      BatchBuffered(Apply(py, e), rest);
      TotalAppend(bodies, EventBodies(rest));
      if e.BodyEvent? { TotalOne(e.chunk); }
    }
  }

  /** One event appends its body, if it has one. */
  lemma EventOk(py: Py, processed: seq<Chunk>, yielded: seq<Chunk>, e: Event, whole: bool)
    requires PyOk(py, processed, yielded, whole) && DoneOk(py)
    requires Settled(py, whole) ==> !e.BodyEvent?
    requires whole ==> py.config.follow || !e.RedirectEvent?
    ensures PyOk(Apply(py, e), processed + EventBodies([e]), yielded, whole)
    ensures DoneOk(Apply(py, e))
  {
    SleepApply(py, e);
    assert EventBodies([e][1..]) == [];
    if e.BodyEvent? {
      BodyOk(py, processed, yielded, e.chunk, whole);
      assert EventBodies([e]) == [e.chunk];
    } else {
      OtherOk(py, processed, yielded, e, whole);
      assert processed + EventBodies([e]) == processed;
    }
  }

  lemma EventBodiesSplit(events: seq<Event>)
    requires events != []
    ensures EventBodies(events) == EventBodies([events[0]]) + EventBodies(events[1..])
  {
    assert EventBodies([events[0]][1..]) == [];
  }

  /** Only a terminal event settles a state. */
  lemma SettledByEnd(py: Py, e: Event, whole: bool)
    requires DoneOk(py) && (whole ==> py.config.follow || !e.RedirectEvent?)
    ensures Settled(Apply(py, e), whole) ==> Settled(py, whole) || Terminal(e)
    ensures Settled(py, whole) && !e.BodyEvent? ==> Settled(Apply(py, e), whole)
  {
  }

  /** If a batch carries no body once settled, neither does its rest after one event. */
  lemma RestCarriesNone(py: Py, events: seq<Event>, whole: bool)
    requires DoneOk(py) && LastOnly(events) && events != []
    requires whole ==> py.config.follow || |EventHops(events)| == 0
    requires Settled(py, whole) ==> |EventBodies(events)| == 0
    ensures Settled(py, whole) ==> !events[0].BodyEvent?
    ensures Settled(Apply(py, events[0]), whole) ==> |EventBodies(events[1..])| == 0
    ensures LastOnly(events[1..])
  {
    SettledByEnd(py, events[0], whole);
    assert Terminal(events[0]) ==> |events[1..]| == 0;
    assert |EventBodies(events[1..])| <= |EventBodies(events)|;
  }

  lemma BodiesJoin(processed: seq<Chunk>, longer: seq<Chunk>, events: seq<Event>)
    requires events != [] && longer == processed + EventBodies([events[0]])
    ensures longer + EventBodies(events[1..]) == processed + EventBodies(events)
  {
    EventBodiesSplit(events);
    var first, rest := EventBodies([events[0]]), EventBodies(events[1..]);
    assert (processed + first) + rest == processed + (first + rest);
  }

  /** A whole batch appends its bodies. */
  lemma {:induction false} BatchOk(py: Py, processed: seq<Chunk>, yielded: seq<Chunk>,
                                   events: seq<Event>, whole: bool)
    requires PyOk(py, processed, yielded, whole) && DoneOk(py) && py.closed.No? && LastOnly(events)
    requires Settled(py, whole) ==> |EventBodies(events)| == 0
    requires whole ==> py.config.follow || |EventHops(events)| == 0
    ensures PyOk(ApplyAll(py, events), processed + EventBodies(events), yielded, whole)
    decreases |events|
  {
    if events == [] {
      assert processed + [] == processed;
    } else {
      var e := events[0];
      RestCarriesNone(py, events, whole);
      EventOk(py, processed, yielded, e, whole);
      ApplyFacts(py, e);
      var longer := processed + EventBodies([e]);
      BatchOk(Apply(py, e), longer, yielded, events[1..], whole);
      BodiesJoin(processed, longer, events);
    }
  }

  /** Which event makes each field what it is. */
  lemma EventCause(py: Py, e: Event)
    ensures var next := Apply(py, e);
      && (next.error.Some? && next.error.value.Native? && next.error != py.error ==>
            e == ErrorEvent(next.error.value.code))
      && (py.error.Some? ==> next.error == py.error)
      && (next.done.Yes? && next.error.None? && py.done.No? ==>
            e.DoneEvent? || (e.RedirectEvent? && !py.config.follow))
      && (!py.config.stream && next.future.Resolved? && !py.future.Resolved? ==>
            e.DoneEvent? || (e.RedirectEvent? && !py.config.follow))
      && (next.timer.Yes? ==> py.timer.Yes? && (next.done.Yes? ==> py.done.Yes?))
  {
  }

  lemma {:induction false} KeepsError(py: Py, events: seq<Event>)
    requires py.closed.No?
    ensures py.error.Some? ==> ApplyAll(py, events).error == py.error
    decreases |events|
  {
    if events != [] {
      ApplyFacts(py, events[0]);
      EventCause(py, events[0]);
      KeepsError(Apply(py, events[0]), events[1..]);
    }
  }

  /** A native error recorded by a batch is its last event. */
  lemma {:induction false} ErrorCause(py: Py, events: seq<Event>)
    requires py.closed.No? && LastOnly(events)
    ensures var next := ApplyAll(py, events);
      next.error.Some? && next.error.value.Native? && next.error != py.error ==>
        EndsBatch(events) && events[|events| - 1] == ErrorEvent(next.error.value.code)
    decreases |events|
  {
    if events != [] {
      ApplyFacts(py, events[0]);
      EventCause(py, events[0]);
      KeepsError(Apply(py, events[0]), events[1..]);
      assert Terminal(events[0]) ==> |events[1..]| == 0;
      ErrorCause(Apply(py, events[0]), events[1..]);
    }
  }

  /** An end recorded by a batch without an error is its last event. */
  lemma {:induction false} DoneCause(py: Py, events: seq<Event>)
    requires py.closed.No? && LastOnly(events) && Whole(py, EventHops(events))
    ensures var next := ApplyAll(py, events);
      next.done.Yes? && next.error.None? && py.done.No? ==>
        EndsBatch(events) && events[|events| - 1].DoneEvent?
    decreases |events|
  {
    if events != [] {
      ApplyFacts(py, events[0]);
      EventCause(py, events[0]);
      KeepsError(Apply(py, events[0]), events[1..]);
      assert Terminal(events[0]) ==> |events[1..]| == 0;
      DoneCause(Apply(py, events[0]), events[1..]);
    }
  }

  /** So is the end that resolves a future. */
  lemma {:induction false} ResolveCause(py: Py, events: seq<Event>)
    requires py.closed.No? && LastOnly(events) && Whole(py, EventHops(events)) && !py.config.stream
    ensures ApplyAll(py, events).future.Resolved? && !py.future.Resolved? ==>
      EndsBatch(events) && events[|events| - 1].DoneEvent?
    decreases |events|
  {
    if events != [] {
      ApplyFacts(py, events[0]);
      EventCause(py, events[0]);
      assert Terminal(events[0]) ==> |events[1..]| == 0;
      ResolveCause(Apply(py, events[0]), events[1..]);
    }
  }

  /** A timer still armed after a batch was armed before, and the batch ended nothing. */
  lemma {:induction false} TimerCause(py: Py, events: seq<Event>)
    requires py.closed.No?
    ensures ApplyAll(py, events).timer.Yes? ==>
      py.timer.Yes? && (ApplyAll(py, events).done.Yes? ==> py.done.Yes?)
    decreases |events|
  {
    if events != [] {
      ApplyFacts(py, events[0]);
      EventCause(py, events[0]);
      TimerCause(Apply(py, events[0]), events[1..]);
    }
  }
}
