/**
 * The response head on its way from the callbacks to the _AsyncState, and the
 * deadline of a request: what starts it, what stops it, and that nothing else
 * settles the caller's future.
 */
module BridgeHeads {
  import opened Prelude
  import opened RequestQueue
  import opened Pipeline
  import opened PipelineHops
  import PipelineTheorems
  import opened AsyncState
  import opened Bridge
  import opened BridgeWake
  import opened BridgeData
  import opened BridgeHops

  // ---- the head ---------------------------------------------------------------------------

  /** The head the caller gets is the response's, not that of a redirect. */
  predicate OnHead(b: B) { b.py.config.follow || HopsOf(b.p.h.trace) == [] }

  predicate Seen(head: Head, reports: seq<Report>) { HeadSeen(head) in reports }

  /** The caller already has a Response to read from. */
  predicate Returned(b: B) {
    b.consumer.AwaitingChunk? || b.consumer.SleepingChunk? || (b.consumer.Over? && b.py.config.stream)
  }

  predicate PolledHeads(events: seq<Event>, reports: seq<Report>) {
    forall i :: 0 <= i < |events| && events[i].ResponseEvent? ==> Seen(events[i].head, reports)
  }

  /** Once the head was polled it is in the batch or in the _AsyncState, and it is the reported one. */
  predicate HeadFields(py: Py, events: seq<Event>, taken: Flag, reports: seq<Report>) {
    && (taken.Yes? && NoHeads(events) ==> Seen(py.head, reports))
    && (taken.No? ==> py.head == NO_HEAD && NoHeads(events))
  }

  predicate HeadsInv(b: B) {
    && PolledHeads(PollEvents(b.poll), b.p.h.reports)
    && (OnHead(b) ==> HeadFields(b.py, PollEvents(b.poll), b.handle.stream, b.p.h.reports))
    && (|b.processed| > 0 || |EventBodies(PollEvents(b.poll))| > 0 || b.ended == Some(Finished) ==>
          b.handle.stream.Yes?)
    && (OnHead(b) && Returned(b) ==> b.handle.stream.Yes?)
  }

  /** A step that neither polls, processes nor returns. */
  lemma HeadsFrame(b: B, next: B)
    requires HeadsInv(b)
    requires PollEvents(next.poll) == PollEvents(b.poll) && b.p.h.reports <= next.p.h.reports
    requires next.py.head == b.py.head && next.py.config == b.py.config
    requires next.handle.stream == b.handle.stream && next.processed == b.processed
    requires next.ended == b.ended && (Returned(next) ==> Returned(b))
    requires HopsOf(b.p.h.trace) <= HopsOf(next.p.h.trace)
    ensures HeadsInv(next)
  {
  }

  lemma HeadsCore(b: B, a: Action)
    requires HeadsInv(b) && BEnabled(b, CoreStep(a))
    ensures HeadsInv(BStep(b, CoreStep(a)))
  {
    var next := BStep(b, CoreStep(a));
    if a == OnRunner(CbRun) {
      HopsAppend(b.p.h.trace, b.p.core.cb[0]);
    } else {
      assert next.p.h.trace == b.p.h.trace;
    }
    HeadsFrame(b, next);
  }

  lemma HeadsHook(b: B)
    requires HeadsInv(b) && b.p.cbPc.InHook?
    ensures HeadsInv(RunHook(b))
  {
    HeadsFrame(b, RunHook(b));
  }

  lemma PushedEvent(events: seq<Event>, e: Event, reports: seq<Report>)
    ensures NoHeads(events + [e]) <==> NoHeads(events) && !e.ResponseEvent?
    ensures PolledHeads(events, reports) && (e.ResponseEvent? ==> Seen(e.head, reports)) ==>
      PolledHeads(events + [e], reports)
    ensures |EventBodies(events + [e])| == |EventBodies(events)| + if e.BodyEvent? then 1 else 0
  {
    EventBodiesAppend(events, e);
    assert (events + [e])[|events|] == e;
    assert forall i :: 0 <= i < |events| ==> (events + [e])[i] == events[i];
  }

  /** An event that is no head joins the batch. */
  lemma HeadsPush(b: B, next: B, e: Event)
    requires HeadsInv(b) && !b.poll.NotPolling? && !e.ResponseEvent?
    requires PollEvents(next.poll) == b.poll.events + [e] && next.p.h.reports == b.p.h.reports
    requires next.py == b.py && next.handle.stream == b.handle.stream && next.processed == b.processed
    requires next.ended == b.ended || b.handle.stream.Yes? || next.ended != Some(Finished)
    requires e.BodyEvent? ==> b.handle.stream.Yes?
    requires next.consumer == b.consumer && next.p.h.trace == b.p.h.trace
    ensures HeadsInv(next)
  {
    PushedEvent(b.poll.events, e, b.p.h.reports);
  }

  /** The head joins the batch as it leaves the Rust queue. */
  lemma HeadsGot(b: B, next: B, head: Head)
    requires HeadsInv(b) && !b.poll.NotPolling? && Seen(head, b.p.h.reports)
    requires PollEvents(next.poll) == b.poll.events + [ResponseEvent(head)]
    requires next.p.h.reports == b.p.h.reports && next.handle.stream.Yes?
    ensures HeadsInv(next)
  {
    PushedEvent(b.poll.events, ResponseEvent(head), b.p.h.reports);
  }

  lemma HeadsPollHop(b: B)
    requires HeadsInv(b) && b.poll.AtHop?
    ensures HeadsInv(RunPollHop(b))
  {
    if b.p.q.redirects == [] { HeadsFrame(b, RunPollHop(b)); }
    else { HeadsPush(b, RunPollHop(b), RedirectEvent(b.p.q.redirects[0])); }
  }

  lemma HeadsTaken(b: B)
    requires Reachable(b.p) && HeadsInv(b) && b.poll.AtHead? && b.handle.future.Yes?
    requires TakeResponse(b.p.q).1.Some? && TakeResponse(b.p.q).1.value.GotHead?
    ensures HeadsInv(RunPollHead(b))
  {
    var head := TakeResponse(b.p.q).1.value.head;
    PipelineTheorems.HeadConserved(b.p, head);
    HeadsGot(b, RunPollHead(b), head);
  }

  lemma HeadsPollHead(b: B)
    requires Reachable(b.p) && HeadsInv(b) && b.poll.AtHead?
    ensures HeadsInv(RunPollHead(b))
  {
    if b.handle.future.No? || TakeResponse(b.p.q).1.None? {
      HeadsFrame(b, RunPollHead(b));
    } else {
      match TakeResponse(b.p.q).1.value
      case GotHead(head) => HeadsTaken(b);
      case HeadFailed(code) =>
        if b.handle.done.Yes? { HeadsFrame(b, RunPollHead(b)); }
        else { HeadsPush(b, RunPollHead(b), ErrorEvent(code)); }
    }
  }

  lemma HeadsData(b: B)
    requires HeadsInv(b) && b.poll.AtBody? && b.handle.stream.Yes? && b.p.q.body != []
    ensures HeadsInv(RunPollBody(b))
  {
    HeadsPush(b, RunPollBody(b), BodyEvent(b.p.q.body[0]));
  }

  lemma HeadsOver(b: B)
    requires HeadsInv(b) && b.poll.AtBody? && b.handle.stream.Yes? && b.p.q.body == []
    ensures HeadsInv(RunPollBody(b))
  {
    match TakeBody(b.p.q).1
    case None => HeadsFrame(b, RunPollBody(b));
    case Some(item) =>
      if b.handle.done.Yes? { HeadsFrame(b, RunPollBody(b)); }
      else { HeadsPush(b, RunPollBody(b), if item.End? then DoneEvent else ErrorEvent(item.code)); }
  }

  lemma HeadsPollBody(b: B)
    requires HeadsInv(b) && b.poll.AtBody?
    ensures HeadsInv(RunPollBody(b))
  {
    if b.handle.stream.No? { HeadsFrame(b, RunPollBody(b)); }
    else if b.p.q.body != [] { HeadsData(b); }
    else { HeadsOver(b); }
  }

  /** What a batch makes of the head, unless a redirect takes its place. */
  lemma {:induction false} BatchHead(py: Py, events: seq<Event>, reports: seq<Report>)
    requires py.closed.No? && Whole(py, EventHops(events)) && PolledHeads(events, reports)
    ensures NoHeads(events) ==> ApplyAll(py, events).head == py.head
    ensures !NoHeads(events) ==> Seen(ApplyAll(py, events).head, reports)
    decreases |events|
  {
    if events != [] {
      var e, rest := events[0], events[1..];
      ApplyFacts(py, e);
      assert forall i :: 0 <= i < |rest| ==> rest[i] == events[i + 1];
      assert NoHeads(events) <==> !e.ResponseEvent? && NoHeads(rest);
      BatchHead(Apply(py, e), rest, reports);
    }
  }

  lemma HeadsProcess(b: B)
    requires HandleInv(b) && HopsInv(b) && HeadsInv(b) && b.poll.PollEnd?
    ensures HeadsInv(RunProcess(b))
  {
    var e := b.poll.events;
    ApplyAllFacts(b.py, e);
    if OnHead(b) {
      BatchHead(b.py, e, b.p.h.reports);
    }
  }

  /** A step of the coroutine: only where it stands matters. */
  lemma HeadsMoved(b: B, next: B)
    requires HeadsInv(b)
    requires next.py.head == b.py.head && next.py.config == b.py.config
    requires next.p == b.p && next.poll == b.poll && next.handle.stream == b.handle.stream
    requires next.processed == b.processed && next.ended == b.ended
    requires OnHead(b) && Returned(next) ==> b.handle.stream.Yes?
    ensures HeadsInv(next)
  {
  }

  lemma HeadsConsumer(b: B)
    requires HeadsInv(b) && BEnabled(b, ConsumerStep)
    requires OnHead(b) && Returned(RunConsumer(b)) ==> b.handle.stream.Yes?
    ensures HeadsInv(RunConsumer(b))
  {
    if b.consumer.AwaitingHead? || b.consumer.SleepingHead? { HeadsMoved(b, RunHeadConsumer(b)); }
    else { HeadsMoved(b, RunChunkConsumer(b)); }
  }

  /** A streaming call returns once the head was processed, or after something that needs it. */
  lemma ReturnsWithHead(b: B)
    requires HopsInv(b) && HeadsInv(b) && SleepInv(b) && BEnabled(b, ConsumerStep)
    requires CauseFits(b)
    ensures OnHead(b) && Returned(RunConsumer(b)) ==> b.handle.stream.Yes?
  {
  }

  /** What the reader's invariant says about an end that leaves the caller something to read. */
  predicate CauseFits(b: B) {
    b.py.closed.No? ==>
      && (Whole(b.py, b.hops) && b.py.done.Yes? && b.py.error.None? ==> b.ended == Some(Finished))
      && (b.py.error == Some(TooLarge) ==> |b.processed| > 0)
  }

  lemma HeadsStep(b: B, a: BAction)
    requires Reachable(b.p) && BridgeInv(b) && SleepInv(b) && HopsInv(b) && HeadsInv(b) && CauseFits(b)
    requires BEnabled(b, a)
    ensures HeadsInv(BStep(b, a))
  {
    match a
    case CoreStep(x) => HeadsCore(b, x);
    case HookClone => HeadsHook(b);
    case HookSwap => HeadsHook(b);
    case HookPost => HeadsHook(b);
    case PollHop => HeadsPollHop(b);
    case PollHead => HeadsPollHead(b);
    case PollBody => HeadsPollBody(b);
    case ProcessBatch => HeadsProcess(b);
    case ConsumerStep =>
      ReturnsWithHead(b);
      HeadsConsumer(b);
    case _ => HeadsFrame(b, BStep(b, a));
  }

  // ---- the deadline -----------------------------------------------------------------------

  /** While nothing ended the request its deadline runs, if it has one, and the future is open. */
  predicate ClockOk(py: Py) {
    && (py.done.No? ==> py.timer == py.config.deadline && py.future.Unresolved?)
    && (py.error == Some(TimedOut) ==> py.config.deadline.Yes?)
  }

  /** A closed state has let everything go. */
  predicate LetGo(b: B) {
    && b.py.timer.No? && b.py.detached.Yes? && b.handle.attached.No?
    && |b.py.chunks| == 0 && b.py.buffered == 0
  }

  predicate ClockInv(b: B) {
    && (b.py.timer.Yes? ==> b.py.config.deadline.Yes?)
    && if b.py.closed.No? then ClockOk(b.py) else LetGo(b)
  }

  lemma ClockApply(py: Py, e: Event)
    requires ClockOk(py) && (py.timer.Yes? ==> py.config.deadline.Yes?)
    ensures ClockOk(Apply(py, e))
    ensures Apply(py, e).timer.Yes? ==> Apply(py, e).config.deadline.Yes?
  {
  }

  lemma {:induction false} ClockApplyAll(py: Py, events: seq<Event>)
    requires ClockOk(py) && (py.timer.Yes? ==> py.config.deadline.Yes?) && py.closed.No?
    ensures ClockOk(ApplyAll(py, events))
    ensures ApplyAll(py, events).timer.Yes? ==> ApplyAll(py, events).config.deadline.Yes?
    decreases |events|
  {
    if events != [] {
      ClockApply(py, events[0]);
      ApplyFacts(py, events[0]);
      ClockApplyAll(Apply(py, events[0]), events[1..]);
    }
  }

  lemma ClockHead(b: B)
    requires ClockInv(b) && b.py.closed.No?
    ensures ClockInv(RunHeadConsumer(b))
  {
  }

  lemma ClockChunk(b: B)
    requires ClockInv(b) && b.py.closed.No?
    ensures ClockInv(RunChunkConsumer(b))
  {
  }

  lemma ClockConsumer(b: B)
    requires SleepInv(b) && ClockInv(b) && BEnabled(b, ConsumerStep)
    ensures ClockInv(RunConsumer(b))
  {
    if b.consumer.AwaitingHead? || b.consumer.SleepingHead? { ClockHead(b); } else { ClockChunk(b); }
  }

  lemma ClockProcess(b: B)
    requires HandleInv(b) && ClockInv(b) && b.poll.PollEnd?
    ensures ClockInv(RunProcess(b))
  {
    ClockApplyAll(b.py, b.poll.events);
    ApplyAllFacts(b.py, b.poll.events);
  }

  lemma ClockPoll(b: B, next: B)
    requires HandleInv(b) && ClockInv(b) && !b.poll.NotPolling? && next.py == b.py
    ensures ClockInv(next)
  {
  }

  lemma ClockStep(b: B, a: BAction)
    requires BridgeInv(b) && SleepInv(b) && ClockInv(b) && BEnabled(b, a)
    ensures ClockInv(BStep(b, a))
  {
    match a
    case PollHop => ClockPoll(b, RunPollHop(b));
    case PollHead => ClockPoll(b, RunPollHead(b));
    case PollBody => ClockPoll(b, RunPollBody(b));
    case ProcessBatch => ClockProcess(b);
    case ConsumerStep => ClockConsumer(b);
    case _ =>
  }
}
