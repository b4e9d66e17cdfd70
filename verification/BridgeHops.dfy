/**
 * The redirects on their way from the callbacks through the Rust queue and the
 * event batch to the _AsyncState.
 */
module BridgeHops {
  import opened Prelude
  import opened RequestQueue
  import opened Pipeline
  import opened PipelineHops
  import PipelineTheorems
  import PipelineTrace
  import opened AsyncState
  import opened Bridge
  import opened BridgeWake
  import opened BridgeData

  lemma {:induction false} EventHopsAppend(events: seq<Event>, e: Event)
    ensures EventHops(events + [e])
            == EventHops(events) + if e.RedirectEvent? then [e.hop] else []
  {
    if events != [] {
      assert (events + [e])[1..] == events[1..] + [e];
      EventHopsAppend(events[1..], e);
    }
  }

  predicate NoHeads(events: seq<Event>) {
    forall i :: 0 <= i < |events| ==> !events[i].ResponseEvent?
  }

  /** Processed, polled and queued redirects are those received, in order. */
  predicate HopOrder(b: B) {
    b.hops + EventHops(PollEvents(b.poll)) + b.p.q.redirects == HopsOf(b.p.h.trace)
  }

  /** The head of a redirect that is not followed. */
  function HeadOf(hop: Hop): Head { Head(hop.status, hop.headers) }

  /** What the _AsyncState keeps of the redirects it processed. */
  predicate HopFields(py: Py, hops: seq<Hop>, responded: Flag) {
    && (py.config.follow ==> py.hops == hops)
    && (!py.config.follow && responded.No? && hops != [] ==> py.head == HeadOf(hops[|hops| - 1]))
  }

  predicate HopsInv(b: B) {
    && HopOrder(b)
    && (b.p.h.responded.No? ==> NoHeads(PollEvents(b.poll)))
    && HopFields(b.py, b.hops, b.p.h.responded)
  }

  /** Nothing else touches what HopsInv is about; a response only weakens it. */
  lemma HopsFrame(b: B, next: B)
    requires HopsInv(b)
    requires next.hops == b.hops && PollEvents(next.poll) == PollEvents(b.poll)
    requires next.p.q.redirects == b.p.q.redirects && next.p.h.trace == b.p.h.trace
    requires next.py.config == b.py.config
    requires next.py.hops == b.py.hops && next.py.head == b.py.head
    requires b.p.h.responded.Yes? ==> next.p.h.responded.Yes?
    ensures HopsInv(next)
  {
  }

  lemma HopsCore(b: B, a: Action)
    requires HopsInv(b) && BEnabled(b, CoreStep(a))
    ensures HopsInv(BStep(b, CoreStep(a)))
  {
    if a == OnRunner(CbRun) {
      var hops, t := b.hops + EventHops(PollEvents(b.poll)), b.p.core.cb[0];
      HopsAppend(b.p.h.trace, t);
      if t.RedirectCb? {
        assert hops + (b.p.q.redirects + [t.hop]) == (hops + b.p.q.redirects) + [t.hop];
      } else {
        assert HopsOf(b.p.h.trace) + [] == HopsOf(b.p.h.trace);
      }
    } else {
      assert Step(b.p, a).h.trace == b.p.h.trace;
      PlainFrame(b.p, a);
      HopsFrame(b, BStep(b, CoreStep(a)));
    }
  }

  lemma HopsHook(b: B)
    requires HopsInv(b) && b.p.cbPc.InHook?
    ensures HopsInv(RunHook(b))
  {
    HopsFrame(b, RunHook(b));
  }

  lemma HopsPollHop(b: B)
    requires HopsInv(b) && b.poll.AtHop?
    ensures HopsInv(RunPollHop(b))
  {
    if b.p.q.redirects == [] {
      HopsFrame(b, RunPollHop(b));
    } else {
      var e, hop, rest := b.poll.events, b.p.q.redirects[0], b.p.q.redirects[1..];
      EventHopsAppend(e, RedirectEvent(hop));
      assert b.hops + (EventHops(e) + [hop]) + rest == b.hops + EventHops(e) + ([hop] + rest);
    }
  }

  /** An event that is no redirect joins the batch. */
  lemma HopsPush(b: B, next: B, e: Event)
    requires HopsInv(b) && !b.poll.NotPolling? && !e.RedirectEvent?
    requires PollEvents(next.poll) == b.poll.events + [e]
    requires next.hops == b.hops && next.py == b.py && next.p.h.responded == b.p.h.responded
    requires next.p.q.redirects == b.p.q.redirects && next.p.h.trace == b.p.h.trace
    requires e.ResponseEvent? ==> b.p.h.responded.Yes?
    ensures HopsInv(next)
  {
    EventHopsAppend(b.poll.events, e);
    assert EventHops(b.poll.events) + [] == EventHops(b.poll.events);
  }

  lemma HopsPollHead(b: B)
    requires Reachable(b.p) && HopsInv(b) && b.poll.AtHead?
    ensures HopsInv(RunPollHead(b))
  {
    var next := RunPollHead(b);
    PipelineTheorems.ReachableAnswer(b.p);
    if PollEvents(next.poll) == PollEvents(b.poll) {
      HopsFrame(b, next);
    } else if TakeResponse(b.p.q).1.value.GotHead? {
      HopsPush(b, next, ResponseEvent(TakeResponse(b.p.q).1.value.head));
    } else {
      HopsPush(b, next, ErrorEvent(TakeResponse(b.p.q).1.value.code));
    }
  }

  lemma HopsPollBody(b: B)
    requires HopsInv(b) && b.poll.AtBody?
    ensures HopsInv(RunPollBody(b))
  {
    var next := RunPollBody(b);
    if PollEvents(next.poll) == PollEvents(b.poll) {
      HopsFrame(b, next);
    } else {
      match Next(b.p.q).1.value
      case Data(chunk) => HopsPush(b, next, BodyEvent(chunk));
      case End => HopsPush(b, next, DoneEvent);
      case Error(code) => HopsPush(b, next, ErrorEvent(code));
    }
  }

  /** One event records its redirect, if it is one. */
  lemma EventHopsOk(py: Py, hops: seq<Hop>, responded: Flag, e: Event)
    requires HopFields(py, hops, responded)
    requires responded.No? ==> !e.ResponseEvent?
    ensures e.RedirectEvent? ==> HopFields(Apply(py, e), hops + [e.hop], responded)
    ensures !e.RedirectEvent? ==> HopFields(Apply(py, e), hops, responded)
  {
  }

  lemma HopsSplit(hops: seq<Hop>, events: seq<Event>)
    requires events != []
    ensures events[0].RedirectEvent? ==>
      (hops + [events[0].hop]) + EventHops(events[1..]) == hops + EventHops(events)
    ensures !events[0].RedirectEvent? ==> EventHops(events[1..]) == EventHops(events)
  {
  }

  /** A batch records its redirects. */
  lemma {:induction false} BatchHops(py: Py, hops: seq<Hop>, responded: Flag, events: seq<Event>)
    requires HopFields(py, hops, responded) && py.closed.No?
    requires responded.No? ==> NoHeads(events)
    ensures HopFields(ApplyAll(py, events), hops + EventHops(events), responded)
    decreases |events|
  {
    if events == [] {
      assert hops + [] == hops;
    } else {
      var e := events[0];
      ApplyFacts(py, e);
      EventHopsOk(py, hops, responded, e);
      HopsSplit(hops, events);
      BatchHops(Apply(py, e), if e.RedirectEvent? then hops + [e.hop] else hops, responded, events[1..]);
    }
  }

  lemma HopsProcess(b: B)
    requires HandleInv(b) && HopsInv(b) && b.poll.PollEnd?
    ensures HopsInv(RunProcess(b))
  {
    var e := b.poll.events;
    BatchHops(b.py, b.hops, b.p.h.responded, e);
    assert (b.hops + EventHops(e)) + [] + b.p.q.redirects == b.hops + EventHops(e) + b.p.q.redirects;
  }

  lemma HopsConsumer(b: B)
    requires HopsInv(b)
    ensures HopsInv(RunConsumer(b))
  {
    if b.consumer.AwaitingHead? || b.consumer.SleepingHead? {
      HopsFrame(b, RunHeadConsumer(b));
    } else {
      HopsFrame(b, RunChunkConsumer(b));
    }
  }

  lemma HopsStep(b: B, a: BAction)
    requires Reachable(b.p) && BridgeInv(b) && HopsInv(b) && BEnabled(b, a)
    ensures HopsInv(BStep(b, a))
  {
    match a
    case CoreStep(x) => HopsCore(b, x);
    case HookClone => HopsHook(b);
    case HookSwap => HopsHook(b);
    case HookPost => HopsHook(b);
    case PollHop => HopsPollHop(b);
    case PollHead => HopsPollHead(b);
    case PollBody => HopsPollBody(b);
    case ProcessBatch => HopsProcess(b);
    case ConsumerStep => HopsConsumer(b);
    case _ => HopsFrame(b, BStep(b, a));
  }

  // ---- none is left behind ------------------------------------------------------------------

  /** After the response no redirect comes, so the reader of the body finds none. */
  predicate QuietInv(b: B) {
    && (b.handle.stream.Yes? ==> HasResponse(b.p.h.trace))
    && (b.handle.stream.Yes? && (b.poll.AtHead? || b.poll.AtBody?) ==> |b.p.q.redirects| == 0)
    && (b.ended == Some(Finished) ==> |b.p.q.redirects| == 0)
  }

  /** Any other step. */
  lemma QuietFrame(b: B, next: B)
    requires QuietInv(b)
    requires next.p.q.redirects == b.p.q.redirects && next.p.h.trace == b.p.h.trace
    requires next.handle.stream == b.handle.stream && next.ended == b.ended
    requires next.poll.AtHead? || next.poll.AtBody? ==> b.poll.AtHead? || b.poll.AtBody?
    ensures QuietInv(next)
  {
  }

  /** No redirect is received after the response. */
  lemma NoLateHop(s: State)
    requires Reachable(s) && CallbackEnabled(s, CbRun) && s.core.cb[0].RedirectCb?
    ensures !HasResponse(s.h.trace) && s.q.terminal.None?
  {
    PipelineTheorems.ReachableTrace(s);
    PipelineTrace.TraceReceive(s);
    PipelineTrace.ScanIffOrderly(s.h.trace);
    PipelineTrace.ScanAppend(s.h.trace, s.core.cb[0]);
    if s.q.terminal.Some? { PipelineTheorems.TerminalIsLast(s); }
  }

  lemma QuietCore(b: B, a: Action)
    requires Reachable(b.p) && EndInv(b) && QuietInv(b) && BEnabled(b, CoreStep(a))
    ensures QuietInv(BStep(b, CoreStep(a)))
  {
    if a == OnRunner(CbRun) {
      HopsAppend(b.p.h.trace, b.p.core.cb[0]);
      if b.p.core.cb[0].RedirectCb? { NoLateHop(b.p); }
    } else {
      assert Step(b.p, a).h.trace == b.p.h.trace;
      PlainFrame(b.p, a);
      QuietFrame(b, BStep(b, CoreStep(a)));
    }
  }

  lemma QuietPollHead(b: B)
    requires Reachable(b.p) && EndInv(b) && QuietInv(b) && b.poll.AtHead?
    ensures QuietInv(RunPollHead(b))
  {
    if b.p.q.response.Some? { PipelineTheorems.HeadReceived(b.p); }
  }

  lemma QuietPollBody(b: B)
    requires QuietInv(b) && b.poll.AtBody?
    ensures QuietInv(RunPollBody(b))
  {
  }

  lemma QuietHook(b: B)
    requires QuietInv(b) && b.p.cbPc.InHook?
    ensures QuietInv(RunHook(b))
  {
    QuietFrame(b, RunHook(b));
  }

  lemma QuietConsumer(b: B)
    requires QuietInv(b) && BEnabled(b, ConsumerStep)
    ensures QuietInv(RunConsumer(b))
  {
    if b.consumer.AwaitingHead? || b.consumer.SleepingHead? {
      QuietFrame(b, RunHeadConsumer(b));
    } else {
      QuietFrame(b, RunChunkConsumer(b));
    }
  }

  lemma QuietStep(b: B, a: BAction)
    requires Reachable(b.p) && EndInv(b) && QuietInv(b) && BEnabled(b, a)
    ensures QuietInv(BStep(b, a))
  {
    match a
    case CoreStep(x) => QuietCore(b, x);
    case HookClone => QuietHook(b);
    case HookSwap => QuietHook(b);
    case HookPost => QuietHook(b);
    case PollHop =>
    case PollHead => QuietPollHead(b);
    case PollBody => QuietPollBody(b);
    case ProcessBatch => QuietFrame(b, RunProcess(b));
    case ConsumerStep => QuietConsumer(b);
    case _ => QuietFrame(b, BStep(b, a));
  }
}
