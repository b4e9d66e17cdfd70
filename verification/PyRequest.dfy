/**
 * bindings/python/src/lib.rs: PyRequest as an object, its polls run without
 * interference, and the proof that they are the poll steps of module Bridge.
 */
module PyRequest {
  import opened Prelude
  import opened RequestQueue
  import opened AsyncState
  import opened Pipeline
  import opened Bridge

  /** What one poll leaves behind: queue, handle, event, and resume_read calls made. */
  datatype Polled = Polled(q: Queue, h: Handle, event: Option<Event>, resumes: nat)

  function Ended(q: Queue, h: Handle, e: Event, resumes: nat): Polled {
    if h.done.Yes? then Polled(q, h, None, resumes)
    else Polled(q, Detach(h).(done := Yes), Some(e), resumes)
  }

  function PollHeadOnce(q: Queue, h: Handle): Option<Polled> {
    if h.future.No? then None
    else
      match TakeResponse(q).1
      case None => None
      case Some(GotHead(head)) =>
        Some(Polled(TakeResponse(q).0, h.(future := No, stream := Yes), Some(ResponseEvent(head)), 0))
      case Some(HeadFailed(code)) =>
        Some(Ended(TakeResponse(q).0, h.(future := No), ErrorEvent(code), 0))
  }

  function PollBodyOnce(q: Queue, h: Handle): Polled {
    if h.stream.No? then Polled(q, h, None, 0)
    else
      var (next, item) := Next(q);
      var resumes := if NextResumes(q) then 1 else 0;
      match item
      case None => Polled(q, h, None, 0)
      case Some(Data(chunk)) => Polled(next, h, Some(BodyEvent(chunk)), resumes)
      case Some(End) => Ended(next, h, DoneEvent, resumes)
      case Some(Error(code)) => Ended(next, h, ErrorEvent(code), resumes)
  }

  /** poll_one. */
  function PollOne(q: Queue, h: Handle): Polled {
    if q.redirects != [] then
      Polled(TakeRedirect(q).0, h, Some(RedirectEvent(q.redirects[0])), 0)
    else
      match PollHeadOnce(q, h)
      case Some(polled) => polled
      case None => PollBodyOnce(q, h)
  }

  /** The loop of poll_events with `limit` events to go. */
  function PollAll(q: Queue, h: Handle, limit: nat): (Queue, Handle, seq<Event>, nat)
    decreases limit
  {
    if limit == 0 then (q, h, [], 0)
    else
      var one := PollOne(q, h);
      if one.event.None? then (one.q, one.h, [], one.resumes)
      else if Terminal(one.event.value) then (one.q, one.h, [one.event.value], one.resumes)
      else
        var (q', h', events, resumes) := PollAll(one.q, one.h, limit - 1);
        (q', h', [one.event.value] + events, one.resumes + resumes)
  }

  /** What a loop of polls adds to the events and resumes it already has. */
  predicate Continues(whole: (Queue, Handle, seq<Event>, nat), events: seq<Event>, resumes: nat,
                      rest: (Queue, Handle, seq<Event>, nat)) {
    && whole.0 == rest.0 && whole.1 == rest.1
    && whole.2 == events + rest.2 && whole.3 == resumes + rest.3
  }

  /** `whole` is what is left to poll from (q, h) on top of what is already there. */
  predicate Ahead(whole: (Queue, Handle, seq<Event>, nat), events: seq<Event>, resumes: nat,
                  q: Queue, h: Handle, limit: nat) {
    Continues(whole, events, resumes, PollAll(q, h, limit))
  }

  lemma AheadAtStart(q: Queue, h: Handle, limit: nat)
    ensures Ahead(PollAll(q, h, limit), [], 0, q, h, limit)
  {
    assert [] + PollAll(q, h, limit).2 == PollAll(q, h, limit).2;
  }

  lemma AheadAtEnd(whole: (Queue, Handle, seq<Event>, nat), events: seq<Event>, resumes: nat,
                   q: Queue, h: Handle)
    requires Ahead(whole, events, resumes, q, h, 0)
    ensures whole == (q, h, events, resumes)
  {
    assert events + [] == events;
  }

  /** One poll more, whose outcome is `one`. */
  lemma AheadStep(whole: (Queue, Handle, seq<Event>, nat), events: seq<Event>, resumes: nat,
                  q: Queue, h: Handle, limit: nat, one: Polled)
    requires limit > 0 && Ahead(whole, events, resumes, q, h, limit) && one == PollOne(q, h)
    ensures if one.event.None? then whole == (one.q, one.h, events, resumes + one.resumes)
      else if Terminal(one.event.value) then
        whole == (one.q, one.h, events + [one.event.value], resumes + one.resumes)
      else
        Ahead(whole, events + [one.event.value], resumes + one.resumes, one.q, one.h, limit - 1)
  {
    assert events + [] == events;
    if one.event.Some? && !Terminal(one.event.value) {
      var rest := PollAll(one.q, one.h, limit - 1).2;
      assert (events + [one.event.value]) + rest == events + ([one.event.value] + rest);
    }
  }

  class Request {
    const inner: RequestShared
    var attached: Flag
    var future: Flag
    var stream: Flag
    var done: Flag
    var scheduled: Flag

    function View(): Handle
      reads this
    {
      Handle(attached, future, stream, done, scheduled)
    }

    constructor (inner: RequestShared)
      ensures this.inner == inner && View() == Handle(No, No, No, No, No)
    {
      this.inner := inner;
      attached, future, stream, done, scheduled := No, No, No, No, No;
    }

    /** start_async; `started` is what Request::start answers. */
    method StartAsync(started: bool) returns (ok: bool)
      modifies this
      ensures ok == started
      ensures View() == old(View()).(attached := Yes, future := if started then Yes else old(future))
    {
      attached := Yes;
      if !started {
        return false;
      }
      future := Yes;
      return true;
    }

    /** The installed hook; true means it calls call_soon_threadsafe. */
    method EventHook() returns (posts: bool)
      modifies this
      ensures posts == old(scheduled).No? && View() == old(View()).(scheduled := Yes)
    {
      posts := scheduled.No?;
      scheduled := Yes;
    }

    method Finish()
      modifies this
      ensures View() == Detach(old(View()))
    {
      attached := No;
      future := No;
    }

    /** A terminal event, unless one was reported before. */
    method Report(e: Event) returns (event: Option<Event>)
      modifies this
      ensures View() == Ended(inner.View(), old(View()), e, 0).h
      ensures event == Ended(inner.View(), old(View()), e, 0).event
    {
      var before := done;
      done := Yes;
      if before.Yes? {
        return None;
      }
      Finish();
      return Some(e);
    }

    method PollBody() returns (event: Option<Event>, resumes: nat)
      modifies this, inner
      ensures Polled(inner.View(), View(), event, resumes)
              == PollBodyOnce(old(inner.View()), old(View()))
    {
      event, resumes := None, 0;
      if stream.No? {
        return;
      }
      var item, resume := inner.TryNext();
      resumes := if resume then 1 else 0;
      match item {
        case None =>
        case Some(Data(chunk)) => event := Some(BodyEvent(chunk));
        case Some(End) => event := Report(DoneEvent);
        case Some(Error(code)) => event := Report(ErrorEvent(code));
      }
    }

    method DoPollOne() returns (event: Option<Event>, resumes: nat)
      modifies this, inner
      ensures Polled(inner.View(), View(), event, resumes) == PollOne(old(inner.View()), old(View()))
    {
      var hop := inner.TryTakeRedirect();
      if hop.Some? {
        return Some(RedirectEvent(hop.value)), 0;
      }
      var response := None;
      if future.Yes? {
        response := inner.TryTakeResponse();
      }
      match response {
        case Some(GotHead(head)) =>
          future := No;
          stream := Yes;
          return Some(ResponseEvent(head)), 0;
        case Some(HeadFailed(code)) =>
          future := No;
          event := Report(ErrorEvent(code));
          return event, 0;
        case None => event, resumes := PollBody();
      }
    }

    /** The loop of poll_events. */
    method Drain(n: nat) returns (events: seq<Event>, resumes: nat)
      modifies this, inner
      ensures (inner.View(), View(), events, resumes) == PollAll(old(inner.View()), old(View()), n)
    {
      events, resumes := [], 0;
      ghost var whole := PollAll(inner.View(), View(), n);
      AheadAtStart(inner.View(), View(), n);
      var over := false;
      while !over && |events| < n
        invariant |events| <= n
        invariant !over ==> Ahead(whole, events, resumes, inner.View(), View(), n - |events|)
        invariant over ==> whole == (inner.View(), View(), events, resumes)
        decreases !over, n - |events|
      {
        ghost var q, h := inner.View(), View();
        var event, more := DoPollOne();
        ghost var one := Polled(inner.View(), View(), event, more);
        ghost var left := n - |events|;
        AheadStep(whole, events, resumes, q, h, left, one);
        resumes := resumes + more;
        over := event.None?;
        if event.Some? {
          events := events + [event.value];
          over := event.value.DoneEvent? || event.value.ErrorEvent?;
        }
        assert !over ==> Ahead(whole, events, resumes, one.q, one.h, left - 1);
      }
      if !over {
        AheadAtEnd(whole, events, resumes, inner.View(), View());
      }
    }

    method PollEvents(limit: nat) returns (events: seq<Event>, resumes: nat)
      modifies this, inner
      ensures (inner.View(), View(), events, resumes) ==
        PollAll(old(inner.View()), old(View()).(scheduled := No), if limit < 1 then 1 else limit)
    {
      scheduled := No;
      events, resumes := Drain(if limit < 1 then 1 else limit);
    }

    /** cancel and detach_callback; the request's own cancel is another object's. */
    method Cancel()
      modifies this
      ensures View() == Detach(old(View()))
    {
      Finish();
    }
  }

  // ---- the machine's poll steps ---------------------------------------------------------

  /** The poll steps of the machine one after another, nothing else in between. */
  function PollRun(b: B): B
    requires !b.poll.NotPolling?
    requires b.poll.PollEnd? || |b.poll.events| < ASYNC_POLL_BATCH
    decreases
      ASYNC_POLL_BATCH - |b.poll.events|,
      if b.poll.AtHop? then 3 else if b.poll.AtHead? then 2 else if b.poll.AtBody? then 1 else 0
  {
    match b.poll
    case AtHop(_) => PollRun(RunPollHop(b))
    case AtHead(_) => PollRun(RunPollHead(b))
    case AtBody(_) => PollRun(RunPollBody(b))
    case PollEnd(_) => b
  }

  /** One poll_one of the machine. */
  function OnePoll(b: B): B
    requires b.poll.AtHop?
  {
    var hop := RunPollHop(b);
    if !hop.poll.AtHead? then hop
    else
      var head := RunPollHead(hop);
      if head.poll.AtBody? then RunPollBody(head) else head
  }

  lemma HeadStepIs(b: B)
    requires b.poll.AtHead?
    ensures var next, polled := RunPollHead(b), PollHeadOnce(b.p.q, b.handle);
      if polled.None? then next == b.(poll := AtBody(b.poll.events))
      else
        && next.p.q == polled.value.q && next.handle == polled.value.h
        && next.p.h.clears == b.p.h.clears + polled.value.resumes
        && next.poll == if polled.value.event.None? then PollEnd(b.poll.events)
                        else Push(b.poll.events, polled.value.event.value)
  {
  }

  predicate BodyStepAgrees(b: B, next: B, polled: Polled)
    requires b.poll.AtBody?
  {
    && next.p.q == polled.q && next.handle == polled.h
    && next.p.h.clears == b.p.h.clears + polled.resumes
    && next.poll == if polled.event.None? then PollEnd(b.poll.events)
                    else Push(b.poll.events, polled.event.value)
  }

  lemma DataStepIs(b: B)
    requires b.poll.AtBody? && b.p.q.body != []
    ensures BodyStepAgrees(b, RunPollBody(b), PollBodyOnce(b.p.q, b.handle))
  {
  }

  lemma EndStepIs(b: B)
    requires b.poll.AtBody? && b.p.q.body == []
    ensures BodyStepAgrees(b, RunPollBody(b), PollBodyOnce(b.p.q, b.handle))
  {
  }

  lemma BodyStepIs(b: B)
    requires b.poll.AtBody?
    ensures BodyStepAgrees(b, RunPollBody(b), PollBodyOnce(b.p.q, b.handle))
  {
    if b.p.q.body != [] { DataStepIs(b); } else { EndStepIs(b); }
  }

  /** The machine's three lock regions are poll_one. */
  lemma OnePollIs(b: B)
    requires b.poll.AtHop?
    ensures var next, polled := OnePoll(b), PollOne(b.p.q, b.handle);
      && next.p.q == polled.q && next.handle == polled.h
      && next.p.h.clears == b.p.h.clears + polled.resumes
      && next.poll == if polled.event.None? then PollEnd(b.poll.events)
                      else Push(b.poll.events, polled.event.value)
  {
    var hop := RunPollHop(b);
    if hop.poll.AtHead? {
      HeadStepIs(hop);
      if RunPollHead(hop).poll.AtBody? { BodyStepIs(RunPollHead(hop)); }
    }
  }

  lemma RunFromHead(b: B)
    requires b.poll.AtHead? && |b.poll.events| < ASYNC_POLL_BATCH
    ensures PollRun(b) == PollRun(RunPollHead(b))
  {
  }

  lemma RunFromBody(b: B)
    requires b.poll.AtBody? && |b.poll.events| < ASYNC_POLL_BATCH
    ensures PollRun(b) == PollRun(RunPollBody(b))
  {
  }

  lemma PollRunStep(b: B)
    requires b.poll.AtHop? && |b.poll.events| < ASYNC_POLL_BATCH
    ensures PollRun(b) == PollRun(OnePoll(b))
  {
    var hop := RunPollHop(b);
    assert PollRun(b) == PollRun(hop);
    if hop.poll.AtHead? {
      RunFromHead(hop);
      if RunPollHead(hop).poll.AtBody? { RunFromBody(RunPollHead(hop)); }
    }
  }

  /**
   * Without interference the machine's polling is poll_events: the same events,
   * queue, handle and resume calls.
   */
  lemma {:induction false} PollRunIsPollEvents(b: B)
    requires b.poll.AtHop? && |b.poll.events| < ASYNC_POLL_BATCH
    ensures var next := PollRun(b);
      var (q, h, events, resumes) := PollAll(b.p.q, b.handle, ASYNC_POLL_BATCH - |b.poll.events|);
      && next.p.q == q && next.handle == h && next.poll == PollEnd(b.poll.events + events)
      && next.p.h.clears == b.p.h.clears + resumes
    decreases ASYNC_POLL_BATCH - |b.poll.events|
  {
    var one, next := PollOne(b.p.q, b.handle), OnePoll(b);
    OnePollIs(b);
    PollRunStep(b);
    assert b.poll.events + [] == b.poll.events;
    if next.poll.AtHop? {
      PollRunIsPollEvents(next);
      var rest := PollAll(one.q, one.h, ASYNC_POLL_BATCH - |next.poll.events|).2;
      assert next.poll.events + rest == b.poll.events + ([one.event.value] + rest);
    }
  }
}
