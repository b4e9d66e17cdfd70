/**
 * bindings/python/chrome_client/_python_impl/sessions.py: the per-request
 * asyncio bridge and the two body readers.
 */
module AsyncState {
  import opened Prelude
  import opened RequestQueue

  const STREAM_BUFFER_LIMIT: nat := 1024 * 1024
  const ASYNC_POLL_BATCH: nat := 64

  /** What poll_events returns, one entry per polled event. */
  datatype Event =
    | RedirectEvent(hop: Hop)
    | ResponseEvent(head: Head)
    | BodyEvent(chunk: Chunk)
    | DoneEvent
    | ErrorEvent(code: int)

  datatype Failure = TooLarge | TimedOut | Native(code: int)
  datatype Future = Unresolved | Resolved | Rejected(error: Failure) | Cancelled

  datatype AsyncConfig = AsyncConfig(stream: bool, follow: bool, limit: Option<nat>, deadline: Flag)

  /**
   * The fields of _AsyncState; `head` is its status and raw_headers. `notifies` counts the
   * notify callbacks queued on the loop, `detached` records a cancel or detach_callback.
   */
  datatype Py = Py(
    config: AsyncConfig,
    chunks: seq<Chunk>,
    buffered: int,
    total: nat,
    body: Chunk,
    head: Head,
    hops: seq<Hop>,
    done: Flag,
    error: Option<Failure>,
    future: Future,
    wake: Flag,
    timer: Flag,
    closed: Flag,
    throttled: Flag,
    notifies: nat,
    detached: Flag)

  const NO_HEAD := Head(0, [])

  function NewPy(config: AsyncConfig): Py {
    Py(config, [], 0, 0, [], NO_HEAD, [], No, None, Unresolved, No, config.deadline, No, No, 0, No)
  }

  // ---- loop callbacks ---------------------------------------------------------------

  /** wake.set(); there is no wake event unless the body is streamed. */
  function Signalled(py: Py): Flag {
    if py.config.stream then Yes else py.wake
  }

  /** Resolves a future only a non-streaming caller awaits. */
  function Settle(py: Py, result: Future): Future {
    if !py.config.stream && py.future.Unresolved? then result else py.future
  }

  function Fail(py: Py, error: Failure, cancel: bool): Py {
    py.(error := if py.error.None? then Some(error) else py.error,
        done := Yes,
        timer := No,
        detached := if cancel then Yes else py.detached,
        future := Settle(py, Rejected(error)),
        wake := Signalled(py))
  }

  predicate Exceeds(total: nat, limit: Option<nat>) {
    limit.Some? && total > limit.value
  }

  function OnBodyEvent(py: Py, chunk: Chunk): Py {
    var counted := py.(total := py.total + |chunk|);
    if Exceeds(counted.total, py.config.limit) then Fail(counted, TooLarge, true)
    else if py.config.stream then
      counted.(chunks := py.chunks + [chunk], buffered := py.buffered + |chunk|, wake := Yes)
    else counted.(body := py.body + chunk)
  }

  function OnRedirectEvent(py: Py, hop: Hop): Py {
    if py.config.follow then py.(hops := py.hops + [hop])
    else py.(head := Head(hop.status, hop.headers),
             done := Yes,
             timer := No,
             detached := Yes,
             future := if py.future.Unresolved? then Resolved else py.future,
             wake := Signalled(py))
  }

  function OnDoneEvent(py: Py): Py {
    py.(done := Yes, timer := No, future := Settle(py, Resolved), wake := Signalled(py))
  }

  function Apply(py: Py, event: Event): Py {
    match event
    case RedirectEvent(hop) => OnRedirectEvent(py, hop)
    case ResponseEvent(head) => py.(head := head, wake := Signalled(py))
    case BodyEvent(chunk) => OnBodyEvent(py, chunk)
    case DoneEvent => OnDoneEvent(py)
    case ErrorEvent(code) => Fail(py, Native(code), false)
  }

  function ApplyAll(py: Py, events: seq<Event>): Py
    decreases |events|
  {
    if events == [] then py
    else
      var next := Apply(py, events[0]);
      if next.closed.Yes? then next else ApplyAll(next, events[1..])
  }

  /** The body of notify after poll_events returned. */
  function Drained(py: Py, events: seq<Event>): Py {
    var next := ApplyAll(py, events);
    if next.closed.No? && |events| == ASYNC_POLL_BATCH then next.(notifies := next.notifies + 1)
    else next
  }

  /** Whether notify polls: it neither finds the state closed nor throttles. */
  predicate Polls(py: Py) {
    py.closed.No? && !(py.config.stream && py.buffered >= STREAM_BUFFER_LIMIT)
  }

  /** notify up to the poll. */
  function NotifyStarts(py: Py): Py
    requires py.notifies > 0
  {
    py.(notifies := py.notifies - 1,
        throttled := if py.closed.No? && !Polls(py) then Yes else py.throttled)
  }

  function Expire(py: Py): Py {
    Fail(py.(timer := No), TimedOut, true)
  }

  // ---- consumer side ----------------------------------------------------------------

  function ResumePolling(py: Py): Py {
    if py.throttled.Yes? && py.buffered < STREAM_BUFFER_LIMIT then
      py.(throttled := No, notifies := py.notifies + 1)
    else py
  }

  function Finish(py: Py): Py {
    if py.closed.Yes? then py
    else py.(closed := Yes,
             timer := No,
             detached := Yes,
             chunks := [],
             buffered := 0,
             wake := Signalled(py),
             future := if py.future.Unresolved? then Cancelled else py.future)
  }

  /** How one step of a waiting coroutine ends. */
  datatype Pull = Yield(chunk: Chunk) | Raise(error: Failure) | Stop | Sleep | HeadReady

  /** _AsyncBodyReader.__anext__ up to its next suspension; `read` is the reader's own total. */
  function NextChunk(py: Py, read: nat): (Py, Pull) {
    if py.chunks != [] then
      var chunk := py.chunks[0];
      var popped := ResumePolling(
        py.(chunks := py.chunks[1..], buffered := py.buffered - |chunk|));
      if Exceeds(read + |chunk|, py.config.limit) then (Finish(popped), Raise(TooLarge))
      else (popped, Yield(chunk))
    else if py.error.Some? then (Finish(py), Raise(py.error.value))
    else if py.done.Yes? then (Finish(py), Stop)
    else (py.(wake := No), Sleep)
  }

  predicate ErrorIsLazy(py: Py) {
    py.config.stream && py.error == Some(TooLarge)
  }

  /** _await_headers up to its next suspension. */
  function AwaitHead(py: Py): (Py, Pull) {
    if py.error.Some? && !ErrorIsLazy(py) then (Finish(py), Raise(py.error.value))
    else if py.head.status == 0 && py.done.No? then (py.(wake := No), Sleep)
    else (py, HeadReady)
  }

  // ---- what a complete read means -----------------------------------------------------

  datatype Ending = CleanEnd | Raised(error: Failure)

  /**
   * The reference for both readers: the longest prefix of whole chunks within
   * the limit, then ResponseTooLarge exactly when something was left out, else
   * the terminal result.
   */
  function ReadOutcome(body: seq<Chunk>, limit: Option<nat>, terminal: Outcome): (seq<Chunk>, Ending) {
    (FittingPrefix(body, limit),
     if !Fits(body, limit) then Raised(TooLarge)
     else match terminal
          case Finished => CleanEnd
          case Failed(code) => Raised(Native(code)))
  }

  /** _SyncBodyReader.__iter__ run to its end over the chunks next_body returns. */
  class SyncBodyReader {
    const limit: Option<nat>
    var total: nat
    var closed: bool
    var cancelled: bool
    var detached: bool

    constructor (limit: Option<nat>)
      ensures this.limit == limit && total == 0 && !closed && !cancelled && !detached
    {
      this.limit := limit;
      total := 0;
      closed, cancelled, detached := false, false, false;
    }

    /** The first close cancels if asked to, and always drops the event callback. */
    method Close(cancel: bool)
      modifies this
      ensures closed && total == old(total)
      ensures cancelled == (old(cancelled) || (cancel && !old(closed)))
      ensures detached == (old(detached) || !old(closed))
    {
      if closed {
        return;
      }
      closed := true;
      cancelled := cancelled || cancel;
      detached := true;
    }

    method ReadAll(body: seq<Chunk>, terminal: Outcome)
      returns (yielded: seq<Chunk>, ending: Ending)
      requires !closed ==> total == 0 && !cancelled
      modifies this
      ensures old(closed) ==> yielded == [] && ending == CleanEnd && cancelled == old(cancelled)
      ensures !old(closed) ==>
        && (yielded, ending) == ReadOutcome(body, limit, terminal)
        && (cancelled <==> ending == Raised(TooLarge)) && detached
      ensures closed
    {
      yielded := [];
      if closed {
        return [], CleanEnd;
      }
      var i := 0;
      while i < |body|
        invariant 0 <= i <= |body|
        invariant yielded == body[..i] && total == Total(yielded) && Fits(yielded, limit)
        invariant !closed && !cancelled
      {
        var chunk := body[i];
        total := total + |chunk|;
        TotalAppend(yielded, [chunk]);
        TotalOne(chunk);
        if limit.Some? && total > limit.value {
          FittingPrefixIsMaximal(body, limit, i);
          FittingPrefixIsMaximal(body, limit, i + 1);
          assert body[..i + 1] == yielded + [chunk];
          assert body == body[..i + 1] + body[i + 1..];
          TotalAppend(body[..i + 1], body[i + 1..]);
          assert FittingPrefix(body, limit) == body[..|FittingPrefix(body, limit)|];
          Close(true);
          return yielded, Raised(TooLarge);
        }
        yielded := yielded + [chunk];
        i := i + 1;
      }
      assert body[..i] == body;
      Close(false);
      match terminal {
        case Finished => ending := CleanEnd;
        case Failed(code) => ending := Raised(Native(code));
      }
    }
  }

  /** _AsyncState itself; `View` is the record the functions above work on. */
  class AsyncState {
    const config: AsyncConfig
    var chunks: seq<Chunk>
    var buffered: int
    var total: nat
    var body: Chunk
    var head: Head
    var hops: seq<Hop>
    var done: Flag
    var error: Option<Failure>
    var future: Future
    var wake: Flag
    var timer: Flag
    var closed: Flag
    var throttled: Flag
    var notifies: nat
    var detached: Flag

    function View(): Py
      reads this
    {
      Py(config, chunks, buffered, total, body, head, hops, done, error, future, wake, timer,
         closed, throttled, notifies, detached)
    }

    constructor (config: AsyncConfig)
      ensures View() == NewPy(config)
    {
      this.config := config;
      chunks, buffered, total, body, head, hops := [], 0, 0, [], NO_HEAD, [];
      done, error, future, wake, timer := No, None, Unresolved, No, config.deadline;
      closed, throttled, notifies, detached := No, No, 0, No;
    }

    method DoFail(failure: Failure, cancel: bool)
      modifies this
      ensures View() == Fail(old(View()), failure, cancel)
    {
      if error.None? {
        error := Some(failure);
      }
      done := Yes;
      timer := No;
      if cancel {
        detached := Yes;
      }
      if !config.stream && future.Unresolved? {
        future := Rejected(failure);
      }
      if config.stream {
        wake := Yes;
      }
    }

    method DoBody(chunk: Chunk)
      modifies this
      ensures View() == OnBodyEvent(old(View()), chunk)
    {
      total := total + |chunk|;
      if config.limit.Some? && total > config.limit.value {
        DoFail(TooLarge, true);
        return;
      }
      if config.stream {
        chunks := chunks + [chunk];
        buffered := buffered + |chunk|;
        wake := Yes;
      } else {
        body := body + chunk;
      }
    }

    method DoRedirect(hop: Hop)
      modifies this
      ensures View() == OnRedirectEvent(old(View()), hop)
    {
      if config.follow {
        hops := hops + [hop];
        return;
      }
      head := Head(hop.status, hop.headers);
      done := Yes;
      timer := No;
      detached := Yes;
      if future.Unresolved? {
        future := Resolved;
      }
      if config.stream {
        wake := Yes;
      }
    }

    method DoDone()
      modifies this
      ensures View() == OnDoneEvent(old(View()))
    {
      done := Yes;
      timer := No;
      if !config.stream && future.Unresolved? {
        future := Resolved;
      }
      if config.stream {
        wake := Yes;
      }
    }

    /** The loop of notify over one batch, and its re-arming. */
    method Process(events: seq<Event>)
      modifies this
      ensures View() == Drained(old(View()), events)
    {
      var i := 0;
      while i < |events|
        invariant 0 <= i <= |events|
        invariant ApplyAll(old(View()), events) == ApplyAll(View(), events[i..])
      {
        match events[i] {
          case RedirectEvent(hop) => DoRedirect(hop);
          case ResponseEvent(response) =>
            head := response;
            if config.stream {
              wake := Yes;
            }
          case BodyEvent(chunk) => DoBody(chunk);
          case DoneEvent => DoDone();
          case ErrorEvent(code) => DoFail(Native(code), false);
        }
        if closed.Yes? {
          return;
        }
        i := i + 1;
      }
      if |events| == ASYNC_POLL_BATCH && closed.No? {
        notifies := notifies + 1;
      }
    }

    method DoResume()
      modifies this
      ensures View() == ResumePolling(old(View()))
    {
      if throttled.Yes? && buffered < STREAM_BUFFER_LIMIT {
        throttled := No;
        notifies := notifies + 1;
      }
    }

    method DoFinish()
      modifies this
      ensures View() == Finish(old(View()))
    {
      if closed.Yes? {
        return;
      }
      closed := Yes;
      timer := No;
      detached := Yes;
      chunks := [];
      buffered := 0;
      if config.stream {
        wake := Yes;
      }
      if future.Unresolved? {
        future := Cancelled;
      }
    }

    /** __anext__ up to its next suspension point. */
    method Next(read: nat) returns (pull: Pull)
      modifies this
      ensures (View(), pull) == NextChunk(old(View()), read)
    {
      if chunks != [] {
        var chunk := chunks[0];
        chunks := chunks[1..];
        buffered := buffered - |chunk|;
        DoResume();
        if config.limit.Some? && read + |chunk| > config.limit.value {
          DoFinish();
          return Raise(TooLarge);
        }
        return Yield(chunk);
      }
      if error.Some? {
        DoFinish();
        return Raise(error.value);
      }
      if done.Yes? {
        DoFinish();
        return Stop;
      }
      wake := No;
      return Sleep;
    }
  }
}
