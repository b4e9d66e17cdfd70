/**
 * crates/minicronet/src/websocket.rs: the bounded event queue between the
 * Core's callback runner and the consumer. It fails closed: an event that does
 * not fit replaces everything queued by one failure.
 */
module WebSocketQueue {
  import opened Prelude

  const BUFFER_LIMIT: nat := 4 * 1024 * 1024
  const COUNT_LIMIT: nat := 1024
  const USIZE_MAX: nat := 0xFFFF_FFFF_FFFF_FFFF

  datatype MessageType = Text | Binary | Continuation

  datatype Error = BufferLimit | CallbackPanic | Native(code: int)

  datatype Event =
    | Opened(protocol: Chunk, extensions: Chunk)
    | Message(messageType: MessageType, final: bool, data: Chunk)
    | Closing
    | Closed(clean: bool, code: nat, reason: Chunk)
    | Failure(error: Error, netError: int, responseCode: int, message: Chunk)

  /** Only the lengths of the two fixed messages matter; `Filler` stands for their text. */
  function Filler(n: nat): Chunk { seq(n, _ => 0) }

  const Overflow := Failure(BufferLimit, 0, 0, Filler(37))
  const Panicked := Failure(CallbackPanic, 0, -1, Filler(22))

  function SaturatingAdd(a: nat, b: nat): nat {
    if a + b > USIZE_MAX then USIZE_MAX else a + b
  }

  function SaturatingSub(a: nat, b: nat): nat {
    if a < b then 0 else a - b
  }

  function EventSize(e: Event): nat {
    match e
    case Message(_, _, data) => |data|
    case Opened(protocol, extensions) => SaturatingAdd(|protocol|, |extensions|)
    case Closed(_, _, reason) => |reason|
    case Failure(_, _, _, message) => |message|
    case Closing => 0
  }

  function Sizes(events: seq<Event>): nat {
    if events == [] then 0 else EventSize(events[0]) + Sizes(events[1..])
  }

  datatype Queue = Queue(events: seq<Event>, bytes: nat, terminal: Flag)

  /** push refuses an event for want of room. */
  predicate Refused(q: Queue, e: Event) {
    |q.events| >= COUNT_LIMIT || SaturatingAdd(q.bytes, EventSize(e)) > BUFFER_LIMIT
  }

  function Push(q: Queue, e: Event, terminal: bool): Queue {
    if q.terminal.Yes? then q
    else if Refused(q, e) then Queue([Overflow], 0, Yes)
    else q.(events := q.events + [e],
            bytes := SaturatingAdd(q.bytes, EventSize(e)),
            terminal := if terminal then Yes else No)
  }

  function Panic(q: Queue): Queue {
    if q.terminal.Yes? then q
    else q.(events := q.events + [Panicked], terminal := Yes)
  }

  datatype Poll = Ready(event: Option<Event>) | Pending

  /** poll_next, and blocking_next where it does not wait. */
  function PollNext(q: Queue): (Queue, Poll) {
    if q.events != [] then
      (q.(events := q.events[1..], bytes := SaturatingSub(q.bytes, EventSize(q.events[0]))),
       Ready(Some(q.events[0])))
    else (q, if q.terminal.Yes? then Ready(None) else Pending)
  }

  class WebSocketShared {
    var events: seq<Event>
    var eventBytes: nat
    var terminal: bool

    function View(): Queue
      reads this
    {
      Queue(events, eventBytes, ToFlag(terminal))
    }

    constructor ()
      ensures View() == Queue([], 0, No)
    {
      events, eventBytes, terminal := [], 0, false;
    }

    method DoPush(event: Event, final: bool)
      modifies this
      ensures View() == Push(old(View()), event, final)
    {
      if terminal {
        return;
      }
      var size := EventSize(event);
      if |events| >= COUNT_LIMIT || SaturatingAdd(eventBytes, size) > BUFFER_LIMIT {
        events := [];
        eventBytes := 0;
        events := events + [Overflow];
        terminal := true;
        return;
      }
      eventBytes := SaturatingAdd(eventBytes, size);
      events := events + [event];
      terminal := terminal || final;
    }

    method CallbackPanicked()
      modifies this
      ensures View() == Panic(old(View()))
    {
      if !terminal {
        events := events + [Panicked];
        terminal := true;
      }
    }

    method TryNext() returns (event: Option<Event>)
      modifies this
      ensures View() == PollNext(old(View())).0
      ensures event == if old(events) == [] then None else PollNext(old(View())).1.event
    {
      if events == [] {
        return None;
      }
      event := Some(events[0]);
      eventBytes := SaturatingSub(eventBytes, EventSize(events[0]));
      events := events[1..];
    }
  }

  // ---- runs ---------------------------------------------------------------------------

  /** One lock region of a callback or of the consumer. */
  datatype Op = Offer(event: Event) | PanicOp | PollOp

  /** The callbacks pass `terminal` exactly for on_closed and on_failure. */
  predicate Ends(e: Event) { e.Closed? || e.Failure? }

  /**
   * A run's state: `offered` are the events of all callbacks so far, `popped`
   * what the consumer got; `kept` of the offered events went through the queue
   * before it ended with `last`.
   */
  datatype State = State(
    q: Queue,
    offered: seq<Event>,
    popped: seq<Event>,
    kept: nat,
    last: Option<Event>,
    panics: nat)

  const Init := State(Queue([], 0, No), [], [], 0, None, 0)

  function Step(s: State, op: Op): State {
    match op
    case Offer(e) =>
      var fits := s.q.terminal.No? && !Refused(s.q, e);
      s.(q := Push(s.q, e, Ends(e)),
         offered := s.offered + [e],
         kept := if s.q.terminal.Yes? then s.kept
                 else if !fits then |s.popped|
                 else if Ends(e) then s.kept else s.kept + 1,
         last := if s.q.terminal.Yes? then s.last
                 else if !fits then Some(Overflow)
                 else if Ends(e) then Some(e) else None)
    case PanicOp =>
      s.(q := Panic(s.q),
         last := if s.q.terminal.Yes? then s.last else Some(Panicked),
         panics := s.panics + 1)
    case PollOp =>
      var (q, poll) := PollNext(s.q);
      s.(q := q,
         popped := if poll.Ready? && poll.event.Some? then s.popped + [poll.event.value]
                   else s.popped)
  }

  function Run(s: State, ops: seq<Op>): State
    decreases |ops|
  {
    if ops == [] then s else Run(Step(s, ops[0]), ops[1..])
  }

  predicate NoneEnds(events: seq<Event>) {
    forall i :: 0 <= i < |events| ==> !Ends(events[i])
  }

  /** Everything the consumer has got or will get from the queue as it stands. */
  function Stream(s: State): seq<Event> { s.popped + s.q.events }

  predicate OpenInv(s: State) {
    && s.last.None?
    && s.q.bytes == Sizes(s.q.events) <= BUFFER_LIMIT
    && |s.q.events| <= COUNT_LIMIT
    && Stream(s) == s.offered && NoneEnds(s.offered)
    && s.kept == |s.offered|
  }

  predicate EndedInv(s: State) {
    && s.last.Some? && Ends(s.last.value)
    && s.kept <= |s.offered| && NoneEnds(s.offered[..s.kept])
    && Stream(s) == s.offered[..s.kept] + [s.last.value]
    && (s.last.value == Overflow
        || (s.last.value == Panicked && s.panics > 0)
        || (s.kept < |s.offered| && s.last.value == s.offered[s.kept]))
  }

  predicate Inv(s: State) {
    if s.q.terminal.No? then OpenInv(s) else EndedInv(s)
  }

  lemma {:induction false} SizesAppend(events: seq<Event>, e: Event)
    ensures Sizes(events + [e]) == Sizes(events) + EventSize(e)
  {
    if events != [] {
      assert (events + [e])[1..] == events[1..] + [e];
      SizesAppend(events[1..], e);
    }
  }

  lemma OfferStep(s: State, e: Event)
    requires Inv(s)
    ensures Inv(Step(s, Offer(e)))
  {
    var next := Step(s, Offer(e));
    if s.q.terminal.Yes? {
      assert next.offered[..s.kept] == s.offered[..s.kept];
    } else if Refused(s.q, e) {
      assert next.offered[..|s.popped|] == s.popped;
      assert forall i :: 0 <= i < |s.popped| ==> s.popped[i] == s.offered[i];
    } else {
      SizesAppend(s.q.events, e);
      assert s.popped + (s.q.events + [e]) == (s.popped + s.q.events) + [e];
      assert next.offered[..|s.offered|] == s.offered;
    }
  }

  lemma PollStep(s: State)
    requires Inv(s)
    ensures Inv(Step(s, PollOp))
  {
    if s.q.events != [] {
      assert (s.popped + [s.q.events[0]]) + s.q.events[1..] == s.popped + s.q.events;
    }
  }

  lemma PanicStep(s: State)
    requires Inv(s)
    ensures Inv(Step(s, PanicOp))
  {
    assert s.popped + (s.q.events + [Panicked]) == (s.popped + s.q.events) + [Panicked];
    assert s.offered[..|s.offered|] == s.offered;
  }

  lemma {:induction false} InvRun(s: State, ops: seq<Op>)
    requires Inv(s)
    ensures Inv(Run(s, ops))
    decreases |ops|
  {
    if ops != [] {
      match ops[0] {
        case Offer(e) => OfferStep(s, e);
        case PanicOp => PanicStep(s);
        case PollOp => PollStep(s);
      }
      InvRun(Step(s, ops[0]), ops[1..]);
    }
  }

  /** While not terminal the queue is exactly counted, within both limits, and loses nothing. */
  lemma Bounded(ops: seq<Op>)
    ensures var s := Run(Init, ops);
      s.q.terminal.No? ==>
        && s.q.bytes == Sizes(s.q.events) <= BUFFER_LIMIT
        && |s.q.events| <= COUNT_LIMIT
        && s.popped + s.q.events == s.offered
  {
    InvRun(Init, ops);
  }

  /** The bytes a callback hands over with an event. */
  function Payload(e: Event): Chunk {
    match e
    case Opened(protocol, extensions) => protocol + extensions
    case Message(_, _, data) => data
    case Closed(_, _, reason) => reason
    case Failure(_, _, _, message) => message
    case Closing => []
  }

  function Payloads(events: seq<Event>): Chunk {
    if events == [] then [] else Payload(events[0]) + Payloads(events[1..])
  }

  /** Up to saturation an event weighs its payload. */
  lemma SizeIsPayload(e: Event)
    ensures EventSize(e) == |Payload(e)| || EventSize(e) == USIZE_MAX < |Payload(e)|
  {
  }

  lemma {:induction false} SizesArePayloads(events: seq<Event>)
    requires Sizes(events) <= BUFFER_LIMIT
    ensures Sizes(events) == |Payloads(events)|
  {
    if events != [] {
      SizeIsPayload(events[0]);
      SizesArePayloads(events[1..]);
    }
  }

  /**
   * Both limits, for every run: while the queue has not ended, an event is kept,
   * behind those offered and not yet taken, exactly if fewer than COUNT_LIMIT of
   * them wait and their payloads together with its own fit into BUFFER_LIMIT.
   * Otherwise nothing of what waited is left but one failure, and that is the end.
   */
  lemma KeptIffRoom(ops: seq<Op>, e: Event)
    requires Run(Init, ops).q.terminal.No?
    ensures var s := Run(Init, ops);
      && |s.popped| <= |s.offered|
      && var waiting := s.offered[|s.popped|..];
      && s.q.events == waiting
      && var after := Step(s, Offer(e)).q;
      if |waiting| < COUNT_LIMIT && |Payloads(waiting)| + |Payload(e)| <= BUFFER_LIMIT
      then after.events == waiting + [e] && (after.terminal.Yes? <==> Ends(e))
      else after.events == [Overflow] && after.terminal.Yes?
  {
    InvRun(Init, ops);
    var s := Run(Init, ops);
    assert s.offered[|s.popped|..] == s.q.events;
    SizesArePayloads(s.q.events);
    SizeIsPayload(e);
  }

  /** A panic in a callback ends an open queue behind what waits in it. */
  lemma PanicEnds(ops: seq<Op>)
    requires Run(Init, ops).q.terminal.No?
    ensures var s := Run(Init, ops);
      && s.popped <= s.offered
      && var after := Step(s, PanicOp).q;
      after.events == s.offered[|s.popped|..] + [Panicked] && after.terminal.Yes?
  {
    InvRun(Init, ops);
    var s := Run(Init, ops);
    assert s.offered[|s.popped|..] == s.q.events;
  }

  predicate PrefixOrCut(all: seq<Event>, offered: seq<Event>, panics: nat) {
    || all <= offered
    || (|all| > 0 && all[..|all| - 1] <= offered
        && (all[|all| - 1] == Overflow || (all[|all| - 1] == Panicked && panics > 0)))
  }

  lemma EndedStream(s: State, all: seq<Event>)
    requires EndedInv(s) && all == Stream(s)
    ensures |all| == s.kept + 1 && Ends(all[s.kept]) && NoneEnds(all[..s.kept])
    ensures PrefixOrCut(all, s.offered, s.panics)
  {
    assert all[..|all| - 1] == s.offered[..s.kept];
    if s.kept < |s.offered| && s.last.value == s.offered[s.kept] {
      assert s.offered[..s.kept + 1] == all;
    }
  }

  /**
   * Failing closed: the consumer's stream is always a prefix of the offered
   * events, or such a prefix followed by one synthetic failure. At most one
   * event of it is terminal, and it is the last.
   */
  lemma FailsClosed(ops: seq<Op>, all: seq<Event>)
    requires all == Stream(Run(Init, ops))
    ensures forall i :: 0 <= i < |all| && Ends(all[i]) ==> i == |all| - 1
    ensures PrefixOrCut(all, Run(Init, ops).offered, Run(Init, ops).panics)
    ensures Run(Init, ops).q.terminal.Yes? <==> |all| > 0 && Ends(all[|all| - 1])
  {
    InvRun(Init, ops);
    var s := Run(Init, ops);
    if s.q.terminal.Yes? {
      EndedStream(s, all);
      assert forall i :: 0 <= i < s.kept ==> all[i] == all[..s.kept][i];
    }
  }

  /** Once the last event was taken the consumer gets None, whatever is still pushed. */
  lemma {:induction false} Exhausted(s: State, ops: seq<Op>)
    requires s.q.terminal.Yes? && s.q.events == []
    ensures Run(s, ops).q == s.q && Run(s, ops).popped == s.popped
    ensures PollNext(Run(s, ops).q).1 == Ready(None)
    decreases |ops|
  {
    if ops != [] { Exhausted(Step(s, ops[0]), ops[1..]); }
  }
}
