/**
 * A run on which the two readers differ: the response, one chunk and the error
 * of the next read reach the loop in one batch, before the coroutine that awaits
 * the head runs again. The caller gets the error and never the chunk.
 */
module BridgeHeadError {
  import opened Prelude
  import opened RequestQueue
  import opened CoreRequest
  import opened Pipeline
  import opened AsyncState
  import opened Bridge

  lemma RunExtends(states: seq<B>, actions: seq<BAction>, a: BAction, next: B)
    requires BRun(states, actions) && Move(states[|actions|], a, next)
    ensures BRun(states + [next], actions + [a])
  {
    var longer, more := states + [next], actions + [a];
    forall i | 0 <= i < |more| ensures Move(longer[i], more[i], longer[i + 1]) {
      if i < |actions| {
        assert more[i] == actions[i];
      }
    }
  }

  /** One more step of a reachable state. */
  lemma Go(b: B, a: BAction) returns (next: B)
    requires BReachable(b) && BEnabled(b, a)
    ensures next == BStep(b, a) && BReachable(next)
  {
    var states, actions :| BRun(states, actions) && states[|actions|] == b;
    next := BStep(b, a);
    RunExtends(states, actions, a, next);
    assert (states + [next])[|actions + [a]|] == next;
  }

  lemma Began(config: Config, async: AsyncConfig) returns (b: B)
    ensures b == BInit(config, async) && BReachable(b)
  {
    b := BInit(config, async);
    assert BRun([b], []);
  }

  const ASYNC := AsyncConfig(true, true, None, No)
  const HEAD := Head(200, [104, 105])
  const BYTE: Chunk := [1]

  /** What the loop has not seen yet: the _AsyncState is as new but for queued notifies. */
  predicate Unseen(b: B, notifies: nat, scheduled: Flag) {
    && b.poll.NotPolling? && b.consumer.AwaitingHead? && b.hook.HookEntered?
    && b.py == NewPy(ASYNC).(notifies := notifies)
    && b.handle == Handle(Yes, Yes, No, No, scheduled)
    && b.yielded == []
  }

  /** A callback whose hook finds a notify already posted. */
  lemma GoCallback(b: B) returns (next: B)
    requires BReachable(b) && b.p.cbPc.CbIdle? && b.p.core.cb != [] && b.hook.HookEntered?
    requires b.handle.attached.Yes? && b.handle.scheduled.Yes?
    ensures BReachable(next)
    ensures next == b.(p := Step(Step(b.p, OnRunner(CbRun)), OnRunner(CbHookDone)))
  {
    var ran := Go(b, CoreStep(OnRunner(CbRun)));
    var cloned := Go(ran, HookClone);
    next := Go(cloned, HookSwap);
  }

  /** A callback whose hook posts the notify. */
  lemma GoFirstCallback(b: B) returns (next: B)
    requires BReachable(b) && b.p.cbPc.CbIdle? && b.p.core.cb != [] && b.hook.HookEntered?
    requires b.handle.attached.Yes? && b.handle.scheduled.No?
    ensures BReachable(next)
    ensures next == b.(p := Step(Step(b.p, OnRunner(CbRun)), OnRunner(CbHookDone)),
                       handle := b.handle.(scheduled := Yes),
                       py := b.py.(notifies := b.py.notifies + 1))
  {
    var ran := Go(b, CoreStep(OnRunner(CbRun)));
    var cloned := Go(ran, HookClone);
    var won := Go(cloned, HookSwap);
    next := Go(won, HookPost);
  }

  /** After a callback that reads on: its ReadMore is posted and runs at once. */
  lemma GoRead(b: B, read: ReadResult) returns (next: B)
    requires BReachable(b) && b.p.cbPc == Finishing(KeepReading) && b.p.core.net == []
    requires ReadOk(read)
    ensures BReachable(next) && next == b.(p := next.p)
    ensures next.p.q == b.p.q && next.p.cbPc.CbIdle?
    ensures next.p.core == ReadMore(b.p.core, read)
    ensures next.p.h.delivered == if NetDelivers(b.p.core, ReadMoreTask, read)
                                  then b.p.h.delivered + [read.chunk] else b.p.h.delivered
  {
    var posted := Go(b, CoreStep(OnRunner(CbPostRead)));
    assert posted.p.core.net[1..] == b.p.core.net;
    next := Go(posted, CoreStep(Net(None, false, read)));
  }

  lemma Connected() returns (b: B)
    ensures BReachable(b) && Unseen(b, 0, No)
    ensures b.p.q == EmptyQueue && b.p.cbPc.CbIdle? && b.p.h.delivered == []
    ensures b.p.core.net == [] && b.p.core.cb == [] && b.p.core.url.Connecting?
    ensures b.p.core.completed.No?
  {
    var began := Began(Config(false, FollowMode), ASYNC);
    assert [StartTask][1..] == [];
    b := Go(began, CoreStep(Net(None, false, Pending)));
  }

  /** The request is started and answered; its response callback is queued. */
  lemma ResponseQueued() returns (b: B)
    ensures BReachable(b) && Unseen(b, 0, No)
    ensures b.p.q == EmptyQueue && b.p.cbPc.CbIdle? && b.p.h.delivered == []
    ensures b.p.core.net == [] && b.p.core.cb == [ResponseCb(HEAD)] && b.p.core.url.Responded?
    ensures b.p.core.completed.No?
  {
    var connected := Connected();
    b := Go(connected, CoreStep(Env(UrlResponse(HEAD))));
  }

  /** The head is in the Rust queue, a notify is on the loop, and one read delivered a byte. */
  lemma Delivered() returns (b: B)
    ensures BReachable(b) && Unseen(b, 1, Yes)
    ensures b.p.q == EmptyQueue.(response := Some(HEAD)) && b.p.cbPc.CbIdle?
    ensures b.p.h.delivered == [BYTE]
    ensures b.p.core.net == [] && b.p.core.cb == [BodyCb(BYTE)] && b.p.core.url.Responded?
    ensures b.p.core.completed.No?
  {
    var before := ResponseQueued();
    var called := GoFirstCallback(before);
    b := GoRead(called, Bytes(BYTE));
  }

  /** The chunk is in the Rust queue and the next read has failed. */
  lemma ReadFailed(code: int) returns (b: B)
    ensures BReachable(b) && Unseen(b, 1, Yes)
    ensures b.p.q == EmptyQueue.(response := Some(HEAD), body := [BYTE], bodyBytes := 1)
    ensures b.p.cbPc.CbIdle? && b.p.h.delivered == [BYTE]
    ensures b.p.core.cb == [CompleteCb(Failed(code))]
  {
    var before := Delivered();
    var called := GoCallback(before);
    b := GoRead(called, NetError(code));
  }

  // ---- the batch ----------------------------------------------------------------------------

  predicate Polling(b: B, poll: PollPc, q: Queue, handle: Handle) {
    && b.poll == poll && b.p.q == q && b.handle == handle
    && b.consumer.AwaitingHead? && b.yielded == [] && b.p.h.delivered == [BYTE]
    && b.py == NewPy(ASYNC)
  }

  /** All three events are ready before the loop polls for the first. */
  lemma PollBegan(code: int) returns (b: B)
    ensures BReachable(b)
    ensures Polling(b, AtHop([]), Queue(Some(HEAD), No, [BYTE], 1, No, [], Some(Failed(code)), No),
                    Handle(Yes, Yes, No, No, No))
  {
    var before := ReadFailed(code);
    var queued := GoCallback(before);
    b := Go(queued, NotifyRun);
  }

  lemma PolledHead(code: int) returns (b: B)
    ensures BReachable(b)
    ensures Polling(b, AtHop([ResponseEvent(HEAD)]),
                    Queue(None, Yes, [BYTE], 1, No, [], Some(Failed(code)), No),
                    Handle(Yes, No, Yes, No, No))
  {
    var began := PollBegan(code);
    var atHead := Go(began, PollHop);
    b := Go(atHead, PollHead);
  }

  /** From the second event on poll_one finds no hop and no future. */
  lemma GoToBody(b: B) returns (next: B)
    requires BReachable(b) && b.poll.AtHop? && b.p.q.redirects == [] && b.handle.future.No?
    ensures BReachable(next) && next == b.(poll := AtBody(b.poll.events))
  {
    var atHead := Go(b, PollHop);
    next := Go(atHead, PollHead);
  }

  lemma PolledBody(code: int) returns (b: B)
    ensures BReachable(b)
    ensures Polling(b, AtHop([ResponseEvent(HEAD), BodyEvent(BYTE)]),
                    Queue(None, Yes, [], 0, No, [], Some(Failed(code)), No),
                    Handle(Yes, No, Yes, No, No))
  {
    var before := PolledHead(code);
    var atBody := GoToBody(before);
    assert [BYTE][1..] == [];
    b := Go(atBody, PollBody);
  }

  /** One batch takes the head, the chunk and the error. */
  lemma Polled(code: int) returns (b: B)
    ensures BReachable(b) && b.consumer.AwaitingHead? && b.yielded == []
    ensures b.poll == PollEnd([ResponseEvent(HEAD), BodyEvent(BYTE), ErrorEvent(code)])
    ensures b.py == NewPy(ASYNC)
    ensures b.p.h.delivered == [BYTE]
  {
    var before := PolledBody(code);
    var atBody := GoToBody(before);
    b := Go(atBody, PollBody);
  }

  /** What the three events make of the fresh _AsyncState. */
  lemma Digested(code: int)
    ensures var events := [ResponseEvent(HEAD), BodyEvent(BYTE), ErrorEvent(code)];
      var py := Drained(NewPy(ASYNC), events);
      && py.head == HEAD && py.error == Some(Native(code)) && py.config.stream
      && py.closed.No?
  {
    var events := [ResponseEvent(HEAD), BodyEvent(BYTE), ErrorEvent(code)];
    var rest, last := events[1..], events[2..];
    assert rest[1..] == last && last[1..] == [];
    var first := Apply(NewPy(ASYNC), events[0]);
    var second := Apply(first, rest[0]);
    assert ApplyAll(second, last) == Apply(second, last[0]);
    assert ApplyAll(first, rest) == ApplyAll(second, last);
  }

  /**
   * The readers do differ: for every code there is a reachable state whose caller
   * got the native error and nothing else, although a chunk had been delivered.
   */
  lemma HeadErrorLosesBody(code: int) returns (b: B)
    ensures BReachable(b) && b.py.config.stream
    ensures b.consumer == HeadRaised(Native(code)) && b.yielded == []
    ensures b.p.h.delivered == [BYTE]
  {
    var polled := Polled(code);
    Digested(code);
    var processed := Go(polled, ProcessBatch);
    b := Go(processed, ConsumerStep);
  }
}
