/**
 * The bytes end to end, and what each way to end means: where the asynchronous
 * reader agrees with the synchronous one, and where exactly it does not.
 */
module BridgeEndings {
  import opened Prelude
  import opened RequestQueue
  import opened PipelineData
  import opened Pipeline
  import opened PipelineHops
  import opened PipelineReports
  import PipelineTheorems
  import opened AsyncState
  import opened Bridge
  import opened BridgeData
  import opened BridgeHops
  import opened BridgeHeads
  import opened BridgeTheorems

  /**
   * End to end: the chunks the loop processed, the batch being polled, the Rust
   * queue and the queued callbacks are, in this order, what URLRequest delivered;
   * and what the coroutine got, or will get from Python, is the part of the
   * processed chunks the limit lets through.
   */
  lemma EndToEnd(b: B)
    requires BReachable(b)
    ensures b.processed + EventBodies(PollEvents(b.poll)) + b.p.q.body + Bodies(b.p.core.cb)
            == b.p.h.delivered
    ensures b.py.closed.No? && b.py.config.stream ==>
      b.yielded + b.py.chunks == FittingPrefix(b.processed, b.py.config.limit)
    ensures b.py.closed.No? && !b.py.config.stream ==>
      b.py.body == Flatten(FittingPrefix(b.processed, b.py.config.limit))
  {
    ReachableReader(b);
    ReachableBatch(b);
    PipelineTheorems.ReachableConserve(b.p);
  }

  /** After the terminal event of a closed state nothing is left on the way. */
  lemma AllProcessed(b: B)
    requires BReachable(b) && b.py.closed.Yes? && b.ended.Some?
    ensures b.processed == b.p.h.delivered && b.p.q.terminal == b.ended
  {
    ReachableEnd(b);
    ReachableBatch(b);
    PipelineTheorems.TerminalIsLast(b.p);
    assert b.processed + [] == b.processed;
  }

  /** Only an open state still waits, so every ending is one of a closed state. */
  lemma EndedIsClosed(b: B)
    requires BReachable(b) && (b.consumer.Over? || b.consumer.HeadRaised?)
    ensures b.py.closed.Yes? && OutcomeOk(b)
  {
    ReachableSleep(b);
    ReachableReader(b);
  }

  /**
   * Redirects end to end: those the loop processed, those of the batch being polled
   * and those in the Rust queue are, in this order, the ones received; where redirects
   * are followed the _AsyncState lists exactly the processed ones.
   */
  lemma HopsEndToEnd(b: B)
    requires BReachable(b)
    ensures b.hops + EventHops(PollEvents(b.poll)) + b.p.q.redirects == HopsOf(b.p.h.trace)
    ensures b.py.config.follow ==> b.py.hops == b.hops
  {
    ReachableHops(b);
  }

  /** A closed state processed every redirect it ever took from the queue. */
  lemma ProcessedHops(b: B)
    requires BReachable(b) && b.py.closed.Yes?
    ensures b.hops + b.p.q.redirects == HopsOf(b.p.h.trace)
    ensures b.ended == Some(Finished) ==> b.hops == HopsOf(b.p.h.trace)
  {
    ReachableHops(b);
    ReachableEnd(b);
    assert b.hops + [] == b.hops;
  }

  /** Once the head was polled and processed, the state has it. */
  lemma PolledHead(b: B)
    requires BReachable(b) && b.poll.NotPolling?
    requires b.py.config.follow || HopsOf(b.p.h.trace) == []
    ensures b.handle.stream.Yes? || b.ended == Some(Finished) ==> HeadSeen(b.py.head) in b.p.h.reports
    ensures b.handle.stream.No? ==> b.py.head == NO_HEAD
  {
    ReachableHeads(b);
    assert OnHead(b);
  }

  /**
   * The Response a streaming call returned has the head URLRequest reported, unless a redirect
   * that is not followed took its place.
   */
  lemma ReturnedHead(b: B)
    requires BReachable(b) && b.poll.NotPolling?
    requires b.py.config.follow || HopsOf(b.p.h.trace) == []
    requires b.consumer.AwaitingChunk? || b.consumer.SleepingChunk? || (b.consumer.Over? && b.py.config.stream)
    ensures HeadSeen(b.py.head) in b.p.h.reports
  {
    ReachableHeads(b);
    assert OnHead(b) && Returned(b);
  }

  /**
   * A cleanly ended read returned the whole body, exactly as the synchronous reader
   * would, with the head and the whole history of redirects: always where redirects are
   * followed, and where they are not, if none was received. It is the whole body: URLRequest
   * reported its end.
   */
  lemma CleanEndIsComplete(b: B)
    requires BReachable(b) && b.consumer == Over(CleanEnd)
    requires b.py.config.follow || HopsOf(b.p.h.trace) == []
    ensures b.p.q.terminal == Some(Finished) && Fits(b.p.h.delivered, b.py.config.limit)
    ensures b.py.config.stream ==>
      (b.yielded, CleanEnd) == ReadOutcome(b.p.h.delivered, b.py.config.limit, Finished)
    ensures !b.py.config.stream ==> b.py.body == Flatten(b.p.h.delivered)
    ensures b.py.config.follow ==> b.py.hops == HopsOf(b.p.h.trace)
    ensures EndSeen(ReachedEof) in b.p.h.reports && HeadSeen(b.py.head) in b.p.h.reports
  {
    EndedIsClosed(b);
    ProcessedHops(b);
    HopsEndToEnd(b);
    assert Whole(b.py, b.hops);
    AllProcessed(b);
    ReachablePipeline(b);
    PipelineTheorems.TerminalHasItsCause(b.p);
    ReachableEnd(b);
    PolledHead(b);
  }

  /** Nothing delivered, nothing processed, nothing returned. */
  lemma NothingProcessed(b: B)
    requires BReachable(b) && b.p.h.delivered == [] && b.consumer == Over(CleanEnd)
    ensures if b.py.config.stream then b.yielded == [] else b.py.body == []
  {
    EndedIsClosed(b);
    EndToEnd(b);
    assert |b.processed| == 0;
  }

  /** An unfollowed redirect leaves no other way to end cleanly than having processed it. */
  lemma HopWasProcessed(b: B)
    requires BReachable(b) && b.consumer == Over(CleanEnd) && b.py.closed.Yes? && OutcomeOk(b)
    requires b.p.h.responded.No?
    ensures b.hops != []
  {
    if b.hops == [] {
      assert Whole(b.py, b.hops);
      ReachableEnd(b);
      ReachablePipeline(b);
      PipelineTheorems.AllReceived(b.p);
    }
  }

  /**
   * Otherwise the redirect is the response: a cleanly ended read that was told not to
   * follow a redirect, and that nobody followed it for, has its head and no body.
   */
  lemma CleanEndOnHop(b: B)
    requires BReachable(b) && b.consumer == Over(CleanEnd)
    requires !b.py.config.follow && !b.p.core.config.mode.FollowMode?
    requires b.p.h.hopsFollowed == 0 && HopsOf(b.p.h.trace) != []
    ensures |HopsOf(b.p.h.trace)| == 1 && b.py.head == HeadOf(HopsOf(b.p.h.trace)[0])
    ensures b.p.h.responded.No? && b.p.h.delivered == []
    ensures if b.py.config.stream then b.yielded == [] else b.py.body == []
  {
    EndedIsClosed(b);
    ProcessedHops(b);
    ReachableHops(b);
    PipelineTheorems.UnfollowedHop(b.p);
    NothingProcessed(b);
    HopWasProcessed(b);
  }

  /** What was cut off at the limit stays cut off, whatever follows. */
  lemma CutIsFinal(processed: seq<Chunk>, delivered: seq<Chunk>, rest: seq<Chunk>,
                   limit: Option<nat>, terminal: Outcome)
    requires processed <= delivered && !Fits(processed, limit)
    ensures (FittingPrefix(processed, limit), Raised(TooLarge))
            == ReadOutcome(delivered + rest, limit, terminal)
  {
    var tail := delivered[|processed|..] + rest;
    assert delivered + rest == processed + tail;
    FittingPrefixStable(processed, tail, limit);
  }

  /**
   * ResponseTooLarge: the body delivered so far already exceeds the limit, and
   * whatever else would have come, the reader returned what the synchronous one
   * would; a caller of the whole response gets the same error.
   */
  lemma TooLargeMatchesSync(b: B, rest: seq<Chunk>, terminal: Outcome)
    requires BReachable(b) && b.consumer == Over(Raised(TooLarge))
    ensures !Fits(b.p.h.delivered, b.py.config.limit)
    ensures ReadOutcome(b.p.h.delivered + rest, b.py.config.limit, terminal).1 == Raised(TooLarge)
    ensures b.py.config.stream ==>
      b.yielded == ReadOutcome(b.p.h.delivered + rest, b.py.config.limit, terminal).0
  {
    EndedIsClosed(b);
    ReachableBatch(b);
    PipelineTheorems.TakenChunks(b.p);
    CutIsFinal(b.processed, b.p.h.delivered, rest, b.py.config.limit, terminal);
    CutIsFinal(b.processed, b.p.h.delivered, [], b.py.config.limit, terminal);
    assert b.p.h.delivered + [] == b.p.h.delivered;
  }

  /**
   * A native error raised by the reader, or by a call for the whole response,
   * comes after a whole body within the limit, as on the synchronous path.
   */
  lemma ErrorMatchesSync(b: B, code: int)
    requires BReachable(b) && b.consumer == Over(Raised(Native(code)))
    ensures b.p.q.terminal == Some(Failed(code))
    ensures ReadOutcome(b.p.h.delivered, b.py.config.limit, Failed(code)).1 == Raised(Native(code))
    ensures b.py.config.stream ==>
      b.yielded == ReadOutcome(b.p.h.delivered, b.py.config.limit, Failed(code)).0
    ensures exists cause :: EndSeen(cause) in b.p.h.reports && OutcomeOf(cause) == Failed(code)
  {
    EndedIsClosed(b);
    AllProcessed(b);
    ReachablePipeline(b);
    PipelineTheorems.TerminalHasItsCause(b.p);
    assert EndSeen(b.p.h.reports[|b.p.h.reports| - 1].cause) in b.p.h.reports;
  }

  /** What a streaming call makes of a transfer: a Response or none, the chunks, the ending. */
  datatype StreamRead = StreamRead(returned: bool, chunks: seq<Chunk>, ending: Ending)

  /** The synchronous call returns as soon as there is a head; without one it raises. */
  function SyncStream(responded: Flag, body: seq<Chunk>, limit: Option<nat>, code: int): StreamRead {
    if responded.No? then StreamRead(false, [], Raised(Native(code)))
    else
      var (chunks, ending) := ReadOutcome(body, limit, Failed(code));
      StreamRead(true, chunks, ending)
  }

  /**
   * A native error raised while the head is awaited: no Response was returned and
   * nothing was yielded. So the call agrees with the synchronous one if and only if
   * there was no response, and if one is withheld, the chunks and the error still
   * agree if and only if it had delivered no body when it failed.
   */
  lemma HeadErrorMatchesSyncIff(b: B, code: int)
    requires BReachable(b) && b.py.config.stream && b.consumer == HeadRaised(Native(code))
    ensures b.p.q.terminal == Some(Failed(code)) && b.yielded == []
    ensures b.p.h.responded.Yes? <==> HasResponse(b.p.h.trace)
    ensures StreamRead(false, b.yielded, Raised(Native(code)))
            == SyncStream(b.p.h.responded, b.p.h.delivered, b.py.config.limit, code)
            <==> b.p.h.responded.No?
    ensures (b.yielded, Raised(Native(code)))
            == ReadOutcome(b.p.h.delivered, b.py.config.limit, Failed(code))
            <==> b.p.h.delivered == []
  {
    EndedIsClosed(b);
    AllProcessed(b);
    ReachableHops(b);
    PipelineTheorems.AllReceived(b.p);
  }
}
