/**
 * What holds in every state any run of the request pipeline can reach, whatever
 * the API threads, the consumers, the timer and the network do.
 */
module PipelineTheorems {
  import opened Prelude
  import opened RequestQueue
  import opened CoreRequest
  import opened Pipeline
  import opened PipelineTokens
  import opened PipelineTrace
  import opened PipelineFlow
  import opened PipelineData
  import opened PipelineHops
  import opened PipelineReports

  predicate Inv(s: State) {
    && TokenInv(s) && StartInv(s) && TraceInv(s) && FlowInv(s)
    && ConserveInv(s) && AcceptInv(s) && WriteInv(s) && HopInv(s) && AnswerInv(s)
    && ReportInv(s) && CallInv(s)
  }

  lemma FlowInit(config: Config)
    ensures TokenInv(Init(config)) && StartInv(Init(config)) && FlowInv(Init(config))
  {
  }

  lemma DataInit(config: Config)
    ensures ConserveInv(Init(config)) && AcceptInv(Init(config)) && WriteInv(Init(config))
    ensures HopInv(Init(config)) && AnswerInv(Init(config))
    ensures ReportInv(Init(config)) && CallInv(Init(config))
  {
  }

  lemma TraceInit(config: Config)
    ensures TraceInv(Init(config))
  {
  }

  lemma InvInit(config: Config)
    ensures Inv(Init(config))
  {
    FlowInit(config);
    DataInit(config);
    TraceInit(config);
  }

  /** Every atomic step of every thread keeps every invariant. */
  lemma InvStep(s: State, a: Action)
    requires Inv(s) && Enabled(s, a)
    ensures Inv(Step(s, a))
  {
    TokenStep(s, a);
    TraceStep(s, a);
    FlowStep(s, a);
    ConserveStep(s, a);
    UploadStep(s, a);
    HopStep(s, a);
    AnswerStep(s, a);
    ReportStep(s, a);
    CallStep(s, a);
  }

  lemma {:induction false} InvRun(s: State, run: seq<Action>)
    requires Inv(s) && Feasible(s, run)
    ensures Inv(After(s, run))
    decreases |run|
  {
    if run != [] {
      InvStep(s, run[0]);
      InvRun(Step(s, run[0]), run[1..]);
    }
  }

  lemma ReachableInv(s: State)
    requires Reachable(s)
    ensures Inv(s)
  {
    var config, run :| Feasible(Init(config), run) && After(Init(config), run) == s;
    InvInit(config);
    InvRun(Init(config), run);
  }

  // What one theorem needs of Inv, so that its proof sees no more than that.

  lemma ReachableToken(s: State)
    requires Reachable(s)
    ensures TokenInv(s)
  {
    ReachableInv(s);
  }

  lemma ReachableTrace(s: State)
    requires Reachable(s)
    ensures TraceInv(s)
  {
    ReachableInv(s);
  }

  lemma ReachableFlow(s: State)
    requires Reachable(s)
    ensures FlowInv(s)
  {
    ReachableInv(s);
  }

  lemma ReachableConserve(s: State)
    requires Reachable(s)
    ensures s.h.taken + s.q.body + Bodies(s.core.cb) == s.h.delivered
  {
    ReachableInv(s);
  }

  lemma ReachableUpload(s: State)
    requires Reachable(s)
    ensures AcceptInv(s) && WriteInv(s)
  {
    ReachableInv(s);
  }

  lemma ReachableHop(s: State)
    requires Reachable(s)
    ensures HopInv(s)
  {
    ReachableInv(s);
  }

  lemma ReachableAnswer(s: State)
    requires Reachable(s)
    ensures AnswerInv(s)
  {
    ReachableInv(s);
  }

  lemma ReachableReports(s: State)
    requires Reachable(s)
    ensures ReportInv(s)
  {
    ReachableInv(s);
  }

  lemma ReachableCalls(s: State)
    requires Reachable(s)
    ensures StartInv(s) && CallInv(s) && HopInv(s)
  {
    ReachableInv(s);
  }

  lemma {:induction false} RunExtends(s: State, run: seq<Action>, a: Action)
    requires Feasible(s, run) && Enabled(After(s, run), a)
    ensures Feasible(s, run + [a]) && After(s, run + [a]) == Step(After(s, run), a)
    decreases |run|
  {
    if run == [] {
      assert run + [a] == [a];
    } else {
      assert (run + [a])[1..] == run[1..] + [a];
      RunExtends(Step(s, run[0]), run[1..], a);
    }
  }

  lemma ReachableStep(s: State, a: Action)
    requires Reachable(s) && Enabled(s, a)
    ensures Reachable(Step(s, a))
  {
    var config, run :| Feasible(Init(config), run) && After(Init(config), run) == s;
    RunExtends(Init(config), run, a);
    assert After(Init(config), run + [a]) == Step(s, a);
  }

  lemma ReachableInit(config: Config)
    ensures Reachable(Init(config))
  {
    assert After(Init(config), []) == Init(config);
  }

  /**
   * No stranded pause: while the Core is paused, either the queue is full and
   * the pause is on record, so the take that makes room must resume, or a
   * consumer that cleared the pause is still on its way into resume_read.
   */
  lemma NoStrandedPause(s: State)
    requires Reachable(s)
    ensures s.core.readState.Paused? ==>
      (s.q.readPaused.Yes? && s.q.bodyBytes >= BODY_BUFFER_LIMIT) || s.own.Waiting() >= 1
  {
    ReachableFlow(s);
  }

  function LandingRun(isOwn: bool, pc: ResumePc): seq<Action> {
    match pc
    case FirstCas => [Resume(isOwn, FirstCas, false), Resume(isOwn, MustPost, false)]
    case RetryCas => [Resume(isOwn, RetryCas, false), Resume(isOwn, MustPost, false)]
    case RecordCas =>
      [Resume(isOwn, RecordCas, false), Resume(isOwn, RetryCas, false),
       Resume(isOwn, MustPost, false)]
    case _ => []
  }

  /** From any step of ResumeRead, a resumer left alone ends a pause and queues one read. */
  lemma ResumeLands(s: State, isOwn: bool, pc: ResumePc)
    requires s.core.readState.Paused? && ResumeEnabled(s, isOwn, pc) && !pc.MustPost?
    ensures var run := LandingRun(isOwn, pc);
      && Feasible(s, run)
      && After(s, run).core.readState.Reading?
      && After(s, run).core.net == s.core.net + [ReadMoreTask]
  {
    var first := Step(s, Resume(isOwn, pc, false));
    if pc.RecordCas? {
      var second := Step(first, Resume(isOwn, RetryCas, false));
      var third := Step(second, Resume(isOwn, MustPost, false));
      assert LandingRun(isOwn, pc)[1..][1..] == [Resume(isOwn, MustPost, false)];
      assert Feasible(second, [Resume(isOwn, MustPost, false)]);
      assert After(second, [Resume(isOwn, MustPost, false)]) == third;
    } else {
      var second := Step(first, Resume(isOwn, MustPost, false));
      assert LandingRun(isOwn, pc)[1..] == [Resume(isOwn, MustPost, false)];
      assert Feasible(first, [Resume(isOwn, MustPost, false)]);
      assert After(first, [Resume(isOwn, MustPost, false)]) == second;
    }
  }

  /**
   * The queue bound, for S resume calls from outside the stream; with none the
   * queue stays below the ceiling plus one read buffer.
   */
  lemma QueueBound(s: State)
    requires Reachable(s)
    ensures s.q.bodyBytes == Total(s.q.body)
    ensures s.q.bodyBytes <= BODY_BUFFER_LIMIT - 1 + (1 + s.h.externals) * READ_BUFFER_SIZE
    ensures s.h.externals == 0 ==> s.q.bodyBytes < BODY_BUFFER_LIMIT + READ_BUFFER_SIZE
  {
    ReachableFlow(s);
    assert s.h.pauses - s.h.clears <= 1 + s.h.externals;
  }

  /** The parties that can cause the next URLRequest::Read, one by one. */
  function ReadHolders(s: State): nat {
    QueuedReaders(s.core.cb)                                     // queued response or body callback
    + Bit(Running(s.cbPc))                                       // the callback now running
    + QueuedReads(s.core.net)                                    // queued ReadMore
    + Bit(s.core.url.ReadPending?)                               // read pending in the URLRequest
    + Bit(s.core.readState.Paused?)                              // paused
    + s.own.post + s.external.post                               // resumer about to post ReadMore
  }

  /**
   * One read token: from the response to the completion there is exactly one
   * holder, otherwise at most one, and URLRequest is never misused.
   */
  lemma OneReadToken(s: State)
    requires Reachable(s)
    ensures ReadHolders(s) <= 1
    ensures s.h.responded.Yes? && s.core.completed.No? ==> ReadHolders(s) == 1
    ensures s.h.responded.No? ==> ReadHolders(s) == 0
    ensures s.core.misuses == 0
  {
    ReachableToken(s);
    ReachableHop(s);
  }

  /** The callbacks received so far, and those received and queued, keep the ABI's order. */
  lemma CallbackOrder(s: State)
    requires Reachable(s)
    ensures Orderly(s.h.trace) && Orderly(AllCallbacks(s))
    ensures s.core.completed.Yes? <==>
      AllCallbacks(s) != [] && AllCallbacks(s)[|AllCallbacks(s)| - 1].CompleteCb?
  {
    ReachableTrace(s);
    ScanIffOrderly(AllCallbacks(s));
    ScanIffOrderly(s.h.trace);
  }

  /**
   * ResponseFuture::wait cannot stay blocked: once a terminal is recorded the
   * first take of the response succeeds, and a finished request yields a head.
   */
  lemma WaitReturns(s: State)
    requires Reachable(s)
    ensures s.q.terminal.Some? && s.q.responseTaken.No? ==> TakeResponse(s.q).1.Some?
    ensures s.q.terminal == Some(Finished) && s.q.responseTaken.No? ==>
      TakeResponse(s.q).1.value.GotHead?
  {
    ReachableTrace(s);
  }

  lemma FlattenThree(a: seq<Chunk>, b: seq<Chunk>, c: seq<Chunk>)
    ensures Flatten(a + b + c) == Flatten(a) + Flatten(b) + Flatten(c)
  {
    var ab := a + b;
    FlattenAppend(a, b);
    FlattenAppend(ab, c);
  }

  lemma PrefixOfThree(a: seq<Chunk>, b: seq<Chunk>, c: seq<Chunk>)
    ensures a <= a + b + c
  {
    assert a + b + c == a + (b + c);
  }

  /**
   * Conservation: the bytes taken, then the bytes in the Rust queue, then those
   * in queued callbacks, are the bytes the URLRequest delivered, in order.
   */
  lemma BodyConserved(s: State)
    requires Reachable(s)
    ensures Flatten(s.h.taken) + Flatten(s.q.body) + Flatten(Bodies(s.core.cb))
            == Flatten(s.h.delivered)
    ensures s.h.taken <= s.h.delivered
  {
    ReachableConserve(s);
    FlattenThree(s.h.taken, s.q.body, Bodies(s.core.cb));
    PrefixOfThree(s.h.taken, s.q.body, Bodies(s.core.cb));
  }

  /** A recorded terminal result is the last callback: nothing is queued behind it. */
  lemma TerminalIsLast(s: State)
    requires Reachable(s) && s.q.terminal.Some?
    ensures |s.core.cb| == 0
    ensures s.q.body == [] ==> s.h.taken == s.h.delivered
  {
    ReachableTrace(s);
    ReachableConserve(s);
    var all, n := AllCallbacks(s), |s.h.trace|;
    ScanIffOrderly(all);
    assert all[n - 1] == s.h.trace[n - 1];
  }

  lemma TakenChunks(s: State)
    requires Reachable(s)
    ensures s.h.taken <= s.h.delivered && ChunksOk(s.h.taken)
  {
    ReachableConserve(s);
    ReachableFlow(s);
    assert s.h.delivered == s.h.taken + (s.q.body + Bodies(s.core.cb));
    assert forall i :: 0 <= i < |s.h.taken| ==> s.h.taken[i] == s.h.delivered[i];
  }

  /** A request that fails before its response was never given a body. */
  lemma FailureHasNoBody(s: State)
    requires Reachable(s)
    ensures s.q.responseTaken.No? && s.q.response.None? && s.q.terminal.Some? ==>
      |s.q.body| == 0
  {
    ReachableTrace(s);
  }

  /** Once the consumer sees the end of the body it has taken everything. */
  lemma EndMeansAll(s: State)
    requires Reachable(s) && TakeBody(s.q).1 == Some(End)
    ensures s.h.taken == s.h.delivered
  {
    TerminalIsLast(s);
  }

  /**
   * Uploads: the writer has a prefix of the accepted chunks, the whole of it
   * when no task is left, and nothing is accepted after the final chunk.
   */
  lemma UploadsInOrder(s: State)
    requires Reachable(s)
    ensures s.h.written <= s.h.accepted
    ensures s.core.completed.No? && s.core.net == [] && s.uploader.None? ==>
      s.h.written == s.h.accepted
    ensures forall i :: 0 <= i < |s.h.accepted| && s.h.accepted[i].final ==>
      i == |s.h.accepted| - 1
    ensures s.core.writer.Some? ==> s.core.writer.value == s.h.written
  {
    ReachableUpload(s);
  }

  /** Deferred hops: at most one, with at most one thing that can follow it, once. */
  lemma HopsFollowedOnce(s: State)
    requires Reachable(s)
    ensures s.core.completed.No? ==> Followers(s) <= Bit(s.core.url.HopDeferred?) <= 1
    ensures s.h.hopsFollowed <= s.h.hopsDeferred <= s.h.hopsFollowed + 1
    ensures s.core.completed.No? ==>
      s.h.hopsDeferred == s.h.hopsFollowed + Bit(s.core.url.HopDeferred?)
  {
    ReachableHop(s);
  }

  /** Once a terminal result is recorded, every callback has been received. */
  lemma AllReceived(s: State)
    requires Reachable(s) && s.q.terminal.Some?
    ensures HasResponse(s.h.trace) <==> s.h.responded.Yes?
    ensures s.q.terminal == Some(Finished) ==> s.h.responded.Yes?
  {
    ReachableAnswer(s);
    TerminalIsLast(s);
    assert AllCallbacks(s) == s.h.trace;
    ReachableTrace(s);
    ScanIffOrderly(s.h.trace);
  }

  /** A head in the queue was received. */
  lemma HeadReceived(s: State)
    requires Reachable(s) && s.q.response.Some?
    ensures HasResponse(s.h.trace)
  {
    ReachableTrace(s);
    ScanIffOrderly(s.h.trace);
    ReachableAnswer(s);
    if s.q.terminal.Some? { AllReceived(s); }
  }

  /**
   * A deferred redirect nobody follows is the only thing the server answers: no
   * response, no body, no further redirect.
   */
  lemma UnfollowedHop(s: State)
    requires Reachable(s) && !s.core.config.mode.FollowMode? && s.h.hopsFollowed == 0
    requires HopsOf(s.h.trace) != []
    ensures |HopsOf(s.h.trace)| == 1 && s.h.responded.No? && s.h.delivered == []
  {
    ReachableAnswer(s);
    ReachableHop(s);
    HopsJoin(s.h.trace, s.core.cb);
  }

  /**
   * The callbacks received and queued are, one for one and word for word, what URLRequest, the
   * timer and the callers brought about: redirects, the head, the chunks, and how it ended.
   */
  lemma CallbacksAreReports(s: State)
    requires Reachable(s)
    ensures |AllCallbacks(s)| == |s.h.reports|
    ensures forall i :: 0 <= i < |s.h.reports| ==> AllCallbacks(s)[i] == CallbackOf(s.h.reports[i])
    ensures Chunks(s.h.reports) == s.h.delivered
  {
    ReachableReports(s);
  }

  lemma OnlyLastEnds(all: seq<Callback>, reports: seq<Report>)
    requires Reported(all, reports) && Orderly(all)
    ensures forall i :: 0 <= i < |reports| && reports[i].EndSeen? ==> i == |reports| - 1
    ensures all != [] ==> (all[|all| - 1].CompleteCb? <==> reports[|reports| - 1].EndSeen?)
  {
    assert forall i :: 0 <= i < |reports| && reports[i].EndSeen? ==> all[i].CompleteCb?;
  }

  /**
   * Every outcome has its cause, exactly: on_complete reports success if and only if URLRequest
   * reported the end of the body, and a failure if and only if something failed with its code.
   */
  lemma CompletionHasItsCause(s: State, outcome: Outcome)
    requires Reachable(s)
    ensures CompleteCb(outcome) in AllCallbacks(s) <==>
      exists cause :: EndSeen(cause) in s.h.reports && OutcomeOf(cause) == outcome
    ensures CompleteCb(Finished) in AllCallbacks(s) <==> EndSeen(ReachedEof) in s.h.reports
  {
    ReachableReports(s);
    OutcomeShows(AllCallbacks(s), s.h.reports, outcome);
    FinishedIffEof(AllCallbacks(s), s.h.reports);
  }

  /** One thing ends the request, and nothing is reported after it. */
  lemma OneCause(s: State)
    requires Reachable(s)
    ensures forall i :: 0 <= i < |s.h.reports| && s.h.reports[i].EndSeen? ==> i == |s.h.reports| - 1
    ensures s.core.completed.Yes? <==>
      s.h.reports != [] && s.h.reports[|s.h.reports| - 1].EndSeen?
  {
    ReachableReports(s);
    CallbackOrder(s);
    OnlyLastEnds(AllCallbacks(s), s.h.reports);
  }

  /** The terminal result on record is that of the last report. */
  lemma TerminalHasItsCause(s: State)
    requires Reachable(s) && s.q.terminal.Some?
    ensures s.h.reports != []
    ensures var last := s.h.reports[|s.h.reports| - 1];
      last.EndSeen? && s.q.terminal == Some(OutcomeOf(last.cause))
    ensures s.q.terminal == Some(Finished) <==> EndSeen(ReachedEof) in s.h.reports
  {
    ReachableReports(s);
    ReachableTrace(s);
    TerminalIsLast(s);
    CompletionHasItsCause(s, Finished);
    OneCause(s);
    assert AllCallbacks(s) == s.h.trace;
  }

  lemma OneHead(all: seq<Callback>, reports: seq<Report>, head: Head, other: Head)
    requires Reported(all, reports) && Orderly(all)
    requires HeadSeen(head) in reports && HeadSeen(other) in reports
    ensures head == other
  {
    var i :| 0 <= i < |reports| && reports[i] == HeadSeen(head);
    var j :| 0 <= j < |reports| && reports[j] == HeadSeen(other);
    assert all[i] == ResponseCb(head) && all[j] == ResponseCb(other);
  }

  /** The head in the queue, and the one a take hands out, is the one URLRequest reported. */
  lemma HeadConserved(s: State, head: Head)
    requires Reachable(s)
    ensures s.q.response == Some(head) ==> HeadSeen(head) in s.h.reports
    ensures TakeResponse(s.q).1 == Some(GotHead(head)) ==> HeadSeen(head) in s.h.reports
    ensures forall other :: HeadSeen(head) in s.h.reports && HeadSeen(other) in s.h.reports ==> other == head
  {
    ReachableReports(s);
    CallbackOrder(s);
    if s.q.response.Some? {
      var t := ResponseCb(s.q.response.value);
      assert t in AllCallbacks(s);
      var r := CallbackShows(AllCallbacks(s), s.h.reports, t);
    }
    forall other | HeadSeen(head) in s.h.reports && HeadSeen(other) in s.h.reports
      ensures other == head
    {
      OneHead(AllCallbacks(s), s.h.reports, head, other);
    }
  }

  /** A failure a take hands out, for the head or for the body, has the code of the last report. */
  lemma FailureHasItsCode(s: State, code: int)
    requires Reachable(s)
    requires TakeResponse(s.q).1 == Some(HeadFailed(code)) || TakeBody(s.q).1 == Some(Error(code))
    ensures s.h.reports != []
    ensures var last := s.h.reports[|s.h.reports| - 1];
      last.EndSeen? && OutcomeOf(last.cause) == Failed(code)
  {
    TerminalHasItsCause(s);
  }

  // ---- calls ----------------------------------------------------------------------------------

  /**
   * Calls take effect: while the request is not over, a cancel that passed its check is on its way
   * to the network runner, whose next such task ends the request; a deadline has its timer armed,
   * which ends it when it fires; a request that was started has its URLRequest or its start task;
   * and in error mode a redirect is about to fail it.
   */
  lemma CallsTakeEffect(s: State)
    requires Reachable(s) && s.core.completed.No?
    ensures s.h.calls.cancelled.Yes? ==> s.cancels > 0 || CancelTask in s.core.net
    ensures s.h.calls.deadline.Yes? <==> s.core.timer.Yes?
    ensures s.core.started.Yes? ==> StartTask in s.core.net || !s.core.url.NoRequest?
    ensures s.core.config.mode.ErrorMode? && s.h.hopsDeferred > 0 ==> RedirectErrorTask in s.core.net
    ensures RedirectErrorTask in s.core.net ==> s.core.config.mode.ErrorMode?
    ensures s.core.started.Yes? ==> Step(s, Api(CancelCheck)).cancels == s.cancels + 1
  {
    ReachableCalls(s);
  }

  /** What those steps end the request with. */
  lemma EndsTheRequest(s: State, a: Action, rejected: Option<int>, timeout: bool, r: ReadResult)
    requires Reachable(s) && Enabled(s, a) && s.core.completed.No?
    requires a == Env(TimerFires) || (a == Net(rejected, timeout, r) && s.core.net[0].CancelTask?)
    ensures Step(s, a).core.completed.Yes? && Step(s, a).core.url.NoRequest?
    ensures Step(s, a).core.cb == s.core.cb + [CompleteCb(Failed(if a.Env? then TIMEOUT else CANCELED))]
  {
  }

  /**
   * FollowRedirect in manual mode is accepted exactly while a deferred redirect has not been
   * followed by anyone, and every accepted one was carried out, is queued, or is about to be.
   */
  lemma FollowsTakeEffect(s: State)
    requires Reachable(s) && s.core.completed.No? && s.core.config.mode.ManualMode?
    ensures Step(s, Api(FollowExchange)).followers
            == s.followers + Bit(s.h.hopsDeferred > s.h.calls.follows)
    ensures s.h.calls.follows == s.h.hopsFollowed + s.followers + QueuedFollows(s.core.net)
  {
    ReachableCalls(s);
  }

  /**
   * UploadWrite accepts a chunk exactly for a started, unfinished request with a chunked upload of
   * which no final chunk was accepted, unless it is empty and not final.
   */
  lemma UploadsAreAccepted(s: State, u: Upload)
    requires Reachable(s) && s.uploader.None?
    ensures var open := s.core.config.chunked && s.core.started.Yes? && s.core.completed.No?
        && forall i :: 0 <= i < |s.h.accepted| ==> !s.h.accepted[i].final;
      Step(s, Api(UploadLock(u))).h.accepted
      == if open && (u.data != [] || u.final) then s.h.accepted + [u] else s.h.accepted
  {
    ReachableUpload(s);
  }
}
