/**
 * Invariant 8 of the request pipeline: the callbacks are exactly what happened,
 * in order and word for word, and what callers asked for is done or on its way.
 */
module PipelineReports {
  import opened Prelude
  import opened RequestQueue
  import opened CoreRequest
  import opened Pipeline
  import opened PipelineTokens
  import opened PipelineTrace
  import opened PipelineData

  // ---- every callback has its report --------------------------------------------------------

  function OutcomeOf(cause: Cause): Outcome {
    match cause
    case ReachedEof => Finished
    case ReadError(code) => Failed(code)
    case ResponseError(code) => Failed(code)
    case StartRejected(code) => Failed(code)
    case CancelCalled => Failed(CANCELED)
    case DeadlinePassed => Failed(TIMEOUT)
    case RedirectRefused => Failed(REDIRECT)
  }

  function CallbackOf(r: Report): Callback {
    match r
    case HopSeen(hop) => RedirectCb(hop)
    case HeadSeen(head) => ResponseCb(head)
    case ChunkSeen(chunk) => BodyCb(chunk)
    case EndSeen(cause) => CompleteCb(OutcomeOf(cause))
  }

  predicate Reported(all: seq<Callback>, reports: seq<Report>) {
    && |all| == |reports|
    && forall i :: 0 <= i < |all| ==> all[i] == CallbackOf(reports[i])
  }

  function Chunks(reports: seq<Report>): seq<Chunk> {
    if reports == [] then []
    else
      var n := |reports| - 1;
      Chunks(reports[..n]) + if reports[n].ChunkSeen? then [reports[n].chunk] else []
  }

  lemma ChunksAppend(reports: seq<Report>, r: Report)
    ensures Chunks(reports + [r]) == Chunks(reports) + if r.ChunkSeen? then [r.chunk] else []
  {
    assert (reports + [r])[..|reports|] == reports;
  }

  predicate ReportInv(s: State) {
    && Reported(AllCallbacks(s), s.h.reports)
    && Chunks(s.h.reports) == s.h.delivered
    && (s.q.response.Some? ==> ResponseCb(s.q.response.value) in s.h.trace)
  }

  /** One callback more, for one report more. */
  lemma ReportOne(trace: seq<Callback>, cb: seq<Callback>, reports: seq<Report>, r: Report)
    requires Reported(trace + cb, reports)
    ensures Reported(trace + (cb + [CallbackOf(r)]), reports + [r])
  {
    assert trace + (cb + [CallbackOf(r)]) == (trace + cb) + [CallbackOf(r)];
  }

  lemma ReportNone(reports: seq<Report>)
    ensures reports + [] == reports
  {
  }

  lemma ReportRead(trace: seq<Callback>, c: Core, reports: seq<Report>, r: ReadResult)
    requires Reported(trace + c.cb, reports) && c.completed.No? && !r.Pending?
    ensures Reported(trace + OnReadCompleted(c, r).cb, reports + ReadReports(r))
  {
    ReportOne(trace, c.cb, reports, ReadReports(r)[0]);
  }

  lemma ReportEnd(trace: seq<Callback>, c: Core, reports: seq<Report>, cause: Cause)
    requires Reported(trace + c.cb, reports) && c.completed.No?
    ensures Reported(trace + Complete(c, OutcomeOf(cause)).cb, reports + [EndSeen(cause)])
  {
    ReportOne(trace, c.cb, reports, EndSeen(cause));
  }

  lemma ReportNetCore(trace: seq<Callback>, c: Core, reports: seq<Report>, t: NetTask,
                      rejected: Option<int>, timeout: bool, r: ReadResult)
    requires Reported(trace + c.cb, reports)
    ensures Reported(trace + NetCore(c, t, rejected, timeout, r).cb,
                     reports + NetReports(c, t, rejected, r))
  {
    ReportNone(reports);
    if c.completed.No? {
      match t
      case StartTask =>
        if rejected.Some? { ReportEnd(trace, c, reports, StartRejected(rejected.value)); }
      case CancelTask => ReportEnd(trace, c, reports, CancelCalled);
      case ReadMoreTask =>
        if c.url.Responded? && !r.Pending? { ReportRead(trace, c, reports, r); }
      case UploadTask(_) =>
      case FollowTask =>
      case RedirectErrorTask => ReportEnd(trace, c, reports, RedirectRefused);
    }
  }

  lemma ReportUrlCore(trace: seq<Callback>, c: Core, reports: seq<Report>, a: UrlAction)
    requires Reported(trace + c.cb, reports) && c.completed.No?
    requires a.UrlReadDone? ==> !a.read.Pending?
    ensures Reported(trace + UrlCore(c, a).cb, reports + UrlReports(a))
  {
    match a
    case UrlRedirect(hop) => ReportOne(trace, c.cb, reports, HopSeen(hop));
    case UrlResponse(head) => ReportOne(trace, c.cb, reports, HeadSeen(head));
    case UrlFailed(code) => ReportEnd(trace, c, reports, ResponseError(code));
    case UrlReadDone(r) => ReportRead(trace, c.(url := Responded), reports, r);
    case TimerFires => ReportEnd(trace, c, reports, DeadlinePassed);
  }

  /** The chunks reported with one more step, if it reads one. */
  lemma MoreChunks(reports: seq<Report>, more: seq<Report>)
    requires |more| <= 1
    ensures Chunks(reports + more)
            == Chunks(reports) + if more != [] && more[0].ChunkSeen? then [more[0].chunk] else []
  {
    if more == [] {
      ReportNone(reports);
    } else {
      ChunksAppend(reports, more[0]);
      assert more == [more[0]];
    }
  }

  lemma ReportNet(s: State, rejected: Option<int>, timeout: bool, r: ReadResult)
    requires ReportInv(s) && NetEnabled(s, r)
    ensures ReportInv(RunNetTask(s, rejected, timeout, r))
  {
    var c, t := Popped(s.core), s.core.net[0];
    var more, next := NetReports(c, t, rejected, r), RunNetTask(s, rejected, timeout, r);
    ReportNetCore(s.h.trace, c, s.h.reports, t, rejected, timeout, r);
    MoreChunks(s.h.reports, more);
    assert NetDelivers(c, t, r) <==> more != [] && more[0].ChunkSeen?;
    assert next.q == s.q && next.h.trace == s.h.trace && next.h.reports == s.h.reports + more;
  }

  lemma ReportUrl(s: State, a: UrlAction)
    requires StartInv(s) && TokenInv(s) && ReportInv(s) && UrlEnabled(s, a)
    ensures ReportInv(UrlStep(s, a))
  {
    var more, next := UrlReports(a), UrlStep(s, a);
    assert s.core.completed.No?;
    ReportUrlCore(s.h.trace, s.core, s.h.reports, a);
    MoreChunks(s.h.reports, more);
    assert next.q == s.q && next.h.trace == s.h.trace && next.h.reports == s.h.reports + more;
  }

  lemma ReportReceive(s: State)
    requires ReportInv(s) && CallbackEnabled(s, CbRun)
    ensures ReportInv(RunCallback(s))
  {
    assert AllCallbacks(RunCallback(s)) == AllCallbacks(s);
  }

  lemma ReportOther(s: State, a: Action)
    requires ReportInv(s) && Enabled(s, a)
    requires a.Api? || a.Resume? || a.Consumer? || (a.OnRunner? && !a.callback.CbRun?)
    ensures ReportInv(Step(s, a))
  {
    assert Step(s, a).core.cb == s.core.cb;
  }

  lemma ReportStep(s: State, a: Action)
    requires StartInv(s) && TokenInv(s) && ReportInv(s) && Enabled(s, a)
    ensures ReportInv(Step(s, a))
  {
    match a
    case Net(rejected, timeout, r) => ReportNet(s, rejected, timeout, r);
    case Env(x) => ReportUrl(s, x);
    case OnRunner(CbRun) => ReportReceive(s);
    case _ => ReportOther(s, a);
  }

  /** A callback is there exactly if one of its reports is. */
  lemma ReportShows(all: seq<Callback>, reports: seq<Report>, r: Report)
    requires Reported(all, reports) && r in reports
    ensures CallbackOf(r) in all
  {
    var i :| 0 <= i < |reports| && reports[i] == r;
    assert all[i] == CallbackOf(r);
  }

  lemma CallbackShows(all: seq<Callback>, reports: seq<Report>, t: Callback) returns (r: Report)
    requires Reported(all, reports) && t in all
    ensures r in reports && CallbackOf(r) == t
  {
    var i :| 0 <= i < |all| && all[i] == t;
    r := reports[i];
  }

  lemma OutcomeShows(all: seq<Callback>, reports: seq<Report>, outcome: Outcome)
    requires Reported(all, reports)
    ensures CompleteCb(outcome) in all <==>
      exists cause :: EndSeen(cause) in reports && OutcomeOf(cause) == outcome
  {
    if CompleteCb(outcome) in all {
      var r := CallbackShows(all, reports, CompleteCb(outcome));
      assert EndSeen(r.cause) in reports;
    }
    if cause :| EndSeen(cause) in reports && OutcomeOf(cause) == outcome {
      ReportShows(all, reports, EndSeen(cause));
    }
  }

  lemma FinishedIffEof(all: seq<Callback>, reports: seq<Report>)
    requires Reported(all, reports)
    ensures CompleteCb(Finished) in all <==> EndSeen(ReachedEof) in reports
  {
    OutcomeShows(all, reports, Finished);
  }

  // ---- every call has its effect --------------------------------------------------------------

  /**
   * While the request is not over: a cancel that passed its check is on its way; each accepted
   * follow was carried out, is queued or about to be; a deferred hop is free to be claimed exactly
   * if it was not; in error mode a hop is about to fail the request; a deadline has its timer, and
   * a started request its start task or its URLRequest.
   */
  predicate CallInv(s: State) {
    s.core.completed.No? ==>
      && (s.h.calls.cancelled.Yes? ==> s.cancels > 0 || CancelTask in s.core.net)
      && s.h.calls.follows == s.h.hopsFollowed + s.followers + QueuedFollows(s.core.net)
      && (s.core.config.mode.ManualMode? ==>
            (s.core.redirectDeferred.Yes? <==> s.h.hopsDeferred > s.h.calls.follows))
      && (s.core.config.mode.ErrorMode? && s.h.hopsDeferred > 0 ==> RedirectErrorTask in s.core.net)
      && (s.core.timer.Yes? <==> s.h.calls.deadline.Yes?)
      && (s.core.started.Yes? ==> StartTask in s.core.net || !s.core.url.NoRequest?)
      && (RedirectErrorTask in s.core.net ==> s.core.config.mode.ErrorMode? && s.h.hopsDeferred > 0)
  }

  /** A task posted for another reason changes none of it. */
  lemma PostedTask(net: seq<NetTask>, t: NetTask)
    ensures QueuedFollows(net + [t]) == QueuedFollows(net) + Bit(t.FollowTask?)
    ensures forall u :: u in net + [t] <==> u in net || u == t
  {
    QueuedFollowsAppend(net, t);
  }

  lemma CallApi(s: State, a: ApiAction)
    requires StartInv(s) && HopInv(s) && CallInv(s) && ApiEnabled(s, a)
    ensures CallInv(ApiStep(s, a))
  {
    match a
    case CallStart => PostedTask(s.core.net, StartTask);
    case CancelPost => PostedTask(s.core.net, CancelTask);
    case UploadPost => PostedTask(s.core.net, UploadTask(s.uploader.value));
    case FollowPost => PostedTask(s.core.net, FollowTask);
    case _ =>
  }

  /** A cancel, an upload or a refusal: it ends the request or leaves the calls alone. */
  lemma CallPlain(s: State, rejected: Option<int>, timeout: bool, r: ReadResult)
    requires TokenInv(s) && StartInv(s) && CallInv(s) && NetEnabled(s, r)
    requires !s.core.net[0].StartTask? && !s.core.net[0].FollowTask? && !s.core.net[0].ReadMoreTask?
    ensures CallInv(RunNetTask(s, rejected, timeout, r))
  {
    var t, rest := s.core.net[0], s.core.net[1..];
    assert QueuedFollows(s.core.net) == QueuedFollows(rest);
    assert forall u :: u in s.core.net <==> u == t || u in rest;
  }

  lemma CallRead(s: State, rejected: Option<int>, timeout: bool, r: ReadResult)
    requires TokenInv(s) && StartInv(s) && CallInv(s) && NetEnabled(s, r)
    requires s.core.net[0].ReadMoreTask?
    ensures CallInv(RunNetTask(s, rejected, timeout, r))
  {
    var t, rest := s.core.net[0], s.core.net[1..];
    assert QueuedFollows(s.core.net) == QueuedFollows(rest);
    assert forall u :: u in s.core.net <==> u == t || u in rest;
    assert CoreTokens(s.core) >= 1 + Bit(s.core.url.ReadPending?);
  }

  lemma CallNet(s: State, rejected: Option<int>, timeout: bool, r: ReadResult)
    requires TokenInv(s) && StartInv(s) && HopInv(s) && CallInv(s) && NetEnabled(s, r)
    ensures CallInv(RunNetTask(s, rejected, timeout, r))
  {
    var t, rest := s.core.net[0], s.core.net[1..];
    if t.StartTask? || t.FollowTask? {
      assert QueuedFollows(s.core.net) == Bit(t.FollowTask?) + QueuedFollows(rest);
      assert forall u :: u in s.core.net <==> u == t || u in rest;
    } else if t.ReadMoreTask? {
      CallRead(s, rejected, timeout, r);
    } else {
      CallPlain(s, rejected, timeout, r);
    }
  }

  lemma CallUrl(s: State, a: UrlAction)
    requires TokenInv(s) && StartInv(s) && HopInv(s) && CallInv(s) && UrlEnabled(s, a)
    ensures CallInv(UrlStep(s, a))
  {
    PostedTask(s.core.net, RedirectErrorTask);
    assert s.core.completed.No?;
  }

  /** A step that at most posts a ReadMore. */
  lemma CallFrame(s: State, next: State)
    requires CallInv(s)
    requires next.core.net == s.core.net || next.core.net == s.core.net + [ReadMoreTask]
    requires next.core.config == s.core.config && next.core.completed == s.core.completed
    requires next.core.redirectDeferred == s.core.redirectDeferred && next.core.url == s.core.url
    requires next.core.timer == s.core.timer && next.core.started == s.core.started
    requires next.cancels == s.cancels && next.followers == s.followers
    requires next.h.calls == s.h.calls
    requires next.h.hopsDeferred == s.h.hopsDeferred && next.h.hopsFollowed == s.h.hopsFollowed
    ensures CallInv(next)
  {
    PostedTask(s.core.net, ReadMoreTask);
  }

  lemma CallResumer(s: State, isOwn: bool, pc: ResumePc, spurious: bool)
    requires CallInv(s) && ResumeEnabled(s, isOwn, pc)
    ensures CallInv(RunResumer(s, isOwn, pc, spurious))
  {
    CallFrame(s, RunResumer(s, isOwn, pc, spurious));
  }

  lemma CallRunner(s: State, a: CallbackAction)
    requires CallInv(s) && CallbackEnabled(s, a)
    ensures CallInv(CallbackStep(s, a))
  {
    CallFrame(s, CallbackStep(s, a));
  }

  lemma CallStep(s: State, a: Action)
    requires TokenInv(s) && StartInv(s) && HopInv(s) && CallInv(s) && Enabled(s, a)
    ensures CallInv(Step(s, a))
  {
    match a
    case Api(x) => CallApi(s, x);
    case Net(rejected, timeout, r) => CallNet(s, rejected, timeout, r);
    case Env(x) => CallUrl(s, x);
    case Resume(isOwn, pc, spurious) => CallResumer(s, isOwn, pc, spurious);
    case OnRunner(x) => CallRunner(s, x);
    case Consumer(x) => CallFrame(s, TakeStep(s, x));
  }
}
