/**
 * Invariant 7 of the request pipeline: what the callback sequence says about the
 * response and the redirects of a request.
 */
module PipelineHops {
  import opened Prelude
  import opened RequestQueue
  import opened CoreRequest
  import opened Pipeline
  import opened PipelineTokens
  import opened PipelineTrace
  import opened PipelineData

  /** The redirects a callback sequence reports. */
  function HopsOf(trace: seq<Callback>): seq<Hop> {
    if trace == [] then []
    else
      var n := |trace| - 1;
      HopsOf(trace[..n]) + if trace[n].RedirectCb? then [trace[n].hop] else []
  }

  predicate HasResponse(trace: seq<Callback>) {
    exists t :: t in trace && t.ResponseCb?
  }

  lemma HopsAppend(trace: seq<Callback>, t: Callback)
    ensures HopsOf(trace + [t]) == HopsOf(trace) + if t.RedirectCb? then [t.hop] else []
    ensures HasResponse(trace + [t]) <==> HasResponse(trace) || t.ResponseCb?
  {
    assert (trace + [t])[..|trace|] == trace;
    assert t in trace + [t];
    assert forall u :: u in trace ==> u in trace + [t];
  }

  lemma {:induction false} HopsJoin(a: seq<Callback>, b: seq<Callback>)
    ensures HopsOf(a + b) == HopsOf(a) + HopsOf(b)
  {
    if b == [] {
      assert a + b == a;
    } else {
      var n := |b| - 1;
      assert a + b == (a + b[..n]) + [b[n]];
      assert b == b[..n] + [b[n]];
      HopsAppend(a + b[..n], b[n]);
      HopsJoin(a, b[..n]);
    }
  }

  /** Posting on the callback runner appends to the whole callback sequence. */
  lemma PostHops(trace: seq<Callback>, cb: seq<Callback>, t: Callback)
    ensures HopsOf(trace + (cb + [t]))
            == HopsOf(trace + cb) + if t.RedirectCb? then [t.hop] else []
    ensures HasResponse(trace + (cb + [t])) <==> HasResponse(trace + cb) || t.ResponseCb?
  {
    assert trace + (cb + [t]) == (trace + cb) + [t];
    HopsAppend(trace + cb, t);
  }

  /** Neither a redirect nor a response is added. */
  predicate SameAnswers(trace: seq<Callback>, cb: seq<Callback>, cb': seq<Callback>) {
    && HopsOf(trace + cb') == HopsOf(trace + cb)
    && (HasResponse(trace + cb') <==> HasResponse(trace + cb))
  }

  lemma CompleteHops(trace: seq<Callback>, c: Core, outcome: Outcome)
    ensures SameAnswers(trace, c.cb, Complete(c, outcome).cb)
  {
    PostHops(trace, c.cb, CompleteCb(outcome));
  }

  lemma ReadHops(trace: seq<Callback>, c: Core, r: ReadResult)
    requires !r.Pending?
    ensures SameAnswers(trace, c.cb, OnReadCompleted(c, r).cb)
  {
    match r
    case Pending =>
    case Bytes(chunk) => PostHops(trace, c.cb, BodyCb(chunk));
    case Eof => CompleteHops(trace, c, Finished);
    case NetError(code) => CompleteHops(trace, c, Failed(code));
  }

  lemma NetHops(trace: seq<Callback>, c: Core, t: NetTask, rejected: Option<int>, timeout: bool,
                r: ReadResult)
    ensures SameAnswers(trace, c.cb, NetCore(c, t, rejected, timeout, r).cb)
  {
    match t
    case StartTask => if rejected.Some? { CompleteHops(trace, c, Failed(rejected.value)); }
    case CancelTask => CompleteHops(trace, c, Failed(CANCELED));
    case ReadMoreTask => if !r.Pending? { ReadHops(trace, c, r); }
    case UploadTask(_) =>
    case FollowTask =>
    case RedirectErrorTask => CompleteHops(trace, c, Failed(REDIRECT));
  }

  /**
   * A response is reported exactly if there was one, no body comes without one,
   * and after it no deferred redirect is left; the redirects reported are those
   * deferred, unless Chromium follows them itself.
   */
  predicate AnswerInv(s: State) {
    && (s.h.responded.No? ==> |s.h.delivered| == 0)
    && (s.h.responded.Yes? <==> HasResponse(AllCallbacks(s)))
    && (s.h.responded.Yes? ==> s.h.hopsDeferred == s.h.hopsFollowed)
    && (!s.core.config.mode.FollowMode? ==> |HopsOf(AllCallbacks(s))| == s.h.hopsDeferred)
    && (s.q.response.Some? ==> s.h.responded.Yes?)
  }

  lemma AnswerNet(s: State, rejected: Option<int>, timeout: bool, r: ReadResult)
    requires TokenInv(s) && HopInv(s) && AnswerInv(s) && NetEnabled(s, r)
    ensures AnswerInv(RunNetTask(s, rejected, timeout, r))
  {
    NetHops(s.h.trace, Popped(s.core), s.core.net[0], rejected, timeout, r);
  }

  lemma UrlHops(trace: seq<Callback>, c: Core, a: UrlAction)
    requires a.UrlReadDone? ==> !a.read.Pending?
    ensures var cb := UrlCore(c, a).cb;
      && HopsOf(trace + cb) == HopsOf(trace + c.cb) + (if a.UrlRedirect? then [a.hop] else [])
      && (HasResponse(trace + cb) <==> HasResponse(trace + c.cb) || a.UrlResponse?)
  {
    match a
    case UrlRedirect(hop) => PostHops(trace, c.cb, RedirectCb(hop));
    case UrlResponse(head) => PostHops(trace, c.cb, ResponseCb(head));
    case UrlFailed(code) => CompleteHops(trace, c, Failed(code));
    case UrlReadDone(r) => ReadHops(trace, c.(url := Responded), r);
    case TimerFires => CompleteHops(trace, c, Failed(TIMEOUT));
  }

  /** When the URLRequest reports: an answer before the response, with every hop followed, a read after it. */
  lemma UrlFacts(s: State, a: UrlAction)
    requires TokenInv(s) && StartInv(s) && HopInv(s) && UrlEnabled(s, a)
    ensures a.UrlRedirect? || a.UrlResponse? ==>
      s.h.responded.No? && s.h.hopsDeferred == s.h.hopsFollowed
    ensures a.UrlReadDone? ==> s.h.responded.Yes?
  {
    assert s.core.completed.No?;
  }

  lemma AnswerUrlFrom(s: State, a: UrlAction)
    requires AnswerInv(s) && UrlEnabled(s, a)
    requires a.UrlRedirect? || a.UrlResponse? ==>
      s.h.responded.No? && s.h.hopsDeferred == s.h.hopsFollowed
    requires a.UrlReadDone? ==> s.h.responded.Yes?
    ensures AnswerInv(UrlStep(s, a))
  {
    UrlHops(s.h.trace, s.core, a);
    assert UrlStep(s, a).core.config == s.core.config;
  }

  lemma AnswerUrl(s: State, a: UrlAction)
    requires TokenInv(s) && StartInv(s) && HopInv(s) && AnswerInv(s) && UrlEnabled(s, a)
    ensures AnswerInv(UrlStep(s, a))
  {
    UrlFacts(s, a);
    AnswerUrlFrom(s, a);
  }

  lemma AnswerReceive(s: State)
    requires AnswerInv(s) && CallbackEnabled(s, CbRun)
    ensures AnswerInv(RunCallback(s))
  {
    assert AllCallbacks(RunCallback(s)) == AllCallbacks(s);
    assert s.core.cb[0] in AllCallbacks(s);
  }

  /** A step that reports nothing and moves no redirect. */
  lemma AnswerFrame(s: State, next: State)
    requires AnswerInv(s)
    requires next.core.cb == s.core.cb && next.core.config == s.core.config
    requires next.h.trace == s.h.trace && next.h.responded == s.h.responded
    requires next.h.delivered == s.h.delivered
    requires next.h.hopsDeferred == s.h.hopsDeferred && next.h.hopsFollowed == s.h.hopsFollowed
    requires next.q.response.Some? ==> s.q.response.Some?
    ensures AnswerInv(next)
  {
  }

  lemma AnswerApi(s: State, a: ApiAction)
    requires AnswerInv(s) && ApiEnabled(s, a)
    ensures AnswerInv(ApiStep(s, a))
  {
    AnswerFrame(s, ApiStep(s, a));
  }

  lemma AnswerOther(s: State, a: Action)
    requires AnswerInv(s) && Enabled(s, a)
    requires a.Resume? || a.Consumer? || (a.OnRunner? && !a.callback.CbRun?)
    ensures AnswerInv(Step(s, a))
  {
    AnswerFrame(s, Step(s, a));
  }

  lemma AnswerStep(s: State, a: Action)
    requires TokenInv(s) && StartInv(s) && HopInv(s) && AnswerInv(s) && Enabled(s, a)
    ensures AnswerInv(Step(s, a))
  {
    match a
    case Net(rejected, timeout, r) => AnswerNet(s, rejected, timeout, r);
    case Env(x) => AnswerUrl(s, x);
    case Api(x) => AnswerApi(s, x);
    case OnRunner(CbRun) => AnswerReceive(s);
    case _ => AnswerOther(s, a);
  }
}
