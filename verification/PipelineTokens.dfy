/**
 * Invariant 1 of the request pipeline: the read token. Between the response and
 * the completion exactly one party may cause the next URLRequest::Read.
 */
module PipelineTokens {
  import opened Prelude
  import opened RequestQueue
  import opened CoreRequest
  import opened Pipeline

  function Bit(b: bool): nat { if b then 1 else 0 }

  function QueuedReads(net: seq<NetTask>): nat {
    if net == [] then 0 else Bit(net[0].ReadMoreTask?) + QueuedReads(net[1..])
  }

  predicate Answered(u: Url) { u.Responded? || u.ReadPending? }

  predicate Reader(t: Callback) { t.ResponseCb? || t.BodyCb? }

  /** Response and body callbacks: each will cause one more read. */
  function QueuedReaders(cb: seq<Callback>): nat {
    if cb == [] then 0 else Bit(Reader(cb[0])) + QueuedReaders(cb[1..])
  }

  lemma {:induction false} QueuedReadsAppend(net: seq<NetTask>, t: NetTask)
    ensures QueuedReads(net + [t]) == QueuedReads(net) + Bit(t.ReadMoreTask?)
  {
    if net != [] {
      assert (net + [t])[1..] == net[1..] + [t];
      QueuedReadsAppend(net[1..], t);
    }
  }

  lemma {:induction false} QueuedReadersAppend(cb: seq<Callback>, t: Callback)
    ensures QueuedReaders(cb + [t]) == QueuedReaders(cb) + Bit(Reader(t))
  {
    if cb != [] {
      assert (cb + [t])[1..] == cb[1..] + [t];
      QueuedReadersAppend(cb[1..], t);
    }
  }

  /** The tokens held by the two runners' queues, the URLRequest and read_state_. */
  function CoreTokens(c: Core): nat {
    QueuedReaders(c.cb) + QueuedReads(c.net) + Bit(c.url.ReadPending?)
    + Bit(c.readState.Paused?)
  }

  lemma PostNetTokens(c: Core, t: NetTask)
    ensures CoreTokens(PostNet(c, t)) == CoreTokens(c) + Bit(t.ReadMoreTask?)
  {
    QueuedReadsAppend(c.net, t);
  }

  lemma PostCallbackTokens(c: Core, t: Callback)
    ensures CoreTokens(PostCallback(c, t)) == CoreTokens(c) + Bit(Reader(t))
  {
    QueuedReadersAppend(c.cb, t);
  }

  lemma CompleteTokens(c: Core, outcome: Outcome)
    ensures Complete(c, outcome).completed.Yes?
    ensures CoreTokens(Complete(c, outcome))
            == CoreTokens(c) - Bit(c.completed.No? && c.url.ReadPending?)
  {
    PostCallbackTokens(
      c.(completed := Yes, timer := No, writer := None, url := NoRequest),
      CompleteCb(outcome));
  }

  lemma ReadTokens(c: Core, r: ReadResult)
    requires c.url.Responded? && c.completed.No?
    ensures CoreTokens(ReadMore(c, r)) == CoreTokens(c) + Bit(ReadMore(c, r).completed.No?)
    ensures !r.Pending? ==> ReadMore(c, r) == OnReadCompleted(c, r)
  {
    match r
    case Pending =>
    case Bytes(chunk) => PostCallbackTokens(c, BodyCb(chunk));
    case Eof => CompleteTokens(c, Finished);
    case NetError(code) => CompleteTokens(c, Failed(code));
  }

  lemma ResumeTokens(c: Core, pc: ResumePc, spurious: bool)
    ensures var (c', pc') := ResumeStep(c, pc, spurious);
      CoreTokens(c') + Bit(pc'.MustPost?) == CoreTokens(c) + Bit(pc.MustPost?)
  {
    PostNetTokens(c, ReadMoreTask);
  }

  /** The effect of a network task on the tokens outside the callback runner. */
  lemma NetCoreTokens(c: Core, t: NetTask, rejected: Option<int>, timeout: bool, r: ReadResult)
    requires c.completed.Yes? ==> c.url.NoRequest?
    ensures var c' := NetCore(c, t, rejected, timeout, r);
      && CoreTokens(c') <= CoreTokens(c) + Bit(t.ReadMoreTask?)
      && (c'.completed.No? && (t.ReadMoreTask? ==> c.url.Responded?) && !t.StartTask? ==>
            CoreTokens(c') == CoreTokens(c) + Bit(t.ReadMoreTask?))
  {
    match t
    case StartTask => if rejected.Some? { CompleteTokens(c, Failed(rejected.value)); }
    case CancelTask => CompleteTokens(c, Failed(CANCELED));
    case ReadMoreTask => if c.url.Responded? { ReadTokens(c, r); }
    case UploadTask(_) =>
    case FollowTask =>
    case RedirectErrorTask => CompleteTokens(c, Failed(REDIRECT));
  }

  /** Everything else the invariants need to know about a network task. */
  lemma NetCoreFrame(c: Core, t: NetTask, rejected: Option<int>, timeout: bool, r: ReadResult)
    requires c.completed.Yes? ==> c.url.NoRequest?
    ensures var c' := NetCore(c, t, rejected, timeout, r);
      && c'.net == c.net && c'.started == c.started && c'.readState == c.readState
      && (c.completed.Yes? ==> c'.completed.Yes?)
      && (c'.completed.Yes? ==> c'.url.NoRequest?)
      && (t.StartTask? && c'.completed.No? ==> c'.url.Connecting?)
      && (!t.StartTask? && c.url.NoRequest? ==> c'.url.NoRequest?)
      && (!t.StartTask? && c'.completed.No? ==> Answered(c'.url) == Answered(c.url))
  {
  }

  // ---- the whole system -----------------------------------------------------------

  /** The callback runner is inside a response or body task. */
  predicate Running(pc: CallbackPc) {
    match pc
    case CbIdle => false
    case InHook(d) => !d.NoRead?
    case Finishing(d) => !d.NoRead?
    case FallingBack => true
  }

  function Tokens(s: State): nat {
    CoreTokens(s.core) + Bit(Running(s.cbPc)) + s.own.post + s.external.post
  }

  predicate TokenInv(s: State) {
    && Tokens(s) <= 1
    && (s.h.responded.Yes? && s.core.completed.No? ==> Tokens(s) == 1 && Answered(s.core.url))
    && (s.h.responded.No? ==> Tokens(s) == 0 && !Answered(s.core.url))
    && (s.core.completed.Yes? ==> s.core.url.NoRequest?)
    && s.cbPc != Finishing(NoRead)
    && (s.cbPc.FallingBack? ==> s.core.readState.ResumeRequested?)
  }

  /** Nothing runs before Start, and the start task is the first the network runner sees. */
  predicate StartInv(s: State) {
    && (s.core.started.No? ==>
          && s.core.net == [] && s.core.url.NoRequest? && s.core.completed.No? && s.h.responded.No?
          && s.cancels == 0 && s.followers == 0 && s.uploader.None?
          && s.core.redirectDeferred.No? && s.h.accepted == [] && s.core.timer.No?)
    && (StartTask in s.core.net ==>
          && s.core.net[0] == StartTask && StartTask !in s.core.net[1..]
          && s.core.url.NoRequest? && s.core.completed.No? && s.h.responded.No? && s.core.timer.No?)
    && (s.core.timer.Yes? ==> s.core.completed.No?)
  }

  lemma TokenNet(s: State, rejected: Option<int>, timeout: bool, r: ReadResult)
    requires TokenInv(s) && StartInv(s) && NetEnabled(s, r)
    ensures TokenInv(RunNetTask(s, rejected, timeout, r))
    ensures StartInv(RunNetTask(s, rejected, timeout, r))
  {
    var c, t := Popped(s.core), s.core.net[0];
    assert CoreTokens(c) == CoreTokens(s.core) - Bit(t.ReadMoreTask?);
    NetCoreTokens(c, t, rejected, timeout, r);
    NetCoreFrame(c, t, rejected, timeout, r);
  }

  lemma UrlCoreTokens(c: Core, a: UrlAction)
    requires a.UrlReadDone? ==> !a.read.Pending? && c.url.ReadPending?
    requires !a.UrlReadDone? && !a.TimerFires? ==> c.url.Connecting?
    requires c.completed.No?
    ensures var c' := UrlCore(c, a);
      && CoreTokens(c') <= CoreTokens(c) + Bit(a.UrlResponse?)
      && (c'.completed.No? ==> CoreTokens(c') == CoreTokens(c) + Bit(a.UrlResponse?))
  {
    match a
    case UrlRedirect(hop) =>
      var d := if c.config.mode.FollowMode? then c else c.(redirectDeferred := Yes, url := HopDeferred);
      PostCallbackTokens(d, RedirectCb(hop));
      PostNetTokens(PostCallback(d, RedirectCb(hop)), RedirectErrorTask);
    case UrlResponse(head) => PostCallbackTokens(c.(url := Responded), ResponseCb(head));
    case UrlFailed(code) => CompleteTokens(c, Failed(code));
    case UrlReadDone(r) => ReadTokens(c.(url := Responded), r);
    case TimerFires => CompleteTokens(c, Failed(TIMEOUT));
  }

  lemma UrlCoreFrame(c: Core, a: UrlAction)
    requires a.UrlReadDone? ==> !a.read.Pending? && c.url.ReadPending?
    requires !a.UrlReadDone? && !a.TimerFires? ==> c.url.Connecting?
    requires c.completed.No?
    ensures var c' := UrlCore(c, a);
      && (c'.net == c.net || c'.net == c.net + [RedirectErrorTask])
      && c'.started == c.started && c'.readState == c.readState
      && (c'.completed.Yes? ==> c'.url.NoRequest?)
      && (c'.completed.No? && (a.UrlReadDone? || a.UrlResponse?) ==> Answered(c'.url))
      && (c'.completed.No? && !a.UrlReadDone? && !a.UrlResponse? ==> a.UrlRedirect? && !Answered(c'.url))
  {
  }

  lemma TokenUrl(s: State, a: UrlAction)
    requires TokenInv(s) && StartInv(s) && UrlEnabled(s, a)
    ensures TokenInv(UrlStep(s, a)) && StartInv(UrlStep(s, a))
  {
    assert s.core.completed.No?;
    UrlCoreTokens(s.core, a);
    UrlCoreFrame(s.core, a);
  }

  lemma TokenResumer(s: State, isOwn: bool, pc: ResumePc, spurious: bool)
    requires TokenInv(s) && StartInv(s) && ResumeEnabled(s, isOwn, pc)
    ensures TokenInv(RunResumer(s, isOwn, pc, spurious))
    ensures StartInv(RunResumer(s, isOwn, pc, spurious))
  {
    ResumeTokens(s.core, pc, spurious);
  }

  lemma TokenCallback(s: State, a: CallbackAction)
    requires TokenInv(s) && StartInv(s) && CallbackEnabled(s, a)
    ensures TokenInv(CallbackStep(s, a)) && StartInv(CallbackStep(s, a))
  {
    match a
    case CbRun =>
      var s' := RunCallback(s);
      assert CoreTokens(s'.core) == CoreTokens(s.core) - Bit(Reader(s.core.cb[0]));
      assert Bit(Running(s'.cbPc)) == Bit(Reader(s.core.cb[0]));
    case CbHookDone =>
    case CbPostRead => PostNetTokens(s.core, ReadMoreTask);
    case CbPauseCas =>
    case CbFallback =>
  }

  lemma TokenApi(s: State, a: ApiAction)
    requires TokenInv(s) && StartInv(s) && ApiEnabled(s, a)
    ensures TokenInv(ApiStep(s, a)) && StartInv(ApiStep(s, a))
  {
    match a
    case CallStart => PostNetTokens(s.core.(started := Yes), StartTask);
    case CancelPost => PostNetTokens(s.core, CancelTask);
    case UploadPost => PostNetTokens(s.core, UploadTask(s.uploader.value));
    case FollowPost => PostNetTokens(s.core, FollowTask);
    case _ =>
  }

  lemma TokenStep(s: State, a: Action)
    requires TokenInv(s) && StartInv(s) && Enabled(s, a)
    ensures TokenInv(Step(s, a)) && StartInv(Step(s, a))
  {
    match a
    case Api(x) => TokenApi(s, x);
    case Resume(isOwn, pc, spurious) => TokenResumer(s, isOwn, pc, spurious);
    case Net(rejected, timeout, r) => TokenNet(s, rejected, timeout, r);
    case Env(x) => TokenUrl(s, x);
    case OnRunner(x) => TokenCallback(s, x);
    case Consumer(_) =>
  }
}
