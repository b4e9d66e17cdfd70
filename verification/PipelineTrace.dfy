/**
 * Invariant 3 of the request pipeline: the order of the callbacks, and what the
 * Rust queue may hold given the callbacks it has received.
 */
module PipelineTrace {
  import opened Prelude
  import opened RequestQueue
  import opened CoreRequest
  import opened Pipeline
  import opened PipelineTokens

  /** How far a callback sequence has come; Broken is a sequence no request may produce. */
  datatype Stage = Opening | Streaming | Closed | Broken

  function Advance(stage: Stage, t: Callback): Stage {
    match (stage, t)
    case (Opening, ResponseCb(_)) => Streaming
    case (Opening, RedirectCb(_)) => Opening
    case (Opening, CompleteCb(Failed(_))) => Closed
    case (Streaming, BodyCb(_)) => Streaming
    case (Streaming, CompleteCb(_)) => Closed
    case _ => Broken
  }

  function Scan(trace: seq<Callback>): Stage {
    if trace == [] then Opening
    else Advance(Scan(trace[..|trace| - 1]), trace[|trace| - 1])
  }

  lemma ScanAppend(trace: seq<Callback>, t: Callback)
    ensures Scan(trace + [t]) == Advance(Scan(trace), t)
  {
    assert (trace + [t])[..|trace|] == trace;
  }

  /** A prefix of an orderly sequence is orderly, and Closed admits nothing more. */
  lemma {:induction false} ScanPrefix(trace: seq<Callback>, n: nat)
    requires n < |trace| && !Scan(trace).Broken?
    ensures Scan(trace[..n]) == Opening || Scan(trace[..n]) == Streaming
    ensures Advance(Scan(trace[..n]), trace[n]) == Scan(trace[..n + 1])
  {
    assert trace[..n + 1][..n] == trace[..n];
    if n < |trace| - 1 {
      var shorter := trace[..|trace| - 1];
      assert shorter[..n] == trace[..n] && shorter[..n + 1] == trace[..n + 1];
      ScanPrefix(shorter, n);
    } else {
      assert trace[..n + 1] == trace;
    }
  }

  /** The promises of the ABI about one request's callbacks, stated on positions. */
  ghost predicate Orderly(trace: seq<Callback>) {
    // At most one on_complete, and nothing after it.
    && (forall i :: 0 <= i < |trace| && trace[i].CompleteCb? ==> i == |trace| - 1)
    // At most one on_response, and no redirect after it.
    && (forall i, j :: 0 <= i < j < |trace| && trace[i].ResponseCb? ==>
          !trace[j].ResponseCb? && !trace[j].RedirectCb?)
    // on_response precedes every on_body and every successful on_complete.
    && (forall j :: 0 <= j < |trace| && (trace[j].BodyCb? || trace[j] == CompleteCb(Finished)) ==>
          exists i :: 0 <= i < j && trace[i].ResponseCb?)
  }

  /** The automaton and the positional promises are the same thing. */
  lemma {:induction false} ScanIffOrderly(trace: seq<Callback>)
    ensures !Scan(trace).Broken? <==> Orderly(trace)
    ensures !Scan(trace).Broken? ==>
      && (Scan(trace).Opening? <==> forall i :: 0 <= i < |trace| ==> trace[i].RedirectCb?)
      && (Scan(trace).Closed? <==> trace != [] && trace[|trace| - 1].CompleteCb?)
      && (Scan(trace).Streaming? ==> exists i :: 0 <= i < |trace| && trace[i].ResponseCb?)
  {
    if trace != [] {
      var n := |trace| - 1;
      var shorter := trace[..n];
      ScanIffOrderly(shorter);
      assert forall i :: 0 <= i < n ==> shorter[i] == trace[i];
      if Orderly(trace) {
        assert Orderly(shorter) by {
          forall j | 0 <= j < n && (shorter[j].BodyCb? || shorter[j] == CompleteCb(Finished))
            ensures exists i :: 0 <= i < j && shorter[i].ResponseCb?
          {
            var i :| 0 <= i < j && trace[i].ResponseCb?;
            assert shorter[i].ResponseCb?;
          }
        }
        assert !Scan(shorter).Closed?;
        if Scan(shorter).Opening? {
          assert forall i :: 0 <= i < n ==> trace[i].RedirectCb?;
        } else {
          var i :| 0 <= i < n && shorter[i].ResponseCb?;
          assert trace[i].ResponseCb?;
        }
      } else if !Scan(trace).Broken? {
        if Scan(shorter).Streaming? {
          var i :| 0 <= i < n && shorter[i].ResponseCb?;
          assert trace[i].ResponseCb?;
        }
        assert Orderly(trace);
      }
    }
  }

  // ---- the whole system -------------------------------------------------------------

  /** Callbacks already received, then those still queued. */
  function AllCallbacks(s: State): seq<Callback> {
    s.h.trace + s.core.cb
  }

  function StageOf(s: State): Stage {
    if s.core.completed.Yes? then Closed else if s.h.responded.Yes? then Streaming else Opening
  }

  /** What the Rust queue may hold after callbacks that reached this stage. */
  predicate QueueFits(q: Queue, stage: Stage) {
    match stage
    case Opening => q.response.None? && q.responseTaken.No? && q.terminal.None? && |q.body| == 0
    case Streaming => q.terminal.None? && (q.response.Some? <==> q.responseTaken.No?)
    case Closed =>
      && q.terminal.Some?
      && (q.response.Some? ==> q.responseTaken.No?)
      && (q.terminal.value.Finished? && q.responseTaken.No? ==> q.response.Some?)
      && (q.response.None? && q.responseTaken.No? ==> |q.body| == 0)
    case Broken => false
  }

  predicate TraceInv(s: State) {
    && Scan(AllCallbacks(s)) == StageOf(s)
    && QueueFits(s.q, Scan(s.h.trace))
    && (s.q.terminal.Some? ==>
          s.h.trace != [] && s.h.trace[|s.h.trace| - 1] == CompleteCb(s.q.terminal.value))
  }

  /** Posting on the callback runner appends to the whole callback sequence. */
  lemma PostScan(trace: seq<Callback>, cb: seq<Callback>, t: Callback)
    ensures Scan(trace + (cb + [t])) == Advance(Scan(trace + cb), t)
  {
    assert trace + (cb + [t]) == (trace + cb) + [t];
    ScanAppend(trace + cb, t);
  }

  lemma CompleteScan(trace: seq<Callback>, c: Core, outcome: Outcome)
    requires c.completed.Yes? ==> Scan(trace + c.cb).Closed?
    requires c.completed.No? ==> Advance(Scan(trace + c.cb), CompleteCb(outcome)).Closed?
    ensures Scan(trace + Complete(c, outcome).cb).Closed?
  {
    PostScan(trace, c.cb, CompleteCb(outcome));
  }

  lemma ReadScan(trace: seq<Callback>, c: Core, r: ReadResult)
    requires c.completed.No? && Scan(trace + c.cb).Streaming? && !r.Pending?
    ensures var c' := OnReadCompleted(c, r);
      Scan(trace + c'.cb) == if c'.completed.Yes? then Closed else Streaming
  {
    match r {
      case Pending => assert false;
      case Bytes(chunk) => PostScan(trace, c.cb, BodyCb(chunk));
      case Eof => CompleteScan(trace, c, Finished);
      case NetError(code) => CompleteScan(trace, c, Failed(code));
    }
  }

  lemma NetScan(trace: seq<Callback>, c: Core, t: NetTask, rejected: Option<int>, timeout: bool,
                r: ReadResult, stage: Stage)
    requires Scan(trace + c.cb) == stage && !stage.Broken?
    requires c.completed.Yes? <==> stage.Closed?
    requires c.completed.No? && c.url.Responded? ==> stage.Streaming?
    ensures var c' := NetCore(c, t, rejected, timeout, r);
      Scan(trace + c'.cb) == if c'.completed.Yes? then Closed else stage
  {
    match t
    case StartTask => if rejected.Some? { CompleteScan(trace, c, Failed(rejected.value)); }
    case CancelTask => CompleteScan(trace, c, Failed(CANCELED));
    case ReadMoreTask =>
      if c.completed.No? && c.url.Responded? && !r.Pending? { ReadScan(trace, c, r); }
    case UploadTask(_) =>
    case FollowTask =>
    case RedirectErrorTask => CompleteScan(trace, c, Failed(REDIRECT));
  }

  lemma TraceNet(s: State, rejected: Option<int>, timeout: bool, r: ReadResult)
    requires TokenInv(s) && TraceInv(s) && NetEnabled(s, r)
    ensures TraceInv(RunNetTask(s, rejected, timeout, r))
  {
    NetScan(s.h.trace, Popped(s.core), s.core.net[0], rejected, timeout, r, StageOf(s));
  }

  lemma UrlReadScan(trace: seq<Callback>, c: Core, r: ReadResult)
    requires Scan(trace + c.cb).Streaming? && c.completed.No? && !r.Pending?
    ensures Scan(trace + ReadDone(c, r).cb) ==
      if ReadDone(c, r).completed.Yes? then Closed else Streaming
  {
    ReadScan(trace, c.(url := Responded), r);
  }

  lemma UrlScan(trace: seq<Callback>, c: Core, a: UrlAction, stage: Stage)
    requires Scan(trace + c.cb) == stage && (stage.Opening? || stage.Streaming?)
    requires c.completed.No?
    requires a.UrlReadDone? ==> !a.read.Pending? && stage.Streaming?
    requires a.UrlRedirect? || a.UrlResponse? ==> stage.Opening?
    ensures var c' := UrlCore(c, a);
      Scan(trace + c'.cb) ==
        if c'.completed.Yes? then Closed else if a.UrlResponse? then Streaming else stage
  {
    match a
    case UrlRedirect(hop) => PostScan(trace, c.cb, RedirectCb(hop));
    case UrlResponse(head) => PostScan(trace, c.cb, ResponseCb(head));
    case UrlFailed(code) => CompleteScan(trace, c, Failed(code));
    case UrlReadDone(r) => UrlReadScan(trace, c, r);
    case TimerFires => CompleteScan(trace, c, Failed(TIMEOUT));
  }

  lemma TraceUrl(s: State, a: UrlAction)
    requires TokenInv(s) && StartInv(s) && TraceInv(s) && UrlEnabled(s, a)
    ensures TraceInv(UrlStep(s, a))
  {
    assert s.core.completed.No?;
    UrlScan(s.h.trace, s.core, a, StageOf(s));
  }

  lemma TraceReceive(s: State)
    requires TraceInv(s) && CallbackEnabled(s, CbRun)
    ensures TraceInv(RunCallback(s))
    ensures !Scan(s.h.trace + [s.core.cb[0]]).Broken?
  {
    var all, n := AllCallbacks(s), |s.h.trace|;
    assert AllCallbacks(RunCallback(s)) == all;
    assert all[..n] == s.h.trace && all[..n + 1] == s.h.trace + [s.core.cb[0]];
    ScanPrefix(all, n);
    if n + 1 < |all| {
      ScanPrefix(all, n + 1);
    } else {
      assert all[..n + 1] == all;
    }
  }

  lemma TraceTake(s: State, a: TakeAction)
    requires TraceInv(s)
    ensures TraceInv(TakeStep(s, a))
  {
  }

  lemma TraceApi(s: State, a: ApiAction)
    requires TraceInv(s) && ApiEnabled(s, a)
    ensures TraceInv(ApiStep(s, a))
  {
    assert ApiStep(s, a).core.cb == s.core.cb;
  }

  lemma TraceResume(s: State, isOwn: bool, pc: ResumePc, spurious: bool)
    requires TraceInv(s) && ResumeEnabled(s, isOwn, pc)
    ensures TraceInv(RunResumer(s, isOwn, pc, spurious))
  {
    assert ResumeStep(s.core, pc, spurious).0.cb == s.core.cb;
  }

  lemma TraceStep(s: State, a: Action)
    requires TokenInv(s) && StartInv(s) && TraceInv(s) && Enabled(s, a)
    ensures TraceInv(Step(s, a))
  {
    match a
    case Api(x) => TraceApi(s, x);
    case Resume(isOwn, pc, spurious) => TraceResume(s, isOwn, pc, spurious);
    case Net(rejected, timeout, r) => TraceNet(s, rejected, timeout, r);
    case Env(x) => TraceUrl(s, x);
    case OnRunner(x) => if x.CbRun? { TraceReceive(s); }
    case Consumer(x) => TraceTake(s, x);
  }
}
