/**
 * Invariant 2 of the request pipeline: flow control across the two layers. A
 * pause is never stranded, and the queue is bounded by counting pauses, clears
 * and consumed resumes.
 */
module PipelineFlow {
  import opened Prelude
  import opened RequestQueue
  import opened CoreRequest
  import opened Pipeline
  import opened PipelineTokens
  import opened PipelineTrace

  /** The callback runner carries a pause answer it has not yet acted on. */
  predicate PauseUnderway(pc: CallbackPc) {
    pc == InHook(PauseReads) || pc == Finishing(PauseReads)
  }

  /** A pause answer that no resume has consumed. */
  predicate Pausing(s: State) {
    PauseUnderway(s.cbPc) || s.core.readState.Paused?
  }

  predicate SizesOk(cb: seq<Callback>) {
    forall i :: 0 <= i < |cb| && cb[i].BodyCb? ==> 1 <= |cb[i].chunk| <= READ_BUFFER_SIZE
  }

  predicate ChunksOk(chunks: seq<Chunk>) {
    forall i :: 0 <= i < |chunks| ==> 1 <= |chunks[i]| <= READ_BUFFER_SIZE
  }

  /** What `n` maximal chunks add to a queue one byte under the ceiling. */
  function Ceiling(n: int): int {
    BODY_BUFFER_LIMIT - 1 + READ_BUFFER_SIZE * n
  }

  predicate FlowInv(s: State) {
    && SizesOk(s.core.cb)
    && ChunksOk(s.h.delivered)
    && RequestQueue.Valid(s.q)
    // A cleared pause has its resume on the way.
    && (Pausing(s) && s.q.readPaused.No? && !s.core.readState.ResumeRequested? ==>
          s.own.Waiting() >= 1)
    // Every consumed, recorded or waiting resume came from a clear or an outside call.
    && s.h.resumes + s.own.Waiting() + s.external.Waiting()
       + Bit(s.core.readState.ResumeRequested? && !s.cbPc.FallingBack?)
       <= s.h.clears + s.h.externals
    && s.h.clears + Bit(s.q.readPaused.Yes?) <= s.h.pauses
    && s.h.pauses == s.h.resumes + Bit(Pausing(s))
    && s.q.bodyBytes <= Ceiling(s.h.pauses - s.h.clears)
  }

  /** The network side only posts callbacks and delivers chunks of the allowed sizes. */
  lemma FlowKept(s: State, next: State)
    requires FlowInv(s)
    requires next.q == s.q && next.cbPc == s.cbPc && next.core.readState == s.core.readState
    requires next.own == s.own && next.external == s.external
    requires next.h.pauses == s.h.pauses && next.h.clears == s.h.clears
    requires next.h.resumes == s.h.resumes && next.h.externals == s.h.externals
    requires SizesOk(next.core.cb) && ChunksOk(next.h.delivered)
    ensures FlowInv(next)
  {
  }

  lemma NetSizes(c: Core, t: NetTask, rejected: Option<int>, timeout: bool, r: ReadResult)
    requires SizesOk(c.cb) && ReadOk(r)
    ensures SizesOk(NetCore(c, t, rejected, timeout, r).cb)
    ensures NetCore(c, t, rejected, timeout, r).readState == c.readState
  {
  }

  lemma FlowNet(s: State, rejected: Option<int>, timeout: bool, r: ReadResult)
    requires FlowInv(s) && NetEnabled(s, r)
    ensures FlowInv(RunNetTask(s, rejected, timeout, r))
  {
    NetSizes(Popped(s.core), s.core.net[0], rejected, timeout, r);
    FlowKept(s, RunNetTask(s, rejected, timeout, r));
  }

  lemma UrlSizes(c: Core, a: UrlAction)
    requires SizesOk(c.cb) && (a.UrlReadDone? ==> !a.read.Pending? && ReadOk(a.read))
    ensures SizesOk(UrlCore(c, a).cb) && UrlCore(c, a).readState == c.readState
  {
  }

  lemma FlowUrl(s: State, a: UrlAction)
    requires FlowInv(s) && UrlEnabled(s, a)
    ensures FlowInv(UrlStep(s, a))
  {
    UrlSizes(s.core, a);
    FlowKept(s, UrlStep(s, a));
  }

  lemma FlowResumer(s: State, isOwn: bool, pc: ResumePc, spurious: bool)
    requires TokenInv(s) && FlowInv(s) && ResumeEnabled(s, isOwn, pc)
    ensures FlowInv(RunResumer(s, isOwn, pc, spurious))
  {
    assert s.core.readState.Paused? ==> !Running(s.cbPc);
  }

  /** Taking the front callback off the queue. */
  lemma SizesTail(cb: seq<Callback>)
    requires SizesOk(cb) && cb != []
    ensures SizesOk(cb[1..]) && (cb[0].BodyCb? ==> 1 <= |cb[0].chunk| <= READ_BUFFER_SIZE)
  {
  }

  /** A body callback runs only while no earlier pause is outstanding. */
  lemma FlowBody(s: State)
    requires TokenInv(s) && TraceInv(s) && FlowInv(s) && CallbackEnabled(s, CbRun)
    requires s.core.cb[0].BodyCb?
    ensures FlowInv(RunCallback(s))
  {
    var t := s.core.cb[0];
    assert !s.core.readState.Paused?;
    assert !Pausing(s);
    SizesTail(s.core.cb);
    OnBodyValid(s.q, t.chunk);
    TraceReceive(s);
    ScanAppend(s.h.trace, t);
  }

  lemma FlowReceive(s: State)
    requires TokenInv(s) && TraceInv(s) && FlowInv(s) && CallbackEnabled(s, CbRun)
    ensures FlowInv(RunCallback(s))
  {
    if s.core.cb[0].BodyCb? { FlowBody(s); }
    else { SizesTail(s.core.cb); }
  }

  lemma FlowCallback(s: State, a: CallbackAction)
    requires TokenInv(s) && FlowInv(s) && CallbackEnabled(s, a) && !a.CbRun?
    ensures FlowInv(CallbackStep(s, a))
  {
  }

  lemma FlowApi(s: State, a: ApiAction)
    requires FlowInv(s) && ApiEnabled(s, a)
    ensures FlowInv(ApiStep(s, a))
  {
  }

  lemma FlowTake(s: State, a: TakeAction)
    requires FlowInv(s)
    ensures FlowInv(TakeStep(s, a))
  {
    if a.TakeBodyItem? { NextValid(s.q); }
  }

  lemma FlowStep(s: State, a: Action)
    requires TokenInv(s) && TraceInv(s) && FlowInv(s) && Enabled(s, a)
    ensures FlowInv(Step(s, a))
  {
    match a
    case Api(x) => FlowApi(s, x);
    case Resume(isOwn, pc, spurious) => FlowResumer(s, isOwn, pc, spurious);
    case Net(rejected, timeout, r) => FlowNet(s, rejected, timeout, r);
    case Env(x) => FlowUrl(s, x);
    case OnRunner(x) =>
      if x.CbRun? { FlowReceive(s); } else { FlowCallback(s, x); }
    case Consumer(x) => FlowTake(s, x);
  }
}
