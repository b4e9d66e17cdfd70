/**
 * Invariants 4 to 6 of the request pipeline: no byte is lost or reordered
 * between the Core and the consumers, uploads reach the writer in accept order,
 * and each deferred redirect is followed at most once.
 */
module PipelineData {
  import opened Prelude
  import opened RequestQueue
  import opened CoreRequest
  import opened Pipeline
  import opened PipelineTokens

  // ---- response body ----------------------------------------------------------------

  /** The chunks of the body callbacks still queued. */
  function Bodies(cb: seq<Callback>): seq<Chunk> {
    if cb == [] then []
    else (if cb[0].BodyCb? then [cb[0].chunk] else []) + Bodies(cb[1..])
  }

  lemma {:induction false} BodiesAppend(cb: seq<Callback>, t: Callback)
    ensures Bodies(cb + [t]) == Bodies(cb) + if t.BodyCb? then [t.chunk] else []
  {
    if cb != [] {
      assert (cb + [t])[1..] == cb[1..] + [t];
      BodiesAppend(cb[1..], t);
    }
  }

  predicate ConserveInv(s: State) {
    s.h.delivered == s.h.taken + s.q.body + Bodies(s.core.cb)
  }

  lemma CompleteBodies(c: Core, outcome: Outcome)
    ensures Bodies(Complete(c, outcome).cb) == Bodies(c.cb)
  {
    BodiesAppend(c.cb, CompleteCb(outcome));
  }

  lemma ReadBodies(c: Core, r: ReadResult)
    requires !r.Pending?
    ensures Bodies(OnReadCompleted(c, r).cb) == Bodies(c.cb) + if r.Bytes? then [r.chunk] else []
  {
    match r
    case Pending =>
    case Bytes(chunk) => BodiesAppend(c.cb, BodyCb(chunk));
    case Eof => CompleteBodies(c, Finished);
    case NetError(code) => CompleteBodies(c, Failed(code));
  }

  lemma NetBodies(c: Core, t: NetTask, rejected: Option<int>, timeout: bool, r: ReadResult)
    ensures Bodies(NetCore(c, t, rejected, timeout, r).cb)
            == Bodies(c.cb) + if NetDelivers(c, t, r) then [r.chunk] else []
  {
    match t
    case StartTask => if rejected.Some? { CompleteBodies(c, Failed(rejected.value)); }
    case CancelTask => CompleteBodies(c, Failed(CANCELED));
    case ReadMoreTask => if !r.Pending? { ReadBodies(c, r); }
    case UploadTask(_) =>
    case FollowTask =>
    case RedirectErrorTask => CompleteBodies(c, Failed(REDIRECT));
  }

  lemma UrlBodies(c: Core, a: UrlAction)
    requires a.UrlReadDone? ==> !a.read.Pending?
    ensures Bodies(UrlCore(c, a).cb)
            == Bodies(c.cb) + if a.UrlReadDone? && a.read.Bytes? then [a.read.chunk] else []
  {
    match a
    case UrlRedirect(hop) => BodiesAppend(c.cb, RedirectCb(hop));
    case UrlResponse(head) => BodiesAppend(c.cb, ResponseCb(head));
    case UrlFailed(code) => CompleteBodies(c, Failed(code));
    case UrlReadDone(r) => ReadBodies(c.(url := Responded), r);
    case TimerFires => CompleteBodies(c, Failed(TIMEOUT));
  }

  lemma ConserveReceive(s: State)
    requires ConserveInv(s) && CallbackEnabled(s, CbRun)
    ensures ConserveInv(RunCallback(s))
  {
    var t, rest := s.core.cb[0], Bodies(s.core.cb[1..]);
    if t.BodyCb? {
      assert s.h.taken + s.q.body + ([t.chunk] + rest) == s.h.taken + (s.q.body + [t.chunk]) + rest;
    } else {
      assert [] + rest == rest;
    }
  }

  lemma ConserveTake(s: State)
    requires ConserveInv(s)
    ensures ConserveInv(RunTakeBody(s))
  {
    if s.q.body != [] {
      var front, rest := s.q.body[0], s.q.body[1..];
      assert s.q.body == [front] + rest;
      assert s.h.taken + ([front] + rest) == (s.h.taken + [front]) + rest;
    }
  }

  lemma ConserveStep(s: State, a: Action)
    requires ConserveInv(s) && Enabled(s, a)
    ensures ConserveInv(Step(s, a))
  {
    match a
    case Api(x) => assert ApiStep(s, x).core.cb == s.core.cb;
    case Resume(_, pc, spurious) => assert ResumeStep(s.core, pc, spurious).0.cb == s.core.cb;
    case Net(rejected, timeout, r) => NetBodies(Popped(s.core), s.core.net[0], rejected, timeout, r);
    case Env(x) => UrlBodies(s.core, x);
    case OnRunner(x) => if x.CbRun? { ConserveReceive(s); }
    case Consumer(x) => if x.TakeBodyItem? { ConserveTake(s); }
  }

  // ---- request body -----------------------------------------------------------------

  function QueuedUploads(net: seq<NetTask>): seq<Upload> {
    if net == [] then []
    else (if net[0].UploadTask? then [net[0].upload] else []) + QueuedUploads(net[1..])
  }

  lemma {:induction false} QueuedUploadsAppend(net: seq<NetTask>, t: NetTask)
    ensures QueuedUploads(net + [t])
            == QueuedUploads(net) + if t.UploadTask? then [t.upload] else []
  {
    if net != [] {
      assert (net + [t])[1..] == net[1..] + [t];
      QueuedUploadsAppend(net[1..], t);
    }
  }

  /** The chunk of the thread that holds upload_lock_. */
  function Held(u: Option<Upload>): seq<Upload> {
    if u.Some? then [u.value] else []
  }

  /** Only the last accepted chunk may be final, and it closes the upload. */
  predicate AcceptOk(config: Config, accepted: seq<Upload>, finished: Flag) {
    && (forall i :: 0 <= i < |accepted| - 1 ==> !accepted[i].final)
    && (finished.Yes? <==> accepted != [] && accepted[|accepted| - 1].final)
    && (!config.chunked ==> |accepted| == 0)
  }

  predicate AcceptInv(s: State) {
    AcceptOk(s.core.config, s.h.accepted, s.core.uploadFinished)
  }

  lemma AcceptStep(s: State, a: Action)
    requires AcceptInv(s) && Enabled(s, a)
    ensures AcceptInv(Step(s, a))
  {
  }

  /** Accepted chunks are written, queued on the network runner, or held under the lock. */
  predicate WriteOk(config: Config, started: Flag, completed: Flag, writer: Option<seq<Upload>>,
                    net: seq<NetTask>, uploader: Option<Upload>, accepted: seq<Upload>,
                    written: seq<Upload>) {
    && (writer.Some? ==> writer.value == written)
    && (StartTask in net ==> |written| == 0)
    && (completed.No? ==>
          && (config.chunked && started.Yes? && StartTask !in net ==> writer.Some?)
          && accepted == written + QueuedUploads(net) + Held(uploader))
    && written <= accepted
  }

  predicate WriteInv(s: State) {
    WriteOk(s.core.config, s.core.started, s.core.completed, s.core.writer, s.core.net, s.uploader,
            s.h.accepted, s.h.written)
  }

  /** A network task other than the start and the uploads keeps the writer or completes. */
  lemma NetKeepsWriter(c: Core, t: NetTask, rejected: Option<int>, timeout: bool, r: ReadResult)
    requires !t.StartTask? && !t.UploadTask?
    ensures var c' := NetCore(c, t, rejected, timeout, r);
      && c'.config == c.config && c'.started == c.started && c'.net == c.net
      && ((c'.writer == c.writer && c'.completed == c.completed)
          || (c'.writer.None? && c'.completed.Yes?))
  {
  }

  lemma QueueDrops(net: seq<NetTask>)
    requires net != [] && !net[0].UploadTask?
    ensures QueuedUploads(net) == QueuedUploads(net[1..])
    ensures StartTask in net[1..] ==> StartTask in net
  {
    assert [] + QueuedUploads(net[1..]) == QueuedUploads(net[1..]);
  }

  lemma WriteNet(s: State, rejected: Option<int>, timeout: bool, r: ReadResult)
    requires StartInv(s) && AcceptInv(s) && WriteInv(s) && NetEnabled(s, r)
    requires !s.core.net[0].UploadTask? && !s.core.net[0].StartTask?
    ensures WriteInv(RunNetTask(s, rejected, timeout, r))
  {
    QueueDrops(s.core.net);
    NetKeepsWriter(Popped(s.core), s.core.net[0], rejected, timeout, r);
    assert StartTask !in s.core.net;
  }

  lemma WriteStart(s: State, rejected: Option<int>, timeout: bool, r: ReadResult)
    requires StartInv(s) && AcceptInv(s) && WriteInv(s) && NetEnabled(s, r)
    requires s.core.net[0].StartTask?
    ensures WriteInv(RunNetTask(s, rejected, timeout, r))
  {
    QueueDrops(s.core.net);
    assert s.core.completed.No?;
  }

  lemma WriteUpload(s: State, rejected: Option<int>, timeout: bool, r: ReadResult)
    requires StartInv(s) && AcceptInv(s) && WriteInv(s) && NetEnabled(s, r)
    requires s.core.net[0].UploadTask?
    ensures WriteInv(RunNetTask(s, rejected, timeout, r))
  {
    var u, rest := s.core.net[0].upload, s.core.net[1..];
    assert StartTask !in s.core.net && StartTask !in rest;
    if s.core.completed.No? {
      var left := QueuedUploads(rest) + Held(s.uploader);
      assert QueuedUploads(s.core.net) == [u] + QueuedUploads(rest);
      assert s.h.accepted == s.h.written + ([u] + left);
      assert s.h.accepted == (s.h.written + [u]) + left;
      assert s.h.written + [u] <= s.h.accepted;
    }
  }

  lemma WritePosts(net: seq<NetTask>, t: NetTask)
    ensures QueuedUploads(net + [t])
            == QueuedUploads(net) + if t.UploadTask? then [t.upload] else []
    ensures StartTask in net + [t] <==> StartTask in net || t.StartTask?
  {
    QueuedUploadsAppend(net, t);
    assert (net + [t])[|net|] == t;
  }

  lemma WriteApi(s: State, a: ApiAction)
    requires StartInv(s) && AcceptInv(s) && WriteInv(s) && ApiEnabled(s, a)
    ensures WriteInv(ApiStep(s, a))
  {
    match a
    case CallStart => WritePosts(s.core.net, StartTask);
    case CancelPost => WritePosts(s.core.net, CancelTask);
    case FollowPost => WritePosts(s.core.net, FollowTask);
    case UploadPost => WritePosts(s.core.net, UploadTask(s.uploader.value));
    case _ =>
  }

  lemma WriteUrl(s: State, a: UrlAction)
    requires StartInv(s) && WriteInv(s) && UrlEnabled(s, a)
    ensures WriteInv(UrlStep(s, a))
  {
    WritePosts(s.core.net, RedirectErrorTask);
  }

  /** A step that neither uploads nor completes, and at most posts a ReadMore. */
  lemma WriteKept(s: State, next: State)
    requires WriteInv(s)
    requires next.core.config == s.core.config && next.core.started == s.core.started
    requires next.core.completed == s.core.completed && next.core.writer == s.core.writer
    requires next.core.net == s.core.net || next.core.net == s.core.net + [ReadMoreTask]
    requires next.uploader == s.uploader
    requires next.h.accepted == s.h.accepted && next.h.written == s.h.written
    ensures WriteInv(next)
  {
    WritePosts(s.core.net, ReadMoreTask);
    assert QueuedUploads(s.core.net) + [] == QueuedUploads(s.core.net);
  }

  lemma WriteResume(s: State, isOwn: bool, pc: ResumePc, spurious: bool)
    requires WriteInv(s) && ResumeEnabled(s, isOwn, pc)
    ensures WriteInv(RunResumer(s, isOwn, pc, spurious))
  {
    WriteKept(s, RunResumer(s, isOwn, pc, spurious));
  }

  lemma WriteCallback(s: State, a: CallbackAction)
    requires WriteInv(s) && CallbackEnabled(s, a)
    ensures WriteInv(CallbackStep(s, a))
  {
    WriteKept(s, CallbackStep(s, a));
  }

  lemma UploadStep(s: State, a: Action)
    requires StartInv(s) && AcceptInv(s) && WriteInv(s) && Enabled(s, a)
    ensures AcceptInv(Step(s, a)) && WriteInv(Step(s, a))
  {
    AcceptStep(s, a);
    match a
    case Api(x) => WriteApi(s, x);
    case Net(rejected, timeout, r) =>
      if s.core.net[0].UploadTask? { WriteUpload(s, rejected, timeout, r); }
      else if s.core.net[0].StartTask? { WriteStart(s, rejected, timeout, r); }
      else { WriteNet(s, rejected, timeout, r); }
    case Env(x) => WriteUrl(s, x);
    case Resume(isOwn, pc, spurious) => WriteResume(s, isOwn, pc, spurious);
    case OnRunner(x) => WriteCallback(s, x);
    case Consumer(x) => WriteKept(s, TakeStep(s, x));
  }

  // ---- deferred redirects -------------------------------------------------------------

  function QueuedFollows(net: seq<NetTask>): nat {
    if net == [] then 0 else Bit(net[0].FollowTask?) + QueuedFollows(net[1..])
  }

  lemma {:induction false} QueuedFollowsAppend(net: seq<NetTask>, t: NetTask)
    ensures QueuedFollows(net + [t]) == QueuedFollows(net) + Bit(t.FollowTask?)
  {
    if net != [] {
      assert (net + [t])[1..] == net[1..] + [t];
      QueuedFollowsAppend(net[1..], t);
    }
  }

  /** Everything that may still follow the deferred hop. */
  function Followers(s: State): nat {
    QueuedFollows(s.core.net) + s.followers + Bit(s.core.redirectDeferred.Yes?)
  }

  predicate HopInv(s: State) {
    && (s.core.completed.No? ==>
          && Followers(s) <= Bit(s.core.url.HopDeferred?)
          && s.h.hopsFollowed + Bit(s.core.url.HopDeferred?) == s.h.hopsDeferred)
    && s.h.hopsFollowed <= s.h.hopsDeferred <= s.h.hopsFollowed + 1
    && s.core.misuses == 0
  }

  lemma HopNet(s: State, rejected: Option<int>, timeout: bool, r: ReadResult)
    requires TokenInv(s) && StartInv(s) && HopInv(s) && NetEnabled(s, r)
    ensures HopInv(RunNetTask(s, rejected, timeout, r))
  {
    assert QueuedFollows(s.core.net) == Bit(s.core.net[0].FollowTask?) + QueuedFollows(s.core.net[1..]);
    if s.core.net[0].ReadMoreTask? {
      assert CoreTokens(s.core) >= 1 + Bit(s.core.url.ReadPending?);
    }
  }

  lemma HopApi(s: State, a: ApiAction)
    requires HopInv(s) && ApiEnabled(s, a)
    ensures HopInv(ApiStep(s, a))
  {
    match a
    case CallStart => QueuedFollowsAppend(s.core.net, StartTask);
    case CancelPost => QueuedFollowsAppend(s.core.net, CancelTask);
    case FollowPost => QueuedFollowsAppend(s.core.net, FollowTask);
    case UploadPost => QueuedFollowsAppend(s.core.net, UploadTask(s.uploader.value));
    case _ =>
  }

  lemma HopUrl(s: State, a: UrlAction)
    requires TokenInv(s) && StartInv(s) && HopInv(s) && UrlEnabled(s, a)
    ensures HopInv(UrlStep(s, a))
  {
    QueuedFollowsAppend(s.core.net, RedirectErrorTask);
    assert s.core.completed.No?;
  }

  lemma HopOther(s: State, a: Action)
    requires HopInv(s) && Enabled(s, a)
    requires a.Resume? || a.OnRunner? || a.Consumer?
    ensures HopInv(Step(s, a))
  {
    QueuedFollowsAppend(s.core.net, ReadMoreTask);
    match a
    case Resume(_, pc, spurious) => assert ResumeStep(s.core, pc, spurious).0.url == s.core.url;
    case OnRunner(x) => assert CallbackStep(s, x).core.url == s.core.url;
    case _ =>
  }

  lemma HopStep(s: State, a: Action)
    requires TokenInv(s) && StartInv(s) && HopInv(s) && Enabled(s, a)
    ensures HopInv(Step(s, a))
  {
    match a
    case Api(x) => HopApi(s, x);
    case Net(rejected, timeout, r) => HopNet(s, rejected, timeout, r);
    case Env(x) => HopUrl(s, x);
    case _ => HopOther(s, a);
  }
}
