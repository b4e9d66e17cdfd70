/**
 * One HTTP request as a concurrent system: the network runner and the callback
 * runner (FIFO queues inside Core), any number of API threads, any number of
 * consumers, and Chromium's URLRequest as a nondeterministic environment.
 *
 * An Action is one atomic step and fixes every choice the step leaves open, so
 * a run is a sequence of actions.
 */
module Pipeline {
  import opened Prelude
  import opened RequestQueue
  import opened CoreRequest

  /** What the callback task still has to do after its Rust callback returned. */
  datatype Disposition = KeepReading | PauseReads | NoRead

  /**
   * The callback runner: between tasks, inside the event hook that follows the
   * Rust lock region, about to act on the disposition, or in the fallback branch
   * of PauseRead before its store; after it, it goes on as for KeepReading.
   */
  datatype CallbackPc =
    | CbIdle
    | InHook(disposition: Disposition)
    | Finishing(disposition: Disposition)
    | FallingBack

  /** How many threads stand at each atomic step of ResumeRead. */
  datatype Crowd = Crowd(first: nat, record: nat, retry: nat, post: nat) {
    function At(pc: ResumePc): nat {
      match pc
      case FirstCas => first
      case RecordCas => record
      case RetryCas => retry
      case MustPost => post
      case ResumeDone => 0
    }

    function Add(pc: ResumePc, n: int): (r: Crowd)
      requires At(pc) + n >= 0
    {
      match pc
      case FirstCas => this.(first := first + n)
      case RecordCas => this.(record := record + n)
      case RetryCas => this.(retry := retry + n)
      case MustPost => this.(post := post + n)
      case ResumeDone => this
    }

    /** Threads that have not yet taken or recorded a resume. */
    function Waiting(): nat { first + record + retry }
  }

  /** What ended a request first. */
  datatype Cause =
    | ReachedEof
    | ReadError(code: int)
    | ResponseError(code: int)
    | StartRejected(code: int)
    | CancelCalled
    | DeadlinePassed
    | RedirectRefused

  /** What URLRequest, the timer and the callers brought about, one entry for each thing to report. */
  datatype Report = HopSeen(hop: Hop) | HeadSeen(head: Head) | ChunkSeen(chunk: Chunk) | EndSeen(cause: Cause)

  /** What the callers asked for: a cancel that passed its check, the follows accepted, a deadline. */
  datatype Calls = Calls(cancelled: Flag, follows: nat, deadline: Flag)

  /** What happened so far; no step reads it. */
  datatype History = History(
    reports: seq<Report>,
    calls: Calls,
    responded: Flag,
    trace: seq<Callback>,
    delivered: seq<Chunk>,
    taken: seq<Chunk>,
    accepted: seq<Upload>,
    written: seq<Upload>,
    pauses: nat,
    clears: nat,
    resumes: nat,
    externals: nat,
    hopsDeferred: nat,
    hopsFollowed: nat)

  /** `own` are the resume_if calls that follow a clear, `external` all other callers. */
  datatype State = State(
    core: Core,
    q: Queue,
    cbPc: CallbackPc,
    cancels: nat,
    uploader: Option<Upload>,
    followers: nat,
    own: Crowd,
    external: Crowd,
    h: History)

  datatype ApiAction =
    | CallStart
    | CancelCheck
    | CancelPost
    | UploadLock(upload: Upload)
    | UploadPost
    | FollowExchange
    | FollowPost
    | ResumeCall

  datatype UrlAction =
    | UrlRedirect(hop: Hop)
    | UrlResponse(head: Head)
    | UrlFailed(code: int)
    | UrlReadDone(read: ReadResult)
    | TimerFires

  datatype CallbackAction = CbRun | CbHookDone | CbPostRead | CbPauseCas | CbFallback

  datatype TakeAction = TakeBodyItem | TakeHead | TakeHop

  datatype Action =
    | Api(api: ApiAction)
    | Resume(isOwn: bool, pc: ResumePc, spurious: bool)
    | Net(rejected: Option<int>, timeout: bool, read: ReadResult)
    | Env(env: UrlAction)
    | OnRunner(callback: CallbackAction)
    | Consumer(take: TakeAction)

  function Init(config: Config): State {
    State(NewCore(config), EmptyQueue, CbIdle, 0, None, 0,
          Crowd(0, 0, 0, 0), Crowd(0, 0, 0, 0),
          History([], Calls(No, 0, No), No, [], [], [], [], [], 0, 0, 0, 0, 0, 0))
  }

  /** Environment assumption: a chunk has 1..READ_BUFFER_SIZE bytes. */
  predicate ReadOk(r: ReadResult) {
    r.Bytes? ==> 1 <= |r.chunk| <= READ_BUFFER_SIZE
  }

  predicate ApiEnabled(s: State, a: ApiAction) {
    match a
    case CancelPost => s.cancels > 0
    case UploadLock(_) => s.uploader.None?
    case UploadPost => s.uploader.Some?
    case FollowPost => s.followers > 0
    case _ => true
  }

  predicate UrlEnabled(s: State, a: UrlAction) {
    match a
    case UrlRedirect(_) | UrlResponse(_) | UrlFailed(_) => s.core.url.Connecting?
    case UrlReadDone(r) => s.core.url.ReadPending? && ReadOk(r) && !r.Pending?
    case TimerFires => s.core.timer.Yes?
  }

  predicate CallbackEnabled(s: State, a: CallbackAction) {
    match a
    case CbRun => s.cbPc.CbIdle? && s.core.cb != []
    case CbHookDone => s.cbPc.InHook?
    case CbPostRead => s.cbPc == Finishing(KeepReading)
    case CbPauseCas => s.cbPc == Finishing(PauseReads)
    case CbFallback => s.cbPc.FallingBack?
  }

  predicate ResumeEnabled(s: State, isOwn: bool, pc: ResumePc) {
    (if isOwn then s.own else s.external).At(pc) > 0
  }

  predicate NetEnabled(s: State, r: ReadResult) {
    s.core.net != [] && ReadOk(r)
  }

  predicate Enabled(s: State, a: Action) {
    match a
    case Api(x) => ApiEnabled(s, x)
    case Resume(isOwn, pc, _) => ResumeEnabled(s, isOwn, pc)
    case Net(_, _, r) => NetEnabled(s, r)
    case Env(x) => UrlEnabled(s, x)
    case OnRunner(x) => CallbackEnabled(s, x)
    case Consumer(_) => true
  }

  // ---- one resumer --------------------------------------------------------------

  function RunResumer(s: State, isOwn: bool, pc: ResumePc, spurious: bool): State
    requires ResumeEnabled(s, isOwn, pc)
  {
    var (core, pc') := ResumeStep(s.core, pc, spurious);
    s.(core := core,
       own := if isOwn then s.own.Add(pc, -1).Add(pc', 1) else s.own,
       external := if isOwn then s.external else s.external.Add(pc, -1).Add(pc', 1),
       h := s.h.(resumes := s.h.resumes + if pc'.MustPost? then 1 else 0))
  }

  // ---- the network runner and the URLRequest ---------------------------------------

  /** The task `t`, already popped, running on the network thread. */
  function NetCore(c: Core, t: NetTask, rejected: Option<int>, timeout: bool, r: ReadResult): Core {
    match t
    case StartTask => StartOnNetworkThread(c, rejected, timeout)
    case CancelTask => CancelOnNetworkThread(c)
    case ReadMoreTask => ReadMore(c, r)
    case UploadTask(u) => UploadWriteOnNetworkThread(c, u)
    case FollowTask => FollowRedirectOnNetworkThread(c)
    case RedirectErrorTask => RedirectErrorOnNetworkThread(c)
  }

  /** A read was issued and answered at once with data. */
  predicate NetDelivers(c: Core, t: NetTask, r: ReadResult) {
    t.ReadMoreTask? && c.completed.No? && c.url.Responded? && r.Bytes?
  }

  predicate NetWrites(c: Core, t: NetTask) {
    t.UploadTask? && c.completed.No? && c.writer.Some?
  }

  predicate NetFollows(c: Core, t: NetTask) {
    t.FollowTask? && c.completed.No? && c.url.HopDeferred?
  }

  /** What URLRequest answers to a read. */
  function ReadReports(r: ReadResult): seq<Report> {
    match r
    case Pending => []
    case Bytes(chunk) => [ChunkSeen(chunk)]
    case Eof => [EndSeen(ReachedEof)]
    case NetError(code) => [EndSeen(ReadError(code))]
  }

  /** What a network task of a request that is not over brings about. */
  function NetReports(c: Core, t: NetTask, rejected: Option<int>, r: ReadResult): seq<Report> {
    if c.completed.Yes? then []
    else
      match t
      case StartTask => if rejected.Some? then [EndSeen(StartRejected(rejected.value))] else []
      case CancelTask => [EndSeen(CancelCalled)]
      case ReadMoreTask => if c.url.Responded? then ReadReports(r) else []
      case RedirectErrorTask => [EndSeen(RedirectRefused)]
      case _ => []
  }

  function Popped(c: Core): Core
    requires c.net != []
  {
    c.(net := c.net[1..])
  }

  function RunNetTask(s: State, rejected: Option<int>, timeout: bool, r: ReadResult): State
    requires s.core.net != []
  {
    var c, t := Popped(s.core), s.core.net[0];
    s.(core := NetCore(c, t, rejected, timeout, r),
       h := s.h.(
         reports := s.h.reports + NetReports(c, t, rejected, r),
         calls := if t.StartTask? && c.completed.No? && rejected.None? && timeout
                  then s.h.calls.(deadline := Yes) else s.h.calls,
         delivered := if NetDelivers(c, t, r) then s.h.delivered + [r.chunk] else s.h.delivered,
         written := if NetWrites(c, t) then s.h.written + [t.upload] else s.h.written,
         hopsFollowed := s.h.hopsFollowed + if NetFollows(c, t) then 1 else 0))
  }

  function UrlCore(c: Core, a: UrlAction): Core
    requires a.UrlReadDone? ==> !a.read.Pending?
  {
    match a
    case UrlRedirect(hop) => OnReceivedRedirect(c, hop)
    case UrlResponse(head) => OnResponseStarted(c, head)
    case UrlFailed(code) => OnResponseFailed(c, code)
    case UrlReadDone(r) => ReadDone(c, r)
    case TimerFires => TimeoutOnNetworkThread(c)
  }

  function UrlReports(a: UrlAction): seq<Report> {
    match a
    case UrlRedirect(hop) => [HopSeen(hop)]
    case UrlResponse(head) => [HeadSeen(head)]
    case UrlFailed(code) => [EndSeen(ResponseError(code))]
    case UrlReadDone(r) => ReadReports(r)
    case TimerFires => [EndSeen(DeadlinePassed)]
  }

  function UrlStep(s: State, a: UrlAction): State
    requires UrlEnabled(s, a)
  {
    s.(core := UrlCore(s.core, a),
       h := s.h.(
         reports := s.h.reports + UrlReports(a),
         responded := if a.UrlResponse? then Yes else s.h.responded,
         delivered := if a.UrlReadDone? && a.read.Bytes? then s.h.delivered + [a.read.chunk]
                      else s.h.delivered,
         hopsDeferred := s.h.hopsDeferred
                         + if a.UrlRedirect? && !s.core.config.mode.FollowMode? then 1 else 0))
  }

  // ---- the callback runner ------------------------------------------------------------

  /** The Rust callback's lock region. */
  function Received(q: Queue, t: Callback): Queue {
    match t
    case ResponseCb(head) => OnResponse(q, head)
    case BodyCb(chunk) => OnBody(q, chunk)
    case RedirectCb(hop) => OnRedirect(q, hop)
    case CompleteCb(outcome) => OnComplete(q, outcome)
  }

  function Answer(q: Queue, t: Callback): Disposition {
    match t
    case ResponseCb(_) => KeepReading
    case BodyCb(chunk) => if Pauses(q, chunk) then PauseReads else KeepReading
    case RedirectCb(_) => NoRead
    case CompleteCb(_) => NoRead
  }

  function RunCallback(s: State): State
    requires s.core.cb != []
  {
    var t := s.core.cb[0];
    s.(core := s.core.(cb := s.core.cb[1..]),
       q := Received(s.q, t),
       cbPc := InHook(Answer(s.q, t)),
       h := s.h.(trace := s.h.trace + [t],
                 pauses := s.h.pauses + if Answer(s.q, t).PauseReads? then 1 else 0))
  }

  function RunPauseCas(s: State): State {
    var (core, landed) := PauseCas(s.core);
    s.(core := core,
       cbPc := if landed then CbIdle else FallingBack,
       h := s.h.(resumes := s.h.resumes + if landed then 0 else 1))
  }

  function CallbackStep(s: State, a: CallbackAction): State
    requires CallbackEnabled(s, a)
  {
    match a
    case CbRun => RunCallback(s)
    case CbHookDone =>
      s.(cbPc := if s.cbPc.disposition.NoRead? then CbIdle else Finishing(s.cbPc.disposition))
    case CbPostRead => s.(cbPc := CbIdle, core := PostNet(s.core, ReadMoreTask))
    case CbPauseCas => RunPauseCas(s)
    case CbFallback => s.(cbPc := Finishing(KeepReading), core := PauseStore(s.core))
  }

  // ---- API threads and consumers --------------------------------------------------------

  function ApiStep(s: State, a: ApiAction): State
    requires ApiEnabled(s, a)
  {
    match a
    case CallStart => s.(core := Start(s.core))
    case CancelCheck =>
      s.(cancels := s.cancels + if s.core.started.Yes? && s.core.completed.No? then 1 else 0,
         h := if s.core.started.Yes? && s.core.completed.No?
              then s.h.(calls := s.h.calls.(cancelled := Yes)) else s.h)
    case CancelPost => s.(cancels := s.cancels - 1, core := PostNet(s.core, CancelTask))
    case UploadLock(u) =>
      if UploadAccepted(s.core, u) then
        s.(uploader := Some(u), core := s.core.(uploadFinished := ToFlag(u.final)),
           h := s.h.(accepted := s.h.accepted + [u]))
      else s
    case UploadPost =>
      s.(uploader := None, core := PostNet(s.core, UploadTask(s.uploader.value)))
    case FollowExchange =>
      if s.core.config.mode.ManualMode? && s.core.redirectDeferred.Yes? then
        s.(core := s.core.(redirectDeferred := No), followers := s.followers + 1,
           h := s.h.(calls := s.h.calls.(follows := s.h.calls.follows + 1)))
      else s
    case FollowPost =>
      s.(followers := s.followers - 1,
         core := if s.core.completed.Yes? then s.core else PostNet(s.core, FollowTask))
    case ResumeCall =>
      s.(external := s.external.Add(FirstCas, 1), h := s.h.(externals := s.h.externals + 1))
  }

  function RunTakeBody(s: State): State {
    var (q, item) := Next(s.q);
    s.(q := q,
       own := if NextResumes(s.q) then s.own.Add(FirstCas, 1) else s.own,
       h := s.h.(
         taken := if item.Some? && item.value.Data? then s.h.taken + [item.value.chunk]
                  else s.h.taken,
         clears := s.h.clears + if NextResumes(s.q) then 1 else 0))
  }

  function TakeStep(s: State, a: TakeAction): State {
    match a
    case TakeBodyItem => RunTakeBody(s)
    case TakeHead => s.(q := TakeResponse(s.q).0)
    case TakeHop => s.(q := TakeRedirect(s.q).0)
  }

  function Step(s: State, a: Action): State
    requires Enabled(s, a)
  {
    match a
    case Api(x) => ApiStep(s, x)
    case Resume(isOwn, pc, spurious) => RunResumer(s, isOwn, pc, spurious)
    case Net(rejected, timeout, r) => RunNetTask(s, rejected, timeout, r)
    case Env(x) => UrlStep(s, x)
    case OnRunner(x) => CallbackStep(s, x)
    case Consumer(x) => TakeStep(s, x)
  }

  // ---- runs ---------------------------------------------------------------------

  predicate Feasible(s: State, run: seq<Action>)
    decreases |run|
  {
    run == [] || (Enabled(s, run[0]) && Feasible(Step(s, run[0]), run[1..]))
  }

  function After(s: State, run: seq<Action>): State
    requires Feasible(s, run)
    decreases |run|
  {
    if run == [] then s else After(Step(s, run[0]), run[1..])
  }

  /** Some run from a fresh request ends in this state. */
  ghost predicate Reachable(s: State) {
    exists config, run :: Feasible(Init(config), run) && After(Init(config), run) == s
  }
}
