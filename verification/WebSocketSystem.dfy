/**
 * One WebSocket as a concurrent system: the network runner and the callback
 * runner, any number of API threads, and Chromium's WebSocketChannel and the
 * timeout timer as a nondeterministic environment. An Action is one atomic step.
 */
module WebSocketSystem {
  import opened Prelude
  import opened WebSocketCore

  /** Between callback tasks, or about to post what follows the callback. */
  datatype CallbackPc = CbIdle | AfterOpen | AfterMessage

  /** What ended the socket first. */
  datatype Cause =
    | Dropped(clean: bool, goodbye: Goodbye)
    | ChannelFailure(failure: Failure)
    | DeadlinePassed
    | CancelCalled
    | StartInvalid

  /** What the channel, the timer and the callers brought about, one entry for each thing to report. */
  datatype Report =
    | OpenSeen(protocol: Chunk, extensions: Chunk)
    | FrameSeen(frame: Frame, final: bool)
    | ClosingSeen
    | EndSeen(cause: Cause)

  /** A cancel that passed its check, a deadline, the peer's closing handshake, what Close was given. */
  datatype Calls = Calls(cancelled: Flag, deadline: Flag, peerCloses: Flag, goodbye: Option<Goodbye>)

  /** No step reads it. `closes` counts the Close calls that return MN_OK. */
  datatype History = History(
    reports: seq<Report>,
    calls: Calls,
    trace: seq<Callback>,
    accepted: seq<Frame>,
    closes: nat)

  /**
   * The counters are API threads between two atomic steps: `senders` and
   * `cancels` passed their test, `closers` are before the exchange of closing_,
   * `winners` after winning it.
   */
  datatype State = State(
    sock: Sock,
    cbPc: CallbackPc,
    senders: nat,
    closers: nat,
    winners: nat,
    cancels: nat,
    h: History)

  datatype ApiAction =
    | CallStart
    | SendCheck
    | SendPost(frame: Frame)
    | CloseCheck
    | CloseExchange
    | ClosePost(goodbye: Goodbye)
    | CancelCheck
    | CancelPost

  datatype ChannelAction =
    | ChannelOpen(protocol: Chunk, extensions: Chunk)
    | ChannelRead(frames: seq<(Frame, bool)>)
    | ChannelClosing
    | ChannelDropped(clean: bool, goodbye: Goodbye)
    | ChannelFailed(failure: Failure)
    | TimerFires

  datatype Action =
    | Api(api: ApiAction)
    | Net(valid: bool, timeout: bool)
    | Env(env: ChannelAction)
    | RunCallback
    | PostFollowUp

  function Init(config: Config): State {
    State(NewSock(config), CbIdle, 0, 0, 0, 0, History([], Calls(No, No, No, None), [], [], 0))
  }

  predicate ApiEnabled(s: State, a: ApiAction) {
    match a
    case SendPost(frame) => s.senders > 0 && Sendable(frame)
    case CloseExchange => s.closers > 0
    case ClosePost(_) => s.winners > 0
    case CancelPost => s.cancels > 0
    case _ => true
  }

  /** The channel calls its delegate only while it is alive. */
  predicate ChannelEnabled(s: Sock, a: ChannelAction) {
    match a
    case ChannelOpen(_, _) => s.channel.Handshaking?
    case ChannelRead(_) => s.channel.Reading?
    case ChannelClosing | ChannelDropped(_, _) => Open(s.channel)
    case ChannelFailed(_) => !s.channel.NoChannel?
    case TimerFires => s.timer.Yes?
  }

  predicate Enabled(s: State, a: Action) {
    match a
    case Api(x) => ApiEnabled(s, x)
    case Net(_, _) => s.sock.net != []
    case Env(x) => ChannelEnabled(s.sock, x)
    case RunCallback => s.cbPc.CbIdle? && s.sock.cb != []
    case PostFollowUp => !s.cbPc.CbIdle?
  }

  function ApiStep(s: State, a: ApiAction): State
    requires ApiEnabled(s, a)
  {
    match a
    case CallStart => s.(sock := Start(s.sock))
    case SendCheck => s.(senders := s.senders + if SendAccepted(s.sock) then 1 else 0)
    case SendPost(frame) =>
      s.(senders := s.senders - 1, sock := PostNet(s.sock, SendTask(frame)),
         h := s.h.(accepted := s.h.accepted + [frame]))
    case CloseCheck => s.(closers := s.closers + if CloseAllowed(s.sock) then 1 else 0)
    case CloseExchange =>
      s.(closers := s.closers - 1,
         winners := s.winners + if s.sock.closing.No? then 1 else 0,
         sock := s.sock.(closing := Yes),
         h := s.h.(closes := s.h.closes + if s.sock.closing.No? then 1 else 0))
    case ClosePost(goodbye) =>
      s.(winners := s.winners - 1, sock := PostNet(s.sock, CloseTask(goodbye)),
         h := s.h.(calls := s.h.calls.(goodbye := Some(goodbye))))
    case CancelCheck =>
      s.(cancels := s.cancels + if CancelAllowed(s.sock) then 1 else 0,
         h := if s.sock.started.Yes? && s.sock.terminal.No?
              then s.h.(calls := s.h.calls.(cancelled := Yes)) else s.h)
    case CancelPost => s.(cancels := s.cancels - 1, sock := PostNet(s.sock, CancelTask))
  }

  function NetTaskStep(s: Sock, t: NetTask, valid: bool, timeout: bool): Sock {
    match t
    case StartTask => StartOnNetworkThread(s, valid, timeout)
    case SendTask(frame) => SendOnNetworkThread(s, frame)
    case CloseTask(goodbye) => CloseOnNetworkThread(s, goodbye)
    case CancelTask => CancelOnNetworkThread(s)
    case StartReadingTask => StartReading(s)
    case ResumeReadingTask => ResumeReading(s)
  }

  function ChannelStep(s: Sock, a: ChannelAction): Sock {
    match a
    case ChannelOpen(protocol, extensions) => OnOpen(s, protocol, extensions)
    case ChannelRead(frames) => OnRead(s, frames)
    case ChannelClosing => OnClosing(s)
    case ChannelDropped(clean, goodbye) => OnClosed(s, clean, goodbye)
    case ChannelFailed(failure) => CompleteFailure(s, failure)
    case TimerFires => TimeoutOnNetworkThread(s)
  }

  /** A callback that is not terminal is dropped once the socket is. */
  predicate Invoked(s: Sock, t: Callback) { Ends(t) || s.terminal.No? }

  function CallbackStep(s: State): State
    requires s.sock.cb != []
  {
    var t := s.sock.cb[0];
    s.(sock := s.sock.(cb := s.sock.cb[1..]),
       cbPc := if t.OpenCb? && Invoked(s.sock, t) then AfterOpen
               else if t.MessageCb? then AfterMessage else CbIdle,
       h := s.h.(trace := if Invoked(s.sock, t) then s.h.trace + [t] else s.h.trace))
  }

  /** What a network task of an unfinished socket brings about. */
  function NetReports(s: Sock, t: NetTask, valid: bool): seq<Report> {
    if s.terminal.Yes? then []
    else if t.StartTask? && !valid then [EndSeen(StartInvalid)]
    else if t.CancelTask? then [EndSeen(CancelCalled)]
    else []
  }

  function FrameReports(frames: seq<(Frame, bool)>): seq<Report> {
    seq(|frames|, i requires 0 <= i < |frames| => FrameSeen(frames[i].0, frames[i].1))
  }

  /** What there is to tell those callbacks that are registered. */
  function ChannelReports(s: Sock, a: ChannelAction): seq<Report> {
    if s.terminal.Yes? then []
    else
      match a
      case ChannelOpen(protocol, extensions) =>
        if s.config.onOpen then [OpenSeen(protocol, extensions)] else []
      case ChannelRead(frames) => FrameReports(frames)
      case ChannelClosing => if s.config.onClosing then [ClosingSeen] else []
      case ChannelDropped(clean, goodbye) => [EndSeen(Dropped(clean, goodbye))]
      case ChannelFailed(failure) => [EndSeen(ChannelFailure(failure))]
      case TimerFires => [EndSeen(DeadlinePassed)]
  }

  function Step(s: State, a: Action): State
    requires Enabled(s, a)
  {
    match a
    case Api(x) => ApiStep(s, x)
    case Net(valid, timeout) =>
      s.(sock := NetTaskStep(s.sock.(net := s.sock.net[1..]), s.sock.net[0], valid, timeout),
         h := s.h.(
           reports := s.h.reports + NetReports(s.sock, s.sock.net[0], valid),
           calls := if s.sock.net[0].StartTask? && s.sock.terminal.No? && valid && timeout
                    then s.h.calls.(deadline := Yes) else s.h.calls))
    case Env(x) =>
      s.(sock := ChannelStep(s.sock, x),
         h := s.h.(
           reports := s.h.reports + ChannelReports(s.sock, x),
           calls := if x.ChannelClosing? then s.h.calls.(peerCloses := Yes) else s.h.calls))
    case RunCallback => CallbackStep(s)
    case PostFollowUp =>
      s.(cbPc := CbIdle,
         sock := PostNet(s.sock, if s.cbPc.AfterOpen? then StartReadingTask else ResumeReadingTask))
  }

  predicate Feasible(s: State, run: seq<Action>)
    decreases |run|
  {
    run == [] || (Enabled(s, run[0]) && Feasible(Step(s, run[0]), run[1..]))
  }

  function After(s: State, run: seq<Action>): State
    requires Feasible(s, run)
    decreases |run|
  {
    if run == [] then s else After(Step(s, run[0]), run[1..])
  }

  ghost predicate Reachable(s: State) {
    exists config, run :: Feasible(Init(config), run) && After(Init(config), run) == s
  }
}
