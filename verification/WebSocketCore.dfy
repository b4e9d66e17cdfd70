/**
 * core/source/websocket.cc: the Core side of one WebSocket.
 *
 * The functions are the code's atomic pieces. A whole network task is one
 * piece: the flags it sets change in one direction only, so another thread that
 * reads them halfway could as well have read them before or after the task.
 * Class WebSocket performs the same pieces in place.
 */
module WebSocketCore {
  import opened Prelude

  const INVALID_ARGUMENT: int := 1
  const TIMEOUT: int := 6
  const CANCELED: int := 7

  const ERR_ABORTED: int := -3
  const ERR_TIMED_OUT: int := -7
  const ERR_INVALID_URL: int := -300

  datatype FrameKind = Continuation | Text | Binary
  datatype Frame = Frame(kind: FrameKind, data: Chunk)
  datatype Goodbye = Goodbye(code: nat, reason: Chunk)
  datatype Failure = Failure(code: int, netError: int, responseCode: int, message: string)

  const InvalidUrl := Failure(INVALID_ARGUMENT, ERR_INVALID_URL, -1, "Invalid WebSocket URL or origin")
  const Canceled := Failure(CANCELED, ERR_ABORTED, -1, "Canceled")
  const TimedOut := Failure(TIMEOUT, ERR_TIMED_OUT, -1, "Timed out")

  datatype NetTask =
    | StartTask
    | SendTask(frame: Frame)
    | CloseTask(goodbye: Goodbye)
    | CancelTask
    | StartReadingTask
    | ResumeReadingTask

  /** An absent on_message, on_closed or on_failure is one that does nothing. */
  datatype Callback =
    | OpenCb(protocol: Chunk, extensions: Chunk)
    | MessageCb(frame: Frame, final: bool)
    | ClosingCb
    | ClosedCb(clean: bool, goodbye: Goodbye)
    | FailureCb(failure: Failure)

  /** Whether on_open and on_closing are registered. */
  datatype Config = Config(onOpen: bool, onClosing: bool)

  /** The WebSocketChannel as the Core sees it; NoChannel is a null channel_. */
  datatype Channel = NoChannel | Handshaking | Resting | Reading

  /** What the Core handed to the channel. */
  datatype WireOp = Sent(frame: Frame) | CloseSent(goodbye: Goodbye)

  /**
   * `pending` is pending_data_, a size_t; `misuses` counts ReadFrames over an
   * outstanding read and channel calls before the handshake is done.
   */
  datatype Sock = Sock(
    config: Config,
    started: Flag,
    isOpen: Flag,
    closing: Flag,
    terminal: Flag,
    pending: int,
    channel: Channel,
    timer: Flag,
    net: seq<NetTask>,
    cb: seq<Callback>,
    wire: seq<WireOp>,
    misuses: nat)

  function NewSock(config: Config): Sock {
    Sock(config, No, No, No, No, 0, NoChannel, No, [], [], [], 0)
  }

  function PostNet(s: Sock, t: NetTask): Sock {
    s.(net := s.net + [t])
  }

  predicate Ends(t: Callback) { t.ClosedCb? || t.FailureCb? }

  // ---- the end --------------------------------------------------------------

  /** OnClosed and CompleteFailure; Cancel alone leaves the timer running. */
  function Terminate(s: Sock, t: Callback, stopTimer: bool): Sock {
    if s.terminal.Yes? then s
    else s.(terminal := Yes,
            isOpen := No,
            closing := Yes,
            pending := 0,
            channel := NoChannel,
            timer := if stopTimer then No else s.timer,
            cb := s.cb + [t])
  }

  function CompleteFailure(s: Sock, failure: Failure): Sock {
    Terminate(s, FailureCb(failure), true)
  }

  function OnClosed(s: Sock, clean: bool, goodbye: Goodbye): Sock {
    Terminate(s, ClosedCb(clean, goodbye), true)
  }

  function CancelOnNetworkThread(s: Sock): Sock {
    Terminate(s, FailureCb(Canceled), false)
  }

  function TimeoutOnNetworkThread(s: Sock): Sock {
    CompleteFailure(s.(timer := No), TimedOut)
  }

  // ---- network tasks -----------------------------------------------------------

  /** `valid` is the test of the URL and the origin. */
  function StartOnNetworkThread(s: Sock, valid: bool, timeout: bool): Sock {
    if s.terminal.Yes? then s
    else if !valid then CompleteFailure(s, InvalidUrl)
    else s.(channel := Handshaking, timer := ToFlag(timeout))
  }

  predicate Open(c: Channel) { c.Resting? || c.Reading? }

  function SendOnNetworkThread(s: Sock, frame: Frame): Sock {
    if s.isOpen.No? || s.closing.Yes? || s.terminal.Yes? || s.channel.NoChannel? then s
    else s.(wire := s.wire + [Sent(frame)],
            misuses := s.misuses + if Open(s.channel) then 0 else 1)
  }

  function CloseOnNetworkThread(s: Sock, goodbye: Goodbye): Sock {
    if s.terminal.Yes? || s.channel.NoChannel? then s
    else s.(wire := s.wire + [CloseSent(goodbye)],
            misuses := s.misuses + if Open(s.channel) then 0 else 1)
  }

  function ReadFrames(s: Sock): Sock {
    s.(channel := Reading, misuses := s.misuses + if s.channel.Resting? then 0 else 1)
  }

  function StartReading(s: Sock): Sock {
    if s.terminal.No? && !s.channel.NoChannel? then ReadFrames(s) else s
  }

  function ResumeReading(s: Sock): Sock {
    if s.terminal.Yes? then s
    else if s.pending == 1 && !s.channel.NoChannel? then ReadFrames(s.(pending := 0))
    else s.(pending := s.pending - 1)
  }

  // ---- channel events ------------------------------------------------------------

  /** The channel has finished its handshake when it reports this. */
  function OnOpen(s: Sock, protocol: Chunk, extensions: Chunk): Sock {
    if s.terminal.Yes? then s
    else if s.config.onOpen then
      s.(isOpen := Yes, channel := Resting, cb := s.cb + [OpenCb(protocol, extensions)])
    else StartReading(s.(isOpen := Yes, channel := Resting))
  }

  function OnMessage(s: Sock, frame: Frame, final: bool): Sock {
    if s.terminal.Yes? then s
    else s.(pending := s.pending + 1, cb := s.cb + [MessageCb(frame, final)])
  }

  /** The data frames of one read; the channel reads on only while none is pending. */
  function OnRead(s: Sock, frames: seq<(Frame, bool)>): Sock
    decreases |frames|
  {
    if frames == [] then s.(channel := if s.pending != 0 then Resting else Reading)
    else OnRead(OnMessage(s, frames[0].0, frames[0].1), frames[1..])
  }

  function OnClosing(s: Sock): Sock {
    s.(closing := Yes, cb := if s.config.onClosing then s.cb + [ClosingCb] else s.cb)
  }

  // ---- API threads -----------------------------------------------------------------

  function Start(s: Sock): Sock {
    if s.started.Yes? then s else PostNet(s.(started := Yes), StartTask)
  }

  predicate Sendable(frame: Frame) { frame.kind.Text? || frame.kind.Binary? }

  predicate SendAccepted(s: Sock) { s.isOpen.Yes? && s.closing.No? && s.terminal.No? }

  /** The loads of Close that precede its exchange of closing_. */
  predicate CloseAllowed(s: Sock) { s.started.Yes? && s.isOpen.Yes? && s.terminal.No? }

  predicate CancelAllowed(s: Sock) { s.started.Yes? && s.terminal.No? }

  class WebSocket {
    const config: Config
    var started: bool
    var isOpen: bool
    var closing: bool
    var terminal: bool
    var pendingData: int
    var channel: Channel
    var timerArmed: bool
    var net: seq<NetTask>
    var cb: seq<Callback>
    var wire: seq<WireOp>
    var misuses: nat

    function View(): Sock
      reads this
    {
      Sock(config, ToFlag(started), ToFlag(isOpen), ToFlag(closing), ToFlag(terminal), pendingData,
           channel, ToFlag(timerArmed), net, cb, wire, misuses)
    }

    constructor (config: Config)
      ensures View() == NewSock(config)
    {
      this.config := config;
      started, isOpen, closing, terminal := false, false, false, false;
      pendingData, channel, timerArmed := 0, NoChannel, false;
      net, cb, wire, misuses := [], [], [], 0;
    }

    /** `verified` is profile().wire_verified(). */
    method RunStart(verified: bool) returns (ok: bool)
      modifies this
      ensures ok == (verified && !old(started))
      ensures View() == if verified then Start(old(View())) else old(View())
    {
      if !verified {
        return false;
      }
      if started {
        return false;
      }
      started := true;
      net := net + [StartTask];
      return true;
    }

    method Send(frame: Frame) returns (ok: bool)
      modifies this
      ensures ok == (SendAccepted(old(View())) && Sendable(frame))
      ensures View() == if ok then PostNet(old(View()), SendTask(frame)) else old(View())
    {
      if !isOpen || closing || terminal || (!frame.kind.Text? && !frame.kind.Binary?) {
        return false;
      }
      net := net + [SendTask(frame)];
      return true;
    }

    method Close(goodbye: Goodbye) returns (ok: bool)
      modifies this
      ensures ok == (CloseAllowed(old(View())) && !old(closing))
      ensures View() ==
        if ok then PostNet(old(View()).(closing := Yes), CloseTask(goodbye)) else old(View())
    {
      if !started || !isOpen || terminal {
        return false;
      }
      var already := closing;
      closing := true;
      if already {
        return false;
      }
      net := net + [CloseTask(goodbye)];
      return true;
    }

    method Cancel() returns (ok: bool)
      modifies this
      ensures ok == CancelAllowed(old(View()))
      ensures View() == if ok then PostNet(old(View()), CancelTask) else old(View())
    {
      if !started || terminal {
        return false;
      }
      net := net + [CancelTask];
      return true;
    }

    method DoTerminate(t: Callback, stopTimer: bool)
      modifies this
      ensures View() == Terminate(old(View()), t, stopTimer)
    {
      var already := terminal;
      terminal := true;
      if already {
        return;
      }
      if stopTimer {
        timerArmed := false;
      }
      isOpen := false;
      closing := true;
      pendingData := 0;
      channel := NoChannel;
      cb := cb + [t];
    }

    method DoStartOnNetworkThread(valid: bool, timeout: bool)
      modifies this
      ensures View() == StartOnNetworkThread(old(View()), valid, timeout)
    {
      if terminal {
        return;
      }
      if !valid {
        DoTerminate(FailureCb(InvalidUrl), true);
        return;
      }
      channel := Handshaking;
      timerArmed := timeout;
    }

    method DoSend(frame: Frame)
      modifies this
      ensures View() == SendOnNetworkThread(old(View()), frame)
    {
      if !isOpen || closing || terminal || channel == NoChannel {
        return;
      }
      if !Open(channel) {
        misuses := misuses + 1;
      }
      wire := wire + [Sent(frame)];
    }

    method DoClose(goodbye: Goodbye)
      modifies this
      ensures View() == CloseOnNetworkThread(old(View()), goodbye)
    {
      if terminal || channel == NoChannel {
        return;
      }
      if !Open(channel) {
        misuses := misuses + 1;
      }
      wire := wire + [CloseSent(goodbye)];
    }

    method DoReadFrames()
      modifies this
      ensures View() == ReadFrames(old(View()))
    {
      if channel != Resting {
        misuses := misuses + 1;
      }
      channel := Reading;
    }

    method DoStartReading()
      modifies this
      ensures View() == StartReading(old(View()))
    {
      if !terminal && channel != NoChannel {
        DoReadFrames();
      }
    }

    method DoOnOpen(protocol: Chunk, extensions: Chunk)
      modifies this
      ensures View() == OnOpen(old(View()), protocol, extensions)
    {
      if terminal {
        return;
      }
      isOpen := true;
      channel := Resting;
      if !config.onOpen {
        DoStartReading();
        return;
      }
      cb := cb + [OpenCb(protocol, extensions)];
    }

    method DoOnMessage(frame: Frame, final: bool)
      modifies this
      ensures View() == OnMessage(old(View()), frame, final)
    {
      if terminal {
        return;
      }
      pendingData := pendingData + 1;
      cb := cb + [MessageCb(frame, final)];
    }

    /** The channel handing over what one read returned. */
    method DoOnRead(frames: seq<(Frame, bool)>)
      modifies this
      ensures View() == OnRead(old(View()), frames)
    {
      var i := 0;
      while i < |frames|
        invariant 0 <= i <= |frames|
        invariant OnRead(old(View()), frames) == OnRead(View(), frames[i..])
      {
        DoOnMessage(frames[i].0, frames[i].1);
        i := i + 1;
      }
      channel := if pendingData != 0 then Resting else Reading;
    }

    method DoResumeReading()
      modifies this
      ensures View() == ResumeReading(old(View()))
    {
      if terminal {
        return;
      }
      var before := pendingData;
      pendingData := pendingData - 1;
      if before == 1 && channel != NoChannel {
        DoReadFrames();
      }
    }

    method DoOnClosing()
      modifies this
      ensures View() == OnClosing(old(View()))
    {
      closing := true;
      if config.onClosing {
        cb := cb + [ClosingCb];
      }
    }
  }
}
