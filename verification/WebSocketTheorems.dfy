/**
 * What holds in every state any run of a WebSocket can reach: reading stops and
 * restarts exactly once per batch, the socket ends exactly once, and what goes
 * out on the wire is what was sent, in order, and nothing after the close.
 */
module WebSocketTheorems {
  import opened Prelude
  import opened WebSocketCore
  import opened WebSocketSystem

  function Bit(b: bool): nat { if b then 1 else 0 }

  // ---- flags --------------------------------------------------------------------------

  predicate FlagInv(s: Sock) {
    && (s.terminal.Yes? ==> s.isOpen.No? && s.closing.Yes? && s.channel.NoChannel?)
    && (s.isOpen.Yes? <==> Open(s.channel))
    && (s.started.No? ==> s.net == [] && s.channel.NoChannel? && s.terminal.No? && s.timer.No?)
    && (StartTask in s.net ==>
          && s.net[0] == StartTask && StartTask !in s.net[1..] && s.channel.NoChannel?
          && s.terminal.No? && s.timer.No?)
    && (s.started.Yes? && StartTask !in s.net && s.terminal.No? ==> !s.channel.NoChannel?)
  }

  /** The socket has been open: nothing that needs an open channel exists before. */
  predicate WasOpen(s: Sock) { s.isOpen.Yes? || s.terminal.Yes? }

  predicate Needs(t: NetTask) { !t.StartTask? && !t.CancelTask? }

  predicate ApiInv(s: State) {
    && FlagInv(s.sock)
    && (s.senders + s.closers + s.winners > 0 ==> WasOpen(s.sock))
    && (!WasOpen(s.sock) ==> forall i :: 0 <= i < |s.sock.net| ==> !Needs(s.sock.net[i]))
    && (s.cancels > 0 ==> s.sock.started.Yes?)
    && (!WasOpen(s.sock) ==> |s.sock.cb| == 0 && s.cbPc.CbIdle?)
  }

  // ---- flow control ---------------------------------------------------------------------

  function Messages(cb: seq<Callback>): nat {
    if cb == [] then 0 else Bit(cb[0].MessageCb?) + Messages(cb[1..])
  }

  function Opens(cb: seq<Callback>): nat {
    if cb == [] then 0 else Bit(cb[0].OpenCb?) + Opens(cb[1..])
  }

  function Resumes(net: seq<NetTask>): nat {
    if net == [] then 0 else Bit(net[0].ResumeReadingTask?) + Resumes(net[1..])
  }

  function ReadStarts(net: seq<NetTask>): nat {
    if net == [] then 0 else Bit(net[0].StartReadingTask?) + ReadStarts(net[1..])
  }

  lemma {:induction false} CallbackAppend(cb: seq<Callback>, t: Callback)
    ensures Messages(cb + [t]) == Messages(cb) + Bit(t.MessageCb?)
    ensures Opens(cb + [t]) == Opens(cb) + Bit(t.OpenCb?)
  {
    if cb != [] {
      assert (cb + [t])[1..] == cb[1..] + [t];
      CallbackAppend(cb[1..], t);
    }
  }

  lemma {:induction false} NetAppend(net: seq<NetTask>, t: NetTask)
    ensures Resumes(net + [t]) == Resumes(net) + Bit(t.ResumeReadingTask?)
    ensures ReadStarts(net + [t]) == ReadStarts(net) + Bit(t.StartReadingTask?)
  {
    if net != [] {
      assert (net + [t])[1..] == net[1..] + [t];
      NetAppend(net[1..], t);
    }
  }

  /** Message callbacks queued or running, and queued ResumeReading tasks. */
  function Outstanding(s: State): nat {
    Messages(s.sock.cb) + Bit(s.cbPc.AfterMessage?) + Resumes(s.sock.net)
  }

  /** The open callback queued or running, or its queued StartReading. */
  function Opening(s: State): nat {
    Opens(s.sock.cb) + Bit(s.cbPc.AfterOpen?) + ReadStarts(s.sock.net)
  }

  predicate FlowInv(s: State) {
    && s.sock.pending >= 0
    && s.sock.misuses == 0
    && (s.sock.terminal.No? ==>
          && s.sock.pending == Outstanding(s)
          && Opening(s) + Bit(s.sock.pending > 0) + Bit(s.sock.channel.Reading?)
             == Bit(s.sock.isOpen.Yes?))
  }

  lemma {:induction false} ReadCounts(s: Sock, frames: seq<(Frame, bool)>)
    requires s.terminal.No?
    ensures var next := OnRead(s, frames);
      && Messages(next.cb) == Messages(s.cb) + |frames|
      && Opens(next.cb) == Opens(s.cb)
      && next.pending == s.pending + |frames|
      && next.channel == (if next.pending != 0 then Resting else Reading)
      && next == s.(pending := next.pending, channel := next.channel, cb := next.cb)
    decreases |frames|
  {
    if frames != [] {
      var t := MessageCb(frames[0].0, frames[0].1);
      CallbackAppend(s.cb, t);
      ReadCounts(OnMessage(s, frames[0].0, frames[0].1), frames[1..]);
    }
  }

  lemma FlagApi(s: State, a: ApiAction)
    requires ApiInv(s) && ApiEnabled(s, a)
    ensures ApiInv(ApiStep(s, a))
  {
  }

  lemma FlagNet(s: Sock, valid: bool, timeout: bool)
    requires FlagInv(s) && s.net != []
    requires !WasOpen(s) ==> |s.cb| == 0 && !Needs(s.net[0])
    ensures var next := NetTaskStep(s.(net := s.net[1..]), s.net[0], valid, timeout);
      && FlagInv(next)
      && next.net == s.net[1..] && next.started.Yes?
      && (WasOpen(s) ==> WasOpen(next))
      && (!WasOpen(next) ==> |next.cb| == 0)
  {
    assert s.net[0] == StartTask || StartTask !in s.net[1..];
    assert s.net[0] != StartTask ==> StartTask !in s.net;
  }

  lemma FlagChannel(s: Sock, a: ChannelAction)
    requires FlagInv(s) && ChannelEnabled(s, a)
    requires !WasOpen(s) ==> |s.cb| == 0
    ensures FlagInv(ChannelStep(s, a))
    ensures ChannelStep(s, a).net == s.net && ChannelStep(s, a).started == s.started
    ensures WasOpen(s) ==> WasOpen(ChannelStep(s, a))
    ensures !WasOpen(ChannelStep(s, a)) ==> ChannelStep(s, a).cb == s.cb
  {
    if a.ChannelRead? { ReadCounts(s, a.frames); }
  }

  lemma FlagStep(s: State, a: Action)
    requires ApiInv(s) && Enabled(s, a)
    ensures ApiInv(Step(s, a))
  {
    match a
    case Api(x) => FlagApi(s, x);
    case Net(valid, timeout) => FlagNet(s.sock, valid, timeout);
    case Env(x) => FlagChannel(s.sock, x);
    case RunCallback =>
    case PostFollowUp =>
  }

  lemma FlowApi(s: State, a: ApiAction)
    requires ApiInv(s) && FlowInv(s) && ApiEnabled(s, a)
    ensures FlowInv(ApiStep(s, a))
  {
    match a
    case CallStart => NetAppend(s.sock.net, StartTask);
    case SendPost(frame) => NetAppend(s.sock.net, SendTask(frame));
    case ClosePost(goodbye) => NetAppend(s.sock.net, CloseTask(goodbye));
    case CancelPost => NetAppend(s.sock.net, CancelTask);
    case _ =>
  }

  /** Tasks that do not read leave the flow as it is, or end it. */
  lemma FlowPlain(s: State, valid: bool, timeout: bool)
    requires ApiInv(s) && FlowInv(s) && s.sock.net != []
    requires !s.sock.net[0].StartReadingTask? && !s.sock.net[0].ResumeReadingTask?
    ensures FlowInv(Step(s, Net(valid, timeout)))
  {
    assert !WasOpen(s.sock) ==> !Needs(s.sock.net[0]);
  }

  lemma FlowReading(s: State, valid: bool, timeout: bool)
    requires ApiInv(s) && FlowInv(s) && s.sock.net != []
    requires s.sock.net[0].StartReadingTask? || s.sock.net[0].ResumeReadingTask?
    ensures FlowInv(Step(s, Net(valid, timeout)))
  {
    var t := s.sock.net[0];
    assert !WasOpen(s.sock) ==> !Needs(t);
    assert t.StartReadingTask? ==> ReadStarts(s.sock.net) >= 1;
    assert t.ResumeReadingTask? ==> Resumes(s.sock.net) >= 1;
  }

  lemma FlowNet(s: State, valid: bool, timeout: bool)
    requires ApiInv(s) && FlowInv(s) && s.sock.net != []
    ensures FlowInv(Step(s, Net(valid, timeout)))
  {
    var t := s.sock.net[0];
    if t.StartReadingTask? || t.ResumeReadingTask? { FlowReading(s, valid, timeout); }
    else { FlowPlain(s, valid, timeout); }
  }

  lemma FlowChannel(s: State, a: ChannelAction)
    requires ApiInv(s) && FlowInv(s) && ChannelEnabled(s.sock, a)
    ensures FlowInv(Step(s, Env(a)))
  {
    match a
    case ChannelOpen(protocol, extensions) => CallbackAppend(s.sock.cb, OpenCb(protocol, extensions));
    case ChannelRead(frames) => ReadCounts(s.sock, frames);
    case ChannelClosing => CallbackAppend(s.sock.cb, ClosingCb);
    case _ =>
  }

  lemma FlowStep(s: State, a: Action)
    requires ApiInv(s) && FlowInv(s) && Enabled(s, a)
    ensures FlowInv(Step(s, a))
  {
    match a
    case Api(x) => FlowApi(s, x);
    case Net(valid, timeout) => FlowNet(s, valid, timeout);
    case Env(x) => FlowChannel(s, x);
    case RunCallback =>
    case PostFollowUp =>
      NetAppend(s.sock.net, if s.cbPc.AfterOpen? then StartReadingTask else ResumeReadingTask);
  }

  // ---- the trace of callbacks -----------------------------------------------------------

  /** [on_open] (on_message | on_closing)* [on_closed | on_failure], the open first if registered. */
  predicate Orderly(config: Config, t: seq<Callback>) {
    forall i :: 0 <= i < |t| ==>
      && (Ends(t[i]) ==> i == |t| - 1)
      && (t[i].OpenCb? ==> i == 0 && config.onOpen)
      && (config.onOpen && !Ends(t[i]) ==> t[0].OpenCb?)
  }

  predicate NoneEnds(t: seq<Callback>) {
    forall i :: 0 <= i < |t| ==> !Ends(t[i])
  }

  predicate LastEnds(t: seq<Callback>) {
    |t| > 0 && Ends(t[|t| - 1]) && NoneEnds(t[..|t| - 1])
  }

  predicate TraceInv(s: State) {
    && Orderly(s.sock.config, s.h.trace)
    && (s.sock.terminal.No? ==>
          && Orderly(s.sock.config, s.h.trace + s.sock.cb) && NoneEnds(s.h.trace + s.sock.cb)
          && (s.sock.config.onOpen ==>
                (|s.h.trace + s.sock.cb| > 0 <==> s.sock.isOpen.Yes?)))
    && (s.sock.terminal.Yes? ==>
          if |s.sock.cb| == 0 then LastEnds(s.h.trace)
          else NoneEnds(s.h.trace) && LastEnds(s.sock.cb))
  }

  /** Any further callback of an open socket keeps the order. */
  lemma OrderlyAppend(config: Config, t: seq<Callback>, c: Callback)
    requires Orderly(config, t) && NoneEnds(t)
    requires c.OpenCb? ==> t == [] && config.onOpen
    requires config.onOpen && !Ends(c) && !c.OpenCb? ==> t != []
    ensures Orderly(config, t + [c])
  {
  }

  lemma TraceCallback(s: State)
    requires TraceInv(s) && Enabled(s, RunCallback)
    ensures TraceInv(CallbackStep(s))
  {
    var t, rest := s.sock.cb[0], s.sock.cb[1..];
    if s.sock.terminal.No? {
      assert (s.h.trace + [t]) + rest == s.h.trace + s.sock.cb;
      assert forall i :: 0 <= i < |s.h.trace + [t]| ==>
        (s.h.trace + [t])[i] == (s.h.trace + s.sock.cb)[i];
    } else if |rest| == 0 {
      OrderlyAppend(s.sock.config, s.h.trace, t);
      assert (s.h.trace + [t])[..|s.h.trace|] == s.h.trace;
    } else {
      assert !Ends(s.sock.cb[..|s.sock.cb| - 1][0]);
      assert rest[..|rest| - 1] == s.sock.cb[..|s.sock.cb| - 1][1..];
    }
  }

  lemma TraceTerminate(s: State, t: Callback, stop: bool)
    requires TraceInv(s) && Ends(t)
    ensures TraceInv(s.(sock := Terminate(s.sock, t, stop)))
  {
    var all := s.h.trace + s.sock.cb;
    assert s.sock.terminal.No? ==>
      forall i :: 0 <= i < |s.sock.cb| ==> s.sock.cb[i] == all[|s.h.trace| + i];
    assert s.sock.terminal.No? ==> forall i :: 0 <= i < |s.h.trace| ==> s.h.trace[i] == all[i];
    assert (s.sock.cb + [t])[..|s.sock.cb|] == s.sock.cb;
  }

  lemma {:induction false} TraceRead(trace: seq<Callback>, s: Sock, frames: seq<(Frame, bool)>)
    requires s.terminal.No?
    requires Orderly(s.config, trace + s.cb) && NoneEnds(trace + s.cb)
    requires s.config.onOpen ==> |trace + s.cb| > 0
    ensures var next := OnRead(s, frames);
      Orderly(s.config, trace + next.cb) && NoneEnds(trace + next.cb) && |next.cb| >= |s.cb|
    decreases |frames|
  {
    if frames != [] {
      var t := MessageCb(frames[0].0, frames[0].1);
      OrderlyAppend(s.config, trace + s.cb, t);
      assert trace + (s.cb + [t]) == (trace + s.cb) + [t];
      TraceRead(trace, OnMessage(s, frames[0].0, frames[0].1), frames[1..]);
    }
  }

  lemma TracePost(s: State, c: Callback)
    requires TraceInv(s) && s.sock.terminal.No? && !Ends(c)
    requires c.OpenCb? ==> |s.h.trace + s.sock.cb| == 0 && s.sock.config.onOpen
    requires s.sock.config.onOpen && !c.OpenCb? ==> |s.h.trace + s.sock.cb| > 0
    ensures var all := s.h.trace + (s.sock.cb + [c]);
      Orderly(s.sock.config, all) && NoneEnds(all)
  {
    OrderlyAppend(s.sock.config, s.h.trace + s.sock.cb, c);
    assert s.h.trace + (s.sock.cb + [c]) == (s.h.trace + s.sock.cb) + [c];
  }

  lemma TraceChannel(s: State, a: ChannelAction)
    requires ApiInv(s) && TraceInv(s) && ChannelEnabled(s.sock, a)
    ensures TraceInv(Step(s, Env(a)))
  {
    match a
    case ChannelOpen(protocol, extensions) =>
      if s.sock.config.onOpen { TracePost(s, OpenCb(protocol, extensions)); }
    case ChannelRead(frames) =>
      TraceRead(s.h.trace, s.sock, frames);
      ReadCounts(s.sock, frames);
    case ChannelClosing => TracePost(s, ClosingCb);
    case ChannelDropped(clean, goodbye) => TraceTerminate(s, ClosedCb(clean, goodbye), true);
    case ChannelFailed(failure) => TraceTerminate(s, FailureCb(failure), true);
    case TimerFires =>
      TraceTerminate(s.(sock := s.sock.(timer := No)), FailureCb(TimedOut), true);
  }

  lemma TraceFrame(s: State, next: State)
    requires TraceInv(s) && next.h.trace == s.h.trace
    requires next.sock.config == s.sock.config && next.sock.cb == s.sock.cb
    requires next.sock.terminal == s.sock.terminal && next.sock.isOpen == s.sock.isOpen
    ensures TraceInv(next)
  {
  }

  lemma TraceStart(s: State, valid: bool, timeout: bool)
    requires TraceInv(s) && s.sock.net != [] && s.sock.net[0].StartTask?
    ensures TraceInv(Step(s, Net(valid, timeout)))
  {
    var popped := s.(sock := s.sock.(net := s.sock.net[1..]));
    TraceFrame(s, popped);
    if valid { TraceFrame(popped, Step(s, Net(valid, timeout))); }
    else {
      TraceTerminate(popped, FailureCb(InvalidUrl), true);
      TraceFrame(popped.(sock := Terminate(popped.sock, FailureCb(InvalidUrl), true)),
                 Step(s, Net(valid, timeout)));
    }
  }

  lemma TraceCancel(s: State, valid: bool, timeout: bool)
    requires TraceInv(s) && s.sock.net != [] && s.sock.net[0].CancelTask?
    ensures TraceInv(Step(s, Net(valid, timeout)))
  {
    var popped := s.(sock := s.sock.(net := s.sock.net[1..]));
    TraceFrame(s, popped);
    TraceTerminate(popped, FailureCb(Canceled), false);
    TraceFrame(popped.(sock := Terminate(popped.sock, FailureCb(Canceled), false)),
               Step(s, Net(valid, timeout)));
  }

  lemma TraceNet(s: State, valid: bool, timeout: bool)
    requires ApiInv(s) && TraceInv(s) && s.sock.net != []
    ensures TraceInv(Step(s, Net(valid, timeout)))
  {
    match s.sock.net[0]
    case StartTask => TraceStart(s, valid, timeout);
    case CancelTask => TraceCancel(s, valid, timeout);
    case _ => TraceFrame(s, Step(s, Net(valid, timeout)));
  }

  lemma TraceApi(s: State, a: ApiAction)
    requires TraceInv(s) && ApiEnabled(s, a)
    ensures TraceInv(ApiStep(s, a))
  {
    var sock, next := s.sock, ApiStep(s, a).sock;
    assert next.cb == sock.cb && next.config == sock.config && next.terminal == sock.terminal;
    assert next.isOpen == sock.isOpen && ApiStep(s, a).h.trace == s.h.trace;
  }

  lemma TraceFollowUp(s: State)
    requires TraceInv(s) && Enabled(s, PostFollowUp)
    ensures TraceInv(Step(s, PostFollowUp))
  {
    TraceFrame(s, Step(s, PostFollowUp));
  }

  lemma TraceStep(s: State, a: Action)
    requires ApiInv(s) && TraceInv(s) && Enabled(s, a)
    ensures TraceInv(Step(s, a))
  {
    match a
    case Api(x) => TraceApi(s, x);
    case Net(valid, timeout) => TraceNet(s, valid, timeout);
    case Env(x) => TraceChannel(s, x);
    case RunCallback => TraceCallback(s);
    case PostFollowUp => TraceFollowUp(s);
  }

  // ---- the wire -------------------------------------------------------------------------

  function SentFrames(wire: seq<WireOp>): seq<Frame> {
    if wire == [] then []
    else (if wire[0].Sent? then [wire[0].frame] else []) + SentFrames(wire[1..])
  }

  function QueuedSends(net: seq<NetTask>): seq<Frame> {
    if net == [] then []
    else (if net[0].SendTask? then [net[0].frame] else []) + QueuedSends(net[1..])
  }

  function QueuedCloses(net: seq<NetTask>): nat {
    if net == [] then 0 else Bit(net[0].CloseTask?) + QueuedCloses(net[1..])
  }

  lemma {:induction false} WireAppend(wire: seq<WireOp>, op: WireOp)
    ensures SentFrames(wire + [op]) == SentFrames(wire) + if op.Sent? then [op.frame] else []
  {
    if wire != [] {
      assert (wire + [op])[1..] == wire[1..] + [op];
      WireAppend(wire[1..], op);
    }
  }

  lemma {:induction false} SendsAppend(net: seq<NetTask>, t: NetTask)
    ensures QueuedSends(net + [t]) == QueuedSends(net) + if t.SendTask? then [t.frame] else []
    ensures QueuedCloses(net + [t]) == QueuedCloses(net) + Bit(t.CloseTask?)
  {
    if net != [] {
      assert (net + [t])[1..] == net[1..] + [t];
      SendsAppend(net[1..], t);
    }
  }

  /** Only the last operation may be the close. */
  predicate OrderlyWire(wire: seq<WireOp>) {
    forall i :: 0 <= i < |wire| - 1 ==> wire[i].Sent?
  }

  predicate CloseIsSent(wire: seq<WireOp>) {
    |wire| > 0 && wire[|wire| - 1].CloseSent?
  }

  predicate WireOk(wire: seq<WireOp>, accepted: seq<Frame>, sends: seq<Frame>, closing: Flag,
                   queued: nat, winners: nat, closes: nat) {
    && OrderlyWire(wire)
    && SentFrames(wire) <= accepted
    && queued + winners + Bit(CloseIsSent(wire)) <= closes <= 1
    && (closing.No? ==> closes == 0 && SentFrames(wire) + sends == accepted)
  }

  predicate WireInv(s: State) {
    WireOk(s.sock.wire, s.h.accepted, QueuedSends(s.sock.net), s.sock.closing,
           QueuedCloses(s.sock.net), s.winners, s.h.closes)
  }

  lemma WireApi(s: State, a: ApiAction)
    requires WireInv(s) && ApiEnabled(s, a)
    ensures WireInv(ApiStep(s, a))
  {
    var wire, sends := SentFrames(s.sock.wire), QueuedSends(s.sock.net);
    match a
    case CallStart => SendsAppend(s.sock.net, StartTask);
    case SendPost(frame) =>
      SendsAppend(s.sock.net, SendTask(frame));
      assert wire + (sends + [frame]) == (wire + sends) + [frame];
    case ClosePost(goodbye) => SendsAppend(s.sock.net, CloseTask(goodbye));
    case CancelPost => SendsAppend(s.sock.net, CancelTask);
    case _ =>
  }

  /** A send that still finds the socket open extends the wire by the next accepted frame. */
  lemma WireSend(wire: seq<WireOp>, accepted: seq<Frame>, sends: seq<Frame>, frame: Frame,
                 closing: Flag, queued: nat, winners: nat, closes: nat)
    requires WireOk(wire, accepted, [frame] + sends, closing, queued, winners, closes)
    requires closing.No?
    ensures WireOk(wire + [Sent(frame)], accepted, sends, closing, queued, winners, closes)
  {
    WireAppend(wire, Sent(frame));
    assert (SentFrames(wire) + [frame]) + sends == SentFrames(wire) + ([frame] + sends);
  }

  lemma WireClose(wire: seq<WireOp>, accepted: seq<Frame>, sends: seq<Frame>, goodbye: Goodbye,
                  closing: Flag, queued: nat, winners: nat, closes: nat)
    requires WireOk(wire, accepted, sends, closing, queued, winners, closes)
    requires queued > 0
    ensures WireOk(wire + [CloseSent(goodbye)], accepted, sends, closing, queued - 1, winners, closes)
  {
    WireAppend(wire, CloseSent(goodbye));
    assert SentFrames(wire) + [] == SentFrames(wire);
  }

  /** Taking any task off the queue when it does not reach the channel. */
  lemma WireKept(s: State, next: State)
    requires WireInv(s) && s.sock.net != [] && next.sock.net == s.sock.net[1..]
    requires next.sock.wire == s.sock.wire && next.h.accepted == s.h.accepted
    requires next.h.closes == s.h.closes && next.winners == s.winners
    requires s.sock.closing.Yes? ==> next.sock.closing.Yes?
    requires s.sock.net[0].SendTask? ==> next.sock.closing.Yes?
    ensures WireInv(next)
  {
    assert [] + QueuedSends(s.sock.net[1..]) == QueuedSends(s.sock.net[1..]);
  }

  lemma WireNet(s: State, valid: bool, timeout: bool)
    requires ApiInv(s) && WireInv(s) && s.sock.net != []
    ensures WireInv(Step(s, Net(valid, timeout)))
  {
    var t, c := s.sock.net[0], s.sock;
    assert !WasOpen(c) ==> !Needs(t);
    if t.SendTask? && c.closing.No? {
      WireSend(c.wire, s.h.accepted, QueuedSends(c.net[1..]), t.frame, c.closing,
               QueuedCloses(c.net[1..]), s.winners, s.h.closes);
    } else if t.CloseTask? && c.terminal.No? {
      assert [] + QueuedSends(c.net[1..]) == QueuedSends(c.net);
      WireClose(c.wire, s.h.accepted, QueuedSends(c.net[1..]), t.goodbye, c.closing,
                QueuedCloses(c.net), s.winners, s.h.closes);
    } else {
      WireKept(s, Step(s, Net(valid, timeout)));
    }
  }

  lemma WireChannel(s: State, a: ChannelAction)
    requires ApiInv(s) && WireInv(s) && ChannelEnabled(s.sock, a)
    ensures WireInv(Step(s, Env(a)))
  {
    if a.ChannelRead? { ReadCounts(s.sock, a.frames); }
  }

  lemma WireStep(s: State, a: Action)
    requires ApiInv(s) && WireInv(s) && Enabled(s, a)
    ensures WireInv(Step(s, a))
  {
    match a
    case Api(x) => WireApi(s, x);
    case Net(valid, timeout) => WireNet(s, valid, timeout);
    case Env(x) => WireChannel(s, x);
    case RunCallback =>
    case PostFollowUp =>
      SendsAppend(s.sock.net, if s.cbPc.AfterOpen? then StartReadingTask else ResumeReadingTask);
  }

  // ---- every run --------------------------------------------------------------------------

  predicate Inv(s: State) {
    ApiInv(s) && FlowInv(s) && TraceInv(s) && WireInv(s)
  }

  lemma FlagInit(config: Config)
    ensures ApiInv(Init(config))
  {
  }

  lemma FlowInit(config: Config)
    ensures FlowInv(Init(config))
  {
  }

  lemma TraceInit(config: Config)
    ensures TraceInv(Init(config))
  {
  }

  lemma WireInit(config: Config)
    ensures WireInv(Init(config))
  {
  }

  lemma InvInit(config: Config)
    ensures Inv(Init(config))
  {
    FlagInit(config);
    FlowInit(config);
    TraceInit(config);
    WireInit(config);
  }

  lemma InvStep(s: State, a: Action)
    requires Inv(s) && Enabled(s, a)
    ensures Inv(Step(s, a))
  {
    FlagStep(s, a);
    FlowStep(s, a);
    TraceStep(s, a);
    WireStep(s, a);
  }

  lemma {:induction false} InvRun(s: State, run: seq<Action>)
    requires Inv(s) && Feasible(s, run)
    ensures Inv(After(s, run))
    decreases |run|
  {
    if run != [] {
      InvStep(s, run[0]);
      InvRun(Step(s, run[0]), run[1..]);
    }
  }

  lemma ReachableInv(s: State)
    requires Reachable(s)
    ensures Inv(s)
  {
    var config, run :| Feasible(Init(config), run) && After(Init(config), run) == s;
    InvInit(config);
    InvRun(Init(config), run);
  }

  /**
   * Flow control: pending_data_ counts exactly the data that is still with the
   * callback runner or on its way back, so it never underflows; an open socket
   * has exactly one reason to read on; ReadFrames never overlaps a read.
   */
  lemma ReadingNeverStops(s: State)
    requires Reachable(s)
    ensures s.sock.pending >= 0 && s.sock.misuses == 0
    ensures s.sock.terminal.No? ==> s.sock.pending == Outstanding(s)
    ensures s.sock.isOpen.Yes? ==>
      Opening(s) + Bit(s.sock.pending > 0) + Bit(s.sock.channel.Reading?) == 1
    ensures s.sock.net != [] && s.sock.net[0].ResumeReadingTask? && s.sock.terminal.No? ==>
      && s.sock.pending >= 1
      && (ResumeReading(s.sock).channel.Reading? <==> s.sock.pending == 1)
  {
    ReachableInv(s);
  }

  /** The socket ends once: one terminal callback, delivered last, and nothing after it. */
  lemma EndsOnce(s: State)
    requires Reachable(s)
    ensures Orderly(s.sock.config, s.h.trace)
    ensures s.sock.terminal.No? ==> NoneEnds(s.h.trace)
    ensures s.sock.terminal.Yes? && s.sock.cb == [] ==> LastEnds(s.h.trace)
    ensures s.sock.terminal.Yes? && s.sock.cb != [] ==>
      NoneEnds(s.h.trace) && LastEnds(s.sock.cb)
  {
    ReachableInv(s);
    if s.sock.terminal.No? {
      assert forall i :: 0 <= i < |s.h.trace| ==> s.h.trace[i] == (s.h.trace + s.sock.cb)[i];
    }
  }

  /**
   * The wire: a prefix of the accepted sends in their order, then at most one
   * close; at most one Close succeeds, and nothing is lost before a close.
   */
  lemma SendsThenClose(s: State)
    requires Reachable(s)
    ensures OrderlyWire(s.sock.wire)
    ensures SentFrames(s.sock.wire) <= s.h.accepted
    ensures s.h.closes <= 1 && (CloseIsSent(s.sock.wire) ==> s.h.closes == 1)
    ensures s.sock.closing.No? ==>
      SentFrames(s.sock.wire) + QueuedSends(s.sock.net) == s.h.accepted
  {
    ReachableInv(s);
  }
}
