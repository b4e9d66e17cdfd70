/**
 * What a WebSocket tells the application is what happened, in order and word for
 * word, and what callers asked for is done or on its way.
 */
module WebSocketReports {
  import opened Prelude
  import opened WebSocketCore
  import opened WebSocketSystem
  import opened WebSocketTheorems

  // ---- every callback has its report --------------------------------------------------------

  function EndOf(cause: Cause): Callback {
    match cause
    case Dropped(clean, goodbye) => ClosedCb(clean, goodbye)
    case ChannelFailure(failure) => FailureCb(failure)
    case DeadlinePassed => FailureCb(TimedOut)
    case CancelCalled => FailureCb(Canceled)
    case StartInvalid => FailureCb(InvalidUrl)
  }

  function CallbackOf(r: Report): Callback {
    match r
    case OpenSeen(protocol, extensions) => OpenCb(protocol, extensions)
    case FrameSeen(frame, final) => MessageCb(frame, final)
    case ClosingSeen => ClosingCb
    case EndSeen(cause) => EndOf(cause)
  }

  predicate Reported(all: seq<Callback>, reports: seq<Report>) {
    && |all| == |reports|
    && forall i :: 0 <= i < |all| ==> all[i] == CallbackOf(reports[i])
  }

  /** The callbacks so far are the first of those due. */
  predicate ReportedSoFar(trace: seq<Callback>, reports: seq<Report>) {
    && |trace| <= |reports|
    && forall i :: 0 <= i < |trace| ==> trace[i] == CallbackOf(reports[i])
  }

  /** After the end only its own callback is still to come, and all others may be dropped. */
  predicate EndReported(trace: seq<Callback>, cb: seq<Callback>, reports: seq<Report>) {
    && |reports| > 0 && reports[|reports| - 1].EndSeen?
    && var end := CallbackOf(reports[|reports| - 1]);
    if |cb| > 0 then
      cb[|cb| - 1] == end && ReportedSoFar(trace, reports[..|reports| - 1])
    else
      && |trace| > 0 && trace[|trace| - 1] == end
      && ReportedSoFar(trace[..|trace| - 1], reports[..|reports| - 1])
  }

  predicate ReportInv(s: State) {
    if s.sock.terminal.No? then Reported(s.h.trace + s.sock.cb, s.h.reports)
    else EndReported(s.h.trace, s.sock.cb, s.h.reports)
  }

  /** One callback more, for one report more. */
  lemma ReportOne(trace: seq<Callback>, cb: seq<Callback>, reports: seq<Report>, r: Report)
    requires Reported(trace + cb, reports)
    ensures Reported(trace + (cb + [CallbackOf(r)]), reports + [r])
  {
    assert trace + (cb + [CallbackOf(r)]) == (trace + cb) + [CallbackOf(r)];
  }

  lemma ReportTerminal(trace: seq<Callback>, cb: seq<Callback>, reports: seq<Report>, cause: Cause)
    requires Reported(trace + cb, reports)
    ensures EndReported(trace, cb + [EndOf(cause)], reports + [EndSeen(cause)])
  {
    assert (reports + [EndSeen(cause)])[..|reports|] == reports;
    assert forall i :: 0 <= i < |trace| ==> trace[i] == (trace + cb)[i];
  }

  lemma {:induction false} ReportFrames(trace: seq<Callback>, s: Sock, reports: seq<Report>,
                                        frames: seq<(Frame, bool)>)
    requires s.terminal.No? && Reported(trace + s.cb, reports)
    ensures Reported(trace + OnRead(s, frames).cb, reports + FrameReports(frames))
    decreases |frames|
  {
    if frames == [] {
      assert reports + FrameReports(frames) == reports;
    } else {
      var r := FrameSeen(frames[0].0, frames[0].1);
      ReportOne(trace, s.cb, reports, r);
      ReportFrames(trace, OnMessage(s, frames[0].0, frames[0].1), reports + [r], frames[1..]);
      assert FrameReports(frames) == [r] + FrameReports(frames[1..]);
      assert (reports + [r]) + FrameReports(frames[1..]) == reports + FrameReports(frames);
    }
  }

  lemma ReportChannel(s: State, a: ChannelAction)
    requires ApiInv(s) && ReportInv(s) && ChannelEnabled(s.sock, a)
    ensures ReportInv(Step(s, Env(a)))
  {
    var trace, cb, reports := s.h.trace, s.sock.cb, s.h.reports;
    assert reports + [] == reports;
    if s.sock.terminal.No? {
      match a
      case ChannelOpen(protocol, extensions) =>
        ReportOne(trace, cb, reports, OpenSeen(protocol, extensions));
      case ChannelRead(frames) =>
        ReportFrames(trace, s.sock, reports, frames);
        ReadCounts(s.sock, frames);
      case ChannelClosing => ReportOne(trace, cb, reports, ClosingSeen);
      case ChannelDropped(clean, goodbye) =>
        ReportTerminal(trace, cb, reports, Dropped(clean, goodbye));
      case ChannelFailed(failure) => ReportTerminal(trace, cb, reports, ChannelFailure(failure));
      case TimerFires => ReportTerminal(trace, cb, reports, DeadlinePassed);
    }
  }

  /** A task that ends nothing. */
  lemma ReportFrame(s: State, next: State)
    requires ReportInv(s)
    requires next.h.trace == s.h.trace && next.h.reports == s.h.reports
    requires next.sock.cb == s.sock.cb && next.sock.terminal == s.sock.terminal
    ensures ReportInv(next)
  {
  }

  /** A task that ends the socket posts the callback of its cause and nothing else. */
  lemma NetEnds(s: Sock, t: NetTask, valid: bool, timeout: bool)
    requires NetReports(s, t, valid) != []
    ensures var cause := if t.CancelTask? then CancelCalled else StartInvalid;
      && s.terminal.No? && NetReports(s, t, valid) == [EndSeen(cause)]
      && NetTaskStep(s, t, valid, timeout).terminal.Yes?
      && NetTaskStep(s, t, valid, timeout).cb == s.cb + [EndOf(cause)]
  {
  }

  lemma NetQuiet(s: Sock, t: NetTask, valid: bool, timeout: bool)
    requires NetReports(s, t, valid) == []
    ensures NetTaskStep(s, t, valid, timeout).cb == s.cb
    ensures NetTaskStep(s, t, valid, timeout).terminal == s.terminal
  {
  }

  lemma ReportNet(s: State, valid: bool, timeout: bool)
    requires ReportInv(s) && s.sock.net != []
    ensures ReportInv(Step(s, Net(valid, timeout)))
  {
    var popped, t := s.sock.(net := s.sock.net[1..]), s.sock.net[0];
    if NetReports(popped, t, valid) == [] {
      assert s.h.reports + [] == s.h.reports;
      NetQuiet(popped, t, valid, timeout);
      ReportFrame(s, Step(s, Net(valid, timeout)));
    } else {
      NetEnds(popped, t, valid, timeout);
      ReportTerminal(s.h.trace, s.sock.cb, s.h.reports, if t.CancelTask? then CancelCalled else StartInvalid);
    }
  }

  lemma ReportCallback(s: State)
    requires TraceInv(s) && ReportInv(s) && Enabled(s, RunCallback)
    ensures ReportInv(CallbackStep(s))
  {
    var t, rest := s.sock.cb[0], s.sock.cb[1..];
    if s.sock.terminal.No? {
      assert (s.h.trace + [t]) + rest == s.h.trace + s.sock.cb;
    } else if |rest| == 0 {
      assert (s.h.trace + [t])[..|s.h.trace|] == s.h.trace;
    } else {
      assert !Ends(s.sock.cb[..|s.sock.cb| - 1][0]);
    }
  }

  lemma ReportStep(s: State, a: Action)
    requires Inv(s) && ReportInv(s) && Enabled(s, a)
    ensures ReportInv(Step(s, a))
  {
    match a
    case Api(x) => assert ApiStep(s, x).sock.cb == s.sock.cb;
    case Net(valid, timeout) => ReportNet(s, valid, timeout);
    case Env(x) => ReportChannel(s, x);
    case RunCallback => ReportCallback(s);
    case PostFollowUp =>
  }

  // ---- every call has its effect --------------------------------------------------------------

  /** The close on the wire or on its way to it is the one the winning Close was given. */
  predicate GoodbyeOk(wire: seq<WireOp>, net: seq<NetTask>, goodbye: Option<Goodbye>) {
    && (CloseIsSent(wire) ==> goodbye == Some(wire[|wire| - 1].goodbye))
    && (forall i :: 0 <= i < |net| && net[i].CloseTask? ==> goodbye == Some(net[i].goodbye))
  }

  /** What was asked for and has not ended the socket yet. */
  predicate AskedOk(s: State) {
    s.sock.terminal.No? ==>
      && (s.h.calls.cancelled.Yes? ==> s.cancels > 0 || CancelTask in s.sock.net)
      && (s.sock.timer.Yes? <==> s.h.calls.deadline.Yes?)
      && (s.sock.closing.Yes? ==> s.h.closes > 0 || s.h.calls.peerCloses.Yes?)
      && (s.h.closes > 0 ==>
            s.winners > 0 || QueuedCloses(s.sock.net) > 0 || CloseIsSent(s.sock.wire))
  }

  predicate CallInv(s: State) {
    && AskedOk(s)
    && GoodbyeOk(s.sock.wire, s.sock.net, s.h.calls.goodbye)
    && (s.winners > 0 ==> QueuedCloses(s.sock.net) == 0 && !CloseIsSent(s.sock.wire))
    && (forall i :: 0 <= i < |s.h.accepted| ==> Sendable(s.h.accepted[i]))
  }

  lemma NoCloses(net: seq<NetTask>)
    requires QueuedCloses(net) == 0
    ensures forall i :: 0 <= i < |net| ==> !net[i].CloseTask?
    decreases |net|
  {
    if net != [] {
      NoCloses(net[1..]);
      assert forall i :: 0 < i < |net| ==> net[i] == net[1..][i - 1];
    }
  }

  lemma CallPosted(s: State, t: NetTask)
    ensures forall u :: u in s.sock.net + [t] <==> u in s.sock.net || u == t
    ensures QueuedCloses(s.sock.net + [t]) == QueuedCloses(s.sock.net) + Bit(t.CloseTask?)
  {
    SendsAppend(s.sock.net, t);
  }

  lemma CallApi(s: State, a: ApiAction)
    requires Inv(s) && CallInv(s) && ApiEnabled(s, a)
    ensures CallInv(ApiStep(s, a))
  {
    match a
    case CallStart => CallPosted(s, StartTask);
    case SendPost(frame) => CallPosted(s, SendTask(frame));
    case ClosePost(goodbye) =>
      CallPosted(s, CloseTask(goodbye));
      NoCloses(s.sock.net);
    case CancelPost => CallPosted(s, CancelTask);
    case _ =>
  }

  lemma GoodbyeNet(s: State, valid: bool, timeout: bool)
    requires Inv(s) && CallInv(s) && s.sock.net != []
    ensures var next := Step(s, Net(valid, timeout));
      && GoodbyeOk(next.sock.wire, next.sock.net, next.h.calls.goodbye)
      && (next.winners > 0 ==> QueuedCloses(next.sock.net) == 0 && !CloseIsSent(next.sock.wire))
  {
    var t, rest := s.sock.net[0], s.sock.net[1..];
    assert forall i :: 0 <= i < |rest| ==> rest[i] == s.sock.net[i + 1];
    assert QueuedCloses(s.sock.net) == Bit(t.CloseTask?) + QueuedCloses(rest);
    assert !CloseIsSent(s.sock.wire + [Sent(Frame(Text, []))]);
  }

  /** A task that sends or reads leaves what was asked for alone. */
  lemma AskedPlain(s: State, valid: bool, timeout: bool)
    requires Inv(s) && CallInv(s) && s.sock.net != []
    requires !s.sock.net[0].StartTask? && !s.sock.net[0].CloseTask? && !s.sock.net[0].CancelTask?
    ensures AskedOk(Step(s, Net(valid, timeout)))
  {
    var t, rest := s.sock.net[0], s.sock.net[1..];
    assert forall u :: u in s.sock.net <==> u == t || u in rest;
    assert QueuedCloses(s.sock.net) == QueuedCloses(rest);
    if s.sock.terminal.No? && CloseIsSent(s.sock.wire) { assert s.h.closes == 1; }
  }

  lemma AskedNet(s: State, valid: bool, timeout: bool)
    requires Inv(s) && CallInv(s) && s.sock.net != []
    ensures AskedOk(Step(s, Net(valid, timeout)))
  {
    var t, rest := s.sock.net[0], s.sock.net[1..];
    assert forall u :: u in s.sock.net <==> u == t || u in rest;
    assert QueuedCloses(s.sock.net) == Bit(t.CloseTask?) + QueuedCloses(rest);
    assert !WasOpen(s.sock) ==> !Needs(t);
    match t
    case StartTask =>
    case CloseTask(_) =>
    case CancelTask =>
    case _ => AskedPlain(s, valid, timeout);
  }

  lemma CallNet(s: State, valid: bool, timeout: bool)
    requires Inv(s) && CallInv(s) && s.sock.net != []
    ensures CallInv(Step(s, Net(valid, timeout)))
  {
    GoodbyeNet(s, valid, timeout);
    AskedNet(s, valid, timeout);
  }

  lemma CallChannel(s: State, a: ChannelAction)
    requires Inv(s) && CallInv(s) && ChannelEnabled(s.sock, a)
    ensures CallInv(Step(s, Env(a)))
  {
    if a.ChannelRead? { ReadCounts(s.sock, a.frames); }
  }

  lemma CallStep(s: State, a: Action)
    requires Inv(s) && CallInv(s) && Enabled(s, a)
    ensures CallInv(Step(s, a))
  {
    match a
    case Api(x) => CallApi(s, x);
    case Net(valid, timeout) => CallNet(s, valid, timeout);
    case Env(x) => CallChannel(s, x);
    case RunCallback =>
    case PostFollowUp =>
      CallPosted(s, if s.cbPc.AfterOpen? then StartReadingTask else ResumeReadingTask);
  }

  // ---- every run --------------------------------------------------------------------------

  lemma {:induction false} ReportRun(s: State, run: seq<Action>)
    requires Inv(s) && ReportInv(s) && CallInv(s) && Feasible(s, run)
    ensures ReportInv(After(s, run)) && CallInv(After(s, run))
    decreases |run|
  {
    if run != [] {
      InvStep(s, run[0]);
      ReportStep(s, run[0]);
      CallStep(s, run[0]);
      ReportRun(Step(s, run[0]), run[1..]);
    }
  }

  lemma ReachableReports(s: State)
    requires Reachable(s)
    ensures ReportInv(s) && CallInv(s)
  {
    var config, run :| Feasible(Init(config), run) && After(Init(config), run) == s;
    InvInit(config);
    ReportRun(Init(config), run);
  }

  /**
   * What arrives: up to the end, the callbacks received and queued are one for one what the
   * channel reported, with every frame's kind, payload and final flag; after it, those received
   * are the first of them, and the terminal one carries what the cause of the end reported.
   */
  lemma CallbacksAreReports(s: State)
    requires Reachable(s)
    ensures s.sock.terminal.No? ==> Reported(s.h.trace + s.sock.cb, s.h.reports)
    ensures s.sock.terminal.Yes? ==>
      && |s.h.reports| > 0 && s.h.reports[|s.h.reports| - 1].EndSeen?
      && forall i :: 0 <= i < |s.h.trace| ==>
           if Ends(s.h.trace[i]) then s.h.trace[i] == EndOf(s.h.reports[|s.h.reports| - 1].cause)
           else i < |s.h.reports| - 1 && s.h.trace[i] == CallbackOf(s.h.reports[i])
    ensures s.sock.terminal.Yes? && |s.sock.cb| > 0 ==>
      s.sock.cb[|s.sock.cb| - 1] == EndOf(s.h.reports[|s.h.reports| - 1].cause)
  {
    ReachableReports(s);
    EndsOnce(s);
    if s.sock.terminal.Yes? {
      var body := s.h.reports[..|s.h.reports| - 1];
      assert forall i :: 0 <= i < |body| ==> body[i] == s.h.reports[i];
      if |s.sock.cb| == 0 {
        var received := s.h.trace[..|s.h.trace| - 1];
        assert forall i :: 0 <= i < |received| ==> received[i] == s.h.trace[i];
      }
    }
  }

  /**
   * Calls take effect: while the socket has not ended, a cancel that passed its check is on its way
   * to the network runner; a deadline has its timer; a Close that succeeded is about to be posted,
   * queued, or on the wire, with what the caller gave it; and sends are refused only before the
   * socket is open and after someone closed it.
   */
  lemma CallsTakeEffect(s: State)
    requires Reachable(s) && s.sock.terminal.No?
    ensures s.h.calls.cancelled.Yes? ==> s.cancels > 0 || CancelTask in s.sock.net
    ensures s.h.calls.deadline.Yes? <==> s.sock.timer.Yes?
    ensures s.h.closes > 0 ==>
      s.winners > 0 || QueuedCloses(s.sock.net) > 0 || CloseIsSent(s.sock.wire)
    ensures CloseIsSent(s.sock.wire) ==>
      s.h.calls.goodbye == Some(s.sock.wire[|s.sock.wire| - 1].goodbye)
    ensures Open(s.sock.channel) && s.h.closes == 0 && s.h.calls.peerCloses.No? ==>
      && Step(s, Api(SendCheck)).senders == s.senders + 1
      && Step(s, Api(CloseCheck)).closers == s.closers + 1
    ensures s.sock.started.Yes? ==> Step(s, Api(CancelCheck)).cancels == s.cancels + 1
    ensures s.sock.started.Yes? ==> StartTask in s.sock.net || !s.sock.channel.NoChannel?
  {
    ReachableReports(s);
    ReachableInv(s);
  }

  /** Only whole messages go out: no continuation frame is accepted or sent. */
  lemma SendsAreMessages(s: State)
    requires Reachable(s)
    ensures forall i :: 0 <= i < |SentFrames(s.sock.wire)| ==> Sendable(SentFrames(s.sock.wire)[i])
  {
    ReachableReports(s);
    SendsThenClose(s);
    assert forall i :: 0 <= i < |SentFrames(s.sock.wire)| ==>
      SentFrames(s.sock.wire)[i] == s.h.accepted[i];
  }

  /** What those steps end the socket with. */
  lemma EndsTheSocket(s: State, a: Action, valid: bool, timeout: bool)
    requires Reachable(s) && Enabled(s, a) && s.sock.terminal.No?
    requires a == Env(TimerFires) || (a == Net(valid, timeout) && s.sock.net[0].CancelTask?)
    ensures Step(s, a).sock.terminal.Yes? && Step(s, a).sock.channel.NoChannel?
    ensures Step(s, a).sock.cb == s.sock.cb + [FailureCb(if a.Env? then TimedOut else Canceled)]
  {
  }
}
