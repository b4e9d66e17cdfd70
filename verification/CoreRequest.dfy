/**
 * core/source/request.cc: the Core side of one request.
 *
 * The functions are the code's atomic pieces: a whole task on the network
 * runner, one compare-exchange of an API thread, or one step of the callback
 * runner. Class Request performs the same pieces in place.
 */
module CoreRequest {
  import opened Prelude
  import opened RequestQueue

  /** kReadBufferSize: no body callback carries more. */
  const READ_BUFFER_SIZE: nat := 32 * 1024

  const INVALID_ARGUMENT: int := 1
  const TIMEOUT: int := 6
  const CANCELED: int := 7
  const REDIRECT: int := 12

  datatype RedirectMode = FollowMode | ManualMode | ErrorMode
  datatype ReadState = Reading | Paused | ResumeRequested
  datatype Upload = Upload(data: Chunk, final: bool)

  datatype NetTask =
    | StartTask
    | CancelTask
    | ReadMoreTask
    | UploadTask(upload: Upload)
    | FollowTask
    | RedirectErrorTask

  datatype Callback =
    | ResponseCb(head: Head)
    | BodyCb(chunk: Chunk)
    | RedirectCb(hop: Hop)
    | CompleteCb(outcome: Outcome)

  datatype Config = Config(chunked: bool, mode: RedirectMode)

  /** The URLRequest as the Core sees it; NoRequest is a null request_. */
  datatype Url = NoRequest | Connecting | HopDeferred | Responded | ReadPending

  /** The value URLRequest::Read or OnReadCompleted reports. */
  datatype ReadResult = Pending | Bytes(chunk: Chunk) | Eof | NetError(code: int)

  /**
   * `misuses` counts calls of URLRequest::Read without a response or over an
   * outstanding read, and of FollowDeferredRedirect without a deferred hop.
   */
  datatype Core = Core(
    config: Config,
    started: Flag,
    completed: Flag,
    readState: ReadState,
    redirectDeferred: Flag,
    uploadFinished: Flag,
    url: Url,
    writer: Option<seq<Upload>>,
    timer: Flag,
    net: seq<NetTask>,
    cb: seq<Callback>,
    misuses: nat)

  function NewCore(config: Config): Core {
    Core(config, No, No, Reading, No, No, NoRequest, None, No, [], [], 0)
  }

  function PostNet(c: Core, t: NetTask): Core {
    c.(net := c.net + [t])
  }

  function PostCallback(c: Core, t: Callback): Core {
    c.(cb := c.cb + [t])
  }

  // ---- network runner -------------------------------------------------------

  function Complete(c: Core, outcome: Outcome): Core {
    if c.completed.Yes? then c
    else PostCallback(
        c.(completed := Yes, timer := No, writer := None, url := NoRequest),
        CompleteCb(outcome))
  }

  /** `rejected` is the code of an invalid URL or protocol mismatch, if any. */
  function StartOnNetworkThread(c: Core, rejected: Option<int>, timeout: bool): Core {
    if c.completed.Yes? then c
    else if rejected.Some? then Complete(c, Failed(rejected.value))
    else c.(url := Connecting,
            writer := if c.config.chunked then Some([]) else None,
            timer := ToFlag(timeout))
  }

  function CancelOnNetworkThread(c: Core): Core {
    Complete(c, Failed(CANCELED))
  }

  function TimeoutOnNetworkThread(c: Core): Core {
    Complete(c, Failed(TIMEOUT))
  }

  function RedirectErrorOnNetworkThread(c: Core): Core {
    Complete(c, Failed(REDIRECT))
  }

  function UploadWriteOnNetworkThread(c: Core, u: Upload): Core {
    if c.completed.No? && c.writer.Some? then c.(writer := Some(c.writer.value + [u])) else c
  }

  function FollowRedirectOnNetworkThread(c: Core): Core {
    if c.completed.Yes? || c.url.NoRequest? then c
    else if c.url.HopDeferred? then c.(url := Connecting)
    else c.(misuses := c.misuses + 1)
  }

  function OnReceivedRedirect(c: Core, hop: Hop): Core {
    var deferred := if c.config.mode.FollowMode? then c else c.(redirectDeferred := Yes, url := HopDeferred);
    var posted := PostCallback(deferred, RedirectCb(hop));
    if c.config.mode.ErrorMode? then PostNet(posted, RedirectErrorTask) else posted
  }

  function OnResponseStarted(c: Core, head: Head): Core {
    PostCallback(c.(url := Responded), ResponseCb(head))
  }

  function OnResponseFailed(c: Core, code: int): Core {
    Complete(c, Failed(code))
  }

  function OnReadCompleted(c: Core, r: ReadResult): Core
    requires !r.Pending?
  {
    match r
    case NetError(code) => Complete(c, Failed(code))
    case Eof => Complete(c, Finished)
    case Bytes(chunk) => PostCallback(c, BodyCb(chunk))
  }

  /** `r` is what URLRequest::Read answers; Pending is net::ERR_IO_PENDING. */
  function ReadMore(c: Core, r: ReadResult): Core {
    if c.completed.Yes? || c.url.NoRequest? then c
    else if c.url != Responded then c.(misuses := c.misuses + 1)
    else if r.Pending? then c.(url := ReadPending)
    else OnReadCompleted(c, r)
  }

  /** The delegate call that ends a pending read. */
  function ReadDone(c: Core, r: ReadResult): Core
    requires !r.Pending?
  {
    OnReadCompleted(c.(url := Responded), r)
  }

  // ---- API threads ------------------------------------------------------------

  function Start(c: Core): Core {
    if c.started.Yes? then c else PostNet(c.(started := Yes), StartTask)
  }

  /** The locked test of UploadWrite; true means the chunk is accepted. */
  predicate UploadAccepted(c: Core, u: Upload) {
    && c.config.chunked && c.started.Yes? && c.completed.No?
    && !(u.data == [] && !u.final)
    && c.uploadFinished.No?
  }

  // ---- ResumeRead, one compare-exchange at a time -------------------------------

  datatype ResumePc = FirstCas | RecordCas | RetryCas | MustPost | ResumeDone

  /** One atomic step of ResumeRead; `spurious` lets a weak compare-exchange fail. */
  function ResumeStep(c: Core, pc: ResumePc, spurious: bool): (Core, ResumePc) {
    match pc
    case FirstCas =>
      if c.readState.Paused? then (c.(readState := Reading), MustPost) else (c, RecordCas)
    case RecordCas =>
      (match c.readState
       case Reading => if spurious then (c, RecordCas)
                       else (c.(readState := ResumeRequested), ResumeDone)
       case ResumeRequested => (c, ResumeDone)
       case Paused => (c, RetryCas))
    case RetryCas =>
      if c.readState.Paused? && !spurious then (c.(readState := Reading), MustPost)
      else (c, RecordCas)
    case MustPost => (PostNet(c, ReadMoreTask), ResumeDone)
    case ResumeDone => (c, ResumeDone)
  }

  /**
   * What happens at one step of a ResumeRead among other threads: their last
   * store to read_state_, if any, the tasks they posted, and whether a weak
   * compare-exchange fails without cause.
   */
  datatype Turn = Turn(stored: Option<ReadState>, posted: seq<NetTask>, spurious: bool)

  function Interfere(c: Core, turn: Turn): Core {
    c.(readState := if turn.stored.Some? then turn.stored.value else c.readState,
       net := c.net + turn.posted)
  }

  /** ResumeRead from `pc` on, for as many atomic steps as there are turns. */
  function ResumeRun(c: Core, pc: ResumePc, turns: seq<Turn>): (Core, ResumePc)
    decreases |turns|
  {
    if turns == [] || pc.ResumeDone? then (c, pc)
    else
      var (next, pc') := ResumeStep(Interfere(c, turns[0]), pc, turns[0].spurious);
      ResumeRun(next, pc', turns[1..])
  }

  /** What a whole ResumeRead does when no other thread interferes. */
  function ResumeRead(c: Core): Core {
    if c.readState.Paused? then PostNet(c.(readState := Reading), ReadMoreTask)
    else c.(readState := ResumeRequested)
  }

  const Quiet := Turn(None, [], false)

  lemma QuietTurn(c: Core)
    ensures Interfere(c, Quiet) == c
  {
    assert c.net + [] == c.net;
  }

  /** Left alone, ResumeRead needs two steps. */
  lemma ResumeUndisturbed(c: Core)
    ensures ResumeRun(c, FirstCas, [Quiet, Quiet]) == (ResumeRead(c), ResumeDone)
  {
    var (next, pc) := ResumeStep(c, FirstCas, false);
    QuietTurn(c);
    QuietTurn(next);
    var last := [Quiet];
    assert [Quiet, Quiet][1..] == last && last[1..] == [];
    assert ResumeRun(next, pc, last) == ResumeStep(next, pc, false);
  }

  // ---- PauseRead on the callback runner -------------------------------------------

  /** The first compare-exchange; false means a resume arrived before the pause. */
  function PauseCas(c: Core): (Core, bool) {
    if c.readState.Reading? then (c.(readState := Paused), true) else (c, false)
  }

  /** The fallback branch up to its PostReadMore: the recorded resume is consumed. */
  function PauseStore(c: Core): Core {
    c.(readState := Reading)
  }

  /** The whole fallback branch. */
  function PauseFallback(c: Core): Core {
    PostNet(PauseStore(c), ReadMoreTask)
  }

  /** A pause and a resume commute: in either order reading goes on with one ReadMore. */
  lemma PauseAndResumeCommute(c: Core)
    requires c.readState.Reading?
    ensures var (paused, landed) := PauseCas(c);
      var resumed := ResumeRead(c);
      && landed
      && !PauseCas(resumed).1
      && ResumeRead(paused) == PauseFallback(PauseCas(resumed).0) == PostNet(c, ReadMoreTask)
  {
  }

  class Request {
    const config: Config
    var started: bool
    var completed: bool
    var readState: ReadState
    var redirectDeferred: bool
    var uploadFinished: bool
    var url: Url
    var writer: Option<seq<Upload>>
    var timerArmed: bool
    var net: seq<NetTask>
    var cb: seq<Callback>
    var misuses: nat

    function View(): Core
      reads this
    {
      Core(config, ToFlag(started), ToFlag(completed), readState, ToFlag(redirectDeferred),
           ToFlag(uploadFinished), url, writer, ToFlag(timerArmed), net, cb, misuses)
    }

    constructor (config: Config)
      ensures View() == NewCore(config)
    {
      this.config := config;
      started, completed, readState := false, false, Reading;
      redirectDeferred, uploadFinished, misuses := false, false, 0;
      url, writer, timerArmed := NoRequest, None, false;
      net, cb := [], [];
    }

    /** `verified` is profile().wire_verified(). */
    method RunStart(verified: bool) returns (ok: bool)
      modifies this
      ensures ok == (verified && !old(started))
      ensures View() == if verified then Start(old(View())) else old(View())
    {
      if !verified {
        return false;
      }
      if started {
        return false;
      }
      started := true;
      net := net + [StartTask];
      return true;
    }

    /** Cancel called while no other thread moves. */
    method Cancel() returns (ok: bool)
      modifies this
      ensures ok == (old(started) && !old(completed))
      ensures View() == if ok then PostNet(old(View()), CancelTask) else old(View())
    {
      if !started || completed {
        return false;
      }
      net := net + [CancelTask];
      return true;
    }

    method UploadWrite(data: Chunk, final: bool) returns (ok: bool)
      modifies this
      ensures ok == UploadAccepted(old(View()), Upload(data, final))
      ensures View() ==
        if ok then PostNet(old(View()).(uploadFinished := ToFlag(final)), UploadTask(Upload(data, final)))
        else old(View())
    {
      if !config.chunked || !started || completed || (data == [] && !final) {
        return false;
      }
      if completed || uploadFinished {
        return false;
      }
      uploadFinished := final;
      net := net + [UploadTask(Upload(data, final))];
      return true;
    }

    method FollowRedirect() returns (ok: bool)
      modifies this
      ensures ok == (config.mode.ManualMode? && old(redirectDeferred) && !old(completed))
      ensures View() ==
        if ok then PostNet(old(View()).(redirectDeferred := No), FollowTask)
        else if config.mode.ManualMode? then old(View()).(redirectDeferred := No)
        else old(View())
    {
      if !config.mode.ManualMode? {
        return false;
      }
      var deferred := redirectDeferred;
      redirectDeferred := false;
      if !deferred || completed {
        return false;
      }
      net := net + [FollowTask];
      return true;
    }

    method DoComplete(outcome: Outcome)
      modifies this
      ensures View() == Complete(old(View()), outcome)
    {
      if completed {
        return;
      }
      completed := true;
      timerArmed := false;
      writer := None;
      url := NoRequest;
      cb := cb + [CompleteCb(outcome)];
    }

    method DoStartOnNetworkThread(rejected: Option<int>, timeout: bool)
      modifies this
      ensures View() == StartOnNetworkThread(old(View()), rejected, timeout)
    {
      if completed {
        return;
      }
      if rejected.Some? {
        DoComplete(Failed(rejected.value));
        return;
      }
      url := Connecting;
      writer := if config.chunked then Some([]) else None;
      timerArmed := timeout;
    }

    method DoUploadWriteOnNetworkThread(u: Upload)
      modifies this
      ensures View() == UploadWriteOnNetworkThread(old(View()), u)
    {
      if !completed && writer.Some? {
        writer := Some(writer.value + [u]);
      }
    }

    method DoFollowRedirectOnNetworkThread()
      modifies this
      ensures View() == FollowRedirectOnNetworkThread(old(View()))
    {
      if !completed && url != NoRequest {
        if url == HopDeferred {
          url := Connecting;
        } else {
          misuses := misuses + 1;
        }
      }
    }

    method DoOnResponseStarted(response: Option<Head>, code: int)
      modifies this
      ensures View() ==
        if response.Some? then OnResponseStarted(old(View()), response.value)
        else OnResponseFailed(old(View()), code)
    {
      if response.None? {
        DoComplete(Failed(code));
        return;
      }
      url := Responded;
      cb := cb + [ResponseCb(response.value)];
    }

    method DoOnReceivedRedirect(hop: Hop)
      modifies this
      ensures View() == OnReceivedRedirect(old(View()), hop)
    {
      if !config.mode.FollowMode? {
        redirectDeferred := true;
        url := HopDeferred;
      }
      cb := cb + [RedirectCb(hop)];
      if config.mode.ErrorMode? {
        net := net + [RedirectErrorTask];
      }
    }

    method DoOnReadCompleted(r: ReadResult)
      requires !r.Pending?
      modifies this
      ensures View() == OnReadCompleted(old(View()), r)
    {
      match r {
        case NetError(code) => DoComplete(Failed(code));
        case Eof => DoComplete(Finished);
        case Bytes(chunk) => cb := cb + [BodyCb(chunk)];
      }
    }

    method DoReadMore(r: ReadResult)
      modifies this
      ensures View() == ReadMore(old(View()), r)
    {
      if completed || url.NoRequest? {
        return;
      }
      if url != Responded {
        misuses := misuses + 1;
      } else if r.Pending? {
        url := ReadPending;
      } else {
        DoOnReadCompleted(r);
      }
    }

    method BeInterfered(turn: Turn)
      modifies this
      ensures View() == Interfere(old(View()), turn)
    {
      if turn.stored.Some? {
        readState := turn.stored.value;
      }
      net := net + turn.posted;
    }

    /**
     * ResumeRead among other threads, stopped after as many atomic steps as there
     * are turns; each step comes after its turn.
     */
    method DoResumeRead(turns: seq<Turn>) returns (pc: ResumePc)
      modifies this
      ensures (View(), pc) == ResumeRun(old(View()), FirstCas, turns)
    {
      if turns == [] {
        return FirstCas;
      }
      BeInterfered(turns[0]);
      if readState.Paused? {
        readState := Reading;
        pc := DoPost(turns[1..]);
        return;
      }
      var i := 1;
      while i < |turns|
        invariant 1 <= i <= |turns|
        invariant ResumeRun(old(View()), FirstCas, turns) == ResumeRun(View(), RecordCas, turns[i..])
      {
        BeInterfered(turns[i]);
        var observed := readState;
        if observed.Reading? && !turns[i].spurious {
          readState := ResumeRequested;
          return ResumeDone;
        }
        if observed.ResumeRequested? {
          return ResumeDone;
        }
        i := i + 1;
        if observed.Paused? {
          if i == |turns| {
            return RetryCas;
          }
          BeInterfered(turns[i]);
          i := i + 1;
          if readState.Paused? && !turns[i - 1].spurious {
            readState := Reading;
            pc := DoPost(turns[i..]);
            return;
          }
        }
      }
      return RecordCas;
    }

    /** The PostReadMore of a thread that took the pause. */
    method DoPost(turns: seq<Turn>) returns (pc: ResumePc)
      modifies this
      ensures (View(), pc) == ResumeRun(old(View()), MustPost, turns)
    {
      if turns == [] {
        return MustPost;
      }
      BeInterfered(turns[0]);
      net := net + [ReadMoreTask];
      return ResumeDone;
    }

    method DoPauseRead()
      modifies this
      ensures var (c, landed) := PauseCas(old(View()));
        View() == if landed then c else PauseFallback(c)
    {
      if readState.Reading? {
        readState := Paused;
        return;
      }
      readState := Reading;
      net := net + [ReadMoreTask];
    }
  }
}
