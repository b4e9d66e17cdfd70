/**
 * crates/minicronet/src/request.rs: the mutex-guarded RequestState that sits
 * between the Core's callback runner and the consumers.
 *
 * Every function below is one lock region; RequestShared is the object whose
 * fields those regions update.
 */
module RequestQueue {
  import opened Prelude

  const BODY_BUFFER_LIMIT: nat := 1024 * 1024

  datatype Head = Head(status: int, headers: Chunk)
  datatype Hop = Hop(status: int, headers: Chunk, url: string, verb: string)

  /** The result on_complete carries: MN_OK, or an error code. */
  datatype Outcome = Finished | Failed(code: int)

  /** What a body take hands to the consumer. */
  datatype BodyItem = Data(chunk: Chunk) | End | Error(code: int)

  datatype HeadResult = GotHead(head: Head) | HeadFailed(code: int)

  datatype Queue = Queue(
    response: Option<Head>,
    responseTaken: Flag,
    body: seq<Chunk>,
    bodyBytes: nat,
    readPaused: Flag,
    redirects: seq<Hop>,
    terminal: Option<Outcome>,
    terminalErrorTaken: Flag)

  const EmptyQueue := Queue(None, No, [], 0, No, [], None, No)

  // ---- callback side ----------------------------------------------------

  function OnResponse(q: Queue, head: Head): Queue {
    q.(response := Some(head))
  }

  function OnRedirect(q: Queue, hop: Hop): Queue {
    q.(redirects := q.redirects + [hop])
  }

  /** Whether on_body answers MN_READ_PAUSE for this chunk. */
  predicate Pauses(q: Queue, chunk: Chunk) {
    q.bodyBytes + |chunk| >= BODY_BUFFER_LIMIT && q.terminal.None?
  }

  function OnBody(q: Queue, chunk: Chunk): Queue {
    q.(body := q.body + [chunk],
       bodyBytes := q.bodyBytes + |chunk|,
       readPaused := if Pauses(q, chunk) then Yes else q.readPaused)
  }

  function OnComplete(q: Queue, outcome: Outcome): Queue {
    q.(terminal := Some(outcome))
  }

  // ---- consumer side ----------------------------------------------------

  function SaturatingSub(a: nat, b: nat): nat {
    if a < b then 0 else a - b
  }

  function TakeBody(q: Queue): (Queue, Option<BodyItem>) {
    if q.body != [] then
      (q.(body := q.body[1..], bodyBytes := SaturatingSub(q.bodyBytes, |q.body[0]|)),
       Some(Data(q.body[0])))
    else
      match q.terminal
      case Some(Finished) => (q, Some(End))
      case Some(Failed(code)) =>
        if q.terminalErrorTaken.No? then (q.(terminalErrorTaken := Yes), Some(Error(code)))
        else (q, Some(End))
      case None => (q, None)
  }

  /** Whether clear_pause finds a recorded pause and a queue back under the ceiling. */
  predicate Resumes(q: Queue) {
    q.readPaused.Yes? && q.bodyBytes < BODY_BUFFER_LIMIT
  }

  function ClearPause(q: Queue): Queue {
    if Resumes(q) then q.(readPaused := No) else q
  }

  /** try_next, blocking_next and poll_next: one take and, when it produced an item, one clear. */
  function Next(q: Queue): (Queue, Option<BodyItem>) {
    var (taken, item) := TakeBody(q);
    (if item.Some? then ClearPause(taken) else q, item)
  }

  /** Whether that take must be followed by resume_read. */
  predicate NextResumes(q: Queue) {
    TakeBody(q).1.Some? && Resumes(TakeBody(q).0)
  }

  function TakeResponse(q: Queue): (Queue, Option<HeadResult>) {
    if q.responseTaken.Yes? then (q, None)
    else if q.response.Some? then
      (q.(response := None, responseTaken := Yes), Some(GotHead(q.response.value)))
    else if q.terminal.Some? && q.terminal.value.Failed? then
      (q.(responseTaken := Yes), Some(HeadFailed(q.terminal.value.code)))
    else (q, None)
  }

  function TakeRedirect(q: Queue): (Queue, Option<Hop>) {
    if q.redirects == [] then (q, None)
    else (q.(redirects := q.redirects[1..]), Some(q.redirects[0]))
  }

  // ---- what every lock region keeps ---------------------------------------

  /** bodyBytes is the real size of the queue, and a recorded pause means a full queue. */
  predicate Valid(q: Queue) {
    && q.bodyBytes == Total(q.body)
    && (q.readPaused.Yes? ==> q.bodyBytes >= BODY_BUFFER_LIMIT)
  }

  lemma OnBodyValid(q: Queue, chunk: Chunk)
    requires Valid(q)
    ensures Valid(OnBody(q, chunk))
  {
    TotalAppend(q.body, [chunk]);
    TotalOne(chunk);
  }

  /**
   * A take removes exactly the front chunk, keeps the queue valid, and when it
   * asks the caller to resume, the recorded pause is gone and the queue has room.
   */
  lemma NextValid(q: Queue)
    requires Valid(q)
    ensures var (q', item) := Next(q);
      && Valid(q')
      && (item.Some? && item.value.Data? ==> q.body == [item.value.chunk] + q'.body)
      && (item.None? || !item.value.Data? ==> q'.body == q.body)
      && (NextResumes(q) <==> q.readPaused.Yes? && q'.bodyBytes < BODY_BUFFER_LIMIT)
      && (q'.readPaused.Yes? <==> q.readPaused.Yes? && !NextResumes(q))
  {
  }

  /** What n takes in a row hand out once a terminal result is on record. */
  function Takes(q: Queue, n: nat): seq<BodyItem>
    requires q.terminal.Some?
    decreases n
  {
    if n == 0 then [] else [Next(q).1.value] + Takes(Next(q).0, n - 1)
  }

  function AsItems(body: seq<Chunk>): seq<BodyItem> {
    if body == [] then [] else [Data(body[0])] + AsItems(body[1..])
  }

  /** A finished stream: every chunk in order, then the error, once, then the end as often as asked. */
  lemma {:induction false} StreamEnds(q: Queue, outcome: Outcome, n: nat)
    requires q.terminal == Some(outcome)
    ensures Takes(q, |q.body| + 1 + n) == AsItems(q.body)
      + [if outcome.Failed? && q.terminalErrorTaken.No? then Error(outcome.code) else End]
      + seq(n, _ => End)
    decreases |q.body|, n
  {
    var next := Next(q).0;
    if q.body != [] {
      StreamEnds(next, outcome, n);
    } else if n > 0 {
      StreamEnds(next, outcome, n - 1);
      assert [End] + seq(n - 1, _ => End) == seq(n, _ => End);
    }
  }

  class RequestShared {
    var response: Option<Head>
    var responseTaken: bool
    var body: seq<Chunk>
    var bodyBytes: nat
    var readPaused: bool
    var redirects: seq<Hop>
    var terminal: Option<Outcome>
    var terminalErrorTaken: bool

    function View(): Queue
      reads this
    {
      Queue(response, ToFlag(responseTaken), body, bodyBytes, ToFlag(readPaused), redirects,
            terminal, ToFlag(terminalErrorTaken))
    }

    constructor ()
      ensures View() == EmptyQueue
    {
      response := None;
      responseTaken := false;
      body := [];
      bodyBytes := 0;
      readPaused := false;
      redirects := [];
      terminal := None;
      terminalErrorTaken := false;
    }

    method HandleResponse(head: Head)
      modifies this
      ensures View() == OnResponse(old(View()), head)
    {
      response := Some(head);
    }

    method HandleRedirect(hop: Hop)
      modifies this
      ensures View() == OnRedirect(old(View()), hop)
    {
      redirects := redirects + [hop];
    }

    method HandleBody(chunk: Chunk) returns (pause: bool)
      modifies this
      ensures View() == OnBody(old(View()), chunk)
      ensures pause == Pauses(old(View()), chunk)
    {
      body := body + [chunk];
      bodyBytes := bodyBytes + |chunk|;
      pause := bodyBytes >= BODY_BUFFER_LIMIT && terminal.None?;
      if pause {
        readPaused := true;
      }
    }

    method HandleComplete(outcome: Outcome)
      modifies this
      ensures View() == OnComplete(old(View()), outcome)
    {
      terminal := Some(outcome);
    }

    method Take() returns (item: Option<BodyItem>)
      modifies this
      ensures View() == TakeBody(old(View())).0
      ensures item == TakeBody(old(View())).1
    {
      if body != [] {
        var front := body[0];
        body := body[1..];
        bodyBytes := if bodyBytes < |front| then 0 else bodyBytes - |front|;
        return Some(Data(front));
      }
      match terminal {
        case Some(Finished) => item := Some(End);
        case Some(Failed(code)) =>
          if !terminalErrorTaken {
            terminalErrorTaken := true;
            item := Some(Error(code));
          } else {
            item := Some(End);
          }
        case None => item := None;
      }
    }

    /** ResponseStream::try_next; the caller issues resume_read when `resume` is set. */
    method TryNext() returns (item: Option<BodyItem>, resume: bool)
      modifies this
      ensures (View(), item) == Next(old(View()))
      ensures resume == NextResumes(old(View()))
    {
      item := Take();
      resume := false;
      if item.Some? && readPaused && bodyBytes < BODY_BUFFER_LIMIT {
        readPaused := false;
        resume := true;
      }
    }

    method TryTakeResponse() returns (result: Option<HeadResult>)
      modifies this
      ensures (View(), result) == TakeResponse(old(View()))
    {
      result := None;
      if !responseTaken {
        if response.Some? {
          result := Some(GotHead(response.value));
          response := None;
          responseTaken := true;
        } else if terminal.Some? && terminal.value.Failed? {
          responseTaken := true;
          result := Some(HeadFailed(terminal.value.code));
        }
      }
    }

    method TryTakeRedirect() returns (hop: Option<Hop>)
      modifies this
      ensures (View(), hop) == TakeRedirect(old(View()))
    {
      if redirects == [] {
        hop := None;
      } else {
        hop := Some(redirects[0]);
        redirects := redirects[1..];
      }
    }
  }
}
