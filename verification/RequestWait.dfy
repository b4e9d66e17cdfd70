/**
 * The blocking side of crates/minicronet/src/request.rs: ResponseFuture::wait and
 * ResponseStream::blocking_next sleep on the condition variable, or a waker, and
 * every lock region that could end their wait notifies them before it unlocks.
 */
module RequestWait {
  import opened Prelude
  import opened RequestQueue
  import opened CoreRequest
  import opened Pipeline
  import PipelineTheorems

  /**
   * The request with one thread or task that waits for the head and one that
   * waits for the body; a sleeper was told None and has not been notified since.
   */
  datatype Waiters = Waiters(s: State, headSleeps: Flag, bodySleeps: Flag)

  datatype WaitAction =
    | Other(action: Action)
    | CheckHead
    | CheckBody
    | WakeHead
    | WakeBody

  predicate WaitEnabled(w: Waiters, a: WaitAction) {
    match a
    case Other(x) => Enabled(w.s, x)
    case CheckHead => w.headSleeps.No?
    case CheckBody => w.bodySleeps.No?
    case WakeHead | WakeBody => true
  }

  /** notify in the callbacks, and changed.notify_all after a take that got an item. */
  predicate Notifies(s: State, a: Action) {
    a == OnRunner(CbRun) || (a == Consumer(TakeBodyItem) && Next(s.q).1.Some?)
  }

  function Notified(w: Waiters, a: Action): Waiters
    requires Enabled(w.s, a)
  {
    if Notifies(w.s, a) then Waiters(Step(w.s, a), No, No) else w.(s := Step(w.s, a))
  }

  /** A check takes what is there or goes to sleep, in one lock region; wakeups may be spurious. */
  function WaitStep(w: Waiters, a: WaitAction): Waiters
    requires WaitEnabled(w, a)
  {
    match a
    case Other(x) => Notified(w, x)
    case CheckHead =>
      if TakeResponse(w.s.q).1.Some? then Notified(w, Consumer(TakeHead))
      else w.(headSleeps := Yes)
    case CheckBody =>
      if Next(w.s.q).1.Some? then Notified(w, Consumer(TakeBodyItem))
      else w.(bodySleeps := Yes)
    case WakeHead => w.(headSleeps := No)
    case WakeBody => w.(bodySleeps := No)
  }

  predicate WaitFeasible(w: Waiters, run: seq<WaitAction>)
    decreases |run|
  {
    run == [] || (WaitEnabled(w, run[0]) && WaitFeasible(WaitStep(w, run[0]), run[1..]))
  }

  function WaitAfter(w: Waiters, run: seq<WaitAction>): Waiters
    requires WaitFeasible(w, run)
    decreases |run|
  {
    if run == [] then w else WaitAfter(WaitStep(w, run[0]), run[1..])
  }

  ghost predicate WaitReachable(w: Waiters) {
    exists config, run :: WaitFeasible(Waiters(Init(config), No, No), run)
      && WaitAfter(Waiters(Init(config), No, No), run) == w
  }

  /** A sleeper has nothing to take. */
  predicate SleepersOk(w: Waiters) {
    && (w.headSleeps.Yes? ==> TakeResponse(w.s.q).1.None?)
    && (w.bodySleeps.Yes? ==> TakeBody(w.s.q).1.None?)
  }

  /** A step that notifies nobody gives no sleeper anything to take. */
  lemma SilentStep(s: State, a: Action)
    requires Enabled(s, a) && !Notifies(s, a)
    ensures TakeResponse(s.q).1.None? ==> TakeResponse(Step(s, a).q).1.None?
    ensures TakeBody(s.q).1.None? ==> TakeBody(Step(s, a).q).1.None?
  {
    if a.Consumer? {
      match a.take {
        case TakeBodyItem =>
        case TakeHead =>
        case TakeHop =>
      }
    } else {
      assert Step(s, a).q == s.q;
    }
  }

  lemma SleepersStep(w: Waiters, a: WaitAction)
    requires SleepersOk(w) && Reachable(w.s) && WaitEnabled(w, a)
    ensures SleepersOk(WaitStep(w, a)) && Reachable(WaitStep(w, a).s)
  {
    match a
    case Other(x) =>
      PipelineTheorems.ReachableStep(w.s, x);
      if !Notifies(w.s, x) { SilentStep(w.s, x); }
    case CheckHead =>
      PipelineTheorems.ReachableStep(w.s, Consumer(TakeHead));
      SilentStep(w.s, Consumer(TakeHead));
    case CheckBody =>
      PipelineTheorems.ReachableStep(w.s, Consumer(TakeBodyItem));
    case _ =>
  }

  lemma {:induction false} SleepersRun(w: Waiters, run: seq<WaitAction>)
    requires SleepersOk(w) && Reachable(w.s) && WaitFeasible(w, run)
    ensures SleepersOk(WaitAfter(w, run)) && Reachable(WaitAfter(w, run).s)
    decreases |run|
  {
    if run != [] {
      SleepersStep(w, run[0]);
      SleepersRun(WaitStep(w, run[0]), run[1..]);
    }
  }

  /**
   * Nobody sleeps over a result: whatever a waiter could take, it is awake to
   * take it. So once a terminal result is recorded no wait stays blocked: each
   * next check succeeds, and after success the head is there.
   */
  lemma NobodySleepsOver(w: Waiters)
    requires WaitReachable(w)
    ensures TakeResponse(w.s.q).1.Some? ==> w.headSleeps.No?
    ensures TakeBody(w.s.q).1.Some? ==> w.bodySleeps.No?
    ensures w.s.q.terminal.Some? ==> w.bodySleeps.No? && TakeBody(w.s.q).1.Some?
    ensures w.s.q.terminal.Some? && w.s.q.responseTaken.No? ==>
      w.headSleeps.No? && TakeResponse(w.s.q).1.Some?
    ensures w.s.q.terminal == Some(Finished) && w.s.q.responseTaken.No? ==>
      TakeResponse(w.s.q).1.value.GotHead?
  {
    var config, run :| WaitFeasible(Waiters(Init(config), No, No), run)
      && WaitAfter(Waiters(Init(config), No, No), run) == w;
    PipelineTheorems.ReachableInit(config);
    SleepersRun(Waiters(Init(config), No, No), run);
    PipelineTheorems.WaitReturns(w.s);
  }
}
