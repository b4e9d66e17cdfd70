/**
 * The two reference counts around one request (and, with the same code, one
 * WebSocket): the C handle of core/source/minicronet.cc, which the network side
 * keeps alive until its last callback, and the Rust callback state, one of whose
 * counts is handed to C as user_data.
 */
module Lifetimes {
  import opened Prelude

  const UINT32_MAX: nat := 0xFFFF_FFFF

  /** Retain stops counting at the top of the range instead of wrapping. */
  function Retained(refs: nat): nat {
    if refs == UINT32_MAX then refs else refs + 1
  }

  /** mn_request and mn_websocket; `deletes` records how often it was deleted. */
  class PublicHandle {
    var refs: nat
    var deletes: nat

    constructor ()
      ensures refs == 1 && deletes == 0
    {
      refs, deletes := 1, 0;
    }

    /** The loop of weak compare-exchanges, which may fail spuriously. */
    method Retain(spurious: nat)
      modifies this
      ensures refs == Retained(old(refs)) && deletes == old(deletes)
    {
      var budget := spurious;
      while refs != UINT32_MAX
        invariant refs == old(refs) && deletes == old(deletes)
        decreases budget
      {
        if budget == 0 {
          refs := refs + 1;
          return;
        }
        budget := budget - 1;
      }
    }

    method Release()
      requires refs > 0
      modifies this
      ensures refs == old(refs) - 1
      ensures deletes == old(deletes) + if refs == 0 then 1 else 0
    {
      refs := refs - 1;
      if refs == 0 {
        deletes := deletes + 1;
      }
    }

    /**
     * mn_request_start for a caller that holds a reference: a refused start
     * leaves the count as it was if and only if the count was not saturated.
     */
    method Start(accepted: bool, spurious: nat)
      requires 0 < refs <= UINT32_MAX
      modifies this
      ensures accepted ==> refs == Retained(old(refs)) && deletes == old(deletes)
      ensures !accepted ==> (refs == old(refs) <==> old(refs) < UINT32_MAX)
      ensures !accepted && old(refs) < UINT32_MAX ==> deletes == old(deletes)
    {
      Retain(spurious);
      if !accepted {
        Release();
      }
    }
  }

  // ---- one request ------------------------------------------------------------------------

  /** RequestInner, shared by all clones of the Request, and the two steps of its Drop. */
  datatype Inner = Absent | Alive | Releasing | Gone

  /** The thread inside Request::start, of which there is at most one after the exchange. */
  datatype Starter = NoStarter | Won | Retaining | Refused | Unwound

  /** The completion task. */
  datatype Completion = NotPosted | Posted | CallbackReturned | RefDropped | Finished

  /**
   * `misuses` counts callbacks that found the handle deleted or the callback
   * state given up, and releases that found it given up before; `drops` the times
   * its count was given back.
   */
  datatype Life = Life(
    inner: Inner,
    clones: nat,
    started: Flag,
    starter: Starter,
    refs: nat,
    deletes: nat,
    live: Flag,
    drops: nat,
    coreStarted: Flag,
    queued: nat,
    completion: Completion,
    failed: Flag,
    misuses: nat)

  const Init := Life(Absent, 0, No, NoStarter, 0, 0, Yes, 0, No, 0, NotPosted, No, 0)

  datatype Act =
    | Create(ok: bool)
    | Clone
    | DropClone
    | DropHandle
    | DropCallbackRef
    | StartExchange
    | StartRetain
    | StartCore(accepted: bool)
    | StartRelease
    | StartReset
    | PostCallback
    | RunCallback
    | PostComplete
    | RunComplete
    | CompleteDropsRef
    | CompleteReleases

  predicate Usable(l: Life) { l.clones > 0 && l.inner.Alive? }

  /** A thread in Request::start holds one of the clones. */
  function Busy(l: Life): nat { if l.starter.NoStarter? then 0 else 1 }

  predicate Enabled(l: Life, a: Act) {
    match a
    case Create(_) => l.inner.Absent? && l.failed.No?
    case Clone => Usable(l)
    case DropClone => Usable(l) && l.clones > Busy(l)
    case DropHandle => l.inner.Alive? && l.clones == 0
    case DropCallbackRef => l.inner.Releasing?
    case StartExchange => Usable(l) && l.clones > Busy(l)
    case StartRetain => l.starter.Won?
    case StartCore(_) => l.starter.Retaining?
    case StartRelease => l.starter.Refused?
    case StartReset => l.starter.Unwound?
    case PostCallback | PostComplete => l.coreStarted.Yes? && l.completion.NotPosted?
    case RunCallback => l.queued > 0
    case RunComplete => l.completion.Posted? && l.queued == 0
    case CompleteDropsRef => l.completion.CallbackReturned?
    case CompleteReleases => l.completion.RefDropped?
  }

  /** release_callback_ref: it reads the callback state before it tests and clears `live`. */
  function DropRef(l: Life): Life {
    l.(live := No,
       drops := l.drops + if l.live.Yes? then 1 else 0,
       misuses := l.misuses + if l.live.Yes? then 0 else 1)
  }

  function ReleaseHandle(l: Life): Life {
    l.(refs := if l.refs == 0 then UINT32_MAX else l.refs - 1,
       deletes := l.deletes + if l.refs == 1 then 1 else 0)
  }

  /** A callback uses the handle and user_data. */
  function Called(l: Life): Life {
    l.(misuses := l.misuses + if l.deletes > 0 || l.live.No? then 1 else 0)
  }

  function Step(l: Life, a: Act): Life
    requires Enabled(l, a)
  {
    match a
    case Create(ok) =>
      if ok then l.(inner := Alive, clones := 1, refs := 1) else DropRef(l.(failed := Yes))
    case Clone => l.(clones := l.clones + 1)
    case DropClone => l.(clones := l.clones - 1)
    case DropHandle => ReleaseHandle(l.(inner := Releasing))
    case DropCallbackRef => (if l.started.No? then DropRef(l) else l).(inner := Gone)
    case StartExchange => if l.started.Yes? then l else l.(started := Yes, starter := Won)
    case StartRetain => l.(refs := Retained(l.refs), starter := Retaining)
    case StartCore(accepted) =>
      if accepted && l.coreStarted.No? then l.(coreStarted := Yes, starter := NoStarter)
      else l.(starter := Refused)
    case StartRelease => ReleaseHandle(l.(starter := Unwound))
    case StartReset => l.(started := No, starter := NoStarter)
    case PostCallback => l.(queued := l.queued + 1)
    case RunCallback => Called(l.(queued := l.queued - 1))
    case PostComplete => l.(completion := Posted)
    case RunComplete => Called(l.(completion := CallbackReturned))
    case CompleteDropsRef => DropRef(l.(completion := RefDropped))
    case CompleteReleases => ReleaseHandle(l.(completion := Finished))
  }

  function Run(l: Life, acts: seq<Act>): Life
    requires Feasible(l, acts)
    decreases |acts|
  {
    if acts == [] then l else Run(Step(l, acts[0]), acts[1..])
  }

  predicate Feasible(l: Life, acts: seq<Act>)
    decreases |acts|
  {
    acts == [] || (Enabled(l, acts[0]) && Feasible(Step(l, acts[0]), acts[1..]))
  }

  // ---- invariant --------------------------------------------------------------------------

  function Bit(b: bool): nat { if b then 1 else 0 }

  /** The reference mn_request_start took and nobody gave back yet. */
  predicate StartRef(l: Life) {
    || l.starter.Retaining? || l.starter.Refused?
    || (l.coreStarted.Yes? && !l.completion.Finished?)
  }

  /** The callback state's count has been given back by its one owner. */
  predicate RefGone(l: Life) {
    || l.failed.Yes?
    || (l.inner.Gone? && l.started.No?)
    || l.completion.RefDropped? || l.completion.Finished?
  }

  /** How the phases of the owners fit together. */
  predicate PhaseInv(l: Life) {
    && (!l.starter.NoStarter? ==> l.started.Yes? && l.coreStarted.No? && Usable(l))
    && (l.started.Yes? ==> l.coreStarted.Yes? || !l.starter.NoStarter?)
    && (l.coreStarted.Yes? ==> l.started.Yes? && l.failed.No? && !l.inner.Absent?)
    && (l.coreStarted.No? ==> l.queued == 0 && l.completion.NotPosted?)
    && (l.completion.CallbackReturned? || l.completion.RefDropped? || l.completion.Finished? ==>
          l.queued == 0)
    && (l.inner.Absent? || l.failed.Yes? ==> l.clones == 0 && l.started.No? && l.inner.Absent?)
    && (l.inner.Releasing? || l.inner.Gone? ==> l.clones == 0)
  }

  predicate HandleInv(l: Life) {
    && l.refs == Bit(l.inner.Alive?) + Bit(StartRef(l))
    && l.deletes == Bit((l.inner.Releasing? || l.inner.Gone?) && l.refs == 0)
  }

  predicate RefInv(l: Life) {
    && l.drops == Bit(l.live.No?)
    && (l.live.No? <==> RefGone(l))
  }

  predicate Inv(l: Life) {
    PhaseInv(l) && HandleInv(l) && RefInv(l) && l.misuses == 0
  }

  lemma PhaseStep(l: Life, a: Act)
    requires PhaseInv(l) && Enabled(l, a)
    ensures PhaseInv(Step(l, a))
  {
  }

  lemma HandleStep(l: Life, a: Act)
    requires PhaseInv(l) && HandleInv(l) && Enabled(l, a)
    ensures HandleInv(Step(l, a))
  {
  }

  lemma RefStep(l: Life, a: Act)
    requires PhaseInv(l) && RefInv(l) && Enabled(l, a)
    ensures RefInv(Step(l, a))
  {
  }

  /** A callback that runs finds the handle and the callback state. */
  lemma CallsAreSafe(l: Life, a: Act)
    requires Inv(l) && Enabled(l, a) && (a.RunCallback? || a.RunComplete?)
    ensures Step(l, a).misuses == 0
  {
    assert StartRef(l) && !RefGone(l);
  }

  predicate GivesBack(l: Life, a: Act) {
    (a.DropCallbackRef? && l.started.No?) || a.CompleteDropsRef? || a.Create?
  }

  /** Whoever gives the callback state's count back is the first to do so. */
  lemma DropsAreFirst(l: Life, a: Act)
    requires Inv(l) && Enabled(l, a)
    ensures GivesBack(l, a) ==> l.live.Yes?
  {
    if GivesBack(l, a) { assert !RefGone(l); }
  }

  /** Apart from callbacks, only a second release is a misuse. */
  lemma OtherSteps(l: Life, a: Act)
    requires Enabled(l, a) && !a.RunCallback? && !a.RunComplete?
    requires GivesBack(l, a) ==> l.live.Yes?
    ensures Step(l, a).misuses == l.misuses
  {
  }

  lemma MisuseStep(l: Life, a: Act)
    requires Inv(l) && Enabled(l, a)
    ensures Step(l, a).misuses == 0
  {
    if a.RunCallback? || a.RunComplete? {
      CallsAreSafe(l, a);
    } else {
      assert GivesBack(l, a) ==> l.live.Yes? by { DropsAreFirst(l, a); }
      OtherSteps(l, a);
    }
  }

  lemma {:induction false} InvRun(l: Life, acts: seq<Act>)
    requires Inv(l) && Feasible(l, acts)
    ensures Inv(Run(l, acts))
    decreases |acts|
  {
    if acts != [] {
      PhaseStep(l, acts[0]);
      HandleStep(l, acts[0]);
      RefStep(l, acts[0]);
      MisuseStep(l, acts[0]);
      InvRun(Step(l, acts[0]), acts[1..]);
    }
  }

  ghost predicate Reachable(l: Life) {
    exists acts :: Feasible(Init, acts) && Run(Init, acts) == l
  }

  lemma ReachableInv(l: Life)
    requires Reachable(l)
    ensures Inv(l)
  {
    var acts :| Feasible(Init, acts) && Run(Init, acts) == l;
    InvRun(Init, acts);
  }

  /** Nobody has anything left to do: creation failed, or every owner is gone. */
  predicate Quiescent(l: Life) {
    || l.failed.Yes?
    || (l.inner.Gone? && (l.coreStarted.Yes? ==> l.completion.Finished?))
  }

  lemma StillOwned(l: Life)
    requires PhaseInv(l) && HandleInv(l) && RefInv(l)
    ensures Usable(l) ==> l.deletes == 0 && l.refs > 0
    ensures l.queued > 0 || l.completion.Posted? ==> l.drops == 0 && l.deletes == 0
  {
    if l.queued > 0 || l.completion.Posted? {
      assert StartRef(l) && !RefGone(l);
    }
  }

  lemma AllFreed(l: Life)
    requires PhaseInv(l) && HandleInv(l) && RefInv(l) && Quiescent(l)
    ensures l.drops == 1 && l.refs == 0 && l.deletes == Bit(l.failed.No?)
  {
    assert RefGone(l);
    assert !StartRef(l);
    assert !l.inner.Alive?;
  }

  /**
   * Over every run of create, clone, start, drop and completion: no callback and
   * no release ever sees a deleted handle or a given-up callback state, neither is
   * freed twice, a usable Request always has its handle, and in the end both are
   * freed.
   */
  lemma FreedExactlyOnce(l: Life)
    requires Reachable(l)
    ensures l.misuses == 0 && l.drops <= 1 && l.deletes <= 1
    ensures Usable(l) ==> l.deletes == 0 && l.refs > 0
    ensures l.queued > 0 || l.completion.Posted? ==> l.drops == 0 && l.deletes == 0
    ensures Quiescent(l) ==> l.drops == 1 && l.refs == 0 && l.deletes == Bit(l.failed.No?)
  {
    ReachableInv(l);
    StillOwned(l);
    if Quiescent(l) { AllFreed(l); }
  }

  /** The reference a start takes is given back once: by the refusal, or after the last callback. */
  lemma StartRefBalanced(l: Life)
    requires Reachable(l)
    ensures l.refs == Bit(l.inner.Alive?) + Bit(StartRef(l))
    ensures l.starter.NoStarter? && l.coreStarted.No? ==> !StartRef(l)
    ensures l.coreStarted.Yes? ==> (StartRef(l) <==> !l.completion.Finished?)
  {
    ReachableInv(l);
  }
}
