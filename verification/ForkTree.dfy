/**
 * core/source/engine.cc: the process-wide Runtime, its mutex, the fork handlers
 * and the Engine objects, over a whole tree of forked processes with any number
 * of threads in each.
 *
 * A process is known by its index; a Runtime is known by the process that
 * started its network thread. Only the forking thread survives in a child, and
 * it forks while it is not inside one of these functions.
 */
module ForkTree {
  import opened Prelude

  /**
   * g_runtime, g_fork_generation, g_fork_child_unusable and g_runtime_mutex; `built`
   * only counts the Runtimes constructed in this process.
   */
  datatype Globals = Globals(
    runtime: Option<nat>,
    generation: nat,
    unusable: Flag,
    locked: Flag,
    built: nat)

  const Fresh := Globals(None, 0, No, No, 0)

  function Acquire(g: Globals): Globals { g.(locked := Yes) }

  function Release(g: Globals): Globals { g.(locked := No) }

  /** The locked part of GetRuntime in process `self`, and the Runtime it returns. */
  function Build(g: Globals, self: nat): Globals {
    if g.runtime.None? then g.(runtime := Some(self), built := g.built + 1) else g
  }

  function ForkChild(g: Globals): Globals {
    Release(g.(generation := g.generation + 1,
               unusable := if g.runtime.Some? then Yes else g.unusable,
               runtime := None,
               built := 0))
  }

  /** The globals as the code updates them, with no other thread interfering. */
  class Process {
    const self: nat
    var runtime: Option<nat>
    var generation: nat
    var unusable: bool
    var locked: bool
    var built: nat

    function View(): Globals
      reads this
    {
      Globals(runtime, generation, ToFlag(unusable), ToFlag(locked), built)
    }

    constructor (self: nat)
      ensures this.self == self && View() == Fresh
    {
      this.self := self;
      runtime, generation, unusable, locked, built := None, 0, false, false, 0;
    }

    method GetRuntime() returns (target: nat)
      requires !locked
      modifies this
      ensures View() == Build(old(View()), self)
      ensures Some(target) == runtime
    {
      locked := true;
      if runtime.None? {
        runtime := Some(self);
        built := built + 1;
      }
      target := runtime.value;
      locked := false;
    }

    method DoForkPrepare()
      requires !locked
      modifies this
      ensures View() == Acquire(old(View()))
    {
      locked := true;
    }

    method DoForkParent()
      requires locked
      modifies this
      ensures View() == Release(old(View()))
    {
      locked := false;
    }

    method DoForkChild()
      requires locked
      modifies this
      ensures View() == ForkChild(old(View()))
    {
      generation := generation + 1;
      if runtime.Some? {
        unusable := true;
        runtime := None;
      }
      built := 0;
      locked := false;
    }

    /**
     * Engine::Create up to the wait in Start: None is the null result, otherwise
     * the new engine's fork_generation_ and the Runtime whose thread is awaited.
     */
    method Create(icuReady: bool) returns (engine: Option<(nat, nat)>)
      requires !locked
      modifies this
      ensures old(unusable) || !icuReady ==> engine.None?
      ensures !old(unusable) && icuReady ==> engine.Some? && engine.value.0 == generation
      ensures engine.Some? ==> Some(engine.value.1) == runtime
      ensures View() == if old(unusable) then old(View()) else Build(old(View()), self)
    {
      if unusable {
        return None;
      }
      var first := GetRuntime();
      if !icuReady {
        return None;
      }
      var stamp := generation;
      var runner := GetRuntime();
      return Some((stamp, runner));
    }

    /**
     * ~Engine up to its wait, for an engine with or without a context, on or off
     * the network thread. None means that nothing is awaited, and `shutDown` that
     * the context was shut down in place.
     */
    method Destroy(stamp: nat, hasContext: bool, inSequence: bool)
      returns (awaited: Option<nat>, shutDown: bool)
      requires !locked
      modifies this
      ensures !hasContext || stamp != generation ==>
        awaited.None? && !shutDown && View() == old(View())
      ensures hasContext && stamp == generation ==>
        && View() == Build(old(View()), self)
        && shutDown == inSequence && awaited == if inSequence then None else runtime
    {
      if !hasContext {
        return None, false;
      }
      if stamp != generation {
        return None, false;
      }
      var runner := GetRuntime();
      if inSequence {
        return None, true;
      }
      return Some(runner), false;
    }
  }

  // ---- threads -------------------------------------------------------------------------

  /** What the caller of GetRuntime wants it for. */
  datatype Goal =
    | FirstGet
    | StartEngine(stamp: nat)
    | StopEngine
    | BorrowRunner

  datatype Pc =
    | Outside
    | WantRuntime(goal: Goal)
    | InGetRuntime(goal: Goal)
    | HasRuntime(goal: Goal, target: nat)
    | Blocked(goal: Goal, target: nat)
    | Prepared
    | Copied

  /** `home` is the process that constructed the engine; copies of it cross forks. */
  datatype Engine = Engine(stamp: nat, home: nat)

  /** `parent` and `inherited`, whether the parent had a Runtime at the fork, only record the birth. */
  datatype Proc = Proc(
    g: Globals,
    threads: map<nat, Pc>,
    engines: seq<Engine>,
    parent: Option<nat>,
    inherited: Flag)

  /** A task posted by `pid` to the network thread of process `target`. */
  datatype Contact = Contact(pid: nat, target: nat, waits: bool)

  datatype World = World(procs: seq<Proc>, contacts: seq<Contact>)

  datatype Act =
    | CreateCall
    | DestroyCall(i: nat)
    | TaskRunnerCall
    | Lock
    | Get
    | Construct(icuReady: bool)
    | Post(inSequence: bool, ok: bool)
    | WaitOver(ok: bool)
    | Prepare
    | Copy
    | Return

  function At(p: Proc, t: nat): Pc {
    if t in p.threads then p.threads[t] else Outside
  }

  function Move(p: Proc, t: nat, pc: Pc): Proc {
    p.(threads := p.threads[t := pc])
  }

  predicate ProcEnabled(pid: nat, p: Proc, t: nat, a: Act) {
    var pc := At(p, t);
    match a
    case CreateCall => pc.Outside?
    case TaskRunnerCall => pc.Outside? && p.engines != []
    case DestroyCall(i) => pc.Outside? && i < |p.engines|
    case Lock => pc.WantRuntime? && p.g.locked.No?
    case Get => pc.InGetRuntime?
    case Construct(_) => pc.HasRuntime? && pc.goal.FirstGet?
    case Post(_, _) => pc.HasRuntime? && !pc.goal.FirstGet?
    case WaitOver(_) => pc.Blocked? && pc.target == pid
    case Prepare => pc.Outside? && p.g.locked.No?
    case Copy => pc.Prepared?
    case Return => pc.Prepared? || pc.Copied?
  }

  predicate Enabled(w: World, pid: nat, t: nat, a: Act) {
    pid < |w.procs| && ProcEnabled(pid, w.procs[pid], t, a)
  }

  function Without(engines: seq<Engine>, i: nat): seq<Engine>
    requires i < |engines|
  {
    engines[..i] + engines[i + 1..]
  }

  /** The started or stopped engine's effect once its network task is done. */
  function Finished(p: Proc, pid: nat, t: nat, goal: Goal, ok: bool): Proc {
    Move(if goal.StartEngine? && ok then p.(engines := p.engines + [Engine(goal.stamp, pid)]) else p,
         t, Outside)
  }

  /** The step of thread `t` inside its own process. */
  function ProcStep(pid: nat, p: Proc, t: nat, a: Act): Proc
    requires ProcEnabled(pid, p, t, a)
  {
    var pc := At(p, t);
    match a
    case CreateCall => if p.g.unusable.Yes? then p else Move(p, t, WantRuntime(FirstGet))
    case DestroyCall(i) =>
      Move(p.(engines := Without(p.engines, i)), t,
           if p.engines[i].stamp != p.g.generation then Outside else WantRuntime(StopEngine))
    case TaskRunnerCall => Move(p, t, WantRuntime(BorrowRunner))
    case Lock => Move(p.(g := Acquire(p.g)), t, InGetRuntime(pc.goal))
    case Get =>
      var built := Build(p.g, pid);
      Move(p.(g := Release(built)), t, HasRuntime(pc.goal, built.runtime.value))
    case Construct(icuReady) =>
      Move(p, t, if icuReady then WantRuntime(StartEngine(p.g.generation)) else Outside)
    case Post(inSequence, ok) =>
      if pc.goal.BorrowRunner? then Move(p, t, Outside)
      else if inSequence then Finished(p, pid, t, pc.goal, ok)
      else Move(p, t, Blocked(pc.goal, pc.target))
    case WaitOver(ok) => Finished(p, pid, t, pc.goal, ok)
    case Prepare => Move(p.(g := Acquire(p.g)), t, Prepared)
    case Copy => Move(p, t, Copied)
    case Return => Move(p.(g := Release(p.g)), t, Outside)
  }

  /** The child as it is when fork returns in it: one thread, a copy of every object. */
  function Child(p: Proc, pid: nat, t: nat): Proc {
    Proc(ForkChild(p.g), map[t := Outside], p.engines, Some(pid), ToFlag(p.g.runtime.Some?))
  }

  /** Tasks a step posts: Runtime's constructor waits too, in the process that builds it. */
  function Contacts(pid: nat, p: Proc, t: nat, a: Act): seq<Contact> {
    var pc := At(p, t);
    if a.Get? && p.g.runtime.None? then [Contact(pid, pid, true)]
    else if a.Post? && pc.HasRuntime? && (pc.goal.BorrowRunner? || !a.inSequence) then
      [Contact(pid, pc.target, !pc.goal.BorrowRunner?)]
    else []
  }

  function Step(w: World, pid: nat, t: nat, a: Act): World
    requires Enabled(w, pid, t, a)
  {
    var p := w.procs[pid];
    World(w.procs[pid := ProcStep(pid, p, t, a)] + if a.Copy? then [Child(p, pid, t)] else [],
          w.contacts + Contacts(pid, p, t, a))
  }

  const Init := World([Proc(Fresh, map[], [], None, No)], [])

  datatype Action = Action(pid: nat, thread: nat, act: Act)

  predicate Feasible(w: World, run: seq<Action>)
    decreases |run|
  {
    run == [] ||
    (Enabled(w, run[0].pid, run[0].thread, run[0].act)
     && Feasible(Step(w, run[0].pid, run[0].thread, run[0].act), run[1..]))
  }

  function After(w: World, run: seq<Action>): World
    requires Feasible(w, run)
    decreases |run|
  {
    if run == [] then w else After(Step(w, run[0].pid, run[0].thread, run[0].act), run[1..])
  }

  // ---- invariants ------------------------------------------------------------------------

  predicate Holds(pc: Pc) { pc.InGetRuntime? || pc.Prepared? || pc.Copied? }

  predicate HasGoal(pc: Pc) {
    pc.WantRuntime? || pc.InGetRuntime? || pc.HasRuntime? || pc.Blocked?
  }

  predicate GoalOk(g: Globals, goal: Goal) {
    && (goal.StartEngine? ==> goal.stamp == g.generation && g.runtime.Some?)
    && (g.unusable.Yes? ==> !goal.FirstGet? && !goal.StartEngine?)
  }

  /** A thread's Runtime is its own process's, and a stamp it carries is current. */
  predicate PcOk(pid: nat, g: Globals, pc: Pc) {
    && (pc.HasRuntime? || pc.Blocked? ==> pc.target == pid && g.runtime.Some?)
    && (HasGoal(pc) ==> GoalOk(g, pc.goal))
  }

  predicate ThreadsOk(pid: nat, p: Proc) {
    forall t :: t in p.threads ==> PcOk(pid, p.g, p.threads[t])
  }

  /** The mutex has exactly one holder while it is locked, and none otherwise. */
  predicate MutexOk(p: Proc) {
    && (p.g.locked.No? ==> (forall t :: t in p.threads ==> !Holds(p.threads[t])))
    && (p.g.locked.Yes? ==> (exists t :: t in p.threads && Holds(p.threads[t])))
    && (forall t, u ::
          (t in p.threads && u in p.threads && Holds(p.threads[t]) && Holds(p.threads[u])) ==>
          t == u)
  }

  predicate EngineOk(pid: nat, g: Globals, e: Engine) {
    && e.stamp <= g.generation
    && (e.stamp == g.generation <==> e.home == pid)
    && (e.home == pid ==> g.runtime.Some?)
    && (g.unusable.Yes? <==> e.home != pid)
  }

  predicate EnginesOk(pid: nat, p: Proc) {
    forall i :: 0 <= i < |p.engines| ==> EngineOk(pid, p.g, p.engines[i])
  }

  predicate HomesOk(procs: nat, engines: seq<Engine>) {
    forall i :: 0 <= i < |engines| ==> engines[i].home < procs
  }

  /** A process has a Runtime of its own if it ever constructed one, and never a second. */
  predicate RuntimeOk(pid: nat, g: Globals) {
    g.runtime == (if g.built == 0 then None else Some(pid)) && g.built <= 1
  }

  predicate ProcOk(pid: nat, p: Proc, procs: nat) {
    && RuntimeOk(pid, p.g)
    && ThreadsOk(pid, p) && MutexOk(p) && EnginesOk(pid, p) && HomesOk(procs, p.engines)
  }

  /** A process with the parent it was copied from. */
  predicate BirthOk(child: Proc, parent: Proc) {
    && child.g.generation == parent.g.generation + 1
    && (child.g.unusable.Yes? <==> child.inherited.Yes? || parent.g.unusable.Yes?)
  }

  predicate MemberOk(procs: seq<Proc>, q: nat)
    requires q < |procs|
  {
    match procs[q].parent
    case None =>
      procs[q].g.generation == 0 && procs[q].g.unusable.No? && procs[q].inherited.No?
    case Some(a) => a < q && BirthOk(procs[q], procs[a])
  }

  predicate FamilyOk(procs: seq<Proc>) {
    forall q :: 0 <= q < |procs| ==> MemberOk(procs, q)
  }

  predicate Inv(w: World) {
    && (forall q :: 0 <= q < |w.procs| ==> ProcOk(q, w.procs[q], |w.procs|))
    && FamilyOk(w.procs)
    && (forall i :: 0 <= i < |w.contacts| ==> w.contacts[i].target == w.contacts[i].pid)
  }

  /** Taking, keeping or giving up the lock along with one thread's move. */
  lemma MutexMove(p: Proc, t: nat, next: Proc, pc: Pc)
    requires MutexOk(p) && next.threads == p.threads[t := pc]
    requires Holds(pc) <==> next.g.locked.Yes? && (p.g.locked.No? || Holds(At(p, t)))
    requires Holds(At(p, t)) ==> p.g.locked.Yes? && (Holds(pc) <==> next.g.locked.Yes?)
    requires !Holds(At(p, t)) && !Holds(pc) ==> next.g.locked == p.g.locked
    requires !Holds(At(p, t)) && Holds(pc) ==> p.g.locked.No?
    ensures MutexOk(next)
  {
    if next.g.locked.Yes? {
      if Holds(pc) {
        assert t in next.threads;
      } else {
        var u :| u in p.threads && Holds(p.threads[u]);
        assert u in next.threads && next.threads[u] == p.threads[u];
      }
    }
  }

  lemma ThreadsMove(pid: nat, p: Proc, t: nat, next: Proc, pc: Pc)
    requires ThreadsOk(pid, p) && next.threads == p.threads[t := pc]
    requires next.g.generation == p.g.generation && next.g.unusable == p.g.unusable
    requires p.g.runtime.Some? ==> next.g.runtime.Some?
    requires PcOk(pid, next.g, pc)
    ensures ThreadsOk(pid, next)
  {
  }

  /** What a step leaves alone, and which thread state it moves to. */
  lemma StepFrame(pid: nat, p: Proc, t: nat, a: Act)
    requires ProcEnabled(pid, p, t, a) && ThreadsOk(pid, p)
    requires RuntimeOk(pid, p.g)
    ensures var next := ProcStep(pid, p, t, a);
      && next.g.generation == p.g.generation && next.g.unusable == p.g.unusable
      && next.parent == p.parent && next.inherited == p.inherited
      && RuntimeOk(pid, next.g)
      && (p.g.runtime.Some? ==> next.g.runtime == p.g.runtime)
  {
  }

  lemma StepThreads(pid: nat, p: Proc, t: nat, a: Act)
    requires ProcEnabled(pid, p, t, a) && ThreadsOk(pid, p)
    requires RuntimeOk(pid, p.g)
    ensures ThreadsOk(pid, ProcStep(pid, p, t, a))
  {
    var next := ProcStep(pid, p, t, a);
    if !(a.CreateCall? && p.g.unusable.Yes?) {
      assert PcOk(pid, p.g, At(p, t));
      ThreadsMove(pid, p, t, next, At(next, t));
    }
  }

  lemma StepMutex(pid: nat, p: Proc, t: nat, a: Act)
    requires ProcEnabled(pid, p, t, a) && MutexOk(p)
    ensures MutexOk(ProcStep(pid, p, t, a))
  {
    var next := ProcStep(pid, p, t, a);
    if !(a.CreateCall? && p.g.unusable.Yes?) {
      MutexMove(p, t, next, At(next, t));
    }
  }

  lemma StepEngines(pid: nat, p: Proc, t: nat, a: Act, procs: nat)
    requires ProcEnabled(pid, p, t, a) && ThreadsOk(pid, p) && pid < procs
    requires EnginesOk(pid, p) && HomesOk(procs, p.engines)
    ensures EnginesOk(pid, ProcStep(pid, p, t, a))
    ensures HomesOk(procs, ProcStep(pid, p, t, a).engines)
  {
    assert PcOk(pid, p.g, At(p, t));
  }

  lemma ChildOk(p: Proc, pid: nat, t: nat, procs: nat)
    requires ProcOk(pid, p, procs)
    ensures ProcOk(procs, Child(p, pid, t), procs + 1)
    ensures BirthOk(Child(p, pid, t), p)
  {
  }

  lemma ProcOkMore(pid: nat, p: Proc, procs: nat)
    requires ProcOk(pid, p, procs)
    ensures ProcOk(pid, p, procs + 1)
  {
  }

  lemma ContactsOk(pid: nat, p: Proc, t: nat, a: Act)
    requires ProcEnabled(pid, p, t, a) && ThreadsOk(pid, p)
    ensures forall c :: c in Contacts(pid, p, t, a) ==> c.target == c.pid == pid
  {
    assert PcOk(pid, p.g, At(p, t));
  }

  predicate SameBirth(p: Proc, next: Proc) {
    && next.g.generation == p.g.generation && next.g.unusable == p.g.unusable
    && next.parent == p.parent && next.inherited == p.inherited
  }

  lemma MemberStep(procs: seq<Proc>, next: seq<Proc>, q: nat)
    requires FamilyOk(procs) && q < |procs| <= |next|
    requires forall r :: 0 <= r < |procs| ==> SameBirth(procs[r], next[r])
    ensures MemberOk(next, q)
  {
    assert MemberOk(procs, q);
    assert SameBirth(procs[q], next[q]);
    if procs[q].parent.Some? {
      assert SameBirth(procs[procs[q].parent.value], next[procs[q].parent.value]);
    }
  }

  lemma FamilyStep(procs: seq<Proc>, next: seq<Proc>, pid: nat)
    requires FamilyOk(procs) && pid < |procs| <= |next| <= |procs| + 1
    requires forall r :: 0 <= r < |procs| ==> SameBirth(procs[r], next[r])
    requires |next| > |procs| ==>
      next[|procs|].parent == Some(pid) && BirthOk(next[|procs|], next[pid])
    ensures FamilyOk(next)
  {
    forall q | 0 <= q < |next| ensures MemberOk(next, q) {
      if q < |procs| { MemberStep(procs, next, q); }
    }
  }

  lemma InvStep(w: World, pid: nat, t: nat, a: Act)
    requires Inv(w) && Enabled(w, pid, t, a)
    ensures Inv(Step(w, pid, t, a))
  {
    var p, n := w.procs[pid], |w.procs|;
    var next := Step(w, pid, t, a);
    StepFrame(pid, p, t, a);
    StepThreads(pid, p, t, a);
    StepMutex(pid, p, t, a);
    StepEngines(pid, p, t, a, n);
    ChildOk(p, pid, t, n);
    ContactsOk(pid, p, t, a);
    FamilyStep(w.procs, next.procs, pid);
    forall q | 0 <= q < |next.procs| ensures ProcOk(q, next.procs[q], |next.procs|) {
      if q < n && a.Copy? { ProcOkMore(q, if q == pid then ProcStep(pid, p, t, a) else w.procs[q], n); }
    }
  }

  lemma {:induction false} InvRun(w: World, run: seq<Action>)
    requires Inv(w) && Feasible(w, run)
    ensures Inv(After(w, run))
    decreases |run|
  {
    if run != [] {
      InvStep(w, run[0].pid, run[0].thread, run[0].act);
      InvRun(Step(w, run[0].pid, run[0].thread, run[0].act), run[1..]);
    }
  }

  ghost predicate Reachable(w: World) {
    exists run :: Feasible(Init, run) && After(Init, run) == w
  }

  lemma ReachableInv(w: World)
    requires Reachable(w)
    ensures Inv(w)
  {
    var run :| Feasible(Init, run) && After(Init, run) == w;
    InvRun(Init, run);
  }

  /**
   * Nobody waits for a thread that did not survive a fork: every task goes to a
   * network thread started in the posting process, and every wait can end.
   */
  lemma WaitsAreLocal(w: World, c: Contact, pid: nat, t: nat, ok: bool)
    requires Reachable(w)
    ensures c in w.contacts ==> c.target == c.pid
    ensures pid < |w.procs| && At(w.procs[pid], t).Blocked? ==> Enabled(w, pid, t, WaitOver(ok))
  {
    ReachableInv(w);
    if pid < |w.procs| && At(w.procs[pid], t).Blocked? {
      assert ProcOk(pid, w.procs[pid], |w.procs|);
      assert PcOk(pid, w.procs[pid].g, At(w.procs[pid], t));
    }
  }

  /**
   * An engine's stamp is current exactly in the process that created it, and
   * stale exactly where the process is already marked unusable.
   */
  lemma StampTellsHome(w: World, pid: nat, i: nat)
    requires Reachable(w) && pid < |w.procs| && i < |w.procs[pid].engines|
    ensures var p := w.procs[pid];
      && (p.engines[i].stamp == p.g.generation <==> p.engines[i].home == pid)
      && (p.engines[i].stamp != p.g.generation <==> p.g.unusable.Yes?)
  {
    ReachableInv(w);
    assert ProcOk(pid, w.procs[pid], |w.procs|);
    assert EngineOk(pid, w.procs[pid].g, w.procs[pid].engines[i]);
  }

  /** A process constructs at most one Runtime, and has one exactly if it did. */
  lemma OneRuntime(w: World, pid: nat)
    requires Reachable(w) && pid < |w.procs|
    ensures w.procs[pid].g.built <= 1
    ensures w.procs[pid].g.runtime == if w.procs[pid].g.built == 0 then None else Some(pid)
  {
    ReachableInv(w);
    assert ProcOk(pid, w.procs[pid], |w.procs|);
  }

  /** The step by which a holder gives the mutex up. */
  function Unlock(pc: Pc): Act { if pc.InGetRuntime? then Get else Return }

  /**
   * The mutex after a fork: free in the child from its first instruction, and in
   * every process a locked mutex has a thread whose next step frees it.
   */
  lemma MutexIsFreed(w: World, pid: nat, t: nat)
    requires Reachable(w) && pid < |w.procs|
    ensures Enabled(w, pid, t, Copy) ==>
      var next := Step(w, pid, t, Copy);
      && |next.procs| == |w.procs| + 1
      && next.procs[|w.procs|].g.locked.No?
      && Step(next, pid, t, Return).procs[pid].g.locked.No?
    ensures w.procs[pid].g.locked.Yes? ==>
      exists u :: u in w.procs[pid].threads && Holds(w.procs[pid].threads[u])
        && Enabled(w, pid, u, Unlock(w.procs[pid].threads[u]))
        && Step(w, pid, u, Unlock(w.procs[pid].threads[u])).procs[pid].g.locked.No?
  {
    ReachableInv(w);
    var p := w.procs[pid];
    assert ProcOk(pid, p, |w.procs|);
    if p.g.locked.Yes? {
      var u :| u in p.threads && Holds(p.threads[u]);
      assert Enabled(w, pid, u, Unlock(p.threads[u]));
    }
  }

  /** The process or an ancestor was copied from a process that had a Runtime. */
  predicate Tainted(procs: seq<Proc>, pid: nat)
    decreases pid
  {
    && pid < |procs|
    && (|| procs[pid].inherited.Yes?
        || match procs[pid].parent
           case None => false
           case Some(a) => a < pid && Tainted(procs, a))
  }

  lemma {:induction false} UnusableIffTainted(procs: seq<Proc>, pid: nat)
    requires FamilyOk(procs) && pid < |procs|
    ensures procs[pid].g.unusable.Yes? <==> Tainted(procs, pid)
    decreases pid
  {
    match procs[pid].parent
    case None => assert MemberOk(procs, pid);
    case Some(a) =>
      assert MemberOk(procs, pid);
      UnusableIffTainted(procs, a);
  }

  lemma {:induction false} BirthKept(w: World, run: seq<Action>, pid: nat)
    requires Inv(w) && Feasible(w, run) && pid < |w.procs|
    ensures Inv(After(w, run)) && pid < |After(w, run).procs|
    ensures SameBirth(w.procs[pid], After(w, run).procs[pid])
    decreases |run|
  {
    if run != [] {
      var a := run[0];
      InvStep(w, a.pid, a.thread, a.act);
      assert ProcOk(a.pid, w.procs[a.pid], |w.procs|);
      StepFrame(a.pid, w.procs[a.pid], a.thread, a.act);
      BirthKept(Step(w, a.pid, a.thread, a.act), run[1..], pid);
    }
  }

  /**
   * Create returns null for good in every process descended from one that forked
   * with a Runtime: whatever happens later, the call changes nothing there, and
   * no engine is ever created in it.
   */
  lemma TaintedForGood(w: World, run: seq<Action>, pid: nat, t: nat)
    requires Reachable(w) && Tainted(w.procs, pid) && Feasible(w, run)
    ensures var next := After(w, run);
      && pid < |next.procs| && Tainted(next.procs, pid)
      && (Enabled(next, pid, t, CreateCall) ==>
            Step(next, pid, t, CreateCall).procs[pid] == next.procs[pid])
      && (forall i :: 0 <= i < |next.procs[pid].engines| ==> next.procs[pid].engines[i].home != pid)
  {
    ReachableInv(w);
    BirthKept(w, run, pid);
    var next := After(w, run);
    UnusableIffTainted(w.procs, pid);
    UnusableIffTainted(next.procs, pid);
    var p := next.procs[pid];
    assert ProcOk(pid, p, |next.procs|);
    assert forall i :: 0 <= i < |p.engines| ==> EngineOk(pid, p.g, p.engines[i]);
  }

  /** The other half: in an untainted process Create goes on and is never refused. */
  lemma UntaintedCreates(w: World, pid: nat, t: nat)
    requires Reachable(w) && pid < |w.procs| && !Tainted(w.procs, pid)
    requires Enabled(w, pid, t, CreateCall)
    ensures At(Step(w, pid, t, CreateCall).procs[pid], t) == WantRuntime(FirstGet)
  {
    ReachableInv(w);
    UnusableIffTainted(w.procs, pid);
  }

  // ---- a Runtime in an unusable process ------------------------------------------------------

  predicate NoGoals(p: Proc) {
    forall t :: t in p.threads ==> !HasGoal(p.threads[t])
  }

  /** Nobody in process `pid` calls task_runner on an inherited engine. */
  predicate Abstains(run: seq<Action>, pid: nat) {
    forall i :: 0 <= i < |run| ==> !(run[i].pid == pid && run[i].act.TaskRunnerCall?)
  }

  lemma AbsentStep(pid: nat, p: Proc, t: nat, a: Act)
    requires ProcEnabled(pid, p, t, a) && EnginesOk(pid, p) && !a.TaskRunnerCall?
    requires p.g.unusable.Yes? && p.g.runtime.None? && NoGoals(p)
    ensures var next := ProcStep(pid, p, t, a);
      next.g.unusable.Yes? && next.g.runtime.None? && NoGoals(next)
  {
    if a.DestroyCall? { assert EngineOk(pid, p.g, p.engines[a.i]); }
  }

  /**
   * The comment in ForkChild expects no further use of a Runtime in an unusable
   * process. That holds for every run in which nobody there calls task_runner.
   */
  lemma {:induction false} RuntimeStaysAbsent(w: World, run: seq<Action>, pid: nat)
    requires Inv(w) && Feasible(w, run) && pid < |w.procs| && Abstains(run, pid)
    requires w.procs[pid].g.unusable.Yes? && w.procs[pid].g.runtime.None? && NoGoals(w.procs[pid])
    ensures pid < |After(w, run).procs| && After(w, run).procs[pid].g.runtime.None?
    decreases |run|
  {
    if run != [] {
      var a, next := run[0], Step(w, run[0].pid, run[0].thread, run[0].act);
      InvStep(w, a.pid, a.thread, a.act);
      assert ProcOk(pid, w.procs[pid], |w.procs|);
      if a.pid == pid { AbsentStep(pid, w.procs[pid], a.thread, a.act); }
      assert forall i :: 0 <= i < |run[1..]| ==> run[1..][i] == run[i + 1];
      RuntimeStaysAbsent(next, run[1..], pid);
    }
  }

  /**
   * And it fails as soon as somebody does: task_runner has no check, so on an
   * engine that crossed the fork it starts a new Runtime there.
   */
  lemma InheritedEngineRebuildsRuntime(w: World, pid: nat, t: nat)
    requires pid < |w.procs| && w.procs[pid].g.unusable.Yes? && w.procs[pid].g.runtime.None?
    requires w.procs[pid].g.locked.No? && Enabled(w, pid, t, TaskRunnerCall)
    ensures var run := [Action(pid, t, TaskRunnerCall), Action(pid, t, Lock), Action(pid, t, Get)];
      && Feasible(w, run)
      && pid < |After(w, run).procs|
      && After(w, run).procs[pid].g.unusable.Yes?
      && After(w, run).procs[pid].g.runtime == Some(pid)
  {
    var called := Step(w, pid, t, TaskRunnerCall);
    var locked := Step(called, pid, t, Lock);
    var built := Step(locked, pid, t, Get);
    var last := [Action(pid, t, Get)];
    var rest := [Action(pid, t, Lock)] + last;
    assert Feasible(locked, last) && After(locked, last) == built by {
      assert last[1..] == [];
    }
    assert Feasible(called, rest) && After(called, rest) == built by {
      assert rest[1..] == last;
    }
    var run := [Action(pid, t, TaskRunnerCall), Action(pid, t, Lock), Action(pid, t, Get)];
    assert run[1..] == rest;
  }

  /** Without an inherited engine there is nobody to call it on, and there never will be. */
  lemma {:induction false} NoEngineNoRuntime(w: World, run: seq<Action>, pid: nat)
    requires Inv(w) && Feasible(w, run) && pid < |w.procs| && w.procs[pid].engines == []
    requires w.procs[pid].g.unusable.Yes? && w.procs[pid].g.runtime.None? && NoGoals(w.procs[pid])
    ensures pid < |After(w, run).procs| && After(w, run).procs[pid].g.runtime.None?
    decreases |run|
  {
    if run != [] {
      var a, next := run[0], Step(w, run[0].pid, run[0].thread, run[0].act);
      InvStep(w, a.pid, a.thread, a.act);
      assert ProcOk(pid, w.procs[pid], |w.procs|);
      if a.pid == pid { AbsentStep(pid, w.procs[pid], a.thread, a.act); }
      NoEngineNoRuntime(next, run[1..], pid);
    }
  }

  /** Some run from here ends with a Runtime in process `pid`. */
  ghost predicate CanRebuild(w: World, pid: nat) {
    exists run :: Feasible(w, run) && pid < |After(w, run).procs|
      && After(w, run).procs[pid].g.runtime.Some?
  }

  /**
   * Exactly when: an idle unusable process can ever get a Runtime if and only if
   * it holds an engine, necessarily one that crossed the fork.
   */
  lemma RebuildsIffItHoldsAnEngine(w: World, pid: nat, t: nat)
    requires Reachable(w) && pid < |w.procs|
    requires w.procs[pid].g.unusable.Yes? && w.procs[pid].g.runtime.None?
    requires w.procs[pid].g.locked.No? && NoGoals(w.procs[pid]) && At(w.procs[pid], t).Outside?
    ensures CanRebuild(w, pid) <==> w.procs[pid].engines != []
  {
    ReachableInv(w);
    if w.procs[pid].engines != [] {
      InheritedEngineRebuildsRuntime(w, pid, t);
    } else if CanRebuild(w, pid) {
      var run :| Feasible(w, run) && pid < |After(w, run).procs|
        && After(w, run).procs[pid].g.runtime.Some?;
      NoEngineNoRuntime(w, run, pid);
      assert false;
    }
  }

  // ---- whole calls ---------------------------------------------------------------------------

  lemma {:induction false} RunExtends(w: World, run: seq<Action>, a: Action)
    requires Feasible(w, run) && Enabled(After(w, run), a.pid, a.thread, a.act)
    ensures Feasible(w, run + [a])
    ensures After(w, run + [a]) == Step(After(w, run), a.pid, a.thread, a.act)
    decreases |run|
  {
    if run == [] {
      assert run + [a] == [a] && [a][1..] == [];
    } else {
      assert (run + [a])[1..] == run[1..] + [a];
      RunExtends(Step(w, run[0].pid, run[0].thread, run[0].act), run[1..], a);
    }
  }

  /** Nothing but process `pid` has moved, to `p`, and these tasks were posted. */
  predicate Only(w: World, now: World, pid: nat, p: Proc, posted: seq<Contact>) {
    pid < |w.procs| && now == World(w.procs[pid := p], w.contacts + posted)
  }

  /** One more step of a call nobody interrupts. */
  lemma CallStep(w: World, run: seq<Action>, pid: nat, t: nat, a: Act, p: Proc, posted: seq<Contact>)
    returns (longer: seq<Action>)
    requires Feasible(w, run) && Only(w, After(w, run), pid, p, posted)
    requires ProcEnabled(pid, p, t, a) && !a.Copy?
    ensures longer == run + [Action(pid, t, a)] && Feasible(w, longer)
    ensures Only(w, After(w, longer), pid, ProcStep(pid, p, t, a),
                 posted + Contacts(pid, p, t, a))
  {
    longer := run + [Action(pid, t, a)];
    RunExtends(w, run, Action(pid, t, a));
    assert w.procs[pid := p][pid := ProcStep(pid, p, t, a)] == w.procs[pid := ProcStep(pid, p, t, a)];
    assert w.contacts + posted + Contacts(pid, p, t, a) == w.contacts + (posted + Contacts(pid, p, t, a));
  }

  lemma NoSteps(w: World, pid: nat)
    requires pid < |w.procs|
    ensures Feasible(w, []) && Only(w, After(w, []), pid, w.procs[pid], [])
  {
    assert w.procs[pid := w.procs[pid]] == w.procs;
  }

  /** A process once it has its Runtime and thread `t` the answer of GetRuntime. */
  function WithRuntime(pid: nat, p: Proc, t: nat, goal: Goal): Proc {
    p.(g := p.g.(runtime := Some(pid), built := 1), threads := p.threads[t := HasRuntime(goal, pid)])
  }

  function FirstTask(pid: nat, g: Globals): seq<Contact> {
    if g.built == 0 then [Contact(pid, pid, true)] else []
  }

  lemma GetSteps(pid: nat, p: Proc, t: nat, goal: Goal) returns (held: Proc)
    requires At(p, t) == WantRuntime(goal) && p.g.locked.No? && RuntimeOk(pid, p.g)
    ensures ProcEnabled(pid, p, t, Lock) && held == ProcStep(pid, p, t, Lock)
    ensures Contacts(pid, p, t, Lock) == []
    ensures ProcEnabled(pid, held, t, Get)
    ensures ProcStep(pid, held, t, Get) == WithRuntime(pid, p, t, goal)
    ensures Contacts(pid, held, t, Get) == FirstTask(pid, p.g)
  {
    held := ProcStep(pid, p, t, Lock);
    assert held.threads[t := HasRuntime(goal, pid)] == p.threads[t := HasRuntime(goal, pid)];
  }

  /** The steps of GetRuntime, and of a task awaited on the network thread. */
  function GetPart(pid: nat, t: nat): seq<Action> { [Action(pid, t, Lock), Action(pid, t, Get)] }

  function TaskPart(pid: nat, t: nat, ok: bool): seq<Action> {
    [Action(pid, t, Post(false, ok)), Action(pid, t, WaitOver(ok))]
  }

  /** GetRuntime, for a goal. */
  lemma GetCall(w: World, run: seq<Action>, pid: nat, t: nat, p: Proc, posted: seq<Contact>,
                goal: Goal)
    returns (longer: seq<Action>)
    requires Feasible(w, run) && Only(w, After(w, run), pid, p, posted)
    requires At(p, t) == WantRuntime(goal) && p.g.locked.No? && RuntimeOk(pid, p.g)
    ensures longer == run + GetPart(pid, t) && Feasible(w, longer)
    ensures Only(w, After(w, longer), pid, WithRuntime(pid, p, t, goal), posted + FirstTask(pid, p.g))
  {
    var held := GetSteps(pid, p, t, goal);
    var locked := CallStep(w, run, pid, t, Lock, p, posted);
    assert posted + [] == posted;
    longer := CallStep(w, locked, pid, t, Get, held, posted);
    assert longer == run + GetPart(pid, t);
  }

  /** The task on the network thread and the wait for it, which end the goal. */
  lemma TaskCall(w: World, run: seq<Action>, pid: nat, t: nat, p: Proc, posted: seq<Contact>,
                 ok: bool)
    returns (longer: seq<Action>)
    requires Feasible(w, run) && Only(w, After(w, run), pid, p, posted)
    requires At(p, t).HasRuntime? && At(p, t).target == pid
    requires At(p, t).goal.StartEngine? || At(p, t).goal.StopEngine?
    ensures longer == run + TaskPart(pid, t, ok) && Feasible(w, longer)
    ensures Only(w, After(w, longer), pid, Finished(p, pid, t, At(p, t).goal, ok),
                 posted + [Contact(pid, pid, true)])
  {
    longer := CallStep(w, run, pid, t, Post(false, ok), p, posted);
    var waiting := Move(p, t, Blocked(At(p, t).goal, pid));
    longer := CallStep(w, longer, pid, t, WaitOver(ok), waiting, posted + [Contact(pid, pid, true)]);
    assert longer == run + TaskPart(pid, t, ok);
    assert posted + [Contact(pid, pid, true)] + [] == posted + [Contact(pid, pid, true)];
    assert waiting.threads[t := Outside] == p.threads[t := Outside];
  }

  /** Nothing has happened but to process `pid`, whose threads but `t` are as they were. */
  ghost predicate Left(w: World, next: World, pid: nat, t: nat) {
    && pid < |w.procs| == |next.procs|
    && (forall q :: 0 <= q < |w.procs| && q != pid ==> next.procs[q] == w.procs[q])
    && (forall u :: u != t ==> At(next.procs[pid], u) == At(w.procs[pid], u))
    && At(next.procs[pid], t).Outside?
  }

  lemma OnlyLeft(w: World, next: World, pid: nat, t: nat, p: Proc, posted: seq<Contact>)
    requires Only(w, next, pid, p, posted) && p.threads == w.procs[pid].threads[t := Outside]
    ensures Left(w, next, pid, t) && next.procs[pid] == p && next.contacts == w.contacts + posted
  {
  }

  /** A step that only leads up to GetRuntime. */
  predicate Asks(pid: nat, p: Proc, t: nat, a: Act, asking: Proc, goal: Goal) {
    && ProcEnabled(pid, p, t, a) && ProcStep(pid, p, t, a) == asking
    && Contacts(pid, p, t, a) == [] && !a.Copy?
    && At(asking, t) == WantRuntime(goal) && asking.g == p.g
    && asking.threads == p.threads[t := WantRuntime(goal)]
  }

  lemma AsksAndGets(w: World, run: seq<Action>, pid: nat, t: nat, a: Act, p: Proc,
                    posted: seq<Contact>, asking: Proc, goal: Goal)
    returns (longer: seq<Action>)
    requires Feasible(w, run) && Only(w, After(w, run), pid, p, posted)
    requires Asks(pid, p, t, a, asking, goal) && p.g.locked.No? && RuntimeOk(pid, p.g)
    ensures longer == run + [Action(pid, t, a)] + GetPart(pid, t) && Feasible(w, longer)
    ensures Only(w, After(w, longer), pid, WithRuntime(pid, asking, t, goal),
                 posted + FirstTask(pid, p.g))
  {
    longer := CallStep(w, run, pid, t, a, p, posted);
    assert posted + [] == posted;
    longer := GetCall(w, longer, pid, t, asking, posted, goal);
  }

  lemma SameOnceGot(pid: nat, p: Proc, t: nat, a: Act, asking: Proc, goal: Goal)
    requires Asks(pid, p, t, a, asking, goal)
    ensures WithRuntime(pid, asking, t, goal) == WithRuntime(pid, p.(engines := asking.engines), t, goal)
  {
    assert asking.threads[t := HasRuntime(goal, pid)] == p.threads[t := HasRuntime(goal, pid)];
  }

  /** Create as far as its first Runtime. */
  lemma CreateBegins(w: World, pid: nat, t: nat) returns (run: seq<Action>)
    requires pid < |w.procs|
    requires var p := w.procs[pid];
      At(p, t).Outside? && p.g.locked.No? && p.g.unusable.No? && RuntimeOk(pid, p.g)
    ensures run == [Action(pid, t, CreateCall)] + GetPart(pid, t) && Feasible(w, run)
    ensures var p := w.procs[pid];
      Only(w, After(w, run), pid, WithRuntime(pid, p, t, FirstGet), FirstTask(pid, p.g))
  {
    var p := w.procs[pid];
    var asking := Move(p, t, WantRuntime(FirstGet));
    NoSteps(w, pid);
    run := AsksAndGets(w, [], pid, t, CreateCall, p, [], asking, FirstGet);
    SameOnceGot(pid, p, t, CreateCall, asking, FirstGet);
    assert [] + [Action(pid, t, CreateCall)] == [Action(pid, t, CreateCall)];
    assert [] + FirstTask(pid, p.g) == FirstTask(pid, p.g);
  }

  /** Create from there to the task that starts the engine. */
  lemma CreateGoesOn(w: World, run: seq<Action>, pid: nat, t: nat, p: Proc, posted: seq<Contact>)
    returns (longer: seq<Action>)
    requires Feasible(w, run) && Only(w, After(w, run), pid, p, posted)
    requires At(p, t) == HasRuntime(FirstGet, pid)
    requires p.g.locked.No? && p.g.built == 1 && p.g.runtime == Some(pid)
    ensures longer == run + [Action(pid, t, Construct(true))] + GetPart(pid, t) && Feasible(w, longer)
    ensures Only(w, After(w, longer), pid,
                 Move(p, t, HasRuntime(StartEngine(p.g.generation), pid)), posted)
  {
    var goal := StartEngine(p.g.generation);
    var asking := Move(p, t, WantRuntime(goal));
    longer := AsksAndGets(w, run, pid, t, Construct(true), p, posted, asking, goal);
    SameOnceGot(pid, p, t, Construct(true), asking, goal);
    assert posted + FirstTask(pid, p.g) == posted;
  }

  /** Engine::Create by thread `t` alone. */
  function CreateAlone(pid: nat, t: nat, ok: bool): seq<Action> {
    [Action(pid, t, CreateCall)] + GetPart(pid, t)
    + [Action(pid, t, Construct(true))] + GetPart(pid, t) + TaskPart(pid, t, ok)
  }

  /** The process after it. */
  function Created(p: Proc, pid: nat, t: nat, ok: bool): Proc {
    Finished(p.(g := p.g.(runtime := Some(pid), built := 1)), pid, t, StartEngine(p.g.generation), ok)
  }

  lemma CreatedIs(p: Proc, pid: nat, t: nat, ok: bool) returns (ready: Proc)
    ensures ready == Move(WithRuntime(pid, p, t, FirstGet), t,
                          HasRuntime(StartEngine(p.g.generation), pid))
    ensures Finished(ready, pid, t, StartEngine(p.g.generation), ok) == Created(p, pid, t, ok)
    ensures At(ready, t) == HasRuntime(StartEngine(p.g.generation), pid)
  {
    ready := Move(WithRuntime(pid, p, t, FirstGet), t, HasRuntime(StartEngine(p.g.generation), pid));
    assert ready.threads[t := Outside] == p.threads[t := Outside];
  }

  lemma CreateRuns(w: World, pid: nat, t: nat, ok: bool)
    requires pid < |w.procs|
    requires var p := w.procs[pid];
      At(p, t).Outside? && p.g.locked.No? && p.g.unusable.No? && RuntimeOk(pid, p.g)
    ensures Feasible(w, CreateAlone(pid, t, ok))
    ensures var p := w.procs[pid];
      Only(w, After(w, CreateAlone(pid, t, ok)), pid, Created(p, pid, t, ok),
           FirstTask(pid, p.g) + [Contact(pid, pid, true)])
  {
    var p := w.procs[pid];
    var first := CreateBegins(w, pid, t);
    var has := WithRuntime(pid, p, t, FirstGet);
    var second := CreateGoesOn(w, first, pid, t, has, FirstTask(pid, p.g));
    var ready := CreatedIs(p, pid, t, ok);
    var third := TaskCall(w, second, pid, t, ready, FirstTask(pid, p.g), ok);
  }

  /**
   * A whole Create that nobody interrupts, in a process that may have Runtimes: it is
   * never stuck, starts the Runtime if there is none, waits for a network thread of
   * this process, and adds one engine of the current generation if the Core starts it.
   */
  lemma CreateCompletes(w: World, pid: nat, t: nat, ok: bool)
    requires Reachable(w) && pid < |w.procs| && !Tainted(w.procs, pid)
    requires At(w.procs[pid], t).Outside? && w.procs[pid].g.locked.No?
    ensures Feasible(w, CreateAlone(pid, t, ok))
    ensures var p, next := w.procs[pid], After(w, CreateAlone(pid, t, ok));
      && Left(w, next, pid, t)
      && next.procs[pid].g == p.g.(runtime := Some(pid), built := 1)
      && next.procs[pid].engines == p.engines + (if ok then [Engine(p.g.generation, pid)] else [])
      && next.contacts == w.contacts + (if p.g.built == 0 then [Contact(pid, pid, true)] else [])
                          + [Contact(pid, pid, true)]
  {
    ReachableInv(w);
    UnusableIffTainted(w.procs, pid);
    var p := w.procs[pid];
    assert ProcOk(pid, p, |w.procs|);
    CreateRuns(w, pid, t, ok);
    var next := After(w, CreateAlone(pid, t, ok));
    assert w.contacts + (FirstTask(pid, p.g) + [Contact(pid, pid, true)])
      == w.contacts + FirstTask(pid, p.g) + [Contact(pid, pid, true)];
    OnlyLeft(w, next, pid, t, Created(p, pid, t, ok), FirstTask(pid, p.g) + [Contact(pid, pid, true)]);
  }

  /** ~Engine by thread `t` alone, for the engine at `i`. */
  function DestroyAlone(pid: nat, t: nat, i: nat, ok: bool): seq<Action> {
    [Action(pid, t, DestroyCall(i))] + GetPart(pid, t) + TaskPart(pid, t, ok)
  }

  lemma DestroyedIs(p: Proc, pid: nat, t: nat, i: nat, ok: bool) returns (ready: Proc)
    requires i < |p.engines| && p.g.built == 1 && p.g.runtime == Some(pid)
    ensures ready == WithRuntime(pid, p.(engines := Without(p.engines, i)), t, StopEngine)
    ensures Finished(ready, pid, t, StopEngine, ok)
      == Move(p.(engines := Without(p.engines, i)), t, Outside)
    ensures At(ready, t) == HasRuntime(StopEngine, pid)
  {
    ready := WithRuntime(pid, p.(engines := Without(p.engines, i)), t, StopEngine);
    assert ready.threads[t := Outside] == p.threads[t := Outside];
  }

  lemma DestroyHere(w: World, pid: nat, t: nat, i: nat, ok: bool)
    requires Enabled(w, pid, t, DestroyCall(i)) && w.procs[pid].g.locked.No?
    requires var g := w.procs[pid].g;
      w.procs[pid].engines[i].stamp == g.generation && g.built == 1 && g.runtime == Some(pid)
    ensures Feasible(w, DestroyAlone(pid, t, i, ok))
    ensures var p := w.procs[pid];
      Only(w, After(w, DestroyAlone(pid, t, i, ok)), pid,
           Move(p.(engines := Without(p.engines, i)), t, Outside), [Contact(pid, pid, true)])
  {
    var p := w.procs[pid];
    var asking := Move(p.(engines := Without(p.engines, i)), t, WantRuntime(StopEngine));
    NoSteps(w, pid);
    var first := AsksAndGets(w, [], pid, t, DestroyCall(i), p, [], asking, StopEngine);
    assert [] + [Action(pid, t, DestroyCall(i))] == [Action(pid, t, DestroyCall(i))];
    var ready := DestroyedIs(p, pid, t, i, ok);
    SameOnceGot(pid, p, t, DestroyCall(i), asking, StopEngine);
    var second := TaskCall(w, first, pid, t, ready, [], ok);
  }

  /**
   * A whole destruction. An engine of this process is shut down on its network
   * thread, without a new Runtime; one that crossed a fork goes at once, in the
   * first step, and touches nothing. Either way exactly that engine is gone.
   */
  lemma DestroyCompletes(w: World, pid: nat, t: nat, i: nat, ok: bool)
    requires Reachable(w) && Enabled(w, pid, t, DestroyCall(i)) && w.procs[pid].g.locked.No?
    ensures var p := w.procs[pid]; var here := p.engines[i].home == pid;
      var run := if here then DestroyAlone(pid, t, i, ok) else [Action(pid, t, DestroyCall(i))];
      && Feasible(w, run)
      && var next := After(w, run);
      && Left(w, next, pid, t)
      && next.procs[pid].g == p.g
      && next.procs[pid].engines == p.engines[..i] + p.engines[i + 1..]
      && next.contacts == w.contacts + (if here then [Contact(pid, pid, true)] else [])
  {
    ReachableInv(w);
    var p := w.procs[pid];
    assert ProcOk(pid, p, |w.procs|);
    assert EngineOk(pid, p.g, p.engines[i]);
    var gone := Move(p.(engines := Without(p.engines, i)), t, Outside);
    if p.engines[i].home == pid {
      DestroyHere(w, pid, t, i, ok);
      OnlyLeft(w, After(w, DestroyAlone(pid, t, i, ok)), pid, t, gone, [Contact(pid, pid, true)]);
    } else {
      NoSteps(w, pid);
      var run := CallStep(w, [], pid, t, DestroyCall(i), p, []);
      assert run == [Action(pid, t, DestroyCall(i))];
      OnlyLeft(w, After(w, run), pid, t, gone, []);
    }
  }

  /** One more step of thread 0 of process `pid`. */
  lemma Go(w: World, pid: nat, a: Act) returns (next: World)
    requires Reachable(w) && Enabled(w, pid, 0, a)
    ensures Reachable(next) && next == Step(w, pid, 0, a)
  {
    var run :| Feasible(Init, run) && After(Init, run) == w;
    RunExtends(Init, run, Action(pid, 0, a));
    next := Step(w, pid, 0, a);
  }

  /** One process, in which only thread 0 has done anything. */
  predicate Alone(w: World, g: Globals, pc: Pc, engines: seq<Engine>) {
    && |w.procs| == 1 && w.procs[0].g == g && At(w.procs[0], 0) == pc
    && w.procs[0].engines == engines
  }

  const Running := Globals(Some(0), 0, No, No, 1)

  lemma FirstRuntime() returns (w: World)
    ensures Reachable(w) && Alone(w, Running, HasRuntime(FirstGet, 0), [])
  {
    w := Init;
    assert After(Init, []) == Init;
    w := Go(w, 0, CreateCall);
    w := Go(w, 0, Lock);
    w := Go(w, 0, Get);
  }

  lemma FirstStart() returns (w: World)
    ensures Reachable(w) && Alone(w, Running, HasRuntime(StartEngine(0), 0), [])
  {
    w := FirstRuntime();
    w := Go(w, 0, Construct(true));
    w := Go(w, 0, Lock);
    w := Go(w, 0, Get);
  }

  lemma FirstEngine() returns (w: World)
    ensures Reachable(w) && Alone(w, Running, Outside, [Engine(0, 0)])
  {
    w := FirstStart();
    w := Go(w, 0, Post(false, true));
    w := Go(w, 0, WaitOver(true));
  }

  /** A process creates an engine and forks; its child meets all hypotheses of both lemmas. */
  lemma ForkWithEngine() returns (w: World)
    ensures Reachable(w) && |w.procs| == 2
    ensures var child := w.procs[1];
      child.g == Globals(None, 1, Yes, No, 0) && NoGoals(child) && child.engines == [Engine(0, 0)]
    ensures Enabled(w, 1, 0, TaskRunnerCall)
  {
    w := FirstEngine();
    w := Go(w, 0, Prepare);
    w := Go(w, 0, Copy);
  }

  /** So an unusable process with a Runtime of its own is reachable. */
  lemma UnusableWithRuntime() returns (w: World)
    ensures Reachable(w) && |w.procs| == 2
    ensures w.procs[1].g.unusable.Yes? && w.procs[1].g.runtime == Some(1)
  {
    w := ForkWithEngine();
    w := Go(w, 1, TaskRunnerCall);
    w := Go(w, 1, Lock);
    w := Go(w, 1, Get);
  }
}
