/**
 * The cookie policy for one attempt, over whole runs of a session, and over the attempts of one
 * prepared request: exactly when the Cookie line on the wire is the jar's.
 */
module CookieRuns {
  import opened Prelude
  import opened EngineCache
  import opened CookiePolicy

  // ---- one attempt ------------------------------------------------------------------------

  /** The lines the mirror and the store of the slot for `settings` have for a URL. */
  function MirrorLine(s: Session, settings: EngineConfig, url: string, w: World): Option<string> {
    var (selected, found) := SelectSlot(s, settings, w);
    if found.Got? then Line(JarOf(selected.mirrors, found.slot), url) else None
  }

  function StoreLine(s: Session, settings: EngineConfig, url: string, w: World): Option<string> {
    var (selected, found) := SelectSlot(s, settings, w);
    if found.Got? then Line(JarOf(selected.stores, found.slot), url) else None
  }

  /** The wire line, given those two, the jar's line and the header the request came with. */
  function WireLine(mirror: Option<string>, store: Option<string>, desired: Option<string>,
                    header: Option<string>): Option<string> {
    if mirror.Some? && mirror != desired then if desired.Some? then desired else header
    else if store.Some? || mirror.Some? then store
    else if desired.Some? then desired
    else header
  }

  /**
   * When that is the jar's line. On a new engine, and where neither jar of the engine has a line,
   * it takes a line to send or no header in the way; otherwise it is up to the store.
   */
  predicate Carries(mirror: Option<string>, store: Option<string>, desired: Option<string>,
                    header: Option<string>) {
    if (mirror.Some? && mirror != desired) || (mirror.None? && store.None?)
    then desired.Some? || header.None?
    else store == desired
  }

  lemma ResolveKeepsInv(s: Session, slot: Slot, config: EngineConfig, jar: Jar, url: string,
                        header: Option<string>, w: World)
    requires Inv(s) && slot < s.cache.built
    ensures var (next, result, line) := Resolve(s, slot, config, jar, url, header, w);
      Inv(next) && (result.Got? ==> result.slot < next.cache.built)
  {
    FreshGeneration(s, config, w.pid, w.rebuildOk);
    GetFacts(s.cache, config.(generation := s.generation + 1), w.pid, w.rebuildOk);
  }

  lemma ResolveWire(s: Session, slot: Slot, config: EngineConfig, jar: Jar, url: string,
                    header: Option<string>, w: World)
    requires Inv(s) && slot < s.cache.built
    ensures var (next, result, line) := Resolve(s, slot, config, jar, url, header, w);
      result.Got? ==>
        Wire(Line(JarOf(next.stores, result.slot), url), line)
        == WireLine(Line(JarOf(s.mirrors, slot), url), Line(JarOf(s.stores, slot), url),
                    Line(jar, url), header)
  {
    FreshGeneration(s, config, w.pid, w.rebuildOk);
  }

  lemma SendOnceKeepsInv(s: Session, settings: EngineConfig, jar: Jar, url: string,
                         header: Option<string>, w: World)
    requires Inv(s)
    ensures var a := SendOnce(s, settings, jar, url, header, w);
      Inv(a.session) && (a.sent.Some? ==> a.sent.value.0 < a.session.cache.built)
  {
    var (selected, found) := SelectSlot(s, settings, w);
    SelectKeepsInv(s, settings, w);
    if found.Got? {
      ResolveKeepsInv(selected, found.slot, settings.(generation := s.generation), jar, url, header, w);
    }
  }

  /** The wire line of one attempt, whatever the mirror and the store hold. */
  lemma SendOnceWire(s: Session, settings: EngineConfig, jar: Jar, url: string,
                     header: Option<string>, w: World)
    requires Inv(s)
    ensures var a := SendOnce(s, settings, jar, url, header, w);
      a.sent.Some? ==>
        a.sent.value.1 == WireLine(MirrorLine(s, settings, url, w), StoreLine(s, settings, url, w),
                                   Line(jar, url), header)
  {
    var (selected, found) := SelectSlot(s, settings, w);
    SelectKeepsInv(s, settings, w);
    if found.Got? {
      ResolveWire(selected, found.slot, settings.(generation := s.generation), jar, url, header, w);
    }
  }

  // ---- runs -------------------------------------------------------------------------------

  /**
   * How a request that left ends: with a response that reached _finalize, with an error after an
   * answer (a head or a followed redirect) had been seen, or with an error before any answer.
   */
  datatype Reply =
    | Finalized(accept: Accept, cookies: Jar)
    | Lost(accept: Accept)
    | Unanswered

  /** What a session is asked to do; `accept` stands for what the server's answers set. */
  datatype Op =
    | Send(settings: EngineConfig, jar: Option<Jar>, url: string, header: Option<string>,
           w: World, reply: Reply)
    | OpenWebSocket(settings: EngineConfig, w: World, accept: Accept)
    | EditCookies(cookies: Jar)
    | CloseSession

  function JarFor(s: Session, jar: Option<Jar>): Jar {
    if jar.Some? then jar.value else s.cookies
  }

  function Answered(s: Session, slot: Slot, reply: Reply): Session {
    match reply
    case Finalized(accept, cookies) => Absorb(s, slot, accept, cookies)
    case Lost(accept) => Accepted(s, slot, accept)
    case Unanswered => s
  }

  /** The session after an attempt and its reply. */
  function Settled(a: Attempt, reply: Reply): Session {
    if a.sent.Some? then Answered(a.session, a.sent.value.0, reply) else a.session
  }

  /** _open_websocket: the handshake's answer reaches the store and nothing else. */
  function Open(s: Session, settings: EngineConfig, w: World, accept: Accept): Session {
    var (selected, found) := SelectSlot(s, settings, w);
    if found.Got? then Accepted(selected, found.slot, accept) else selected
  }

  function Do(s: Session, op: Op): Session {
    match op
    case Send(settings, jar, url, header, w, reply) =>
      Settled(SendOnce(s, settings, JarFor(s, jar), url, header, w), reply)
    case OpenWebSocket(settings, w, accept) => Open(s, settings, w, accept)
    case EditCookies(cookies) => s.(cookies := cookies)
    case CloseSession => s.(cache := Close(s.cache))
  }

  function Run(s: Session, ops: seq<Op>): Session
    decreases |ops|
  {
    if |ops| == 0 then s else Run(Do(s, ops[0]), ops[1..])
  }

  function NewSession(max: nat, pid: nat, cookies: Jar): Session
    requires max >= 1
  {
    Session(NewCache(max, pid), 0, map[], map[], cookies)
  }

  lemma AnswerKeepsInv(s: Session, slot: Slot, reply: Reply)
    requires Inv(s) && slot < s.cache.built
    ensures Inv(Answered(s, slot, reply))
  {
  }

  lemma DoKeepsInv(s: Session, op: Op)
    requires Inv(s)
    ensures Inv(Do(s, op))
  {
    match op
    case Send(settings, jar, url, header, w, reply) =>
      var a := SendOnce(s, settings, JarFor(s, jar), url, header, w);
      SendOnceKeepsInv(s, settings, JarFor(s, jar), url, header, w);
      if a.sent.Some? { AnswerKeepsInv(a.session, a.sent.value.0, reply); }
    case OpenWebSocket(settings, w, accept) =>
      var (selected, found) := SelectSlot(s, settings, w);
      SelectKeepsInv(s, settings, w);
      if found.Got? { AnswerKeepsInv(selected, found.slot, Lost(accept)); }
    case EditCookies(_) =>
    case CloseSession =>
  }

  lemma {:induction false} RunKeepsInv(s: Session, ops: seq<Op>)
    requires Inv(s)
    ensures Inv(Run(s, ops))
    decreases |ops|
  {
    if |ops| != 0 {
      DoKeepsInv(s, ops[0]);
      RunKeepsInv(Do(s, ops[0]), ops[1..]);
    }
  }

  /**
   * The cookie policy, exactly: after any run of a session, a request that is sent carries the
   * Cookie line of its jar if and only if `Carries` holds of its engine's mirror and store.
   */
  lemma PolicyExactly(max: nat, pid: nat, cookies: Jar, ops: seq<Op>, settings: EngineConfig,
                      jar: Jar, url: string, header: Option<string>, w: World)
    requires max >= 1
    ensures var s := Run(NewSession(max, pid, cookies), ops);
      var a := SendOnce(s, settings, jar, url, header, w);
      a.sent.Some? ==>
        (a.sent.value.1 == Line(jar, url) <==>
         Carries(MirrorLine(s, settings, url, w), StoreLine(s, settings, url, w), Line(jar, url), header))
  {
    RunKeepsInv(NewSession(max, pid, cookies), ops);
    SendOnceWire(Run(NewSession(max, pid, cookies), ops), settings, jar, url, header, w);
  }

  // ---- which requests leave, and on which engine --------------------------------------------------

  /** The store would override the jar's line. */
  predicate Overrides(mirror: Option<string>, desired: Option<string>) {
    mirror.Some? && mirror != desired
  }

  /** The engine for `settings` exists, or the Core accepts to build it. */
  predicate Obtainable(s: Session, settings: EngineConfig, w: World) {
    settings.(generation := s.generation) in ResetAfterFork(s.cache, w.pid).slots || w.buildOk
  }

  lemma ObtainableIff(s: Session, settings: EngineConfig, w: World)
    requires Inv(s)
    ensures var (selected, found) := SelectSlot(s, settings, w);
      && (found.Got? <==> s.cache.closed.No? && Obtainable(s, settings, w))
      && selected.cache.closed == s.cache.closed && s.cache.built <= selected.cache.built
  {
    GetFacts(s.cache, settings.(generation := s.generation), w.pid, w.buildOk);
  }

  lemma ResolveLeaves(s: Session, slot: Slot, config: EngineConfig, jar: Jar, url: string,
                      header: Option<string>, w: World)
    requires Inv(s) && slot < s.cache.built
    ensures var (next, result, line) := Resolve(s, slot, config, jar, url, header, w);
      && next.cache.closed == s.cache.closed
      && if Overrides(Line(JarOf(s.mirrors, slot), url), Line(jar, url)) then
           && next.generation == s.generation + 1
           && (result.Got? <==> s.cache.closed.No? && w.rebuildOk)
           && (result.Got? ==> result.slot == s.cache.built)
         else next.generation == s.generation && result == Got(slot)
  {
    var bumped := config.(generation := s.generation + 1);
    FreshGeneration(s, config, w.pid, w.rebuildOk);
    GetFacts(s.cache, bumped, w.pid, w.rebuildOk);
  }

  /**
   * An attempt leaves unless the session was closed or the Core refused an engine. The engine is
   * replaced, by a new one of the next generation, exactly if its store would override the jar's
   * line; otherwise the session's engine for these settings is used.
   */
  lemma AttemptLeaves(s: Session, settings: EngineConfig, jar: Jar, url: string,
                      header: Option<string>, w: World)
    requires Inv(s)
    ensures var a := SendOnce(s, settings, jar, url, header, w);
      var override := Overrides(MirrorLine(s, settings, url, w), Line(jar, url));
      && (a.sent.Some? <==>
            s.cache.closed.No? && Obtainable(s, settings, w) && (override ==> w.rebuildOk))
      && a.session.generation == (if override then s.generation + 1 else s.generation)
      && a.session.cache.closed == s.cache.closed
      && (a.sent.Some? && override ==> a.sent.value.0 >= SelectSlot(s, settings, w).0.cache.built)
      && (a.sent.Some? && !override ==> Got(a.sent.value.0) == SelectSlot(s, settings, w).1)
  {
    var (selected, found) := SelectSlot(s, settings, w);
    SelectKeepsInv(s, settings, w);
    ObtainableIff(s, settings, w);
    if found.Got? {
      ResolveLeaves(selected, found.slot, settings.(generation := s.generation), jar, url, header, w);
    }
  }

  lemma {:induction false} ClosedIffClosed(s: Session, ops: seq<Op>)
    requires Inv(s)
    ensures Run(s, ops).cache.closed.Yes? <==> s.cache.closed.Yes? || CloseSession in ops
    decreases |ops|
  {
    if |ops| != 0 {
      DoKeepsInv(s, ops[0]);
      ClosedStep(s, ops[0]);
      ClosedIffClosed(Do(s, ops[0]), ops[1..]);
    }
  }

  lemma ClosedStep(s: Session, op: Op)
    requires Inv(s)
    ensures Do(s, op).cache.closed.Yes? <==> s.cache.closed.Yes? || op == CloseSession
  {
    match op
    case Send(settings, jar, url, header, w, reply) =>
      AttemptLeaves(s, settings, JarFor(s, jar), url, header, w);
    case OpenWebSocket(settings, w, accept) => ObtainableIff(s, settings, w);
    case EditCookies(_) =>
    case CloseSession =>
  }

  /** So, after any run, a request leaves unless one of these happened. */
  lemma LeavesIff(max: nat, pid: nat, cookies: Jar, ops: seq<Op>, settings: EngineConfig,
                  jar: Jar, url: string, header: Option<string>, w: World)
    requires max >= 1
    ensures var s := Run(NewSession(max, pid, cookies), ops);
      SendOnce(s, settings, jar, url, header, w).sent.Some? <==>
        && CloseSession !in ops
        && Obtainable(s, settings, w)
        && (Overrides(MirrorLine(s, settings, url, w), Line(jar, url)) ==> w.rebuildOk)
  {
    RunKeepsInv(NewSession(max, pid, cookies), ops);
    ClosedIffClosed(NewSession(max, pid, cookies), ops);
    AttemptLeaves(Run(NewSession(max, pid, cookies), ops), settings, jar, url, header, w);
  }

  // ---- when mirror and store agree --------------------------------------------------------------

  /** The configurations, with their generation, whose engines saw an answer nobody absorbed. */
  function LostBy(s: Session, op: Op): set<EngineConfig> {
    match op
    case Send(settings, jar, url, header, w, reply) =>
      var a := SendOnce(s, settings, JarFor(s, jar), url, header, w);
      if a.sent.Some? && reply.Lost? then {settings.(generation := a.session.generation)} else {}
    case OpenWebSocket(settings, w, _) =>
      if SelectSlot(s, settings, w).1.Got? then {settings.(generation := s.generation)} else {}
    case _ => {}
  }

  function LostKeys(s: Session, ops: seq<Op>): set<EngineConfig>
    decreases |ops|
  {
    if |ops| == 0 then {} else LostBy(s, ops[0]) + LostKeys(Do(s, ops[0]), ops[1..])
  }

  predicate Aligned(s: Session, slot: Slot) {
    JarOf(s.mirrors, slot) == JarOf(s.stores, slot)
  }

  /** Mirror and store agree on every cached engine whose configuration lost nothing. */
  predicate AlignedBut(s: Session, lost: set<EngineConfig>) {
    && (forall k :: k in lost ==> k.generation <= s.generation)
    && (forall k :: k in s.cache.slots && k !in lost ==> Aligned(s, s.cache.slots[k]))
  }

  lemma GetAligned(s: Session, k: EngineConfig, pid: nat, ok: bool, generation: nat,
                   lost: set<EngineConfig>)
    requires Inv(s) && AlignedBut(s, lost) && generation >= s.generation
    ensures AlignedBut(s.(cache := Get(s.cache, k, pid, ok).0, generation := generation), lost)
  {
    GetKeeps(s.cache, k, pid, ok);
  }

  lemma BumpAligned(s: Session, bumped: EngineConfig, w: World, lost: set<EngineConfig>)
    requires Inv(s) && AlignedBut(s, lost)
    ensures var (cache, result) := Get(s.cache, bumped, w.pid, w.rebuildOk);
      && AlignedBut(s.(cache := cache, generation := s.generation + 1), lost)
      && (result.Got? ==> bumped in cache.slots && cache.slots[bumped] == result.slot)
  {
    GetAligned(s, bumped, w.pid, w.rebuildOk, s.generation + 1, lost);
    GetKeeps(s.cache, bumped, w.pid, w.rebuildOk);
  }

  lemma ResolveAligned(s: Session, slot: Slot, config: EngineConfig, jar: Jar, url: string,
                       header: Option<string>, w: World, lost: set<EngineConfig>)
    requires Inv(s) && AlignedBut(s, lost) && config.generation == s.generation
    requires config in s.cache.slots && s.cache.slots[config] == slot
    ensures var (next, result, line) := Resolve(s, slot, config, jar, url, header, w);
      var k := config.(generation := next.generation);
      && AlignedBut(next, lost)
      && (result.Got? ==> k in next.cache.slots && next.cache.slots[k] == result.slot)
  {
    var store := Line(JarOf(s.mirrors, slot), url);
    if store.None? || Line(jar, url) == store {
      assert config.(generation := s.generation) == config;
    } else {
      BumpAligned(s, config.(generation := s.generation + 1), w, lost);
    }
  }

  /** The slot of an attempt is the cached one of its configuration in the session's generation. */
  lemma SendOnceAligned(s: Session, settings: EngineConfig, jar: Jar, url: string,
                        header: Option<string>, w: World, lost: set<EngineConfig>)
    requires Inv(s) && AlignedBut(s, lost)
    ensures var a := SendOnce(s, settings, jar, url, header, w);
      var k := settings.(generation := a.session.generation);
      && AlignedBut(a.session, lost)
      && (a.sent.Some? ==> k in a.session.cache.slots && a.session.cache.slots[k] == a.sent.value.0)
  {
    var key := settings.(generation := s.generation);
    var (selected, found) := SelectSlot(s, settings, w);
    SelectKeepsInv(s, settings, w);
    GetAligned(s, key, w.pid, w.buildOk, s.generation, lost);
    GetKeeps(s.cache, key, w.pid, w.buildOk);
    if found.Got? { ResolveAligned(selected, found.slot, key, jar, url, header, w, lost); }
  }

  /** An answer on the engine of `k` that is not absorbed spoils no other. */
  lemma AnswerAligned(s: Session, k: EngineConfig, reply: Reply, lost: set<EngineConfig>)
    requires Inv(s) && AlignedBut(s, lost) && k in s.cache.slots && k.generation <= s.generation
    ensures AlignedBut(Answered(s, s.cache.slots[k], reply), if reply.Lost? then lost + {k} else lost)
  {
  }

  lemma OpenAligned(s: Session, settings: EngineConfig, w: World, accept: Accept,
                    lost: set<EngineConfig>)
    requires Inv(s) && AlignedBut(s, lost)
    ensures AlignedBut(Open(s, settings, w, accept),
                       lost + LostBy(s, OpenWebSocket(settings, w, accept)))
  {
    var k := settings.(generation := s.generation);
    var (selected, found) := SelectSlot(s, settings, w);
    SelectKeepsInv(s, settings, w);
    GetAligned(s, k, w.pid, w.buildOk, s.generation, lost);
    GetKeeps(s.cache, k, w.pid, w.buildOk);
    if found.Got? { AnswerAligned(selected, k, Lost(accept), lost); }
  }

  lemma DoAligned(s: Session, op: Op, lost: set<EngineConfig>)
    requires Inv(s) && AlignedBut(s, lost)
    ensures AlignedBut(Do(s, op), lost + LostBy(s, op))
  {
    match op
    case Send(settings, jar, url, header, w, reply) =>
      var a := SendOnce(s, settings, JarFor(s, jar), url, header, w);
      SendOnceKeepsInv(s, settings, JarFor(s, jar), url, header, w);
      SendOnceAligned(s, settings, JarFor(s, jar), url, header, w, lost);
      if a.sent.Some? {
        AnswerAligned(a.session, settings.(generation := a.session.generation), reply, lost);
      }
    case OpenWebSocket(settings, w, accept) =>
      OpenAligned(s, settings, w, accept, lost);
    case EditCookies(_) =>
    case CloseSession =>
  }

  lemma {:induction false} RunAligned(s: Session, ops: seq<Op>, lost: set<EngineConfig>)
    requires Inv(s) && AlignedBut(s, lost)
    ensures AlignedBut(Run(s, ops), lost + LostKeys(s, ops))
    decreases |ops|
  {
    if |ops| != 0 {
      DoKeepsInv(s, ops[0]);
      DoAligned(s, ops[0], lost);
      RunAligned(Do(s, ops[0]), ops[1..], lost + LostBy(s, ops[0]));
      assert lost + LostBy(s, ops[0]) + LostKeys(Do(s, ops[0]), ops[1..]) == lost + LostKeys(s, ops);
    }
  }

  /** On an engine that lost nothing the mirror tells what the store will say. */
  lemma SameLines(s: Session, settings: EngineConfig, url: string, w: World, lost: set<EngineConfig>)
    requires Inv(s) && AlignedBut(s, lost) && settings.(generation := s.generation) !in lost
    ensures MirrorLine(s, settings, url, w) == StoreLine(s, settings, url, w)
  {
    var k := settings.(generation := s.generation);
    GetAligned(s, k, w.pid, w.buildOk, s.generation, lost);
    GetKeeps(s.cache, k, w.pid, w.buildOk);
  }

  /**
   * The cookie policy where a caller can rely on it: if no WebSocket was opened and no send failed
   * after an answer on this engine configuration in its present generation, a request that is sent
   * carries the Cookie line of its jar if and only if that jar has a line for the URL or the
   * request brought no Cookie header.
   */
  lemma PolicyHolds(max: nat, pid: nat, cookies: Jar, ops: seq<Op>, settings: EngineConfig,
                    jar: Jar, url: string, header: Option<string>, w: World)
    requires max >= 1
    requires var s := NewSession(max, pid, cookies);
      settings.(generation := Run(s, ops).generation) !in LostKeys(s, ops)
    ensures var a := SendOnce(Run(NewSession(max, pid, cookies), ops), settings, jar, url, header, w);
      a.sent.Some? ==>
        (a.sent.value.1 == Line(jar, url) <==> Line(jar, url).Some? || header.None?)
  {
    var s := NewSession(max, pid, cookies);
    RunKeepsInv(s, ops);
    RunAligned(s, ops, {});
    SameLines(Run(s, ops), settings, url, w, LostKeys(s, ops));
    PolicyExactly(max, pid, cookies, ops, settings, jar, url, header, w);
  }

  lemma {:induction false} RunAppend(s: Session, ops: seq<Op>, op: Op)
    ensures Run(s, ops + [op]) == Do(Run(s, ops), op)
    ensures LostKeys(s, ops + [op]) == LostKeys(s, ops) + LostBy(Run(s, ops), op)
    decreases |ops|
  {
    var longer := ops + [op];
    if |ops| == 0 {
      assert longer == [op] && [op][1..] == [];
    } else {
      assert longer[0] == ops[0] && longer[1..] == ops[1..] + [op];
      RunAppend(Do(s, ops[0]), ops[1..], op);
    }
  }

  /** What the session's own jar is after a call: as edited, or as the absorbed response left it. */
  function JarNow(s: Session, op: Op): Jar {
    match op
    case EditCookies(cookies) => cookies
    case Send(settings, jar, url, header, w, Finalized(_, cookies)) =>
      if SendOnce(s, settings, JarFor(s, jar), url, header, w).sent.Some? then cookies else s.cookies
    case _ => s.cookies
  }

  /**
   * Which jar a request carries, under the same condition: its own if it has one, and otherwise
   * what the last call made of the session's, so that a line the caller edited or a response set
   * is sent by the next such request.
   */
  lemma RequestCarriesItsJar(max: nat, pid: nat, cookies: Jar, ops: seq<Op>, last: Op,
                             settings: EngineConfig, own: Option<Jar>, url: string,
                             header: Option<string>, w: World)
    requires max >= 1
    requires var s := NewSession(max, pid, cookies);
      settings.(generation := Run(s, ops + [last]).generation) !in LostKeys(s, ops + [last])
    ensures var s := NewSession(max, pid, cookies);
      var now := Run(s, ops + [last]);
      var desired := Line(if own.Some? then own.value else JarNow(Run(s, ops), last), url);
      var a := SendOnce(now, settings, JarFor(now, own), url, header, w);
      a.sent.Some? ==> (a.sent.value.1 == desired <==> desired.Some? || header.None?)
  {
    var s := NewSession(max, pid, cookies);
    RunAppend(s, ops, last);
    JarFollows(Run(s, ops), last);
    var jar := if own.Some? then own.value else JarNow(Run(s, ops), last);
    PolicyHolds(max, pid, cookies, ops + [last], settings, jar, url, header, w);
  }

  lemma SendOnceKeepsJar(s: Session, settings: EngineConfig, jar: Jar, url: string,
                         header: Option<string>, w: World)
    ensures SendOnce(s, settings, jar, url, header, w).session.cookies == s.cookies
  {
  }

  lemma AnsweredJar(s: Session, slot: Slot, reply: Reply)
    ensures Answered(s, slot, reply).cookies == if reply.Finalized? then reply.cookies else s.cookies
  {
  }

  lemma JarFollows(s: Session, op: Op)
    ensures Do(s, op).cookies == JarNow(s, op)
  {
    match op
    case Send(settings, jar, url, header, w, reply) =>
      SendOnceKeepsJar(s, settings, JarFor(s, jar), url, header, w);
      var a := SendOnce(s, settings, JarFor(s, jar), url, header, w);
      if a.sent.Some? { AnsweredJar(a.session, a.sent.value.0, reply); }
    case OpenWebSocket(_, _, _) =>
    case EditCookies(_) =>
    case CloseSession =>
  }

  /** A run that opened no WebSocket and lost no answer meets that condition everywhere. */
  lemma {:induction false} NothingLost(s: Session, ops: seq<Op>)
    requires forall op :: op in ops ==> !op.OpenWebSocket? && (op.Send? ==> !op.reply.Lost?)
    ensures LostKeys(s, ops) == {}
    decreases |ops|
  {
    if |ops| != 0 {
      assert ops[0] in ops && forall op :: op in ops[1..] ==> op in ops;
      NothingLost(Do(s, ops[0]), ops[1..]);
    }
  }

  // ---- the condition is needed ------------------------------------------------------------------

  function Sets(url: string, line: string): Accept {
    (jar: Jar) => jar[url := line]
  }

  /** A new session's first engine. */
  lemma FirstSlot(max: nat, settings: EngineConfig, w: World)
    requires max >= 1 && w == World(0, true, true)
    ensures var s := NewSession(max, 0, map[]);
      var cache := Grow(s.cache, settings.(generation := 0));
      && SelectSlot(s, settings, w) == (s.(cache := cache), Got(0))
      && cache.closed.No? && cache.pid == 0 && cache.slots == map[settings.(generation := 0) := 0]
  {
    var s := NewSession(max, 0, map[]);
    var k := settings.(generation := 0);
    assert Evict(Grow(s.cache, k)) == Grow(s.cache, k);
  }

  /** What the store of that engine holds goes out, though no jar of the session has it. */
  lemma StoreAlone(max: nat, settings: EngineConfig, url: string, line: string, w: World)
    requires max >= 1 && line != "" && w == World(0, true, true)
    ensures var s := SelectSlot(NewSession(max, 0, map[]), settings, w).0;
      SendOnce(Accepted(s, 0, Sets(url, line)), settings, map[], url, None, w).sent
      == Some((0, Some(line)))
  {
    FirstSlot(max, settings, w);
    var s := Accepted(SelectSlot(NewSession(max, 0, map[]), settings, w).0, 0, Sets(url, line));
    var k := settings.(generation := 0);
    assert Get(s.cache, k, 0, true).1 == Got(0);
    assert JarOf(s.stores, 0) == map[url := line];
    assert Line(JarOf(s.mirrors, 0), url) == None;
  }

  /** A cookie set by a WebSocket handshake is sent by a request whose jar does not have it. */
  lemma WebSocketLeavesCookie(max: nat, settings: EngineConfig, url: string, line: string)
    requires max >= 1 && line != ""
    ensures var s, w := NewSession(max, 0, map[]), World(0, true, true);
      SendOnce(Run(s, [OpenWebSocket(settings, w, Sets(url, line))]), settings, map[], url, None, w).sent
      == Some((0, Some(line)))
  {
    var s, w := NewSession(max, 0, map[]), World(0, true, true);
    var op := OpenWebSocket(settings, w, Sets(url, line));
    FirstSlot(max, settings, w);
    StoreAlone(max, settings, url, line, w);
    assert Run(s, [op]) == Run(Do(s, op), [op][1..]) == Do(s, op);
  }

  /** So is one set by an answer whose request then failed. */
  lemma FailedSendLeavesCookie(max: nat, settings: EngineConfig, url: string, line: string)
    requires max >= 1 && line != ""
    ensures var s, w := NewSession(max, 0, map[]), World(0, true, true);
      var op := Send(settings, Some(map[]), url, None, w, Lost(Sets(url, line)));
      SendOnce(Run(s, [op]), settings, map[], url, None, w).sent == Some((0, Some(line)))
  {
    var s, w := NewSession(max, 0, map[]), World(0, true, true);
    var op := Send(settings, Some(map[]), url, None, w, Lost(Sets(url, line)));
    FirstSlot(max, settings, w);
    StoreAlone(max, settings, url, line, w);
    assert SendOnce(s, settings, map[], url, None, w)
      == Attempt(SelectSlot(s, settings, w).0, None, Some((0, None)));
    assert Run(s, [op]) == Run(Do(s, op), [op][1..]) == Do(s, op);
  }

  // ---- the retry loop -----------------------------------------------------------------------------

  /** One PreparedRequest with a jar of its own, sent again and again, as the retry loop does. */
  datatype Retry = Retry(w: World, reply: Reply)

  predicate AllCarry(s: Session, settings: EngineConfig, jar: Jar, url: string,
                     header: Option<string>, retries: seq<Retry>)
    decreases |retries|
  {
    |retries| == 0 ||
    var a := SendOnce(s, settings, jar, url, header, retries[0].w);
    && (a.sent.Some? ==> a.sent.value.1 == Line(jar, url))
    && AllCarry(Settled(a, retries[0].reply), settings, jar, url, a.header, retries[1..])
  }

  /** The engine's store has what the mirror makes the session expect. */
  predicate InStep(mirror: Option<string>, store: Option<string>, desired: Option<string>) {
    (mirror.Some? && mirror != desired) || (mirror.None? && store.None?) || store == desired
  }

  /** At every attempt they are. */
  predicate AllInStep(s: Session, settings: EngineConfig, jar: Jar, url: string,
                      header: Option<string>, retries: seq<Retry>)
    decreases |retries|
  {
    |retries| == 0 ||
    var w := retries[0].w;
    var a := SendOnce(s, settings, jar, url, header, w);
    && (a.sent.Some? ==>
          InStep(MirrorLine(s, settings, url, w), StoreLine(s, settings, url, w), Line(jar, url)))
    && AllInStep(Settled(a, retries[0].reply), settings, jar, url, a.header, retries[1..])
  }

  lemma SettledKeepsInv(a: Attempt, reply: Reply)
    requires Inv(a.session) && (a.sent.Some? ==> a.sent.value.0 < a.session.cache.built)
    ensures Inv(Settled(a, reply))
  {
    if a.sent.Some? { AnswerKeepsInv(a.session, a.sent.value.0, reply); }
  }

  /** One attempt: it carries the jar's line exactly if they are in step, and brings no other header to the next. */
  lemma AttemptCarriesIff(s: Session, settings: EngineConfig, jar: Jar, url: string,
                          header: Option<string>, w: World)
    requires Inv(s) && (header.None? || header == Line(jar, url))
    ensures var a := SendOnce(s, settings, jar, url, header, w);
      && (a.sent.Some? ==>
            (a.sent.value.1 == Line(jar, url) <==>
             InStep(MirrorLine(s, settings, url, w), StoreLine(s, settings, url, w), Line(jar, url))))
      && (a.header.None? || a.header == Line(jar, url))
  {
    SendOnceWire(s, settings, jar, url, header, w);
  }

  /** A request with its own jar and no other header carries its jar's line as long as they are in step. */
  lemma {:induction false} RetriesCarryIff(s: Session, settings: EngineConfig, jar: Jar, url: string,
                                           header: Option<string>, retries: seq<Retry>)
    requires Inv(s) && (header.None? || header == Line(jar, url))
    ensures AllCarry(s, settings, jar, url, header, retries)
            <==> AllInStep(s, settings, jar, url, header, retries)
    decreases |retries|
  {
    if |retries| != 0 {
      var w := retries[0].w;
      var a := SendOnce(s, settings, jar, url, header, w);
      AttemptCarriesIff(s, settings, jar, url, header, w);
      SendOnceKeepsInv(s, settings, jar, url, header, w);
      SettledKeepsInv(a, retries[0].reply);
      RetriesCarryIff(Settled(a, retries[0].reply), settings, jar, url, a.header, retries[1..]);
    }
  }

  lemma SettledAligned(s: Session, settings: EngineConfig, jar: Jar, url: string,
                       header: Option<string>, r: Retry, lost: set<EngineConfig>)
    requires Inv(s) && AlignedBut(s, lost) && !r.reply.Lost?
    ensures AlignedBut(Settled(SendOnce(s, settings, jar, url, header, r.w), r.reply), lost)
  {
    var a := SendOnce(s, settings, jar, url, header, r.w);
    SendOnceKeepsInv(s, settings, jar, url, header, r.w);
    SendOnceAligned(s, settings, jar, url, header, r.w, lost);
    if a.sent.Some? {
      AnswerAligned(a.session, settings.(generation := a.session.generation), r.reply, lost);
    }
  }

  lemma GenerationGrows(s: Session, settings: EngineConfig, jar: Jar, url: string,
                        header: Option<string>, w: World)
    ensures var next := SendOnce(s, settings, jar, url, header, w).session.generation;
      next == s.generation || next == s.generation + 1
  {
  }

  /** A configuration that lost nothing in its generation lost nothing in the next. */
  lemma StillNotLost(generation: nat, next: nat, settings: EngineConfig, lost: set<EngineConfig>)
    requires forall k :: k in lost ==> k.generation <= generation
    requires settings.(generation := generation) !in lost && generation <= next
    ensures settings.(generation := next) !in lost
  {
  }

  lemma {:induction false} StayInStep(s: Session, settings: EngineConfig, jar: Jar, url: string,
                                      header: Option<string>, retries: seq<Retry>,
                                      lost: set<EngineConfig>)
    requires Inv(s) && AlignedBut(s, lost) && settings.(generation := s.generation) !in lost
    requires forall r :: r in retries ==> !r.reply.Lost?
    ensures AllInStep(s, settings, jar, url, header, retries)
    decreases |retries|
  {
    if |retries| != 0 {
      var r := retries[0];
      assert r in retries && forall q :: q in retries[1..] ==> q in retries;
      var a := SendOnce(s, settings, jar, url, header, r.w);
      SameLines(s, settings, url, r.w, lost);
      SendOnceKeepsInv(s, settings, jar, url, header, r.w);
      SettledKeepsInv(a, r.reply);
      SettledAligned(s, settings, jar, url, header, r, lost);
      GenerationGrows(s, settings, jar, url, header, r.w);
      StillNotLost(s.generation, a.session.generation, settings, lost);
      StayInStep(Settled(a, r.reply), settings, jar, url, a.header, retries[1..], lost);
    }
  }

  /**
   * A request with its own jar and no other header carries that jar's line on every attempt, if its
   * engine configuration lost no answer before and no attempt fails after an answer.
   */
  lemma RetriesCarry(max: nat, pid: nat, cookies: Jar, ops: seq<Op>, settings: EngineConfig,
                     jar: Jar, url: string, header: Option<string>, retries: seq<Retry>)
    requires max >= 1 && (header.None? || header == Line(jar, url))
    requires var s := NewSession(max, pid, cookies);
      settings.(generation := Run(s, ops).generation) !in LostKeys(s, ops)
    requires forall r :: r in retries ==> !r.reply.Lost?
    ensures AllCarry(Run(NewSession(max, pid, cookies), ops), settings, jar, url, header, retries)
  {
    var s := NewSession(max, pid, cookies);
    RunKeepsInv(s, ops);
    RunAligned(s, ops, {});
    StayInStep(Run(s, ops), settings, jar, url, header, retries, LostKeys(s, ops));
    RetriesCarryIff(Run(s, ops), settings, jar, url, header, retries);
  }

  /** The retry after an attempt that failed past its head sends the cookie that head set. */
  lemma RetryAfterLostAnswer(max: nat, settings: EngineConfig, url: string, line: string)
    requires max >= 1 && line != ""
    ensures var s, w := NewSession(max, 0, map[]), World(0, true, true);
      !AllCarry(s, settings, map[], url, None, [Retry(w, Lost(Sets(url, line))), Retry(w, Unanswered)])
  {
    var s, w := NewSession(max, 0, map[]), World(0, true, true);
    var retries := [Retry(w, Lost(Sets(url, line))), Retry(w, Unanswered)];
    var first := SendOnce(s, settings, map[], url, None, w);
    FirstSlot(max, settings, w);
    StoreAlone(max, settings, url, line, w);
    assert first == Attempt(SelectSlot(s, settings, w).0, None, Some((0, None)));
    assert retries[1..][0] == Retry(w, Unanswered);
    assert !AllCarry(Settled(first, retries[0].reply), settings, map[], url, None, retries[1..]);
  }

  /**
   * That the request has a jar of its own is needed too. prepare and prepare_request always give
   * it one, but a PreparedRequest assembled by hand has none and uses the session's. Such a request
   * keeps the header of its first attempt, so a response that deletes the cookie and asks for a
   * retry is answered with the deleted cookie.
   */
  lemma StaleHeaderOnRetry(settings: EngineConfig, url: string, line: string, max: nat)
    requires line != "" && max >= 1
    ensures var s, w := NewSession(max, 0, map[url := line]), World(0, true, true);
      var first := SendOnce(s, settings, s.cookies, url, None, w);
      && first.sent == Some((0, Some(line)))
      && SendOnce(Absorb(first.session, 0, (jar: Jar) => map[], map[]), settings, map[], url,
                  first.header, w).sent == Some((0, Some(line)))
  {
    var s, w := NewSession(max, 0, map[url := line]), World(0, true, true);
    var k := settings.(generation := 0);
    var first := SendOnce(s, settings, s.cookies, url, None, w);
    assert Evict(Grow(s.cache, k)) == Grow(s.cache, k);
    assert Get(s.cache, k, 0, true) == (Grow(s.cache, k), Got(0));
    assert Line(s.cookies, url) == Some(line);
    assert first.session.cache == Grow(s.cache, k);
  }
}
