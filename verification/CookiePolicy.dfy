/**
 * bindings/python/chrome_client/_python_impl/sessions.py: the two-store cookie
 * policy. The Core has a cookie store per engine that nobody can read or clear,
 * and its line wins over a Cookie header; the session keeps a mirror of it and
 * asks for an engine of a new generation when the two would disagree.
 *
 * Runs are single-threaded and never use discard_cookies. What a server sets
 * changes every jar that absorbs it in the same way; but the Core's store takes
 * it from every answer on the engine, and the mirror only from a response that
 * reached _finalize.
 */
module CookiePolicy {
  import opened Prelude
  import opened EngineCache

  /** A jar, as far as it matters here: the Cookie line it has for a URL. */
  type Jar = map<string, string>

  /** cookie_header; the line is never empty. */
  function Line(jar: Jar, url: string): Option<string> {
    if url in jar && jar[url] != "" then Some(jar[url]) else None
  }

  /** A slot without an entry in `mirrors` or `stores` has an empty one. */
  datatype Session = Session(
    cache: Cache,
    generation: nat,
    mirrors: map<Slot, Jar>,
    stores: map<Slot, Jar>,
    cookies: Jar)

  function JarOf(jars: map<Slot, Jar>, slot: Slot): Jar {
    if slot in jars then jars[slot] else map[]
  }

  /** What one call of a Python function depends on besides the session. */
  datatype World = World(pid: nat, buildOk: bool, rebuildOk: bool)

  /** _slot for the settings of one request. */
  function SelectSlot(s: Session, settings: EngineConfig, w: World): (Session, GetResult) {
    var (cache, result) := Get(s.cache, settings.(generation := s.generation), w.pid, w.buildOk);
    (s.(cache := cache), result)
  }

  /** _resolve_cookies without discard: the slot to use and the request's Cookie header. */
  function Resolve(s: Session, slot: Slot, config: EngineConfig, jar: Jar, url: string,
                   header: Option<string>, w: World): (Session, GetResult, Option<string>) {
    var desired := Line(jar, url);
    var store := Line(JarOf(s.mirrors, slot), url);
    if store.None? then (s, Got(slot), if desired.Some? then desired else header)
    else if desired == store then (s, Got(slot), None)
    else
      var generation := s.generation + 1;
      var (cache, result) := Get(s.cache, config.(generation := generation), w.pid, w.rebuildOk);
      (s.(cache := cache, generation := generation), result,
       if result.Got? && desired.Some? then desired else header)
  }

  /** The Cookie line Chromium emits: its own store's if there is one, else the header. */
  function Wire(store: Option<string>, header: Option<string>): Option<string> {
    if store.Some? then store else header
  }

  /** `sent` is None when no request left: the session is closed or a build failed. */
  datatype Attempt = Attempt(
    session: Session,
    header: Option<string>,
    sent: Option<(Slot, Option<string>)>)

  /** _send_once up to the request, for an undiscarded cookie policy. */
  function SendOnce(s: Session, settings: EngineConfig, jar: Jar, url: string,
                    header: Option<string>, w: World): Attempt {
    var (selected, found) := SelectSlot(s, settings, w);
    if !found.Got? then Attempt(selected, header, None)
    else
      var config := settings.(generation := s.generation);
      var (resolved, result, line) := Resolve(selected, found.slot, config, jar, url, header, w);
      if !result.Got? then Attempt(resolved, line, None)
      else
        Attempt(resolved, line,
                Some((result.slot, Wire(Line(JarOf(resolved.stores, result.slot), url), line))))
  }

  /** What the Set-Cookie lines of an answer make of a jar. */
  type Accept = Jar -> Jar

  /** The Core's store takes what the answer sets. */
  function Accepted(s: Session, slot: Slot, accept: Accept): Session {
    s.(stores := s.stores[slot := accept(JarOf(s.stores, slot))])
  }

  /** _absorb_cookies after the store has: mirror and session jar follow. */
  function Absorb(s: Session, slot: Slot, accept: Accept, cookies: Jar): Session {
    Accepted(s, slot, accept).(
      mirrors := s.mirrors[slot := accept(JarOf(s.mirrors, slot))], cookies := cookies)
  }

  class PreparedRequest {
    const url: string
    const jar: Option<Jar>
    var cookieHeader: Option<string>

    constructor (url: string, jar: Option<Jar>)
      ensures this.url == url && this.jar == jar && cookieHeader == None
    {
      this.url, this.jar := url, jar;
      cookieHeader := None;
    }
  }

  class CookieSession {
    const engines: SessionCache
    var generation: nat
    var mirrors: map<Slot, Jar>
    ghost var stores: map<Slot, Jar>
    var cookies: Jar

    ghost function View(): Session
      reads this, engines
    {
      Session(engines.View(), generation, mirrors, stores, cookies)
    }

    constructor (engines: SessionCache, cookies: Jar)
      ensures this.engines == engines
      ensures View() == Session(engines.View(), 0, map[], map[], cookies)
    {
      this.engines := engines;
      this.cookies := cookies;
      generation, mirrors, stores := 0, map[], map[];
    }

    /** A structurally identical engine of a new generation. */
    method ReplaceStore(config: EngineConfig, w: World) returns (result: GetResult)
      requires Valid(engines.View())
      modifies this`generation, engines
      ensures generation == old(generation) + 1
      ensures (engines.View(), result) ==
        Get(old(engines.View()), config.(generation := old(generation) + 1), w.pid, w.rebuildOk)
    {
      generation := generation + 1;
      result := engines.Lookup(config.(generation := generation), w.pid, w.rebuildOk);
    }

    method ResolveCookies(slot: Slot, config: EngineConfig, prepared: PreparedRequest, w: World)
      returns (result: GetResult)
      requires Valid(engines.View())
      modifies this`generation, engines, prepared`cookieHeader
      ensures var (next, r, line) :=
          Resolve(old(View()), slot, config,
                  if prepared.jar.Some? then prepared.jar.value else cookies,
                  prepared.url, old(prepared.cookieHeader), w);
        && engines.View() == next.cache && generation == next.generation
        && result == r && prepared.cookieHeader == line
    {
      ghost var before := View();
      var jar := if prepared.jar.Some? then prepared.jar.value else cookies;
      var desired := Line(jar, prepared.url);
      var store := Line(JarOf(mirrors, slot), prepared.url);
      if store.None? {
        if desired.Some? {
          prepared.cookieHeader := desired;
        }
        return Got(slot);
      }
      if desired == store {
        prepared.cookieHeader := None;
        return Got(slot);
      }
      result := ReplaceStore(config, w);
      assert (engines.View(), result) ==
        Get(before.cache, config.(generation := before.generation + 1), w.pid, w.rebuildOk);
      if result.Got? {
        if desired.Some? {
          prepared.cookieHeader := desired;
        }
      }
    }
  }

  // ---- invariant ------------------------------------------------------------------------

  predicate GenerationsOk(slots: map<EngineConfig, Slot>, generation: nat) {
    forall k :: k in slots ==> k.generation <= generation
  }

  predicate JarsOk(s: Session) {
    && (forall slot :: slot in s.mirrors ==> slot < s.cache.built)
    && (forall slot :: slot in s.stores ==> slot < s.cache.built)
  }

  /** No cached key is ahead of the session, and jars exist only for slots already built. */
  predicate Inv(s: Session) {
    Valid(s.cache) && GenerationsOk(s.cache.slots, s.generation) && JarsOk(s)
  }

  /** Every cached slot was cached before, for the same configuration, or is new. */
  predicate Kept(c: Cache, next: Cache) {
    forall k :: k in next.slots ==>
      (k in c.slots && next.slots[k] == c.slots[k]) || next.slots[k] >= c.built
  }

  lemma {:induction false} EvictShrinks(c: Cache)
    ensures Evict(c).slots.Keys <= c.slots.Keys
    ensures Evict(c).built == c.built && Evict(c).closed == c.closed
    ensures forall k :: k in Evict(c).slots ==> Evict(c).slots[k] == c.slots[k]
    decreases |c.order|
  {
    if |c.order| > c.max {
      EvictShrinks(c.(slots := c.slots - {c.order[0]}, order := c.order[1..]));
    }
  }

  /** A get adds no key but its own, builds at most one slot, and a key it did not have gets the new one. */
  lemma GetFacts(c: Cache, k: EngineConfig, pid: nat, ok: bool)
    requires Valid(c)
    ensures var (next, result) := Get(c, k, pid, ok);
      && Valid(next)
      && c.built <= next.built <= c.built + 1 && next.closed == c.closed
      && next.slots.Keys <= c.slots.Keys + {k}
      && (result.Got? ==> result.slot < next.built)
      && (result.Got? && k !in c.slots ==> result.slot == c.built)
  {
    OperationsKeepValid(c, k, pid, ok);
    EvictShrinks(Grow(ResetAfterFork(c, pid), k));
  }

  /** The slot a get returns is cached for its key, and no other slot changes hands. */
  lemma GetKeeps(c: Cache, k: EngineConfig, pid: nat, ok: bool)
    requires Valid(c)
    ensures var (next, result) := Get(c, k, pid, ok);
      && Kept(c, next)
      && (result.Got? ==> k in next.slots && next.slots[k] == result.slot)
  {
    var r := ResetAfterFork(c, pid);
    if k !in r.slots {
      AddValid(r, k);
      EvictShrinks(Grow(r, k));
    }
  }

  /** A bumped generation always yields a slot nobody has used, with an empty mirror. */
  lemma FreshGeneration(s: Session, config: EngineConfig, pid: nat, ok: bool)
    requires Inv(s)
    ensures var bumped := config.(generation := s.generation + 1);
      var (cache, result) := Get(s.cache, bumped, pid, ok);
      && bumped !in s.cache.slots
      && Inv(s.(cache := cache, generation := s.generation + 1))
      && (result.Got? ==> JarOf(s.mirrors, result.slot) == map[] == JarOf(s.stores, result.slot))
  {
    GetFacts(s.cache, config.(generation := s.generation + 1), pid, ok);
  }

  lemma SelectKeepsInv(s: Session, settings: EngineConfig, w: World)
    requires Inv(s)
    ensures Inv(SelectSlot(s, settings, w).0)
    ensures var (next, found) := SelectSlot(s, settings, w);
      && next.mirrors == s.mirrors && next.stores == s.stores && next.generation == s.generation
      && (found.Got? ==> found.slot < next.cache.built)
  {
    GetFacts(s.cache, settings.(generation := s.generation), w.pid, w.buildOk);
  }
}
