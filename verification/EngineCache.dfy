/**
 * bindings/python/chrome_client/_python_impl/engine.py: the per-session cache of
 * Core engines.
 */
module EngineCache {
  import opened Prelude

  type Setting = Option<string>

  /** Equality and hash of an EngineConfig are those of this tuple. */
  datatype EngineConfig = EngineConfig(
    impersonate: Setting,
    proxy: Setting,
    verify: Flag,
    caPem: Setting,
    userAgent: Setting,
    acceptLanguage: Setting,
    proxyUsername: Setting,
    proxyPassword: Setting,
    httpVersion: Setting,
    cache: Flag,
    profileNamespace: Setting,
    generation: nat)

  /** A slot is known by the number of slots built before it. */
  type Slot = nat

  datatype Cache = Cache(
    slots: map<EngineConfig, Slot>,
    order: seq<EngineConfig>,
    max: nat,
    closed: Flag,
    pid: nat,
    built: nat)

  datatype GetResult = Got(slot: Slot) | SessionClosed | BuildFailed

  function NewCache(max: nat, pid: nat): Cache { Cache(map[], [], max, No, pid, 0) }

  /** list.remove: the first occurrence goes. */
  function Remove(order: seq<EngineConfig>, k: EngineConfig): seq<EngineConfig> {
    if order == [] then []
    else if order[0] == k then order[1..]
    else [order[0]] + Remove(order[1..], k)
  }

  function Empty(c: Cache): Cache { c.(slots := map[], order := []) }

  function ResetAfterFork(c: Cache, pid: nat): Cache {
    if pid != c.pid then Empty(c).(pid := pid) else c
  }

  /** The eviction loop. */
  function Evict(c: Cache): Cache
    decreases |c.order|
  {
    if |c.order| <= c.max then c
    else Evict(c.(slots := c.slots - {c.order[0]}, order := c.order[1..]))
  }

  function Touch(c: Cache, k: EngineConfig): Cache {
    c.(order := Remove(c.order, k) + [k])
  }

  /** Add before its eviction loop. */
  function Grow(c: Cache, k: EngineConfig): Cache {
    c.(slots := c.slots[k := c.built], order := c.order + [k], built := c.built + 1)
  }

  function Add(c: Cache, k: EngineConfig): Cache {
    Evict(Grow(c, k))
  }

  /** get in process `pid`; `buildOk` is false when the Core rejects the configuration. */
  function Get(c: Cache, k: EngineConfig, pid: nat, buildOk: bool): (Cache, GetResult) {
    if c.closed.Yes? then (c, SessionClosed)
    else
      var r := ResetAfterFork(c, pid);
      if k in r.slots then (Touch(r, k), Got(r.slots[k]))
      else if !buildOk then (r, BuildFailed)
      else (Add(r, k), Got(r.built))
  }

  function Discard(c: Cache, k: EngineConfig): Cache {
    if k in c.slots then c.(slots := c.slots - {k}, order := Remove(c.order, k)) else c
  }

  function Close(c: Cache): Cache { Empty(c).(closed := Yes) }

  // ---- the invariant of every operation ----------------------------------------------

  predicate NoDuplicates(order: seq<EngineConfig>) {
    forall i, j :: 0 <= i < j < |order| ==> order[i] != order[j]
  }

  function Keys(order: seq<EngineConfig>): set<EngineConfig> {
    set k | k in order
  }

  predicate Consistent(c: Cache) {
    && c.max >= 1
    && NoDuplicates(c.order)
    && (forall k :: k in c.order ==> k in c.slots)
    && (forall k :: k in c.slots ==> k in c.order)
    && (forall k :: k in c.slots ==> c.slots[k] < c.built)
    && (forall k, l :: k in c.slots && l in c.slots && c.slots[k] == c.slots[l] ==> k == l)
  }

  predicate Valid(c: Cache) { Consistent(c) && |c.order| <= c.max }

  /** A list of distinct keys without the one at position i. */
  lemma WithoutOne(order: seq<EngineConfig>, i: nat, rest: seq<EngineConfig>)
    requires NoDuplicates(order) && i < |order| && rest == order[..i] + order[i + 1..]
    ensures NoDuplicates(rest)
    ensures forall l :: l in rest <==> l in order && l != order[i]
  {
    assert forall j :: 0 <= j < i ==> rest[j] == order[j];
    assert forall j :: i <= j < |rest| ==> rest[j] == order[j + 1];
    assert forall j :: i < j < |order| ==> order[j] == rest[j - 1];
  }

  lemma {:induction false} RemoveIndex(order: seq<EngineConfig>, k: EngineConfig) returns (i: nat)
    requires k in order
    ensures i < |order| && order[i] == k && Remove(order, k) == order[..i] + order[i + 1..]
  {
    if order[0] == k {
      i := 0;
    } else {
      var j := RemoveIndex(order[1..], k);
      i := j + 1;
      assert order[..i] == [order[0]] + order[1..][..j];
      assert order[i + 1..] == order[1..][j + 1..];
    }
  }

  /** Where the removed key stood. */
  lemma RemoveAt(order: seq<EngineConfig>, k: EngineConfig) returns (i: nat)
    requires k in order && NoDuplicates(order)
    ensures i < |order| && order[i] == k
    ensures Remove(order, k) == order[..i] + order[i + 1..]
    ensures NoDuplicates(Remove(order, k))
    ensures forall l :: l in Remove(order, k) <==> l in order && l != k
  {
    i := RemoveIndex(order, k);
    WithoutOne(order, i, Remove(order, k));
  }

  lemma TouchValid(c: Cache, k: EngineConfig)
    requires Valid(c) && k in c.slots
    ensures Valid(Touch(c, k))
  {
    var _ := RemoveAt(c.order, k);
  }

  lemma GrowConsistent(c: Cache, k: EngineConfig)
    requires Valid(c) && k !in c.slots
    ensures Consistent(Grow(c, k))
  {
  }

  /** One round of the eviction loop. */
  lemma CutConsistent(c: Cache)
    requires Consistent(c) && c.order != []
    ensures Consistent(c.(slots := c.slots - {c.order[0]}, order := c.order[1..]))
  {
    assert forall l :: l in c.order[1..] <==> l in c.order && l != c.order[0];
  }

  lemma AddValid(c: Cache, k: EngineConfig)
    requires Valid(c) && k !in c.slots
    ensures Valid(Add(c, k))
    ensures Add(c, k).order ==
      if |c.order| < c.max then c.order + [k] else c.order[1..] + [k]
    ensures forall l :: l in Add(c, k).order && l != k ==>
      l in c.slots && Add(c, k).slots[l] == c.slots[l]
    ensures k in Add(c, k).slots && Add(c, k).slots[k] == c.built
  {
    GrowConsistent(c, k);
    var grown := Grow(c, k);
    if |c.order| == c.max {
      CutConsistent(grown);
      assert grown.order[1..] == c.order[1..] + [k];
      var cut := grown.(slots := grown.slots - {grown.order[0]}, order := grown.order[1..]);
      assert |cut.order| == cut.max;
      assert Evict(cut) == cut;
    }
  }

  /** Every operation keeps the keys of both fields equal, without duplicates, and bounded. */
  lemma OperationsKeepValid(c: Cache, k: EngineConfig, pid: nat, buildOk: bool)
    requires Valid(c)
    ensures Valid(Get(c, k, pid, buildOk).0) && Valid(Discard(c, k))
    ensures Valid(Empty(c)) && Valid(Close(c)) && Valid(ResetAfterFork(c, pid))
  {
    var r := ResetAfterFork(c, pid);
    if k in r.slots { TouchValid(r, k); } else { AddValid(r, k); }
    if k in c.slots { var _ := RemoveAt(c.order, k); }
  }

  class SessionCache {
    var slots: map<EngineConfig, Slot>
    var order: seq<EngineConfig>
    const max: nat
    var closed: bool
    var pid: nat
    var built: nat

    function View(): Cache
      reads this
    {
      Cache(slots, order, max, ToFlag(closed), pid, built)
    }

    constructor (maxEngines: int, pid: nat)
      ensures View() == NewCache(if maxEngines < 1 then 1 else maxEngines, pid) && Valid(View())
    {
      this.max := if maxEngines < 1 then 1 else maxEngines;
      this.pid := pid;
      slots, order, closed, built := map[], [], false, 0;
    }

    method Lookup(k: EngineConfig, current: nat, buildOk: bool) returns (result: GetResult)
      requires Valid(View())
      modifies this
      ensures (View(), result) == Get(old(View()), k, current, buildOk)
      ensures Valid(View())
    {
      assert Valid(Get(View(), k, current, buildOk).0) by {
        OperationsKeepValid(View(), k, current, buildOk);
      }
      if closed {
        return SessionClosed;
      }
      if current != pid {
        slots, order := map[], [];
        pid := current;
      }
      if k in slots {
        result := Got(slots[k]);
        order := Remove(order, k);
        order := order + [k];
        return;
      }
      if !buildOk {
        return BuildFailed;
      }
      result := Got(built);
      slots := slots[k := built];
      built := built + 1;
      order := order + [k];
      EvictOldest();
    }

    method EvictOldest()
      modifies this
      ensures View() == Evict(old(View()))
    {
      while |order| > max
        invariant Evict(View()) == Evict(old(View()))
        decreases |order|
      {
        var evicted := order[0];
        order := order[1..];
        slots := slots - {evicted};
      }
    }

    method Drop(k: EngineConfig)
      requires Valid(View())
      modifies this
      ensures View() == Discard(old(View()), k) && Valid(View())
    {
      OperationsKeepValid(View(), k, pid, true);
      if k in slots {
        slots := slots - {k};
        order := Remove(order, k);
      }
    }

    method Clear()
      requires Valid(View())
      modifies this
      ensures View() == Empty(old(View())) && Valid(View())
    {
      slots, order := map[], [];
    }

    method CloseAll()
      requires Valid(View())
      modifies this
      ensures View() == Close(old(View())) && Valid(View())
    {
      closed := true;
      slots, order := map[], [];
    }
  }
}
