/**
 * What "least recently used" means for the engine cache, over runs that mix all
 * its operations: gets in any process, discards, clears and the final close.
 */
module EngineLru {
  import opened Prelude
  import opened EngineCache

  /** One call; `pid` is the calling process and `buildOk` whether the Core would accept the configuration. */
  datatype Op =
    | GetOp(key: EngineConfig, pid: nat, buildOk: bool)
    | DiscardOp(key: EngineConfig)
    | ClearOp
    | CloseOp

  function Do(c: Cache, op: Op): Cache {
    match op
    case GetOp(k, pid, ok) => Get(c, k, pid, ok).0
    case DiscardOp(k) => Discard(c, k)
    case ClearOp => Empty(c)
    case CloseOp => Close(c)
  }

  function Run(c: Cache, ops: seq<Op>): Cache
    decreases |ops|
  {
    if ops == [] then c
    else
      var last := |ops| - 1;
      Do(Run(c, ops[..last]), ops[last])
  }

  /** What a call means for the cached configurations. */
  datatype Note = Used(key: EngineConfig) | Dropped(key: EngineConfig) | Emptied

  /**
   * The configurations used since the last use of `k` and not discarded since, or
   * None if there were ever `max` of them, or `k` itself went or was never used.
   */
  function Rivals(past: seq<Note>, k: EngineConfig, max: nat): Option<set<EngineConfig>> {
    if past == [] then None
    else
      var before := Rivals(past[..|past| - 1], k, max);
      match past[|past| - 1]
      case Emptied => None
      case Dropped(l) =>
        if l == k || before.None? then None else Some(before.value - {l})
      case Used(l) =>
        if l == k then Some({})
        else if before.None? || |before.value + {l}| >= max then None
        else Some(before.value + {l})
  }

  lemma RivalsGrow(past: seq<Note>, note: Note, k: EngineConfig, max: nat)
    ensures var before, after := Rivals(past, k, max), Rivals(past + [note], k, max);
      match note
      case Emptied => after == None
      case Dropped(l) => after == if l == k || before.None? then None else Some(before.value - {l})
      case Used(l) =>
        after == if l == k then Some({})
                 else if before.None? || |before.value + {l}| >= max then None
                 else Some(before.value + {l})
  {
    assert (past + [note])[..|past|] == past;
  }

  // ---- the reference ------------------------------------------------------------------

  /**
   * A record of the calls alone: what they meant, the process of the last get that
   * found the cache open, and for each configuration the slot last built for it.
   */
  datatype Ledger = Ledger(
    past: seq<Note>,
    pid: nat,
    closed: Flag,
    made: map<EngineConfig, Slot>,
    built: nat)

  /** A get in another process than the last one finds nothing. */
  function Arrive(l: Ledger, pid: nat): Ledger {
    if pid == l.pid then l else l.(past := l.past + [Emptied], pid := pid)
  }

  predicate Live(l: Ledger, k: EngineConfig, max: nat) {
    k in l.made && Rivals(l.past, k, max).Some?
  }

  /** What a get must return. */
  function Answer(l: Ledger, k: EngineConfig, pid: nat, buildOk: bool, max: nat): GetResult {
    if l.closed.Yes? then SessionClosed
    else
      var here := Arrive(l, pid);
      if Live(here, k, max) then Got(here.made[k])
      else if buildOk then Got(here.built)
      else BuildFailed
  }

  function Enter(l: Ledger, op: Op, max: nat): Ledger {
    match op
    case GetOp(k, pid, ok) =>
      if l.closed.Yes? then l
      else
        var here := Arrive(l, pid);
        if Live(here, k, max) then here.(past := here.past + [Used(k)])
        else if ok then
          here.(past := here.past + [Used(k)], made := here.made[k := here.built],
                built := here.built + 1)
        else here
    case DiscardOp(k) => l.(past := l.past + [Dropped(k)])
    case ClearOp => l.(past := l.past + [Emptied])
    case CloseOp => l.(past := l.past + [Emptied], closed := Yes)
  }

  /** The record of a cache made in process `pid`. */
  function LedgerOf(pid: nat, ops: seq<Op>, max: nat): Ledger
    decreases |ops|
  {
    if ops == [] then Ledger([], pid, No, map[], 0)
    else
      var last := |ops| - 1;
      Enter(LedgerOf(pid, ops[..last], max), ops[last], max)
  }

  // ---- the order is the reference ---------------------------------------------------------

  lemma {:induction false} KeysSize(order: seq<EngineConfig>)
    requires NoDuplicates(order)
    ensures |Keys(order)| == |order|
  {
    if order != [] {
      KeysSize(order[1..]);
      assert Keys(order) == {order[0]} + Keys(order[1..]);
    }
  }

  lemma {:induction false} SubsetSize(a: set<EngineConfig>, b: set<EngineConfig>)
    requires a <= b
    ensures |a| <= |b|
  {
    if a != {} {
      var x :| x in a;
      SubsetSize(a - {x}, b - {x});
    }
  }

  /** The keys after position i are exactly the rivals of the key there. */
  predicate RankedAt(order: seq<EngineConfig>, max: nat, past: seq<Note>, i: nat)
    requires i < |order|
  {
    Rivals(past, order[i], max) == Some(Keys(order[i + 1..]))
  }

  predicate Ranked(order: seq<EngineConfig>, max: nat, past: seq<Note>) {
    forall i :: 0 <= i < |order| ==> RankedAt(order, max, past, i)
  }

  ghost predicate Missed(order: seq<EngineConfig>, max: nat, past: seq<Note>) {
    forall k :: k !in order ==> Rivals(past, k, max).None?
  }

  ghost predicate LruInv(c: Cache, past: seq<Note>) {
    Valid(c) && Ranked(c.order, c.max, past) && Missed(c.order, c.max, past)
  }

  function Without(order: seq<EngineConfig>, j: nat): seq<EngineConfig>
    requires j < |order|
  {
    order[..j] + order[j + 1..]
  }

  function MovedLast(order: seq<EngineConfig>, j: nat): seq<EngineConfig>
    requires j < |order|
  {
    Without(order, j) + [order[j]]
  }

  /** A use of `k` behind position i adds `k` to the rivals there. */
  lemma UsedBehind(order: seq<EngineConfig>, i: nat, next: seq<EngineConfig>, i': nat, max: nat,
                   past: seq<Note>, k: EngineConfig)
    requires i < |order| && i' < |next| && next[i'] == order[i] != k
    requires RankedAt(order, max, past, i) && NoDuplicates(next) && |next| <= max
    requires Keys(next[i' + 1..]) == Keys(order[i + 1..]) + {k}
    ensures RankedAt(next, max, past + [Used(k)], i')
  {
    RivalsGrow(past, Used(k), order[i], max);
    KeysSize(next[i' + 1..]);
  }

  lemma UsedLast(next: seq<EngineConfig>, max: nat, past: seq<Note>, k: EngineConfig)
    requires next != [] && next[|next| - 1] == k
    ensures RankedAt(next, max, past + [Used(k)], |next| - 1)
  {
    RivalsGrow(past, Used(k), k, max);
    assert Keys(next[|next|..]) == {};
  }

  /** Moving the key at j behind the one at i, where it already was or was not. */
  lemma KeysMoved(order: seq<EngineConfig>, j: nat, i: nat)
    requires j < |order| && i < |order| - 1
    ensures i < j ==> Keys(MovedLast(order, j)[i + 1..]) == Keys(order[i + 1..]) + {order[j]}
    ensures i >= j ==> Keys(MovedLast(order, j)[i + 1..]) == Keys(order[i + 2..]) + {order[j]}
  {
    var k, next := order[j], MovedLast(order, j);
    if i < j {
      var before, after := order[i + 1..j], order[j + 1..];
      assert next[i + 1..] == before + after + [k];
      assert order[i + 1..] == before + [k] + after;
    } else {
      assert next[i + 1..] == order[i + 2..] + [k];
    }
  }

  lemma TouchAt(order: seq<EngineConfig>, j: nat, max: nat, past: seq<Note>, i: nat)
    requires NoDuplicates(order) && Ranked(order, max, past) && |order| <= max
    requires j < |order| && i < |order| && NoDuplicates(MovedLast(order, j))
    ensures RankedAt(MovedLast(order, j), max, past + [Used(order[j])], i)
  {
    var k, next := order[j], MovedLast(order, j);
    if i + 1 == |order| {
      UsedLast(next, max, past, k);
    } else {
      var from := if i < j then i else i + 1;
      KeysMoved(order, j, i);
      assert RankedAt(order, max, past, from);
      assert next[i] == order[from] != k;
      UsedBehind(order, from, next, i, max, past, k);
    }
  }

  /** A configuration that was not cached stays so when another one is used. */
  lemma MissedUse(order: seq<EngineConfig>, max: nat, past: seq<Note>, k: EngineConfig,
                  next: seq<EngineConfig>)
    requires Missed(order, max, past) && k in next
    requires forall l :: l in order && l !in next ==> Rivals(past + [Used(k)], l, max).None?
    ensures Missed(next, max, past + [Used(k)])
  {
    forall l | l !in next ensures Rivals(past + [Used(k)], l, max).None? {
      RivalsGrow(past, Used(k), l, max);
    }
  }

  lemma LruTouch(c: Cache, past: seq<Note>, k: EngineConfig)
    requires LruInv(c, past) && k in c.slots
    ensures LruInv(Touch(c, k), past + [Used(k)])
  {
    var j := RemoveAt(c.order, k);
    var next := MovedLast(c.order, j);
    TouchValid(c, k);
    assert Touch(c, k).order == next;
    forall i | 0 <= i < |next| ensures RankedAt(next, c.max, past + [Used(k)], i) {
      TouchAt(c.order, j, c.max, past, i);
    }
    MissedUse(c.order, c.max, past, k, next);
  }

  /** A miss with room. */
  lemma RankedAppend(order: seq<EngineConfig>, max: nat, past: seq<Note>, k: EngineConfig)
    requires Ranked(order, max, past) && NoDuplicates(order + [k]) && |order| < max
    ensures Ranked(order + [k], max, past + [Used(k)])
  {
    var next := order + [k];
    forall i | 0 <= i < |next| ensures RankedAt(next, max, past + [Used(k)], i) {
      if i < |order| {
        assert RankedAt(order, max, past, i);
        assert next[i + 1..] == order[i + 1..] + [k];
        UsedBehind(order, i, next, i, max, past, k);
      } else {
        UsedLast(next, max, past, k);
      }
    }
  }

  lemma ShiftAt(order: seq<EngineConfig>, max: nat, past: seq<Note>, k: EngineConfig, i: nat)
    requires Ranked(order, max, past) && order != [] && NoDuplicates(order[1..] + [k])
    requires |order| == max && i < |order|
    ensures RankedAt(order[1..] + [k], max, past + [Used(k)], i)
  {
    var next := order[1..] + [k];
    if i + 1 < |order| {
      assert RankedAt(order, max, past, i + 1);
      assert next[i] == order[i + 1] && next[|next| - 1] == k;
      assert next[i + 1..] == order[i + 2..] + [k];
      UsedBehind(order, i + 1, next, i, max, past, k);
    } else {
      UsedLast(next, max, past, k);
    }
  }

  /** The oldest has as many rivals as there is room. */
  lemma OldestGoes(order: seq<EngineConfig>, max: nat, past: seq<Note>, k: EngineConfig)
    requires Ranked(order, max, past) && order != [] && NoDuplicates(order[1..] + [k])
    requires |order| == max && k != order[0]
    ensures Rivals(past + [Used(k)], order[0], max).None?
  {
    var next := order[1..] + [k];
    assert RankedAt(order, max, past, 0);
    KeysSize(next);
    assert Keys(next) == Keys(order[1..]) + {k};
    RivalsGrow(past, Used(k), order[0], max);
  }

  /** A miss that pushes out the oldest. */
  lemma RankedShift(order: seq<EngineConfig>, max: nat, past: seq<Note>, k: EngineConfig)
    requires Ranked(order, max, past) && order != [] && NoDuplicates(order[1..] + [k])
    requires |order| == max
    ensures Ranked(order[1..] + [k], max, past + [Used(k)])
  {
    forall i | 0 <= i < |order| ensures RankedAt(order[1..] + [k], max, past + [Used(k)], i) {
      ShiftAt(order, max, past, k, i);
    }
  }

  /** The order after a miss, and what it means for the key pushed out. */
  lemma RankedAdd(order: seq<EngineConfig>, max: nat, past: seq<Note>, k: EngineConfig,
                  next: seq<EngineConfig>)
    requires Ranked(order, max, past) && NoDuplicates(next) && k !in order && 1 <= max
    requires |order| <= max
    requires next == if |order| < max then order + [k] else order[1..] + [k]
    ensures Ranked(next, max, past + [Used(k)])
    ensures forall l :: l in order && l !in next ==> Rivals(past + [Used(k)], l, max).None?
  {
    if |order| < max {
      RankedAppend(order, max, past, k);
    } else {
      RankedShift(order, max, past, k);
      OldestGoes(order, max, past, k);
      assert order == [order[0]] + order[1..];
    }
  }

  lemma LruAdd(c: Cache, past: seq<Note>, k: EngineConfig)
    requires LruInv(c, past) && k !in c.slots
    ensures LruInv(Add(c, k), past + [Used(k)])
  {
    AddValid(c, k);
    EvictKeeps(Grow(c, k));
    RankedAdd(c.order, c.max, past, k, Add(c, k).order);
    MissedUse(c.order, c.max, past, k, Add(c, k).order);
  }

  lemma {:induction false} EvictKeeps(c: Cache)
    ensures Evict(c).max == c.max && Evict(c).closed == c.closed && Evict(c).pid == c.pid
    decreases |c.order|
  {
    if |c.order| > c.max {
      EvictKeeps(c.(slots := c.slots - {c.order[0]}, order := c.order[1..]));
    }
  }

  /** The keys behind position i without the one at j behind it. */
  lemma KeysWithout(order: seq<EngineConfig>, i: nat, j: nat)
    requires NoDuplicates(order) && i < j < |order|
    ensures Keys(Without(order, j)[i + 1..]) == Keys(order[i + 1..]) - {order[j]}
  {
    var before, after := order[i + 1..j], order[j + 1..];
    assert order[i + 1..] == before + [order[j]] + after;
    assert Without(order, j)[i + 1..] == before + after;
    assert order[j] !in before && order[j] !in after;
  }

  /** A discard takes its key out of every set of rivals. */
  lemma DroppedBehind(order: seq<EngineConfig>, i: nat, next: seq<EngineConfig>, i': nat, max: nat,
                      past: seq<Note>, k: EngineConfig)
    requires i < |order| && i' < |next| && next[i'] == order[i] != k
    requires RankedAt(order, max, past, i)
    requires Keys(next[i' + 1..]) == Keys(order[i + 1..]) - {k}
    ensures RankedAt(next, max, past + [Dropped(k)], i')
  {
    RivalsGrow(past, Dropped(k), order[i], max);
  }

  lemma DropAt(order: seq<EngineConfig>, j: nat, max: nat, past: seq<Note>, i: nat)
    requires NoDuplicates(order) && Ranked(order, max, past) && j < |order| && i < |order| - 1
    ensures RankedAt(Without(order, j), max, past + [Dropped(order[j])], i)
  {
    var k, next := order[j], Without(order, j);
    if i < j {
      KeysWithout(order, i, j);
      assert RankedAt(order, max, past, i);
      DroppedBehind(order, i, next, i, max, past, k);
    } else {
      assert next[i + 1..] == order[i + 2..];
      assert k !in order[i + 2..];
      assert Keys(order[i + 2..]) - {k} == Keys(order[i + 2..]);
      assert RankedAt(order, max, past, i + 1);
      DroppedBehind(order, i + 1, next, i, max, past, k);
    }
  }

  lemma RankedDrop(order: seq<EngineConfig>, j: nat, max: nat, past: seq<Note>)
    requires NoDuplicates(order) && Ranked(order, max, past) && j < |order|
    ensures Ranked(Without(order, j), max, past + [Dropped(order[j])])
  {
    var next := Without(order, j);
    forall i | 0 <= i < |next| ensures RankedAt(next, max, past + [Dropped(order[j])], i) {
      DropAt(order, j, max, past, i);
    }
  }

  /** A discard of a configuration that is not cached changes nothing. */
  lemma RankedSame(order: seq<EngineConfig>, max: nat, past: seq<Note>, k: EngineConfig)
    requires Ranked(order, max, past) && k !in order
    ensures Ranked(order, max, past + [Dropped(k)])
  {
    forall i | 0 <= i < |order| ensures RankedAt(order, max, past + [Dropped(k)], i) {
      assert RankedAt(order, max, past, i);
      assert Keys(order[i + 1..]) - {k} == Keys(order[i + 1..]);
      DroppedBehind(order, i, order, i, max, past, k);
    }
  }

  lemma MissedDrop(order: seq<EngineConfig>, max: nat, past: seq<Note>, k: EngineConfig,
                   next: seq<EngineConfig>)
    requires Missed(order, max, past)
    requires forall l :: l in order && l != k ==> l in next
    ensures Missed(next, max, past + [Dropped(k)])
  {
    forall l | l !in next ensures Rivals(past + [Dropped(k)], l, max).None? {
      RivalsGrow(past, Dropped(k), l, max);
    }
  }

  lemma LruDiscard(c: Cache, past: seq<Note>, k: EngineConfig)
    requires LruInv(c, past)
    ensures LruInv(Discard(c, k), past + [Dropped(k)])
  {
    OperationsKeepValid(c, k, c.pid, true);
    if k in c.slots {
      var j := RemoveAt(c.order, k);
      assert Discard(c, k).order == Without(c.order, j);
      RankedDrop(c.order, j, c.max, past);
    } else {
      RankedSame(c.order, c.max, past, k);
    }
    MissedDrop(c.order, c.max, past, k, Discard(c, k).order);
  }

  lemma LruEmptied(c: Cache, past: seq<Note>)
    requires Valid(c) && c.order == []
    ensures LruInv(c, past + [Emptied])
  {
    forall l ensures Rivals(past + [Emptied], l, c.max).None? {
      RivalsGrow(past, Emptied, l, c.max);
    }
  }

  /** The cache agrees with the record. */
  ghost predicate Refines(c: Cache, l: Ledger) {
    && LruInv(c, l.past)
    && c.pid == l.pid && c.closed == l.closed && c.built == l.built
    && (forall k :: k in c.slots ==> k in l.made && c.slots[k] == l.made[k])
  }

  /** A configuration is cached exactly if it has live rivals only. */
  lemma CachedIffLive(c: Cache, l: Ledger, k: EngineConfig)
    requires Refines(c, l)
    ensures k in c.slots <==> Live(l, k, c.max)
    ensures k in c.order <==> Rivals(l.past, k, c.max).Some?
  {
    if k in c.order {
      var i :| 0 <= i < |c.order| && c.order[i] == k;
      assert RankedAt(c.order, c.max, l.past, i);
    }
  }

  lemma ArriveStep(c: Cache, l: Ledger, pid: nat)
    requires Refines(c, l)
    ensures Refines(ResetAfterFork(c, pid), Arrive(l, pid))
    ensures ResetAfterFork(c, pid).max == c.max
  {
    if pid != c.pid { LruEmptied(ResetAfterFork(c, pid), l.past); }
  }

  lemma GetStep(c: Cache, l: Ledger, k: EngineConfig, pid: nat, ok: bool)
    requires Refines(c, l)
    ensures Refines(Get(c, k, pid, ok).0, Enter(l, GetOp(k, pid, ok), c.max))
    ensures Get(c, k, pid, ok).0.max == c.max
    ensures Get(c, k, pid, ok).1 == Answer(l, k, pid, ok, c.max)
  {
    if c.closed.No? {
      var r, here := ResetAfterFork(c, pid), Arrive(l, pid);
      ArriveStep(c, l, pid);
      CachedIffLive(r, here, k);
      if k in r.slots {
        LruTouch(r, here.past, k);
      } else if ok {
        LruAdd(r, here.past, k);
        AddValid(r, k);
        EvictKeeps(Grow(r, k));
      }
    }
  }

  lemma RefinesStep(c: Cache, l: Ledger, op: Op)
    requires Refines(c, l)
    ensures Refines(Do(c, op), Enter(l, op, c.max)) && Do(c, op).max == c.max
  {
    match op
    case GetOp(k, pid, ok) => GetStep(c, l, k, pid, ok);
    case DiscardOp(k) => LruDiscard(c, l.past, k);
    case ClearOp => LruEmptied(Empty(c), l.past);
    case CloseOp => LruEmptied(Close(c), l.past);
  }

  lemma {:induction false} RefinesRun(pid: nat, max: nat, ops: seq<Op>)
    requires max >= 1
    ensures var c := Run(NewCache(max, pid), ops);
      Refines(c, LedgerOf(pid, ops, max)) && c.max == max
    decreases |ops|
  {
    if ops == [] {
      assert Missed([], max, []);
    } else {
      var last := |ops| - 1;
      RefinesRun(pid, max, ops[..last]);
      RefinesStep(Run(NewCache(max, pid), ops[..last]), LedgerOf(pid, ops[..last], max), ops[last]);
    }
  }

  /**
   * Least recently used, for every run of calls on a new cache: a configuration is
   * cached exactly if it was used, has not been discarded or cleared away or left
   * behind by a fork since, and never had `max` live others used after it; and the
   * order is by last use, since behind each key stand exactly its rivals.
   */
  lemma RefinesLru(pid: nat, max: nat, ops: seq<Op>)
    requires max >= 1
    ensures var order, past := Run(NewCache(max, pid), ops).order, LedgerOf(pid, ops, max).past;
      && (forall k :: k in order <==> Rivals(past, k, max).Some?)
      && (forall i :: 0 <= i < |order| ==> Rivals(past, order[i], max) == Some(Keys(order[i + 1..])))
  {
    RefinesRun(pid, max, ops);
    var c, l := Run(NewCache(max, pid), ops), LedgerOf(pid, ops, max);
    forall k ensures k in c.order <==> Rivals(l.past, k, max).Some? { CachedIffLive(c, l, k); }
    forall i | 0 <= i < |c.order|
      ensures Rivals(l.past, c.order[i], max) == Some(Keys(c.order[i + 1..]))
    {
      assert RankedAt(c.order, max, l.past, i);
    }
  }

  /**
   * And every get returns what the calls before it say: the slot last built for a
   * live configuration, in the same process as it was built; a slot never returned
   * before for any other, or the failure to build it; and SessionClosed after a close.
   */
  lemma GetsAnswer(pid: nat, max: nat, ops: seq<Op>, k: EngineConfig, here: nat, ok: bool)
    requires max >= 1
    ensures var c, l := Run(NewCache(max, pid), ops), LedgerOf(pid, ops, max);
      && Get(c, k, here, ok).1 == Answer(l, k, here, ok, max)
      && (l.closed.Yes? <==> CloseOp in ops)
      && (forall other :: other in l.made ==> l.made[other] < l.built)
  {
    RefinesRun(pid, max, ops);
    GetStep(Run(NewCache(max, pid), ops), LedgerOf(pid, ops, max), k, here, ok);
    LedgerFacts(pid, ops, max);
  }

  lemma {:induction false} LedgerFacts(pid: nat, ops: seq<Op>, max: nat)
    ensures var l := LedgerOf(pid, ops, max);
      && (l.closed.Yes? <==> CloseOp in ops)
      && (forall k :: k in l.made ==> l.made[k] < l.built)
    decreases |ops|
  {
    if ops != [] {
      var last := |ops| - 1;
      LedgerFacts(pid, ops[..last], max);
      assert ops == ops[..last] + [ops[last]];
    }
  }

  // ---- gets only ----------------------------------------------------------------------------

  /** The distinct configurations used after the last use of `k`. */
  function Since(uses: seq<Note>, k: EngineConfig): set<EngineConfig>
    requires Used(k) in uses && forall n :: n in uses ==> n.Used?
  {
    var last := uses[|uses| - 1];
    if last.key == k then {} else Since(uses[..|uses| - 1], k) + {last.key}
  }

  /** Without discards the rivals are all configurations used since, while they are few enough. */
  lemma {:induction false} RivalsAreSince(uses: seq<Note>, k: EngineConfig, max: nat)
    requires max >= 1 && forall n :: n in uses ==> n.Used?
    ensures Rivals(uses, k, max) ==
      if Used(k) in uses && |Since(uses, k)| < max then Some(Since(uses, k)) else None
  {
    if uses != [] {
      var n := |uses| - 1;
      RivalsAreSince(uses[..n], k, max);
      if uses[n].key != k && Used(k) in uses {
        assert Used(k) in uses[..n];
        SubsetSize(Since(uses[..n], k), Since(uses, k));
      }
    }
  }

  lemma {:induction false} OnlyUses(pid: nat, gets: seq<Op>, max: nat)
    requires forall op :: op in gets ==> op.GetOp? && op.pid == pid
    ensures LedgerOf(pid, gets, max).pid == pid
    ensures forall n :: n in LedgerOf(pid, gets, max).past ==> n.Used?
    decreases |gets|
  {
    if gets != [] { OnlyUses(pid, gets[..|gets| - 1], max); }
  }

  /**
   * After gets in one process alone, a configuration is cached exactly if fewer
   * than `max` distinct others were used since its last use.
   */
  lemma CachedIffRecent(pid: nat, max: nat, gets: seq<Op>, k: EngineConfig)
    requires max >= 1
    requires forall op :: op in gets ==> op.GetOp? && op.pid == pid
    ensures var past := LedgerOf(pid, gets, max).past;
      && (forall n :: n in past ==> n.Used?)
      && (k in Run(NewCache(max, pid), gets).order <==>
            Used(k) in past && |Since(past, k)| < max)
  {
    OnlyUses(pid, gets, max);
    RefinesLru(pid, max, gets);
    RivalsAreSince(LedgerOf(pid, gets, max).past, k, max);
  }

  // ---- the same slot ------------------------------------------------------------------

  function GotKeys(ops: seq<Op>): set<EngineConfig> {
    set op | op in ops && op.GetOp? :: op.key
  }

  /** Nothing in these calls takes `k` away at once. */
  predicate Spares(ops: seq<Op>, k: EngineConfig, pid: nat) {
    forall op :: op in ops ==>
      match op
      case GetOp(_, p, _) => p == pid
      case DiscardOp(l) => l != k
      case _ => false
  }

  /** `k` stands at position i and the keys behind it are all among `others`. */
  predicate Behind(order: seq<EngineConfig>, k: EngineConfig, i: nat, others: set<EngineConfig>) {
    i < |order| && order[i] == k && Keys(order[i + 1..]) <= others
  }

  ghost predicate Retained(c: Cache, k: EngineConfig, slot: Slot, others: set<EngineConfig>) {
    && Valid(c) && c.closed.No?
    && k in c.slots && c.slots[k] == slot
    && (exists i: nat :: Behind(c.order, k, i, others))
  }

  /** Taking another key away leaves `k` and no new key behind it. */
  lemma BehindWithout(order: seq<EngineConfig>, k: EngineConfig, i: nat, others: set<EngineConfig>,
                      j: nat) returns (at: nat)
    requires Behind(order, k, i, others) && j < |order| && j != i
    ensures Behind(Without(order, j), k, at, others)
  {
    var next := Without(order, j);
    if j < i {
      at := i - 1;
      assert next[i..] == order[i + 1..];
    } else {
      at := i;
      assert next[i + 1..] == order[i + 1..j] + order[j + 1..];
      assert order[i + 1..] == order[i + 1..j] + [order[j]] + order[j + 1..];
    }
  }

  lemma BehindTouch(order: seq<EngineConfig>, k: EngineConfig, i: nat, others: set<EngineConfig>,
                    j: nat) returns (at: nat)
    requires Behind(order, k, i, others) && j < |order|
    requires order[j] == k ==> i == j
    requires order[j] == k || order[j] in others
    ensures Behind(MovedLast(order, j), k, at, others)
  {
    var next := MovedLast(order, j);
    if i == j {
      at := |order| - 1;
      assert next[|order|..] == [];
    } else {
      at := BehindWithout(order, k, i, others, j);
      assert next[at + 1..] == Without(order, j)[at + 1..] + [order[j]];
    }
  }

  lemma RetainedTouch(c: Cache, k: EngineConfig, slot: Slot, others: set<EngineConfig>,
                      l: EngineConfig)
    requires Retained(c, k, slot, others) && l in c.slots && (l == k || l in others)
    ensures Retained(Touch(c, l), k, slot, others)
  {
    var i: nat :| Behind(c.order, k, i, others);
    var j := RemoveAt(c.order, l);
    var at := BehindTouch(c.order, k, i, others, j);
    assert Behind(Touch(c, l).order, k, at, others);
    TouchValid(c, l);
  }

  lemma RetainedDiscard(c: Cache, k: EngineConfig, slot: Slot, others: set<EngineConfig>,
                        l: EngineConfig)
    requires Retained(c, k, slot, others) && l != k
    ensures Retained(Discard(c, l), k, slot, others)
  {
    OperationsKeepValid(c, l, c.pid, true);
    if l in c.slots {
      var i: nat :| Behind(c.order, k, i, others);
      var j := RemoveAt(c.order, l);
      var at := BehindWithout(c.order, k, i, others, j);
      assert Behind(Discard(c, l).order, k, at, others);
    }
  }

  /** With room for all of `others`, adding one of them never pushes out `k`. */
  lemma BehindAdd(order: seq<EngineConfig>, k: EngineConfig, i: nat, others: set<EngineConfig>,
                  l: EngineConfig)
    requires Behind(order, k, i, others) && NoDuplicates(order) && l !in order && l in others
    ensures Behind(order + [l], k, i, others)
    ensures |order| > |others| ==> i > 0 && Behind(order[1..] + [l], k, i - 1, others)
  {
    var tail := order[i + 1..] + [l];
    assert (order + [l])[i + 1..] == tail;
    assert NoDuplicates(tail) && Keys(tail) <= others;
    KeysSize(tail);
    SubsetSize(Keys(tail), others);
    if |order| > |others| { assert (order[1..] + [l])[i..] == tail; }
  }

  lemma RetainedAdd(c: Cache, k: EngineConfig, slot: Slot, others: set<EngineConfig>,
                    l: EngineConfig)
    requires Retained(c, k, slot, others) && l !in c.slots && l in others && k !in others
    requires |others| < c.max
    ensures Retained(Add(c, l), k, slot, others)
  {
    var i: nat :| Behind(c.order, k, i, others);
    BehindAdd(c.order, k, i, others, l);
    AddValid(c, l);
    EvictKeeps(Grow(c, l));
    assert Behind(Add(c, l).order, k, if |c.order| < c.max then i else i - 1, others);
  }

  lemma RetainedStep(c: Cache, k: EngineConfig, slot: Slot, others: set<EngineConfig>, op: Op)
    requires Retained(c, k, slot, others) && k !in others && |others| < c.max
    requires Spares([op], k, c.pid) && GotKeys([op]) <= others + {k}
    ensures Retained(Do(c, op), k, slot, others)
    ensures Do(c, op).max == c.max && Do(c, op).pid == c.pid
  {
    assert op in [op];
    match op
    case GetOp(l, pid, ok) =>
      assert l in GotKeys([op]);
      EvictKeeps(Grow(c, l));
      if l in c.slots { RetainedTouch(c, k, slot, others, l); }
      else if ok { RetainedAdd(c, k, slot, others, l); }
    case DiscardOp(l) => RetainedDiscard(c, k, slot, others, l);
    case _ =>
  }

  lemma {:induction false} RetainedRun(c: Cache, k: EngineConfig, slot: Slot,
                                       others: set<EngineConfig>, ops: seq<Op>)
    requires Retained(c, k, slot, others) && k !in others && |others| < c.max
    requires Spares(ops, k, c.pid) && GotKeys(ops) <= others + {k}
    ensures Retained(Run(c, ops), k, slot, others)
    ensures Run(c, ops).pid == c.pid && Run(c, ops).max == c.max
    decreases |ops|
  {
    if ops != [] {
      var last := |ops| - 1;
      assert ops[last] in ops && forall op :: op in ops[..last] ==> op in ops;
      assert Spares([ops[last]], k, c.pid);
      assert GotKeys([ops[last]]) <= GotKeys(ops);
      assert GotKeys(ops[..last]) <= GotKeys(ops);
      RetainedRun(c, k, slot, others, ops[..last]);
      RetainedStep(Run(c, ops[..last]), k, slot, others, ops[last]);
    }
  }

  lemma RetainedStart(c: Cache, k: EngineConfig, pid: nat, ok: bool, others: set<EngineConfig>)
    requires Valid(c) && Get(c, k, pid, ok).1.Got?
    ensures var (first, result) := Get(c, k, pid, ok);
      && Retained(first, k, result.slot, others)
      && first.max == c.max && first.pid == pid
  {
    var r, first := ResetAfterFork(c, pid), Get(c, k, pid, ok).0;
    OperationsKeepValid(c, k, pid, ok);
    if k in r.slots { TouchValid(r, k); } else { AddValid(r, k); }
    EvictKeeps(Grow(r, k));
    assert first.order[|first.order|..] == [];
    assert Behind(first.order, k, |first.order| - 1, others);
  }

  /**
   * Two gets of one configuration in one process, be it that of the cache or one
   * forked from it, return the same slot if between them no other process asked,
   * the configuration was not discarded, the cache not cleared or closed, and
   * fewer than `max` distinct others were asked for; discards of others do no harm.
   */
  lemma SameSlot(c: Cache, k: EngineConfig, pid: nat, ok: bool, between: seq<Op>, again: bool)
    requires Valid(c) && Get(c, k, pid, ok).1.Got?
    requires Spares(between, k, pid) && |GotKeys(between) - {k}| < c.max
    ensures var (first, result) := Get(c, k, pid, ok);
      Get(Run(first, between), k, pid, again).1 == result
  {
    var (first, result) := Get(c, k, pid, ok);
    var others := GotKeys(between) - {k};
    RetainedStart(c, k, pid, ok, others);
    RetainedRun(first, k, result.slot, others, between);
  }
}
