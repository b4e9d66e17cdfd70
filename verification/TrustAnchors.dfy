/**
 * The trust-anchor payload, a list of IDs each behind one length byte, and the
 * three pieces of code that walk it: the generator's check
 * (tools/generate-profile-table.py), the Core's splitting loop
 * (core/source/profile_ssl_config_service.cc) and the capture inspector
 * (tools/inspect-client-hello.py).
 */
module TrustAnchors {
  import opened Prelude

  predicate ValidId(id: Chunk) { 0 < |id| < 256 }

  function Prefixed(id: Chunk): Chunk
    requires ValidId(id)
  {
    [|id| as byte] + id
  }

  predicate ValidIds(ids: seq<Chunk>) {
    forall i :: 0 <= i < |ids| ==> ValidId(ids[i])
  }

  function Encode(ids: seq<Chunk>): Chunk
    requires ValidIds(ids)
  {
    if ids == [] then [] else Prefixed(ids[0]) + Encode(ids[1..])
  }

  /** The ID at an index, if its length byte is neither zero nor too large. */
  function IdAt(payload: Chunk, index: nat): (r: Option<Chunk>)
    requires index < |payload|
    ensures r.Some? ==> ValidId(r.value) && index + 1 + |r.value| <= |payload|
  {
    var length := payload[index] as nat;
    if length == 0 || index + 1 + length > |payload| then None
    else Some(payload[index + 1..index + 1 + length])
  }

  /** The IDs from an index on, up to the first malformed one. */
  function Ids(payload: Chunk, index: nat): seq<Chunk>
    requires index <= |payload|
    decreases |payload| - index
  {
    if index == |payload| then []
    else
      match IdAt(payload, index)
      case None => []
      case Some(id) => [id] + Ids(payload, index + 1 + |id|)
  }

  /** Whether there is no malformed one. */
  predicate Tiled(payload: Chunk, index: nat)
    requires index <= |payload|
    decreases |payload| - index
  {
    index == |payload| ||
    match IdAt(payload, index)
    case None => false
    case Some(id) => Tiled(payload, index + 1 + |id|)
  }

  lemma SplitAt(payload: Chunk, index: nat, id: Chunk)
    requires index < |payload| && IdAt(payload, index) == Some(id)
    ensures payload[index..] == Prefixed(id) + payload[index + 1 + |id|..]
  {
  }

  lemma EncodeFirst(id: Chunk, rest: seq<Chunk>)
    requires ValidId(id) && ValidIds(rest)
    ensures ValidIds([id] + rest) && Encode([id] + rest) == Prefixed(id) + Encode(rest)
  {
    assert ([id] + rest)[1..] == rest;
  }

  /** Putting the length bytes back gives the payload; all of it if it was tiled exactly. */
  lemma {:induction false} EncodeIds(payload: Chunk, index: nat)
    requires index <= |payload|
    ensures ValidIds(Ids(payload, index))
    ensures Encode(Ids(payload, index)) <= payload[index..]
    ensures Tiled(payload, index) <==> Encode(Ids(payload, index)) == payload[index..]
    decreases |payload| - index
  {
    if index < |payload| && IdAt(payload, index).Some? {
      var id := IdAt(payload, index).value;
      EncodeIds(payload, index + 1 + |id|);
      EncodeFirst(id, Ids(payload, index + 1 + |id|));
      SplitAt(payload, index, id);
    }
  }

  lemma IdAtEncoded(payload: Chunk, index: nat, id: Chunk, rest: Chunk)
    requires ValidId(id) && index <= |payload| && payload[index..] == Prefixed(id) + rest
    ensures index < |payload| && IdAt(payload, index) == Some(id)
    ensures index + 1 + |id| <= |payload| && payload[index + 1 + |id|..] == rest
  {
    var tail := payload[index..];
    assert payload[index] == tail[0];
    assert payload[index + 1..index + 1 + |id|] == tail[1..1 + |id|];
    assert payload[index + 1 + |id|..] == tail[1 + |id|..];
  }

  lemma IdsStep(payload: Chunk, index: nat, id: Chunk, rest: seq<Chunk>)
    requires index < |payload| && IdAt(payload, index) == Some(id)
    requires Tiled(payload, index + 1 + |id|) && Ids(payload, index + 1 + |id|) == rest
    ensures Tiled(payload, index) && Ids(payload, index) == [id] + rest
  {
  }

  /** Splitting an encoded list gives the list, wherever it stands at the end of the bytes. */
  lemma {:induction false} IdsOfEncoded(payload: Chunk, index: nat, ids: seq<Chunk>)
    requires ValidIds(ids) && index <= |payload| && payload[index..] == Encode(ids)
    ensures Tiled(payload, index) && Ids(payload, index) == ids
    decreases |ids|
  {
    if ids != [] {
      var id := ids[0];
      IdAtEncoded(payload, index, id, Encode(ids[1..]));
      IdsOfEncoded(payload, index + 1 + |id|, ids[1..]);
      IdsStep(payload, index, id, ids[1..]);
    }
  }

  /** The generator's check: exactly the encodings of ID lists pass. */
  method Tiles(payload: Chunk) returns (ok: bool)
    ensures ok <==> Tiled(payload, 0)
  {
    var index := 0;
    while index < |payload|
      invariant 0 <= index <= |payload|
      invariant Tiled(payload, 0) <==> Tiled(payload, index)
    {
      var length := payload[index] as nat;
      if length == 0 || index + 1 + length > |payload| {
        return false;
      }
      index := index + 1 + length;
    }
    return true;
  }

  lemma TiledIffEncoding(payload: Chunk)
    ensures Tiled(payload, 0) <==> exists ids :: ValidIds(ids) && Encode(ids) == payload
  {
    assert payload[0..] == payload;
    EncodeIds(payload, 0);
    if ids :| ValidIds(ids) && Encode(ids) == payload { IdsOfEncoded(payload, 0, ids); }
  }

  function IdSet(ids: seq<Chunk>): set<Chunk> { set id | id in ids }

  lemma IdSetFirst(id: Chunk, rest: seq<Chunk>)
    ensures IdSet([id] + rest) == {id} + IdSet(rest)
  {
  }

  lemma IdSetStep(payload: Chunk, index: nat, id: Chunk)
    requires index < |payload| && IdAt(payload, index) == Some(id)
    ensures IdSet(Ids(payload, index)) == {id} + IdSet(Ids(payload, index + 1 + |id|))
    ensures Tiled(payload, index) <==> Tiled(payload, index + 1 + |id|)
  {
    IdSetFirst(id, Ids(payload, index + 1 + |id|));
  }

  /** The Core's loop: the set of IDs, or nothing at all for a malformed payload. */
  method SplitIds(payload: Chunk) returns (ids: set<Chunk>)
    ensures ids == if Tiled(payload, 0) then IdSet(Ids(payload, 0)) else {}
  {
    ids := {};
    var offset := 0;
    while offset < |payload|
      invariant 0 <= offset <= |payload|
      invariant Tiled(payload, 0) <==> Tiled(payload, offset)
      invariant IdSet(Ids(payload, 0)) == ids + IdSet(Ids(payload, offset))
    {
      var length := payload[offset] as nat;
      if length == 0 || offset + 1 + length > |payload| {
        ids := {};
        break;
      }
      var id := payload[offset + 1..offset + 1 + length];
      IdSetStep(payload, offset, id);
      ids := ids + {id};
      offset := offset + 1 + length;
    }
  }

  /** The Core advertises nothing exactly for an empty or a malformed payload. */
  lemma ClearedIffMalformed(payload: Chunk)
    requires payload != []
    ensures (if Tiled(payload, 0) then IdSet(Ids(payload, 0)) else {}) == {} <==> !Tiled(payload, 0)
  {
    if Tiled(payload, 0) {
      assert Ids(payload, 0)[0] in IdSet(Ids(payload, 0));
    }
  }

  /** The part of the extension body its two-byte length declares, as far as it is there. */
  function Inner(extension: Chunk): Chunk
    requires |extension| >= 2
  {
    var declared := extension[0] as nat * 256 + extension[1] as nat;
    if 2 + declared <= |extension| then extension[2..2 + declared] else extension[2..]
  }

  /** Bytes that do not begin with a whole ID. */
  predicate Malformed(tail: Chunk) {
    tail == [] || tail[0] == 0 || 1 + tail[0] as nat > |tail|
  }

  lemma NoneAt(payload: Chunk, index: nat, tail: Chunk)
    requires index <= |payload| && payload[index..] == tail && Malformed(tail)
    ensures Ids(payload, index) == []
  {
    if index < |payload| { assert payload[index] == tail[0]; }
  }

  lemma OneAt(payload: Chunk, index: nat, id: Chunk)
    requires index < |payload| && IdAt(payload, index) == Some(id)
    ensures Ids(payload, index) == [id] + Ids(payload, index + 1 + |id|)
  {
  }

  lemma FirstAt(payload: Chunk, index: nat, ids: seq<Chunk>, tail: Chunk) returns (next: nat)
    requires ValidIds(ids) && ids != []
    requires index <= |payload| && payload[index..] == Encode(ids) + tail
    ensures index < next <= |payload| && payload[next..] == Encode(ids[1..]) + tail
    ensures Ids(payload, index) == [ids[0]] + Ids(payload, next)
  {
    var id, rest := ids[0], Encode(ids[1..]) + tail;
    assert Encode(ids) + tail == Prefixed(id) + rest;
    IdAtEncoded(payload, index, id, rest);
    OneAt(payload, index, id);
    next := index + 1 + |id|;
  }

  /** Splitting stops exactly there. */
  lemma {:induction false} IdsBefore(payload: Chunk, index: nat, ids: seq<Chunk>, tail: Chunk)
    requires ValidIds(ids) && Malformed(tail)
    requires index <= |payload| && payload[index..] == Encode(ids) + tail
    ensures Ids(payload, index) == ids
    decreases |ids|
  {
    if ids == [] {
      assert Encode(ids) + tail == tail;
      NoneAt(payload, index, tail);
    } else {
      var next := FirstAt(payload, index, ids, tail);
      IdsBefore(payload, next, ids[1..], tail);
    }
  }

  /**
   * An extension body is a length in network order and a list of IDs. Whatever
   * follows the declared length is ignored, and a body shorter than declared is
   * read as far as it goes: the IDs are those before the first malformed one, all
   * of them if `tail` is empty.
   */
  lemma InnerIds(declared: nat, body: Chunk, ids: seq<Chunk>, tail: Chunk)
    requires declared < 0x1_0000 && ValidIds(ids) && Malformed(tail)
    requires Encode(ids) + tail == body[..if declared < |body| then declared else |body|]
    ensures Ids(Inner([(declared / 256) as byte, (declared % 256) as byte] + body), 0) == ids
  {
    var extension := [(declared / 256) as byte, (declared % 256) as byte] + body;
    assert extension[2..] == body;
    if declared < |body| { assert extension[2..2 + declared] == body[..declared]; }
    assert Inner(extension)[0..] == Encode(ids) + tail;
    IdsBefore(Inner(extension), 0, ids, tail);
  }

  lemma IdsGrow(ids: seq<Chunk>, id: Chunk, payload: Chunk, index: nat)
    requires index < |payload| && IdAt(payload, index) == Some(id)
    ensures (ids + [id]) + Ids(payload, index + 1 + |id|) == ids + Ids(payload, index)
  {
    var rest := Ids(payload, index + 1 + |id|);
    assert Ids(payload, index) == [id] + rest;
    assert (ids + [id]) + rest == ids + ([id] + rest);
  }

  /** The inspector: the IDs before the first malformed one. */
  method DecodeTrustAnchors(extension: Chunk) returns (ids: seq<Chunk>)
    ensures ids == if |extension| < 2 then [] else Ids(Inner(extension), 0)
  {
    if |extension| < 2 {
      return [];
    }
    var inner := Inner(extension);
    ids := [];
    var offset := 0;
    while offset < |inner|
      invariant 0 <= offset <= |inner|
      invariant ids + Ids(inner, offset) == Ids(inner, 0)
    {
      var length := inner[offset] as nat;
      if length == 0 || offset + 1 + length > |inner| {
        return;
      }
      var id := inner[offset + 1..offset + 1 + length];
      IdsGrow(ids, id, inner, offset);
      ids := ids + [id];
      offset := offset + 1 + length;
    }
  }
}
