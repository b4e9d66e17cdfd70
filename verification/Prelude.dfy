/** Bytes, chunks and the few sequence facts every layer of the model shares. */
module Prelude {

  datatype Option<+T> = None | Some(value: T)

  /**
   * A two-valued field of a state record. The records use Flag rather than bool
   * because record updates over boolean fields make the solver split on each.
   */
  datatype Flag = No | Yes

  function ToFlag(b: bool): Flag { if b then Yes else No }

  newtype byte = x: int | 0 <= x < 256

  /** One piece of a body as a single callback or queue entry carries it. */
  type Chunk = seq<byte>

  function Total(chunks: seq<Chunk>): nat {
    if chunks == [] then 0 else |chunks[0]| + Total(chunks[1..])
  }

  function Flatten(chunks: seq<Chunk>): Chunk {
    if chunks == [] then [] else chunks[0] + Flatten(chunks[1..])
  }

  lemma {:induction false} TotalAppend(a: seq<Chunk>, b: seq<Chunk>)
    ensures Total(a + b) == Total(a) + Total(b)
  {
    if a == [] {
      assert a + b == b;
    } else {
      assert (a + b)[1..] == a[1..] + b;
      TotalAppend(a[1..], b);
    }
  }

  lemma {:induction false} FlattenAppend(a: seq<Chunk>, b: seq<Chunk>)
    ensures Flatten(a + b) == Flatten(a) + Flatten(b)
  {
    if a == [] {
      assert a + b == b;
    } else {
      assert (a + b)[1..] == a[1..] + b;
      FlattenAppend(a[1..], b);
    }
  }

  lemma TotalOne(c: Chunk)
    ensures Total([c]) == |c|
  {
    assert [c][1..] == [];
  }

  lemma FlattenOne(c: Chunk)
    ensures Flatten([c]) == c
  {
    assert [c][1..] == [];
  }

  lemma {:induction false} FlattenLength(a: seq<Chunk>)
    ensures |Flatten(a)| == Total(a)
  {
    if a != [] { FlattenLength(a[1..]); }
  }

  /** Total length within an optional limit; None is "no limit". */
  predicate Fits(chunks: seq<Chunk>, limit: Option<nat>) {
    limit.Some? ==> Total(chunks) <= limit.value
  }

  /** The longest prefix of whole chunks whose total stays within the limit. */
  function FittingPrefix(chunks: seq<Chunk>, limit: Option<nat>): (r: seq<Chunk>)
    ensures r <= chunks
  {
    if Fits(chunks, limit) || chunks == [] then chunks
    else FittingPrefix(chunks[..|chunks| - 1], limit)
  }

  /** FittingPrefix does not exceed the limit, and no longer prefix stays within it. */
  lemma {:induction false} FittingPrefixIsMaximal(chunks: seq<Chunk>, limit: Option<nat>, n: nat)
    requires n <= |chunks|
    ensures Fits(FittingPrefix(chunks, limit), limit)
    ensures Fits(chunks[..n], limit) <==> n <= |FittingPrefix(chunks, limit)|
  {
    if Fits(chunks, limit) {
      assert chunks == chunks[..n] + chunks[n..];
      TotalAppend(chunks[..n], chunks[n..]);
    } else if chunks != [] {
      var shorter := chunks[..|chunks| - 1];
      if n < |chunks| {
        assert chunks[..n] == shorter[..n];
        FittingPrefixIsMaximal(shorter, limit, n);
      } else {
        assert chunks[..n] == chunks;
        FittingPrefixIsMaximal(shorter, limit, 0);
      }
    }
  }

  /** Once a prefix is over the limit, later chunks change nothing. */
  lemma {:induction false} FittingPrefixStable(a: seq<Chunk>, b: seq<Chunk>, limit: Option<nat>)
    requires !Fits(a, limit)
    ensures !Fits(a + b, limit)
    ensures FittingPrefix(a + b, limit) == FittingPrefix(a, limit)
  {
    TotalAppend(a, b);
    if b == [] {
      assert a + b == a;
    } else {
      var shorter := b[..|b| - 1];
      assert (a + b)[..|a + b| - 1] == a + shorter;
      FittingPrefixStable(a, shorter, limit);
    }
  }
}
