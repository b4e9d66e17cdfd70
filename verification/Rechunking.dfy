/**
 * bindings/python/chrome_client/_python_impl/models.py: re-chunking a body,
 * reading it like a file, and splitting it into lines.
 */
module Rechunking {
  import opened Prelude

  const CONTENT_CHUNK_SIZE: nat := 10 * 1024

  const LF: byte := 10
  const CR: byte := 13

  // ---- blocks of one size ------------------------------------------------------------

  /** The body cut every `size` bytes. */
  function Blocks(body: Chunk, size: nat): seq<Chunk>
    requires size > 0
    decreases |body|
  {
    if body == [] then []
    else if |body| <= size then [body]
    else [body[..size]] + Blocks(body[size..], size)
  }

  /** Nothing lost or moved; every block but the last is exactly full, and none is empty. */
  lemma {:induction false} BlocksMeaning(body: Chunk, size: nat)
    requires size > 0
    ensures var blocks := Blocks(body, size);
      && Flatten(blocks) == body
      && (forall i :: 0 <= i < |blocks| ==> 0 < |blocks[i]| <= size)
      && (forall i :: 0 <= i < |blocks| - 1 ==> |blocks[i]| == size)
    decreases |body|
  {
    if |body| > size {
      BlocksMeaning(body[size..], size);
      assert body == body[..size] + body[size..];
    } else if body != [] {
      FlattenOne(body);
    }
  }

  /** Full blocks followed by a shorter rest are the blocks of the whole. */
  lemma {:induction false} BlocksUnique(full: seq<Chunk>, rest: Chunk, size: nat)
    requires size > 0 && |rest| < size
    requires forall i :: 0 <= i < |full| ==> |full[i]| == size
    ensures Blocks(Flatten(full) + rest, size) == full + if rest == [] then [] else [rest]
  {
    if full == [] {
      assert Flatten(full) + rest == rest;
    } else {
      var tail := Flatten(full[1..]) + rest;
      assert Flatten(full) + rest == full[0] + tail;
      BlocksUnique(full[1..], rest, size);
      assert (full[0] + tail)[..size] == full[0] && (full[0] + tail)[size..] == tail;
      FlattenLength(full[1..]);
      if |full| > 1 { assert |full[1..][0]| == size && |tail| >= size; }
    }
  }

  /**
   * _stream_chunks over the chunks of a reader that may fail at its end. A
   * failure is raised to the caller and the unfinished block with it.
   */
  method StreamChunks(reader: seq<Chunk>, failed: bool, size: nat) returns (blocks: seq<Chunk>)
    requires size > 0
    ensures !failed ==> blocks == Blocks(Flatten(reader), size)
    ensures failed ==>
      && (forall i :: 0 <= i < |blocks| ==> |blocks[i]| == size)
      && Flatten(blocks) <= Flatten(reader)
      && |Flatten(reader)| - |Flatten(blocks)| < size
  {
    blocks := [];
    var pending := [];
    var i := 0;
    while i < |reader|
      invariant 0 <= i <= |reader| && |pending| < size
      invariant forall j :: 0 <= j < |blocks| ==> |blocks[j]| == size
      invariant Flatten(blocks) + pending == Flatten(reader[..i])
    {
      Advance(reader, i, blocks, pending);
      pending := pending + reader[i];
      while |pending| >= size
        invariant forall j :: 0 <= j < |blocks| ==> |blocks[j]| == size
        invariant Flatten(blocks) + pending == Flatten(reader[..i + 1])
      {
        EmitOne(blocks, pending, size);
        blocks := blocks + [pending[..size]];
        pending := pending[size..];
      }
      i := i + 1;
    }
    assert reader[..i] == reader;
    if failed {
      return;
    }
    BlocksUnique(blocks, pending, size);
    if pending != [] {
      blocks := blocks + [pending];
    }
  }

  lemma Advance(reader: seq<Chunk>, i: nat, blocks: seq<Chunk>, pending: Chunk)
    requires i < |reader| && Flatten(blocks) + pending == Flatten(reader[..i])
    ensures Flatten(blocks) + (pending + reader[i]) == Flatten(reader[..i + 1])
  {
    assert reader[..i + 1] == reader[..i] + [reader[i]];
    FlattenAppend(reader[..i], [reader[i]]);
    FlattenOne(reader[i]);
    assert Flatten(blocks) + (pending + reader[i]) == (Flatten(blocks) + pending) + reader[i];
  }

  lemma EmitOne(blocks: seq<Chunk>, pending: Chunk, size: nat)
    requires |pending| >= size
    ensures Flatten(blocks + [pending[..size]]) + pending[size..] == Flatten(blocks) + pending
  {
    FlattenAppend(blocks, [pending[..size]]);
    FlattenOne(pending[..size]);
    assert pending == pending[..size] + pending[size..];
  }

  /** iter_content of a body already in memory. */
  method SliceContent(body: Chunk, size: nat) returns (blocks: seq<Chunk>)
    requires size > 0
    ensures blocks == Blocks(body, size)
  {
    blocks := [];
    var offset := 0;
    while offset + size <= |body|
      invariant 0 <= offset <= |body|
      invariant forall j :: 0 <= j < |blocks| ==> |blocks[j]| == size
      invariant Flatten(blocks) == body[..offset]
    {
      FlattenAppend(blocks, [body[offset..offset + size]]);
      FlattenOne(body[offset..offset + size]);
      assert body[..offset + size] == body[..offset] + body[offset..offset + size];
      blocks := blocks + [body[offset..offset + size]];
      offset := offset + size;
    }
    BlocksUnique(blocks, body[offset..], size);
    assert body == body[..offset] + body[offset..];
    if offset < |body| {
      blocks := blocks + [body[offset..]];
    }
  }

  /**
   * iter_content: a chunk size that is not positive is refused, a missing one is the default,
   * and a body in memory and one still on its way give the same blocks.
   */
  method IterContent(chunkSize: Option<int>, reader: seq<Chunk>, failed: bool, streamed: bool)
    returns (blocks: Option<seq<Chunk>>)
    ensures blocks.None? <==> chunkSize.Some? && chunkSize.value <= 0
    ensures blocks.Some? && !(streamed && failed) ==>
      blocks.value == Blocks(Flatten(reader),
                             if chunkSize.Some? then chunkSize.value else CONTENT_CHUNK_SIZE)
  {
    if chunkSize.Some? && chunkSize.value <= 0 {
      return None;
    }
    var size: nat := if chunkSize.Some? then chunkSize.value else CONTENT_CHUNK_SIZE;
    var cut: seq<Chunk>;
    if streamed {
      cut := StreamChunks(reader, failed, size);
    } else {
      cut := SliceContent(Flatten(reader), size);
    }
    blocks := Some(cut);
  }

  // ---- RawStream ------------------------------------------------------------------------

  function Min(a: int, b: int): int { if a < b then a else b }

  /** Python's buffer[:amt] and buffer[amt:], for any amt. */
  function SliceAt(length: nat, amt: int): nat {
    if amt >= length then length
    else if amt >= 0 then amt
    else if length + amt < 0 then 0
    else length + amt
  }

  class RawStream {
    var buffer: Chunk
    var source: seq<Chunk>
    var closed: bool

    /** What has not been read yet. */
    function Contents(): Chunk
      reads this
    {
      buffer + Flatten(source)
    }

    constructor (source: seq<Chunk>)
      ensures !closed && Contents() == Flatten(source)
    {
      this.source := source;
      buffer, closed := [], false;
    }

    /** read(None). */
    method ReadAll() returns (data: Chunk)
      modifies this
      ensures data == if old(closed) then [] else old(Contents())
      ensures closed && (!old(closed) ==> Contents() == [])
    {
      if closed {
        return [];
      }
      data := buffer + Flatten(source);
      buffer, source, closed := [], [], true;
    }

    /**
     * read(amt): what it returns is taken off the front of what is left, and for
     * an amount of 0 or more it is as much as asked for or all there is. A
     * negative amount is not "everything", as it is for files: nothing is pulled
     * from the body and the end of the buffer stays behind.
     */
    method Read(amt: int) returns (data: Chunk)
      modifies this
      ensures closed == old(closed)
      ensures closed ==> data == [] && Contents() == old(Contents())
      ensures !closed ==> data + Contents() == old(Contents())
      ensures !closed && amt >= 0 ==> |data| == Min(amt, |old(Contents())|)
      ensures !closed && amt < 0 ==> |data| == SliceAt(|old(buffer)|, amt) && source == old(source)
      ensures !closed && amt < 0 ==> (data == old(Contents()) <==> old(Contents()) == [])
    {
      if closed {
        return [];
      }
      while |buffer| < amt && source != []
        invariant Contents() == old(Contents()) && !closed && !old(closed)
        invariant amt < 0 ==> buffer == old(buffer) && source == old(source)
        decreases |source|
      {
        assert buffer + Flatten(source) == (buffer + source[0]) + Flatten(source[1..]);
        buffer := buffer + source[0];
        source := source[1..];
      }
      var at := SliceAt(|buffer|, amt);
      data := buffer[..at];
      buffer := buffer[at..];
      assert data + Contents() == (data + buffer) + Flatten(source);
      if |data| < amt {
        assert source == [];
      }
    }
  }

  /** The specification of one read on the unread bytes. */
  function ReadOnce(contents: Chunk, amt: nat): (Chunk, Chunk) {
    var n := Min(amt, |contents|);
    (contents[..n], contents[n..])
  }

  function Reads(contents: Chunk, amts: seq<nat>): seq<Chunk>
    decreases |amts|
  {
    if amts == [] then []
    else [ReadOnce(contents, amts[0]).0] + Reads(ReadOnce(contents, amts[0]).1, amts[1..])
  }

  function Sum(amts: seq<nat>): nat {
    if amts == [] then 0 else amts[0] + Sum(amts[1..])
  }

  lemma {:induction false} ReadsLength(contents: Chunk, amts: seq<nat>)
    ensures |Reads(contents, amts)| == |amts|
    decreases |amts|
  {
    if amts != [] { ReadsLength(ReadOnce(contents, amts[0]).1, amts[1..]); }
  }

  lemma SumStep(amts: seq<nat>, k: nat)
    requires 0 < k <= |amts|
    ensures Sum(amts[..k]) == amts[0] + Sum(amts[1..][..k - 1])
  {
    assert amts[..k][1..] == amts[1..][..k - 1];
  }

  /** Where read k starts or ends in what was unread at first. */
  function Offset(length: nat, amts: seq<nat>, k: nat): (at: nat)
    requires k <= |amts|
    ensures at <= length
  {
    Min(Sum(amts[..k]), length)
  }

  lemma OffsetStep(length: nat, amts: seq<nat>, k: nat)
    requires k < |amts|
    ensures Offset(length, amts, k + 1)
            == Min(amts[0], length) + Offset(length - Min(amts[0], length), amts[1..], k)
  {
    SumStep(amts, k + 1);
  }

  /** A slice of what one read leaves, as a slice of what was there before it. */
  lemma SliceOfRest(contents: Chunk, first: nat, from: nat, to: nat)
    requires first <= |contents| && from <= to <= |contents| - first
    ensures contents[first..][from..to] == contents[first + from..first + to]
  {
  }

  lemma OffsetsGrow(length: nat, amts: seq<nat>, k: nat)
    requires k < |amts|
    ensures Offset(length, amts, k) <= Offset(length, amts, k + 1)
  {
    SumGrows(amts, k);
  }

  lemma {:induction false} SumGrows(amts: seq<nat>, k: nat)
    requires k < |amts|
    ensures Sum(amts[..k + 1]) == Sum(amts[..k]) + amts[k]
  {
    if k > 0 {
      SumGrows(amts[1..], k - 1);
      SumStep(amts, k);
    } else {
      assert amts[..0] == [] && amts[1..][..0] == [];
    }
    SumStep(amts, k + 1);
  }

  /** Read k returns exactly the bytes between the k-th and the (k+1)-st requested offsets. */
  lemma {:induction false} ReadsAreSlices(contents: Chunk, amts: seq<nat>, k: nat)
    requires k < |amts|
    ensures |Reads(contents, amts)| == |amts|
    ensures var from, to := Offset(|contents|, amts, k), Offset(|contents|, amts, k + 1);
      from <= to && Reads(contents, amts)[k] == contents[from..to]
    decreases |amts|
  {
    var first, rest := Min(amts[0], |contents|), ReadOnce(contents, amts[0]).1;
    ReadsLength(contents, amts);
    OffsetsGrow(|contents|, amts, k);
    OffsetStep(|contents|, amts, k);
    if k == 0 {
      assert amts[..0] == [] && amts[1..][..0] == [];
    } else {
      OffsetStep(|contents|, amts, k - 1);
      ReadsAreSlices(rest, amts[1..], k - 1);
      SliceOfRest(contents, first, Offset(|rest|, amts[1..], k - 1), Offset(|rest|, amts[1..], k));
    }
  }

  // ---- lines --------------------------------------------------------------------------------

  predicate IsBreak(b: byte) { b == LF || b == CR }

  /** CR LF is one break. */
  function AfterBreak(text: Chunk): Chunk
    requires text != []
  {
    if text[0] == CR && |text| > 1 && text[1] == LF then text[2..] else text[1..]
  }

  /** The finished lines of a text that continues `line`, and the line it leaves unfinished. */
  datatype Split = Split(lines: seq<Chunk>, rest: Chunk)

  function Feed(line: Chunk, text: Chunk): Split
    decreases |text|
  {
    if text == [] then Split([], line)
    else if IsBreak(text[0]) then
      var next := Feed([], AfterBreak(text));
      Split([line] + next.lines, next.rest)
    else Feed(line + [text[0]], text[1..])
  }

  function Finish(s: Split): seq<Chunk> {
    if s.rest == [] then s.lines else s.lines + [s.rest]
  }

  /** bytes.splitlines. */
  function SplitLines(text: Chunk): seq<Chunk> { Finish(Feed([], text)) }

  function Last(c: Chunk): byte
    requires c != []
  {
    c[|c| - 1]
  }

  /** The test of iter_lines for an unfinished last line. */
  predicate KeepsLast(lines: seq<Chunk>, chunk: Chunk) {
    lines != [] && lines[|lines| - 1] != [] && chunk != []
    && Last(lines[|lines| - 1]) == Last(chunk)
  }

  /** One round of iter_lines: the lines to yield, and the pending one, empty if there is none. */
  function Cut(chunk: Chunk): Split {
    var lines := SplitLines(chunk);
    if KeepsLast(lines, chunk) then Split(lines[..|lines| - 1], lines[|lines| - 1])
    else Split(lines, [])
  }

  function Lines(pending: Chunk, blocks: seq<Chunk>): seq<Chunk>
    decreases |blocks|
  {
    if blocks == [] then if pending == [] then [] else [pending]
    else
      var cut := Cut(pending + blocks[0]);
      cut.lines + Lines(cut.rest, blocks[1..])
  }

  lemma LinesStep(yielded: seq<Chunk>, pending: Chunk, blocks: seq<Chunk>, i: nat)
    requires i < |blocks|
    ensures var cut := Cut(pending + blocks[i]);
      (yielded + cut.lines) + Lines(cut.rest, blocks[i + 1..]) == yielded + Lines(pending, blocks[i..])
  {
    assert blocks[i..][1..] == blocks[i + 1..];
  }

  function Text(pending: Option<Chunk>): Chunk {
    if pending.Some? then pending.value else []
  }

  /** The body of the loop of iter_lines up to its yields. */
  method SplitPending(pending: Option<Chunk>, block: Chunk)
    returns (lines: seq<Chunk>, rest: Option<Chunk>)
    ensures Split(lines, Text(rest)) == Cut(Text(pending) + block)
    ensures rest.Some? ==> rest.value != []
  {
    var chunk := block;
    if pending.Some? {
      chunk := pending.value + chunk;
    }
    assert chunk == Text(pending) + block;
    lines := SplitLines(chunk);
    if KeepsLast(lines, chunk) {
      rest := Some(lines[|lines| - 1]);
      lines := lines[..|lines| - 1];
    } else {
      rest := None;
    }
  }

  /** iter_lines over the blocks of iter_content, without decoding or delimiter. */
  method IterLines(blocks: seq<Chunk>) returns (yielded: seq<Chunk>)
    ensures yielded == Lines([], blocks)
  {
    yielded := [];
    var pending := None;
    var i := 0;
    while i < |blocks|
      invariant 0 <= i <= |blocks|
      invariant pending.Some? ==> pending.value != []
      invariant yielded + Lines(Text(pending), blocks[i..]) == Lines([], blocks)
    {
      LinesStep(yielded, Text(pending), blocks, i);
      var lines, rest := SplitPending(pending, blocks[i]);
      yielded := yielded + lines;
      pending := rest;
      i := i + 1;
    }
    if pending.Some? {
      yielded := yielded + [pending.value];
    }
  }

  // ---- what iter_lines yields ----------------------------------------------------------------

  predicate NoBreaks(text: Chunk) {
    forall i :: 0 <= i < |text| ==> !IsBreak(text[i])
  }

  /** A text without breaks only continues the line. */
  lemma {:induction false} FeedUnbroken(line: Chunk, text: Chunk)
    requires NoBreaks(text)
    ensures Feed(line, text) == Split([], line + text)
    decreases |text|
  {
    if text == [] {
      assert line + text == line;
    } else {
      FeedUnbroken(line + [text[0]], text[1..]);
      assert (line + [text[0]]) + text[1..] == line + text;
    }
  }

  /** No line has a break in it, and an unfinished line is the end of the text. */
  lemma {:induction false} FeedMeaning(line: Chunk, text: Chunk)
    requires NoBreaks(line)
    ensures var s := Feed(line, text);
      && NoBreaks(s.rest) && (forall i :: 0 <= i < |s.lines| ==> NoBreaks(s.lines[i]))
      && (text != [] ==> (s.rest == [] <==> IsBreak(Last(text))))
      && (text != [] && s.rest != [] ==> Last(s.rest) == Last(text))
      && (s.lines == [] ==> s.rest == line + text)
    decreases |text|
  {
    if text == [] {
      assert line + text == line;
    } else if IsBreak(text[0]) {
      FeedMeaning([], AfterBreak(text));
    } else {
      FeedMeaning(line + [text[0]], text[1..]);
      assert (line + [text[0]]) + text[1..] == line + text;
    }
  }

  /** A CR LF that the cut between the two texts takes apart. */
  predicate Straddles(left: Chunk, right: Chunk) {
    left != [] && right != [] && Last(left) == CR && right[0] == LF
  }

  /** What is left to feed once `left` was fed. */
  function Remaining(left: Chunk, right: Chunk): Chunk {
    if Straddles(left, right) then right[1..] else right
  }

  function Joined(first: Split, second: Split): Split {
    Split(first.lines + second.lines, second.rest)
  }

  lemma AfterBreakAppend(left: Chunk, right: Chunk)
    requires left != [] && IsBreak(left[0])
    ensures if AfterBreak(left) != [] then
        && AfterBreak(left + right) == AfterBreak(left) + right
        && Remaining(AfterBreak(left), right) == Remaining(left, right)
      else AfterBreak(left + right) == Remaining(left, right)
  {
    var all := left + right;
    assert all[1..] == left[1..] + right;
    if |left| > 1 { assert all[2..] == left[2..] + right; }
  }

  /** Feeding two texts one after the other. */
  lemma {:induction false} FeedAppend(line: Chunk, left: Chunk, right: Chunk)
    ensures Feed(line, left + right)
            == Joined(Feed(line, left), Feed(Feed(line, left).rest, Remaining(left, right)))
    decreases |left|
  {
    var all := left + right;
    if left == [] {
      assert all == right;
    } else if IsBreak(left[0]) {
      AfterBreakAppend(left, right);
      var after := AfterBreak(left);
      if after != [] { FeedAppend([], after, right); }
    } else {
      assert all[1..] == left[1..] + right;
      assert left[1..] != [] ==> Remaining(left[1..], right) == Remaining(left, right);
      FeedAppend(line + [left[0]], left[1..], right);
    }
  }

  /** The text of lines with the break behind each, and of an unfinished one. */
  function Weave(lines: seq<Chunk>, breaks: seq<Chunk>, rest: Chunk): Chunk
    requires |lines| == |breaks|
  {
    if lines == [] then rest else lines[0] + (breaks[0] + Weave(lines[1..], breaks[1..], rest))
  }

  /** Each break is an LF, a CR LF, or a CR that no LF follows. */
  predicate Breaks(lines: seq<Chunk>, breaks: seq<Chunk>, rest: Chunk)
    requires |lines| == |breaks|
  {
    lines == [] ||
    var after := Weave(lines[1..], breaks[1..], rest);
    && (breaks[0] == [LF] || breaks[0] == [CR, LF]
        || (breaks[0] == [CR] && !(after != [] && after[0] == LF)))
    && Breaks(lines[1..], breaks[1..], rest)
  }

  /** Nothing of a text is lost: the lines with their breaks and the unfinished one are the text. */
  lemma {:induction false} FeedWeaves(line: Chunk, text: Chunk) returns (breaks: seq<Chunk>)
    ensures var s := Feed(line, text);
      && |breaks| == |s.lines|
      && Weave(s.lines, breaks, s.rest) == line + text
      && Breaks(s.lines, breaks, s.rest)
    decreases |text|
  {
    if text == [] {
      breaks := [];
    } else if IsBreak(text[0]) {
      var after := AfterBreak(text);
      var s := Feed([], after);
      var later := FeedWeaves([], after);
      var first := text[..|text| - |after|];
      breaks := [first] + later;
      var lines := [line] + s.lines;
      assert lines[1..] == s.lines && breaks[1..] == later && [] + after == after;
      assert text == first + after;
    } else {
      breaks := FeedWeaves(line + [text[0]], text[1..]);
      assert (line + [text[0]]) + text[1..] == line + text;
    }
  }

  lemma AfterBreakIs(first: Chunk, after: Chunk)
    requires || first == [LF] || first == [CR, LF]
             || (first == [CR] && !(after != [] && after[0] == LF))
    ensures IsBreak((first + after)[0]) && AfterBreak(first + after) == after
  {
  }

  /** And there is no other way to cut it into lines without breaks. */
  lemma {:induction false} WeaveFeeds(lines: seq<Chunk>, breaks: seq<Chunk>, rest: Chunk)
    requires |lines| == |breaks| && Breaks(lines, breaks, rest)
    requires NoBreaks(rest) && forall i :: 0 <= i < |lines| ==> NoBreaks(lines[i])
    ensures Feed([], Weave(lines, breaks, rest)) == Split(lines, rest)
  {
    if lines == [] {
      FeedUnbroken([], rest);
      assert [] + rest == rest;
    } else {
      var line, after := lines[0], Weave(lines[1..], breaks[1..], rest);
      WeaveFeeds(lines[1..], breaks[1..], rest);
      FeedAppend([], line, breaks[0] + after);
      FeedUnbroken([], line);
      assert [] + line == line;
      AfterBreakIs(breaks[0], after);
    }
  }

  /** The test on the last byte finds exactly the unfinished line. */
  lemma CutIs(pending: Chunk, block: Chunk)
    requires NoBreaks(pending) && block != []
    ensures Cut(pending + block) == Feed(pending, block)
  {
    var chunk := pending + block;
    FeedUnbroken([], pending);
    assert [] + pending == pending;
    FeedAppend([], pending, block);
    var s := Feed([], chunk);
    assert s == Feed(pending, block);
    FeedMeaning([], chunk);
    assert (s.lines + [s.rest])[..|s.lines|] == s.lines;
  }

  /** How many CR LF the block boundaries take apart. */
  function Broken(blocks: seq<Chunk>): nat {
    if |blocks| < 2 then 0
    else (if Straddles(blocks[0], blocks[1]) then 1 else 0) + Broken(blocks[1..])
  }

  predicate NoneEmpty(blocks: seq<Chunk>) {
    forall i :: 0 <= i < |blocks| ==> blocks[i] != []
  }

  /** The lines that have text. */
  function Texts(lines: seq<Chunk>): seq<Chunk> {
    if lines == [] then []
    else (if lines[0] != [] then [lines[0]] else []) + Texts(lines[1..])
  }

  lemma {:induction false} TextsAppend(a: seq<Chunk>, b: seq<Chunk>)
    ensures Texts(a + b) == Texts(a) + Texts(b)
  {
    if a == [] {
      assert a + b == b;
    } else {
      assert (a + b)[1..] == a[1..] + b;
      TextsAppend(a[1..], b);
    }
  }

  /** `got` are the lines of `want` with `extra` empty lines put in. */
  predicate Padded(got: seq<Chunk>, want: seq<Chunk>, extra: nat) {
    |got| == |want| + extra && Texts(got) == Texts(want) && (extra == 0 ==> got == want)
  }

  lemma PaddedAfter(first: seq<Chunk>, got: seq<Chunk>, want: seq<Chunk>, extra: nat)
    requires Padded(got, want, extra)
    ensures Padded(first + got, first + want, extra)
  {
    TextsAppend(first, got);
    TextsAppend(first, want);
  }

  /** A text that starts with the LF of a broken CR LF has one empty line too many. */
  lemma PaddedBreak(got: seq<Chunk>, text: Chunk, extra: nat)
    requires text != [] && text[0] == LF && Padded(got, Finish(Feed([], text)), extra)
    ensures Padded(got, Finish(Feed([], text[1..])), extra + 1)
  {
    var rest := Finish(Feed([], text[1..]));
    assert Finish(Feed([], text)) == [[]] + rest;
    assert ([[]] + rest)[1..] == rest;
  }

  lemma FinishJoined(first: Split, second: Split)
    ensures Finish(Joined(first, second)) == first.lines + Finish(second)
  {
  }

  /** The loop of iter_lines against one split of the whole text. */
  lemma {:induction false} LinesMeaning(pending: Chunk, blocks: seq<Chunk>)
    requires NoBreaks(pending) && NoneEmpty(blocks)
    ensures Padded(Lines(pending, blocks), Finish(Feed(pending, Flatten(blocks))), Broken(blocks))
    decreases |blocks|
  {
    if blocks != [] {
      var block, tail := blocks[0], Flatten(blocks[1..]);
      var s := Feed(pending, block);
      CutIs(pending, block);
      FeedMeaning(pending, block);
      LinesMeaning(s.rest, blocks[1..]);
      FeedAppend(pending, block, tail);
      FinishJoined(s, Feed(s.rest, Remaining(block, tail)));
      assert |blocks| > 1 ==> tail[0] == blocks[1][0] && tail != [];
      var got := Lines(s.rest, blocks[1..]);
      if Straddles(block, tail) { PaddedBreak(got, tail, Broken(blocks[1..])); }
      PaddedAfter(s.lines, got, Finish(Feed(s.rest, Remaining(block, tail))), Broken(blocks));
    }
  }

  /**
   * iter_lines against splitlines of the whole body: the same lines, plus one
   * empty line for every CR LF that a block boundary takes apart, so the two agree
   * if and only if no boundary does.
   */
  lemma IterLinesExactly(body: Chunk, size: nat)
    requires size > 0
    ensures var blocks := Blocks(body, size); var lines := Lines([], blocks);
      && Texts(lines) == Texts(SplitLines(body))
      && |lines| == |SplitLines(body)| + Broken(blocks)
      && (lines == SplitLines(body) <==> Broken(blocks) == 0)
  {
    BlocksMeaning(body, size);
    LinesMeaning([], Blocks(body, size));
  }

  /** The smallest body on which the chunk size shows: one CR LF, read byte by byte. */
  lemma ChunkSizeShows()
    ensures Blocks([CR, LF], 1) == [[CR], [LF]] && Broken([[CR], [LF]]) == 1
    ensures Lines([], [[CR], [LF]]) == [[], []]
    ensures SplitLines([CR, LF]) == [[]]
  {
    var body: Chunk := [CR, LF];
    assert body[..1] == [CR] && body[1..] == [LF] && body[2..] == [];
    var blocks := [[CR], [LF]];
    assert Blocks(body, 1) == blocks;
    assert blocks[1..] == [[LF]] && blocks[1..][1..] == [];
    CutIs([], [CR]);
    CutIs([], [LF]);
    assert Lines([], blocks[1..]) == [[]];
  }

  /** The texts between LFs that continue `line`, without an empty last one. */
  function SplitAtLf(line: Chunk, body: Chunk): seq<Chunk>
    decreases |body|
  {
    if body == [] then if line == [] then [] else [line]
    else if body[0] == LF then [line] + SplitAtLf([], body[1..])
    else SplitAtLf(line + [body[0]], body[1..])
  }

  lemma {:induction false} FeedWithoutCr(line: Chunk, body: Chunk)
    requires CR !in body
    ensures Finish(Feed(line, body)) == SplitAtLf(line, body)
    decreases |body|
  {
    if body != [] {
      FeedWithoutCr(if body[0] == LF then [] else line + [body[0]], body[1..]);
      if body[0] == LF {
        FinishJoined(Split([line], []), Feed([], body[1..]));
      }
    }
  }

  lemma {:induction false} NothingBroken(blocks: seq<Chunk>)
    requires CR !in Flatten(blocks)
    ensures Broken(blocks) == 0
  {
    if |blocks| >= 2 {
      assert blocks[0] != [] ==> Last(blocks[0]) == Flatten(blocks)[|blocks[0]| - 1];
      assert forall b :: b in Flatten(blocks[1..]) ==> b in Flatten(blocks);
      NothingBroken(blocks[1..]);
    }
  }

  /** A body without CR yields its LF-separated lines, whatever the chunk size. */
  lemma LinesWithoutCr(body: Chunk, size: nat)
    requires size > 0 && CR !in body
    ensures Lines([], Blocks(body, size)) == SplitAtLf([], body)
  {
    BlocksMeaning(body, size);
    NothingBroken(Blocks(body, size));
    IterLinesExactly(body, size);
    FeedWithoutCr([], body);
  }
}
