/** packages/protocol/src/codec.ts: the decoder of validated messages over the frame decoder. What it means
    for a frame to hold a valid message is a parameter. */
module MessageDecoder {
  import opened FrameSpec
  import opened Framing
  import opened Options

  type Parser<!T> = Bytes -> Option<T>

  /** All messages, if every frame holds one. */
  function ParseAll<T>(parse: Parser<T>, frames: seq<Bytes>): Option<seq<T>> {
    if frames == [] then Some([])
    else
      var first, rest := parse(frames[0]), ParseAll(parse, frames[1..]);
      if first.Some? && rest.Some? then Some([first.value] + rest.value) else None
  }

  /** The messages before the first frame that holds none. */
  function Leading<T>(parse: Parser<T>, frames: seq<Bytes>): seq<T> {
    if frames == [] || parse(frames[0]) == None then [] else [parse(frames[0]).value] + Leading(parse, frames[1..])
  }

  lemma {:induction false} ParseAllConcat<T>(parse: Parser<T>, a: seq<Bytes>, b: seq<Bytes>)
    ensures ParseAll(parse, a + b) ==
              var first, rest := ParseAll(parse, a), ParseAll(parse, b);
              if first.Some? && rest.Some? then Some(first.value + rest.value) else None
    ensures ParseAll(parse, a).Some? ==> Leading(parse, a + b) == ParseAll(parse, a).value + Leading(parse, b)
    ensures ParseAll(parse, a).Some? ==> Leading(parse, a) == ParseAll(parse, a).value
  {
    if a == [] {
      assert a + b == b;
      var rest, l := ParseAll(parse, b), Leading(parse, b);
      assert [] + l == l && (rest.Some? ==> [] + rest.value == rest.value);
    } else {
      assert (a + b)[1..] == a[1..] + b;
      ParseAllConcat(parse, a[1..], b);
      var first, rest := ParseAll(parse, a[1..]), ParseAll(parse, b);
      if parse(a[0]).Some? && first.Some? && rest.Some? {
        assert [parse(a[0]).value] + first.value + rest.value == [parse(a[0]).value] + (first.value + rest.value);
      }
      if parse(a[0]).Some? && first.Some? {
        var l := Leading(parse, b);
        assert [parse(a[0]).value] + first.value + l == [parse(a[0]).value] + (first.value + l);
      }
    }
  }

  lemma SingleMessage<T>(parse: Parser<T>, frame: Bytes, message: Option<T>)
    requires parse(frame) == message && message.Some?
    ensures ParseAll(parse, [frame]) == Some([message.value])
  {
    var frames, none: seq<T> := [frame], [];
    assert frames[1..] == [] && [message.value] + none == [message.value];
    assert ParseAll(parse, frames[1..]) == Some(none);
  }

  // ---- The decoder as its callers see it ----------------------------------------------------------------

  /** Once it has failed it is not looked at again. */
  datatype Decoder = Latched | Decoding(stream: Stream)

  function PushChunk<T>(d: Decoder, chunk: Bytes, max: nat, parse: Parser<T>): (Decoder, Option<seq<T>>) {
    if d.Latched? then (Latched, None)
    else
      var (stream, pushed) := FrameSpec.Push(d.stream, chunk, max);
      if pushed.Threw? || ParseAll(parse, pushed.frames) == None then (Latched, None)
      else (Decoding(stream), ParseAll(parse, pushed.frames))
  }

  /** The state after pushing every chunk, and all messages handed out on the way. */
  function PushChunks<T>(d: Decoder, chunks: seq<Bytes>, max: nat, parse: Parser<T>): (Decoder, seq<T>)
    decreases |chunks|
  {
    if chunks == [] then (d, [])
    else
      var (next, result) := PushChunk(d, chunks[0], max, parse);
      var (last, more) := PushChunks(next, chunks[1..], max, parse);
      (last, (if result.Some? then result.value else []) + more)
  }

  lemma {:induction false} StaysLatched<T>(chunks: seq<Bytes>, max: nat, parse: Parser<T>)
    ensures PushChunks(Latched, chunks, max, parse) == (Latched, [])
    decreases |chunks|
  {
    if chunks != [] {
      StaysLatched(chunks[1..], max, parse);
      assert [] + PushChunks(Latched, chunks[1..], max, parse).1 == [];
    }
  }

  lemma {:induction false} ChunksParse<T>(pending: Bytes, chunks: seq<Bytes>, max: nat, parse: Parser<T>)
    requires ParseBytes(pending, max) == Parse([], pending, false)
    ensures var p := ParseBytes(pending + Concat(chunks), max);
            var (d, messages) := PushChunks(Decoding(Open(pending)), chunks, max, parse);
            && messages <= Leading(parse, p.frames)
            && if p.failed || ParseAll(parse, p.frames) == None then d == Latched
               else d == Decoding(Open(p.rest)) && ParseAll(parse, p.frames) == Some(messages)
    decreases |chunks|
  {
    if chunks == [] {
      assert pending + [] == pending;
    } else {
      var chunk, later := chunks[0], Concat(chunks[1..]);
      var q := ParseBytes(pending + chunk, max);
      assert pending + Concat(chunks) == (pending + chunk) + later;
      ParseAppend(pending + chunk, later, max);
      if q.failed {
        StaysLatched(chunks[1..], max, parse);
      } else {
        var r := ParseBytes(q.rest + later, max);
        ParseAllConcat(parse, q.frames, r.frames);
        if ParseAll(parse, q.frames) == None {
          StaysLatched(chunks[1..], max, parse);
        } else {
          RestIsPartial(pending + chunk, max);
          ChunksParse(q.rest, chunks[1..], max, parse);
        }
      }
    }
  }

  /** The messages handed out while the chunks are pushed into a new decoder. */
  function Delivered<T>(chunks: seq<Bytes>, max: nat, parse: Parser<T>): seq<T> {
    PushChunks(Decoding(Open([])), chunks, max, parse).1
  }

  predicate Faulty<T>(p: Parse, parse: Parser<T>) {
    p.failed || ParseAll(parse, p.frames) == None
  }

  /** Whether the decoder fails depends only on the bytes, not on the chunks they come in. If it does not,
      every chunking delivers the same messages; if it does, only messages before the first fault. */
  lemma MessagesIgnoreChunks<T>(chunks: seq<Bytes>, max: nat, parse: Parser<T>)
    ensures var p := ParseBytes(Concat(chunks), max);
            var (d, messages) := PushChunks(Decoding(Open([])), chunks, max, parse);
            && (d == Latched <==> Faulty(p, parse))
            && messages <= Leading(parse, p.frames)
            && (d != Latched ==> ParseAll(parse, p.frames) == Some(messages))
  {
    ChunksParse([], chunks, max, parse);
    assert [] + Concat(chunks) == Concat(chunks);
  }

  /** Everything in one chunk: a fault anywhere in it loses all of its messages. */
  lemma OneChunk<T>(bytes: Bytes, max: nat, parse: Parser<T>)
    ensures Concat([bytes]) == bytes
    ensures Faulty(ParseBytes(bytes, max), parse) ==> Delivered([bytes], max, parse) == []
  {
    var chunks := [bytes];
    assert chunks[1..] == [] && bytes + Concat(chunks[1..]) == bytes && [] + bytes == bytes;
    StaysLatched(chunks[1..], max, parse);
  }

  /** How many bytes the frames before the first fault take. */
  function LeadingLength<T>(parse: Parser<T>, bytes: Bytes, max: nat): (k: nat)
    ensures k <= |bytes|
    decreases |bytes|
  {
    if |bytes| < FRAME_HEADER_LENGTH then 0
    else
      var end := FRAME_HEADER_LENGTH + BigEndian(bytes[..FRAME_HEADER_LENGTH]);
      if end - FRAME_HEADER_LENGTH > max || |bytes| < end || parse(bytes[FRAME_HEADER_LENGTH..end]) == None then 0
      else end + LeadingLength(parse, bytes[end..], max)
  }

  lemma CutSlices(bytes: Bytes, end: nat, k: nat)
    requires FRAME_HEADER_LENGTH <= end <= k <= |bytes|
    ensures bytes[..k][..FRAME_HEADER_LENGTH] == bytes[..FRAME_HEADER_LENGTH]
    ensures bytes[..k][FRAME_HEADER_LENGTH..end] == bytes[FRAME_HEADER_LENGTH..end]
    ensures bytes[..k][end..] == bytes[end..][..k - end]
  {
  }

  /** A chunk that ends there holds all leading messages and nothing else. */
  lemma {:induction false} LeadingBytes<T>(parse: Parser<T>, bytes: Bytes, max: nat)
    ensures var p := ParseBytes(bytes[..LeadingLength(parse, bytes, max)], max);
            && !p.failed && p.rest == []
            && ParseAll(parse, p.frames) == Some(Leading(parse, ParseBytes(bytes, max).frames))
    decreases |bytes|
  {
    hide BigEndian;
    var k := LeadingLength(parse, bytes, max);
    if k == 0 {
      assert bytes[..k] == [];
    } else {
      var end := FRAME_HEADER_LENGTH + BigEndian(bytes[..FRAME_HEADER_LENGTH]);
      LeadingBytes(parse, bytes[end..], max);
      CutSlices(bytes, end, k);
    }
  }

  lemma TwoChunks<T>(a: Bytes, b: Bytes, max: nat, parse: Parser<T>)
    ensures Concat([a, b]) == a + b
    ensures var p := ParseBytes(a, max);
            !Faulty(p, parse) ==> ParseAll(parse, p.frames).value <= Delivered([a, b], max, parse)
  {
    hide ParseBytes, ParseAll;
    var chunks := [a, b];
    assert chunks[1..] == [b] && [] + a == a;
    OneChunk(b, max, parse);
  }

  /** A cut right after the leading frames delivers every message before the fault. */
  lemma CutAfterLeading<T>(bytes: Bytes, max: nat, parse: Parser<T>)
    ensures var k := LeadingLength(parse, bytes, max);
            && Concat([bytes[..k], bytes[k..]]) == bytes
            && Delivered([bytes[..k], bytes[k..]], max, parse) == Leading(parse, ParseBytes(bytes, max).frames)
  {
    hide ParseBytes, ParseAll, Leading, LeadingLength, PushChunks, Concat;
    var k := LeadingLength(parse, bytes, max);
    var chunks := [bytes[..k], bytes[k..]];
    assert bytes[..k] + bytes[k..] == bytes;
    LeadingBytes(parse, bytes, max);
    TwoChunks(bytes[..k], bytes[k..], max, parse);
    MessagesIgnoreChunks(chunks, max, parse);
  }

  /** Which messages are delivered is independent of the chunking exactly if the bytes hold no fault, or no
      message before it: messages that share a chunk with the fault are lost, others are not. */
  lemma DeliveryIgnoresChunksIff<T>(bytes: Bytes, max: nat, parse: Parser<T>)
    ensures var p := ParseBytes(bytes, max);
            (forall a, b | Concat(a) == bytes && Concat(b) == bytes :: Delivered(a, max, parse) == Delivered(b, max, parse))
            <==> !Faulty(p, parse) || Leading(parse, p.frames) == []
  {
    var p, k := ParseBytes(bytes, max), LeadingLength(parse, bytes, max);
    if !Faulty(p, parse) || Leading(parse, p.frames) == [] {
      forall a | Concat(a) == bytes
        ensures Delivered(a, max, parse) == if Faulty(p, parse) then [] else ParseAll(parse, p.frames).value
      {
        MessagesIgnoreChunks(a, max, parse);
      }
    } else {
      OneChunk(bytes, max, parse);
      CutAfterLeading(bytes, max, parse);
      assert Delivered([bytes], max, parse) != Delivered([bytes[..k], bytes[k..]], max, parse);
    }
  }

  /** The frames of a chunk, one after the other, up to the first that holds no message. */
  method ParseFrames<T>(parse: Parser<T>, frames: seq<Bytes>) returns (messages: Option<seq<T>>)
    ensures messages == ParseAll(parse, frames)
  {
    var parsed: seq<T> := [];
    for k := 0 to |frames|
      invariant ParseAll(parse, frames[..k]) == Some(parsed)
    {
      ParseAllConcat(parse, frames[..k], frames[k..]);
      assert frames[..k] + frames[k..] == frames;
      var message := parse(frames[k]);
      if message == None { return None; }
      ParseAllConcat(parse, frames[..k], [frames[k]]);
      SingleMessage(parse, frames[k], message);
      assert frames[..k + 1] == frames[..k] + [frames[k]];
      parsed := parsed + [message.value];
    }
    assert frames[..|frames|] == frames;
    messages := Some(parsed);
  }

  class ValidatedMessageDecoder<T> {
    var failed: bool
    const frames: FrameDecoder
    const parse: Parser<T>

    ghost predicate Valid()
      reads this, frames, frames.header, frames.payloadBlocks
    {
      frames.AtRest()
    }

    ghost function View(): Decoder
      reads this, frames, frames.header, frames.payloadBlocks
      requires Valid()
    {
      if failed then Latched else Decoding(frames.View())
    }

    constructor (limit: nat, parse: Parser<T>)
      requires limit <= MAX_UINT32
      ensures Valid() && View() == Decoding(Open([])) && frames.maxFrameLength == limit && this.parse == parse
      ensures fresh(frames) && fresh(frames.header)
    {
      failed, this.parse := false, parse;
      frames := new FrameDecoder(limit);
    }

    /** None is an exception. */
    method Push(chunk: Bytes) returns (messages: Option<seq<T>>)
      requires Valid()
      modifies this, frames, frames.header, frames.payloadBlocks
      ensures Valid() && (View(), messages) == PushChunk(old(View()), chunk, frames.maxFrameLength, parse)
    {
      hide ParseBytes, ParseAll, FrameDecoder.AtRest;
      if failed { return None; }
      var pushed := frames.Push(chunk);
      if !pushed.Ok? {
        failed := true;
        return None;
      }
      messages := ParseFrames(parse, pushed.value);
      if messages == None { failed := true; }
    }

    method End() returns (ok: bool)
      requires Valid()
      modifies this, frames
      ensures Valid() && ok == (!old(failed) && FrameSpec.End(old(frames.View())).1)
      ensures failed == !ok
    {
      if failed { return false; }
      ok := frames.End();
      if !ok { failed := true; }
    }
  }
}
