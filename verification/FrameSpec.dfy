/** The wire format of packages/protocol/src/framing.ts as functions on byte sequences:
    what a stream of bytes means, independently of how it was cut into chunks. */
module FrameSpec {

  type Byte = b: int | 0 <= b < 256
  type Bytes = seq<Byte>

  const FRAME_HEADER_LENGTH := 4
  const MAX_UINT32 := 0xffff_ffff
  const PAYLOAD_BLOCK_SIZE := 64 * 1024
  const DEFAULT_MAX_FRAME_LENGTH := 16 * 1024 * 1024

  function BigEndian(h: Bytes): (n: nat)
    requires |h| == FRAME_HEADER_LENGTH
    ensures n <= MAX_UINT32
  {
    h[0] as int * 0x100_0000 + h[1] as int * 0x1_0000 + h[2] as int * 0x100 + h[3]
  }

  function Header(n: nat): (h: Bytes)
    requires n <= MAX_UINT32
    ensures |h| == FRAME_HEADER_LENGTH
  {
    [n / 0x100_0000 % 256, n / 0x1_0000 % 256, n / 0x100 % 256, n % 256]
  }

  lemma HeaderRoundTrip(n: nat)
    requires n <= MAX_UINT32
    ensures BigEndian(Header(n)) == n
  {
    var a, b, c := n / 0x100, n / 0x1_0000, n / 0x100_0000;
    assert n == a * 0x100 + n % 0x100;
    assert b == a / 0x100 && a == b * 0x100 + a % 0x100;
    assert c == b / 0x100 && b == c * 0x100 + b % 0x100;
    assert 0 <= c < 0x100;
  }

  lemma HeaderUnique(h: Bytes)
    requires |h| == FRAME_HEADER_LENGTH
    ensures Header(BigEndian(h)) == h
  {
    var n := BigEndian(h);
    assert n / 0x100 == h[0] as int * 0x1_0000 + h[1] as int * 0x100 + h[2];
    assert n / 0x1_0000 == h[0] as int * 0x100 + h[1];
    assert n / 0x100_0000 == h[0];
  }

  /** One frame on the wire: its length prefix, then its payload. */
  function Frame(payload: Bytes): Bytes
    requires |payload| <= MAX_UINT32
  {
    Header(|payload|) + payload
  }

  ghost predicate WithinLimit(payloads: seq<Bytes>, max: nat) {
    forall i :: 0 <= i < |payloads| ==> |payloads[i]| <= max
  }

  /** The frames of several payloads, one after the other. */
  function Wire(payloads: seq<Bytes>): Bytes
    requires forall i :: 0 <= i < |payloads| ==> |payloads[i]| <= MAX_UINT32
  {
    if payloads == [] then [] else Frame(payloads[0]) + Wire(payloads[1..])
  }

  /** What a decoder may have learnt from the bytes of a stream: the complete payloads, the bytes of
      a frame that is still incomplete, and whether a length prefix exceeded the limit. */
  datatype Parse = Parse(frames: seq<Bytes>, rest: Bytes, failed: bool)

  function ParseBytes(bytes: Bytes, max: nat): Parse {
    if |bytes| < FRAME_HEADER_LENGTH then Parse([], bytes, false)
    else
      var n := BigEndian(bytes[..FRAME_HEADER_LENGTH]);
      if n > max then Parse([], [], true)
      else if |bytes| < FRAME_HEADER_LENGTH + n then Parse([], bytes, false)
      else
        var tail := ParseBytes(bytes[FRAME_HEADER_LENGTH + n..], max);
        Parse([bytes[FRAME_HEADER_LENGTH..FRAME_HEADER_LENGTH + n]] + tail.frames, tail.rest, tail.failed)
  }

  /** Continues a parse with more bytes. */
  function Resume(p: Parse, more: Bytes, max: nat): Parse {
    if p.failed then p
    else
      var q := ParseBytes(p.rest + more, max);
      Parse(p.frames + q.frames, q.rest, q.failed)
  }

  /** Parsing may stop after any prefix and resume with the bytes it left over. */
  lemma {:induction false} ParseAppend(a: Bytes, b: Bytes, max: nat)
    ensures ParseBytes(a + b, max) == Resume(ParseBytes(a, max), b, max)
    decreases |a|
  {
    if |a| < FRAME_HEADER_LENGTH {
      assert ParseBytes(a, max) == Parse([], a, false);
    } else {
      assert (a + b)[..FRAME_HEADER_LENGTH] == a[..FRAME_HEADER_LENGTH];
      var n := BigEndian(a[..FRAME_HEADER_LENGTH]);
      var end := FRAME_HEADER_LENGTH + n;
      if n <= max {
        if |a| < end {
          assert ParseBytes(a, max) == Parse([], a, false);
        } else {
          ParseAppendFrame(a, b, n, max);
        }
      }
    }
  }

  lemma {:induction false} ParseAppendFrame(a: Bytes, b: Bytes, n: nat, max: nat)
    requires |a| >= FRAME_HEADER_LENGTH + n && n <= max
    requires n == BigEndian(a[..FRAME_HEADER_LENGTH])
    ensures ParseBytes(a + b, max) == Resume(ParseBytes(a, max), b, max)
    decreases |a|, 0
  {
    hide BigEndian;
    var end := FRAME_HEADER_LENGTH + n;
    AppendSlices(a, b, end);
    ParseAppend(a[end..], b, max);
    var p := ParseBytes(a[end..], max);
    AssociateFrames(a[FRAME_HEADER_LENGTH..end], p.frames, ParseBytes(p.rest + b, max).frames);
  }

  lemma AppendSlices(a: Bytes, b: Bytes, end: nat)
    requires FRAME_HEADER_LENGTH <= end <= |a|
    ensures (a + b)[..FRAME_HEADER_LENGTH] == a[..FRAME_HEADER_LENGTH]
    ensures (a + b)[end..] == a[end..] + b && (a + b)[FRAME_HEADER_LENGTH..end] == a[FRAME_HEADER_LENGTH..end]
  {
  }

  lemma AssociateFrames(payload: Bytes, a: seq<Bytes>, b: seq<Bytes>)
    ensures ([payload] + a) + b == [payload] + (a + b)
  {
  }

  /** A stream that has not failed is the wire form of its frames followed by the unfinished bytes,
      and what is left over never holds a complete frame. */
  lemma {:induction false} ParseSound(bytes: Bytes, max: nat)
    requires max <= MAX_UINT32
    ensures var p := ParseBytes(bytes, max);
            && WithinLimit(p.frames, max)
            && (!p.failed ==> bytes == Wire(p.frames) + p.rest)
            && ParseBytes(p.rest, max) == Parse([], p.rest, false)
    decreases |bytes|
  {
    if |bytes| >= FRAME_HEADER_LENGTH {
      var n := BigEndian(bytes[..FRAME_HEADER_LENGTH]);
      if n <= max && |bytes| >= FRAME_HEADER_LENGTH + n {
        ParseSound(bytes[FRAME_HEADER_LENGTH + n..], max);
        SoundFrame(bytes, n, ParseBytes(bytes[FRAME_HEADER_LENGTH + n..], max), max);
      }
    }
  }

  lemma SoundFrame(bytes: Bytes, n: nat, tail: Parse, max: nat)
    requires FRAME_HEADER_LENGTH + n <= |bytes| && n <= max <= MAX_UINT32 && n == BigEndian(bytes[..FRAME_HEADER_LENGTH])
    requires WithinLimit(tail.frames, max) && (!tail.failed ==> bytes[FRAME_HEADER_LENGTH + n..] == Wire(tail.frames) + tail.rest)
    ensures var frames := [bytes[FRAME_HEADER_LENGTH..FRAME_HEADER_LENGTH + n]] + tail.frames;
            WithinLimit(frames, max) && (!tail.failed ==> bytes == Wire(frames) + tail.rest)
  {
    hide BigEndian, Header, ParseBytes;
    var head, payload := bytes[..FRAME_HEADER_LENGTH], bytes[FRAME_HEADER_LENGTH..FRAME_HEADER_LENGTH + n];
    HeaderUnique(head);
    var frames := [payload] + tail.frames;
    assert frames[0] == payload && frames[1..] == tail.frames;
    if !tail.failed {
      assert bytes == head + payload + bytes[FRAME_HEADER_LENGTH + n..];
      assert Wire(frames) == head + payload + Wire(tail.frames);
    }
  }

  lemma {:induction false} ParseWire(payloads: seq<Bytes>, max: nat)
    requires max <= MAX_UINT32 && WithinLimit(payloads, max)
    ensures ParseBytes(Wire(payloads), max) == Parse(payloads, [], false)
  {
    if payloads != [] {
      var payload := payloads[0];
      var bytes := Wire(payloads);
      HeaderRoundTrip(|payload|);
      assert bytes[..FRAME_HEADER_LENGTH] == Header(|payload|);
      assert bytes[FRAME_HEADER_LENGTH..FRAME_HEADER_LENGTH + |payload|] == payload;
      assert bytes[FRAME_HEADER_LENGTH + |payload|..] == Wire(payloads[1..]);
      ParseWire(payloads[1..], max);
      assert [payload] + payloads[1..] == payloads;
    }
  }

  // ---- A decoder as its callers see it -----------------------------------------------------------

  datatype Stream = Open(pending: Bytes) | Failed | Ended

  datatype Pushed = Frames(frames: seq<Bytes>) | Threw

  function Push(s: Stream, chunk: Bytes, max: nat): (Stream, Pushed) {
    if !s.Open? then (s, Threw)
    else
      var p := ParseBytes(s.pending + chunk, max);
      if p.failed then (Failed, Threw) else (Open(p.rest), Frames(p.frames))
  }

  function End(s: Stream): (Stream, bool) {
    if !s.Open? then (s, false) else if s.pending == [] then (Ended, true) else (Failed, false)
  }

  /** The state after pushing every chunk, and all frames handed out on the way. */
  function PushAll(s: Stream, chunks: seq<Bytes>, max: nat): (Stream, seq<Bytes>)
    decreases |chunks|
  {
    if chunks == [] then (s, [])
    else
      var (next, result) := Push(s, chunks[0], max);
      var (last, more) := PushAll(next, chunks[1..], max);
      (last, (if result.Frames? then result.frames else []) + more)
  }

  function Concat(chunks: seq<Bytes>): Bytes {
    if chunks == [] then [] else chunks[0] + Concat(chunks[1..])
  }

  lemma {:induction false} PushAllParses(pending: Bytes, chunks: seq<Bytes>, max: nat)
    requires ParseBytes(pending, max) == Parse([], pending, false)
    ensures var p := ParseBytes(pending + Concat(chunks), max);
            var (s, frames) := PushAll(Open(pending), chunks, max);
            if p.failed then s == Failed && frames <= p.frames
            else s == Open(p.rest) && frames == p.frames
    decreases |chunks|
  {
    if chunks == [] {
      assert pending + [] == pending;
    } else {
      var chunk, later := chunks[0], Concat(chunks[1..]);
      var p := ParseBytes(pending + chunk, max);
      assert pending + Concat(chunks) == (pending + chunk) + later;
      ParseAppend(pending + chunk, later, max);
      if p.failed {
        StaysFailed(chunks[1..], max);
      } else {
        RestIsPartial(pending + chunk, max);
        PushAllParses(p.rest, chunks[1..], max);
      }
    }
  }

  lemma {:induction false} StaysFailed(chunks: seq<Bytes>, max: nat)
    ensures PushAll(Failed, chunks, max) == (Failed, [])
    decreases |chunks|
  {
    if chunks != [] {
      StaysFailed(chunks[1..], max);
      assert [] + PushAll(Failed, chunks[1..], max).1 == [];
    }
  }

  lemma {:induction false} RestIsPartial(bytes: Bytes, max: nat)
    ensures var p := ParseBytes(bytes, max); ParseBytes(p.rest, max) == Parse([], p.rest, false)
    decreases |bytes|
  {
    if |bytes| >= FRAME_HEADER_LENGTH {
      var n := BigEndian(bytes[..FRAME_HEADER_LENGTH]);
      if n <= max && |bytes| >= FRAME_HEADER_LENGTH + n {
        RestIsPartial(bytes[FRAME_HEADER_LENGTH + n..], max);
      }
    }
  }

  /** Chunk invariance: whether a decoder fails depends only on the bytes, never on the chunking; if
      it does not, every chunking delivers exactly the frames of the whole; if it does, what was
      delivered is a prefix of them. */
  lemma ChunkInvariance(chunks: seq<Bytes>, max: nat)
    ensures var p := ParseBytes(Concat(chunks), max);
            var (s, frames) := PushAll(Open([]), chunks, max);
            && (s == Failed <==> p.failed)
            && frames <= p.frames
            && (!p.failed ==> frames == p.frames && s == Open(p.rest))
  {
    PushAllParses([], chunks, max);
    assert [] + Concat(chunks) == Concat(chunks);
  }

  /** Framing round trip: payloads within the limit survive encoding, any chunking and decoding, and
      the stream then ends cleanly. */
  lemma RoundTrip(payloads: seq<Bytes>, chunks: seq<Bytes>, max: nat)
    requires max <= MAX_UINT32 && WithinLimit(payloads, max)
    requires Concat(chunks) == Wire(payloads)
    ensures var (s, frames) := PushAll(Open([]), chunks, max);
            frames == payloads && End(s) == (Ended, true)
  {
    ParseWire(payloads, max);
    ChunkInvariance(chunks, max);
  }

  /** end() on a decoder that is still open succeeds exactly when the bytes so far are the frames of
      some payloads within the limit. */
  lemma EndIffComplete(chunks: seq<Bytes>, max: nat)
    requires max <= MAX_UINT32
    ensures End(PushAll(Open([]), chunks, max).0).1 <==>
            exists payloads :: WithinLimit(payloads, max) && Wire(payloads) == Concat(chunks)
  {
    var bytes := Concat(chunks);
    var p := ParseBytes(bytes, max);
    ChunkInvariance(chunks, max);
    ParseSound(bytes, max);
    if End(PushAll(Open([]), chunks, max).0).1 {
      assert WithinLimit(p.frames, max) && Wire(p.frames) == bytes;
    }
    forall payloads | WithinLimit(payloads, max) && Wire(payloads) == bytes
      ensures !p.failed && p.rest == []
    {
      ParseWire(payloads, max);
    }
  }
}
