/** packages/protocol/src/framing.ts: the frame encoder and the incremental decoder, over arrays. */
module Framing {
  import opened FrameSpec
  import opened Options

  datatype Thrown<+T> = Ok(value: T) | FrameError | RangeError

  predicate ValidLimit(value: int) { 0 <= value <= MAX_UINT32 }

  function ResolveMaxFrameLength(option: Option<int>): (r: Thrown<nat>)
    ensures r.Ok? ==> r.value <= MAX_UINT32
    ensures r.RangeError? <==> option.Some? && !(0 <= option.value < 0x1_0000_0000)
    ensures r.Ok? ==> r.value == if option.Some? then option.value else 16 * 1024 * 1024
    ensures !r.FrameError?
  {
    var value := if option.Some? then option.value else DEFAULT_MAX_FRAME_LENGTH;
    if ValidLimit(value) then Ok(value) else RangeError
  }

  /** Copies src into dst starting at offset (Uint8Array.set). */
  method SetBytes(dst: array<Byte>, src: Bytes, offset: nat)
    requires offset + |src| <= dst.Length
    modifies dst
    ensures dst[..] == old(dst[..offset]) + src + old(dst[offset + |src|..])
  {
    forall i | 0 <= i < |src| { dst[offset + i] := src[i]; }
  }

  method EncodeFrame(payload: Bytes) returns (r: Thrown<array<Byte>>)
    ensures r.RangeError? <==> |payload| > MAX_UINT32
    ensures r.Ok? <==> |payload| <= MAX_UINT32
    ensures r.Ok? ==> fresh(r.value) && r.value[..] == Frame(payload)
  {
    var length := |payload|;
    if length > MAX_UINT32 { return RangeError; }
    var frame := new Byte[FRAME_HEADER_LENGTH + length](i => 0);
    frame[0] := length / 0x100_0000 % 256;
    frame[1] := length / 0x1_0000 % 256;
    frame[2] := length / 0x100 % 256;
    frame[3] := length % 256;
    assert frame[..FRAME_HEADER_LENGTH] == Header(length);
    SetBytes(frame, payload, FRAME_HEADER_LENGTH);
    return Ok(frame);
  }

  ghost predicate IsFrame(frame: Bytes, payload: Bytes, max: nat) {
    |payload| <= max <= MAX_UINT32 && Frame(payload) == frame
  }

  /** Succeeds exactly on the wire form of one payload within the limit. */
  method AssertCompleteFrame(frame: Bytes, option: Option<int>) returns (r: Thrown<()>)
    ensures r.RangeError? <==> |frame| >= FRAME_HEADER_LENGTH && ResolveMaxFrameLength(option).RangeError?
    ensures r.Ok? <==>
            ResolveMaxFrameLength(option).Ok? && exists payload :: IsFrame(frame, payload, ResolveMaxFrameLength(option).value)
  {
    if |frame| < FRAME_HEADER_LENGTH { return FrameError; }
    var length := BigEndian(frame[..FRAME_HEADER_LENGTH]);
    var limit := ResolveMaxFrameLength(option);
    if limit.RangeError? { return RangeError; }
    OneFrame(frame, limit.value);
    if length > limit.value { return FrameError; }
    if |frame| != FRAME_HEADER_LENGTH + length { return FrameError; }
    return Ok(());
  }

  lemma OneFrame(frame: Bytes, max: nat)
    requires |frame| >= FRAME_HEADER_LENGTH && max <= MAX_UINT32
    ensures var length := BigEndian(frame[..FRAME_HEADER_LENGTH]);
            length <= max && |frame| == FRAME_HEADER_LENGTH + length <==> exists payload :: IsFrame(frame, payload, max)
  {
    var head, payload := frame[..FRAME_HEADER_LENGTH], frame[FRAME_HEADER_LENGTH..];
    HeaderUnique(head);
    assert frame == head + payload;
    if BigEndian(head) == |payload| <= max { assert IsFrame(frame, payload, max); }
    forall other | IsFrame(frame, other, max)
      ensures |other| == BigEndian(head) && |frame| == FRAME_HEADER_LENGTH + |other|
    {
      assert head == Header(|other|);
      HeaderRoundTrip(|other|);
    }
  }

  datatype DecoderState = Opened | HasEnded | HasFailed

  ghost function BlockLength(index: nat, expected: nat): (n: int) {
    Min(PAYLOAD_BLOCK_SIZE, expected - index * PAYLOAD_BLOCK_SIZE)
  }

  function Min(a: int, b: int): int { if a <= b then a else b }

  /** The bytes of consecutive blocks, one after the other. */
  ghost function Gather(blocks: seq<array<Byte>>): Bytes
    reads blocks
  {
    if blocks == [] then [] else Gather(blocks[..|blocks| - 1]) + blocks[|blocks| - 1][..]
  }

  ghost function Allocated(blocks: seq<array<Byte>>): nat {
    if blocks == [] then 0 else Allocated(blocks[..|blocks| - 1]) + blocks[|blocks| - 1].Length
  }

  class FrameDecoder {
    const header: array<Byte>
    var headerLength: nat
    const maxFrameLength: nat
    var payloadBlocks: seq<array<Byte>>
    var currentPayloadBlock: array?<Byte>
    var currentPayloadBlockLength: nat
    var expectedPayloadLength: Option<nat>
    var payloadLength: nat
    var state: DecoderState

    /** The block buffer: every block but the last is full, the last one holds what is left. */
    ghost predicate ValidBlocks(expected: nat)
      reads this, payloadBlocks
    {
      var n := |payloadBlocks|;
      && (forall i, j :: 0 <= i < j < n ==> payloadBlocks[i] != payloadBlocks[j])
      && header !in payloadBlocks
      && (forall i :: 0 <= i < n - 1 ==> payloadBlocks[i].Length == PAYLOAD_BLOCK_SIZE)
      && (n == 0 ==> currentPayloadBlock == null && currentPayloadBlockLength == 0 && payloadLength == 0)
      && (n > 0 ==>
            && currentPayloadBlock == payloadBlocks[n - 1]
            && payloadBlocks[n - 1].Length == BlockLength(n - 1, expected)
            && currentPayloadBlockLength <= payloadBlocks[n - 1].Length
            && payloadLength == (n - 1) * PAYLOAD_BLOCK_SIZE + currentPayloadBlockLength)
      && payloadLength <= expected
    }

    ghost predicate Valid()
      reads this, payloadBlocks
    {
      && header.Length == FRAME_HEADER_LENGTH
      && maxFrameLength <= MAX_UINT32
      && headerLength < FRAME_HEADER_LENGTH
      && (expectedPayloadLength.None? ==>
            payloadBlocks == [] && currentPayloadBlock == null && currentPayloadBlockLength == 0 && payloadLength == 0)
      && (expectedPayloadLength.Some? ==>
            && headerLength == 0
            && 0 < expectedPayloadLength.value <= maxFrameLength
            && ValidBlocks(expectedPayloadLength.value)
            && (payloadBlocks != [] ==> currentPayloadBlockLength > 0))
    }

    /** The payload bytes in the block buffer. */
    ghost function Received(): Bytes
      reads this, payloadBlocks
      requires payloadBlocks != [] ==> currentPayloadBlockLength <= payloadBlocks[|payloadBlocks| - 1].Length
    {
      var n := |payloadBlocks|;
      if n == 0 then [] else Gather(payloadBlocks[..n - 1]) + payloadBlocks[n - 1][..currentPayloadBlockLength]
    }

    /** At rest a frame is never complete, and a known length is the one the header bytes spell. */
    ghost predicate AtRest()
      reads this, header, payloadBlocks
    {
      && Valid()
      && (expectedPayloadLength.Some? ==>
            && expectedPayloadLength.value == BigEndian(header[..])
            && payloadLength < expectedPayloadLength.value)
    }

    /** The bytes of the frame being received. */
    ghost function Pending(): Bytes
      reads this, header, payloadBlocks
      requires Valid()
    {
      if expectedPayloadLength.None? then header[..headerLength] else header[..] + Received()
    }

    ghost function View(): Stream
      reads this, header, payloadBlocks
      requires Valid()
    {
      match state
      case Opened => Open(Pending())
      case HasEnded => Ended
      case HasFailed => Failed
    }

    constructor (limit: nat)
      requires limit <= MAX_UINT32
      ensures AtRest() && View() == Open([]) && maxFrameLength == limit
      ensures fresh(header) && payloadBlocks == []
    {
      header := new Byte[FRAME_HEADER_LENGTH](i => 0);
      maxFrameLength := limit;
      headerLength := 0;
      payloadBlocks, currentPayloadBlock, currentPayloadBlockLength := [], null, 0;
      expectedPayloadLength, payloadLength := None, 0;
      state := Opened;
    }

    /** The block buffer holds exactly the payload bytes received so far and allocates less than one
        block beyond them, and never more than the announced length. */
    lemma BufferBound()
      requires Valid()
      ensures |Received()| == payloadLength
      ensures Allocated(payloadBlocks) < payloadLength + PAYLOAD_BLOCK_SIZE
      ensures expectedPayloadLength.Some? ==> Allocated(payloadBlocks) <= expectedPayloadLength.value
    {
      var n := |payloadBlocks|;
      if n > 0 {
        FullBlocks(payloadBlocks[..n - 1]);
        assert Allocated(payloadBlocks) == (n - 1) * PAYLOAD_BLOCK_SIZE + payloadBlocks[n - 1].Length;
        assert payloadBlocks[n - 1].Length == BlockLength(n - 1, expectedPayloadLength.value);
      }
    }

    method Push(chunk: Bytes) returns (r: Thrown<seq<Bytes>>)
      requires AtRest()
      modifies this, header, payloadBlocks
      ensures AtRest()
      ensures forall i :: 0 <= i < |payloadBlocks| ==> payloadBlocks[i] in old(payloadBlocks) || fresh(payloadBlocks[i])
      ensures var (stream, pushed) := FrameSpec.Push(old(View()), chunk, maxFrameLength);
              View() == stream && r == (if pushed.Frames? then Ok(pushed.frames) else FrameError)
    {
      hide Gather, BigEndian, BlockLength;
      if state == HasEnded || state == HasFailed { return FrameError; }
      var frames: seq<Bytes> := [];
      var chunkOffset := 0;
      ghost var start := Pending();
      PendingIsPartial();
      assert start + chunk[..0] == start;
      while chunkOffset < |chunk|
        invariant 0 <= chunkOffset <= |chunk|
        invariant AtRest() && state == Opened
        invariant forall i :: 0 <= i < |payloadBlocks| ==> payloadBlocks[i] in old(payloadBlocks) || fresh(payloadBlocks[i])
        invariant ParseBytes(start + chunk[..chunkOffset], maxFrameLength) == Parse(frames, Pending(), false)
        decreases |chunk| - chunkOffset
      {
        ghost var from, pending := chunkOffset, Pending();
        var tooLong, complete;
        chunkOffset, tooLong, complete := Take(chunk, chunkOffset);
        Progress(start, chunk, from, chunkOffset, frames, pending, maxFrameLength);
        if tooLong {
          PrefixFails(start, chunk, chunkOffset, maxFrameLength);
          return FrameError;
        }
        frames := frames + complete;
      }
      assert chunk[..|chunk|] == chunk;
      return Ok(frames);
    }

    /** One turn of the push loop: some header or payload bytes, perhaps completing a frame. */
    method Take(chunk: Bytes, offset: nat) returns (next: nat, tooLong: bool, complete: seq<Bytes>)
      requires AtRest() && state == Opened && offset < |chunk|
      modifies this, header, payloadBlocks
      ensures AtRest() && offset < next <= |chunk|
      ensures forall i :: 0 <= i < |payloadBlocks| ==> payloadBlocks[i] in old(payloadBlocks) || fresh(payloadBlocks[i])
      ensures var p := ParseBytes(old(Pending()) + chunk[offset..next], maxFrameLength);
              && tooLong == p.failed
              && View() == (if tooLong then Failed else Open(p.rest))
              && p.frames == complete
    {
      if expectedPayloadLength.None? {
        next, tooLong, complete := ReadHeader(chunk, offset);
        if tooLong { Fail(); }
      } else {
        tooLong := false;
        next, complete := ReadPayload(chunk, offset);
      }
    }

    method End() returns (ok: bool)
      requires AtRest()
      modifies this
      ensures AtRest() && (View(), ok) == FrameSpec.End(old(View()))
    {
      if state == HasEnded || state == HasFailed { return false; }
      if headerLength != 0 || expectedPayloadLength.Some? {
        Fail();
        return false;
      }
      state := HasEnded;
      return true;
    }

    /** Takes header bytes; on the fourth one the length is known and checked. */
    method ReadHeader(chunk: Bytes, offset: nat) returns (next: nat, tooLong: bool, complete: seq<Bytes>)
      requires AtRest() && state == Opened && expectedPayloadLength.None? && offset < |chunk|
      modifies this, header
      ensures Valid() && state == Opened && offset < next <= |chunk|
      ensures payloadBlocks == []
      ensures var p := ParseBytes(old(Pending()) + chunk[offset..next], maxFrameLength);
              && tooLong == p.failed
              && (!tooLong ==> AtRest() && Pending() == p.rest)
              && p.frames == complete
    {
      complete, tooLong := [], false;
      var headerBytes := Min(FRAME_HEADER_LENGTH - headerLength, |chunk| - offset);
      next := offset + headerBytes;
      ghost var seen := Pending() + chunk[offset..next];
      SetBytes(header, chunk[offset..next], headerLength);
      assert header[..headerLength + headerBytes] == seen;
      if headerLength + headerBytes < FRAME_HEADER_LENGTH {
        headerLength := headerLength + headerBytes;
        return;
      }
      var frameLength := BigEndian(header[..]);
      headerLength := 0;
      assert header[..] == seen == seen[..FRAME_HEADER_LENGTH];
      if frameLength > maxFrameLength { return next, true, []; }
      assert ParseBytes([], maxFrameLength) == Parse([], [], false);
      if frameLength == 0 {
        assert seen[FRAME_HEADER_LENGTH..] == [];
        return next, false, [[]];
      }
      expectedPayloadLength := Some(frameLength);
      payloadBlocks, currentPayloadBlock, currentPayloadBlockLength, payloadLength := [], null, 0, 0;
    }

    /** Fills blocks until the chunk or the frame is exhausted. */
    method ReadPayload(chunk: Bytes, offset: nat) returns (next: nat, complete: seq<Bytes>)
      requires AtRest() && state == Opened && expectedPayloadLength.Some? && offset < |chunk|
      modifies this, payloadBlocks
      ensures AtRest() && state == Opened && offset < next <= |chunk|
      ensures forall i :: 0 <= i < |payloadBlocks| ==> payloadBlocks[i] in old(payloadBlocks) || fresh(payloadBlocks[i])
      ensures ParseBytes(old(Pending()) + chunk[offset..next], maxFrameLength) == Parse(complete, Pending(), false)
    {
      hide Gather, BlockLength, BigEndian;
      var expected := expectedPayloadLength.value;
      ghost var before := Received();
      next := offset;
      while next < |chunk| && payloadLength < expected
        invariant offset <= next <= |chunk| && (next == offset ==> payloadLength < expected)
        invariant Valid() && state == Opened && expectedPayloadLength == Some(expected)
        invariant header[..] == old(header[..])
        invariant forall i :: 0 <= i < |payloadBlocks| ==> payloadBlocks[i] in old(payloadBlocks) || fresh(payloadBlocks[i])
        invariant Received() == before + chunk[offset..next]
        decreases |chunk| - next
      {
        ghost var from, held := next, Received();
        next := FillBlock(chunk, next);
        Stretch(before, chunk, offset, from, next);
      }
      assert old(Pending()) + chunk[offset..next] == header[..] + Received();
      complete := FinishFrame();
    }

    /** Hands out the payload if it is complete, and forgets it. */
    method FinishFrame() returns (complete: seq<Bytes>)
      requires Valid() && state == Opened && expectedPayloadLength.Some?
      requires expectedPayloadLength.value == BigEndian(header[..])
      modifies this
      ensures AtRest() && state == Opened
      ensures payloadBlocks == [] || payloadBlocks == old(payloadBlocks)
      ensures ParseBytes(old(header[..] + Received()), maxFrameLength) == Parse(complete, Pending(), false)
    {
      ghost var seen := header[..] + Received();
      var expected := expectedPayloadLength.value;
      BufferBound();
      assert seen[..FRAME_HEADER_LENGTH] == header[..];
      complete := [];
      if payloadLength == expected {
        var payload := Assemble();
        assert seen[FRAME_HEADER_LENGTH..FRAME_HEADER_LENGTH + expected] == payload;
        assert seen[FRAME_HEADER_LENGTH + expected..] == [];
        assert ParseBytes([], maxFrameLength) == Parse([], [], false);
        complete := [payload];
        payloadBlocks, currentPayloadBlock, currentPayloadBlockLength := [], null, 0;
        expectedPayloadLength, payloadLength := None, 0;
      }
    }

    /** Copies as many bytes as fit into the current block, allocating a new one when it is full. */
    method FillBlock(chunk: Bytes, offset: nat) returns (next: nat)
      requires Valid() && state == Opened && expectedPayloadLength.Some?
      requires payloadLength < expectedPayloadLength.value && offset < |chunk|
      modifies this, payloadBlocks
      ensures Valid() && state == Opened && expectedPayloadLength == old(expectedPayloadLength) && offset < next <= |chunk|
      ensures forall i :: 0 <= i < |payloadBlocks| ==> payloadBlocks[i] in old(payloadBlocks) || fresh(payloadBlocks[i])
      ensures header[..] == old(header[..])
      ensures Received() == old(Received()) + chunk[offset..next]
    {
      if currentPayloadBlock == null || currentPayloadBlockLength == currentPayloadBlock.Length {
        AddBlock();
      }
      next := CopyIntoBlock(chunk, offset);
    }

    /** The last block can take more bytes; right after its allocation it holds none yet. */
    ghost predicate HasRoom()
      reads this, payloadBlocks
    {
      && expectedPayloadLength.Some?
      && ValidBlocks(expectedPayloadLength.value)
      && payloadBlocks != []
      && currentPayloadBlockLength < payloadBlocks[|payloadBlocks| - 1].Length
    }

    method AddBlock()
      requires Valid() && expectedPayloadLength.Some? && payloadLength < expectedPayloadLength.value
      requires payloadBlocks != [] ==> currentPayloadBlockLength == payloadBlocks[|payloadBlocks| - 1].Length
      modifies this`payloadBlocks, this`currentPayloadBlock, this`currentPayloadBlockLength
      ensures HasRoom() && currentPayloadBlockLength == 0
      ensures |payloadBlocks| == |old(payloadBlocks)| + 1 && payloadBlocks[..|payloadBlocks| - 1] == old(payloadBlocks)
      ensures fresh(payloadBlocks[|payloadBlocks| - 1])
      ensures Received() == old(Received())
    {
      BlocksFull();
      var block := new Byte[Min(PAYLOAD_BLOCK_SIZE, expectedPayloadLength.value - payloadLength)](i => 0);
      payloadBlocks := payloadBlocks + [block];
      currentPayloadBlock := block;
      currentPayloadBlockLength := 0;
      assert payloadBlocks[..|payloadBlocks| - 1] == old(payloadBlocks);
    }

    method CopyIntoBlock(chunk: Bytes, offset: nat) returns (next: nat)
      requires HasRoom() && offset < |chunk|
      modifies this`currentPayloadBlockLength, this`payloadLength, currentPayloadBlock
      ensures ValidBlocks(expectedPayloadLength.value) && currentPayloadBlockLength > 0
      ensures offset < next <= |chunk|
      ensures Received() == old(Received()) + chunk[offset..next]
    {
      hide Gather, BigEndian;
      var block: array<Byte> := currentPayloadBlock;
      ghost var filled := block[..currentPayloadBlockLength];
      var payloadBytes := Min(block.Length - currentPayloadBlockLength, |chunk| - offset);
      next := offset + payloadBytes;
      SetBytes(block, chunk[offset..next], currentPayloadBlockLength);
      assert block[..currentPayloadBlockLength + payloadBytes] == filled + chunk[offset..next];
      currentPayloadBlockLength := currentPayloadBlockLength + payloadBytes;
      payloadLength := payloadLength + payloadBytes;
    }

    lemma BlocksFull()
      requires Valid() && expectedPayloadLength.Some? && payloadLength < expectedPayloadLength.value
      requires payloadBlocks != [] ==> currentPayloadBlockLength == payloadBlocks[|payloadBlocks| - 1].Length
      ensures payloadLength == |payloadBlocks| * PAYLOAD_BLOCK_SIZE
      ensures forall i :: 0 <= i < |payloadBlocks| ==> payloadBlocks[i].Length == PAYLOAD_BLOCK_SIZE
      ensures Gather(payloadBlocks) == Received()
    {
      var n := |payloadBlocks|;
      if n > 0 {
        assert payloadBlocks[n - 1].Length == BlockLength(n - 1, expectedPayloadLength.value);
        assert payloadBlocks[n - 1][..currentPayloadBlockLength] == payloadBlocks[n - 1][..];
      }
    }

    /** The payload of a complete frame, from one block or by concatenating several. */
    method Assemble() returns (payload: Bytes)
      requires Valid() && expectedPayloadLength.Some? && payloadLength == expectedPayloadLength.value
      ensures payload == Received()
    {
      var n := |payloadBlocks|;
      assert payloadBlocks[n - 1].Length == BlockLength(n - 1, expectedPayloadLength.value);
      assert payloadBlocks[n - 1][..currentPayloadBlockLength] == payloadBlocks[n - 1][..];
      assert payloadBlocks == payloadBlocks[..n - 1] + [payloadBlocks[n - 1]];
      if n == 1 { return payloadBlocks[0][..]; }
      BufferBound();
      payload := Concatenate(payloadBlocks, expectedPayloadLength.value);
    }

    method Fail()
      requires Valid()
      modifies this
      ensures AtRest() && View() == Failed && payloadBlocks == []
    {
      state := HasFailed;
      headerLength := 0;
      payloadBlocks, currentPayloadBlock, currentPayloadBlockLength := [], null, 0;
      expectedPayloadLength, payloadLength := None, 0;
    }

    lemma PendingIsPartial()
      requires AtRest()
      ensures ParseBytes(Pending(), maxFrameLength) == Parse([], Pending(), false)
    {
      if expectedPayloadLength.Some? {
        BufferBound();
        assert Pending()[..FRAME_HEADER_LENGTH] == header[..];
      }
    }
  }

  lemma {:induction false} FullBlocks(blocks: seq<array<Byte>>)
    requires forall i :: 0 <= i < |blocks| ==> blocks[i].Length == PAYLOAD_BLOCK_SIZE
    ensures |Gather(blocks)| == Allocated(blocks) == |blocks| * PAYLOAD_BLOCK_SIZE
  {
    if blocks != [] { FullBlocks(blocks[..|blocks| - 1]); }
  }

  lemma {:induction false} GatherPrefix(blocks: seq<array<Byte>>, k: nat)
    requires k < |blocks|
    ensures Gather(blocks[..k + 1]) == Gather(blocks[..k]) + blocks[k][..]
    ensures |Gather(blocks[..k + 1])| <= |Gather(blocks)|
    decreases |blocks|
  {
    var n := |blocks|;
    assert blocks[..k + 1][..k] == blocks[..k];
    if k == n - 1 {
      assert blocks[..n] == blocks;
    } else {
      assert blocks[..n - 1][..k + 1] == blocks[..k + 1] && blocks[..n - 1][..k] == blocks[..k];
      GatherPrefix(blocks[..n - 1], k);
    }
  }

  lemma GatherNone(blocks: seq<array<Byte>>)
    ensures Gather(blocks[..0]) == []
  {
  }

  method Concatenate(blocks: seq<array<Byte>>, length: nat) returns (payload: Bytes)
    requires |Gather(blocks)| == length
    ensures payload == Gather(blocks)
  {
    hide Gather;
    var whole := new Byte[length](i => 0);
    var offset := 0;
    assert Gather(blocks[..0]) == [] by { GatherNone(blocks); }
    for k := 0 to |blocks|
      invariant offset == |Gather(blocks[..k])| <= length
      invariant whole[..offset] == Gather(blocks[..k])
      invariant forall i :: 0 <= i < |blocks| ==> blocks[i] != whole
    {
      GatherPrefix(blocks, k);
      ghost var done := whole[..offset];
      SetBytes(whole, blocks[k][..], offset);
      assert whole[..offset + blocks[k].Length] == done + blocks[k][..];
      offset := offset + blocks[k].Length;
    }
    assert blocks[..|blocks|] == blocks;
    assert whole[..offset] == whole[..];
    return whole[..];
  }

  lemma Stretch(before: Bytes, chunk: Bytes, a: nat, b: nat, c: nat)
    requires a <= b <= c <= |chunk|
    ensures before + chunk[a..b] + chunk[b..c] == before + chunk[a..c]
  {
    assert chunk[a..b] + chunk[b..c] == chunk[a..c];
  }

  lemma PrefixFails(start: Bytes, chunk: Bytes, next: nat, max: nat)
    requires next <= |chunk| && ParseBytes(start + chunk[..next], max).failed
    ensures ParseBytes(start + chunk, max).failed
  {
    assert start + chunk == (start + chunk[..next]) + chunk[next..];
    ParseAppend(start + chunk[..next], chunk[next..], max);
  }

  /** One more stretch of the chunk extends the parse of everything read so far. */
  lemma Progress(start: Bytes, chunk: Bytes, from: nat, next: nat, frames: seq<Bytes>, pending: Bytes, max: nat)
    requires from <= next <= |chunk|
    requires ParseBytes(start + chunk[..from], max) == Parse(frames, pending, false)
    ensures ParseBytes(start + chunk[..next], max) == Resume(Parse(frames, pending, false), chunk[from..next], max)
  {
    assert start + chunk[..next] == (start + chunk[..from]) + chunk[from..next];
    ParseAppend(start + chunk[..from], chunk[from..next], max);
  }
}
