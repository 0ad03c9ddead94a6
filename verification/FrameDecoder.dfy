/**
 * The incremental frame decoder of packages/protocol/src/framing.ts. `Pending` is what it has
 * consumed but not yet returned; every operation is specified by the one-shot parser on it.
 */
module FrameDecoding {
  import opened Wrappers
  import opened Framing

  datatype DecoderState = Open | Ended | Failed

  datatype HeaderRead = NeedMore | TooLong | Empty | Ready

  datatype Progress = Consumed | Completed(frame: seq<byte>) | Rejected

  /** Prefixes a payload with its length; a payload too long for the prefix throws. */
  method EncodeFrame(payload: seq<byte>) returns (r: Outcome<array<byte>>)
    ensures r.Returned? <==> |payload| <= MAX_UINT32
    ensures r.Returned? ==> fresh(r.value) && r.value[..] == Frame(payload)
  {
    if |payload| > MAX_UINT32 {
      return Thrown;
    }
    var length := |payload|;
    var frame := new byte[FRAME_HEADER_LENGTH + length];
    frame[0] := length / 0x1_000_000 % 256;
    frame[1] := length / 0x1_0000 % 256;
    frame[2] := length / 0x100 % 256;
    frame[3] := length % 256;
    Store(frame, FRAME_HEADER_LENGTH, payload);
    assert frame[..] == frame[..4] + frame[4..];
    return Returned(frame);
  }

  /** Copies `bytes` into the buffer at `at`, as a typed array's `set` does. */
  method Store(buffer: array<byte>, at: nat, bytes: seq<byte>)
    requires at + |bytes| <= buffer.Length
    modifies buffer
    ensures buffer[..at] == old(buffer[..at])
    ensures buffer[at..at + |bytes|] == bytes
    ensures buffer[at + |bytes|..] == old(buffer[at + |bytes|..])
  {
    forall i | 0 <= i < |bytes| {
      buffer[at + i] := bytes[i];
    }
  }

  const DEFAULT_MAX_FRAME_LENGTH: nat := 16 * 1024 * 1024

  predicate ValidLimit(max: int) {
    0 <= max <= MAX_UINT32
  }

  function LimitOr(option: Option<int>): int {
    if option.Some? then option.value else DEFAULT_MAX_FRAME_LENGTH
  }

  lemma CompleteFrameIff(frame: seq<byte>, max: nat)
    requires FRAME_HEADER_LENGTH <= |frame| && max <= MAX_UINT32
    ensures (exists payload :: |payload| <= max && frame == Frame(payload))
      <==> (var length := BigEndian(frame[..FRAME_HEADER_LENGTH]); length <= max && |frame| == FRAME_HEADER_LENGTH + length)
  {
    var header, body := frame[..FRAME_HEADER_LENGTH], frame[FRAME_HEADER_LENGTH..];
    HeaderInjective(header);
    if BigEndian(header) == |body| {
      assert frame == Frame(body);
    }
    if payload :| |payload| <= max && frame == Frame(payload) {
      HeaderRoundTrip(|payload|);
      assert header == Header(|payload|);
    }
  }

  /** Throws unless the bytes are exactly one frame within the limit. */
  method AssertCompleteFrame(frame: seq<byte>, max: int) returns (r: Outcome<()>)
    ensures r.Returned? <==> ValidLimit(max) && exists payload :: |payload| <= max && frame == Frame(payload)
  {
    if |frame| < FRAME_HEADER_LENGTH {
      return Thrown;
    }
    var length := BigEndian(frame[..FRAME_HEADER_LENGTH]);
    if !ValidLimit(max) || length > max || |frame| != FRAME_HEADER_LENGTH + length {
      if ValidLimit(max) {
        CompleteFrameIff(frame, max);
      }
      return Thrown;
    }
    CompleteFrameIff(frame, max);
    return Returned(());
  }

  /** Copies the blocks one after another into a new buffer. */
  method JoinBlocks(blocks: seq<array<byte>>, length: nat, ghost pieces: seq<seq<byte>>) returns (joined: seq<byte>)
    requires |blocks| == |pieces| && (forall i | 0 <= i < |blocks| :: blocks[i][..] == pieces[i])
    requires length == |Concat(pieces)|
    ensures joined == Concat(pieces)
  {
    var buffer := new byte[length];
    var offset := 0;
    for i := 0 to |blocks|
      invariant offset == |Concat(pieces[..i])| <= length
      invariant buffer[..offset] == Concat(pieces[..i])
    {
      assert pieces[..i + 1] == pieces[..i] + [pieces[i]];
      ConcatAppend(pieces[..i], pieces[i]);
      ConcatPrefix(pieces, i + 1);
      Store(buffer, offset, blocks[i][..]);
      offset := offset + blocks[i].Length;
      assert buffer[..offset] == Concat(pieces[..i]) + pieces[i];
    }
    assert pieces[..|blocks|] == pieces;
    return buffer[..];
  }

  class FrameDecoder {
    const header: array<byte>
    var headerLength: nat
    const maxFrameLength: nat
    var payloadBlocks: seq<array<byte>>
    var currentPayloadBlock: array?<byte>
    var currentPayloadBlockLength: nat
    var expectedPayloadLength: Option<nat>
    var payloadLength: nat
    var state: DecoderState

    /** What the blocks before the current one hold; each of them is full. */
    ghost var full: seq<seq<byte>>

    /** The buffers the decoder may write. */
    ghost var Repr: set<array<byte>>

    constructor (limit: nat)
      requires limit <= MAX_UINT32
      ensures Valid() && fresh(Repr) && Pending() == [] && state == Open && maxFrameLength == limit
    {
      header := new byte[FRAME_HEADER_LENGTH];
      headerLength := 0;
      maxFrameLength := limit;
      payloadBlocks := [];
      currentPayloadBlock := null;
      currentPayloadBlockLength := 0;
      expectedPayloadLength := None;
      payloadLength := 0;
      state := Open;
      full := [];
      Repr := {header};
    }

    /** An option outside the unsigned 32-bit range throws before there is a decoder. */
    static method Create(option: Option<int>) returns (r: Outcome<FrameDecoder>)
      ensures r.Returned? <==> ValidLimit(LimitOr(option))
      ensures r.Returned? ==> var d := r.value;
        && fresh(d) && d.Valid() && fresh(d.Repr) && d.state == Open && d.Pending() == []
        && d.maxFrameLength == LimitOr(option)
    {
      var limit := LimitOr(option);
      if !ValidLimit(limit) {
        return Thrown;
      }
      var d := new FrameDecoder(limit);
      return Returned(d);
    }

    ghost predicate Footprint()
      reads this
    {
      && header.Length == FRAME_HEADER_LENGTH
      && maxFrameLength <= MAX_UINT32
      && header in Repr && header !in payloadBlocks
      && (forall b <- payloadBlocks :: b in Repr)
      && (forall i, j | 0 <= i < j < |payloadBlocks| :: payloadBlocks[i] != payloadBlocks[j])
      && |payloadBlocks| == |full| + (if currentPayloadBlock == null then 0 else 1)
      && if currentPayloadBlock == null then full == [] && currentPayloadBlockLength == 0
         else payloadBlocks[|full|] == currentPayloadBlock && currentPayloadBlockLength <= currentPayloadBlock.Length
    }

    /** The payload bytes received so far, across all blocks. */
    ghost function Payload(): seq<byte>
      requires Footprint()
      reads this, Repr
    {
      Concat(full) + if currentPayloadBlock == null then [] else currentPayloadBlock[..currentPayloadBlockLength]
    }

    /** Blocks are opened in order, each as large as a block may be or as the frame still needs. */
    ghost predicate Tiled(expected: nat)
      requires Footprint()
      reads this, Repr
    {
      && payloadLength == |Payload()| <= expected
      && |Concat(full)| == PAYLOAD_BLOCK_SIZE * |full|
      && (forall i | 0 <= i < |full| :: payloadBlocks[i].Length == PAYLOAD_BLOCK_SIZE && payloadBlocks[i][..] == full[i])
      && (currentPayloadBlock != null ==> currentPayloadBlock.Length == Min(PAYLOAD_BLOCK_SIZE, expected - |Concat(full)|))
    }

    /** A block is only opened for a byte that is at hand. */
    ghost predicate LastBlockUsed()
      reads this
    {
      currentPayloadBlock != null ==> 0 < currentPayloadBlockLength
    }

    ghost predicate Valid()
      reads this, Repr
    {
      && Footprint()
      && headerLength < FRAME_HEADER_LENGTH
      && match expectedPayloadLength
         case None => payloadBlocks == [] && payloadLength == 0
         case Some(expected) =>
           && headerLength == 0
           && payloadLength < expected <= maxFrameLength
           && Tiled(expected)
           && LastBlockUsed()
    }

    /** The consumed bytes that no returned frame covers yet. */
    ghost function Pending(): seq<byte>
      requires Footprint() && headerLength < FRAME_HEADER_LENGTH
      reads this, Repr
    {
      if expectedPayloadLength.Some? then Header(expectedPayloadLength.value) + Payload() else header[..headerLength]
    }

    method OpenBlock(expected: nat)
      requires Footprint() && Tiled(expected) && payloadLength < expected
      requires currentPayloadBlock == null || currentPayloadBlockLength == currentPayloadBlock.Length
      modifies this`payloadBlocks, this`currentPayloadBlock, this`currentPayloadBlockLength, this`full, this`Repr
      ensures Footprint() && Tiled(expected) && Payload() == old(Payload())
      ensures currentPayloadBlock != null && fresh(currentPayloadBlock)
      ensures currentPayloadBlockLength == 0 < currentPayloadBlock.Length
      ensures payloadBlocks == old(payloadBlocks) + [currentPayloadBlock] && Repr == old(Repr) + {currentPayloadBlock}
    {
      var block := new byte[Min(PAYLOAD_BLOCK_SIZE, expected - payloadLength)];
      if currentPayloadBlock != null {
        CloseBlock();
      }
      payloadBlocks := payloadBlocks + [block];
      Repr := Repr + {block};
      currentPayloadBlock := block;
      currentPayloadBlockLength := 0;
    }

    /** The full current block counts as one of the finished ones. */
    ghost method CloseBlock()
      requires Footprint() && currentPayloadBlock != null && currentPayloadBlockLength == currentPayloadBlock.Length
      modifies this`full
      ensures full == old(full) + [currentPayloadBlock[..]] && Concat(full) == old(Payload())
    {
      ConcatAppend(full, currentPayloadBlock[..]);
      full := full + [currentPayloadBlock[..]];
    }

    method FillBlock(bytes: seq<byte>, ghost expected: nat)
      requires Footprint() && Tiled(expected)
      requires currentPayloadBlock != null && currentPayloadBlockLength + |bytes| <= currentPayloadBlock.Length
      modifies this`currentPayloadBlockLength, this`payloadLength, currentPayloadBlock
      ensures Footprint() && Tiled(expected)
      ensures Payload() == old(Payload()) + bytes && currentPayloadBlockLength == old(currentPayloadBlockLength) + |bytes|
      ensures header[..] == old(header[..])
    {
      var block := currentPayloadBlock;
      ghost var before := block[..currentPayloadBlockLength];
      Store(block, currentPayloadBlockLength, bytes);
      Grown(before, bytes, block[..]);
      currentPayloadBlockLength := currentPayloadBlockLength + |bytes|;
      payloadLength := payloadLength + |bytes|;
      assert Concat(full) + (before + bytes) == Concat(full) + before + bytes;
    }

    /** Copies as many bytes as the current block takes, opening the next block when it is full. */
    method FillSome(chunk: seq<byte>, offset: nat, ghost expected: nat) returns (chunkOffset: nat)
      requires Footprint() && expectedPayloadLength == Some(expected) && Tiled(expected) && payloadLength < expected
        && offset < |chunk|
      modifies this`payloadBlocks, this`currentPayloadBlock, this`currentPayloadBlockLength, this`payloadLength, this`full, this`Repr, Repr
      ensures Footprint() && Tiled(expected) && LastBlockUsed()
      ensures offset < chunkOffset <= |chunk| && Payload() == old(Payload()) + chunk[offset..chunkOffset]
      ensures header[..] == old(header[..])
      ensures fresh(Repr - old(Repr))
    {
      if currentPayloadBlock == null || currentPayloadBlockLength == currentPayloadBlock.Length {
        OpenBlock(expectedPayloadLength.value);
      }
      var payloadBytes := Min(currentPayloadBlock.Length - currentPayloadBlockLength, |chunk| - offset);
      chunkOffset := offset + payloadBytes;
      FillBlock(chunk[offset..chunkOffset], expected);
    }

    /** Appends chunk bytes until the chunk or the payload is complete. */
    method FillPayload(chunk: seq<byte>, offset: nat) returns (chunkOffset: nat)
      requires Footprint() && headerLength == 0 && expectedPayloadLength.Some? && offset <= |chunk|
      requires Tiled(expectedPayloadLength.value) && LastBlockUsed()
      modifies this`payloadBlocks, this`currentPayloadBlock, this`currentPayloadBlockLength, this`payloadLength, this`full, this`Repr, Repr
      ensures Footprint() && Tiled(expectedPayloadLength.value) && LastBlockUsed()
      ensures offset <= chunkOffset <= |chunk| && Payload() == old(Payload()) + chunk[offset..chunkOffset]
      ensures chunkOffset == |chunk| || payloadLength == expectedPayloadLength.value
      ensures header[..] == old(header[..])
      ensures fresh(Repr - old(Repr))
    {
      chunkOffset := offset;
      ghost var before := Payload();
      while chunkOffset < |chunk| && payloadLength < expectedPayloadLength.value
        invariant Footprint() && Tiled(expectedPayloadLength.value) && LastBlockUsed()
        invariant offset <= chunkOffset <= |chunk| && Payload() == before + chunk[offset..chunkOffset]
        invariant header[..] == old(header[..])
        invariant fresh(Repr - old(Repr))
        decreases |chunk| - chunkOffset
      {
        ghost var last := chunkOffset;
        chunkOffset := FillSome(chunk, chunkOffset, expectedPayloadLength.value);
        SliceExtends(before, chunk, offset, last, chunkOffset);
      }
    }

    method Reset()
      requires header.Length == FRAME_HEADER_LENGTH && maxFrameLength <= MAX_UINT32 && header in Repr
      modifies this
      ensures Valid() && Pending() == [] && expectedPayloadLength == None && payloadBlocks == [] && state == old(state)
        && Repr == old(Repr)
    {
      headerLength := 0;
      payloadBlocks := [];
      currentPayloadBlock := null;
      currentPayloadBlockLength := 0;
      expectedPayloadLength := None;
      payloadLength := 0;
      full := [];
    }

    /** Joins the blocks of a complete payload and forgets them. */
    method TakePayload() returns (frame: seq<byte>)
      requires Footprint() && headerLength == 0 && expectedPayloadLength.Some? && Tiled(expectedPayloadLength.value)
      requires payloadLength == expectedPayloadLength.value > 0
      modifies this
      ensures Valid() && Pending() == [] && payloadBlocks == [] && expectedPayloadLength == None && state == old(state)
        && Repr == old(Repr)
      ensures frame == old(Payload())
    {
      if |payloadBlocks| == 1 {
        assert currentPayloadBlockLength == currentPayloadBlock.Length;
        frame := payloadBlocks[0][..];
      } else {
        assert currentPayloadBlockLength == currentPayloadBlock.Length;
        ConcatAppend(full, currentPayloadBlock[..]);
        frame := JoinBlocks(payloadBlocks, expectedPayloadLength.value, full + [currentPayloadBlock[..]]);
      }
      Reset();
    }

    /** Moves up to four chunk bytes into the header. */
    method FillHeader(chunk: seq<byte>, offset: nat) returns (chunkOffset: nat)
      requires Valid() && expectedPayloadLength == None && offset < |chunk|
      modifies this`headerLength, header
      ensures Footprint() && headerLength <= FRAME_HEADER_LENGTH
      ensures offset < chunkOffset <= |chunk| && header[..headerLength] == old(Pending()) + chunk[offset..chunkOffset]
      ensures headerLength == FRAME_HEADER_LENGTH || chunkOffset == |chunk|
    {
      var headerBytes := Min(FRAME_HEADER_LENGTH - headerLength, |chunk| - offset);
      chunkOffset := offset + headerBytes;
      Store(header, headerLength, chunk[offset..chunkOffset]);
      Grown(old(Pending()), chunk[offset..chunkOffset], header[..]);
      headerLength := headerLength + headerBytes;
    }

    /** The header part of one round of the push loop. */
    method ReadHeader(chunk: seq<byte>, offset: nat) returns (chunkOffset: nat, front: HeaderRead)
      requires Valid() && expectedPayloadLength == None && offset < |chunk|
      modifies this`headerLength, this`expectedPayloadLength, header
      ensures Footprint() && headerLength < FRAME_HEADER_LENGTH && offset < chunkOffset <= |chunk|
      ensures payloadBlocks == [] && payloadLength == 0
      ensures front == NeedMore ==> chunkOffset == |chunk| && expectedPayloadLength == None
      ensures front == Ready ==> headerLength == 0 && expectedPayloadLength.Some? && 0 < expectedPayloadLength.value <= maxFrameLength
      ensures front == NeedMore || front == Ready ==> Pending() + chunk[chunkOffset..] == old(Pending()) + chunk[offset..]
      ensures front == TooLong ==> Split(old(Pending()) + chunk[offset..], maxFrameLength) == Oversized
      ensures front == Empty ==> Split(old(Pending()) + chunk[offset..], maxFrameLength) == Whole([], chunk[chunkOffset..])
      ensures front == Empty ==> headerLength == 0 && expectedPayloadLength == None
    {
      ghost var before := Pending() + chunk[offset..];
      chunkOffset := FillHeader(chunk, offset);
      assert before == header[..headerLength] + chunk[chunkOffset..];
      if headerLength < FRAME_HEADER_LENGTH {
        return chunkOffset, NeedMore;
      }
      assert before[..FRAME_HEADER_LENGTH] == header[..] && before[FRAME_HEADER_LENGTH..] == chunk[chunkOffset..];
      var frameLength := BigEndian(header[..]);
      headerLength := 0;
      if frameLength > maxFrameLength {
        return chunkOffset, TooLong;
      }
      if frameLength == 0 {
        return chunkOffset, Empty;
      }
      HeaderInjective(header[..]);
      expectedPayloadLength := Some(frameLength);
      return chunkOffset, Ready;
    }

    /** The payload part of one round of the push loop. */
    method ReadPayload(chunk: seq<byte>, offset: nat) returns (chunkOffset: nat, frame: Option<seq<byte>>)
      requires Footprint() && headerLength == 0 && expectedPayloadLength.Some? && offset <= |chunk|
      requires payloadLength < expectedPayloadLength.value <= maxFrameLength
      requires Tiled(expectedPayloadLength.value) && LastBlockUsed()
      modifies this, Repr
      ensures Valid() && state == old(state) && offset <= chunkOffset <= |chunk|
      ensures offset < |chunk| ==> offset < chunkOffset
      ensures frame == None ==> Pending() + chunk[chunkOffset..] == old(Pending()) + chunk[offset..]
      ensures frame.Some? ==> Pending() == []
      ensures frame.Some? ==> Split(old(Pending()) + chunk[offset..], maxFrameLength) == Whole(frame.value, chunk[chunkOffset..])
      ensures fresh(Repr - old(Repr))
    {
      chunkOffset := ReadBytes(chunk, offset);
      frame := FinishPayload(chunk[chunkOffset..]);
    }

    /** What has been received and the unread input stay the same bytes. */
    method ReadBytes(chunk: seq<byte>, offset: nat) returns (chunkOffset: nat)
      requires Footprint() && headerLength == 0 && expectedPayloadLength.Some? && offset <= |chunk|
      requires payloadLength < expectedPayloadLength.value <= maxFrameLength && Tiled(expectedPayloadLength.value)
        && LastBlockUsed()
      modifies this`payloadBlocks, this`currentPayloadBlock, this`currentPayloadBlockLength, this`payloadLength, this`full, this`Repr, Repr
      ensures Footprint() && Tiled(expectedPayloadLength.value) && LastBlockUsed()
      ensures offset <= chunkOffset <= |chunk| && (offset < |chunk| ==> offset < chunkOffset)
      ensures chunkOffset == |chunk| || payloadLength == expectedPayloadLength.value
      ensures Framed() + chunk[chunkOffset..] == old(Framed()) + chunk[offset..]
      ensures fresh(Repr - old(Repr))
    {
      chunkOffset := FillPayload(chunk, offset);
      Regroup(Header(expectedPayloadLength.value), old(Payload()), chunk, offset, chunkOffset);
    }

    /** The bytes of the current frame so far. */
    ghost function Framed(): seq<byte>
      requires Footprint() && expectedPayloadLength.Some? && expectedPayloadLength.value <= MAX_UINT32
      reads this, Repr
    {
      Header(expectedPayloadLength.value) + Payload()
    }

    /** Takes the payload if it is complete; `more` is the input behind it. */
    method FinishPayload(ghost more: seq<byte>) returns (frame: Option<seq<byte>>)
      requires Footprint() && headerLength == 0 && expectedPayloadLength.Some?
      requires 0 < expectedPayloadLength.value <= maxFrameLength
      requires Tiled(expectedPayloadLength.value) && LastBlockUsed()
      modifies this
      ensures Valid() && state == old(state) && Repr == old(Repr)
      ensures frame == None ==> Pending() == old(Framed())
      ensures frame.Some? ==> Pending() == []
      ensures frame.Some? ==> Split(old(Framed()) + more, maxFrameLength) == Whole(frame.value, more)
    {
      if payloadLength < expectedPayloadLength.value { return None; }
      SplitFrame(Payload(), more, maxFrameLength);
      var payload := TakePayload();
      return Some(payload);
    }

    /** One round of the push loop: at least one byte is consumed, and the unread input means what it meant. */
    method Round(chunk: seq<byte>, offset: nat) returns (chunkOffset: nat, progress: Progress)
      requires Valid() && state == Open && offset < |chunk|
      modifies this, Repr
      ensures Valid() && offset < chunkOffset <= |chunk| && (state == Failed <==> progress == Rejected) && state != Ended
      ensures match progress
              case Rejected => Pending() == [] && Split(old(Pending()) + chunk[offset..], maxFrameLength) == Oversized
              case Consumed => Pending() + chunk[chunkOffset..] == old(Pending()) + chunk[offset..]
              case Completed(frame) => Split(old(Pending()) + chunk[offset..], maxFrameLength) == Whole(frame, Pending() + chunk[chunkOffset..])
      ensures fresh(Repr - old(Repr))
    {
      chunkOffset := offset;
      if expectedPayloadLength == None {
        var front;
        chunkOffset, front := ReadHeader(chunk, chunkOffset);
        match front
        case NeedMore =>
          return chunkOffset, Consumed;
        case TooLong =>
          state := Failed;
          Reset();
          return chunkOffset, Rejected;
        case Empty =>
          assert Pending() + chunk[chunkOffset..] == chunk[chunkOffset..];
          return chunkOffset, Completed([]);
        case Ready =>
      }
      var frame;
      chunkOffset, frame := ReadPayload(chunk, chunkOffset);
      if frame.Some? {
        assert Pending() + chunk[chunkOffset..] == chunk[chunkOffset..];
        return chunkOffset, Completed(frame.value);
      }
      return chunkOffset, Consumed;
    }

    /** One round of the loop over a chunk, and the frame it may have completed. */
    method Advance(chunk: seq<byte>, offset: nat, earlier: seq<seq<byte>>, ghost whole: Parsed)
      returns (chunkOffset: nat, frames: seq<seq<byte>>, rejected: bool)
      requires Valid() && state == Open && offset < |chunk|
      requires Underway(whole, earlier, Pending() + chunk[offset..], maxFrameLength)
      modifies this, Repr
      ensures Valid() && fresh(Repr - old(Repr)) && offset < chunkOffset <= |chunk|
      ensures if rejected then state == Failed && Pending() == [] && whole.oversized
              else state == Open && Underway(whole, frames, Pending() + chunk[chunkOffset..], maxFrameLength)
    {
      ghost var unread := Pending() + chunk[offset..];
      var progress;
      chunkOffset, progress := Round(chunk, offset);
      frames, rejected := earlier, progress == Rejected;
      if rejected {
        UnderwayRejects(whole, earlier, unread, maxFrameLength);
      } else if progress.Completed? {
        UnderwayCompletes(whole, earlier, unread, progress.frame, Pending() + chunk[chunkOffset..], maxFrameLength);
        frames := earlier + [progress.frame];
      }
    }

    /**
     * Consumes a chunk and returns the frames it completes. The result is the one-shot parse of
     * everything not yet returned; a header above the limit throws and latches the failure.
     */
    method Push(chunk: seq<byte>) returns (r: Outcome<seq<seq<byte>>>)
      requires Valid()
      modifies this, Repr
      ensures Valid() && fresh(Repr - old(Repr))
      ensures old(state) != Open ==> r == Thrown && state == old(state) && Pending() == old(Pending())
      ensures old(state) == Open ==>
        var p := ParseAll(old(Pending()) + chunk, maxFrameLength);
        if p.oversized then r == Thrown && state == Failed && Pending() == []
        else r == Returned(p.frames) && state == Open && Pending() == p.rest
    {
      if state != Open {
        return Thrown;
      }
      var frames: seq<seq<byte>>, chunkOffset := [], 0;
      ghost var unread := Pending() + chunk;
      ghost var whole := ParseAll(unread, maxFrameLength);
      UnderwayStarts(unread, maxFrameLength);
      assert chunk[0..] == chunk;
      while chunkOffset < |chunk|
        invariant Valid() && state == Open && chunkOffset <= |chunk|
        invariant fresh(Repr - old(Repr))
        invariant unread == Pending() + chunk[chunkOffset..] && Underway(whole, frames, unread, maxFrameLength)
        decreases |chunk| - chunkOffset
      {
        var rejected;
        chunkOffset, frames, rejected := Advance(chunk, chunkOffset, frames, whole);
        if rejected { return Thrown; }
        unread := Pending() + chunk[chunkOffset..];
      }
      PendingIncomplete();
      UnderwayEnds(whole, frames, Pending(), chunk[chunkOffset..], maxFrameLength);
      r := Returned(frames);
    }

    /** What is pending never already contains a complete frame or an oversized header. */
    lemma PendingIncomplete()
      requires Valid()
      ensures ParseAll(Pending(), maxFrameLength) == Parsed([], Pending(), false)
    {
      if expectedPayloadLength.Some? {
        HeaderRoundTrip(expectedPayloadLength.value);
        assert Pending()[..FRAME_HEADER_LENGTH] == Header(expectedPayloadLength.value);
      }
    }

    /** Succeeds exactly when no frame is half received; a truncated frame latches the failure. */
    method End() returns (r: Outcome<()>)
      requires Valid()
      modifies this
      ensures Valid() && Repr == old(Repr)
        && payloadBlocks == (if r.Thrown? && old(state) == Open then [] else old(payloadBlocks))
      ensures r.Returned? <==> old(state) == Open && old(Pending()) == []
      ensures state == if old(state) != Open then old(state) else if r.Returned? then Ended else Failed
    {
      if state != Open {
        return Thrown;
      }
      if headerLength != 0 || expectedPayloadLength != None {
        state := Failed;
        Reset();
        return Thrown;
      }
      state := Ended;
      return Returned(());
    }

    /** The memory a half-received frame holds, block by block. */
    static function Space(blocks: seq<array<byte>>): nat {
      if blocks == [] then 0 else Space(blocks[..|blocks| - 1]) + blocks[|blocks| - 1].Length
    }

    /**
     * Between pushes the blocks hold no more than the announced frame and at most one byte less
     * than a block beyond what was received, and every block but the last is full.
     */
    lemma BufferBound()
      requires Valid() && expectedPayloadLength.Some?
      ensures Space(payloadBlocks) <= expectedPayloadLength.value
      ensures payloadLength <= Space(payloadBlocks) <= payloadLength + (PAYLOAD_BLOCK_SIZE - 1)
      ensures forall i | 0 <= i < |payloadBlocks| - 1 :: payloadBlocks[i].Length == PAYLOAD_BLOCK_SIZE
    {
      if currentPayloadBlock != null {
        FullSpace(payloadBlocks[..|full|]);
        assert payloadBlocks == payloadBlocks[..|full|] + [currentPayloadBlock];
      }
    }

    static lemma {:induction false} FullSpace(blocks: seq<array<byte>>)
      requires forall b <- blocks :: b.Length == PAYLOAD_BLOCK_SIZE
      ensures Space(blocks) == PAYLOAD_BLOCK_SIZE * |blocks|
    {
      if blocks != [] {
        FullSpace(blocks[..|blocks| - 1]);
      }
    }
  }

  function Min(a: int, b: int): int { if a <= b then a else b }
}
