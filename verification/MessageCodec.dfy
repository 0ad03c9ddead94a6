/**
 * packages/protocol/src/codec.ts: validated messages over framed bytes. CBOR (RFC 8949) and the
 * schema check are parameters: `encode` and `decode` are partial functions between messages and
 * payloads, and the round trip is stated for any pair where `decode` inverts `encode`.
 */
module MessageCodec {
  import opened Wrappers
  import opened Framing
  import opened FrameDecoding

  type Encoder<!T> = T -> Option<seq<byte>>
  type Decoder<!T> = seq<byte> -> Option<T>

  /** The frame of a message, when the message validates, encodes and fits. */
  function MessageFrame<T>(message: T, encode: Encoder<T>, max: int): Option<seq<byte>> {
    if encode(message).Some? && ValidLimit(max) && |encode(message).value| <= max
    then Some(Frame(encode(message).value)) else None
  }

  method EncodeProtocolMessage<T>(message: T, encode: Encoder<T>, option: Option<int>) returns (r: Outcome<seq<byte>>)
    ensures match MessageFrame(message, encode, LimitOr(option))
            case Some(frame) => r == Returned(frame)
            case None => r == Thrown
  {
    var max := LimitOr(option);
    var payload := encode(message);
    if payload == None {
      return Thrown;
    }
    var framed := EncodeFrame(payload.value);
    if framed.Thrown? {
      return Thrown;
    }
    var complete := AssertCompleteFrame(framed.value[..], max);
    if complete.Thrown? {
      return Thrown;
    }
    FrameInjective(payload.value, max);
    return Returned(framed.value[..]);
  }

  /** A frame has one payload, so the completeness check speaks about the payload that was framed. */
  lemma FrameInjective(payload: seq<byte>, max: int)
    requires |payload| <= MAX_UINT32 && ValidLimit(max)
    ensures (exists p: seq<byte> :: |p| <= max && Frame(payload) == Frame(p)) ==> |payload| <= max
  {
    forall p: seq<byte> | |p| <= max && Frame(payload) == Frame(p)
      ensures |payload| <= max
    {
      assert |Frame(payload)| == |Frame(p)|;
    }
  }

  /** Messages up to the first frame that does not decode. */
  function Decodable<T>(frames: seq<seq<byte>>, decode: Decoder<T>): (messages: seq<T>)
    ensures |messages| <= |frames|
  {
    if frames == [] || decode(frames[0]) == None then []
    else [decode(frames[0]).value] + Decodable(frames[1..], decode)
  }

  predicate AllDecode<T>(frames: seq<seq<byte>>, decode: Decoder<T>) {
    forall f <- frames :: decode(f).Some?
  }

  /** The decoding loop of a push: the first bad frame discards what came before it. */
  method DecodeFrames<T>(frames: seq<seq<byte>>, decode: Decoder<T>) returns (r: Outcome<seq<T>>)
    ensures r == if AllDecode(frames, decode) then Returned(Decodable(frames, decode)) else Thrown
  {
    var messages: seq<T> := [];
    for i := 0 to |frames|
      invariant messages + Decodable(frames[i..], decode) == Decodable(frames, decode)
      invariant forall k | 0 <= k < i :: decode(frames[k]).Some?
    {
      var message := decode(frames[i]);
      if message == None {
        return Thrown;
      }
      DecodableStep(frames[i..], decode);
      assert frames[i..][1..] == frames[i + 1..];
      messages := messages + [message.value];
    }
    assert messages + [] == messages;
    return Returned(messages);
  }

  class ValidatedMessageDecoder<T> {
    var failed: bool
    const frames: FrameDecoder
    const decode: Decoder<T>

    ghost predicate Valid()
      reads this, frames, frames.Repr
    {
      frames.Valid()
    }

    constructor (frames: FrameDecoder, decode: Decoder<T>)
      requires frames.Valid()
      ensures Valid() && !failed && this.frames == frames && this.decode == decode
    {
      failed := false;
      this.frames := frames;
      this.decode := decode;
    }

    /** Decodes the frames a chunk completes; any failure is latched and loses the chunk's messages. */
    method Push(chunk: seq<byte>) returns (r: Outcome<seq<T>>)
      requires Valid()
      modifies this, frames, frames.Repr
      ensures Valid() && fresh(frames.Repr - old(frames.Repr))
      ensures var p := ParseAll(old(frames.Pending()) + chunk, frames.maxFrameLength);
        if old(failed) || old(frames.state) != Open || p.oversized || !AllDecode(p.frames, decode)
        then r == Thrown && failed
        else r == Returned(Decodable(p.frames, decode)) && !failed && frames.state == Open && frames.Pending() == p.rest
    {
      if failed {
        return Thrown;
      }
      var completed := frames.Push(chunk);
      if completed.Thrown? {
        failed := true;
        return Thrown;
      }
      r := DecodeFrames(completed.value, decode);
      failed := r.Thrown?;
    }

    method End() returns (r: Outcome<()>)
      requires Valid()
      modifies this, frames
      ensures Valid() && frames.Repr == old(frames.Repr)
      ensures r.Returned? <==> !old(failed) && old(frames.state) == Open && old(frames.Pending()) == []
      ensures r.Thrown? <==> failed
    {
      if failed {
        return Thrown;
      }
      r := frames.End();
      if r.Thrown? {
        failed := true;
      }
    }
  }

  lemma DecodableStep<T>(frames: seq<seq<byte>>, decode: Decoder<T>)
    requires frames != [] && decode(frames[0]).Some?
    ensures Decodable(frames, decode) == [decode(frames[0]).value] + Decodable(frames[1..], decode)
  {
  }

  /** What a receiver has after feeding chunks until the first failure. */
  datatype Received<T> = Received(messages: seq<T>, rest: seq<byte>, failed: bool)

  /** The specification of `Push`, repeated over a list of chunks. */
  function Receive<T>(pending: seq<byte>, chunks: seq<seq<byte>>, decode: Decoder<T>, max: nat): Received<T>
    decreases chunks
  {
    if chunks == [] then Received([], pending, false)
    else
      var p := ParseAll(pending + chunks[0], max);
      if p.oversized || !AllDecode(p.frames, decode) then Received([], [], true)
      else
        var later := Receive(p.rest, chunks[1..], decode, max);
        later.(messages := Decodable(p.frames, decode) + later.messages)
  }

  lemma Accumulates<T>(before: seq<T>, now: seq<T>, rest: Received<T>)
    ensures rest.(messages := before + (now + rest.messages)) == rest.(messages := before + now + rest.messages)
  {
    assert before + (now + rest.messages) == before + now + rest.messages;
  }

  /** Feeds the chunks to a decoder, as a transport does, until one fails. */
  method ReceiveAll<T>(decoder: ValidatedMessageDecoder<T>, chunks: seq<seq<byte>>) returns (messages: seq<T>)
    requires decoder.Valid() && !decoder.failed && decoder.frames.state == Open
    modifies decoder, decoder.frames, decoder.frames.Repr
    ensures decoder.Valid()
    ensures var r := Receive(old(decoder.frames.Pending()), chunks, decoder.decode, decoder.frames.maxFrameLength);
      && messages == r.messages && decoder.failed == r.failed
      && (!r.failed ==> decoder.frames.state == Open && decoder.frames.Pending() == r.rest)
  {
    messages := [];
    ghost var pending, max := decoder.frames.Pending(), decoder.frames.maxFrameLength;
    ghost var r := Receive(pending, chunks, decoder.decode, max);
    ghost var later := r;
    assert chunks[0..] == chunks;
    for i := 0 to |chunks|
      invariant decoder.Valid() && !decoder.failed && decoder.frames.state == Open
      invariant fresh(decoder.frames.Repr - old(decoder.frames.Repr))
      invariant pending == decoder.frames.Pending()
      invariant later == Receive(pending, chunks[i..], decoder.decode, max)
      invariant r == later.(messages := messages + later.messages)
    {
      ReceiveStep(pending, chunks, i, decoder.decode, max);
      var received := decoder.Push(chunks[i]);
      if received.Thrown? {
        return;
      }
      pending := decoder.frames.Pending();
      ghost var rest := Receive(pending, chunks[i + 1..], decoder.decode, max);
      Accumulates(messages, received.value, rest);
      messages := messages + received.value;
      later := rest;
    }
  }

  lemma ReceiveStep<T>(pending: seq<byte>, chunks: seq<seq<byte>>, i: nat, decode: Decoder<T>, max: nat)
    requires i < |chunks|
    ensures var p := ParseAll(pending + chunks[i], max); var r := Receive(pending, chunks[i..], decode, max);
      if p.oversized || !AllDecode(p.frames, decode) then r == Received([], [], true)
      else var later := Receive(p.rest, chunks[i + 1..], decode, max);
        r == later.(messages := Decodable(p.frames, decode) + later.messages)
  {
    assert chunks[i..][1..] == chunks[i + 1..];
  }

  lemma {:induction false} DecodableConcat<T>(a: seq<seq<byte>>, b: seq<seq<byte>>, decode: Decoder<T>)
    ensures Decodable(a + b, decode) == if AllDecode(a, decode) then Decodable(a, decode) + Decodable(b, decode) else Decodable(a, decode)
  {
    if a == [] {
      assert a + b == b;
    } else {
      assert (a + b)[1..] == a[1..] + b;
      assert a == [a[0]] + a[1..];
      DecodableConcat(a[1..], b, decode);
    }
  }

  /**
   * Chunking does not matter: the messages received, whether a push fails, and what is left
   * pending are those of one parse of all the bytes; before a failure a prefix has been received.
   */
  lemma {:induction false} ChunkingInvariance<T>(pending: seq<byte>, chunks: seq<seq<byte>>, decode: Decoder<T>, max: nat)
    requires ParseAll(pending, max) == Parsed([], pending, false)
    ensures var whole := ParseAll(pending + Concat(chunks), max); var r := Receive(pending, chunks, decode, max);
      && (r.failed <==> whole.oversized || !AllDecode(whole.frames, decode))
      && r.messages <= Decodable(whole.frames, decode)
      && (!r.failed ==> r.messages == Decodable(whole.frames, decode) && r.rest == whole.rest)
    decreases chunks
  {
    if chunks == [] {
      assert pending + [] == pending;
    } else {
      var p := ParseAll(pending + chunks[0], max);
      assert pending + chunks[0] + Concat(chunks[1..]) == pending + Concat(chunks);
      ParseResumes(pending + chunks[0], Concat(chunks[1..]), max);
      RestIsIncomplete(pending + chunks[0], max);
      DecodableConcat(p.frames, ParseAll(p.rest + Concat(chunks[1..]), max).frames, decode);
      if !p.oversized {
        ChunkingInvariance(p.rest, chunks[1..], decode, max);
      } else {
        SplitExtends(p.rest, Concat(chunks[1..]), max);
      }
    }
  }

  lemma {:induction false} RestIsIncomplete(bytes: seq<byte>, max: nat)
    ensures var p := ParseAll(bytes, max); ParseAll(p.rest, max) == Parsed([], p.rest, p.oversized)
    decreases |bytes|
  {
    var front := Split(bytes, max);
    if front.Whole? {
      RestIsIncomplete(front.more, max);
    }
  }

  function Payloads<T>(messages: seq<T>, encode: Encoder<T>): (payloads: seq<seq<byte>>)
    requires forall m <- messages :: encode(m).Some?
    ensures |payloads| == |messages| && forall i | 0 <= i < |messages| :: payloads[i] == encode(messages[i]).value
  {
    seq(|messages|, i requires 0 <= i < |messages| => encode(messages[i]).value)
  }

  lemma {:induction false} DecodablePayloads<T>(messages: seq<T>, encode: Encoder<T>, decode: Decoder<T>)
    requires forall m <- messages :: encode(m).Some? && decode(encode(m).value) == Some(m)
    ensures AllDecode(Payloads(messages, encode), decode) && Decodable(Payloads(messages, encode), decode) == messages
  {
    if messages != [] {
      assert Payloads(messages, encode)[1..] == Payloads(messages[1..], encode);
      DecodablePayloads(messages[1..], encode, decode);
    }
  }

  /**
   * Messages that frame within the receiver's limit arrive whole, in order and exactly once,
   * however their bytes are cut, and the stream ends cleanly.
   */
  lemma EndToEndRoundTrip<T>(messages: seq<T>, chunks: seq<seq<byte>>, encode: Encoder<T>, decode: Decoder<T>, max: nat)
    requires max <= MAX_UINT32
    requires forall m <- messages :: encode(m).Some? && MessageFrame(m, encode, max).Some?
    requires forall m <- messages :: decode(encode(m).value) == Some(m)
    requires Concat(chunks) == Frames(Payloads(messages, encode))
    ensures Receive([], chunks, decode, max) == Received(messages, [], false)
  {
    var payloads := Payloads(messages, encode);
    EncodeParseRoundTrip(payloads, max);
    DecodablePayloads(messages, encode, decode);
    ChunkingInvariance([], chunks, decode, max);
    assert [] + Concat(chunks) == Concat(chunks);
  }
}
