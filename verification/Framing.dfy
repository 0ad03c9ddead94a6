/**
 * The wire format of packages/protocol/src/framing.ts as a function of whole byte strings:
 * a frame is a payload behind its unsigned 32-bit big-endian length. `ParseAll` is the
 * one-shot reference parser that the incremental decoder is proved against.
 */
module Framing {

  type byte = n: int | 0 <= n < 256

  const FRAME_HEADER_LENGTH: nat := 4
  const MAX_UINT32: nat := 0xffff_ffff
  const PAYLOAD_BLOCK_SIZE: nat := 64 * 1024

  /** The number a complete header stands for. */
  function BigEndian(h: seq<byte>): (n: nat)
    requires |h| == FRAME_HEADER_LENGTH
    ensures n <= MAX_UINT32
  {
    0x1_000_000 * h[0] as int + 0x1_0000 * h[1] as int + 0x100 * h[2] as int + h[3] as int
  }

  /** What storing `n >>> 24`, `n >>> 16`, `n >>> 8` and `n` into bytes leaves behind. */
  function Header(n: nat): (h: seq<byte>)
    ensures |h| == FRAME_HEADER_LENGTH
  {
    [n / 0x1_000_000 % 256, n / 0x1_0000 % 256, n / 0x100 % 256, n % 256]
  }

  function Frame(payload: seq<byte>): (f: seq<byte>)
    ensures |f| == FRAME_HEADER_LENGTH + |payload|
  {
    Header(|payload|) + payload
  }

  lemma HeaderRoundTrip(n: nat)
    requires n <= MAX_UINT32
    ensures BigEndian(Header(n)) == n
  {
    var q1 := n / 0x100;
    var q2 := n / 0x1_0000;
    var q3 := n / 0x1_000_000;
    assert q2 == q1 / 256 && q3 == q2 / 256;
    assert n == q1 * 256 + n % 256;
    assert q1 == q2 * 256 + q1 % 256;
    assert q2 == q3 * 256 + q2 % 256;
    assert q3 < 256;
  }

  lemma HeaderInjective(h: seq<byte>)
    requires |h| == FRAME_HEADER_LENGTH
    ensures Header(BigEndian(h)) == h
  {
    var n := BigEndian(h);
    var t1 := 0x1_0000 * h[0] as int + 0x100 * h[1] as int + h[2] as int;
    var t2 := 0x100 * h[0] as int + h[1] as int;
    Digits(n, t1, h[3] as int);
    Digits(t1, t2, h[2] as int);
    Digits(t2, h[0] as int, h[1] as int);
    assert n / 0x1_0000 == t2 && n / 0x1_000_000 == h[0] as int;
  }

  lemma Digits(n: int, quotient: int, digit: int)
    requires n == 256 * quotient + digit && 0 <= digit < 256
    ensures n / 256 == quotient && n % 256 == digit
  {
  }

  /** What the front of the input holds. */
  datatype Front = Partial | Oversized | Whole(payload: seq<byte>, more: seq<byte>)

  function Split(bytes: seq<byte>, max: nat): (f: Front)
    ensures f.Whole? ==> |f.more| < |bytes|
  {
    if |bytes| < FRAME_HEADER_LENGTH then
      Partial
    else
      var n := BigEndian(bytes[..FRAME_HEADER_LENGTH]);
      if n > max then
        Oversized
      else if |bytes| < FRAME_HEADER_LENGTH + n then
        Partial
      else
        Whole(bytes[FRAME_HEADER_LENGTH..FRAME_HEADER_LENGTH + n], bytes[FRAME_HEADER_LENGTH + n..])
  }

  /** `rest` is the unconsumed input: a partial frame, or the oversized header that stopped the parse. */
  datatype Parsed = Parsed(frames: seq<seq<byte>>, rest: seq<byte>, oversized: bool)

  function ParseAll(bytes: seq<byte>, max: nat): Parsed
    decreases |bytes|
  {
    match Split(bytes, max)
    case Partial => Parsed([], bytes, false)
    case Oversized => Parsed([], bytes, true)
    case Whole(payload, more) => After([payload], ParseAll(more, max))
  }

  /** More input never changes what a complete front of the input holds. */
  lemma SplitExtends(a: seq<byte>, b: seq<byte>, max: nat)
    ensures match Split(a, max)
            case Partial => true
            case Oversized => Split(a + b, max) == Oversized
            case Whole(payload, more) => Split(a + b, max) == Whole(payload, more + b)
  {
    if |a| >= FRAME_HEADER_LENGTH {
      assert (a + b)[..FRAME_HEADER_LENGTH] == a[..FRAME_HEADER_LENGTH];
      var k := FRAME_HEADER_LENGTH + BigEndian(a[..FRAME_HEADER_LENGTH]);
      if |a| >= k {
        assert (a + b)[k..] == a[k..] + b;
        assert (a + b)[FRAME_HEADER_LENGTH..k] == a[FRAME_HEADER_LENGTH..k];
      }
    }
  }

  lemma SplitFrame(payload: seq<byte>, more: seq<byte>, max: nat)
    requires |payload| <= max <= MAX_UINT32
    ensures Split(Frame(payload) + more, max) == Whole(payload, more)
  {
    var bytes := Frame(payload) + more;
    HeaderRoundTrip(|payload|);
    assert bytes[..FRAME_HEADER_LENGTH] == Header(|payload|);
    assert bytes[FRAME_HEADER_LENGTH..FRAME_HEADER_LENGTH + |payload|] == payload;
    assert bytes[FRAME_HEADER_LENGTH + |payload|..] == more;
  }

  lemma UnsplitFrame(bytes: seq<byte>, max: nat)
    ensures var f := Split(bytes, max); f.Whole? ==> bytes == Frame(f.payload) + f.more && |f.payload| <= max
  {
    if |bytes| >= FRAME_HEADER_LENGTH {
      var h := bytes[..FRAME_HEADER_LENGTH];
      HeaderInjective(h);
      assert forall k | FRAME_HEADER_LENGTH <= k <= |bytes| :: bytes == h + bytes[FRAME_HEADER_LENGTH..k] + bytes[k..];
    }
  }

  /** A parse of more input after `frames` have already been split off. */
  function After(frames: seq<seq<byte>>, p: Parsed): Parsed {
    p.(frames := frames + p.frames)
  }

  /** A parse can stop anywhere and resume from its rest: the frames do not depend on where. */
  lemma {:induction false} ParseResumes(a: seq<byte>, b: seq<byte>, max: nat)
    ensures ParseAll(a + b, max) == After(ParseAll(a, max).frames, ParseAll(ParseAll(a, max).rest + b, max))
    decreases |a|
  {
    SplitExtends(a, b, max);
    match Split(a, max)
    case Partial =>
    case Oversized =>
    case Whole(payload, more) =>
      ParseResumes(more, b, max);
      AfterAfter([payload], ParseAll(more, max).frames, ParseAll(ParseAll(more, max).rest + b, max));
  }

  lemma AfterAfter(f: seq<seq<byte>>, g: seq<seq<byte>>, p: Parsed)
    ensures After(f, After(g, p)) == After(f + g, p)
  {
    assert f + (g + p.frames) == f + g + p.frames;
  }

  lemma ResumeAfter(frames: seq<seq<byte>>, unread: seq<byte>, max: nat)
    requires Split(unread, max).Whole?
    ensures var f := Split(unread, max);
      After(frames, ParseAll(unread, max)) == After(frames + [f.payload], ParseAll(f.more, max))
  {
    AfterAfter(frames, [Split(unread, max).payload], ParseAll(Split(unread, max).more, max));
  }

  predicate Parsing(k: nat) { true }

  /** `frames` have been split off, `unread` is left. Guarded: only proofs that mention `Parsing` look inside. */
  ghost predicate Underway(whole: Parsed, frames: seq<seq<byte>>, unread: seq<byte>, max: nat) {
    forall k: nat {:trigger Parsing(k)} :: Parsing(k) ==> whole == After(frames, ParseAll(unread, max))
  }

  lemma UnderwayStarts(bytes: seq<byte>, max: nat)
    ensures Underway(ParseAll(bytes, max), [], bytes, max)
  {
    AfterAfter([], [], ParseAll(bytes, max));
  }

  lemma UnderwayRejects(whole: Parsed, frames: seq<seq<byte>>, unread: seq<byte>, max: nat)
    requires Underway(whole, frames, unread, max) && Split(unread, max) == Oversized
    ensures whole.oversized
  {
    assert Parsing(0);
  }

  lemma UnderwayCompletes(whole: Parsed, frames: seq<seq<byte>>, unread: seq<byte>, frame: seq<byte>, more: seq<byte>, max: nat)
    requires Underway(whole, frames, unread, max) && Split(unread, max) == Whole(frame, more)
    ensures Underway(whole, frames + [frame], more, max)
  {
    assert Parsing(0);
    ResumeAfter(frames, unread, max);
  }

  lemma UnderwayEnds(whole: Parsed, frames: seq<seq<byte>>, pending: seq<byte>, nothing: seq<byte>, max: nat)
    requires Underway(whole, frames, pending + nothing, max) && nothing == []
      && ParseAll(pending, max) == Parsed([], pending, false)
    ensures whole == Parsed(frames, pending, false)
  {
    assert Parsing(0);
    assert pending + nothing == pending;
  }

  lemma SliceExtends(before: seq<byte>, chunk: seq<byte>, i: nat, j: nat, k: nat)
    requires i <= j <= k <= |chunk|
    ensures before + chunk[i..j] + chunk[j..k] == before + chunk[i..k]
  {
  }

  lemma Regroup(front: seq<byte>, before: seq<byte>, chunk: seq<byte>, i: nat, j: nat)
    requires i <= j <= |chunk|
    ensures front + (before + chunk[i..j]) + chunk[j..] == front + before + chunk[i..]
  {
    assert chunk[i..] == chunk[i..j] + chunk[j..];
  }

  lemma Grown(before: seq<byte>, bytes: seq<byte>, buffer: seq<byte>)
    requires |before| + |bytes| <= |buffer| && buffer[..|before|] == before && buffer[|before|..|before| + |bytes|] == bytes
    ensures buffer[..|before| + |bytes|] == before + bytes
  {
  }

  function Concat(parts: seq<seq<byte>>): seq<byte> {
    if parts == [] then [] else parts[0] + Concat(parts[1..])
  }

  lemma {:induction false} ConcatAppend(parts: seq<seq<byte>>, last: seq<byte>)
    ensures Concat(parts + [last]) == Concat(parts) + last
  {
    if parts == [] {
      assert Concat([last]) == last;
    } else {
      assert (parts + [last])[1..] == parts[1..] + [last];
      ConcatAppend(parts[1..], last);
    }
  }

  lemma {:induction false} ConcatPrefix(parts: seq<seq<byte>>, i: nat)
    requires i <= |parts|
    ensures |Concat(parts[..i])| <= |Concat(parts)|
  {
    if 0 < i {
      assert parts[..i][1..] == parts[1..][..i - 1];
      ConcatPrefix(parts[1..], i - 1);
    }
  }

  function Frames(payloads: seq<seq<byte>>): seq<byte> {
    if payloads == [] then [] else Frame(payloads[0]) + Frames(payloads[1..])
  }

  ghost predicate AllFit(payloads: seq<seq<byte>>, max: nat) {
    forall p <- payloads :: |p| <= max
  }

  /** Encoding then parsing returns the payloads, and nothing is left over. */
  lemma {:induction false} EncodeParseRoundTrip(payloads: seq<seq<byte>>, max: nat)
    requires AllFit(payloads, max) && max <= MAX_UINT32
    ensures ParseAll(Frames(payloads), max) == Parsed(payloads, [], false)
  {
    if payloads != [] {
      EncodeParseRoundTrip(payloads[1..], max);
      SplitFrame(payloads[0], Frames(payloads[1..]), max);
      assert [payloads[0]] + payloads[1..] == payloads;
    }
  }

  lemma FramesCons(payload: seq<byte>, frames: seq<seq<byte>>, rest: seq<byte>)
    ensures Frames([payload] + frames) + rest == Frame(payload) + (Frames(frames) + rest)
  {
    assert ([payload] + frames)[1..] == frames;
  }

  /** Parsing then encoding returns the input: nothing is dropped, repeated or reordered. */
  lemma {:induction false} ParseEncodeRoundTrip(bytes: seq<byte>, max: nat)
    ensures var p := ParseAll(bytes, max); Frames(p.frames) + p.rest == bytes && AllFit(p.frames, max)
    decreases |bytes|
  {
    UnsplitFrame(bytes, max);
    match Split(bytes, max)
    case Partial =>
    case Oversized =>
    case Whole(payload, more) =>
      ParseEncodeRoundTrip(more, max);
      var q := ParseAll(more, max);
      FramesCons(payload, q.frames, q.rest);
      assert bytes == Frame(payload) + (Frames(q.frames) + q.rest);
  }

  /** The bytes are whole frames within the limit exactly when the parse leaves nothing. */
  lemma WholeFramesIff(bytes: seq<byte>, max: nat)
    requires max <= MAX_UINT32
    ensures ParseAll(bytes, max).rest == [] <==> exists payloads :: AllFit(payloads, max) && Frames(payloads) == bytes
  {
    var p := ParseAll(bytes, max);
    ParseEncodeRoundTrip(bytes, max);
    if p.rest == [] {
      assert AllFit(p.frames, max) && Frames(p.frames) == bytes;
    }
    if payloads :| AllFit(payloads, max) && Frames(payloads) == bytes {
      EncodeParseRoundTrip(payloads, max);
    }
  }
}
