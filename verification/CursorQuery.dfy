/**
 * The startup cursor-position handshake of crates/senpi-pty/src/session.rs: a four-byte query is
 * looked for in everything a pseudo console writes, however the reads cut it.
 */
module CursorQuery {

  type byte = bv8

  const DSR_CURSOR_QUERY: seq<byte> := [0x1b, 0x5b, 0x36, 0x6e]
  const KEEP := 3

  /** The query's last byte is the one before position `end`. */
  predicate EndsAt(stream: seq<byte>, end: nat) {
    4 <= end <= |stream| && stream[end - 4..end] == DSR_CURSOR_QUERY
  }

  predicate Seen(window: seq<byte>) {
    exists end | 0 <= end <= |window| :: EndsAt(window, end)
  }

  function Suffix(stream: seq<byte>): (tail: seq<byte>)
    ensures |tail| == if |stream| > KEEP then KEEP else |stream|
  {
    if |stream| > KEEP then stream[|stream| - KEEP..] else stream
  }

  /** One read: its bytes, and whether the consumer had written by then. */
  datatype Read = Read(chunk: seq<byte>, userWrote: bool)

  /** `tail` and `answeredInitial` between reads. */
  datatype Matcher = Matcher(tail: seq<byte>, answered: bool)

  predicate Reports(m: Matcher, r: Read) {
    Seen(m.tail + r.chunk)
  }

  predicate Replies(m: Matcher, r: Read) {
    Reports(m, r) && !(m.answered && r.userWrote)
  }

  function Next(m: Matcher, r: Read): Matcher {
    Matcher(Suffix(m.tail + r.chunk), m.answered || Replies(m, r))
  }

  function After(history: seq<Read>): Matcher {
    if history == [] then Matcher([], false) else Next(After(history[..|history| - 1]), history[|history| - 1])
  }

  function Stream(history: seq<Read>): seq<byte> {
    if history == [] then [] else Stream(history[..|history| - 1]) + history[|history| - 1].chunk
  }

  class Responder {
    var tail: seq<byte>
    var answeredInitial: bool

    function View(): Matcher
      reads this
    {
      Matcher(tail, answeredInitial)
    }

    constructor ()
      ensures View() == After([])
    {
      tail, answeredInitial := [], false;
    }

    method AnswerConptyCursorQuery(chunk: seq<byte>, userWrote: bool) returns (reply: bool)
      modifies this
      ensures View() == Next(old(View()), Read(chunk, userWrote))
      ensures reply == Replies(old(View()), Read(chunk, userWrote))
    {
      var window := tail + chunk;
      var seen := Seen(window);
      tail := if |window| > KEEP then window[|window| - KEEP..] else window;
      if !seen || (answeredInitial && userWrote) { return false; }
      answeredInitial := true;
      return true;
    }
  }

  lemma SuffixExtends(stream: seq<byte>, chunk: seq<byte>)
    ensures Suffix(Suffix(stream) + chunk) == Suffix(stream + chunk)
  {
    if |stream| > KEEP {
      var n := |stream| - KEEP;
      assert (stream + chunk)[n..] == Suffix(stream) + chunk;
      assert (stream + chunk)[n..][|chunk|..] == (stream + chunk)[n + |chunk|..];
    }
  }

  /** Between reads the tail is the end of everything read. */
  lemma {:induction false} TailIsSuffix(history: seq<Read>)
    ensures After(history).tail == Suffix(Stream(history))
  {
    if history != [] {
      var before, r := history[..|history| - 1], history[|history| - 1];
      TailIsSuffix(before);
      SuffixExtends(Stream(before), r.chunk);
    }
  }

  /** An occurrence in the window is one in the stream that ends within the new bytes. */
  lemma WindowOccurrences(stream: seq<byte>, chunk: seq<byte>)
    ensures Seen(Suffix(stream) + chunk) <==> exists end | |stream| < end <= |stream| + |chunk| :: EndsAt(stream + chunk, end)
  {
    var window, all := Suffix(stream) + chunk, stream + chunk;
    var offset := |stream| - |Suffix(stream)|;
    assert all[offset..] == window;
    forall end | 4 <= end <= |window|
      ensures EndsAt(window, end) <==> EndsAt(all, offset + end)
    {
      assert window[end - 4..end] == all[offset + end - 4..offset + end];
    }
    if end :| |stream| < end <= |all| && EndsAt(all, end) {
      assert EndsAt(window, end - offset);
    }
  }

  /** For every way the reads cut the stream: a read reports exactly when a query's last byte is among its bytes. */
  lemma ReportsWhatEndsHere(history: seq<Read>, r: Read)
    ensures var stream := Stream(history);
      Reports(After(history), r) <==> exists end | |stream| < end <= |stream| + |r.chunk| :: EndsAt(stream + r.chunk, end)
  {
    TailIsSuffix(history);
    WindowOccurrences(Stream(history), r.chunk);
  }

  predicate Queried(stream: seq<byte>) {
    exists end | 0 <= end <= |stream| :: EndsAt(stream, end)
  }

  /** The handshake counts as answered as soon as the stream holds a query. */
  lemma {:induction false} AnsweredIffQueried(history: seq<Read>)
    ensures After(history).answered <==> Queried(Stream(history))
  {
    if history != [] {
      var before, last := history[..|history| - 1], history[|history| - 1];
      AnsweredIffQueried(before);
      ReportsWhatEndsHere(before, last);
      QueriedExtends(Stream(before), last.chunk);
    }
  }

  lemma QueriedExtends(stream: seq<byte>, chunk: seq<byte>)
    ensures Queried(stream + chunk) <==>
      Queried(stream) || exists end | |stream| < end <= |stream| + |chunk| :: EndsAt(stream + chunk, end)
  {
    var all := stream + chunk;
    if end :| 0 <= end <= |stream| && EndsAt(stream, end) {
      assert all[end - 4..end] == stream[end - 4..end];
      assert EndsAt(all, end);
    }
    if end :| 0 <= end <= |stream| && EndsAt(all, end) {
      assert all[end - 4..end] == stream[end - 4..end];
      assert EndsAt(stream, end);
    }
  }

  /** The first read that completes a query is answered, and later ones only until the consumer has written. */
  lemma AnswersFirstQuery(history: seq<Read>, r: Read)
    ensures var stream := Stream(history);
      Replies(After(history), r) <==>
        && (exists end | |stream| < end <= |stream| + |r.chunk| :: EndsAt(stream + r.chunk, end))
        && (!Queried(stream) || !r.userWrote)
  {
    ReportsWhatEndsHere(history, r);
    AnsweredIffQueried(history);
  }
}
