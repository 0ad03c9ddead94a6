/**
 * The line splitter of streamProxy in packages/agent/src/proxy.ts, on decoded text: whatever the
 * chunks, the lines handed on are those of the whole text that a newline has ended.
 */
module ProxyLines {

  const NEWLINE := '\n'

  function Join(lines: seq<string>): string {
    if lines == [] then "" else lines[0] + [NEWLINE] + Join(lines[1..])
  }

  /** Text cut at its newlines; `rest` has none. */
  ghost predicate Splits(text: string, lines: seq<string>, rest: string) {
    && text == Join(lines) + rest
    && (forall i | 0 <= i < |lines| :: NEWLINE !in lines[i])
    && NEWLINE !in rest
  }

  /** A split with one more character in front. */
  function Prepend(c: char, r: (seq<string>, string)): (seq<string>, string) {
    var (lines, rest) := r;
    if c == NEWLINE then ([""] + lines, rest)
    else if lines == [] then ([], [c] + rest)
    else ([[c] + lines[0]] + lines[1..], rest)
  }

  /** text.split("\n"), with the last part apart. */
  function Split(text: string): (r: (seq<string>, string)) {
    if text == "" then ([], "") else Prepend(text[0], Split(text[1..]))
  }

  lemma {:induction false} SplitSplits(text: string)
    ensures Splits(text, Split(text).0, Split(text).1)
  {
    if text != "" {
      SplitSplits(text[1..]);
      var (lines, rest) := Split(text[1..]);
      assert text == [text[0]] + text[1..];
      var all := Split(text).0;
      if text[0] == NEWLINE {
        assert all[1..] == lines;
        assert Join(all) + rest == [NEWLINE] + (Join(lines) + rest);
      } else if lines != [] {
        assert all[1..] == lines[1..];
        assert Join(all) + rest == [text[0]] + (Join(lines) + rest);
      }
    }
  }

  function Continue(r: (seq<string>, string), chunk: string): (seq<string>, string) {
    var (more, left) := Split(r.1 + chunk);
    (r.0 + more, left)
  }

  lemma PrependContinues(c: char, r: (seq<string>, string), chunk: string)
    ensures Continue(Prepend(c, r), chunk) == Prepend(c, Continue(r, chunk))
  {
    var more := Split(r.1 + chunk).0;
    if c == NEWLINE {
      assert [""] + r.0 + more == [""] + (r.0 + more);
    } else if r.0 != [] {
      assert (r.0 + more)[1..] == r.0[1..] + more;
      assert [[c] + r.0[0]] + r.0[1..] + more == [[c] + r.0[0]] + (r.0[1..] + more);
    } else {
      var text := [c] + r.1 + chunk;
      assert text[0] == c && text[1..] == r.1 + chunk;
      assert r.0 + more == more && Prepend(c, r).0 + Split(text).0 == Split(text).0;
    }
  }

  /** Splitting what is left over together with what comes next continues the split of the whole. */
  lemma {:induction false} SplitContinues(text: string, chunk: string)
    ensures Split(text + chunk) == Continue(Split(text), chunk)
  {
    if text == "" {
      assert text + chunk == chunk && "" + chunk == chunk;
      assert Split(text).0 + Split(chunk).0 == Split(chunk).0;
    } else {
      SplitContinues(text[1..], chunk);
      assert (text + chunk)[1..] == text[1..] + chunk;
      PrependContinues(text[0], Split(text[1..]), chunk);
    }
  }

  class LineReader {
    var buffer: string
    ghost var text: string           // everything received
    ghost var lines: seq<string>     // every line handed on

    ghost predicate Valid()
      reads this
    {
      Split(text) == (lines, buffer)
    }

    constructor ()
      ensures Valid() && text == "" && lines == []
    {
      buffer, text, lines := "", "", [];
    }

    method Receive(chunk: string) returns (ready: seq<string>)
      requires Valid()
      modifies this
      ensures Valid() && text == old(text) + chunk && lines == old(lines) + ready
    {
      var (complete, last) := Split(buffer + chunk);
      SplitContinues(text, chunk);
      buffer := last;
      ready := complete;
      text, lines := text + chunk, lines + ready;
    }
  }

  function Concat(chunks: seq<string>): string {
    if chunks == [] then "" else Concat(chunks[..|chunks| - 1]) + chunks[|chunks| - 1]
  }

  /** Over any chunking, the lines are the newline-ended lines of the text, in order. */
  method ReadAll(chunks: seq<string>) returns (lines: seq<string>, unfinished: string)
    ensures Splits(Concat(chunks), lines, unfinished)
  {
    var reader := new LineReader();
    lines := [];
    for i := 0 to |chunks|
      invariant fresh(reader) && reader.Valid() && reader.lines == lines && reader.text == Concat(chunks[..i])
    {
      var ready := reader.Receive(chunks[i]);
      lines := lines + ready;
      assert chunks[..i + 1][..i] == chunks[..i];
    }
    assert chunks[..|chunks|] == chunks;
    SplitSplits(reader.text);
    unfinished := reader.buffer;
  }
}
