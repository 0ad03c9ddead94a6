/**
 * The stream that retries an empty response once, from packages/agent/src/empty-assistant-recovery.ts.
 * An inner stream is what its iteration yields and what happens when the iteration runs out.
 */
module RetryingStream {
  import opened Wrappers

  datatype Reply = Reply(body: nat, stopped: bool, visible: bool, retries: nat)

  /** `startsVisible` for a toolcall_start, or a text_delta with visible text. */
  datatype Event = Content(body: nat, startsVisible: bool) | Done(message: Reply) | Failure(error: Reply)

  /** After its events a stream's result promise is read; `Thrown` also covers an iteration that throws. */
  datatype Stream = Stream(events: seq<Event>, result: Outcome<Reply>)

  datatype Ending = Ended | EndedWith(result: Reply) | Failed

  datatype Outer = Outer(events: seq<Event>, ending: Ending)

  const EMPTY_RESPONSE_ERROR := 0

  predicate IsEmptyStop(m: Reply) {
    m.stopped && !m.visible
  }

  function AppendRetryDiagnostic(m: Reply): Reply {
    m.(retries := m.retries + 1)
  }

  function CreateEmptyResponseFailure(m: Reply): Reply {
    Reply(EMPTY_RESPONSE_ERROR, false, true, m.retries + 1)
  }

  predicate Terminal(e: Event) {
    e.Done? || e.Failure?
  }

  /** What is yielded before the first terminal event. */
  function Body(events: seq<Event>): (body: seq<Event>)
    ensures body <= events && (forall e <- body :: e.Content?)
    ensures |body| < |events| ==> Terminal(events[|body|])
  {
    if events == [] || Terminal(events[0]) then [] else [events[0]] + Body(events[1..])
  }

  predicate ShowsContent(body: seq<Event>) {
    exists e <- body :: e.Content? && e.startsVisible
  }

  /** The stream's events up to its terminal one are an empty stop. */
  predicate Empty(events: seq<Event>) {
    var n := |Body(events)|;
    n < |events| && events[n].Done? && IsEmptyStop(events[n].message)
  }

  /** An empty stop is expected to have shown nothing. */
  predicate Honest(s: Stream) {
    Empty(s.events) ==> !ShowsContent(Body(s.events))
  }

  /** What is put out before the stream's end, if content was shown. */
  function Shown(s: Stream): seq<Event> {
    if ShowsContent(Body(s.events)) then Body(s.events) else []
  }

  /** The error that stands for two empty responses. */
  function EmptyFailure(s: Stream): Event
    requires Empty(s.events)
  {
    Failure(CreateEmptyResponseFailure(s.events[|Body(s.events)|].message))
  }

  /** What a stream puts out when it is not an empty stop. */
  function Passed(s: Stream, annotate: bool): Outer {
    var body := Body(s.events);
    if |body| == |s.events| then
      // no terminal event: content nobody could see yet is dropped, the result decides
      Outer(Shown(s), match s.result
        case Thrown => Failed
        case Returned(m) => EndedWith(if annotate then AppendRetryDiagnostic(m) else m))
    else
      var last := s.events[|body|];
      Outer(body + [if last.Done? && annotate then Done(AppendRetryDiagnostic(last.message)) else last], Ended)
  }

  /** The reference: the first stream, unless it is empty; then the second, unless that is empty too. */
  function Recovered(first: Stream, second: Option<Stream>): Outer {
    if !Empty(first.events) then Passed(first, false)
    else if second == None then Outer(Shown(first), Failed)
    else
      var rest := if Empty(second.value.events) then Outer(Shown(second.value) + [EmptyFailure(second.value)], Ended) else Passed(second.value, true);
      Outer(Shown(first) + rest.events, rest.ending)
  }

  datatype Relay = Retry | Over(ending: Ending)

  lemma Slices(events: seq<Event>, i: nat)
    requires 0 < i <= |events|
    ensures events[1..][i - 1..] == events[i..] && events[..i] == [events[0]] + events[1..][..i - 1]
  {
  }

  lemma {:induction false} BodySkips(events: seq<Event>, i: nat)
    requires i <= |events| && forall k | 0 <= k < i :: events[k].Content?
    ensures Body(events) == events[..i] + Body(events[i..])
  {
    if i == 0 {
      assert events[..0] == [] && events[0..] == events;
    } else {
      BodySkips(events[1..], i - 1);
      Slices(events, i);
      BodyOfRest(events);
      Joins([events[0]], events[1..][..i - 1], Body(events[i..]));
    }
  }

  lemma BodyOfRest(events: seq<Event>)
    requires events != [] && events[0].Content?
    ensures Body(events) == [events[0]] + Body(events[1..])
  {
  }

  lemma Joins(a: seq<Event>, b: seq<Event>, c: seq<Event>)
    ensures a + (b + c) == (a + b) + c
  {
  }

  lemma BodyExtends(events: seq<Event>, i: nat)
    requires i <= |events| && forall k | 0 <= k < i :: events[k].Content?
    ensures i == |events| || Terminal(events[i]) ==> Body(events) == events[..i]
  {
    BodySkips(events, i);
    if i == |events| {
      assert events[i..] == [];
    } else if Terminal(events[i]) {
      assert events[i..][0] == events[i];
    }
  }

  /** Relays one stream: content is held back until something visible begins. */
  method RelayStream(s: Stream, retrying: bool) returns (out: seq<Event>, next: Relay)
    ensures next.Retry? <==> Empty(s.events) && !retrying
    ensures next.Retry? ==> out == Shown(s)
    ensures next.Over? && !Empty(s.events) ==> Outer(out, next.ending) == Passed(s, retrying)
    ensures next.Over? && Empty(s.events) ==> next.ending == Ended && out == Shown(s) + [EmptyFailure(s)]
  {
    out := [];
    var buffered, forwarding := [], false;
    for i := 0 to |s.events|
      invariant forall k | 0 <= k < i :: s.events[k].Content?
      invariant forwarding <==> ShowsContent(s.events[..i])
      invariant out == if forwarding then s.events[..i] else []
      invariant !forwarding ==> buffered == s.events[..i]
    {
      BodyExtends(s.events, i);
      var event := s.events[i];
      if event.Done? {
        if IsEmptyStop(event.message) {
          if !retrying { return out, Retry; }
          return out + [Failure(CreateEmptyResponseFailure(event.message))], Over(Ended);
        }
        var terminal := if retrying then Done(AppendRetryDiagnostic(event.message)) else event;
        return (if forwarding then out else buffered) + [terminal], Over(Ended);
      }
      if event.Failure? {
        return (if forwarding then out else buffered) + [event], Over(Ended);
      }
      assert s.events[..i + 1] == s.events[..i] + [event];
      if forwarding {
        out := out + [event];
        continue;
      }
      buffered := buffered + [event];
      if event.startsVisible {
        out := buffered;
        forwarding := true;
      }
    }
    BodyExtends(s.events, |s.events|);
    assert s.events[..|s.events|] == s.events;
    if s.result == Thrown { return out, Over(Failed); }
    return out, Over(EndedWith(if retrying then AppendRetryDiagnostic(s.result.value) else s.result.value));
  }

  /** `created` is what the factory yields when it is asked for another stream. */
  method CreateRetryingStream(first: Stream, created: Option<Stream>) returns (outer: Outer, requests: nat)
    ensures outer == Recovered(first, created)
    ensures requests == if Empty(first.events) then 2 else 1
  {
    var stream, retrying, events := first, false, [];
    requests := 1;
    while true
      invariant !retrying ==> stream == first && events == [] && requests == 1
      invariant retrying ==> Empty(first.events) && created == Some(stream) && requests == 2
      invariant retrying ==> events == Shown(first)
      decreases !retrying
    {
      var out, next := RelayStream(stream, retrying);
      events := events + out;
      if next.Over? {
        return Outer(events, next.ending), requests;
      }
      retrying := true;
      requests := requests + 1;
      if created == None { return Outer(events, Failed), requests; }
      stream := created.value;
    }
  }

  predicate EndsOnce(events: seq<Event>) {
    events != [] && Terminal(events[|events| - 1]) && forall i | 0 <= i < |events| - 1 :: !Terminal(events[i])
  }

  /** For inner streams that end with a terminal event, and show nothing before an empty stop, in two lines. */
  lemma RecoversOnce(first: Stream, second: Stream)
    requires EndsOnce(first.events) && EndsOnce(second.events) && Honest(first) && Honest(second)
    ensures var out := Recovered(first, Some(second));
      && EndsOnce(out.events) && out.ending == Ended
      && (!Empty(first.events) ==> out.events == first.events)
      && (Empty(first.events) && !Empty(second.events) ==>
            && |out.events| == |second.events| && out.events[..|out.events| - 1] == Body(second.events)
            && (second.events[|second.events| - 1].Failure? ==> out.events == second.events)
            && (second.events[|second.events| - 1].Done? ==>
                  out.events[|out.events| - 1] == Done(AppendRetryDiagnostic(second.events[|second.events| - 1].message))))
      && (Empty(first.events) && Empty(second.events) ==> |out.events| == 1 && out.events[0].Failure?)
  {
    BodyIsAllButLast(first.events);
    BodyIsAllButLast(second.events);
  }

  lemma BodyIsAllButLast(events: seq<Event>)
    requires EndsOnce(events)
    ensures Body(events) == events[..|events| - 1] && Body(events) + [events[|events| - 1]] == events
  {
    BodyExtends(events, |events| - 1);
  }

  /**
   * A stream that runs out without a terminal event is passed on whole if and only if it had
   * nothing to pass or had begun to show content.
   */
  lemma UnendedIsWholeIff(first: Stream, second: Option<Stream>)
    requires forall i | 0 <= i < |first.events| :: !Terminal(first.events[i])
    ensures Recovered(first, second).events == first.events <==> first.events == [] || ShowsContent(first.events)
  {
    BodyExtends(first.events, |first.events|);
    assert first.events[..|first.events|] == first.events;
    assert !Empty(first.events);
  }

  /** One invisible event and no terminal one: nothing of it is passed on. */
  lemma UnendedLosesContent(body: nat, result: Outcome<Reply>, second: Option<Stream>)
    ensures var first := Stream([Content(body, false)], result);
      Recovered(first, second).events == [] != first.events
  {
    UnendedIsWholeIff(Stream([Content(body, false)], result), second);
    BodyExtends([Content(body, false)], 1);
  }
}
