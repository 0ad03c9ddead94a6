/**
 * How processProxyEvent in packages/agent/src/proxy.ts rebuilds a message from events that carry
 * only what is new. `World.parse` stands for the lenient JSON parser.
 */
module ProxyContent {
  import opened Wrappers

  datatype Arguments = NoArguments | Parsed(id: nat)

  datatype Block =
    | Text(text: string)
    | Thinking(thinking: string)
    | ToolCall(id: nat, arguments: Arguments, partialJson: Option<string>)

  datatype Kind = IsText | IsThinking | IsToolCall

  datatype ProxyEvent =
    | Begin
    | StartBlock(index: nat, kind: Kind, id: nat)
    | Delta(index: nat, kind: Kind, delta: string)
    | EndBlock(index: nat, kind: Kind, replacement: Option<(nat, Arguments)>)
    | Finish(failed: bool)

  datatype World = World(parse: string -> Arguments)

  function KindOf(b: Block): Kind {
    match b
    case Text(_) => IsText
    case Thinking(_) => IsThinking
    case ToolCall(_, _, _) => IsToolCall
  }

  function Fresh(kind: Kind, id: nat): Block {
    match kind
    case IsText => Text("")
    case IsThinking => Thinking("")
    case IsToolCall => ToolCall(id, NoArguments, Some(""))
  }

  /** A delta joins the block's text; a closed tool call has none left, which reads as "undefined". */
  function Append(b: Block, delta: string, world: World): Block {
    match b
    case Text(text) => Text(text + delta)
    case Thinking(thinking) => Thinking(thinking + delta)
    case ToolCall(id, _, partialJson) =>
      var joined := partialJson.GetOr(LOST) + delta;
      ToolCall(id, world.parse(joined), Some(joined))
  }

  /** The end of a tool call may replace it, and drops the text it was parsed from. */
  function Close(b: Block, replacement: Option<(nat, Arguments)>): Block
    requires b.ToolCall?
  {
    match replacement
    case Some((id, arguments)) => ToolCall(id, arguments, None)
    case None => b.(partialJson := None)
  }

  /** Where the block at `index` was last started. */
  function LastStart(history: seq<ProxyEvent>, index: nat): (start: Option<nat>)
    ensures start.Some? ==> start.value < |history| && history[start.value].StartBlock? && history[start.value].index == index
  {
    if history == [] then None
    else
      var n := |history| - 1;
      if history[n].StartBlock? && history[n].index == index then Some(n) else LastStart(history[..n], index)
  }

  /** The deltas for `index`, joined. */
  function Deltas(history: seq<ProxyEvent>, index: nat): string {
    if history == [] then ""
    else
      var e := history[|history| - 1];
      Deltas(history[..|history| - 1], index) + if e.Delta? && e.index == index then e.delta else ""
  }

  predicate HasDelta(history: seq<ProxyEvent>, index: nat) {
    exists e <- history :: e.Delta? && e.index == index
  }

  /** Where the block at `index` last ended. */
  function LastEnd(history: seq<ProxyEvent>, index: nat): (end: Option<nat>)
    ensures end.Some? ==> end.value < |history| && history[end.value].EndBlock?
  {
    if history == [] then None
    else
      var n := |history| - 1;
      if history[n].EndBlock? && history[n].index == index then Some(n) else LastEnd(history[..n], index)
  }

  const LOST := "undefined"

  /** What a delta makes of a tool call once there is text to parse. */
  function Reparsed(world: World, b: Block, text: string): Block
    requires b.ToolCall?
  {
    ToolCall(b.id, world.parse(text), Some(text))
  }

  /**
   * A tool call since it was started. While it is open its text is the join of its deltas and its
   * arguments their parse; an end keeps the arguments or replaces the call, and loses the text;
   * deltas after an end are joined to "undefined" and parsed again.
   */
  function Call(world: World, id: nat, since: seq<ProxyEvent>, index: nat): (b: Block)
    ensures b.ToolCall?
    decreases |since|, 1
  {
    match LastEnd(since, index)
    case None =>
      var open := ToolCall(id, NoArguments, Some(""));
      if HasDelta(since, index) then Reparsed(world, open, Deltas(since, index)) else open
    case Some(end) => Reopened(world, ClosedCall(world, id, since, end, index), since[end + 1..], index)
  }

  /** A tool call just after the end at `end`. */
  function ClosedCall(world: World, id: nat, since: seq<ProxyEvent>, end: nat, index: nat): (b: Block)
    requires end < |since| && since[end].EndBlock?
    ensures b.ToolCall? && b.partialJson == None
    decreases |since|, 0
  {
    Close(Call(world, id, since[..end], index), since[end].replacement)
  }

  /** What later deltas make of a tool call that has ended. */
  function Reopened(world: World, closed: Block, after: seq<ProxyEvent>, index: nat): (b: Block)
    requires closed.ToolCall?
    ensures b.ToolCall?
  {
    if HasDelta(after, index) then Reparsed(world, closed, LOST + Deltas(after, index)) else closed
  }

  /** A block that was started as `kind` holds its deltas since then; a tool call, what they and its ends make of it. */
  predicate Holds(world: World, b: Block, kind: Kind, id: nat, since: seq<ProxyEvent>, index: nat) {
    var joined := Deltas(since, index);
    match kind
    case IsText => b == Text(joined)
    case IsThinking => b == Thinking(joined)
    case IsToolCall => b == Call(world, id, since, index)
  }

  /** What the block at `index` must be, given where it was last started. */
  ghost predicate Rebuilt(world: World, content: map<nat, Block>, history: seq<ProxyEvent>, index: nat) {
    match LastStart(history, index)
    case None => index !in content
    case Some(start) =>
      index in content && Holds(world, content[index], history[start].kind, history[start].id, history[start + 1..], index)
  }

  predicate Misplaced(content: map<nat, Block>, event: ProxyEvent) {
    (event.Delta? || event.EndBlock?) && (event.index !in content || KindOf(content[event.index]) != event.kind)
  }

  function Applied(world: World, content: map<nat, Block>, event: ProxyEvent): map<nat, Block>
    requires !Misplaced(content, event)
  {
    match event
    case StartBlock(index, kind, id) => content[index := Fresh(kind, id)]
    case Delta(index, _, delta) => content[index := Append(content[index], delta, world)]
    case EndBlock(index, IsToolCall, replacement) => content[index := Close(content[index], replacement)]
    case _ => content
  }

  lemma SummaryStep(since: seq<ProxyEvent>, event: ProxyEvent, index: nat)
    ensures var mine := event.Delta? && event.index == index;
      && Deltas(since + [event], index) == (if mine then Deltas(since, index) + event.delta else Deltas(since, index))
      && (HasDelta(since + [event], index) <==> mine || HasDelta(since, index))
      && LastEnd(since + [event], index) == if event.EndBlock? && event.index == index then Some(|since|) else LastEnd(since, index)
  {
    assert (since + [event])[..|since|] == since;
  }

  lemma NoDeltas(since: seq<ProxyEvent>, index: nat)
    requires !HasDelta(since, index)
    ensures Deltas(since, index) == ""
  {
  }

  lemma CallEnds(world: World, id: nat, since: seq<ProxyEvent>, event: ProxyEvent, index: nat)
    requires event.EndBlock? && event.index == index
    ensures Call(world, id, since + [event], index) == Close(Call(world, id, since, index), event.replacement)
  {
    var all := since + [event];
    SummaryStep(since, event, index);
    assert all[..|since|] == since && all[|since| + 1..] == [];
  }

  lemma OpenCallStep(world: World, id: nat, since: seq<ProxyEvent>, event: ProxyEvent, index: nat)
    requires LastEnd(since, index) == None && !(event.EndBlock? && event.index == index)
    ensures var b := Call(world, id, since, index);
      Call(world, id, since + [event], index) == if event.Delta? && event.index == index then Append(b, event.delta, world) else b
  {
    SummaryStep(since, event, index);
    if !HasDelta(since, index) {
      NoDeltas(since, index);
    }
  }

  lemma EndedCall(world: World, id: nat, since: seq<ProxyEvent>, end: nat, index: nat)
    requires LastEnd(since, index) == Some(end)
    ensures Call(world, id, since, index) == Reopened(world, ClosedCall(world, id, since, end, index), since[end + 1..], index)
  {
  }

  lemma EndedCallStep(world: World, id: nat, since: seq<ProxyEvent>, event: ProxyEvent, index: nat)
    requires LastEnd(since, index).Some? && !(event.EndBlock? && event.index == index)
    ensures var b := Call(world, id, since, index);
      Call(world, id, since + [event], index) == if event.Delta? && event.index == index then Append(b, event.delta, world) else b
  {
    var end := LastEnd(since, index).value;
    EndStays(since, event, index);
    EndedCall(world, id, since, end, index);
    EndedCall(world, id, since + [event], end, index);
    Slices(since, event, end);
    ClosedCallStays(world, id, since, event, end, index);
    ReopenedStep(world, ClosedCall(world, id, since, end, index), since[end + 1..], event, index);
  }

  lemma ClosedCallStays(world: World, id: nat, since: seq<ProxyEvent>, event: ProxyEvent, end: nat, index: nat)
    requires end < |since| && since[end].EndBlock?
    ensures ClosedCall(world, id, since + [event], end, index) == ClosedCall(world, id, since, end, index)
  {
    Slices(since, event, end);
  }

  lemma Slices(since: seq<ProxyEvent>, event: ProxyEvent, end: nat)
    requires end < |since|
    ensures var all := since + [event];
      all[..end] == since[..end] && all[end] == since[end] && all[end + 1..] == since[end + 1..] + [event]
  {
  }

  lemma EndStays(since: seq<ProxyEvent>, event: ProxyEvent, index: nat)
    requires !(event.EndBlock? && event.index == index)
    ensures LastEnd(since + [event], index) == LastEnd(since, index)
  {
    assert (since + [event])[..|since|] == since;
  }

  lemma ReopenedStep(world: World, closed: Block, after: seq<ProxyEvent>, event: ProxyEvent, index: nat)
    requires closed.ToolCall? && closed.partialJson == None
    ensures var b := Reopened(world, closed, after, index);
      Reopened(world, closed, after + [event], index) == if event.Delta? && event.index == index then Append(b, event.delta, world) else b
  {
    SummaryStep(after, event, index);
    if !HasDelta(after, index) {
      NoDeltas(after, index);
      assert LOST + "" == LOST;
    }
    Regroup(LOST, Deltas(after, index), NewText(event, index));
  }

  /** One more event, as the program handles it. */
  lemma CallStep(world: World, id: nat, since: seq<ProxyEvent>, event: ProxyEvent, index: nat)
    ensures var b, next := Call(world, id, since, index), Call(world, id, since + [event], index);
      next == if event.Delta? && event.index == index then Append(b, event.delta, world)
              else if event.EndBlock? && event.index == index then Close(b, event.replacement)
              else b
  {
    if event.EndBlock? && event.index == index {
      CallEnds(world, id, since, event, index);
    } else if LastEnd(since, index) == None {
      OpenCallStep(world, id, since, event, index);
    } else {
      EndedCallStep(world, id, since, event, index);
    }
  }

  /** An event that does not start the block again keeps it in step. */
  lemma HoldsStep(world: World, content: map<nat, Block>, event: ProxyEvent, kind: Kind, id: nat, since: seq<ProxyEvent>, index: nat)
    requires index in content && Holds(world, content[index], kind, id, since, index)
    requires !Misplaced(content, event) && !(event.StartBlock? && event.index == index)
    ensures index in Applied(world, content, event)
    ensures Holds(world, Applied(world, content, event)[index], kind, id, since + [event], index)
  {
    SummaryStep(since, event, index);
    CallStep(world, id, since, event, index);
  }

  function NewText(event: ProxyEvent, index: nat): string {
    if event.Delta? && event.index == index then event.delta else ""
  }

  lemma DeltasStep(since: seq<ProxyEvent>, event: ProxyEvent, index: nat)
    ensures Deltas(since + [event], index) == Deltas(since, index) + NewText(event, index)
  {
    assert (since + [event])[..|since|] == since;
  }

  lemma Regroup(a: string, b: string, c: string)
    ensures a + (b + c) == (a + b) + c
  {
  }

  lemma {:induction false} DeltasJoin(a: seq<ProxyEvent>, b: seq<ProxyEvent>, index: nat)
    ensures Deltas(a + b, index) == Deltas(a, index) + Deltas(b, index)
  {
    if b == [] {
      assert a + b == a;
    } else {
      var c, e := b[..|b| - 1], b[|b| - 1];
      assert b == c + [e] && a + b == (a + c) + [e];
      DeltasJoin(a, c, index);
      DeltasStep(a + c, e, index);
      DeltasStep(c, e, index);
      Regroup(Deltas(a, index), Deltas(c, index), NewText(e, index));
    }
  }

  /** A tool call that ended once, with no delta after that: the replacement, or the parse of all its deltas. */
  lemma FinishedCall(world: World, id: nat, since: seq<ProxyEvent>, index: nat, end: nat)
    requires LastEnd(since, index) == Some(end) && LastEnd(since[..end], index) == None && !HasDelta(since[end + 1..], index)
    ensures Call(world, id, since, index) == match since[end].replacement
      case Some((other, arguments)) => ToolCall(other, arguments, None)
      case None => ToolCall(id, if HasDelta(since, index) then world.parse(Deltas(since, index)) else NoArguments, None)
  {
    assert since == since[..end] + [since[end]] + since[end + 1..];
    DeltasJoin(since[..end] + [since[end]], since[end + 1..], index);
    SummaryStep(since[..end], since[end], index);
    NoDeltas(since[end + 1..], index);
    assert HasDelta(since, index) <==> HasDelta(since[..end], index);
    var before := since[..end];
    assert Deltas(since, index) == Deltas(before, index) + "" + "" == Deltas(before, index);
    var b := Call(world, id, before, index);
    var text := Deltas(before, index);
    assert b == if HasDelta(before, index) then ToolCall(id, world.parse(text), Some(text)) else ToolCall(id, NoArguments, Some(""));
    assert Call(world, id, since, index) == ClosedCall(world, id, since, end, index) == Close(b, since[end].replacement);
  }

  /**
   * The text a tool call holds is the join of its deltas if and only if it has not ended yet, or the
   * deltas up to its last end happen to spell "undefined"; and its arguments are the text's parse.
   */
  lemma TextIsJoined(world: World, id: nat, since: seq<ProxyEvent>, index: nat)
    requires Call(world, id, since, index).partialJson.Some?
    ensures var b, end := Call(world, id, since, index), LastEnd(since, index);
      && (b.partialJson.value == Deltas(since, index) <==> end == None || Deltas(since[..end.value + 1], index) == LOST)
      && (HasDelta(since, index) ==> b.arguments == world.parse(b.partialJson.value))
  {
    var last := LastEnd(since, index);
    if last == None {
      if !HasDelta(since, index) {
        NoDeltas(since, index);
      }
    } else {
      var before, after := since[..last.value + 1], since[last.value + 1..];
      assert since == before + after;
      DeltasJoin(before, after, index);
      Cancel(LOST, Deltas(before, index), Deltas(after, index));
    }
  }

  /** The last delta for the block at `index`. */
  function LastDelta(since: seq<ProxyEvent>, index: nat): (d: Option<nat>)
    ensures d.Some? ==> d.value < |since|
  {
    if since == [] then None
    else
      var n := |since| - 1;
      if since[n].Delta? && since[n].index == index then Some(n) else LastDelta(since[..n], index)
  }

  /** The last end of the block at `index` that carried a replacement. */
  function LastReplacement(since: seq<ProxyEvent>, index: nat): (r: Option<nat>)
    ensures r.Some? ==> r.value < |since| && since[r.value].EndBlock? && since[r.value].replacement.Some?
  {
    if since == [] then None
    else
      var n := |since| - 1;
      if since[n].EndBlock? && since[n].index == index && since[n].replacement.Some? then Some(n) else LastReplacement(since[..n], index)
  }

  /** The text that was parsed last: all deltas or, if the last one came after an end, "undefined" and those since that end. */
  function ParsedText(since: seq<ProxyEvent>, last: nat, index: nat): string
    requires last < |since|
  {
    match LastEnd(since[..last], index)
    case None => Deltas(since, index)
    case Some(end) => LOST + Deltas(since[end + 1..], index)
  }

  /** The arguments of a tool call, open or closed: the last replacement's, unless a delta followed it. */
  function ArgumentsOf(world: World, since: seq<ProxyEvent>, index: nat): Arguments {
    var d, r := LastDelta(since, index), LastReplacement(since, index);
    if r.Some? && (d == None || d.value < r.value) then since[r.value].replacement.value.1
    else if d == None then NoArguments
    else world.parse(ParsedText(since, d.value, index))
  }

  lemma {:induction false} CallArguments(world: World, id: nat, since: seq<ProxyEvent>, index: nat)
    ensures Call(world, id, since, index).arguments == ArgumentsOf(world, since, index)
  {
    if since != [] {
      var before, event := since[..|since| - 1], since[|since| - 1];
      assert since == before + [event];
      if event.Delta? && event.index == index {
        SummaryStep(before, event, index);
      } else {
        CallArguments(world, id, before, index);
        CallStep(world, id, before, event, index);
        if !(event.EndBlock? && event.index == index && event.replacement.Some?) {
          ArgumentsStay(world, before, event, index);
        }
      }
    }
  }

  lemma ArgumentsStay(world: World, since: seq<ProxyEvent>, event: ProxyEvent, index: nat)
    requires !(event.Delta? && event.index == index)
    requires !(event.EndBlock? && event.index == index && event.replacement.Some?)
    ensures ArgumentsOf(world, since + [event], index) == ArgumentsOf(world, since, index)
  {
    var all := since + [event];
    assert all[..|since|] == since;
    assert LastDelta(all, index) == LastDelta(since, index) && LastReplacement(all, index) == LastReplacement(since, index);
    if LastDelta(since, index).Some? {
      ParsedStays(since, event, LastDelta(since, index).value, index);
    }
  }

  lemma ParsedStays(since: seq<ProxyEvent>, event: ProxyEvent, last: nat, index: nat)
    requires !(event.Delta? && event.index == index) && last < |since|
    ensures ParsedText(since + [event], last, index) == ParsedText(since, last, index)
  {
    Slices(since, event, last);
    match LastEnd(since[..last], index)
    case None => SummaryStep(since, event, index);
    case Some(end) =>
      Slices(since, event, end);
      SummaryStep(since[end + 1..], event, index);
  }

  /**
   * What is parsed is the join of all deltas if and only if the last delta came before any end, or
   * the deltas up to the end before it happen to spell "undefined".
   */
  lemma ParsedIsJoined(since: seq<ProxyEvent>, last: nat, index: nat)
    requires LastDelta(since, index) == Some(last)
    ensures var end := LastEnd(since[..last], index);
      ParsedText(since, last, index) == Deltas(since, index) <==> end == None || Deltas(since[..end.value + 1], index) == LOST
  {
    var end := LastEnd(since[..last], index);
    if end.Some? {
      var before, after := since[..end.value + 1], since[end.value + 1..];
      assert since == before + after;
      DeltasJoin(before, after, index);
      Cancel(LOST, Deltas(before, index), Deltas(after, index));
    }
  }

  lemma Cancel(a: string, b: string, t: string)
    ensures a + t == b + t <==> a == b
  {
    if a + t == b + t {
      assert |a| == |b|;
      assert a == (a + t)[..|a|] && b == (b + t)[..|b|];
    }
  }

  /** A delta after the end: the call is parsed from "undefined}" although "{}" was sent. */
  lemma LateDeltaCorrupts(world: World, id: nat, open: ProxyEvent, end: ProxyEvent, late: ProxyEvent)
    requires open == Delta(0, IsToolCall, "{") && end == EndBlock(0, IsToolCall, None) && late == Delta(0, IsToolCall, "}")
    ensures Call(world, id, [open, end, late], 0) == ToolCall(id, world.parse("undefined}"), Some("undefined}"))
    ensures Deltas([open, end, late], 0) == "{}"
  {
    assert [] + [open] == [open] && [open] + [end] == [open, end] && [open, end] + [late] == [open, end, late];
    CallStep(world, id, [], open, 0);
    CallStep(world, id, [open], end, 0);
    CallStep(world, id, [open, end], late, 0);
    DeltasStep([], open, 0);
    DeltasStep([open], end, 0);
    DeltasStep([open, end], late, 0);
    var b := Call(world, id, [open, end], 0);
    assert b.partialJson == None && b.id == id;
    assert LOST + "}" == "undefined}" && "{" + "" + "}" == "{}";
  }

  lemma StartStep(history: seq<ProxyEvent>, event: ProxyEvent, index: nat)
    ensures LastStart(history + [event], index)
      == if event.StartBlock? && event.index == index then Some(|history|) else LastStart(history, index)
  {
    assert (history + [event])[..|history|] == history;
  }

  lemma OthersStay(world: World, content: map<nat, Block>, event: ProxyEvent, index: nat)
    requires !Misplaced(content, event) && index !in content && !(event.StartBlock? && event.index == index)
    ensures index !in Applied(world, content, event)
  {
  }

  lemma FreshHolds(world: World, content: map<nat, Block>, event: ProxyEvent, index: nat)
    requires event.StartBlock? && event.index == index
    ensures index in Applied(world, content, event)
      && Holds(world, Applied(world, content, event)[index], event.kind, event.id, [], index)
  {
  }

  lemma RebuiltStep(world: World, content: map<nat, Block>, history: seq<ProxyEvent>, event: ProxyEvent, index: nat)
    requires Rebuilt(world, content, history, index) && !Misplaced(content, event)
    ensures Rebuilt(world, Applied(world, content, event), history + [event], index)
  {
    StartStep(history, event, index);
    if event.StartBlock? && event.index == index {
      assert (history + [event])[|history| + 1..] == [];
      FreshHolds(world, content, event, index);
    } else {
      match LastStart(history, index)
      case None => OthersStay(world, content, event, index);
      case Some(start) =>
        Slices(history, event, start);
        HoldsStep(world, content, event, history[start].kind, history[start].id, history[start + 1..], index);
    }
  }

  class Partial {
    const world: World
    var content: map<nat, Block>
    ghost var history: seq<ProxyEvent>    // every event accepted

    constructor (world: World)
      ensures Valid() && history == [] && content == map[]
    {
      this.world := world;
      content := map[];
      history := [];
    }

    ghost predicate Valid()
      reads this
    {
      forall index: nat :: Rebuilt(world, content, history, index)
    }

    /** Nothing is emitted when a tool call ends where there is none; other mismatches throw. */
    method ProcessProxyEvent(event: ProxyEvent) returns (emitted: Outcome<bool>)
      requires Valid()
      modifies this
      ensures Valid()
      ensures var misplaced := (event.Delta? || event.EndBlock?)
                && (event.index !in old(content) || KindOf(old(content[event.index])) != event.kind);
        emitted == if !misplaced then Returned(true) else if event.EndBlock? && event.kind == IsToolCall then Returned(false) else Thrown
      ensures history == if emitted == Returned(true) then old(history) + [event] else old(history)
      ensures content == if emitted == Returned(true) then Applied(world, old(content), event) else old(content)
    {
      if event.Delta? || event.EndBlock? {
        if event.index !in content || KindOf(content[event.index]) != event.kind {
          return if event.EndBlock? && event.kind == IsToolCall then Returned(false) else Thrown;
        }
      }
      match event {
        case Begin =>
        case Finish(_) =>
        case StartBlock(index, kind, id) =>
          content := content[index := Fresh(kind, id)];
        case Delta(index, _, delta) =>
          content := content[index := Append(content[index], delta, world)];
        case EndBlock(index, kind, replacement) =>
          if kind == IsToolCall {
            content := content[index := Close(content[index], replacement)];
          }
      }
      forall index: nat
        ensures Rebuilt(world, content, history + [event], index)
      {
        assert Rebuilt(world, old(content), history, index);
        RebuiltStep(world, old(content), history, event, index);
      }
      history := history + [event];
      return Returned(true);
    }
  }
}
