/** The blocks of a rebuilt message: each depends on the events for its own index only. */
module ProxyBlocks {
  import opened Text
  import opened ProxyStreams

  function IndexOfEvent(e: ProxyEvent): Option<int> {
    match e
    case Start => None
    case Done(_, _) => None
    case Error(_, _, _) => None
    case Unknown(_) => None
    case TextStart(i) => Some(i)
    case TextDelta(i, _) => Some(i)
    case TextEnd(i, _) => Some(i)
    case ThinkingStart(i) => Some(i)
    case ThinkingDelta(i, _) => Some(i)
    case ThinkingEnd(i, _) => Some(i)
    case ToolCallStart(i, _, _) => Some(i)
    case ToolCallDelta(i, _) => Some(i)
    case ToolCallEnd(i) => Some(i)
  }

  predicate StartsBlock(e: ProxyEvent) { e.TextStart? || e.ThinkingStart? || e.ToolCallStart? }

  /** The effect of an event on the one block it names; None when the program throws. */
  function BlockStep(parse: string -> Option<string>, e: ProxyEvent, b: Option<Block>): Option<Option<Block>> {
    match (e, b)
    case (TextStart(_), _) => Some(Some(TextBlock("", None)))
    case (ThinkingStart(_), _) => Some(Some(ThinkingBlock("", None)))
    case (ToolCallStart(_, id, name), _) => Some(Some(ToolCallBlock(id, name, "{}", Some(""))))
    case (TextDelta(_, delta), Some(TextBlock(text, sig))) => Some(Some(TextBlock(text + delta, sig)))
    case (TextEnd(_, sig), Some(TextBlock(text, _))) => Some(Some(TextBlock(text, sig)))
    case (ThinkingDelta(_, delta), Some(ThinkingBlock(text, sig))) => Some(Some(ThinkingBlock(text + delta, sig)))
    case (ThinkingEnd(_, sig), Some(ThinkingBlock(text, _))) => Some(Some(ThinkingBlock(text, sig)))
    case (ToolCallDelta(_, delta), Some(ToolCallBlock(id, name, _, json))) =>
      Some(Some(ToolCallBlock(id, name, Arguments(parse, GrowJson(json, delta)), Some(GrowJson(json, delta)))))
    case (ToolCallEnd(_), Some(ToolCallBlock(id, name, arguments, _))) =>
      Some(Some(ToolCallBlock(id, name, arguments, None)))
    case (ToolCallEnd(_), _) => Some(b)
    case (_, _) => None
  }

  /** The block at index `i`, folded from the events for that index. */
  function FoldBlock(parse: string -> Option<string>, es: seq<ProxyEvent>, i: int): Option<Option<Block>> {
    if es == [] then Some(None)
    else
      var before := FoldBlock(parse, es[..|es| - 1], i);
      var e := es[|es| - 1];
      if before.None? then None
      else if IndexOfEvent(e) == Some(i) then BlockStep(parse, e, before.value)
      else before
  }

  /** The message built by the program from a sequence of events; None once it has thrown. */
  function ProcessEvents(parse: string -> Option<string>, es: seq<ProxyEvent>): Option<Partial> {
    if es == [] then Some(EMPTY)
    else
      var before := ProcessEvents(parse, es[..|es| - 1]);
      if before.None? then None else ProcessEvent(parse, es[|es| - 1], before.value)
  }

  function BlockAt(p: Partial, i: int): Option<Block> {
    if i in p.content then Some(p.content[i]) else None
  }

  /** One event changes the block it names as the block's own step says, and no other. */
  lemma EventTouchesOneBlock(parse: string -> Option<string>, e: ProxyEvent, p: Partial, i: int)
    ensures
      var r := ProcessEvent(parse, e, p);
      if IndexOfEvent(e) == Some(i) then
        var step := BlockStep(parse, e, BlockAt(p, i));
        if r.None? then step.None? else step == Some(BlockAt(r.value, i))
      else r.Some? ==> BlockAt(r.value, i) == BlockAt(p, i)
  {}

  /** Whatever events for other indices are interleaved, the block at `i` is the fold of the events for `i`. */
  lemma {:induction false} BlockIsItsFold(parse: string -> Option<string>, es: seq<ProxyEvent>, i: int)
    requires ProcessEvents(parse, es).Some?
    ensures FoldBlock(parse, es, i) == Some(BlockAt(ProcessEvents(parse, es).value, i))
    decreases |es|
  {
    if es != [] {
      var before := es[..|es| - 1];
      BlockIsItsFold(parse, before, i);
      EventTouchesOneBlock(parse, es[|es| - 1], ProcessEvents(parse, before).value, i);
    }
  }

  /** The program throws exactly when the events for some one index do not fit together. */
  lemma {:induction false} ThrowsIffSomeBlockDoes(parse: string -> Option<string>, es: seq<ProxyEvent>)
    ensures ProcessEvents(parse, es).None? <==> exists i :: FoldBlock(parse, es, i).None?
    decreases |es|
  {
    if es != [] {
      var before := es[..|es| - 1];
      var e := es[|es| - 1];
      ThrowsIffSomeBlockDoes(parse, before);
      if ProcessEvents(parse, before).None? {
        var i :| FoldBlock(parse, before, i).None?;
        assert FoldBlock(parse, es, i).None?;
        assert ProcessEvents(parse, es).None?;
      } else if ProcessEvents(parse, es).None? {
        var i := IndexOfEvent(e).value;
        BlockIsItsFold(parse, before, i);
        EventTouchesOneBlock(parse, e, ProcessEvents(parse, before).value, i);
        assert es[..|es| - 1] == before && es[|es| - 1] == e;
        assert FoldBlock(parse, es, i).None?;
        assert exists j :: FoldBlock(parse, es, j).None?;
      } else {
        forall i
          ensures FoldBlock(parse, es, i).Some?
        {
          BlockIsItsFold(parse, es, i);
        }
      }
    }
  }

  /** The events for one index. */
  function Only(es: seq<ProxyEvent>, i: int): seq<ProxyEvent> {
    if es == [] then []
    else Only(es[..|es| - 1], i) + if IndexOfEvent(es[|es| - 1]) == Some(i) then [es[|es| - 1]] else []
  }

  lemma {:induction false} OtherIndicesDoNotMatter(parse: string -> Option<string>, es: seq<ProxyEvent>, i: int)
    ensures FoldBlock(parse, es, i) == FoldBlock(parse, Only(es, i), i)
    decreases |es|
  {
    if es != [] {
      var before := es[..|es| - 1];
      OtherIndicesDoNotMatter(parse, before, i);
      if IndexOfEvent(es[|es| - 1]) == Some(i) {
        assert Only(es, i)[..|Only(es, i)| - 1] == Only(before, i);
      } else {
        assert Only(es, i) == Only(before, i);
      }
    }
  }

  /** A start event begins the block afresh: only the events since the last start count. */
  lemma {:induction false} OnlySinceStart(parse: string -> Option<string>, before: seq<ProxyEvent>, start: ProxyEvent,
                                          later: seq<ProxyEvent>, i: int)
    requires StartsBlock(start) && IndexOfEvent(start) == Some(i) && FoldBlock(parse, before, i).Some?
    ensures FoldBlock(parse, before + [start] + later, i) == FoldBlock(parse, [start] + later, i)
    decreases |later|
  {
    var whole, short := before + [start] + later, [start] + later;
    if later == [] {
      assert whole[..|whole| - 1] == before && short[..|short| - 1] == [];
    } else {
      OnlySinceStart(parse, before, start, later[..|later| - 1], i);
      assert whole[..|whole| - 1] == before + [start] + later[..|later| - 1];
      assert short[..|short| - 1] == [start] + later[..|later| - 1];
    }
  }

  // ----- From the lines of a stream to the blocks -----

  /** The events that lines carry, up to the first line whose text is no event. */
  datatype Reading = Reading(events: seq<ProxyEvent>, malformed: bool)

  function EventsOf(json: string -> Option<ProxyEvent>, lines: seq<string>): Reading {
    if lines == [] then Reading([], false)
    else
      var before := EventsOf(json, lines[..|lines| - 1]);
      var payload := Payload(lines[|lines| - 1]);
      if before.malformed || payload.None? then before
      else if json(payload.value).None? then before.(malformed := true)
      else before.(events := before.events + [json(payload.value).value])
  }

  /** The stream events pushed for a sequence of events that the program does not throw at. */
  function Answers(parse: string -> Option<string>, es: seq<ProxyEvent>): seq<Emission> {
    if es == [] then []
    else
      var before, after := Answers(parse, es[..|es| - 1]), ProcessEvents(parse, es);
      if after.None? then before else Pushed(before, Answer(es[|es| - 1], after.value))
  }

  lemma OneMoreEvent(parse: string -> Option<string>, es: seq<ProxyEvent>, e: ProxyEvent)
    ensures
      var before := ProcessEvents(parse, es);
      var after := ProcessEvents(parse, es + [e]);
      && after == (if before.None? then None else ProcessEvent(parse, e, before.value))
      && (after.Some? ==> Answers(parse, es + [e]) == Pushed(Answers(parse, es), Answer(e, after.value)))
  {
    assert (es + [e])[..|es|] == es;
  }

  /** The decoder throws exactly at a line that is no event or at an event that does not fit, and otherwise holds the
      message of the events. */
  lemma {:induction false} LinesAreEvents(json: string -> Option<ProxyEvent>, parse: string -> Option<string>,
                                          lines: seq<string>)
    ensures
      var d, r := ProcessLines(json, parse, Decoding(EMPTY, false, []), lines), EventsOf(json, lines);
      && (d.failed <==> r.malformed || ProcessEvents(parse, r.events).None?)
      && (!d.failed ==> ProcessEvents(parse, r.events) == Some(d.partial) && d.stream == Answers(parse, r.events))
    decreases |lines|
  {
    if lines != [] {
      var before, payload := EventsOf(json, lines[..|lines| - 1]), Payload(lines[|lines| - 1]);
      LinesAreEvents(json, parse, lines[..|lines| - 1]);
      if payload.Some? && json(payload.value).Some? {
        OneMoreEvent(parse, before.events, json(payload.value).value);
      }
    }
  }

  /** However a stream is split into reads, a decoder that does not throw leaves at each index the fold of the events
      for that index. */
  lemma DecodedBlocks(json: string -> Option<ProxyEvent>, parse: string -> Option<string>, parts: seq<string>, i: int)
    requires !ProcessLines(json, parse, Decoding(EMPTY, false, []), Buffered(parts).0).failed
    ensures
      var d := ProcessLines(json, parse, Decoding(EMPTY, false, []), Buffered(parts).0);
      FoldBlock(parse, EventsOf(json, CompleteLines(Concat(parts))).events, i) == Some(BlockAt(d.partial, i))
  {
    ReadsDoNotMatter(parts);
    LinesAreEvents(json, parse, CompleteLines(Concat(parts)));
    BlockIsItsFold(parse, EventsOf(json, CompleteLines(Concat(parts))).events, i);
  }

  // ----- What the answers say -----

  /** The text that the deltas for one index carry. */
  function Deltas(es: seq<ProxyEvent>, i: int): string {
    if es == [] then ""
    else
      var last := es[|es| - 1];
      Deltas(es[..|es| - 1], i)
      + if (last.TextDelta? || last.ThinkingDelta?) && last.contentIndex == i then last.delta else ""
  }

  /** No event starts a block at the index. */
  predicate NoStart(es: seq<ProxyEvent>, i: int) {
    forall k :: 0 <= k < |es| ==> !(StartsBlock(es[k]) && IndexOfEvent(es[k]) == Some(i))
  }

  function TextOf(b: Option<Block>): string {
    match b
    case Some(TextBlock(text, _)) => text
    case Some(ThinkingBlock(text, _)) => text
    case _ => ""
  }

  lemma StepText(parse: string -> Option<string>, e: ProxyEvent, b: Option<Block>, i: int)
    requires b.Some? && !b.value.ToolCallBlock? && IndexOfEvent(e) == Some(i) && !StartsBlock(e)
    requires BlockStep(parse, e, b).Some?
    ensures
      var r := BlockStep(parse, e, b).value;
      && r.Some? && !r.value.ToolCallBlock?
      && TextOf(r) == TextOf(b) + if e.TextDelta? || e.ThinkingDelta? then e.delta else ""
  {
    assert TextOf(b) + "" == TextOf(b);
  }

  /** From a text or thinking block's start on, its text is what its deltas carry. */
  lemma {:induction false} TextIsItsDeltas(parse: string -> Option<string>, start: ProxyEvent, later: seq<ProxyEvent>,
                                           i: int)
    requires (start.TextStart? || start.ThinkingStart?) && IndexOfEvent(start) == Some(i) && NoStart(later, i)
    requires FoldBlock(parse, [start] + later, i).Some?
    ensures
      var b := FoldBlock(parse, [start] + later, i).value;
      b.Some? && !b.value.ToolCallBlock? && TextOf(b) == Deltas(later, i)
    decreases |later|
  {
    var es := [start] + later;
    if later == [] {
      assert es[..0] == [];
      assert FoldBlock(parse, [], i) == Some(None);
    } else {
      var front, e := later[..|later| - 1], later[|later| - 1];
      assert es[..|es| - 1] == [start] + front && es[|es| - 1] == e;
      TextIsItsDeltas(parse, start, front, i);
      if IndexOfEvent(e) == Some(i) {
        assert !StartsBlock(e);
        StepText(parse, e, FoldBlock(parse, [start] + front, i).value, i);
      } else {
        assert Deltas(front, i) + "" == Deltas(front, i);
      }
    }
  }

  /** The answer to a text or thinking end repeats all that the block's deltas have carried since its start. */
  lemma EndRepeatsDeltas(parse: string -> Option<string>, before: seq<ProxyEvent>, start: ProxyEvent,
                         later: seq<ProxyEvent>, end: ProxyEvent, i: int)
    requires (start.TextStart? || start.ThinkingStart?) && IndexOfEvent(start) == Some(i) && NoStart(later, i)
    requires (end.TextEnd? || end.ThinkingEnd?) && IndexOfEvent(end) == Some(i)
    requires ProcessEvents(parse, before + [start] + (later + [end])).Some?
    ensures
      var answer := Answer(end, ProcessEvents(parse, before + [start] + (later + [end])).value);
      && answer.Some? && (answer.value.TextEnded? || answer.value.ThinkingEnded?)
      && answer.value.content == Deltas(later, i)
  {
    var es := before + [start] + (later + [end]);
    BlockIsItsFold(parse, es, i);
    assert before + ([start] + (later + [end])) == es;
    PrefixesProcess(parse, before, [start] + (later + [end]));
    BlockIsItsFold(parse, before, i);
    OnlySinceStart(parse, before, start, later + [end], i);
    TextIsItsDeltas(parse, start, later + [end], i);
    assert (later + [end])[..|later|] == later;
    assert Deltas(later, i) + "" == Deltas(later, i);
    EndAnswer(parse, es[..|es| - 1], end, i, es);
  }

  /** What the program has not thrown at by the end, it has not thrown at before. */
  lemma {:induction false} PrefixesProcess(parse: string -> Option<string>, before: seq<ProxyEvent>,
                                           later: seq<ProxyEvent>)
    requires ProcessEvents(parse, before + later).Some?
    ensures ProcessEvents(parse, before).Some?
    decreases |later|
  {
    if later == [] {
      assert before + later == before;
    } else {
      assert (before + later)[..|before + later| - 1] == before + later[..|later| - 1];
      PrefixesProcess(parse, before, later[..|later| - 1]);
    }
  }

  lemma EndAnswer(parse: string -> Option<string>, front: seq<ProxyEvent>, end: ProxyEvent, i: int, es: seq<ProxyEvent>)
    requires es == front + [end] && ProcessEvents(parse, es).Some?
    requires (end.TextEnd? || end.ThinkingEnd?) && IndexOfEvent(end) == Some(i)
    ensures
      var p := ProcessEvents(parse, es).value;
      && Answer(end, p).Some? && (Answer(end, p).value.TextEnded? || Answer(end, p).value.ThinkingEnded?)
      && Answer(end, p).value.content == TextOf(BlockAt(p, i))
  {
    assert es[..|es| - 1] == front;
  }
}
