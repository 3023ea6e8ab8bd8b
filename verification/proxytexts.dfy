/** What the decoder reads off a stream: its lines, the texts they carry, and what the events make of the message. */
module ProxyTexts {
  import opened Text
  import opened ProxyStreams
  import opened ProxyBlocks

  // ----- Lines -----

  /** Lines with a newline between each two. */
  function Joined(lines: seq<string>): string
    requires lines != []
  {
    if |lines| == 1 then lines[0] else lines[0] + "\n" + Joined(lines[1..])
  }

  ghost predicate AreLines(lines: seq<string>) {
    lines != [] && forall k :: 0 <= k < |lines| ==> '\n' !in lines[k]
  }

  lemma {:induction false} SplitIsLines(s: string)
    ensures AreLines(Split(s)) && Joined(Split(s)) == s
    decreases |s|
  {
    var e := LineEnd(s, 0);
    if e < |s| {
      SplitIsLines(s[e + 1..]);
      assert Split(s)[1..] == Split(s[e + 1..]);
      assert s == s[..e] + "\n" + s[e + 1..];
    }
  }

  lemma {:induction false} LinesAreSplit(lines: seq<string>)
    requires AreLines(lines)
    ensures Split(Joined(lines)) == lines
    decreases |lines|
  {
    var s := Joined(lines);
    if |lines| == 1 {
      assert LineEnd(s, 0) == |s|;
    } else {
      LinesAreSplit(lines[1..]);
      FirstLineEnd(lines[0], Joined(lines[1..]));
      assert s[..|lines[0]|] == lines[0] && s[|lines[0]| + 1..] == Joined(lines[1..]);
    }
  }

  lemma FirstLineEnd(line: string, rest: string)
    requires '\n' !in line
    ensures LineEnd(line + "\n" + rest, 0) == |line|
  {
    var s := line + "\n" + rest;
    assert s[|line|] == '\n';
    assert forall k :: 0 <= k < |line| ==> s[k] == line[k];
  }

  /** Splitting is the inverse of joining lines. */
  lemma SplitIff(s: string, lines: seq<string>)
    ensures Split(s) == lines <==> AreLines(lines) && Joined(lines) == s
  {
    SplitIsLines(s);
    if AreLines(lines) {
      LinesAreSplit(lines);
    }
  }

  // ----- Payloads -----

  /** Whitespace at neither end. */
  predicate IsTrimmed(t: string) {
    t != "" ==> !IsWhitespace(t[0]) && !IsWhitespace(t[|t| - 1])
  }

  /** `t` stands in `s`, trimmed, with nothing but whitespace around it. */
  ghost predicate IsTrimOf(s: string, t: string) {
    IsTrimmed(t) && exists i: nat :: i + |t| <= |s| && TrimsAt(s, t, i)
  }

  ghost predicate TrimsAt(s: string, t: string, i: nat)
    requires i + |t| <= |s|
  {
    s[i..i + |t|] == t && forall k :: 0 <= k < i || i + |t| <= k < |s| ==> IsWhitespace(s[k])
  }

  lemma {:induction false} TrimIs(s: string) returns (i: nat)
    ensures IsTrimmed(Trim(s)) && i + |Trim(s)| <= |s| && TrimsAt(s, Trim(s), i)
    decreases |s|
  {
    if s != "" && IsWhitespace(s[0]) {
      var j := TrimIs(s[1..]);
      i := j + 1;
      TrimsInTail(s, Trim(s), j);
    } else if s != "" && IsWhitespace(s[|s| - 1]) {
      i := TrimIs(s[..|s| - 1]);
      TrimsInFront(s, Trim(s), i);
    } else {
      i := 0;
      assert s[0..|s|] == s;
    }
  }

  lemma TrimsInTail(s: string, t: string, j: nat)
    requires s != "" && IsWhitespace(s[0]) && j + |t| <= |s| - 1 && TrimsAt(s[1..], t, j)
    ensures TrimsAt(s, t, j + 1)
  {
    assert s[1..][j..j + |t|] == s[j + 1..j + 1 + |t|];
    forall k | 0 <= k < j + 1 || j + 1 + |t| <= k < |s|
      ensures IsWhitespace(s[k])
    {
      assert k > 0 ==> s[k] == s[1..][k - 1];
    }
  }

  lemma TrimsInFront(s: string, t: string, i: nat)
    requires s != "" && IsWhitespace(s[|s| - 1]) && i + |t| <= |s| - 1 && TrimsAt(s[..|s| - 1], t, i)
    ensures TrimsAt(s, t, i)
  {
    var front := s[..|s| - 1];
    assert s[i..i + |t|] == front[i..i + |t|];
    forall k | 0 <= k < i || i + |t| <= k < |s|
      ensures IsWhitespace(s[k])
    {
      assert k < |s| - 1 ==> s[k] == front[k];
    }
  }

  /** There is but one way to trim. */
  lemma TrimIsUnique(s: string, t: string, i: nat, u: string, j: nat)
    requires IsTrimmed(t) && i + |t| <= |s| && TrimsAt(s, t, i)
    requires IsTrimmed(u) && j + |u| <= |s| && TrimsAt(s, u, j)
    ensures |t| <= |u|
    ensures |t| == |u| ==> t == u
  {
    if t != "" {
      assert s[i] == t[0] && s[i + |t| - 1] == t[|t| - 1];
      assert j <= i && i + |t| <= j + |u|;
      if |t| == |u| {
        assert i == j;
      }
    }
  }

  lemma TrimIff(s: string, t: string)
    ensures Trim(s) == t <==> IsTrimOf(s, t)
  {
    var i := TrimIs(s);
    if IsTrimOf(s, t) {
      var j: nat :| j + |t| <= |s| && TrimsAt(s, t, j);
      TrimIsUnique(s, Trim(s), i, t, j);
      TrimIsUnique(s, t, j, Trim(s), i);
    }
  }

  /** A line carries a text exactly when it is the data prefix and then the text, up to whitespace around it. */
  lemma PayloadIff(line: string, t: string)
    ensures Payload(line) == Some(t) <==> |line| >= 6 && line[..6] == "data: " && t != "" && IsTrimOf(line[6..], t)
  {
    if |line| >= 6 {
      TrimIff(line[6..], t);
    }
  }

  // ----- The end of a message -----

  predicate EndsMessage(e: ProxyEvent) { e.Done? || e.Error? }

  /** The stop reason and the usage are those of the last done or error event, the error message is that of the last
      error event, and without such events they are as at the start. */
  lemma {:induction false} LastEndCounts(parse: string -> Option<string>, es: seq<ProxyEvent>, k: nat, j: nat)
    requires ProcessEvents(parse, es).Some? && k <= |es| && j <= |es|
    requires forall i :: k <= i < |es| ==> !EndsMessage(es[i])
    requires forall i :: j <= i < |es| ==> !es[i].Error?
    requires k > 0 ==> EndsMessage(es[k - 1])
    requires j > 0 ==> es[j - 1].Error?
    ensures
      var p := ProcessEvents(parse, es).value;
      && p.stopReason == (if k == 0 then "stop" else es[k - 1].reason)
      && p.usage == (if k == 0 then Usage(0) else es[k - 1].usage)
      && p.errorMessage == (if j == 0 then None else es[j - 1].errorMessage)
    decreases |es|
  {
    if es != [] {
      var front, e := es[..|es| - 1], es[|es| - 1];
      if !e.Error? {
        if EndsMessage(e) {
          var k' := LastEndOf(front);
          LastEndCounts(parse, front, k', j);
        } else {
          LastEndCounts(parse, front, k, j);
        }
      }
    }
  }

  lemma {:induction false} LastEndOf(es: seq<ProxyEvent>) returns (k: nat)
    ensures k <= |es| && (forall i :: k <= i < |es| ==> !EndsMessage(es[i])) && (k > 0 ==> EndsMessage(es[k - 1]))
    decreases |es|
  {
    k := |es|;
    if es != [] && !EndsMessage(es[|es| - 1]) {
      k := LastEndOf(es[..|es| - 1]);
    }
  }

  // ----- What the answers carry -----

  /** The text that one answer tells has grown at an index. */
  function GrowthOf(a: Emission, i: int): string {
    if (a.TextGrew? || a.ThinkingGrew?) && a.contentIndex == i then a.delta else ""
  }

  /** The text that the answers tell has grown at one index. */
  function Grown(stream: seq<Emission>, i: int): string {
    if stream == [] then ""
    else
      var last := stream[|stream| - 1];
      Grown(stream[..|stream| - 1], i) + GrowthOf(last, i)
  }

  /** The text that one event carries for an index. */
  function DeltaOf(e: ProxyEvent, i: int): string {
    if (e.TextDelta? || e.ThinkingDelta?) && e.contentIndex == i then e.delta else ""
  }

  lemma AnswerGrows(e: ProxyEvent, p: Partial, i: int)
    ensures match Answer(e, p) case None => DeltaOf(e, i) == "" case Some(a) => GrowthOf(a, i) == DeltaOf(e, i)
  {}

  lemma AnswerCarriesDelta(stream: seq<Emission>, answer: Option<Emission>, delta: string, i: int)
    requires match answer case None => delta == "" case Some(a) => GrowthOf(a, i) == delta
    ensures Grown(Pushed(stream, answer), i) == Grown(stream, i) + delta
  {
    assert Grown(stream, i) + "" == Grown(stream, i);
    if answer.Some? {
      assert (stream + [answer.value])[..|stream|] == stream;
    }
  }

  lemma DeltasStep(es: seq<ProxyEvent>, e: ProxyEvent, i: int)
    ensures Deltas(es + [e], i) == Deltas(es, i) + DeltaOf(e, i)
  {
    assert (es + [e])[..|es|] == es;
  }

  /** The answers pass on all the text that the deltas for an index carry, in order, and no other. */
  lemma {:induction false} AnswersCarryDeltas(parse: string -> Option<string>, es: seq<ProxyEvent>, i: int)
    requires ProcessEvents(parse, es).Some?
    ensures Grown(Answers(parse, es), i) == Deltas(es, i)
    decreases |es|
  {
    if es != [] {
      var front, e := es[..|es| - 1], es[|es| - 1];
      assert es == front + [e];
      OneMoreEvent(parse, front, e);
      AnswersCarryDeltas(parse, front, i);
      AnswerGrows(e, ProcessEvents(parse, es).value, i);
      AnswerCarriesDelta(Answers(parse, front), Answer(e, ProcessEvents(parse, es).value), DeltaOf(e, i), i);
      DeltasStep(front, e, i);
    }
  }

  // ----- Tool calls -----

  /** The partial JSON that the deltas for one index carry, and whether there are any. */
  function CallJson(es: seq<ProxyEvent>, i: int): Option<string> {
    if es == [] then None
    else
      var before, last := CallJson(es[..|es| - 1], i), es[|es| - 1];
      if last.ToolCallDelta? && last.contentIndex == i then
        Some((if before.Some? then before.value else "") + last.delta)
      else before
  }

  /** Events that neither start nor end the call at the index. */
  ghost predicate InCall(es: seq<ProxyEvent>, i: int) {
    forall k :: 0 <= k < |es| && IndexOfEvent(es[k]) == Some(i) ==> es[k].ToolCallDelta?
  }

  /** The arguments of a call: what can be read off its JSON, an empty object when nothing can or nothing has come. */
  ghost predicate IsCall(parse: string -> Option<string>, b: Block, id: string, name: string, json: Option<string>) {
    && b.ToolCallBlock? && b.id == id && b.name == name
    && b.arguments == match json
                      case None => "{}"
                      case Some(text) => if parse(text).Some? then parse(text).value else "{}"
  }

  /** From its start up to its end a tool call has the arguments that all its deltas so far make up. */
  lemma {:induction false} CallIsItsDeltas(parse: string -> Option<string>, id: string, name: string,
                                           later: seq<ProxyEvent>, i: int)
    requires InCall(later, i)
    ensures
      var b := FoldBlock(parse, [ToolCallStart(i, id, name)] + later, i);
      && b.Some? && b.value.Some? && IsCall(parse, b.value.value, id, name, CallJson(later, i))
      && b.value.value.partialJson == Some(if CallJson(later, i).Some? then CallJson(later, i).value else "")
    decreases |later|
  {
    var es := [ToolCallStart(i, id, name)] + later;
    if later == [] {
      assert es[..0] == [] && FoldBlock(parse, [], i) == Some(None);
    } else {
      assert es[..|es| - 1] == [ToolCallStart(i, id, name)] + later[..|later| - 1];
      CallIsItsDeltas(parse, id, name, later[..|later| - 1], i);
    }
  }

  /** The answer to a tool call's end is the call with the arguments that all its deltas since the start make up,
      whatever other events are interleaved. */
  lemma EndRepeatsCall(parse: string -> Option<string>, before: seq<ProxyEvent>, id: string, name: string,
                       later: seq<ProxyEvent>, i: int)
    requires InCall(later, i)
    requires ProcessEvents(parse, before + [ToolCallStart(i, id, name)] + (later + [ToolCallEnd(i)])).Some?
    ensures
      var p := ProcessEvents(parse, before + [ToolCallStart(i, id, name)] + (later + [ToolCallEnd(i)])).value;
      var answer := Answer(ToolCallEnd(i), p);
      && answer.Some? && answer.value.CallEnded? && answer.value.contentIndex == i
      && IsCall(parse, answer.value.toolCall, id, name, CallJson(later, i)) && answer.value.toolCall.partialJson.None?
  {
    var start := ToolCallStart(i, id, name);
    var es := before + [start] + (later + [ToolCallEnd(i)]);
    BlockIsItsFold(parse, es, i);
    assert before + ([start] + (later + [ToolCallEnd(i)])) == es;
    PrefixesProcess(parse, before, [start] + (later + [ToolCallEnd(i)]));
    BlockIsItsFold(parse, before, i);
    OnlySinceStart(parse, before, start, later + [ToolCallEnd(i)], i);
    CallIsItsDeltas(parse, id, name, later, i);
    CallEnds(parse, [start] + later, i, FoldBlock(parse, [start] + later, i).value.value);
    assert [start] + (later + [ToolCallEnd(i)]) == [start] + later + [ToolCallEnd(i)];
  }

  lemma FoldStep(parse: string -> Option<string>, es: seq<ProxyEvent>, e: ProxyEvent, i: int)
    requires FoldBlock(parse, es, i).Some? && IndexOfEvent(e) == Some(i)
    ensures FoldBlock(parse, es + [e], i) == BlockStep(parse, e, FoldBlock(parse, es, i).value)
  {
    assert (es + [e])[..|es|] == es;
  }

  lemma CallEnds(parse: string -> Option<string>, es: seq<ProxyEvent>, i: int, b: Block)
    requires FoldBlock(parse, es, i) == Some(Some(b)) && b.ToolCallBlock?
    ensures FoldBlock(parse, es + [ToolCallEnd(i)], i) == Some(Some(ToolCallBlock(b.id, b.name, b.arguments, None)))
  {
    FoldStep(parse, es, ToolCallEnd(i), i);
  }

  // ----- Signatures -----

  function SignatureOf(b: Block): Option<string> {
    match b
    case TextBlock(_, signature) => signature
    case ThinkingBlock(_, signature) => signature
    case ToolCallBlock(_, _, _, _) => None
  }

  predicate EndsText(e: ProxyEvent, i: int) {
    (e.TextEnd? || e.ThinkingEnd?) && e.contentIndex == i
  }

  /** A text or thinking block has the signature of its last end, and none before. */
  lemma {:induction false} LastEndSigns(parse: string -> Option<string>, start: ProxyEvent, later: seq<ProxyEvent>,
                                        i: int, k: nat)
    requires (start.TextStart? || start.ThinkingStart?) && IndexOfEvent(start) == Some(i) && NoStart(later, i)
    requires FoldBlock(parse, [start] + later, i).Some? && k <= |later|
    requires (forall j :: k <= j < |later| ==> !EndsText(later[j], i)) && (k > 0 ==> EndsText(later[k - 1], i))
    ensures
      var b := FoldBlock(parse, [start] + later, i).value;
      && b.Some? && !b.value.ToolCallBlock?
      && SignatureOf(b.value) == if k == 0 then None else later[k - 1].contentSignature
    decreases |later|
  {
    var es := [start] + later;
    if later == [] {
      assert es[..0] == [] && FoldBlock(parse, [], i) == Some(None);
    } else {
      var front, e := later[..|later| - 1], later[|later| - 1];
      assert es == [start] + front + [e] && es[..|es| - 1] == [start] + front;
      if k < |later| {
        LastEndSigns(parse, start, front, i, k);
      } else {
        TextIsItsDeltas(parse, start, front, i);
      }
      if IndexOfEvent(e) == Some(i) {
        FoldStep(parse, [start] + front, e, i);
        StepSigns(parse, e, FoldBlock(parse, [start] + front, i).value.value, i);
      }
    }
  }

  lemma StepSigns(parse: string -> Option<string>, e: ProxyEvent, b: Block, i: int)
    requires !b.ToolCallBlock? && IndexOfEvent(e) == Some(i) && !StartsBlock(e) && BlockStep(parse, e, Some(b)).Some?
    ensures
      var r := BlockStep(parse, e, Some(b)).value;
      && r.Some? && !r.value.ToolCallBlock?
      && SignatureOf(r.value) == if EndsText(e, i) then e.contentSignature else SignatureOf(b)
  {}

  // ----- Throws -----

  datatype Kind = Absent | Text | Thinking | Call

  /** What the last start for an index started. */
  function KindAt(es: seq<ProxyEvent>, i: int): Kind {
    if es == [] then Absent
    else
      match es[|es| - 1]
      case TextStart(j) => if i == j then Text else KindAt(es[..|es| - 1], i)
      case ThinkingStart(j) => if i == j then Thinking else KindAt(es[..|es| - 1], i)
      case ToolCallStart(j, _, _) => if i == j then Call else KindAt(es[..|es| - 1], i)
      case _ => KindAt(es[..|es| - 1], i)
  }

  /** Deltas need a block of their kind, and so do ends but those of tool calls. */
  predicate Fits(e: ProxyEvent, kind: Kind) {
    match e
    case TextDelta(_, _) => kind == Text
    case TextEnd(_, _) => kind == Text
    case ThinkingDelta(_, _) => kind == Thinking
    case ThinkingEnd(_, _) => kind == Thinking
    case ToolCallDelta(_, _) => kind == Call
    case _ => true
  }

  predicate Misfits(es: seq<ProxyEvent>, k: nat) {
    k < |es| && IndexOfEvent(es[k]).Some? && !Fits(es[k], KindAt(es[..k], IndexOfEvent(es[k]).value))
  }

  function KindOf(b: Option<Block>): Kind {
    match b
    case None => Absent
    case Some(TextBlock(_, _)) => Text
    case Some(ThinkingBlock(_, _)) => Thinking
    case Some(ToolCallBlock(_, _, _, _)) => Call
  }

  ghost predicate KindsAgree(es: seq<ProxyEvent>, p: Partial) {
    forall i {:trigger KindAt(es, i)} :: KindOf(BlockAt(p, i)) == KindAt(es, i)
  }

  lemma OneMoreKind(parse: string -> Option<string>, es: seq<ProxyEvent>, p: Partial, e: ProxyEvent)
    requires KindsAgree(es, p)
    ensures
      var r := ProcessEvent(parse, e, p);
      && (r.None? <==> IndexOfEvent(e).Some? && !Fits(e, KindAt(es, IndexOfEvent(e).value)))
      && (r.Some? ==> KindsAgree(es + [e], r.value))
  {
    var r := ProcessEvent(parse, e, p);
    if IndexOfEvent(e).Some? {
      assert KindOf(BlockAt(p, IndexOfEvent(e).value)) == KindAt(es, IndexOfEvent(e).value);
    }
    if r.Some? {
      forall i
        ensures KindOf(BlockAt(r.value, i)) == KindAt(es + [e], i)
      {
        assert (es + [e])[..|es|] == es;
        assert KindOf(BlockAt(p, i)) == KindAt(es, i);
      }
    }
  }

  lemma MisfitsAppend(es: seq<ProxyEvent>, e: ProxyEvent, k: nat)
    ensures
      Misfits(es + [e], k) <==>
        Misfits(es, k)
        || (k == |es| && IndexOfEvent(e).Some? && !Fits(e, KindAt(es, IndexOfEvent(e).value)))
  {
    if k <= |es| {
      assert (es + [e])[..k] == es[..k];
      assert es[..|es|] == es;
    }
  }

  /** The program throws exactly when some delta, or some end but a tool call's, comes for an index at which the last
      start before it, if any, started a block of another kind. */
  lemma {:induction false} ThrowsIffMisfit(parse: string -> Option<string>, es: seq<ProxyEvent>)
    ensures ProcessEvents(parse, es).None? <==> exists k: nat :: Misfits(es, k)
    ensures ProcessEvents(parse, es).Some? ==> KindsAgree(es, ProcessEvents(parse, es).value)
    decreases |es|
  {
    if es != [] {
      var front, e := es[..|es| - 1], es[|es| - 1];
      assert es == front + [e];
      ThrowsIffMisfit(parse, front);
      OneMoreEvent(parse, front, e);
      forall k: nat
        ensures
          Misfits(es, k) <==>
            Misfits(front, k)
            || (k == |front| && IndexOfEvent(e).Some? && !Fits(e, KindAt(front, IndexOfEvent(e).value)))
      {
        MisfitsAppend(front, e, k);
      }
      if ProcessEvents(parse, front).Some? {
        OneMoreKind(parse, front, ProcessEvents(parse, front).value, e);
        assert ProcessEvents(parse, es).None? ==> Misfits(es, |front|);
      }
    }
  }
}
