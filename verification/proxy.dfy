/** The proxy stream: a line buffer over arbitrary reads, in the manner of section 9.2.6 of the WHATWG HTML Standard,
    and the rebuilding of a message from its events. */
module ProxyStreams {
  import opened Text

  // ----- Lines -----

  /** `s.split("\n")`. */
  function Split(s: string): (r: seq<string>)
    ensures |r| > 0
    decreases |s|
  {
    var e := LineEnd(s, 0);
    if e == |s| then [s] else [s[..e]] + Split(s[e + 1..])
  }

  /** The lines that a newline completes. */
  function CompleteLines(s: string): seq<string> { var lines := Split(s); lines[..|lines| - 1] }

  /** What follows the last newline. */
  function Tail(s: string): string { var lines := Split(s); lines[|lines| - 1] }

  function Concat(parts: seq<string>): string {
    if parts == [] then "" else Concat(parts[..|parts| - 1]) + parts[|parts| - 1]
  }

  lemma SplitStep(s: string)
    ensures
      var e := LineEnd(s, 0);
      if e == |s| then CompleteLines(s) == [] && Tail(s) == s
      else CompleteLines(s) == [s[..e]] + CompleteLines(s[e + 1..]) && Tail(s) == Tail(s[e + 1..])
  {}

  lemma FirstLineOfConcat(a: string, b: string)
    requires LineEnd(a, 0) < |a|
    ensures
      var e := LineEnd(a, 0);
      LineEnd(a + b, 0) == e && (a + b)[..e] == a[..e] && (a + b)[e + 1..] == a[e + 1..] + b
  {
    var e := LineEnd(a, 0);
    assert forall k :: 0 <= k < e ==> (a + b)[k] == a[k];
    assert (a + b)[e] == a[e];
  }

  /** Lines completed before a further read stay as they are; only the tail meets the new text. */
  lemma {:induction false} LinesOfConcat(a: string, b: string)
    ensures CompleteLines(a + b) == CompleteLines(a) + CompleteLines(Tail(a) + b)
    ensures Tail(a + b) == Tail(Tail(a) + b)
    decreases |a|
  {
    var e := LineEnd(a, 0);
    SplitStep(a);
    if e < |a| {
      FirstLineOfConcat(a, b);
      SplitStep(a + b);
      LinesOfConcat(a[e + 1..], b);
      var rest := Tail(a[e + 1..]) + b;
      assert [a[..e]] + (CompleteLines(a[e + 1..]) + CompleteLines(rest))
             == [a[..e]] + CompleteLines(a[e + 1..]) + CompleteLines(rest);
    }
  }

  /** The read loop's view of a stream: the lines it has taken so far, and its buffer. */
  function Buffered(parts: seq<string>): (seq<string>, string) {
    if parts == [] then ([], "")
    else
      var (lines, buffer) := Buffered(parts[..|parts| - 1]);
      var pieces := Split(buffer + parts[|parts| - 1]);
      (lines + pieces[..|pieces| - 1], pieces[|pieces| - 1])
  }

  /** The lines taken depend only on the whole text, not on how it was split into reads; a last line without its
      newline is never taken. */
  lemma {:induction false} ReadsDoNotMatter(parts: seq<string>)
    ensures Buffered(parts) == (CompleteLines(Concat(parts)), Tail(Concat(parts)))
    decreases |parts|
  {
    if parts == [] {
      SplitStep("");
    } else {
      ReadsDoNotMatter(parts[..|parts| - 1]);
      LinesOfConcat(Concat(parts[..|parts| - 1]), parts[|parts| - 1]);
    }
  }

  // ----- Events -----

  datatype Usage = Usage(totalTokens: int)

  datatype ProxyEvent =
    | Start
    | TextStart(contentIndex: int)
    | TextDelta(contentIndex: int, delta: string)
    | TextEnd(contentIndex: int, contentSignature: Option<string>)
    | ThinkingStart(contentIndex: int)
    | ThinkingDelta(contentIndex: int, delta: string)
    | ThinkingEnd(contentIndex: int, contentSignature: Option<string>)
    | ToolCallStart(contentIndex: int, id: string, toolName: string)
    | ToolCallDelta(contentIndex: int, delta: string)
    | ToolCallEnd(contentIndex: int)
    | Done(reason: string, usage: Usage)
    | Error(reason: string, errorMessage: Option<string>, usage: Usage)
    | Unknown(name: string)

  /** A content block. The arguments of a tool call are held as their canonical JSON text. */
  datatype Block =
    | TextBlock(text: string, textSignature: Option<string>)
    | ThinkingBlock(thinking: string, thinkingSignature: Option<string>)
    | ToolCallBlock(id: string, name: string, arguments: string, partialJson: Option<string>)

  datatype Partial = Partial(content: map<int, Block>, stopReason: string, errorMessage: Option<string>, usage: Usage)

  const EMPTY := Partial(map[], "stop", None, Usage(0))

  /** `partialJson += delta`: a finished call's partial JSON is deleted, and then parts as the word undefined. */
  function GrowJson(partialJson: Option<string>, delta: string): string {
    (if partialJson.Some? then partialJson.value else "undefined") + delta
  }

  /** The arguments that can be read off partial JSON; an empty object when there are none yet. */
  function Arguments(parse: string -> Option<string>, json: string): string {
    if parse(json).Some? then parse(json).value else "{}"
  }

  /** The effect of an event on the message built so far; None when the program throws. */
  function ProcessEvent(parse: string -> Option<string>, e: ProxyEvent, p: Partial): Option<Partial> {
    match e
    case Start => Some(p)
    case TextStart(i) => Some(p.(content := p.content[i := TextBlock("", None)]))
    case TextDelta(i, delta) =>
      if i in p.content && p.content[i].TextBlock? then
        Some(p.(content := p.content[i := p.content[i].(text := p.content[i].text + delta)]))
      else None
    case TextEnd(i, signature) =>
      if i in p.content && p.content[i].TextBlock? then
        Some(p.(content := p.content[i := p.content[i].(textSignature := signature)]))
      else None
    case ThinkingStart(i) => Some(p.(content := p.content[i := ThinkingBlock("", None)]))
    case ThinkingDelta(i, delta) =>
      if i in p.content && p.content[i].ThinkingBlock? then
        Some(p.(content := p.content[i := p.content[i].(thinking := p.content[i].thinking + delta)]))
      else None
    case ThinkingEnd(i, signature) =>
      if i in p.content && p.content[i].ThinkingBlock? then
        Some(p.(content := p.content[i := p.content[i].(thinkingSignature := signature)]))
      else None
    case ToolCallStart(i, id, name) => Some(p.(content := p.content[i := ToolCallBlock(id, name, "{}", Some(""))]))
    case ToolCallDelta(i, delta) =>
      if i in p.content && p.content[i].ToolCallBlock? then
        var json := GrowJson(p.content[i].partialJson, delta);
        var block := p.content[i].(partialJson := Some(json), arguments := Arguments(parse, json));
        Some(p.(content := p.content[i := block]))
      else None
    case ToolCallEnd(i) =>
      if i in p.content && p.content[i].ToolCallBlock? then
        Some(p.(content := p.content[i := p.content[i].(partialJson := None)]))
      else Some(p)
    case Done(reason, usage) => Some(p.(stopReason := reason, usage := usage))
    case Error(reason, message, usage) => Some(p.(stopReason := reason, errorMessage := message, usage := usage))
    case Unknown(_) => Some(p)
  }

  // ----- What the decoder tells its own readers -----

  /** The stream events that proxy events are answered with. */
  datatype Emission =
    | MessageStarted
    | TextStarted(contentIndex: int)
    | TextGrew(contentIndex: int, delta: string)
    | TextEnded(contentIndex: int, content: string)
    | ThinkingStarted(contentIndex: int)
    | ThinkingGrew(contentIndex: int, delta: string)
    | ThinkingEnded(contentIndex: int, content: string)
    | CallStarted(contentIndex: int)
    | CallGrew(contentIndex: int, delta: string)
    | CallEnded(contentIndex: int, toolCall: Block)
    | MessageDone(reason: string)
    | MessageFailed(reason: string)

  /** The answer to an event that left the message `p`: an end carries the whole block; the end of anything but a tool
      call as a tool call, and an unknown event, have no answer. */
  function Answer(e: ProxyEvent, p: Partial): Option<Emission> {
    match e
    case Start => Some(MessageStarted)
    case TextStart(i) => Some(TextStarted(i))
    case TextDelta(i, delta) => Some(TextGrew(i, delta))
    case TextEnd(i, _) =>
      if i in p.content && p.content[i].TextBlock? then Some(TextEnded(i, p.content[i].text)) else None
    case ThinkingStart(i) => Some(ThinkingStarted(i))
    case ThinkingDelta(i, delta) => Some(ThinkingGrew(i, delta))
    case ThinkingEnd(i, _) =>
      if i in p.content && p.content[i].ThinkingBlock? then Some(ThinkingEnded(i, p.content[i].thinking)) else None
    case ToolCallStart(i, _, _) => Some(CallStarted(i))
    case ToolCallDelta(i, delta) => Some(CallGrew(i, delta))
    case ToolCallEnd(i) =>
      if i in p.content && p.content[i].ToolCallBlock? then Some(CallEnded(i, p.content[i])) else None
    case Done(reason, _) => Some(MessageDone(reason))
    case Error(reason, _, _) => Some(MessageFailed(reason))
    case Unknown(_) => None
  }

  function Pushed(stream: seq<Emission>, answer: Option<Emission>): seq<Emission> {
    if answer.Some? then stream + [answer.value] else stream
  }

  // ----- The decoder -----

  const DATA_PREFIX := "data: "

  function Trim(s: string): string {
    if s != "" && IsWhitespace(s[0]) then Trim(s[1..])
    else if s != "" && IsWhitespace(s[|s| - 1]) then Trim(s[..|s| - 1])
    else s
  }

  /** The JSON text that a line carries; lines of any other form, and empty ones, are skipped. */
  function Payload(line: string): Option<string> {
    if DATA_PREFIX <= line && Trim(line[6..]) != "" then Some(Trim(line[6..])) else None
  }

  /** The decoder: the message, whether it has thrown, and the stream events it has pushed. */
  datatype Decoding = Decoding(partial: Partial, failed: bool, stream: seq<Emission>)

  function ProcessLine(json: string -> Option<ProxyEvent>, parse: string -> Option<string>, d: Decoding, line: string)
    : Decoding
  {
    if d.failed || Payload(line).None? then d
    else
      match json(Payload(line).value)
      case None => d.(failed := true)
      case Some(e) =>
        match ProcessEvent(parse, e, d.partial)
        case None => d.(failed := true)
        case Some(p) => d.(partial := p, stream := Pushed(d.stream, Answer(e, p)))
  }

  /** Processing lines in order; after a throw nothing more is processed. */
  function ProcessLines(json: string -> Option<ProxyEvent>, parse: string -> Option<string>, d: Decoding,
                        lines: seq<string>): Decoding
  {
    if lines == [] then d
    else ProcessLine(json, parse, ProcessLines(json, parse, d, lines[..|lines| - 1]), lines[|lines| - 1])
  }

  lemma {:induction false} ProcessConcat(json: string -> Option<ProxyEvent>, parse: string -> Option<string>,
                                         d: Decoding, a: seq<string>, b: seq<string>)
    ensures ProcessLines(json, parse, d, a + b) == ProcessLines(json, parse, ProcessLines(json, parse, d, a), b)
    decreases |b|
  {
    if b == [] {
      assert a + b == a;
    } else {
      ProcessConcat(json, parse, d, a, b[..|b| - 1]);
      assert (a + b)[..|a + b| - 1] == a + b[..|b| - 1];
    }
  }

  lemma {:induction false} FailedStays(json: string -> Option<ProxyEvent>, parse: string -> Option<string>,
                                       d: Decoding, lines: seq<string>)
    requires d.failed
    ensures ProcessLines(json, parse, d, lines) == d
    decreases |lines|
  {
    if lines != [] {
      FailedStays(json, parse, d, lines[..|lines| - 1]);
    }
  }

  class ProxyDecoder {
    const json: string -> Option<ProxyEvent>
    const parse: string -> Option<string>
    var content: map<int, Block>
    var stopReason: string
    var errorMessage: Option<string>
    var usage: Usage
    var buffer: string
    var stream: seq<Emission>

    constructor (json: string -> Option<ProxyEvent>, parse: string -> Option<string>)
      ensures this.json == json && this.parse == parse && buffer == "" && Now(false) == Decoding(EMPTY, false, [])
    {
      this.json, this.parse := json, parse;
      content, stopReason, errorMessage, usage, buffer, stream := map[], "stop", None, Usage(0), "", [];
    }

    function Message(): Partial
      reads this
    {
      Partial(content, stopReason, errorMessage, usage)
    }

    function Now(thrown: bool): Decoding
      reads this
    {
      Decoding(Message(), thrown, stream)
    }

    /** `thrown` stands for the exceptions. */
    method ProcessProxyEvent(e: ProxyEvent) returns (thrown: bool, event: Option<Emission>)
      modifies `content, `stopReason, `errorMessage, `usage
      ensures
        var r := ProcessEvent(parse, e, old(Message()));
        if thrown then r.None? && Message() == old(Message()) else r == Some(Message()) && event == Answer(e, Message())
    {
      event := None;
      match e {
        case Start => event := Some(MessageStarted);
        case TextStart(i) =>
          content := content[i := TextBlock("", None)];
          event := Some(TextStarted(i));
        case TextDelta(i, delta) =>
          if i !in content || !content[i].TextBlock? {
            return true, None;
          }
          content := content[i := content[i].(text := content[i].text + delta)];
          event := Some(TextGrew(i, delta));
        case TextEnd(i, signature) =>
          if i !in content || !content[i].TextBlock? {
            return true, None;
          }
          content := content[i := content[i].(textSignature := signature)];
          event := Some(TextEnded(i, content[i].text));
        case ThinkingStart(i) =>
          content := content[i := ThinkingBlock("", None)];
          event := Some(ThinkingStarted(i));
        case ThinkingDelta(i, delta) =>
          if i !in content || !content[i].ThinkingBlock? {
            return true, None;
          }
          content := content[i := content[i].(thinking := content[i].thinking + delta)];
          event := Some(ThinkingGrew(i, delta));
        case ThinkingEnd(i, signature) =>
          if i !in content || !content[i].ThinkingBlock? {
            return true, None;
          }
          content := content[i := content[i].(thinkingSignature := signature)];
          event := Some(ThinkingEnded(i, content[i].thinking));
        case ToolCallStart(i, id, name) =>
          content := content[i := ToolCallBlock(id, name, "{}", Some(""))];
          event := Some(CallStarted(i));
        case ToolCallDelta(i, delta) =>
          if i !in content || !content[i].ToolCallBlock? {
            return true, None;
          }
          var grown := GrowJson(content[i].partialJson, delta);
          content := content[i := content[i].(partialJson := Some(grown), arguments := Arguments(parse, grown))];
          event := Some(CallGrew(i, delta));
        case ToolCallEnd(i) =>
          if i in content && content[i].ToolCallBlock? {
            content := content[i := content[i].(partialJson := None)];
            event := Some(CallEnded(i, content[i]));
          }
        case Done(reason, tokens) =>
          stopReason, usage := reason, tokens;
          event := Some(MessageDone(reason));
        case Error(reason, message, tokens) =>
          stopReason, errorMessage, usage := reason, message, tokens;
          event := Some(MessageFailed(reason));
        case Unknown(_) =>
      }
      return false, event;
    }

    /** The lines completed by one read are processed in order; the rest of the text waits in the buffer. */
    method ProcessRead(text: string) returns (thrown: bool)
      modifies this
      ensures buffer == Tail(old(buffer) + text)
      ensures
        Now(thrown)
        == ProcessLines(json, parse, old(Now(false)), CompleteLines(old(buffer) + text))
    {
      buffer := buffer + text;
      var pieces := Split(buffer);
      buffer := pieces[|pieces| - 1];
      var lines := pieces[..|pieces| - 1];
      ghost var start := Now(false);
      var k := 0;
      while k < |lines|
        invariant 0 <= k <= |lines|
        invariant buffer == Tail(old(buffer) + text)
        invariant Now(false) == ProcessLines(json, parse, start, lines[..k])
      {
        assert lines[..k + 1][..k] == lines[..k] && lines[..k + 1][k] == lines[k];
        assert lines[..k + 1] + lines[k + 1..] == lines;
        var line := lines[k];
        k := k + 1;
        if DATA_PREFIX <= line {
          var data := Trim(line[6..]);
          if data != "" {
            var parsed := json(data);
            var bad := true;
            if parsed.Some? {
              var event;
              bad, event := ProcessProxyEvent(parsed.value);
              if !bad && event.Some? {
                stream := stream + [event.value];
              }
            }
            if bad {
              assert Now(true) == ProcessLines(json, parse, start, lines[..k]);
              ProcessConcat(json, parse, start, lines[..k], lines[k..]);
              FailedStays(json, parse, Now(true), lines[k..]);
              assert lines[..k] + lines[k..] == lines;
              return true;
            }
          }
        }
      }
      assert lines[..k] == lines;
      return false;
    }

    /** The read loop, over the decoded texts that the reader delivers. */
    method DecodeStream(parts: seq<string>) returns (thrown: bool)
      requires buffer == ""
      modifies this
      ensures
        Now(thrown)
        == ProcessLines(json, parse, old(Now(false)), CompleteLines(Concat(parts)))
    {
      ghost var start := Now(false);
      var k := 0;
      while k < |parts|
        invariant 0 <= k <= |parts|
        invariant buffer == Tail(Concat(parts[..k]))
        invariant Now(false) == ProcessLines(json, parse, start, CompleteLines(Concat(parts[..k])))
      {
        ghost var sofar := Concat(parts[..k]);
        ghost var pending := buffer;
        LinesOfConcat(sofar, parts[k]);
        ProcessConcat(json, parse, start, CompleteLines(sofar), CompleteLines(pending + parts[k]));
        assert parts[..k + 1][..k] == parts[..k];
        assert Concat(parts[..k + 1]) == sofar + parts[k];
        thrown := ProcessRead(parts[k]);
        k := k + 1;
        if thrown {
          RestOfReads(json, parse, start, parts, k);
          return true;
        }
      }
      assert parts[..k] == parts;
      return false;
    }
  }

  /** After a throw the reads still to come make no difference. */
  lemma RestOfReads(json: string -> Option<ProxyEvent>, parse: string -> Option<string>, start: Decoding,
                    parts: seq<string>, k: nat)
    requires k <= |parts|
    requires ProcessLines(json, parse, start, CompleteLines(Concat(parts[..k]))).failed
    ensures ProcessLines(json, parse, start, CompleteLines(Concat(parts)))
            == ProcessLines(json, parse, start, CompleteLines(Concat(parts[..k])))
    decreases |parts| - k
  {
    if k < |parts| {
      var sofar := Concat(parts[..k]);
      assert parts[..k + 1][..k] == parts[..k];
      assert Concat(parts[..k + 1]) == sofar + parts[k];
      LinesOfConcat(sofar, parts[k]);
      var more := CompleteLines(Tail(sofar) + parts[k]);
      ProcessConcat(json, parse, start, CompleteLines(sofar), more);
      FailedStays(json, parse, ProcessLines(json, parse, start, CompleteLines(sofar)), more);
      RestOfReads(json, parse, start, parts, k + 1);
    } else {
      assert parts[..k] == parts;
    }
  }
}
