/** Fenced code blocks: the line grammar, the parser that finds their spans, and the search over the spans. */
module Fences {
  import opened Text

  // ----- The line grammar -----

  datatype Mark = Mark(indent: string, marker: string)

  predicate IsFenceChar(c: char) { c == '`' || c == '~' }

  predicate HasDotBarrier(s: string, from: nat) {
    exists k :: from <= k < |s| && IsDotBarrier(s[k])
  }

  /** At most three spaces, then three or more of one fence character, then anything the dot matches. */
  function MatchFenceLine(line: string): (r: Option<Mark>)
    ensures r.Some? ==>
      var m := r.value;
      && |m.indent| <= 3 <= |m.marker|
      && |m.indent| + |m.marker| <= |line|
      && m.indent == line[..|m.indent|]
      && m.marker == line[|m.indent|..|m.indent| + |m.marker|]
      && IsFenceChar(m.marker[0])
      && (forall k :: 0 <= k < |m.indent| ==> line[k] == ' ')
      && (forall k :: 0 <= k < |m.marker| ==> m.marker[k] == m.marker[0])
  {
    var n := RunEnd(line, ' ', 0);
    if n > 3 || n == |line| || !IsFenceChar(line[n]) then None
    else
      var e := RunEnd(line, line[n], n);
      if e - n < 3 || HasDotBarrier(line, e) then None else Some(Mark(line[..n], line[n..e]))
  }

  // ----- A reference automaton: the fence state after reading any text, one character at a time -----

  datatype Fence = Closed | Open(ch: char, len: nat)

  /** The effect of one whole line. */
  function StepLine(st: Fence, line: string): Fence {
    match MatchFenceLine(line)
    case None => st
    case Some(m) =>
      if st.Closed? then Open(m.marker[0], |m.marker|)
      else if st.ch == m.marker[0] && |m.marker| >= st.len then Closed
      else st
  }

  /** The fence state at the start of the current line, and what has been read of that line. */
  datatype Scan = Scan(fence: Fence, line: string)

  function StepChar(sc: Scan, c: char): Scan {
    if c == '\n' then Scan(StepLine(sc.fence, sc.line), "") else Scan(sc.fence, sc.line + [c])
  }

  function Settle(sc: Scan): Fence { StepLine(sc.fence, sc.line) }

  function Run(sc: Scan, s: string): Scan
    decreases |s|
  {
    if s == "" then sc else Run(StepChar(sc, s[0]), s[1..])
  }

  const START := Scan(Closed, "")

  /** The fence state that reading `s` on its own leaves behind. */
  function FenceAfter(s: string): Fence { Settle(Run(START, s)) }

  /** The scan reached just before position `i` of a text. */
  function At(s: string, i: nat): Scan
    requires i <= |s|
  {
    if i == 0 then START else StepChar(At(s, i - 1), s[i - 1])
  }

  lemma {:induction false} RunConcat(sc: Scan, s: string, t: string)
    ensures Run(sc, s + t) == Run(Run(sc, s), t)
    decreases |s|
  {
    if s == "" {
      assert s + t == t;
    } else {
      assert (s + t)[1..] == s[1..] + t;
      RunConcat(StepChar(sc, s[0]), s[1..], t);
    }
  }

  lemma {:induction false} RunSlice(s: string, i: nat, j: nat)
    requires i <= j <= |s|
    ensures Run(At(s, i), s[i..j]) == At(s, j)
    decreases j - i
  {
    if i < j {
      assert s[i..j][1..] == s[i + 1..j];
      RunSlice(s, i + 1, j);
    }
  }

  lemma FenceAfterIsAt(s: string)
    ensures FenceAfter(s) == Settle(At(s, |s|))
  {
    RunSlice(s, 0, |s|);
    assert s[0..|s|] == s;
  }

  lemma {:induction false} AtWithinLine(s: string, i: nat, j: nat)
    requires i <= j <= |s|
    requires forall k :: i <= k < j ==> s[k] != '\n'
    ensures At(s, j) == Scan(At(s, i).fence, At(s, i).line + s[i..j])
    decreases j
  {
    if i < j {
      AtWithinLine(s, i, j - 1);
      assert s[i..j] == s[i..j - 1] + [s[j - 1]];
    }
  }

  // ----- The parser -----

  datatype FenceSpan = FenceSpan(start: nat, end: nat, openLine: string, marker: string, indent: string)

  datatype OpenFence = OpenFence(start: nat, openLine: string, marker: string, indent: string)

  function Finish(o: OpenFence, end: nat): FenceSpan {
    FenceSpan(o.start, end, o.openLine, o.marker, o.indent)
  }

  /** What one line does to the parser's open fence. */
  function OpenAfterLine(open: Option<OpenFence>, offset: nat, line: string): (r: Option<OpenFence>)
    requires open.Some? ==> open.value.marker != ""
    ensures r.Some? ==> r.value.marker != ""
  {
    match MatchFenceLine(line)
    case None => open
    case Some(m) =>
      if open.None? then Some(OpenFence(offset, line, m.marker, m.indent))
      else if open.value.marker[0] == m.marker[0] && |m.marker| >= |open.value.marker| then None
      else open
  }

  /** The spans found after the line that starts at `offset`, whose effect on the open fence is `after`. */
  function FoundAfterLine(open: Option<OpenFence>, after: Option<OpenFence>, e: nat, found: seq<FenceSpan>)
    : seq<FenceSpan>
  {
    if open.Some? && after.None? then found + [Finish(open.value, e)] else found
  }

  /** The spans found once the whole text is read, given those found before a line start and the fence open there. */
  function SpansFrom(s: string, offset: nat, open: Option<OpenFence>, found: seq<FenceSpan>): seq<FenceSpan>
    requires offset <= |s|
    requires open.Some? ==> open.value.marker != ""
    decreases |s| - offset
  {
    var e := LineEnd(s, offset);
    var after := OpenAfterLine(open, offset, s[offset..e]);
    var found' := FoundAfterLine(open, after, e, found);
    if e < |s| then SpansFrom(s, e + 1, after, found')
    else if after.Some? then found' + [Finish(after.value, |s|)]
    else found'
  }

  lemma SpansStep(s: string, offset: nat, open: Option<OpenFence>, found: seq<FenceSpan>)
    requires offset <= |s|
    requires open.Some? ==> open.value.marker != ""
    ensures
      var e := LineEnd(s, offset);
      var after := OpenAfterLine(open, offset, s[offset..e]);
      var found' := FoundAfterLine(open, after, e, found);
      SpansFrom(s, offset, open, found) ==
        if e < |s| then SpansFrom(s, e + 1, after, found')
        else if after.Some? then found' + [Finish(after.value, |s|)]
        else found'
  {}

  function Spans(s: string): seq<FenceSpan> { SpansFrom(s, 0, None, []) }

  /** The fence the parser still holds open when it runs out of text. */
  function OpenAtEnd(s: string, offset: nat, open: Option<OpenFence>): (r: Option<OpenFence>)
    requires offset <= |s|
    requires open.Some? ==> open.value.marker != ""
    ensures r.Some? ==> r.value.marker != ""
    decreases |s| - offset
  {
    var e := LineEnd(s, offset);
    var after := OpenAfterLine(open, offset, s[offset..e]);
    if e < |s| then OpenAtEnd(s, e + 1, after) else after
  }

  /** Parsing the lines from `offset` on, and then the end of the text, will give `all`. */
  ghost predicate Parsing(s: string, offset: nat, open: Option<OpenFence>, found: seq<FenceSpan>, all: seq<FenceSpan>) {
    offset <= |s| && (open.Some? ==> open.value.marker != "") && SpansFrom(s, offset, open, found) == all
  }

  ghost predicate Parsed(s: string, open: Option<OpenFence>, found: seq<FenceSpan>, all: seq<FenceSpan>) {
    all == if open.Some? then found + [Finish(open.value, |s|)] else found
  }

  lemma LineParsed(s: string, offset: nat, open: Option<OpenFence>, found: seq<FenceSpan>, e: nat, line: string,
                   after: Option<OpenFence>, found': seq<FenceSpan>, all: seq<FenceSpan>)
    requires Parsing(s, offset, open, found, all) && e == LineEnd(s, offset) && line == s[offset..e]
    requires after == OpenAfterLine(open, offset, line) && found' == FoundAfterLine(open, after, e, found)
    ensures if e < |s| then Parsing(s, e + 1, after, found', all) else Parsed(s, after, found', all)
  {
    SpansStep(s, offset, open, found);
  }

  method ParseFenceSpans(buffer: string) returns (spans: seq<FenceSpan>)
    ensures spans == Spans(buffer)
  {
    spans := [];
    var open: Option<OpenFence> := None;
    var offset := 0;
    ghost var all := Spans(buffer);
    while offset <= |buffer|
      invariant 0 <= offset <= |buffer|
      invariant open.Some? ==> open.value.marker != ""
      invariant Parsing(buffer, offset, open, spans, all)
      decreases |buffer| - offset
    {
      var nextNewline := IndexOf(buffer, '\n', offset);
      var lineEnd := if nextNewline == -1 then |buffer| else nextNewline;
      var line := buffer[offset..lineEnd];
      var after := OpenAfterLine(open, offset, line);
      ghost var found := FoundAfterLine(open, after, lineEnd, spans);
      LineParsed(buffer, offset, open, spans, lineEnd, line, after, found, all);
      if open.Some? && after.None? {
        spans := spans + [Finish(open.value, lineEnd)];
      }
      assert spans == found;
      open := after;
      if nextNewline == -1 {
        break;
      }
      offset := nextNewline + 1;
    }
    assert Parsed(buffer, open, spans, all);
    if open.Some? {
      spans := spans + [Finish(open.value, |buffer|)];
    }
  }

  // ----- What the spans mean -----

  function FenceOf(f: FenceSpan): Fence
    requires f.marker != ""
  {
    Open(f.marker[0], |f.marker|)
  }

  function OpenState(open: Option<OpenFence>): Fence
    requires open.Some? ==> open.value.marker != ""
  {
    if open.None? then Closed else Open(open.value.marker[0], |open.value.marker|)
  }

  /** The line that holds position `i` starts in fence state `st`. */
  ghost predicate FencedAt(s: string, i: nat, st: Fence)
    requires i <= |s|
  {
    At(s, i).fence == st
  }

  /** The opening line stands in the text, alone on its line, where no fence was open. */
  ghost predicate OpensAt(s: string, start: nat, openLine: string, marker: string, indent: string) {
    && start + |openLine| <= |s|
    && IsLineStart(s, start)
    && s[start..start + |openLine|] == openLine
    && LineEnd(s, start) == start + |openLine|
    && MatchFenceLine(openLine) == Some(Mark(indent, marker))
    && At(s, start) == START
  }

  /** A span runs from its opening line to the end of the line that closes it, or to the end of the text. */
  ghost predicate SpanOk(s: string, f: FenceSpan) {
    && OpensAt(s, f.start, f.openLine, f.marker, f.indent)
    && f.start + |f.openLine| <= f.end <= |s|
    && (f.end < |s| ==> s[f.end] == '\n' && Settle(At(s, f.end)) == Closed && f.start + |f.openLine| < f.end)
    && (forall i :: f.start + |f.openLine| < i <= f.end ==> FencedAt(s, i, FenceOf(f)))
  }

  predicate Before(f: FenceSpan, g: FenceSpan) { f.end < g.start }

  ghost predicate Sorted(spans: seq<FenceSpan>) {
    && (forall k :: 0 <= k < |spans| ==> spans[k].start < spans[k].end)
    && (forall j, k {:trigger Before(spans[j], spans[k])} :: 0 <= j < k < |spans| ==> Before(spans[j], spans[k]))
  }

  predicate Within(f: FenceSpan, i: int) { f.start < i < f.end }

  function LineOf(s: string, i: nat): string
    requires i <= |s|
  {
    At(s, i).line + s[i..LineEnd(s, i)]
  }

  /** The fence state after the whole line that holds position `i`. */
  function NextFence(s: string, i: nat): Fence
    requires i <= |s|
  {
    StepLine(At(s, i).fence, LineOf(s, i))
  }

  /** Position `i` is ordinary text: it starts a line, ends a closing line, or sits in a line that is no fence line. */
  ghost predicate Plain(s: string, i: nat)
    requires i < |s|
  {
    || At(s, i) == START
    || (s[i] == '\n' && Settle(At(s, i)) == Closed)
    || (At(s, i).fence == Closed && NextFence(s, i) == Closed)
  }

  ghost predicate ParserAt(s: string, offset: nat, open: Option<OpenFence>) {
    && offset <= |s|
    && (open.Some? ==> open.value.marker != "")
    && At(s, offset) == Scan(OpenState(open), "")
    && (open.Some? ==>
          var o := open.value;
          && OpensAt(s, o.start, o.openLine, o.marker, o.indent)
          && o.start + |o.openLine| < offset
          && forall i :: o.start + |o.openLine| < i <= offset ==> FencedAt(s, i, OpenState(open)))
  }

  /** No span of `spans` strictly contains `i`. */
  ghost predicate Outside(spans: seq<FenceSpan>, i: int) {
    forall k :: 0 <= k < |spans| ==> !Within(spans[k], i)
  }

  /** The spans are sorted and disjoint, each is a fenced block of the text, and they leave only ordinary text out. */
  ghost predicate SpansOk(s: string, spans: seq<FenceSpan>) {
    && Sorted(spans)
    && (forall k {:trigger SpanOk(s, spans[k])} :: 0 <= k < |spans| ==> SpanOk(s, spans[k]))
    && (forall i :: 0 <= i < |s| && Outside(spans, i) ==> Plain(s, i))
  }

  /** The same for the spans found so far, all of which end before the fence that is open, or before the line. */
  ghost predicate FoundOk(s: string, offset: nat, open: Option<OpenFence>, found: seq<FenceSpan>)
    requires offset <= |s|
  {
    var bound := if open.Some? then open.value.start else offset;
    && Sorted(found)
    && (forall k :: 0 <= k < |found| ==> found[k].end < bound)
    && (forall k {:trigger SpanOk(s, found[k])} :: 0 <= k < |found| ==> SpanOk(s, found[k]))
    && (forall i :: 0 <= i < |s| && i < offset && i <= bound && Outside(found, i) ==> Plain(s, i))
  }

  /** Within the line at `offset` the automaton holds the parser's fence and what it has read of the line. */
  lemma ScanInLine(s: string, offset: nat, open: Option<OpenFence>, i: nat)
    requires ParserAt(s, offset, open) && offset <= i <= LineEnd(s, offset)
    ensures At(s, i) == Scan(OpenState(open), s[offset..i])
  {
    AtWithinLine(s, offset, i);
    assert "" + s[offset..i] == s[offset..i];
  }

  lemma InLine(s: string, offset: nat, open: Option<OpenFence>, i: nat)
    requires ParserAt(s, offset, open) && offset <= i <= LineEnd(s, offset)
    ensures At(s, i) == Scan(OpenState(open), s[offset..i])
    ensures LineOf(s, i) == s[offset..LineEnd(s, offset)]
  {
    ScanInLine(s, offset, open, i);
    SliceConcat(s, offset, i, LineEnd(s, offset));
    assert LineEnd(s, i) == LineEnd(s, offset);
  }

  lemma SliceConcat(s: string, i: nat, j: nat, k: nat)
    requires i <= j <= k <= |s|
    ensures s[i..j] + s[j..k] == s[i..k]
  {}

  /** Reading one line: the parser and the automaton stay in step. */
  lemma LineStep(s: string, offset: nat, open: Option<OpenFence>)
    requires ParserAt(s, offset, open)
    ensures
      var e := LineEnd(s, offset);
      && At(s, e) == Scan(OpenState(open), s[offset..e])
      && Settle(At(s, e)) == OpenState(OpenAfterLine(open, offset, s[offset..e]))
  {
    ScanInLine(s, offset, open, LineEnd(s, offset));
  }

  lemma NewFence(s: string, offset: nat)
    requires offset <= |s| && At(s, offset) == START
    ensures
      var e := LineEnd(s, offset);
      var after := OpenAfterLine(None, offset, s[offset..e]);
      after.Some? ==>
        var o := after.value;
        OpensAt(s, o.start, o.openLine, o.marker, o.indent) && o.start == offset && o.start + |o.openLine| == e
  {
    assert IsLineStart(s, offset);
  }

  lemma ParserAdvances(s: string, offset: nat, open: Option<OpenFence>)
    requires ParserAt(s, offset, open)
    requires LineEnd(s, offset) < |s|
    ensures
      var e := LineEnd(s, offset);
      ParserAt(s, e + 1, OpenAfterLine(open, offset, s[offset..e]))
  {
    LineStep(s, offset, open);
    var e := LineEnd(s, offset);
    var after := OpenAfterLine(open, offset, s[offset..e]);
    assert At(s, e + 1) == Scan(OpenState(after), "");
    if after.Some? {
      var o := after.value;
      if open.None? {
        NewFence(s, offset);
      }
      FenceSeen(s, offset, open, o);
    }
  }

  lemma FenceSeen(s: string, offset: nat, open: Option<OpenFence>, o: OpenFence)
    requires ParserAt(s, offset, open) && LineEnd(s, offset) < |s|
    requires OpenAfterLine(open, offset, s[offset..LineEnd(s, offset)]) == Some(o) && o.marker != ""
    requires if open.Some? then o == open.value else o.start + |o.openLine| == LineEnd(s, offset)
    ensures forall i :: o.start + |o.openLine| < i <= LineEnd(s, offset) + 1 ==> FencedAt(s, i, OpenState(Some(o)))
  {
    forall i | o.start + |o.openLine| < i <= LineEnd(s, offset) + 1
      ensures FencedAt(s, i, OpenState(Some(o)))
    {
      FenceSeenAt(s, offset, open, o, i);
    }
  }

  lemma FenceSeenAt(s: string, offset: nat, open: Option<OpenFence>, o: OpenFence, i: nat)
    requires ParserAt(s, offset, open) && LineEnd(s, offset) < |s|
    requires OpenAfterLine(open, offset, s[offset..LineEnd(s, offset)]) == Some(o) && o.marker != ""
    requires if open.Some? then o == open.value else o.start + |o.openLine| == LineEnd(s, offset)
    requires o.start + |o.openLine| < i <= LineEnd(s, offset) + 1
    ensures FencedAt(s, i, OpenState(Some(o)))
  {
    if i == LineEnd(s, offset) + 1 {
      LineStep(s, offset, open);
    } else if i > offset {
      ScanInLine(s, offset, open, i);
    }
  }

  lemma OutsidePrefix(found: seq<FenceSpan>, f: FenceSpan, i: int)
    ensures Outside(found + [f], i) <==> Outside(found, i) && !Within(f, i)
  {
    var all := found + [f];
    if Outside(all, i) {
      assert all[|found|] == f;
      forall k | 0 <= k < |found| ensures !Within(found[k], i) {
        assert all[k] == found[k];
      }
    }
  }

  lemma ClosedSpan(s: string, offset: nat, o: OpenFence)
    requires ParserAt(s, offset, Some(o))
    requires OpenAfterLine(Some(o), offset, s[offset..LineEnd(s, offset)]).None?
    ensures var f := Finish(o, LineEnd(s, offset)); SpanOk(s, f) && f.start < f.end
  {
    LineStep(s, offset, Some(o));
    forall i | o.start + |o.openLine| < i <= LineEnd(s, offset)
      ensures FencedAt(s, i, OpenState(Some(o)))
    {
      if i > offset {
        InLine(s, offset, Some(o), i);
      }
    }
  }

  /** One more span after all the others. */
  lemma AppendSpan(s: string, found: seq<FenceSpan>, f: FenceSpan)
    requires Sorted(found) && SpanOk(s, f) && f.start < f.end
    requires forall k {:trigger SpanOk(s, found[k])} :: 0 <= k < |found| ==> SpanOk(s, found[k])
    requires forall k :: 0 <= k < |found| ==> found[k].end < f.start
    ensures Sorted(found + [f])
    ensures forall k {:trigger SpanOk(s, (found + [f])[k])} :: 0 <= k < |found + [f]| ==> SpanOk(s, (found + [f])[k])
  {
    var all := found + [f];
    forall j, k | 0 <= j < k < |all|
      ensures Before(all[j], all[k])
    {
      assert k < |found| ==> Before(found[j], found[k]);
    }
    forall k | 0 <= k < |all|
      ensures SpanOk(s, all[k])
    {
      assert k < |found| ==> SpanOk(s, found[k]);
    }
  }

  lemma PlainBeforeClosed(s: string, offset: nat, o: OpenFence, found: seq<FenceSpan>, i: nat)
    requires ParserAt(s, offset, Some(o)) && FoundOk(s, offset, Some(o), found)
    requires OpenAfterLine(Some(o), offset, s[offset..LineEnd(s, offset)]).None?
    requires i < |s| && i <= LineEnd(s, offset)
    requires Outside(found, i) && !Within(Finish(o, LineEnd(s, offset)), i)
    ensures Plain(s, i)
  {
    if i > o.start {
      LineStep(s, offset, Some(o));
    }
  }

  /** A line that closes the open fence completes one more correct span. */
  lemma ClosingLine(s: string, offset: nat, o: OpenFence, found: seq<FenceSpan>)
    requires ParserAt(s, offset, Some(o)) && FoundOk(s, offset, Some(o), found)
    requires OpenAfterLine(Some(o), offset, s[offset..LineEnd(s, offset)]).None?
    ensures
      var e := LineEnd(s, offset);
      var found' := found + [Finish(o, e)];
      if e < |s| then FoundOk(s, e + 1, None, found') else SpansOk(s, found')
  {
    var e := LineEnd(s, offset);
    var f := Finish(o, e);
    LineStep(s, offset, Some(o));
    ClosedSpan(s, offset, o);
    AppendSpan(s, found, f);
    forall i | 0 <= i < |s| && i <= e && Outside(found + [f], i)
      ensures Plain(s, i)
    {
      OutsidePrefix(found, f, i);
      PlainBeforeClosed(s, offset, o, found, i);
    }
  }

  /** Any other line, unless it is the last, leaves the spans found so far correct. */
  lemma OtherLine(s: string, offset: nat, open: Option<OpenFence>, found: seq<FenceSpan>)
    requires ParserAt(s, offset, open) && FoundOk(s, offset, open, found)
    requires LineEnd(s, offset) < |s|
    requires open.Some? ==> OpenAfterLine(open, offset, s[offset..LineEnd(s, offset)]).Some?
    ensures
      var e := LineEnd(s, offset);
      FoundOk(s, e + 1, OpenAfterLine(open, offset, s[offset..e]), found)
  {
    var e := LineEnd(s, offset);
    var after := OpenAfterLine(open, offset, s[offset..e]);
    if open.None? {
      forall i | 0 <= i < |s| && i <= e && Outside(found, i) && (i <= offset || after.None?)
        ensures Plain(s, i)
      {
        if i > offset {
          InLine(s, offset, open, i);
        } else {
          assert i == offset ==> At(s, i) == START;
        }
      }
    }
  }

  /** A fence still open at the end of the text gives the last span. */
  lemma UnclosedFence(s: string, offset: nat, o: OpenFence, open: Option<OpenFence>, found: seq<FenceSpan>)
    requires offset <= |s| && FoundOk(s, offset, open, found)
    requires o.marker != "" && OpensAt(s, o.start, o.openLine, o.marker, o.indent)
    requires if open.Some? then o == open.value && o.start < offset else o.start == offset
    requires forall i :: o.start + |o.openLine| < i <= |s| ==> FencedAt(s, i, OpenState(Some(o)))
    ensures SpansOk(s, found + [Finish(o, |s|)])
  {
    var f := Finish(o, |s|);
    assert FenceOf(f) == OpenState(Some(o));
    assert SpanOk(s, f);
    AppendSpan(s, found, f);
    forall i | 0 <= i < |s| && Outside(found + [f], i)
      ensures Plain(s, i)
    {
      OutsidePrefix(found, f, i);
      assert i <= o.start;
      assert i == o.start ==> At(s, i) == START;
    }
  }

  /** The last line completes the span of a fence that is still open. */
  lemma LastLine(s: string, offset: nat, open: Option<OpenFence>, found: seq<FenceSpan>)
    requires ParserAt(s, offset, open) && FoundOk(s, offset, open, found)
    requires LineEnd(s, offset) == |s|
    requires open.Some? ==> OpenAfterLine(open, offset, s[offset..]).Some?
    ensures
      var after := OpenAfterLine(open, offset, s[offset..]);
      && (after.Some? ==> SpansOk(s, found + [Finish(after.value, |s|)]))
      && (after.None? ==> SpansOk(s, found))
  {
    var after := OpenAfterLine(open, offset, s[offset..]);
    assert s[offset..|s|] == s[offset..];
    LineStep(s, offset, open);
    if after.Some? {
      if open.None? {
        NewFence(s, offset);
      }
      var o := after.value;
      forall i | o.start + |o.openLine| < i <= |s|
        ensures FencedAt(s, i, OpenState(after))
      {
        if i > offset {
          InLine(s, offset, open, i);
        }
      }
      UnclosedFence(s, offset, after.value, open, found);
    } else {
      forall i | 0 <= i < |s| && Outside(found, i)
        ensures Plain(s, i)
      {
        if i > offset {
          InLine(s, offset, open, i);
        } else {
          assert i == offset ==> At(s, i) == START;
        }
      }
    }
  }

  lemma FoundAdvances(s: string, offset: nat, open: Option<OpenFence>, found: seq<FenceSpan>)
    requires ParserAt(s, offset, open) && FoundOk(s, offset, open, found)
    requires LineEnd(s, offset) < |s|
    ensures
      var e := LineEnd(s, offset);
      var after := OpenAfterLine(open, offset, s[offset..e]);
      FoundOk(s, e + 1, after, FoundAfterLine(open, after, e, found))
  {
    if open.Some? && OpenAfterLine(open, offset, s[offset..LineEnd(s, offset)]).None? {
      ClosingLine(s, offset, open.value, found);
    } else {
      OtherLine(s, offset, open, found);
    }
  }

  lemma FoundAtEnd(s: string, offset: nat, open: Option<OpenFence>, found: seq<FenceSpan>)
    requires ParserAt(s, offset, open) && FoundOk(s, offset, open, found)
    requires LineEnd(s, offset) == |s|
    ensures SpansOk(s, SpansFrom(s, offset, open, found))
  {
    var r := SpansFrom(s, offset, open, found);
    var after := OpenAfterLine(open, offset, s[offset..|s|]);
    assert s[offset..|s|] == s[offset..];
    if open.Some? && after.None? {
      ClosingLine(s, offset, open.value, found);
      assert r == found + [Finish(open.value, |s|)];
    } else {
      LastLine(s, offset, open, found);
      assert r == if after.Some? then found + [Finish(after.value, |s|)] else found;
    }
  }

  /** The parser at the start of a line. */
  datatype Parse = Parse(offset: nat, open: Option<OpenFence>, found: seq<FenceSpan>)

  predicate IsParse(s: string, p: Parse) {
    p.offset <= |s| && (p.open.Some? ==> p.open.value.marker != "")
  }

  function NextParse(s: string, p: Parse): Parse
    requires IsParse(s, p) && LineEnd(s, p.offset) < |s|
  {
    var e := LineEnd(s, p.offset);
    var after := OpenAfterLine(p.open, p.offset, s[p.offset..e]);
    Parse(e + 1, after, FoundAfterLine(p.open, after, e, p.found))
  }

  ghost predicate Advances(s: string, ok: Parse -> bool, p: Parse) {
    ok(p) ==> IsParse(s, p) && (LineEnd(s, p.offset) < |s| ==> ok(NextParse(s, p)))
  }

  ghost predicate Arrives(s: string, ok: Parse -> bool, good: seq<FenceSpan> -> bool, p: Parse) {
    ok(p) && IsParse(s, p) && LineEnd(s, p.offset) == |s| ==> good(SpansFrom(s, p.offset, p.open, p.found))
  }

  /** Induction over the lines that are left to parse. */
  lemma {:induction false} ParseInduction(s: string, p: Parse, ok: Parse -> bool, good: seq<FenceSpan> -> bool)
    requires ok(p) && IsParse(s, p)
    requires forall q {:trigger Advances(s, ok, q)} :: Advances(s, ok, q)
    requires forall q {:trigger Arrives(s, ok, good, q)} :: Arrives(s, ok, good, q)
    ensures good(SpansFrom(s, p.offset, p.open, p.found))
    decreases |s| - p.offset
  {
    assert Advances(s, ok, p);
    if LineEnd(s, p.offset) < |s| {
      var next := NextParse(s, p);
      assert Advances(s, ok, next);
      ParseInduction(s, next, ok, good);
      SpansStep(s, p.offset, p.open, p.found);
    } else {
      assert Arrives(s, ok, good, p);
    }
  }

  ghost predicate ParseOk(s: string, p: Parse) {
    p.offset <= |s| && ParserAt(s, p.offset, p.open) && FoundOk(s, p.offset, p.open, p.found)
  }

  lemma ParseAdvances(s: string, p: Parse)
    requires ParseOk(s, p)
    ensures IsParse(s, p) && (LineEnd(s, p.offset) < |s| ==> ParseOk(s, NextParse(s, p)))
  {
    if LineEnd(s, p.offset) < |s| {
      FoundAdvances(s, p.offset, p.open, p.found);
      ParserAdvances(s, p.offset, p.open);
    }
  }

  /** The parser's spans are exactly the fenced blocks that the automaton sees. */
  lemma ParsedSpansOk(s: string)
    ensures SpansOk(s, Spans(s))
  {
    var ok := (p: Parse) => ParseOk(s, p);
    var good := (spans: seq<FenceSpan>) => SpansOk(s, spans);
    forall p: Parse
      ensures Advances(s, ok, p)
    {
      if ok(p) {
        ParseAdvances(s, p);
      }
    }
    forall p: Parse
      ensures Arrives(s, ok, good, p)
    {
      if ok(p) && IsParse(s, p) && LineEnd(s, p.offset) == |s| {
        FoundAtEnd(s, p.offset, p.open, p.found);
      }
    }
    ParseInduction(s, Parse(0, None, []), ok, good);
  }

  lemma OpenAtEndStep(s: string, offset: nat, open: Option<OpenFence>)
    requires offset <= |s|
    requires open.Some? ==> open.value.marker != ""
    ensures
      var e := LineEnd(s, offset);
      var after := OpenAfterLine(open, offset, s[offset..e]);
      OpenAtEnd(s, offset, open) == if e < |s| then OpenAtEnd(s, e + 1, after) else after
  {}

  /** The parser runs out of text inside a fence exactly when the automaton does. */
  lemma {:induction false} OpenAtEndIs(s: string, offset: nat, open: Option<OpenFence>)
    requires ParserAt(s, offset, open)
    ensures OpenState(OpenAtEnd(s, offset, open)) == Settle(At(s, |s|))
    decreases |s| - offset
  {
    var e := LineEnd(s, offset);
    var after := OpenAfterLine(open, offset, s[offset..e]);
    if e < |s| {
      ParserAdvances(s, offset, open);
      OpenAtEndIs(s, e + 1, after);
      OpenAtEndStep(s, offset, open);
    } else {
      LineStep(s, offset, open);
      OpenAtEndStep(s, offset, open);
    }
  }

  // ----- The search over the spans -----

  /** The first span from `k` on that strictly contains `i`: a plain scan. */
  function SpanFrom(spans: seq<FenceSpan>, i: int, k: nat): (r: Option<FenceSpan>)
    requires k <= |spans|
    ensures r.None? <==> forall j :: k <= j < |spans| ==> !Within(spans[j], i)
    ensures r.Some? ==> r.value in spans && Within(r.value, i)
    decreases |spans| - k
  {
    if k == |spans| then None
    else if Within(spans[k], i) then Some(spans[k])
    else SpanFrom(spans, i, k + 1)
  }

  function SpanAt(spans: seq<FenceSpan>, i: int): (r: Option<FenceSpan>)
    ensures r.None? <==> Outside(spans, i)
    ensures r.Some? ==> r.value in spans && Within(r.value, i)
  {
    SpanFrom(spans, i, 0)
  }

  lemma SpanAtIs(spans: seq<FenceSpan>, i: int, k: nat)
    requires Sorted(spans) && k < |spans| && Within(spans[k], i)
    ensures SpanAt(spans, i) == Some(spans[k])
  {
    var r := SpanAt(spans, i);
    var j :| 0 <= j < |spans| && spans[j] == r.value;
    assert Before(spans[j], spans[k]) || Before(spans[k], spans[j]) || j == k;
  }

  /** The span found at a position is a fenced block of the text. */
  lemma SpanFound(s: string, spans: seq<FenceSpan>, i: int)
    requires SpansOk(s, spans) && SpanAt(spans, i).Some?
    ensures SpanOk(s, SpanAt(spans, i).value)
  {
    var k :| 0 <= k < |spans| && spans[k] == SpanAt(spans, i).value;
    assert SpanOk(s, spans[k]);
  }

  method FindFenceSpanAt(spans: seq<FenceSpan>, index: int) returns (r: Option<FenceSpan>)
    requires Sorted(spans)
    ensures r == SpanAt(spans, index)
  {
    var low := 0;
    var high := |spans| - 1;
    while low <= high
      invariant 0 <= low <= high + 1 <= |spans|
      invariant forall k :: 0 <= k < low ==> spans[k].end <= index
      invariant forall k :: high < k < |spans| ==> index <= spans[k].start
    {
      var mid := (low + high) / 2;
      var span := spans[mid];
      assert forall k :: 0 <= k < mid ==> Before(spans[k], span);
      assert forall k :: mid < k < |spans| ==> Before(span, spans[k]);
      if index <= span.start {
        high := mid - 1;
        continue;
      }
      if index >= span.end {
        low := mid + 1;
        continue;
      }
      SpanAtIs(spans, index, mid);
      return Some(span);
    }
    assert Outside(spans, index);
    return None;
  }
}
