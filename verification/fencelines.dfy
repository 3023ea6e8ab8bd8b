/** Which lines are fence lines, said of their characters alone. */
module FenceLines {
  import opened Text
  import opened Fences

  /** `i` spaces, at most three, then `n` backticks or `n` tildes, at least three, and no dot barrier after them. */
  ghost predicate IsFenceLine(line: string, i: nat, n: nat) {
    && i <= 3 <= n && i + n <= |line|
    && (forall k :: 0 <= k < i ==> line[k] == ' ')
    && ((forall k :: i <= k < i + n ==> line[k] == '`') || (forall k :: i <= k < i + n ==> line[k] == '~'))
    && (forall k :: i + n <= k < |line| ==> line[k] !in {'\n', '\r', '\U{2028}', '\U{2029}'})
  }

  /** The run of `n` fence characters goes on no further. */
  predicate IsWholeRun(line: string, i: nat, n: nat)
    requires 0 < n && i + n <= |line|
  {
    i + n < |line| ==> line[i + n] != line[i]
  }

  /** Where the runs end is where the shape has them end. */
  lemma RunEndIs(line: string, c: char, from: nat, e: nat)
    requires from <= e <= |line| && (forall k :: from <= k < e ==> line[k] == c) && (e < |line| ==> line[e] != c)
    ensures RunEnd(line, c, from) == e
  {}

  /** A fence line matches, with the whole run as its marker. */
  lemma FenceLineMatches(line: string, i: nat, n: nat)
    requires IsFenceLine(line, i, n)
    ensures
      var m := MatchFenceLine(line);
      && m.Some? && m.value.indent == line[..i] && n <= |m.value.marker|
      && (IsWholeRun(line, i, n) ==> m.value.marker == line[i..i + n])
  {
    assert line[i] == '`' || line[i] == '~';
    RunEndIs(line, ' ', 0, i);
    var e := RunEnd(line, line[i], i);
    assert i + n <= e;
    if IsWholeRun(line, i, n) {
      RunEndIs(line, line[i], i, i + n);
    }
  }

  /** A line is a fence line exactly when it has this shape. */
  lemma FenceLineIff(line: string)
    ensures MatchFenceLine(line).Some? <==> exists i: nat, n: nat :: IsFenceLine(line, i, n)
  {
    var m := MatchFenceLine(line);
    if m.Some? {
      FenceMarkIff(line, m.value.indent, m.value.marker);
    }
    if i: nat, n: nat :| IsFenceLine(line, i, n) {
      FenceLineMatches(line, i, n);
    }
  }

  /** Its indent is the spaces, and its marker the whole run of fence characters after them. */
  lemma FenceMarkIff(line: string, indent: string, marker: string)
    ensures
      MatchFenceLine(line) == Some(Mark(indent, marker)) <==>
        && IsFenceLine(line, |indent|, |marker|) && IsWholeRun(line, |indent|, |marker|)
        && indent + marker <= line
  {
    var m := MatchFenceLine(line);
    var i, n := |indent|, |marker|;
    if m == Some(Mark(indent, marker)) {
      assert forall k :: i <= k < i + n ==> line[k] == marker[k - i] == marker[0];
      assert RunEnd(line, ' ', 0) == i;
      assert RunEnd(line, line[i], i) == i + n;
      assert indent + marker == line[..i + n];
    }
    if IsFenceLine(line, i, n) && IsWholeRun(line, i, n) && indent + marker <= line {
      FenceLineMatches(line, i, n);
      assert line[..i] == (indent + marker)[..i] == indent;
      assert line[i..i + n] == (indent + marker)[i..] == marker;
    }
  }

  // ----- The spans, line by line -----

  /** A fence line of the character `ch` with a run of at least `len`. */
  ghost predicate IsFenceLineOf(line: string, ch: char, len: nat) {
    exists i: nat, n: nat :: IsFenceLine(line, i, n) && line[i] == ch && len <= n
  }

  function LineAt(s: string, p: nat): string
    requires p <= |s|
  {
    s[p..LineEnd(s, p)]
  }

  /** In an open fence the automaton looks for a line that closes it, and for nothing else. */
  lemma StepInFence(st: Fence, line: string)
    requires st.Open?
    ensures StepLine(st, line) == if IsFenceLineOf(line, st.ch, st.len) then Closed else st
  {
    var m := MatchFenceLine(line);
    if m.Some? {
      var mark := m.value;
      FenceMarkIff(line, mark.indent, mark.marker);
      assert line[|mark.indent|] == (mark.indent + mark.marker)[|mark.indent|] == mark.marker[0];
    }
    if IsFenceLineOf(line, st.ch, st.len) {
      var i: nat, n: nat :| IsFenceLine(line, i, n) && line[i] == st.ch && st.len <= n;
      FenceLineMatches(line, i, n);
      assert m.value.marker[0] == line[i];
    }
  }

  /** A span is a fenced block: it opens at the start of a fence line, and of the lines after that just the last one
      closes it, or none if the text ends first. */
  ghost predicate IsBlock(s: string, f: FenceSpan) {
    && f.start < f.end <= |s| && IsLineStart(s, f.start) && LineAt(s, f.start) == f.openLine
    && IsFenceLine(f.openLine, |f.indent|, |f.marker|) && IsWholeRun(f.openLine, |f.indent|, |f.marker|)
    && f.indent + f.marker <= f.openLine
    && (forall p: nat :: f.start < p <= f.end && IsLineStart(s, p) && LineEnd(s, p) < f.end ==>
          !IsFenceLineOf(LineAt(s, p), f.marker[0], |f.marker|))
    && (f.end < |s| ==>
          exists p: nat :: f.start < p <= f.end && IsLineStart(s, p) && LineEnd(s, p) == f.end
                           && IsFenceLineOf(LineAt(s, p), f.marker[0], |f.marker|))
  }

  /** At the start of a line the automaton holds the fence and nothing of the line. */
  lemma AfterLine(s: string, p: nat)
    requires p <= |s| && IsLineStart(s, p)
    ensures At(s, p).line == "" && At(s, LineEnd(s, p)) == Scan(At(s, p).fence, LineAt(s, p))
  {
    AtWithinLine(s, p, LineEnd(s, p));
    assert "" + LineAt(s, p) == LineAt(s, p);
  }

  /** A line inside a span, and whether it closes the span. */
  lemma LineInSpan(s: string, f: FenceSpan, p: nat)
    requires SpanOk(s, f) && f.start < p <= f.end && IsLineStart(s, p)
    ensures f.start + |f.openLine| < p && LineEnd(s, p) <= f.end
    ensures
      Settle(At(s, LineEnd(s, p)))
      == if IsFenceLineOf(LineAt(s, p), f.marker[0], |f.marker|) then Closed else FenceOf(f)
  {
    var e := LineEnd(s, p);
    assert f.start + |f.openLine| < p;
    assert FencedAt(s, p, FenceOf(f));
    AfterLine(s, p);
    StepInFence(FenceOf(f), LineAt(s, p));
  }

  function LineStart(s: string, i: nat): (p: nat)
    requires i <= |s|
    ensures p <= i && IsLineStart(s, p) && forall k :: p <= k < i ==> s[k] != '\n'
  {
    if IsLineStart(s, i) then i else LineStart(s, i - 1)
  }

  lemma SpanIsBlock(s: string, f: FenceSpan)
    requires SpanOk(s, f)
    ensures IsBlock(s, f)
  {
    FenceMarkIff(f.openLine, f.indent, f.marker);
    forall p: nat | f.start < p <= f.end && IsLineStart(s, p) && LineEnd(s, p) < f.end
      ensures !IsFenceLineOf(LineAt(s, p), f.marker[0], |f.marker|)
    {
      LineInSpan(s, f, p);
      assert FencedAt(s, LineEnd(s, p) + 1, FenceOf(f));
    }
    if f.end < |s| {
      var p := LineStart(s, f.end);
      assert f.start < p;
      LineInSpan(s, f, p);
    }
  }

  /** The spans found are fenced blocks, and every fence line that starts in none of them starts one: this says which
      spans there are, for every text. */
  lemma SpansAreBlocks(s: string)
    ensures
      var spans := Spans(s);
      && Sorted(spans)
      && (forall k {:trigger spans[k]} :: 0 <= k < |spans| ==> IsBlock(s, spans[k]))
      && (forall p: nat :: p <= |s| && IsLineStart(s, p) && Outside(spans, p)
                           && (exists i: nat, n: nat :: IsFenceLine(LineAt(s, p), i, n)) ==>
            exists k :: 0 <= k < |spans| && spans[k].start == p)
  {
    var spans := Spans(s);
    ParsedSpansOk(s);
    forall k | 0 <= k < |spans|
      ensures IsBlock(s, spans[k])
    {
      assert SpanOk(s, spans[k]);
      SpanIsBlock(s, spans[k]);
    }
    forall p: nat | p <= |s| && IsLineStart(s, p) && Outside(spans, p)
                    && exists i: nat, n: nat :: IsFenceLine(LineAt(s, p), i, n)
      ensures exists k :: 0 <= k < |spans| && spans[k].start == p
    {
      FenceLineStartsSpan(s, spans, p);
    }
  }

  /** Outside the spans a fence line starts where no fence is open. */
  lemma ClosedBefore(s: string, p: nat)
    requires p < |s| && IsLineStart(s, p) && Plain(s, p) && s[p] != '\n'
    ensures At(s, p) == START
  {
    AfterLine(s, p);
  }

  /** The second character of a line that opens a fence is not ordinary text. */
  lemma NotPlainAfter(s: string, p: nat)
    requires p < |s| && p + 1 < LineEnd(s, p) && At(s, p) == START && MatchFenceLine(LineAt(s, p)).Some?
    ensures !Plain(s, p + 1)
  {
    AtWithinLine(s, p, p + 1);
    assert At(s, p + 1) == Scan(Closed, [s[p]]) by {
      assert "" + s[p..p + 1] == [s[p]];
    }
    RunEndOfLine(s, p);
    assert [s[p]] + s[p + 1..LineEnd(s, p)] == LineAt(s, p);
  }

  lemma RunEndOfLine(s: string, p: nat)
    requires p < |s| && p < LineEnd(s, p)
    ensures LineEnd(s, p + 1) == LineEnd(s, p)
  {}

  lemma FenceLineStartsSpan(s: string, spans: seq<FenceSpan>, p: nat)
    requires SpansOk(s, spans) && p <= |s| && IsLineStart(s, p) && Outside(spans, p)
    requires exists i: nat, n: nat :: IsFenceLine(LineAt(s, p), i, n)
    ensures exists k :: 0 <= k < |spans| && spans[k].start == p
  {
    FenceLineIff(LineAt(s, p));
    ClosedBefore(s, p);
    NotPlainAfter(s, p);
    var k :| 0 <= k < |spans| && Within(spans[k], p + 1);
    assert !Within(spans[k], p);
  }
}
