/** Fence balance: on tame texts every chunk is a well-formed Markdown text of its own. */
module FenceBalance {
  import opened Text
  import opened Fences
  import opened Tidy
  import opened Chunker
  import opened ChunkProperties

  // ----- Tame texts -----

  ghost predicate NoOpenParens(s: string, spans: seq<FenceSpan>) {
    forall i {:trigger SpanAt(spans, i)} :: 0 <= i < |s| && SpanAt(spans, i).None? ==> s[i] != '('
  }

  /** The opening line has at most `most` characters, and so has the closing line if there is one. */
  predicate FenceFits(s: string, f: FenceSpan, most: nat) {
    && f.end <= |s|
    && |f.openLine| <= most
    && (StateAt(s, f.end) == Closed ==> f.end - (LastBelow(s, '\n', f.end) + 1) <= most)
  }

  ghost predicate FencesFit(s: string, spans: seq<FenceSpan>, most: nat) {
    forall k {:trigger FenceFits(s, spans[k], most)} :: 0 <= k < |spans| ==> FenceFits(s, spans[k], most)
  }

  /** No parenthesis opens outside the fences, long runs of fence characters are fence markers, and the limit has room
      for two fence lines and four characters more. */
  ghost predicate Tame(s: string, spans: seq<FenceSpan>, limit: int, most: nat) {
    && NoOpenParens(s, spans)
    && TidyText(s)
    && FencesFit(s, spans, most)
    && 2 * most + 4 <= limit
  }

  lemma FenceFound(s: string, spans: seq<FenceSpan>, most: nat, i: int, f: FenceSpan)
    requires SpansOk(s, spans)
    requires FencesFit(s, spans, most) && SpanAt(spans, i) == Some(f)
    ensures SpanOk(s, f)
    ensures FenceFits(s, f, most)
    ensures |CloseLine(f)| <= |f.openLine| <= most && 3 <= |f.marker|
  {
    SpanFound(s, spans, i);
    var k :| 0 <= k < |spans| && spans[k] == f;
    assert FenceFits(s, spans[k], most);
  }

  // ----- Soft breaks -----

  lemma {:induction false} DepthZero(s: string, spans: seq<FenceSpan>, start: nat, i: nat)
    requires NoOpenParens(s, spans) && start <= i <= |s|
    ensures Depth(s, spans, start, i) == 0
  {
    if start < i {
      DepthZero(s, spans, start, i - 1);
    }
  }

  /** With no open parenthesis every newline outside the fences is a soft break. */
  lemma NewlineIsSoft(s: string, spans: seq<FenceSpan>, start: nat, end: nat, q: nat)
    requires NoOpenParens(s, spans) && start < q < end <= |s|
    requires s[q] == '\n' && SpanAt(spans, q).None?
    ensures SoftBreak(s, spans, start, end) > start
  {
    DepthZero(s, spans, start, q);
    assert SoftAt(s, spans, start, q, true);
  }

  lemma BeforeFenceIsOutside(s: string, spans: seq<FenceSpan>, f: FenceSpan, i: int)
    requires SpansOk(s, spans)
    requires SpanAt(spans, i) == Some(f) && 0 < f.start
    ensures f.start <= |s| && SpanAt(spans, f.start - 1).None? && s[f.start - 1] == '\n'
  {
    SpanFound(s, spans, i);
    var k :| 0 <= k < |spans| && spans[k] == f;
    forall j | 0 <= j < |spans|
      ensures !Within(spans[j], f.start - 1)
    {
      assert j < k ==> Before(spans[j], f);
      assert k < j ==> Before(f, spans[j]);
    }
  }

  // ----- The heads of slices -----

  function StateOf(fence: Option<FenceSpan>): Fence
    requires fence.Some? ==> fence.value.marker != ""
  {
    if fence.None? then Closed else FenceOf(fence.value)
  }

  /** A slice that reopens a fence starts in its code; any other slice starts in no fence, but for the one space of an
      indent that the chunker may have dropped. */
  ghost predicate Placed(s: string, spans: seq<FenceSpan>, start: nat, reopen: Option<FenceSpan>) {
    match reopen
    case None => forall k :: 0 <= k < |spans| ==> start <= spans[k].start + 1 || spans[k].end <= start
    case Some(f) => SpanAt(spans, start) == Some(f) && f.start + |f.openLine| + 2 <= start
  }

  /** A slice may start here: the cut is harmless, and the reopened fence is the one that is open. */
  ghost predicate Head(s: string, spans: seq<FenceSpan>, start: nat, reopen: Option<FenceSpan>) {
    && start < |s|
    && Placed(s, spans, start, reopen)
    && Cuttable(s, start)
    && (reopen.Some? ==> reopen.value.marker != "")
    && StateAt(s, start) == StateOf(reopen)
  }

  /** The split leaves code on both sides of it, and a reader in the right state on its right side. */
  ghost predicate SplitGood(s: string, spans: seq<FenceSpan>, f: FenceSpan, stop: nat) {
    && stop + 1 < |s|
    && SpanAt(spans, stop) == Some(f)
    && f.marker != ""
    && f.start + |f.openLine| + 2 <= stop
    && Cuttable(s, stop)
    && StateAt(s, stop) == FenceOf(f)
  }

  // ----- Room for a split -----

  /** The line holding a forced break is no closing line: the closing line would be longer than allowed. */
  lemma ForcedBreakIsIdle(s: string, f: FenceSpan, stop: nat, first: nat, most: nat)
    requires SpanOk(s, f) && FenceFits(s, f, most)
    requires f.start + |f.openLine| < stop < f.end && first <= stop
    requires forall p :: first - 1 <= p <= stop && 0 <= p ==> s[p] != '\n'
    requires most + first - 1 < f.end && 0 < first
    ensures NextFence(s, stop) == FenceOf(f) == At(s, stop).fence
  {
    var e := LineEnd(s, stop);
    assert FencedAt(s, stop, FenceOf(f));
    AtWithinLine(s, stop, e);
    if e < f.end {
      assert FencedAt(s, e + 1, FenceOf(f));
    } else {
      assert e == f.end;
      assert LastBelow(s, '\n', f.end) < first - 1;
    }
  }

  /** The break follows a newline, or there is no newline from `first` on. */
  predicate AfterNewlineOrNone(s: string, stop: nat, first: nat)
    requires 0 < first <= stop < |s|
  {
    s[stop - 1] == '\n' || forall p :: first - 1 <= p <= stop ==> s[p] != '\n'
  }

  /** With room to spare the fence break follows a newline, or stands where the room ends. */
  lemma RoomyBreak(s: string, start: nat, content: nat, f: FenceSpan)
    requires 0 < content && start + content < |s| && f.marker != ""
    requires Max(start + 1, f.start + |f.openLine| + 2) + |CloseLine(f)| + 1 <= start + content
    ensures !Crowded(s, start, content, f)
    ensures
      var stop, first := FenceBreak(s, start, content, f), Max(start + 1, f.start + |f.openLine| + 2);
      first <= stop < start + content && AfterNewlineOrNone(s, stop, first)
  {
    var room, first := LastRoom(start, content, f), FirstBreak(s, start, f);
    assert first == Max(start + 1, f.start + |f.openLine| + 2) <= room;
    var newline := LastBelow(s, '\n', room + 1);
    var stop := FenceBreak(s, start, content, f);
    assert stop == if newline + 1 >= first then newline + 1 else room;
  }

  lemma SplitState(s: string, f: FenceSpan, stop: nat, first: nat, most: nat)
    requires TidyText(s) && SpanOk(s, f) && FenceFits(s, f, most) && Within(f, stop)
    requires f.start + |f.openLine| < stop && 0 < first <= stop && most + first - 1 < f.end
    requires AfterNewlineOrNone(s, stop, first)
    ensures Cuttable(s, stop) && StateAt(s, stop) == FenceOf(f)
  {
    assert FencedAt(s, stop, FenceOf(f));
    if s[stop - 1] == '\n' {
      assert At(s, stop) == Scan(At(s, stop).fence, "");
    } else {
      ForcedBreakIsIdle(s, f, stop, first, most);
      assert TidyLine(LineOf(s, stop));
      IdleSplits(s, stop, stop);
    }
  }

  lemma RoomySplit(s: string, spans: seq<FenceSpan>, start: nat, content: nat, f: FenceSpan, limit: int, most: nat)
    requires SpansOk(s, spans)
    requires Tame(s, spans, limit, most) && 0 < content && start + content < |s|
    requires SpanAt(spans, start + content) == Some(f)
    requires Max(start + 1, f.start + |f.openLine| + 2) + most + 1 <= start + content
    ensures SplitGood(s, spans, f, FenceBreak(s, start, content, f)) && !Crowded(s, start, content, f)
  {
    var stop := FenceBreak(s, start, content, f);
    var first := Max(start + 1, f.start + |f.openLine| + 2);
    FenceFound(s, spans, most, start + content, f);
    RoomyBreak(s, start, content, f);
    SplitStaysInside(s, spans, start, content, f);
    assert Within(f, stop) && most + first - 1 < f.end && first <= stop;
    SplitState(s, f, stop, first, most);
  }

  /** When the window holds no soft break, a fence that contains its end starts no later than the character after the
      slice's first. */
  lemma FenceStartsNear(s: string, spans: seq<FenceSpan>, start: nat, windowEnd: nat, f: FenceSpan)
    requires SpansOk(s, spans)
    requires NoOpenParens(s, spans) && start < windowEnd < |s|
    requires SoftBreak(s, spans, start, windowEnd) <= start
    requires SpanAt(spans, windowEnd) == Some(f)
    ensures f.start <= start + 1
  {
    if 0 < f.start {
      BeforeFenceIsOutside(s, spans, f, windowEnd);
      if start < f.start - 1 < windowEnd {
        NewlineIsSoft(s, spans, start, windowEnd, f.start - 1);
      }
    }
  }

  lemma SliceStartsNear(s: string, spans: seq<FenceSpan>, start: nat, windowEnd: nat, f: FenceSpan)
    requires Placed(s, spans, start, None) && start < windowEnd && SpanAt(spans, windowEnd) == Some(f)
    ensures start <= f.start + 1
  {
    var k :| 0 <= k < |spans| && spans[k] == f;
  }

  lemma ContentRoom(limit: int, reopen: Option<FenceSpan>, prefix: nat)
    requires match reopen case None => true case Some(f) => |f.openLine| + 1 <= prefix
    ensures limit - prefix <= ContentLimit(limit, reopen)
  {}

  /** A window that ends inside a fence and holds no soft break leaves enough room to split the fence. */
  lemma WindowHasRoom(s: string, spans: seq<FenceSpan>, limit: int, most: nat, start: nat, reopen: Option<FenceSpan>,
                      content: nat, f: FenceSpan)
    requires SpansOk(s, spans)
    requires NoOpenParens(s, spans) && FencesFit(s, spans, most) && 2 * most + 4 <= limit
    requires Placed(s, spans, start, reopen)
    requires content == ContentLimit(limit, reopen) && start + content < |s|
    requires SoftBreak(s, spans, start, start + content) <= start
    requires SpanAt(spans, start + content) == Some(f)
    ensures Max(start + 1, f.start + |f.openLine| + 2) + most + 1 <= start + content
  {
    assert |f.openLine| <= most by {
      FenceFound(s, spans, most, start + content, f);
    }
    assert f.start <= start + 1 by {
      FenceStartsNear(s, spans, start, start + content, f);
    }
    if reopen.Some? {
      InsideHasRoom(s, spans, limit, most, start, reopen.value, content, f);
    } else {
      SliceStartsNear(s, spans, start, start + content, f);
      ContentRoom(limit, reopen, 0);
    }
  }

  lemma InsideHasRoom(s: string, spans: seq<FenceSpan>, limit: int, most: nat, start: nat, g: FenceSpan, content: nat,
                      f: FenceSpan)
    requires SpansOk(s, spans)
    requires Placed(s, spans, start, Some(g)) && start + content < |s| && 0 < content
    requires content == ContentLimit(limit, Some(g)) && 2 * most + 4 <= limit && |f.openLine| <= most
    requires SpanAt(spans, start + content) == Some(f) && f.start <= start + 1
    ensures Max(start + 1, f.start + |f.openLine| + 2) + most + 1 <= start + content
  {
    SameFence(s, spans, start, g, start + content, f);
    ContentRoom(limit, Some(g), most + 1);
  }

  /** A slice that starts inside a fence and whose window holds no soft break stays in that fence. */
  lemma SameFence(s: string, spans: seq<FenceSpan>, start: nat, g: FenceSpan, windowEnd: nat, f: FenceSpan)
    requires SpansOk(s, spans)
    requires start < windowEnd
    requires SpanAt(spans, start) == Some(g) && SpanAt(spans, windowEnd) == Some(f)
    requires f.start <= start + 1
    ensures f == g
  {
    var j :| 0 <= j < |spans| && spans[j] == g;
    var k :| 0 <= k < |spans| && spans[k] == f;
    assert j < k ==> Before(g, f);
    assert k < j ==> Before(f, g);
  }

  // ----- From one slice to the next -----

  lemma AfterSplit(s: string, spans: seq<FenceSpan>, f: FenceSpan, stop: nat)
    requires SpansOk(s, spans)
    requires TidyText(s) && SplitGood(s, spans, f, stop)
    ensures Head(s, spans, AfterSeparator(s, stop), Some(f))
  {
    SpanFound(s, spans, stop);
    var next := AfterSeparator(s, stop);
    if next == stop + 1 {
      DropBlank(s, stop);
    }
    WithinIsSpanAt(spans, stop, f, next);
  }

  lemma OutsideIsCuttable(s: string, spans: seq<FenceSpan>, stop: nat)
    requires SpansOk(s, spans)
    requires stop < |s| && TidyText(s) && SpanAt(spans, stop).None?
    ensures Cuttable(s, stop) && StateAt(s, stop) == Closed
  {
    assert Plain(s, stop);
    if At(s, stop).fence == Closed && NextFence(s, stop) == Closed {
      assert TidyLine(LineOf(s, stop));
      IdleSplits(s, stop, stop);
    }
  }

  lemma {:induction false} DropNewlines(s: string, i: nat)
    requires i <= |s| && TidyText(s) && Cuttable(s, i)
    ensures
      var next := RunEnd(s, '\n', i);
      Cuttable(s, next) && StateAt(s, next) == StateAt(s, i)
    decreases |s| - i
  {
    if i < |s| && s[i] == '\n' {
      DropBlank(s, i);
      DropNewlines(s, i + 1);
    }
  }

  lemma AfterSoftBreak(s: string, spans: seq<FenceSpan>, stop: nat)
    requires SpansOk(s, spans)
    requires stop < |s| && TidyText(s) && SpanAt(spans, stop).None?
    ensures
      var next := Resume(s, stop, None);
      Cuttable(s, next) && StateAt(s, next) == Closed == StateAt(s, stop) && (next < |s| ==> Head(s, spans, next, None))
  {
    var r := AfterSeparator(s, stop);
    var next := Resume(s, stop, None);
    OutsideIsCuttable(s, spans, stop);
    if r == stop + 1 {
      DropBlank(s, stop);
    }
    DropNewlines(s, r);
    forall k | 0 <= k < |spans|
      ensures next <= spans[k].start + 1 || spans[k].end <= next
    {
      var f := spans[k];
      assert SpanOk(s, f);
      assert !Within(f, stop);
      if r <= f.start + 1 {
        OpeningLineIsNoNewline(s, f, r);
      }
    }
  }

  /** Skipping newlines stops at an opening line. */
  lemma OpeningLineIsNoNewline(s: string, f: FenceSpan, r: nat)
    requires SpanOk(s, f) && r <= f.start + 1
    ensures RunEnd(s, '\n', r) <= f.start + 1
  {
    assert s[f.start] != '\n' && s[f.start + 1] != '\n';
  }

  /** One round of the chunker's loop on a tame text, from a good head: the chunk fits, its end is in the state that the
      closing line answers, and the next slice has a good head too. */
  lemma RoundKeepsHead(s: string, spans: seq<FenceSpan>, limit: int, most: nat, start: nat, reopen: Option<FenceSpan>)
    requires SpansOk(s, spans)
    requires Tame(s, spans, limit, most) && Head(s, spans, start, reopen)
    ensures
      var cut := NextCut(s, limit, spans, start, reopen);
      && Fits(s, limit, cut)
      && (cut.split.Some? ==> SplitGood(s, spans, cut.split.value, cut.stop))
      && (cut.split.None? && cut.stop < |s| ==> StateAt(s, cut.stop) == Closed == StateAt(s, cut.next))
      && (if cut.next < |s| then Head(s, spans, cut.next, cut.split) else cut.split.None?)
  {
    var content := ContentLimit(limit, reopen);
    if reopen.Some? {
      FenceFound(s, spans, most, start, reopen.value);
    }
    if start + content < |s| {
      var cut := NextCut(s, limit, spans, start, reopen);
      BreakAtFence(s, spans, start, content);
      if cut.split.Some? {
        BreakSplits(s, spans, start, content);
        SplitRound(s, spans, limit, most, start, reopen, content, cut.split.value);
      } else {
        AfterSoftBreak(s, spans, cut.stop);
      }
    }
  }

  lemma BreakSplits(s: string, spans: seq<FenceSpan>, start: nat, content: nat)
    requires 0 < content && start + content < |s|
    ensures
      var (stop, split) := BreakAt(s, spans, start, content);
      split.Some? ==>
        && SoftBreak(s, spans, start, start + content) <= start
        && SpanAt(spans, start + content) == split
        && stop == FenceBreak(s, start, content, split.value)
  {
    SoftBreakIsSafe(s, spans, start, start + content);
  }

  lemma SplitRound(s: string, spans: seq<FenceSpan>, limit: int, most: nat, start: nat, reopen: Option<FenceSpan>,
                   content: nat, f: FenceSpan)
    requires SpansOk(s, spans)
    requires Tame(s, spans, limit, most) && Head(s, spans, start, reopen)
    requires content == ContentLimit(limit, reopen) && start + content < |s|
    requires SoftBreak(s, spans, start, start + content) <= start
    requires SpanAt(spans, start + content) == Some(f)
    ensures
      var stop := FenceBreak(s, start, content, f);
      && SplitGood(s, spans, f, stop)
      && !Crowded(s, start, content, f)
      && Head(s, spans, AfterSeparator(s, stop), Some(f))
  {
    WindowHasRoom(s, spans, limit, most, start, reopen, content, f);
    RoomySplit(s, spans, start, content, f, limit, most);
    AfterSplit(s, spans, f, FenceBreak(s, start, content, f));
  }

  // ----- Reading a chunk on its own -----

  lemma PrefixReads(s: string, reopen: Option<FenceSpan>)
    requires reopen.Some? ==> SpanOk(s, reopen.value)
    ensures Run(START, Prefix(reopen)) == Scan(StateOf(reopen), "")
  {
    if reopen.Some? {
      var line := reopen.value.openLine;
      var e := LineEnd(s, reopen.value.start);
      forall k | 0 <= k < |line|
        ensures line[k] != '\n'
      {
        assert line[k] == s[reopen.value.start + k];
      }
      RunInLine(START, line);
      assert "" + line == line;
      RunConcat(START, line, "\n");
      RunFirst(Scan(Closed, line), "\n", 0, 1);
      assert "\n"[0..1] == "\n";
    }
  }

  /** Reading a chunk up to any of its source characters leaves the fence state that the whole text has there: a line of
      the chunk is code exactly when it is code in the text. */
  lemma ChunkReads(s: string, spans: seq<FenceSpan>, start: nat, reopen: Option<FenceSpan>, j: nat)
    requires SpansOk(s, spans)
    requires TidyText(s) && Head(s, spans, start, reopen) && start <= j <= |s|
    ensures FenceAfter(Prefix(reopen) + s[start..j]) == StateAt(s, j)
  {
    if reopen.Some? {
        SpanFound(s, spans, start);
    }
    PrefixReads(s, reopen);
    RunConcat(START, Prefix(reopen), s[start..j]);
    CuttableSplits(s, start);
    Rejoin(s, start, j);
  }

  lemma CloseLineMatches(f: FenceSpan)
    requires MatchFenceLine(f.openLine) == Some(Mark(f.indent, f.marker))
    ensures MatchFenceLine(CloseLine(f)) == Some(Mark(f.indent, f.marker))
    ensures forall k :: 0 <= k < |CloseLine(f)| ==> CloseLine(f)[k] != '\n'
  {
    var line, n, m := CloseLine(f), |f.indent|, |f.marker|;
    assert line == f.openLine[..n + m];
    forall k | 0 <= k < |line|
      ensures line[k] == if k < n then ' ' else f.marker[0]
    {
      MarkerIsRun(f.openLine, k);
    }
    RunEndIs(line, ' ', 0, n);
    RunEndIs(line, f.marker[0], n, n + m);
    assert line[..n] == f.indent && line[n..n + m] == f.marker;
  }

  /** The closing line is read as a line of its own, whether or not a newline has to be added before it. */
  lemma ClosingLineReads(t: string, f: FenceSpan, added: string)
    requires t != "" && MatchFenceLine(f.openLine) == Some(Mark(f.indent, f.marker))
    requires added == if t[|t| - 1] == '\n' then CloseLine(f) else "\n" + CloseLine(f)
    ensures FenceAfter(t + added) == StepLine(FenceAfter(t), CloseLine(f))
  {
    CloseLineMatches(f);
    var sc := Run(START, t);
    RunConcat(START, t, added);
    if t[|t| - 1] == '\n' {
      RunSlice(t, 0, |t|);
      assert t[0..|t|] == t;
      assert sc.line == "";
      RunInLine(sc, CloseLine(f));
      assert "" + CloseLine(f) == CloseLine(f);
    } else {
      RunFirst(sc, added, 0, |added|);
      assert added[0..|added|] == added && added[1..|added|] == CloseLine(f);
      RunInLine(Scan(FenceAfter(t), ""), CloseLine(f));
      assert "" + CloseLine(f) == CloseLine(f);
    }
  }

  lemma ClosingLineCloses(t: string, f: FenceSpan, added: string)
    requires t != "" && f.marker != "" && FenceAfter(t) == FenceOf(f)
    requires MatchFenceLine(f.openLine) == Some(Mark(f.indent, f.marker))
    requires added == if t[|t| - 1] == '\n' then CloseLine(f) else "\n" + CloseLine(f)
    ensures FenceAfter(t + added) == Closed
  {
    CloseLineMatches(f);
    ClosingLineReads(t, f, added);
  }

  lemma RenderIs(s: string, cut: Cut, t: string)
    requires cut.start < cut.stop <= |s| && t == Prefix(cut.reopen) + s[cut.start..cut.stop]
    ensures t[|t| - 1] == s[cut.stop - 1]
    ensures
      Render(s, cut) == match cut.split
        case None => t
        case Some(f) => t + if s[cut.stop - 1] == '\n' then CloseLine(f) else "\n" + CloseLine(f)
  {
    if cut.split.None? {
      assert t + "" == t;
    }
  }

  /** A chunk of a tame text, read on its own, closes every fence it opens, unless it ends the text. */
  lemma ChunkBalanced(s: string, spans: seq<FenceSpan>, limit: int, most: nat, start: nat, reopen: Option<FenceSpan>)
    requires SpansOk(s, spans)
    requires Tame(s, spans, limit, most) && Head(s, spans, start, reopen)
    ensures
      var cut := NextCut(s, limit, spans, start, reopen);
      FenceAfter(Render(s, cut)) == if cut.stop < |s| then Closed else StateAt(s, |s|)
  {
    var cut := NextCut(s, limit, spans, start, reopen);
    RoundKeepsHead(s, spans, limit, most, start, reopen);
    ChunkReads(s, spans, start, reopen, cut.stop);
    var t := Prefix(reopen) + s[start..cut.stop];
    RenderIs(s, cut, t);
    if cut.split.Some? {
      var f := cut.split.value;
      FenceFound(s, spans, most, cut.stop, f);
      ClosingLineCloses(t, f, if s[cut.stop - 1] == '\n' then CloseLine(f) else "\n" + CloseLine(f));
    }
  }

  // ----- Whole chunkings -----

  lemma NextHead(s: string, spans: seq<FenceSpan>, limit: int, most: nat, cuts: seq<Cut>, k: nat)
    requires SpansOk(s, spans) && Tame(s, spans, limit, most)
    requires Chained(s, spans, limit, cuts) && k + 1 < |cuts|
    requires Head(s, spans, StartOf(cuts, k), ReopenOf(cuts, k))
    ensures Head(s, spans, StartOf(cuts, k + 1), ReopenOf(cuts, k + 1))
  {
    assert Linked(s, spans, limit, cuts, k);
    assert Linked(s, spans, limit, cuts, k + 1);
    RoundKeepsHead(s, spans, limit, most, StartOf(cuts, k), ReopenOf(cuts, k));
  }

  ghost predicate HeadAt(s: string, spans: seq<FenceSpan>, cuts: seq<Cut>, k: nat) {
    k < |cuts| && Head(s, spans, StartOf(cuts, k), ReopenOf(cuts, k))
  }

  ghost predicate KeepsHead(s: string, spans: seq<FenceSpan>, cuts: seq<Cut>, k: nat) {
    k + 1 < |cuts| && HeadAt(s, spans, cuts, k) ==> HeadAt(s, spans, cuts, k + 1)
  }

  lemma FirstHead(s: string, spans: seq<FenceSpan>, limit: int, cuts: seq<Cut>)
    requires SpansOk(s, spans) && cuts != [] && Chained(s, spans, limit, cuts)
    ensures HeadAt(s, spans, cuts, 0)
  {
    assert Linked(s, spans, limit, cuts, 0);
  }

  lemma {:induction false} HeadsFollow(s: string, spans: seq<FenceSpan>, cuts: seq<Cut>, k: nat)
    requires k < |cuts| && HeadAt(s, spans, cuts, 0)
    requires forall j: nat {:trigger KeepsHead(s, spans, cuts, j)} :: KeepsHead(s, spans, cuts, j)
    ensures HeadAt(s, spans, cuts, k)
  {
    if k > 0 {
      HeadsFollow(s, spans, cuts, k - 1);
      assert KeepsHead(s, spans, cuts, k - 1);
    }
  }

  /** Every slice starts at a good head. */
  lemma HeadsAlong(s: string, spans: seq<FenceSpan>, limit: int, most: nat, cuts: seq<Cut>, k: nat)
    requires SpansOk(s, spans) && Tame(s, spans, limit, most)
    requires Chained(s, spans, limit, cuts) && k < |cuts|
    ensures Head(s, spans, StartOf(cuts, k), ReopenOf(cuts, k))
  {
    FirstHead(s, spans, limit, cuts);
    forall j: nat
      ensures KeepsHead(s, spans, cuts, j)
    {
      if j + 1 < |cuts| && HeadAt(s, spans, cuts, j) {
        NextHead(s, spans, limit, most, cuts, j);
      }
    }
    HeadsFollow(s, spans, cuts, k);
  }

  /** Re-parsing the text runs out of it inside a fence. */
  predicate LeavesOpen(s: string) { OpenAtEnd(s, 0, None).Some? }

  lemma LeavesOpenIs(s: string)
    ensures LeavesOpen(s) <==> FenceAfter(s) != Closed
    ensures FenceAfter(s) == StateAt(s, |s|)
  {
    OpenAtEndIs(s, 0, None);
    FenceAfterIsAt(s);
  }

  /** What re-parsing a chunk finds. */
  lemma ChunkLeaves(s: string, spans: seq<FenceSpan>, limit: int, most: nat, start: nat, reopen: Option<FenceSpan>)
    requires SpansOk(s, spans) && Tame(s, spans, limit, most) && Head(s, spans, start, reopen)
    ensures
      var cut := NextCut(s, limit, spans, start, reopen);
      && Fits(s, limit, cut)
      && (LeavesOpen(Render(s, cut)) <==> cut.next == |s| && LeavesOpen(s))
  {
    RoundKeepsHead(s, spans, limit, most, start, reopen);
    ChunkBalanced(s, spans, limit, most, start, reopen);
    LeavesOpenIs(Render(s, NextCut(s, limit, spans, start, reopen)));
    LeavesOpenIs(s);
  }

  lemma LastCut(s: string, spans: seq<FenceSpan>, limit: int, cuts: seq<Cut>, k: nat)
    requires Chained(s, spans, limit, cuts) && StartOf(cuts, |cuts|) == |s| && k < |cuts|
    ensures cuts[k].next == |s| <==> k == |cuts| - 1
  {
    if k < |cuts| - 1 {
      assert Linked(s, spans, limit, cuts, k + 1);
    }
  }

  lemma ChunkOfCut(s: string, limit: int, most: nat, k: nat, chunk: string)
    requires Tame(s, Spans(s), limit, most) && k < |Cuts(s, limit)|
    requires Cuts(s, limit)[k].start < Cuts(s, limit)[k].stop <= |s| && chunk == Render(s, Cuts(s, limit)[k])
    ensures |chunk| <= limit
    ensures LeavesOpen(chunk) <==> k == |Cuts(s, limit)| - 1 && LeavesOpen(s)
  {
    var cuts, spans := Cuts(s, limit), Spans(s);
    CutsChained(s, limit);
    ParsedSpansOk(s);
    LastCut(s, spans, limit, cuts, k);
    HeadsAlong(s, spans, limit, most, cuts, k);
    assert Linked(s, spans, limit, cuts, k);
    ChunkLeaves(s, spans, limit, most, cuts[k].start, cuts[k].reopen);
    ChunkLength(s, limit, cuts[k].start, cuts[k].reopen);
  }

  /** Fence balance: every chunk of a tame text fits the limit, no chunk but the last leaves a fence open when it is
      parsed on its own, and the last one does exactly when the whole text does. */
  lemma FencesBalance(s: string, limit: int, most: nat, chunks: seq<string>)
    requires s != "" && Tame(s, Spans(s), limit, most) && IsChunking(s, limit, chunks)
    ensures |chunks| > 0
    ensures forall k :: 0 <= k < |chunks| ==> |chunks[k]| <= limit
    ensures forall k :: 0 <= k < |chunks| - 1 ==> !LeavesOpen(chunks[k])
    ensures LeavesOpen(chunks[|chunks| - 1]) <==> LeavesOpen(s)
  {
    if |s| > limit {
      CutsChained(s, limit);
      forall k | 0 <= k < |chunks|
        ensures |chunks[k]| <= limit && (LeavesOpen(chunks[k]) <==> k == |chunks| - 1 && LeavesOpen(s))
      {
        ChunkOfCut(s, limit, most, k, chunks[k]);
      }
    }
  }

  lemma {:induction false} AtPrefix(s: string, i: nat, j: nat)
    requires i <= j <= |s|
    ensures At(s[..j], i) == At(s, i)
  {
    if i > 0 {
      AtPrefix(s, i - 1, j);
    }
  }

  /** Code stays code: at every source character of every chunk of a tame text, a reader of the chunk alone is in the
      same fence as a reader of the whole text. */
  lemma CodeStaysCode(s: string, limit: int, most: nat, k: nat, j: nat)
    requires Tame(s, Spans(s), limit, most) && k < |Cuts(s, limit)|
    requires Cuts(s, limit)[k].start <= j <= Cuts(s, limit)[k].stop <= |s|
    ensures
      var cut := Cuts(s, limit)[k];
      FenceAfter(Prefix(cut.reopen) + s[cut.start..j]) == FenceAfter(s[..j])
  {
    var cuts := Cuts(s, limit);
    var cut := cuts[k];
    CutsChained(s, limit);
    ParsedSpansOk(s);
    HeadsAlong(s, Spans(s), limit, most, cuts, k);
    assert Linked(s, Spans(s), limit, cuts, k);
    ChunkReads(s, Spans(s), cut.start, cut.reopen, j);
    FenceAfterIsAt(s[..j]);
    AtPrefix(s, j, j);
  }
}
