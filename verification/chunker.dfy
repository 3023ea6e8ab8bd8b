/** The fence-aware Markdown chunker: where it cuts, what each chunk holds, and what the cuts preserve. */
module Chunker {
  import opened Text
  import opened Fences

  // ----- One cut -----

  /** The source slice `[start, stop)` of a chunk, where the next slice starts, and the fence reopened or split. */
  datatype Cut = Cut(start: nat, stop: nat, next: nat, reopen: Option<FenceSpan>, split: Option<FenceSpan>)

  function Prefix(reopen: Option<FenceSpan>): string {
    if reopen.Some? then reopen.value.openLine + "\n" else ""
  }

  function CloseLine(f: FenceSpan): string { f.indent + f.marker }

  /** How many source characters fit after the reopened opening line; at least one, so that the loop advances. */
  function ContentLimit(limit: int, reopen: Option<FenceSpan>): nat {
    var room := limit - |Prefix(reopen)|;
    if room < 1 then 1 else room
  }

  function Render(s: string, cut: Cut): string
    requires cut.start < cut.stop <= |s|
  {
    Prefix(cut.reopen) + s[cut.start..cut.stop]
    + match cut.split
      case None => ""
      case Some(f) => if s[cut.stop - 1] == '\n' then CloseLine(f) else "\n" + CloseLine(f)
  }

  // ----- Soft breaks -----

  /** The parenthesis depth at `i`, counting from `start` and outside fences only. */
  function Depth(s: string, spans: seq<FenceSpan>, start: nat, i: nat): nat
    requires start <= i <= |s|
  {
    if i == start then 0
    else
      var d := Depth(s, spans, start, i - 1);
      if SpanAt(spans, i - 1).Some? then d
      else if s[i - 1] == '(' then d + 1
      else if s[i - 1] == ')' && d > 0 then d - 1
      else d
  }

  predicate SoftAt(s: string, spans: seq<FenceSpan>, start: nat, i: nat, newline: bool)
    requires start <= i < |s|
  {
    && SpanAt(spans, i).None?
    && Depth(s, spans, start, i) == 0
    && IsWhitespace(s[i])
    && (s[i] == '\n' <==> newline)
  }

  /** The last soft break of one kind in `[start, end)`, or -1. */
  function LastSoft(s: string, spans: seq<FenceSpan>, start: nat, end: nat, newline: bool): (r: int)
    requires start <= end <= |s|
    ensures r == -1 || (start <= r < end && SoftAt(s, spans, start, r, newline))
    ensures forall i :: start <= i < end && r < i ==> !SoftAt(s, spans, start, i, newline)
  {
    if end == start then -1
    else if SoftAt(s, spans, start, end - 1, newline) then end - 1
    else LastSoft(s, spans, start, end - 1, newline)
  }

  /** A newline is preferred over any other whitespace; a break at `start` itself is no break. */
  function SoftBreak(s: string, spans: seq<FenceSpan>, start: nat, end: nat): int
    requires start <= end <= |s|
  {
    var newline := LastSoft(s, spans, start, end, true);
    var other := LastSoft(s, spans, start, end, false);
    if newline > start then newline
    else if other > start then other
    else -1
  }

  method ScanParenAwareBreakpoints(text: string, start: nat, end: nat, spans: seq<FenceSpan>)
    returns (lastNewline: int, lastWhitespace: int)
    requires start <= end <= |text| && Sorted(spans)
    ensures lastNewline == LastSoft(text, spans, start, end, true)
    ensures lastWhitespace == LastSoft(text, spans, start, end, false)
  {
    lastNewline := -1;
    lastWhitespace := -1;
    var depth := 0;
    for i := start to end
      invariant depth == Depth(text, spans, start, i)
      invariant lastNewline == LastSoft(text, spans, start, i, true)
      invariant lastWhitespace == LastSoft(text, spans, start, i, false)
    {
      var fence := FindFenceSpanAt(spans, i);
      if fence.Some? {
        continue;
      }
      var c := text[i];
      if c == '(' {
        depth := depth + 1;
        continue;
      }
      if c == ')' && depth > 0 {
        depth := depth - 1;
        continue;
      }
      if depth != 0 {
        continue;
      }
      if c == '\n' {
        lastNewline := i;
      } else if IsWhitespace(c) {
        lastWhitespace := i;
      }
    }
  }

  method PickSafeBreakIndex(text: string, start: nat, end: nat, spans: seq<FenceSpan>) returns (r: int)
    requires start <= end <= |text| && Sorted(spans)
    ensures r == SoftBreak(text, spans, start, end)
  {
    var lastNewline, lastWhitespace := ScanParenAwareBreakpoints(text, start, end, spans);
    if lastNewline > start {
      return lastNewline;
    }
    if lastWhitespace > start {
      return lastWhitespace;
    }
    return -1;
  }

  method SkipLeadingNewlines(value: string, start: nat) returns (i: nat)
    requires start <= |value|
    ensures i == RunEnd(value, '\n', start)
  {
    i := start;
    while i < |value| && value[i] == '\n'
      invariant start <= i <= |value|
      invariant RunEnd(value, '\n', i) == RunEnd(value, '\n', start)
    {
      i := i + 1;
    }
  }

  // ----- Breaks inside a fence -----

  /** The last break that leaves room for a newline and the closing line. */
  function LastRoom(start: nat, content: nat, f: FenceSpan): int {
    start + content - (|CloseLine(f)| + 1)
  }

  /** The first break that makes progress and leaves some code under the opening line. */
  function FirstBreak(s: string, start: nat, f: FenceSpan): nat {
    Min(|s|, Max(start + 1, f.start + |f.openLine| + 2))
  }

  function Min(a: int, b: int): int { if a < b then a else b }
  function Max(a: int, b: int): int { if a < b then b else a }

  /** Where a fence is split: after the last newline that leaves room, else as late as the room allows, else at the
      end of the window. */
  function FenceBreak(s: string, start: nat, content: nat, f: FenceSpan): (r: nat)
    requires 0 < content && start + content < |s|
    ensures start < r <= start + content
  {
    var room := LastRoom(start, content, f);
    var first := FirstBreak(s, start, f);
    if room <= start then start + content
    else
      var newline := LastBelow(s, '\n', room + 1);
      if newline + 1 >= first then newline + 1
      else if first > room + 1 then start + content
      else Max(first, room)
  }

  predicate InFence(spans: seq<FenceSpan>, start: nat, i: int) {
    SpanAt(spans, i).Some? && SpanAt(spans, i).value.start == start
  }

  /** The backward search for a newline at or below `top` after which the text is still in the fence at `fence`. It
      ends because `first` is beyond 1: a newline at position 0, which lastIndexOf would find again and again, is
      rejected before the search goes on. */
  method PickNewline(text: string, spans: seq<FenceSpan>, start: nat, first: nat, top: nat, fence: nat)
    returns (r: Option<nat>)
    requires Sorted(spans) && top < |text| && 2 <= first
    ensures r.Some? ==>
      && 0 < r.value && start <= r.value - 1 <= top && text[r.value - 1] == '\n'
      && first <= r.value && InFence(spans, fence, r.value)
    ensures forall p :: start <= p <= top && first <= p + 1 && text[p] == '\n' && (r.Some? ==> r.value <= p) ==>
      !InFence(spans, fence, p + 1)
  {
    var lastNewline := LastIndexOf(text, '\n', top);
    while lastNewline >= start
      invariant -1 <= lastNewline <= top
      invariant lastNewline >= 0 ==> text[lastNewline] == '\n'
      invariant forall p :: start <= p <= top && lastNewline < p && first <= p + 1 && text[p] == '\n' ==>
        !InFence(spans, fence, p + 1)
    {
      var candidate := lastNewline + 1;
      if candidate < first {
        break;
      }
      var candidateFence := FindFenceSpanAt(spans, candidate);
      if candidateFence.Some? && candidateFence.value.start == fence {
        return Some(candidate);
      }
      lastNewline := LastIndexOf(text, '\n', lastNewline - 1);
    }
    return None;
  }

  // ----- The sequence of cuts -----

  /** Where a window that does not reach the end of the text is broken, and the fence that the break splits. */
  function BreakAt(s: string, spans: seq<FenceSpan>, start: nat, content: nat): (r: (nat, Option<FenceSpan>))
    requires 0 < content && start + content < |s|
    ensures start < r.0 <= start + content
  {
    var soft := SoftBreak(s, spans, start, start + content);
    var tentative := if soft > start then soft else start + content;
    var fence := SpanAt(spans, tentative);
    if fence.None? then (tentative, None) else (FenceBreak(s, start, content, fence.value), fence)
  }

  /** Where the slice after a break starts: one separator is dropped, and outside fences the newlines after it. */
  function Resume(s: string, stop: nat, split: Option<FenceSpan>): (r: nat)
    requires stop < |s|
    ensures stop <= r <= |s|
  {
    if split.Some? then AfterSeparator(s, stop) else RunEnd(s, '\n', AfterSeparator(s, stop))
  }

  /** The chunk that starts at `start` with the fence `reopen` open. */
  function NextCut(s: string, limit: int, spans: seq<FenceSpan>, start: nat, reopen: Option<FenceSpan>): (r: Cut)
    requires start < |s|
    ensures r.start == start < r.stop <= r.next <= |s| && r.reopen == reopen
  {
    var content := ContentLimit(limit, reopen);
    if |s| - start <= content then Cut(start, |s|, |s|, reopen, None)
    else
      var (stop, split) := BreakAt(s, spans, start, content);
      Cut(start, stop, Resume(s, stop, split), reopen, split)
  }

  /** One separating whitespace character at the break is dropped. */
  function AfterSeparator(s: string, i: nat): (r: nat)
    requires i < |s|
    ensures i <= r <= i + 1
  {
    if IsWhitespace(s[i]) then i + 1 else i
  }

  function CutsFrom(s: string, limit: int, spans: seq<FenceSpan>, start: nat, reopen: Option<FenceSpan>,
                    done: seq<Cut>): seq<Cut>
    requires start <= |s|
    decreases |s| - start
  {
    if start == |s| then done
    else
      var cut := NextCut(s, limit, spans, start, reopen);
      CutsFrom(s, limit, spans, cut.next, cut.split, done + [cut])
  }

  function Cuts(s: string, limit: int): seq<Cut> {
    CutsFrom(s, limit, Spans(s), 0, None, [])
  }

  /** The chunks are the rendered cuts. */
  ghost predicate Renders(s: string, cuts: seq<Cut>, chunks: seq<string>) {
    && |chunks| == |cuts|
    && forall k :: 0 <= k < |cuts| ==>
        cuts[k].start < cuts[k].stop <= |s| && chunks[k] == Render(s, cuts[k])
  }

  /** What the chunker returns: nothing for an empty text, the text itself when it fits or there is no limit. */
  ghost predicate IsChunking(s: string, limit: int, chunks: seq<string>) {
    if s == "" then chunks == []
    else if limit <= 0 || |s| <= limit then chunks == [s]
    else Renders(s, Cuts(s, limit), chunks)
  }

  lemma CutsStep(s: string, limit: int, spans: seq<FenceSpan>, start: nat, reopen: Option<FenceSpan>, done: seq<Cut>)
    requires start <= |s|
    ensures start == |s| ==> CutsFrom(s, limit, spans, start, reopen, done) == done
    ensures start < |s| ==>
      var cut := NextCut(s, limit, spans, start, reopen);
      CutsFrom(s, limit, spans, start, reopen, done)
      == CutsFrom(s, limit, spans, cut.next, cut.split, done + [cut])
  {}

  lemma LatestPick(s: string, start: nat, first: nat, room: nat, picked: Option<nat>)
    requires room < |s| && start < first
    requires picked.Some? ==> 0 < picked.value <= room + 1 && s[picked.value - 1] == '\n' && first <= picked.value
    requires forall p :: start <= p <= room && first <= p + 1 && s[p] == '\n' ==> picked.Some? && p < picked.value
    ensures
      var newline := LastBelow(s, '\n', room + 1);
      if newline + 1 >= first then picked == Some(newline + 1) else picked.None?
  {
    var newline := LastBelow(s, '\n', room + 1);
    assert picked.Some? ==> picked.value - 1 <= newline;
  }

  /** Every newline the backward search may look at is inside the fence, so the search finds the last of them. */
  lemma PickedNewline(s: string, spans: seq<FenceSpan>, start: nat, content: nat, f: FenceSpan, picked: Option<nat>,
                      room: nat, first: nat)
    requires Sorted(spans) && start + content < |s|
    requires SpanAt(spans, start + content) == Some(f)
    requires room == LastRoom(start, content, f) > start && first == FirstBreak(s, start, f)
    requires picked.Some? ==> 0 < picked.value <= room + 1 && s[picked.value - 1] == '\n' && first <= picked.value
    requires
      forall p :: start <= p <= room && first <= p + 1 && s[p] == '\n' && (picked.Some? ==> picked.value <= p) ==>
        !InFence(spans, f.start, p + 1)
    ensures
      var newline := LastBelow(s, '\n', room + 1);
      if newline + 1 >= first then picked == Some(newline + 1) else picked.None?
  {
    forall p | start <= p <= room && first <= p + 1 && s[p] == '\n'
      ensures picked.Some? && p < picked.value
    {
      WithinIsSpanAt(spans, start + content, f, p + 1);
      assert InFence(spans, f.start, p + 1);
    }
    LatestPick(s, start, first, room, picked);
  }

  lemma WithinIsSpanAt(spans: seq<FenceSpan>, i: int, f: FenceSpan, j: int)
    requires Sorted(spans) && SpanAt(spans, i) == Some(f) && Within(f, j)
    ensures SpanAt(spans, j) == Some(f)
  {
    var k :| 0 <= k < |spans| && spans[k] == f;
    SpanAtIs(spans, j, k);
  }

  /** A tentative break inside a fence stays inside that fence. */
  lemma FenceBreakStaysInside(s: string, spans: seq<FenceSpan>, start: nat, content: nat, f: FenceSpan)
    requires Sorted(spans) && 0 < content && start + content < |s|
    requires SpanAt(spans, start + content) == Some(f) && f.end <= |s|
    ensures SpanAt(spans, FenceBreak(s, start, content, f)) == Some(f)
  {
    WithinIsSpanAt(spans, start + content, f, FenceBreak(s, start, content, f));
  }

  /** The break inside the fence `f`, which strictly contains the end of the window. */
  method PickFenceBreak(text: string, start: nat, contentLimit: nat, spans: seq<FenceSpan>, f: FenceSpan)
    returns (breakIdx: nat)
    requires Sorted(spans) && 0 < contentLimit && start + contentLimit < |text|
    requires SpanAt(spans, start + contentLimit) == Some(f) && f.start + |f.openLine| > 0
    ensures breakIdx == FenceBreak(text, start, contentLimit, f)
  {
    var windowEnd := start + contentLimit;
    var closeLine := f.indent + f.marker;
    var maxIdxIfNeedNewline := start + (contentLimit - (|closeLine| + 1));
    if maxIdxIfNeedNewline <= start {
      return windowEnd;
    }
    var minProgressIdx := Min(|text|, Max(start + 1, f.start + |f.openLine| + 2));
    var maxIdxIfAlreadyNewline := start + (contentLimit - |closeLine|);
    var picked := PickNewline(text, spans, start, minProgressIdx, Max(start, maxIdxIfAlreadyNewline - 1), f.start);
    PickedNewline(text, spans, start, contentLimit, f, picked, maxIdxIfNeedNewline, minProgressIdx);
    if picked.Some? {
      return picked.value;
    }
    if minProgressIdx > maxIdxIfAlreadyNewline {
      return windowEnd;
    }
    return Max(minProgressIdx, maxIdxIfNeedNewline);
  }

  method RenderChunk(text: string, cut: Cut) returns (rawChunk: string)
    requires cut.start < cut.stop <= |text|
    ensures rawChunk == Render(text, cut)
  {
    var reopened := Prefix(cut.reopen) + text[cut.start..cut.stop];
    rawChunk := reopened;
    if cut.split.Some? {
      var closeLine := CloseLine(cut.split.value);
      if rawChunk[|rawChunk| - 1] == '\n' {
        rawChunk := rawChunk + closeLine;
      } else {
        rawChunk := rawChunk + "\n" + closeLine;
        assert rawChunk == reopened + ("\n" + closeLine);
      }
    }
  }

  method ResumeAt(text: string, breakIdx: nat, fenceToSplit: Option<FenceSpan>) returns (nextStart: nat)
    requires breakIdx < |text|
    ensures nextStart == Resume(text, breakIdx, fenceToSplit)
  {
    var brokeOnSeparator := breakIdx < |text| && IsWhitespace(text[breakIdx]);
    nextStart := Min(|text|, breakIdx + if brokeOnSeparator then 1 else 0);
    if fenceToSplit.None? {
      nextStart := SkipLeadingNewlines(text, nextStart);
    }
  }

  lemma SoftBreakIsSafe(s: string, spans: seq<FenceSpan>, start: nat, end: nat)
    requires start <= end <= |s|
    ensures
      var soft := SoftBreak(s, spans, start, end);
      soft > start ==> soft < end && SpanAt(spans, soft).None?
  {}

  method PickBreak(text: string, spans: seq<FenceSpan>, start: nat, contentLimit: nat)
    returns (breakIdx: nat, fenceToSplit: Option<FenceSpan>)
    requires SpansOk(text, spans)
    requires 0 < contentLimit && start + contentLimit < |text|
    ensures (breakIdx, fenceToSplit) == BreakAt(text, spans, start, contentLimit)
  {
    var windowEnd := Min(|text|, start + contentLimit);
    var softBreak := PickSafeBreakIndex(text, start, windowEnd, spans);
    breakIdx := if softBreak > start then softBreak else windowEnd;
    var initialFence := FindFenceSpanAt(spans, breakIdx);
    fenceToSplit := initialFence;
    if initialFence.Some? {
      SoftBreakIsSafe(text, spans, start, windowEnd);
      SpanFound(text, spans, windowEnd);
      breakIdx := PickFenceBreak(text, start, contentLimit, spans, initialFence.value);
      FenceBreakStaysInside(text, spans, start, contentLimit, initialFence.value);
      var fenceAtBreak := FindFenceSpanAt(spans, breakIdx);
      fenceToSplit :=
        if fenceAtBreak.Some? && fenceAtBreak.value.start == initialFence.value.start then fenceAtBreak else None;
    }
  }

  /** One round of the chunker's loop. A rest that fits is the final chunk, and leaves nothing to resume. */
  method TakeChunk(text: string, limit: int, spans: seq<FenceSpan>, start: nat, reopenFence: Option<FenceSpan>)
    returns (rawChunk: string, nextStart: nat, fenceToSplit: Option<FenceSpan>)
    requires SpansOk(text, spans)
    requires start < |text|
    ensures
      var cut := NextCut(text, limit, spans, start, reopenFence);
      rawChunk == Render(text, cut) && nextStart == cut.next && fenceToSplit == cut.split
  {
    var contentLimit := Max(1, limit - |Prefix(reopenFence)|);
    ghost var cut := NextCut(text, limit, spans, start, reopenFence);
    if |text| - start <= contentLimit {
      assert cut == Cut(start, |text|, |text|, reopenFence, None);
      rawChunk := RenderChunk(text, Cut(start, |text|, |text|, reopenFence, None));
      return rawChunk, |text|, None;
    }
    var breakIdx: nat;
    breakIdx, fenceToSplit := PickBreak(text, spans, start, contentLimit);
    nextStart := ResumeAt(text, breakIdx, fenceToSplit);
    assert cut == Cut(start, breakIdx, nextStart, reopenFence, fenceToSplit);
    rawChunk := RenderChunk(text, Cut(start, breakIdx, nextStart, reopenFence, fenceToSplit));
  }

  method ResolveChunkEarlyReturn(text: string, limit: int) returns (early: Option<seq<string>>)
    ensures early.Some? <==> text == "" || limit <= 0 || |text| <= limit
    ensures early.Some? ==> early.value == if text == "" then [] else [text]
  {
    if text == "" {
      return Some([]);
    }
    if limit <= 0 {
      return Some([text]);
    }
    if |text| <= limit {
      return Some([text]);
    }
    return None;
  }

  lemma RendersAppend(text: string, done: seq<Cut>, chunks: seq<string>, cut: Cut, chunk: string)
    requires Renders(text, done, chunks)
    requires cut.start < cut.stop <= |text| && chunk == Render(text, cut)
    ensures Renders(text, done + [cut], chunks + [chunk])
  {}

  method ChunkMarkdownText(text: string, limit: int) returns (chunks: seq<string>)
    ensures IsChunking(text, limit, chunks)
  {
    var early := ResolveChunkEarlyReturn(text, limit);
    if early.Some? {
      return early.value;
    }
    chunks := [];
    var spans := ParseFenceSpans(text);
    ParsedSpansOk(text);
    var start := 0;
    var reopenFence: Option<FenceSpan> := None;
    ghost var done: seq<Cut> := [];
    while start < |text|
      invariant 0 <= start <= |text|
      invariant CutsFrom(text, limit, spans, start, reopenFence, done) == Cuts(text, limit)
      invariant Renders(text, done, chunks)
      decreases |text| - start
    {
      CutsStep(text, limit, spans, start, reopenFence, done);
      ghost var cut := NextCut(text, limit, spans, start, reopenFence);
      var rawChunk, nextStart, fenceToSplit := TakeChunk(text, limit, spans, start, reopenFence);
      RendersAppend(text, done, chunks, cut, rawChunk);
      chunks := chunks + [rawChunk];
      start := nextStart;
      reopenFence := fenceToSplit;
      done := done + [cut];
    }
    CutsStep(text, limit, spans, |text|, reopenFence, done);
    assert Renders(text, Cuts(text, limit), chunks);
  }
}
