/** Exactly when a chunk, read on its own, closes its fences. */
module ChunkEnds {
  import opened Text
  import opened Fences
  import opened Tidy
  import opened Chunker
  import opened ChunkProperties
  import opened FenceBalance

  /** The closing line of `f` closes the fence that a reader is in. */
  predicate Answers(st: Fence, f: FenceSpan) {
    st.Open? && f.marker != "" && st.ch == f.marker[0] && st.len <= |f.marker|
  }

  /** A reader in state `st` at the end of a cut's source characters is left outside all fences by the closing line, if
      there is one. */
  predicate ClosedAfter(st: Fence, split: Option<FenceSpan>) {
    if split.None? then st == Closed else Answers(st, split.value)
  }

  /** A chunk's reopened line and source characters. */
  function Body(s: string, cut: Cut): string
    requires cut.start < cut.stop <= |s|
  {
    Prefix(cut.reopen) + s[cut.start..cut.stop]
  }

  predicate IsFenceLine(f: FenceSpan) { MatchFenceLine(f.openLine) == Some(Mark(f.indent, f.marker)) }

  lemma CloseLineAnswers(st: Fence, f: FenceSpan)
    requires IsFenceLine(f)
    ensures StepLine(st, CloseLine(f)) == Closed <==> Answers(st, f)
  {
    CloseLineMatches(f);
  }

  lemma ChunkState(s: string, cut: Cut)
    requires cut.start < cut.stop <= |s| && (cut.split.Some? ==> IsFenceLine(cut.split.value))
    ensures
      FenceAfter(Render(s, cut))
      == if cut.split.None? then FenceAfter(Body(s, cut))
         else StepLine(FenceAfter(Body(s, cut)), CloseLine(cut.split.value))
  {
    var t := Body(s, cut);
    RenderIs(s, cut, t);
    if cut.split.Some? {
      var f := cut.split.value;
      ClosingLineReads(t, f, if s[cut.stop - 1] == '\n' then CloseLine(f) else "\n" + CloseLine(f));
    }
  }

  /** Any chunk of any text: re-parsing it leaves no fence open if and only if its closing line, if it has one,
      answers the fence that its reopened line and its source characters leave open, or else they leave none open. */
  lemma ChunkClosesIff(s: string, cut: Cut)
    requires cut.start < cut.stop <= |s| && (cut.split.Some? ==> IsFenceLine(cut.split.value))
    ensures !LeavesOpen(Render(s, cut)) <==> ClosedAfter(FenceAfter(Body(s, cut)), cut.split)
  {
    LeavesOpenIs(Render(s, cut));
    ChunkState(s, cut);
    if cut.split.Some? {
      CloseLineAnswers(FenceAfter(Body(s, cut)), cut.split.value);
    }
  }

  lemma SplitIsFence(s: string, limit: int, spans: seq<FenceSpan>, start: nat, reopen: Option<FenceSpan>)
    requires SpansOk(s, spans) && start < |s|
    ensures
      var cut := NextCut(s, limit, spans, start, reopen);
      cut.split.Some? ==> SpanAt(spans, cut.stop) == cut.split && IsFenceLine(cut.split.value)
  {
    var cut := NextCut(s, limit, spans, start, reopen);
    if cut.split.Some? {
      BreakAtFence(s, spans, start, ContentLimit(limit, reopen));
      SpanFound(s, spans, cut.stop);
    }
  }

  /** The exact form of the fence balance for one cut. */
  ghost predicate Closes(s: string, cut: Cut)
  {
    cut.start < cut.stop <= |s| && ClosedAfter(FenceAfter(Body(s, cut)), cut.split)
  }

  lemma CutClosesIff(s: string, limit: int, cuts: seq<Cut>, k: nat, chunk: string)
    requires k < |cuts| && Linked(s, Spans(s), limit, cuts, k) && chunk == Render(s, cuts[k])
    ensures !LeavesOpen(chunk) <==> Closes(s, cuts[k])
  {
    ParsedSpansOk(s);
    SplitIsFence(s, limit, Spans(s), StartOf(cuts, k), ReopenOf(cuts, k));
    ChunkClosesIff(s, cuts[k]);
  }

  /** Every chunk of every chunking closes its fences if and only if its cut does. */
  lemma ChunksCloseIff(s: string, limit: int, chunks: seq<string>)
    requires 0 < limit < |s| && IsChunking(s, limit, chunks)
    ensures |chunks| == |Cuts(s, limit)|
    ensures forall k :: 0 <= k < |chunks| ==> (!LeavesOpen(chunks[k]) <==> Closes(s, Cuts(s, limit)[k]))
  {
    var cuts := Cuts(s, limit);
    CutsChained(s, limit);
    forall k | 0 <= k < |chunks|
      ensures !LeavesOpen(chunks[k]) <==> Closes(s, cuts[k])
    {
      assert Linked(s, Spans(s), limit, cuts, k);
      CutClosesIff(s, limit, cuts, k, chunks[k]);
    }
  }

  /** No chunk but the last leaves a fence open, and the last one does exactly when the text does. */
  ghost predicate BalancedChunks(s: string, chunks: seq<string>) {
    && (forall k :: 0 <= k < |chunks| - 1 ==> !LeavesOpen(chunks[k]))
    && (chunks != [] ==> (LeavesOpen(chunks[|chunks| - 1]) <==> LeavesOpen(s)))
  }

  ghost predicate BalancedCuts(s: string, cuts: seq<Cut>) {
    && (forall k :: 0 <= k < |cuts| - 1 ==> Closes(s, cuts[k]))
    && (cuts != [] ==> (Closes(s, cuts[|cuts| - 1]) <==> !LeavesOpen(s)))
  }

  /** The fence balance of a whole chunking, for any text and limit: it holds if and only if it holds of the cuts. */
  lemma BalanceIff(s: string, limit: int, chunks: seq<string>)
    requires 0 < limit < |s| && IsChunking(s, limit, chunks)
    ensures BalancedChunks(s, chunks) <==> BalancedCuts(s, Cuts(s, limit))
  {
    ChunksCloseIff(s, limit, chunks);
  }

  /** In a tidy text, from any good head, whatever the parentheses and the limit: the chunk closes its fences if and
      only if its closing line, if it has one, answers the fence that a reader of the whole text is in at the break,
      or else that reader is in none. */
  lemma TidyChunkClosesIff(s: string, spans: seq<FenceSpan>, limit: int, start: nat, reopen: Option<FenceSpan>)
    requires SpansOk(s, spans) && TidyText(s) && Head(s, spans, start, reopen)
    ensures
      var cut := NextCut(s, limit, spans, start, reopen);
      !LeavesOpen(Render(s, cut)) <==> ClosedAfter(StateAt(s, cut.stop), cut.split)
  {
    var cut := NextCut(s, limit, spans, start, reopen);
    SplitIsFence(s, limit, spans, start, reopen);
    ChunkClosesIff(s, cut);
    ChunkReads(s, spans, start, reopen, cut.stop);
  }
}
