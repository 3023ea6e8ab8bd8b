/** Length bounds from conditions on the text alone, tidy or not. */
module ChunkBounds {
  import opened Text
  import opened Fences
  import opened Chunker
  import opened ChunkProperties
  import opened FenceBalance

  predicate OpeningFits(f: FenceSpan, most: int) { |f.openLine| <= most }

  predicate OpeningsFit(spans: seq<FenceSpan>, most: int) {
    forall f {:trigger OpeningFits(f, most)} :: f in spans ==> OpeningFits(f, most)
  }

  lemma SpanAtIsASpan(spans: seq<FenceSpan>, i: int)
    ensures SpanAt(spans, i).Some? ==> SpanAt(spans, i).value in spans
  {}

  /** Fences are split and reopened that stand in the text, and no others. */
  lemma CutsAtSpans(s: string, limit: int, k: nat)
    requires k < |Cuts(s, limit)|
    ensures
      var cut := Cuts(s, limit)[k];
      && (cut.split.Some? ==> cut.split.value in Spans(s))
      && (cut.reopen.Some? ==> cut.reopen.value in Spans(s))
  {
    SplitsAtSpan(s, limit, k);
    CutsChained(s, limit);
    assert Linked(s, Spans(s), limit, Cuts(s, limit), k);
    if k > 0 {
      SplitsAtSpan(s, limit, k - 1);
    }
  }

  lemma SplitsAtSpan(s: string, limit: int, k: nat)
    requires k < |Cuts(s, limit)|
    ensures var cut := Cuts(s, limit)[k]; cut.split.Some? ==> cut.split.value in Spans(s)
  {
    ClosingPairsReopening(s, limit, k);
    SpanAtIsASpan(Spans(s), Cuts(s, limit)[k].stop);
  }

  /** What a chunk may have beyond the limit: its closing line and a newline. */
  function Closing(cut: Cut): nat {
    if cut.split.None? then 0 else |CloseLine(cut.split.value)| + 1
  }

  lemma OpeningOf(spans: seq<FenceSpan>, most: int, f: FenceSpan)
    requires OpeningsFit(spans, most) && f in spans
    ensures |f.openLine| <= most
  {
    assert OpeningFits(f, most);
  }

  /** With opening lines shorter than the limit less one, every chunk is at most its closing line and a newline longer
      than the limit, and a chunk without a closing line is within it. */
  lemma ShortOpeningsBound(s: string, limit: int, chunks: seq<string>)
    requires 0 < limit && OpeningsFit(Spans(s), limit - 2) && IsChunking(s, limit, chunks)
    ensures |s| <= limit ==> forall k :: 0 <= k < |chunks| ==> |chunks[k]| <= limit
    ensures
      |s| > limit ==>
        && |chunks| == |Cuts(s, limit)|
        && forall k :: 0 <= k < |chunks| ==> |chunks[k]| <= limit + Closing(Cuts(s, limit)[k])
  {
    if |s| > limit {
      forall k | 0 <= k < |chunks|
        ensures |chunks[k]| <= limit + Closing(Cuts(s, limit)[k])
      {
        CutsAtSpans(s, limit, k);
        CutsChained(s, limit);
        assert Linked(s, Spans(s), limit, Cuts(s, limit), k);
        CutBound(s, limit, Cuts(s, limit), k);
      }
    }
  }

  lemma ChunkBound(s: string, limit: int, start: nat, reopen: Option<FenceSpan>)
    requires 0 < limit && start < |s| && (reopen.Some? ==> |reopen.value.openLine| <= limit - 2)
    ensures
      var cut := NextCut(s, limit, Spans(s), start, reopen);
      |Render(s, cut)| <= limit + Closing(cut)
  {
    ChunkLength(s, limit, start, reopen);
  }

  lemma CutBound(s: string, limit: int, cuts: seq<Cut>, k: nat)
    requires 0 < limit && OpeningsFit(Spans(s), limit - 2) && k < |cuts| && Linked(s, Spans(s), limit, cuts, k)
    requires ReopenOf(cuts, k).Some? ==> ReopenOf(cuts, k).value in Spans(s)
    ensures |Render(s, cuts[k])| <= limit + Closing(cuts[k])
  {
    if ReopenOf(cuts, k).Some? {
      OpeningOf(Spans(s), limit - 2, ReopenOf(cuts, k).value);
    }
    ChunkBound(s, limit, StartOf(cuts, k), ReopenOf(cuts, k));
  }

  /** A window without a soft break leaves room to split any fence that contains its end. */
  lemma RoomForAnyFence(s: string, spans: seq<FenceSpan>, limit: int, most: nat, start: nat, reopen: Option<FenceSpan>,
                        content: nat, f: FenceSpan)
    requires SpansOk(s, spans) && NoOpenParens(s, spans) && OpeningsFit(spans, most) && 3 * most + 5 <= limit
    requires reopen.Some? ==> reopen.value in spans
    requires content == ContentLimit(limit, reopen) && start + content < |s|
    requires SoftBreak(s, spans, start, start + content) <= start && SpanAt(spans, start + content) == Some(f)
    ensures !Crowded(s, start, content, f)
  {
    assert f.start <= start + 1 by {
      FenceStartsNear(s, spans, start, start + content, f);
    }
    assert |CloseLine(f)| <= |f.openLine| <= most && f.marker != "" by {
      CloseLineFits(s, spans, start + content, f);
      SpanAtIsASpan(spans, start + content);
      OpeningOf(spans, most, f);
    }
    if reopen.Some? {
      OpeningOf(spans, most, reopen.value);
    }
    RoomyBreak(s, start, content, f);
  }

  lemma CloseLineFits(s: string, spans: seq<FenceSpan>, i: int, f: FenceSpan)
    requires SpansOk(s, spans) && SpanAt(spans, i) == Some(f)
    ensures |CloseLine(f)| <= |f.openLine| && f.marker != ""
  {
    SpanFound(s, spans, i);
  }

  /** From any start a cut that reopens a fence of the text, or none, fits. */
  lemma NextCutFits(s: string, spans: seq<FenceSpan>, limit: int, most: nat, start: nat, reopen: Option<FenceSpan>)
    requires SpansOk(s, spans) && NoOpenParens(s, spans) && OpeningsFit(spans, most) && 3 * most + 5 <= limit
    requires start < |s| && (reopen.Some? ==> reopen.value in spans)
    ensures Fits(s, limit, NextCut(s, limit, spans, start, reopen))
  {
    var cut := NextCut(s, limit, spans, start, reopen);
    if reopen.Some? {
      OpeningOf(spans, most, reopen.value);
    }
    if cut.split.Some? {
      var content := ContentLimit(limit, reopen);
      BreakSplits(s, spans, start, content);
      RoomForAnyFence(s, spans, limit, most, start, reopen, content, cut.split.value);
    }
  }

  lemma CutFits(s: string, spans: seq<FenceSpan>, limit: int, most: nat, cuts: seq<Cut>, k: nat)
    requires SpansOk(s, spans) && NoOpenParens(s, spans) && OpeningsFit(spans, most) && 3 * most + 5 <= limit
    requires k < |cuts| && Linked(s, spans, limit, cuts, k)
    requires ReopenOf(cuts, k).Some? ==> ReopenOf(cuts, k).value in spans
    ensures Fits(s, limit, cuts[k])
  {
    NextCutFits(s, spans, limit, most, StartOf(cuts, k), ReopenOf(cuts, k));
  }

  /** With no parenthesis opening outside the fences, and opening lines of at most `most` characters of which the limit
      holds three and five characters more, every chunk is within the limit. */
  lemma AllWithinLimit(s: string, limit: int, most: nat, chunks: seq<string>)
    requires NoOpenParens(s, Spans(s)) && OpeningsFit(Spans(s), most) && 3 * most + 5 <= limit
    requires IsChunking(s, limit, chunks)
    ensures forall k :: 0 <= k < |chunks| ==> |chunks[k]| <= limit
  {
    if |s| > limit {
      forall k | 0 <= k < |Cuts(s, limit)|
        ensures Fits(s, limit, Cuts(s, limit)[k])
      {
        CutsAtSpans(s, limit, k);
        CutsChained(s, limit);
        ParsedSpansOk(s);
        assert Linked(s, Spans(s), limit, Cuts(s, limit), k);
        CutFits(s, Spans(s), limit, most, Cuts(s, limit), k);
      }
      AllChunksWithinLimit(s, limit, chunks);
    }
  }
}
