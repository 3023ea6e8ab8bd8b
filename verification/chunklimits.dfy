/** Where the chunker's promises end: a closed fence that is cut in its own closing line. */
module ChunkLimits {
  import opened Text
  import opened Fences
  import opened Tidy
  import opened Chunker
  import opened ChunkProperties
  import opened FenceBalance

  const EMPTY_BLOCK := "```\n```"

  lemma EmptyBlockSpans()
    ensures Spans(EMPTY_BLOCK) == [FenceSpan(0, 7, "```", "```", "")]
  {
    var s := EMPTY_BLOCK;
    assert s[0..3] == "```" && s[4..7] == "```";
    assert LineEnd(s, 0) == 3 && LineEnd(s, 4) == 7;
    TripleTick();
    var o := OpenFence(0, "```", "```", "");
    assert OpenAfterLine(None, 0, "```") == Some(o);
    assert OpenAfterLine(Some(o), 4, "```") == None;
    SpansStep(s, 0, None, []);
    SpansStep(s, 4, Some(o), []);
  }

  const BLOCK := FenceSpan(0, 7, "```", "```", "")

  lemma InsideBlock(spans: seq<FenceSpan>, i: nat)
    requires spans == [BLOCK] && 0 < i < 7
    ensures SpanAt(spans, i) == Some(BLOCK)
  {
    assert Within(spans[0], i);
    assert !Outside(spans, i);
  }

  lemma NoSoftBreak(s: string, spans: seq<FenceSpan>, start: nat, stop: nat)
    requires spans == [BLOCK] && start < stop < |s| && stop <= 7 && !IsWhitespace(s[start])
    ensures SoftBreak(s, spans, start, stop) <= start
  {
    forall i | start < i < stop
      ensures !SoftAt(s, spans, start, i, true) && !SoftAt(s, spans, start, i, false)
    {
      InsideBlock(spans, i);
    }
  }

  lemma BlockBreak(s: string, spans: seq<FenceSpan>, start: nat, content: nat)
    requires spans == [BLOCK] && 0 < content <= 4 && start + content < |s| == 7 && !IsWhitespace(s[start])
    ensures BreakAt(s, spans, start, content) == (start + content, Some(BLOCK))
  {
    NoSoftBreak(s, spans, start, start + content);
    InsideBlock(spans, start + content);
    assert |CloseLine(BLOCK)| == 3;
  }

  /** An empty block under a limit of 4: each round finds no room for the closing line and cuts at the window's end. */
  lemma EmptyBlockCut(start: nat, reopen: Option<FenceSpan>)
    requires (start == 0 && reopen == None) || (4 <= start <= 5 && reopen == Some(BLOCK))
    ensures
      var stop := if start == 0 then 4 else start + 1;
      NextCut(EMPTY_BLOCK, 4, Spans(EMPTY_BLOCK), start, reopen) == Cut(start, stop, stop, reopen, Some(BLOCK))
  {
    EmptyBlockSpans();
    assert EMPTY_BLOCK[4] == EMPTY_BLOCK[5] == EMPTY_BLOCK[6] == '`';
    assert |Prefix(reopen)| == if start == 0 then 0 else 4;
    BlockBreak(EMPTY_BLOCK, Spans(EMPTY_BLOCK), start, if start == 0 then 4 else 1);
  }

  lemma EmptyBlockEnds()
    ensures NextCut(EMPTY_BLOCK, 4, Spans(EMPTY_BLOCK), 6, Some(BLOCK)) == Cut(6, 7, 7, Some(BLOCK), None)
  {
    assert |Prefix(Some(BLOCK))| == 4;
  }

  const FIRST := Cut(0, 4, 4, None, Some(BLOCK))
  const SECOND := Cut(4, 5, 5, Some(BLOCK), Some(BLOCK))
  const THIRD := Cut(5, 6, 6, Some(BLOCK), Some(BLOCK))
  const LAST := Cut(6, 7, 7, Some(BLOCK), None)

  lemma EmptyBlockCuts()
    ensures Cuts(EMPTY_BLOCK, 4) == [FIRST, SECOND, THIRD, LAST]
  {
    var s, spans := EMPTY_BLOCK, Spans(EMPTY_BLOCK);
    EmptyBlockCut(0, None);
    CutsStep(s, 4, spans, 0, None, []);
    assert [] + [FIRST] == [FIRST];
    LastThreeCuts();
  }

  lemma LastThreeCuts()
    ensures CutsFrom(EMPTY_BLOCK, 4, Spans(EMPTY_BLOCK), 4, Some(BLOCK), [FIRST]) == [FIRST, SECOND, THIRD, LAST]
  {
    EmptyBlockCut(4, Some(BLOCK));
    CutsStep(EMPTY_BLOCK, 4, Spans(EMPTY_BLOCK), 4, Some(BLOCK), [FIRST]);
    assert [FIRST] + [SECOND] == [FIRST, SECOND];
    LastTwoCuts();
  }

  lemma LastTwoCuts()
    ensures
      CutsFrom(EMPTY_BLOCK, 4, Spans(EMPTY_BLOCK), 5, Some(BLOCK), [FIRST, SECOND]) == [FIRST, SECOND, THIRD, LAST]
  {
    var s, spans := EMPTY_BLOCK, Spans(EMPTY_BLOCK);
    EmptyBlockCut(5, Some(BLOCK));
    CutsStep(s, 4, spans, 5, Some(BLOCK), [FIRST, SECOND]);
    assert [FIRST, SECOND] + [THIRD] == [FIRST, SECOND, THIRD];
    EmptyBlockEnds();
    CutsStep(s, 4, spans, 6, Some(BLOCK), [FIRST, SECOND, THIRD]);
    assert [FIRST, SECOND, THIRD] + [LAST] == [FIRST, SECOND, THIRD, LAST];
    CutsStep(s, 4, spans, 7, None, [FIRST, SECOND, THIRD, LAST]);
  }

  lemma RenderedEnds()
    ensures |Render(EMPTY_BLOCK, FIRST)| == 7 && Render(EMPTY_BLOCK, LAST) == "```\n`"
  {
    assert EMPTY_BLOCK[3] == '\n';
    RenderLength(EMPTY_BLOCK, FIRST);
    assert EMPTY_BLOCK[6..7] == "`";
  }

  /** Neither promise holds of every text: the first chunk of this one is longer than the limit, and the last one
      leaves open a fence that the text closes. */
  lemma PromisesNeedRoom()
    ensures !LeavesOpen(EMPTY_BLOCK)
    ensures
      forall chunks {:trigger IsChunking(EMPTY_BLOCK, 4, chunks)} :: IsChunking(EMPTY_BLOCK, 4, chunks) ==>
        |chunks| == 4 && |chunks[0]| == 7 && LeavesOpen(chunks[3])
  {
    EmptyBlockCloses();
    forall chunks | IsChunking(EMPTY_BLOCK, 4, chunks)
      ensures |chunks| == 4 && |chunks[0]| == 7 && LeavesOpen(chunks[3])
    {
      EmptyBlockCuts();
      EmptyBlockChunks(chunks);
    }
  }

  lemma EmptyBlockChunks(chunks: seq<string>)
    requires Renders(EMPTY_BLOCK, [FIRST, SECOND, THIRD, LAST], chunks)
    ensures |chunks| == 4 && |chunks[0]| == 7 && LeavesOpen(chunks[3])
  {
    RenderedEnds();
    LastChunkOpens(chunks[3]);
  }

  lemma EmptyBlockCloses()
    ensures !LeavesOpen(EMPTY_BLOCK)
  {
    var s := EMPTY_BLOCK;
    assert s[0..3] == "```" && s[4..7] == "```";
    assert LineEnd(s, 0) == 3 && LineEnd(s, 4) == 7;
    TripleTick();
    OpenAtEndStep(s, 0, None);
    OpenAtEndStep(s, 4, Some(OpenFence(0, "```", "```", "")));
  }

  lemma TripleTick()
    ensures MatchFenceLine("```") == Some(Mark("", "```")) && MatchFenceLine("`") == None
  {
    RunEndIs("```", ' ', 0, 0);
    RunEndIs("```", '`', 0, 3);
    assert "```"[..0] == "" && "```"[0..3] == "```";
    RunEndIs("`", ' ', 0, 0);
    RunEndIs("`", '`', 0, 1);
  }

  lemma LastChunkOpens(chunk: string)
    requires chunk == "```\n`"
    ensures LeavesOpen(chunk)
  {
    assert chunk[0..3] == "```" && chunk[4..5] == "`";
    assert chunk[3] == '\n';
    LineEndIs(chunk, 0, 3);
    LineEndIs(chunk, 4, 5);
    TripleTick();
    OpenAtEndStep(chunk, 0, None);
    OpenAtEndStep(chunk, 4, Some(OpenFence(0, "```", "```", "")));
  }

  // ----- At every limit: an opening line that is too long -----

  /** An opening line, and nothing after it. */
  function LongOpening(info: string): string { "```" + info + "\n" }

  predicate PlainInfo(info: string) {
    forall i :: 0 <= i < |info| ==> info[i] != '\n' && !IsFenceChar(info[i]) && !IsDotBarrier(info[i])
  }

  function LongFence(info: string): FenceSpan {
    FenceSpan(0, |info| + 4, "```" + info, "```", "")
  }

  lemma LongLine(info: string)
    requires PlainInfo(info)
    ensures MatchFenceLine("```" + info) == Some(Mark("", "```"))
    ensures
      var s := LongOpening(info);
      LineEnd(s, 0) == |info| + 3 && s[0..|info| + 3] == "```" + info && LineEnd(s, |s|) == |s|
  {
    var line, s := "```" + info, LongOpening(info);
    assert forall i :: 3 <= i < |line| ==> line[i] == info[i - 3];
    RunEndIs(line, ' ', 0, 0);
    RunEndIs(line, '`', 0, 3);
    assert line[..0] == "" && line[0..3] == "```";
    assert s[|info| + 3] == '\n' && forall i :: 0 <= i < |info| + 3 ==> s[i] == line[i];
    LineEndIs(s, 0, |info| + 3);
  }

  lemma LongSpans(info: string)
    requires PlainInfo(info)
    ensures Spans(LongOpening(info)) == [LongFence(info)]
  {
    var s, open := LongOpening(info), OpenFence(0, "```" + info, "```", "");
    LongLine(info);
    SpansStep(s, 0, None, []);
    assert s[|s|..|s|] == "";
    RunEndIs("", ' ', 0, 0);
    SpansStep(s, |s|, Some(open), []);
  }

  lemma LongBreak(info: string, spans: seq<FenceSpan>, limit: nat)
    requires PlainInfo(info) && spans == [LongFence(info)] && 0 < limit <= |info| + 3
    ensures BreakAt(LongOpening(info), spans, 0, limit) == (limit, Some(LongFence(info)))
  {
    var s, f := LongOpening(info), LongFence(info);
    forall i | 0 < i <= limit
      ensures SpanAt(spans, i) == Some(f)
    {
      assert Within(spans[0], i);
      assert !Outside(spans, i);
    }
    assert SoftBreak(s, spans, 0, limit) <= 0;
    assert |CloseLine(f)| == 3 && FirstBreak(s, 0, f) == |s|;
  }

  lemma LongCut(info: string, spans: seq<FenceSpan>, limit: nat)
    requires PlainInfo(info) && spans == [LongFence(info)] && 0 < limit <= |info| + 3
    ensures
      var cut := NextCut(LongOpening(info), limit, spans, 0, None);
      |Render(LongOpening(info), cut)| == limit + 4
  {
    var s := LongOpening(info);
    LongBreak(info, spans, limit);
    var cut := NextCut(s, limit, spans, 0, None);
    RenderLength(s, cut);
    assert s[limit - 1] == ("```" + info)[limit - 1] != '\n';
  }

  /** At every limit an opening line as long as the limit or longer makes the first chunk 4 characters too long. */
  lemma LongOpeningExceeds(info: string, limit: nat, chunks: seq<string>)
    requires PlainInfo(info) && 0 < limit <= |info| + 3 && IsChunking(LongOpening(info), limit, chunks)
    ensures chunks != [] && |chunks[0]| == limit + 4
  {
    var s := LongOpening(info);
    CutsChained(s, limit);
    assert Linked(s, Spans(s), limit, Cuts(s, limit), 0);
    LongSpans(info);
    LongCut(info, Spans(s), limit);
  }
}
