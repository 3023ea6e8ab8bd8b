/** At every limit an open parenthesis can break the chunker's promises: it hides the line ends before a fence, and the
    chunk is cut in the fence's closing line. */
module ParenthesisLimits {
  import opened Text
  import opened Fences
  import opened Tidy
  import opened Chunker
  import opened ChunkProperties
  import opened FenceBalance
  import opened ChunkLimits

  /** An open parenthesis, a line without fence characters, and an empty fenced block of which two characters are beyond
      the limit. */
  ghost predicate Hidden(s: string, n: nat) {
    && 7 <= n && |s| == n + 2 && s[0] == '('
    && (forall i :: 0 <= i < n - 6 ==> s[i] != '\n' && s[i] != ')' && !IsFenceChar(s[i]))
    && s[n - 6] == s[n - 2] == '\n'
    && s[n - 5..n - 2] == "```" && s[n - 1..n + 2] == "```"
  }

  function HiddenText(words: string): string { "(" + words + "\n```\n```" }

  lemma HiddenTextIs(words: string, n: nat)
    requires n == |words| + 7
    requires forall i :: 0 <= i < |words| ==> words[i] != '\n' && words[i] != ')' && !IsFenceChar(words[i])
    ensures Hidden(HiddenText(words), n)
  {
    var s := HiddenText(words);
    assert forall i :: 0 < i < n - 6 ==> s[i] == words[i - 1];
    assert s[n - 6..] == "\n```\n```";
    assert s[n - 5..n - 2] == s[n - 6..][1..4] && s[n - 1..n + 2] == s[n - 6..][5..8];
  }

  // ----- The fence -----

  lemma Lines(s: string, n: nat)
    requires Hidden(s, n)
    ensures LineEnd(s, 0) == n - 6 && LineEnd(s, n - 5) == n - 2 && LineEnd(s, n - 1) == n + 2
    ensures MatchFenceLine(s[0..n - 6]) == None
  {
    LineEndIs(s, 0, n - 6);
    Ticks(s, n - 5);
    Ticks(s, n - 1);
    LineEndIs(s, n - 5, n - 2);
    LineEndIs(s, n - 1, n + 2);
    RunEndIs(s[0..n - 6], ' ', 0, 0);
  }

  lemma Ticks(s: string, i: nat)
    requires i + 3 <= |s| && s[i..i + 3] == "```"
    ensures s[i] == s[i + 1] == s[i + 2] == '`'
  {
    assert s[i..i + 3][0] == '`' && s[i..i + 3][1] == '`' && s[i..i + 3][2] == '`';
  }

  function EmptyFence(n: nat): FenceSpan
    requires 7 <= n
  {
    FenceSpan(n - 5, n + 2, "```", "```", "")
  }

  function OpenedFence(n: nat): OpenFence
    requires 7 <= n
  {
    OpenFence(n - 5, "```", "```", "")
  }

  lemma OpensAndCloses(s: string, n: nat)
    requires Hidden(s, n)
    ensures OpenAfterLine(None, 0, s[0..LineEnd(s, 0)]) == None
    ensures OpenAfterLine(None, n - 5, s[n - 5..LineEnd(s, n - 5)]) == Some(OpenedFence(n))
    ensures OpenAfterLine(Some(OpenedFence(n)), n - 1, s[n - 1..LineEnd(s, n - 1)]) == None
  {
    Lines(s, n);
    TripleTick();
  }

  lemma HiddenSpans(s: string, n: nat)
    requires Hidden(s, n)
    ensures Spans(s) == [EmptyFence(n)]
  {
    Lines(s, n);
    OpensAndCloses(s, n);
    SpansStep(s, 0, None, []);
    OpeningLineSpans(s, n);
  }

  lemma OpeningLineSpans(s: string, n: nat)
    requires Hidden(s, n)
    ensures SpansFrom(s, n - 5, None, []) == [EmptyFence(n)]
  {
    Lines(s, n);
    OpensAndCloses(s, n);
    SpansStep(s, n - 5, None, []);
    ClosingLineSpans(s, n);
  }

  lemma ClosingLineSpans(s: string, n: nat)
    requires Hidden(s, n)
    ensures SpansFrom(s, n - 1, Some(OpenedFence(n)), []) == [EmptyFence(n)]
  {
    Lines(s, n);
    OpensAndCloses(s, n);
    SpansStep(s, n - 1, Some(OpenedFence(n)), []);
  }

  lemma HiddenCloses(s: string, n: nat)
    requires Hidden(s, n)
    ensures !LeavesOpen(s)
  {
    Lines(s, n);
    OpensAndCloses(s, n);
    OpenAtEndStep(s, 0, None);
    OpeningLineCloses(s, n);
  }

  lemma OpeningLineCloses(s: string, n: nat)
    requires Hidden(s, n)
    ensures OpenAtEnd(s, n - 5, None) == None
  {
    Lines(s, n);
    OpensAndCloses(s, n);
    OpenAtEndStep(s, n - 5, None);
    OpenAtEndStep(s, n - 1, Some(OpenedFence(n)));
  }

  lemma InsideFence(spans: seq<FenceSpan>, n: nat, i: nat)
    requires 7 <= n && spans == [EmptyFence(n)]
    ensures SpanAt(spans, i) == if n - 5 < i < n + 2 then Some(EmptyFence(n)) else None
  {
    if n - 5 < i < n + 2 {
      assert Within(spans[0], i);
      assert !Outside(spans, i);
    } else {
      assert !Within(spans[0], i);
    }
  }

  // ----- The cuts -----

  lemma {:induction false} DepthStays(s: string, spans: seq<FenceSpan>, n: nat, i: nat)
    requires Hidden(s, n) && spans == [EmptyFence(n)] && 0 < i <= n
    ensures Depth(s, spans, 0, i) > 0
  {
    InsideFence(spans, n, i - 1);
    if i > 1 {
      DepthStays(s, spans, n, i - 1);
      Ticks(s, n - 5);
    }
  }

  lemma NothingSoft(s: string, spans: seq<FenceSpan>, n: nat)
    requires Hidden(s, n) && spans == [EmptyFence(n)]
    ensures SoftBreak(s, spans, 0, n) == -1
  {
    forall i | 0 <= i < n
      ensures !SoftAt(s, spans, 0, i, true) && !SoftAt(s, spans, 0, i, false)
    {
      if i > 0 {
        DepthStays(s, spans, n, i);
      }
    }
  }

  lemma HiddenBreak(s: string, spans: seq<FenceSpan>, n: nat)
    requires Hidden(s, n) && spans == [EmptyFence(n)]
    ensures BreakAt(s, spans, 0, n) == (n, Some(EmptyFence(n)))
  {
    NothingSoft(s, spans, n);
    InsideFence(spans, n, n);
    assert |CloseLine(EmptyFence(n))| == 3;
    assert FirstBreak(s, 0, EmptyFence(n)) == n;
    assert LastRoom(0, n, EmptyFence(n)) == n - 4;
  }

  function FirstCut(n: nat): Cut
    requires 7 <= n
  {
    Cut(0, n, n, None, Some(EmptyFence(n)))
  }

  function LastCut(n: nat): Cut
    requires 7 <= n
  {
    Cut(n, n + 2, n + 2, Some(EmptyFence(n)), None)
  }

  lemma FirstCutIs(s: string, spans: seq<FenceSpan>, n: nat)
    requires Hidden(s, n) && spans == [EmptyFence(n)]
    ensures NextCut(s, n, spans, 0, None) == FirstCut(n)
  {
    HiddenBreak(s, spans, n);
    Ticks(s, n - 1);
  }

  lemma HiddenCuts(s: string, n: nat)
    requires Hidden(s, n)
    ensures Cuts(s, n) == [FirstCut(n), LastCut(n)]
  {
    var spans := Spans(s);
    HiddenSpans(s, n);
    FirstCutIs(s, spans, n);
    assert NextCut(s, n, spans, n, Some(EmptyFence(n))) == LastCut(n);
    CutsStep(s, n, spans, 0, None, []);
    assert [] + [FirstCut(n)] == [FirstCut(n)];
    CutsStep(s, n, spans, n, Some(EmptyFence(n)), [FirstCut(n)]);
    assert [FirstCut(n)] + [LastCut(n)] == [FirstCut(n), LastCut(n)];
    CutsStep(s, n, spans, n + 2, None, [FirstCut(n), LastCut(n)]);
  }

  lemma HiddenChunks(s: string, n: nat)
    requires Hidden(s, n)
    ensures |Render(s, FirstCut(n))| == n + 4 && Render(s, LastCut(n)) == "```\n``"
  {
    Ticks(s, n - 1);
    RenderLength(s, FirstCut(n));
    assert s[n..n + 2] == "``";
  }

  lemma TwoTicksOpen(chunk: string)
    requires chunk == "```\n``"
    ensures LeavesOpen(chunk)
  {
    assert chunk[0..3] == "```" && chunk[4..6] == "``" && chunk[3] == '\n';
    LineEndIs(chunk, 0, 3);
    LineEndIs(chunk, 4, 6);
    TripleTick();
    TwoTicks();
    OpenAtEndStep(chunk, 0, None);
    OpenAtEndStep(chunk, 4, Some(OpenFence(0, "```", "```", "")));
  }

  lemma TwoTicks()
    ensures MatchFenceLine("``") == None
  {
    RunEndIs("``", ' ', 0, 0);
    RunEndIs("``", '`', 0, 2);
  }

  // ----- All but the parenthesis is tame -----

  lemma LineFrom(s: string, a: nat, e: nat, i: nat)
    requires a <= i <= e <= |s| && At(s, a).line == "" && (e == |s| || s[e] == '\n')
    requires forall k :: a <= k < e ==> s[k] != '\n'
    ensures LineOf(s, i) == s[a..e]
  {
    AtWithinLine(s, a, i);
    LineEndIs(s, i, e);
    assert "" + s[a..i] == s[a..i];
    assert s[a..i] + s[i..e] == s[a..e];
  }

  lemma HiddenIsTidy(s: string, n: nat)
    requires Hidden(s, n)
    ensures TidyText(s)
  {
    Lines(s, n);
    TripleTick();
    forall i | 0 <= i <= |s|
      ensures TidyLine(LineOf(s, i))
    {
      HiddenLine(s, n, i);
    }
  }

  lemma HiddenLine(s: string, n: nat, i: nat)
    requires Hidden(s, n) && i <= |s|
    ensures LineOf(s, i) == s[0..n - 6] || LineOf(s, i) == "```"
    ensures NoTriples(s[0..n - 6], 0)
  {
    Ticks(s, n - 5);
    Ticks(s, n - 1);
    if i <= n - 6 {
      LineFrom(s, 0, n - 6, i);
    } else if i <= n - 2 {
      LineFrom(s, n - 5, n - 2, i);
    } else {
      LineFrom(s, n - 1, n + 2, i);
    }
  }

  lemma HiddenFits(s: string, n: nat)
    requires Hidden(s, n)
    ensures FencesFit(s, [EmptyFence(n)], 3)
  {
    Ticks(s, n - 1);
    assert FenceFits(s, EmptyFence(n), 3);
  }

  /** From a limit of 10 on, only the open parenthesis keeps these texts from being tame. */
  lemma OnlyTheParenthesis(words: string, limit: nat)
    requires |words| + 7 == limit && 10 <= limit
    requires forall i :: 0 <= i < |words| ==> words[i] != '\n' && words[i] != ')' && !IsFenceChar(words[i])
    ensures
      var s := HiddenText(words);
      && TidyText(s) && FencesFit(s, Spans(s), 3) && 2 * 3 + 4 <= limit
      && !NoOpenParens(s, Spans(s)) && !Tame(s, Spans(s), limit, 3)
  {
    var s := HiddenText(words);
    HiddenTextIs(words, limit);
    HiddenIsTidy(s, limit);
    HiddenSpans(s, limit);
    HiddenFits(s, limit);
    InsideFence(Spans(s), limit, 0);
  }

  /** At every limit from 7 on, and for any line of words of the right length after the parenthesis: the first chunk is
      longer than the limit by 4, and the last one leaves open a fence that the text closes. */
  lemma ParenthesisBreaksPromises(words: string, limit: nat, chunks: seq<string>)
    requires |words| + 7 == limit && IsChunking(HiddenText(words), limit, chunks)
    requires forall i :: 0 <= i < |words| ==> words[i] != '\n' && words[i] != ')' && !IsFenceChar(words[i])
    ensures |chunks| == 2 && |chunks[0]| == limit + 4
    ensures LeavesOpen(chunks[1]) && !LeavesOpen(HiddenText(words))
  {
    var s := HiddenText(words);
    HiddenTextIs(words, limit);
    HiddenCloses(s, limit);
    HiddenCuts(s, limit);
    HiddenChunks(s, limit);
    assert Renders(s, [FirstCut(limit), LastCut(limit)], chunks);
    TwoTicksOpen(chunks[1]);
  }
}
