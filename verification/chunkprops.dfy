/** What every chunking of every text satisfies: conservation, the pairing of closing and reopening lines, lengths. */
module ChunkProperties {
  import opened Text
  import opened Fences
  import opened Chunker

  // ----- The cuts form a chain -----

  function StartOf(cuts: seq<Cut>, k: nat): nat
    requires k <= |cuts|
  {
    if k == 0 then 0 else cuts[k - 1].next
  }

  function ReopenOf(cuts: seq<Cut>, k: nat): Option<FenceSpan>
    requires k <= |cuts|
  {
    if k == 0 then None else cuts[k - 1].split
  }

  /** Cut `k` is the chunker's next cut after the one before it. */
  ghost predicate Linked(s: string, spans: seq<FenceSpan>, limit: int, cuts: seq<Cut>, k: nat)
    requires k < |cuts|
  {
    StartOf(cuts, k) < |s| && cuts[k] == NextCut(s, limit, spans, StartOf(cuts, k), ReopenOf(cuts, k))
  }

  ghost predicate Chained(s: string, spans: seq<FenceSpan>, limit: int, cuts: seq<Cut>) {
    forall k :: 0 <= k < |cuts| ==> Linked(s, spans, limit, cuts, k)
  }

  lemma ChainGrows(s: string, spans: seq<FenceSpan>, limit: int, done: seq<Cut>, cut: Cut)
    requires Chained(s, spans, limit, done) && StartOf(done, |done|) < |s|
    requires cut == NextCut(s, limit, spans, StartOf(done, |done|), ReopenOf(done, |done|))
    ensures Chained(s, spans, limit, done + [cut])
  {
    var all := done + [cut];
    forall k | 0 <= k < |all|
      ensures Linked(s, spans, limit, all, k)
    {
      assert StartOf(all, k) == StartOf(done, k) && ReopenOf(all, k) == ReopenOf(done, k);
      assert k < |done| ==> Linked(s, spans, limit, done, k);
    }
  }

  lemma {:induction false} CutsFromChained(s: string, spans: seq<FenceSpan>, limit: int, start: nat,
                                           reopen: Option<FenceSpan>, done: seq<Cut>)
    requires start <= |s| && Chained(s, spans, limit, done)
    requires start == StartOf(done, |done|) && reopen == ReopenOf(done, |done|)
    ensures
      var cuts := CutsFrom(s, limit, spans, start, reopen, done);
      Chained(s, spans, limit, cuts) && StartOf(cuts, |cuts|) == |s|
    decreases |s| - start
  {
    CutsStep(s, limit, spans, start, reopen, done);
    if start < |s| {
      var cut := NextCut(s, limit, spans, start, reopen);
      ChainGrows(s, spans, limit, done, cut);
      CutsFromChained(s, spans, limit, cut.next, cut.split, done + [cut]);
    }
  }

  lemma CutsChained(s: string, limit: int)
    ensures
      var cuts := Cuts(s, limit);
      Chained(s, Spans(s), limit, cuts) && StartOf(cuts, |cuts|) == |s|
  {
    CutsFromChained(s, Spans(s), limit, 0, None, []);
  }

  // ----- Conservation -----

  ghost predicate Blank(s: string, from: nat, to: nat)
    requires from <= to <= |s|
  {
    forall i :: from <= i < to ==> IsWhitespace(s[i])
  }

  /** The slices are non-empty, in order and disjoint, they reach from the first to the last character of the text,
      and only whitespace lies between them. */
  ghost predicate Partition(s: string, cuts: seq<Cut>) {
    (forall k :: 0 <= k < |cuts| ==> Part(s, cuts, k)) && StartOf(cuts, |cuts|) == |s|
  }

  ghost predicate Part(s: string, cuts: seq<Cut>, k: nat)
    requires k < |cuts|
  {
    StartOf(cuts, k) == cuts[k].start < cuts[k].stop <= cuts[k].next <= |s| && Blank(s, cuts[k].stop, cuts[k].next)
  }

  lemma CutsPartition(s: string, limit: int)
    ensures Partition(s, Cuts(s, limit))
  {
    CutsChained(s, limit);
    var cuts := Cuts(s, limit);
    forall k | 0 <= k < |cuts|
      ensures Part(s, cuts, k)
    {
      assert Linked(s, Spans(s), limit, cuts, k);
    }
  }

  /** The source slices of the first `n` chunks, one after another. */
  ghost function Slices(s: string, cuts: seq<Cut>, n: nat): string
    requires n <= |cuts| && Partition(s, cuts)
  {
    if n == 0 then ""
    else
      assert Part(s, cuts, n - 1);
      Slices(s, cuts, n - 1) + s[cuts[n - 1].start..cuts[n - 1].stop]
  }

  /** A text without its whitespace. */
  function Solid(s: string): string {
    if s == "" then "" else (if IsWhitespace(s[0]) then "" else [s[0]]) + Solid(s[1..])
  }

  lemma {:induction false} SolidConcat(s: string, t: string)
    ensures Solid(s + t) == Solid(s) + Solid(t)
    decreases |s|
  {
    if s == "" {
      assert s + t == t;
    } else {
      assert (s + t)[1..] == s[1..] + t;
      SolidConcat(s[1..], t);
    }
  }

  lemma {:induction false} SolidBlank(s: string)
    requires forall i :: 0 <= i < |s| ==> IsWhitespace(s[i])
    ensures Solid(s) == ""
    decreases |s|
  {
    if s != "" {
      SolidBlank(s[1..]);
    }
  }

  lemma SolidTo(s: string, i: nat, j: nat)
    requires i <= j <= |s|
    ensures Solid(s[..j]) == Solid(s[..i]) + Solid(s[i..j])
  {
    assert s[..i] + s[i..j] == s[..j];
    SolidConcat(s[..i], s[i..j]);
  }

  /** One more slice: the solid text up to it, the slice, and the blank text dropped after it. */
  lemma SliceSolid(s: string, cut: Cut, slices: string)
    requires cut.start <= cut.stop <= cut.next <= |s| && forall i :: cut.stop <= i < cut.next ==> IsWhitespace(s[i])
    requires Solid(slices) == Solid(s[..cut.start])
    ensures Solid(slices + s[cut.start..cut.stop]) == Solid(s[..cut.next])
  {
    SolidConcat(slices, s[cut.start..cut.stop]);
    SolidTo(s, cut.start, cut.stop);
    SolidTo(s, cut.stop, cut.next);
    SolidBlank(s[cut.stop..cut.next]);
    assert Solid(s[..cut.stop]) + [] == Solid(s[..cut.stop]);
  }

  lemma {:induction false} SlicesSolid(s: string, cuts: seq<Cut>, n: nat)
    requires Partition(s, cuts) && n <= |cuts|
    ensures StartOf(cuts, n) <= |s|
    ensures Solid(Slices(s, cuts, n)) == Solid(s[..StartOf(cuts, n)])
  {
    if n > 0 {
      var cut := cuts[n - 1];
      assert Part(s, cuts, n - 1);
      SlicesSolid(s, cuts, n - 1);
      SliceSolid(s, cut, Slices(s, cuts, n - 1));
    }
  }

  /** Conservation: without the added opening and closing lines the chunks hold the whole text, in order, up to
      whitespace dropped at the cuts. */
  lemma Conservation(s: string, limit: int)
    ensures
      var cuts := Cuts(s, limit);
      && Partition(s, cuts)
      && Solid(Slices(s, cuts, |cuts|)) == Solid(s)
  {
    CutsPartition(s, limit);
    var cuts := Cuts(s, limit);
    SlicesSolid(s, cuts, |cuts|);
    assert s[..|s|] == s;
  }

  // ----- Closing and reopening lines -----

  /** Whether the rest of the text after cut `k` starts a further chunk. */
  predicate IsFinal(s: string, limit: int, cut: Cut) {
    |s| - cut.start <= ContentLimit(limit, cut.reopen)
  }

  /** A cut that does not exhaust the text gets a closing line exactly when it breaks strictly inside a fence, that
      of this fence, and the next chunk then starts with the opening line of the same fence. */
  ghost predicate Paired(s: string, limit: int, cuts: seq<Cut>, k: nat)
    requires k < |cuts|
  {
    var cut := cuts[k];
    && (IsFinal(s, limit, cut) ==> cut.split.None? && cut.stop == |s|)
    && (!IsFinal(s, limit, cut) ==> cut.stop < |s| && cut.split == SpanAt(Spans(s), cut.stop))
    && (k + 1 < |cuts| ==> cuts[k + 1].reopen == cut.split)
  }

  lemma BreakAtFence(s: string, spans: seq<FenceSpan>, start: nat, content: nat)
    requires SpansOk(s, spans) && 0 < content && start + content < |s|
    ensures
      var r := BreakAt(s, spans, start, content);
      r.1 == SpanAt(spans, r.0) && (r.1.Some? ==> r.1.value.marker != "")
  {
    SoftBreakIsSafe(s, spans, start, start + content);
    var f := SpanAt(spans, start + content);
    if f.Some? {
      SplitStaysInside(s, spans, start, content, f.value);
    }
  }

  lemma SplitStaysInside(s: string, spans: seq<FenceSpan>, start: nat, content: nat, f: FenceSpan)
    requires SpansOk(s, spans) && 0 < content && start + content < |s| && SpanAt(spans, start + content) == Some(f)
    ensures SpanAt(spans, FenceBreak(s, start, content, f)) == Some(f) && f.marker != ""
  {
    SpanFound(s, spans, start + content);
    FenceBreakStaysInside(s, spans, start, content, f);
  }

  lemma ClosingPairsReopening(s: string, limit: int, k: nat)
    requires k < |Cuts(s, limit)|
    ensures Paired(s, limit, Cuts(s, limit), k)
  {
    CutsChained(s, limit);
    var cuts := Cuts(s, limit);
    var cut := cuts[k];
    assert Linked(s, Spans(s), limit, cuts, k);
    assert k + 1 < |cuts| ==> Linked(s, Spans(s), limit, cuts, k + 1);
    if !IsFinal(s, limit, cut) {
      ParsedSpansOk(s);
      BreakAtFence(s, Spans(s), cut.start, ContentLimit(limit, cut.reopen));
    }
  }

  // ----- Lengths -----

  /** Splitting `f` leaves no room for its closing line: the guards of the two fallbacks of the fence break, and the
      one position at which the forced break is a character too late. */
  predicate Crowded(s: string, start: nat, content: nat, f: FenceSpan)
    requires start + content < |s|
  {
    var room := LastRoom(start, content, f);
    var first := FirstBreak(s, start, f);
    room <= start || (LastBelow(s, '\n', room + 1) + 1 < first && room < first)
  }

  /** The fence break of an uncrowded split leaves exactly the room that the closing line takes. */
  lemma FenceBreakRoom(s: string, start: nat, content: nat, f: FenceSpan)
    requires 0 < content && start + content < |s| && f.marker != ""
    ensures
      var stop := FenceBreak(s, start, content, f);
      var added := |CloseLine(f)| + if s[stop - 1] == '\n' then 0 else 1;
      stop - start + added <= content <==> !Crowded(s, start, content, f)
  {
  }

  function Added(s: string, cut: Cut): nat
    requires cut.start < cut.stop <= |s|
  {
    if cut.split.None? then 0
    else |CloseLine(cut.split.value)| + if s[cut.stop - 1] == '\n' then 0 else 1
  }

  lemma RenderLength(s: string, cut: Cut)
    requires cut.start < cut.stop <= |s|
    ensures |Render(s, cut)| == |Prefix(cut.reopen)| + (cut.stop - cut.start) + Added(s, cut)
  {}

  /** The exact length bound of one chunk. */
  lemma ChunkLength(s: string, limit: int, start: nat, reopen: Option<FenceSpan>)
    requires 0 < limit && start < |s|
    ensures
      var cut := NextCut(s, limit, Spans(s), start, reopen);
      var content := ContentLimit(limit, reopen);
      && (|Render(s, cut)| <= limit <==>
            && |Prefix(reopen)| < limit
            && (cut.split.Some? ==> !Crowded(s, start, content, cut.split.value)))
      && (|Prefix(reopen)| < limit ==>
            |Render(s, cut)| <= limit + if cut.split.Some? then |CloseLine(cut.split.value)| + 1 else 0)
  {
    var cut := NextCut(s, limit, Spans(s), start, reopen);
    var content := ContentLimit(limit, reopen);
    RenderLength(s, cut);
    assert cut.stop <= start + content;
    if cut.split.Some? {
      assert |s| - start > content;
      ParsedSpansOk(s);
      BreakAtFence(s, Spans(s), start, content);
      FenceBreakRoom(s, start, content, cut.split.value);
      assert cut.stop == FenceBreak(s, start, content, cut.split.value);
    }
  }

  /** A split is crowded only where the text goes on beyond the window. */
  lemma AllChunksWithinLimit(s: string, limit: int, chunks: seq<string>)
    requires 0 < limit < |s| && IsChunking(s, limit, chunks)
    ensures
      var cuts := Cuts(s, limit);
      (forall k :: 0 <= k < |chunks| ==> |chunks[k]| <= limit) <==>
        forall k :: 0 <= k < |cuts| ==> Fits(s, limit, cuts[k])
  {
    var cuts := Cuts(s, limit);
    CutsChained(s, limit);
    forall k | 0 <= k < |cuts|
      ensures |chunks[k]| <= limit <==> Fits(s, limit, cuts[k])
    {
      assert Linked(s, Spans(s), limit, cuts, k);
      ChunkLength(s, limit, cuts[k].start, cuts[k].reopen);
    }
  }

  /** The reopened line leaves room for content, and the split, if any, leaves room for the closing line. */
  predicate Fits(s: string, limit: int, cut: Cut) {
    && |Prefix(cut.reopen)| < limit
    && (cut.split.Some? ==>
          && cut.start + ContentLimit(limit, cut.reopen) < |s|
          && !Crowded(s, cut.start, ContentLimit(limit, cut.reopen), cut.split.value))
  }
}
