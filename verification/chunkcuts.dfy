/** Where every chunking of every text is cut, said of the text's characters and its fences alone. */
module ChunkCuts {
  import opened Text
  import opened Fences
  import opened Chunker
  import opened ChunkProperties

  // ----- Parentheses -----

  /** How many more parentheses open than close in `[j, i)`, outside fences. */
  ghost function Opened(s: string, spans: seq<FenceSpan>, j: nat, i: nat): int
    requires j <= i <= |s|
  {
    if i == j then 0
    else Opened(s, spans, j, i - 1) + (if !Outside(spans, i - 1) then 0
                                       else if s[i - 1] == '(' then 1
                                       else if s[i - 1] == ')' then -1
                                       else 0)
  }

  /** No stretch of the slice up to `i` opens more parentheses than it closes: none of them is still open. */
  ghost predicate NoneOpen(s: string, spans: seq<FenceSpan>, start: nat, i: nat)
    requires start <= i <= |s|
  {
    forall j: nat {:trigger Opened(s, spans, j, i)} :: start <= j <= i ==> Opened(s, spans, j, i) <= 0
  }

  ghost predicate IsDepth(s: string, spans: seq<FenceSpan>, start: nat, i: nat, d: nat)
    requires start <= i <= |s|
  {
    && (forall j: nat {:trigger Opened(s, spans, j, i)} :: start <= j <= i ==> Opened(s, spans, j, i) <= d)
    && (exists j: nat :: start <= j <= i && Opened(s, spans, j, i) == d)
  }

  lemma DepthStep(s: string, spans: seq<FenceSpan>, start: nat, i: nat, d: nat, d': nat)
    requires start < i <= |s| && IsDepth(s, spans, start, i - 1, d)
    requires d' == if !Outside(spans, i - 1) then d
                   else if s[i - 1] == '(' then d + 1
                   else if s[i - 1] == ')' && d > 0 then d - 1
                   else d
    ensures IsDepth(s, spans, start, i, d')
  {
    forall j: nat | start <= j <= i
      ensures Opened(s, spans, j, i) <= d'
    {
      assert j < i ==> Opened(s, spans, j, i - 1) <= d;
    }
    var j: nat :| start <= j <= i - 1 && Opened(s, spans, j, i - 1) == d;
    assert Opened(s, spans, j, i) == d' || Opened(s, spans, i, i) == d';
  }

  /** The depth is the most that any stretch up to `i` leaves open. */
  lemma {:induction false} DepthIs(s: string, spans: seq<FenceSpan>, start: nat, i: nat)
    requires start <= i <= |s|
    ensures IsDepth(s, spans, start, i, Depth(s, spans, start, i))
    decreases i
  {
    if i == start {
      assert Opened(s, spans, i, i) == 0;
    } else {
      DepthIs(s, spans, start, i - 1);
      DepthStep(s, spans, start, i, Depth(s, spans, start, i - 1), Depth(s, spans, start, i));
    }
  }

  // ----- Breaks -----

  /** Whitespace strictly after the slice's start, outside fences and parentheses. */
  ghost predicate MayBreak(s: string, spans: seq<FenceSpan>, start: nat, i: nat, newline: bool)
    requires start < i < |s|
  {
    && IsWhitespace(s[i]) && (s[i] == '\n' <==> newline)
    && Outside(spans, i) && NoneOpen(s, spans, start, i)
  }

  ghost predicate NoBreak(s: string, spans: seq<FenceSpan>, start: nat, end: nat, newline: bool)
    requires start <= end <= |s|
  {
    forall i: nat :: start < i < end ==> !MayBreak(s, spans, start, i, newline)
  }

  ghost predicate IsLastBreak(s: string, spans: seq<FenceSpan>, start: nat, end: nat, newline: bool, b: nat)
    requires start <= end <= |s|
  {
    && start < b < end && MayBreak(s, spans, start, b, newline)
    && forall i: nat :: b < i < end ==> !MayBreak(s, spans, start, i, newline)
  }

  lemma SoftIsMayBreak(s: string, spans: seq<FenceSpan>, start: nat, i: nat, newline: bool)
    requires start < i < |s|
    ensures SoftAt(s, spans, start, i, newline) <==> MayBreak(s, spans, start, i, newline)
  {
    DepthIs(s, spans, start, i);
    assert Opened(s, spans, i, i) == 0;
  }

  /** `b` is the last break of its kind in the window, or no position after the start at all if there is none. */
  ghost predicate LastBreakIs(s: string, spans: seq<FenceSpan>, start: nat, end: nat, newline: bool, b: int)
    requires start <= end <= |s|
  {
    if b > start then IsLastBreak(s, spans, start, end, newline, b) else NoBreak(s, spans, start, end, newline)
  }

  lemma LastSoftIsLastBreak(s: string, spans: seq<FenceSpan>, start: nat, end: nat, newline: bool)
    requires start <= end <= |s|
    ensures LastBreakIs(s, spans, start, end, newline, LastSoft(s, spans, start, end, newline))
  {
    forall i: nat | start < i < end
      ensures SoftAt(s, spans, start, i, newline) <==> MayBreak(s, spans, start, i, newline)
    {
      SoftIsMayBreak(s, spans, start, i, newline);
    }
  }

  /** The window's end is in the fence `f`, which is split: at the last position after a newline, if one leaves room
      for the closing line and comes after the start of the fence's code; else where the closing line and a newline
      just fit, or later, at the first position in the code; and at the window's end when that leaves no room. */
  ghost predicate SplitsFence(s: string, f: FenceSpan, start: nat, end: nat, stop: nat)
    requires end <= |s|
  {
    var room := end - |f.indent + f.marker| - 1;
    var first := Min(|s|, Max(start + 1, f.start + |f.openLine| + 2));
    if room <= start then stop == end
    else if exists b: nat :: AfterNewline(s, first, room, b) then
      AfterNewline(s, first, room, stop) && forall b: nat :: AfterNewline(s, first, room, b) ==> b <= stop
    else stop == if first <= room + 1 then Max(first, room) else end
  }

  /** A newline stands before `b`, at or before `room`. */
  predicate AfterNewline(s: string, first: int, room: int, b: nat) {
    first <= b <= room + 1 && 0 < b <= |s| && s[b - 1] == '\n'
  }

  lemma FenceBreakSplits(s: string, start: nat, content: nat, f: FenceSpan)
    requires 0 < content && start + content < |s|
    ensures SplitsFence(s, f, start, start + content, FenceBreak(s, start, content, f))
  {
    var room := LastRoom(start, content, f);
    var first := FirstBreak(s, start, f);
    if room > start {
      var newline := LastBelow(s, '\n', room + 1);
      forall b: nat | AfterNewline(s, first, room, b)
        ensures b <= newline + 1
      {
        assert s[b - 1] == '\n';
      }
      if newline + 1 >= first {
        assert AfterNewline(s, first, room, newline + 1);
      }
    }
  }

  /** Where the window of a cut ends: the reopened line and its newline take their part of the limit, but not all. */
  function WindowEnd(limit: int, cut: Cut): nat {
    cut.start + Max(1, limit - match cut.reopen case None => 0 case Some(f) => |f.openLine| + 1)
  }

  ghost predicate HardStop(s: string, spans: seq<FenceSpan>, cut: Cut, end: nat)
    requires end <= |s|
  {
    if Outside(spans, end) then cut.stop == end && cut.split.None?
    else
      && cut.split.Some? && cut.split.value in spans && Within(cut.split.value, end)
      && SplitsFence(s, cut.split.value, cut.start, end, cut.stop)
  }

  /** A cut stops at the last newline of its window that is outside fences and parentheses, else at the last other
      such whitespace, else at the end of the window or where the fence there is split. */
  ghost predicate StopsRight(s: string, spans: seq<FenceSpan>, cut: Cut, end: nat)
    requires cut.start <= end <= |s|
  {
    if !NoBreak(s, spans, cut.start, end, true) then
      IsLastBreak(s, spans, cut.start, end, true, cut.stop) && cut.split.None?
    else if !NoBreak(s, spans, cut.start, end, false) then
      IsLastBreak(s, spans, cut.start, end, false, cut.stop) && cut.split.None?
    else HardStop(s, spans, cut, end)
  }

  /** The next slice starts after one whitespace character, and outside fences after all the newlines that follow. */
  ghost predicate ResumesRight(s: string, cut: Cut)
    requires cut.stop < |s|
  {
    var after := if IsWhitespace(s[cut.stop]) then cut.stop + 1 else cut.stop;
    if cut.split.Some? then cut.next == after
    else
      && after <= cut.next <= |s| && (forall i :: after <= i < cut.next ==> s[i] == '\n')
      && (cut.next < |s| ==> s[cut.next] != '\n')
  }

  ghost predicate BreaksRight(s: string, spans: seq<FenceSpan>, cut: Cut, end: nat) {
    cut.start <= end <= |s| && cut.stop < |s| && StopsRight(s, spans, cut, end) && ResumesRight(s, cut)
  }

  /** A rest that fits is the last slice; any other slice is broken off. */
  ghost predicate CutRight(s: string, spans: seq<FenceSpan>, cut: Cut, end: nat) {
    cut.start < cut.stop
    && if |s| <= end then cut.stop == cut.next == |s| && cut.split.None? else BreaksRight(s, spans, cut, end)
  }

  lemma SoftStopIsRight(s: string, spans: seq<FenceSpan>, cut: Cut, end: nat, newline: bool)
    requires cut.start <= end <= |s| && IsLastBreak(s, spans, cut.start, end, newline, cut.stop) && cut.split.None?
    requires !newline ==> NoBreak(s, spans, cut.start, end, true)
    ensures StopsRight(s, spans, cut, end)
  {}

  lemma HardStopIsRight(s: string, spans: seq<FenceSpan>, cut: Cut, end: nat)
    requires cut.start <= end <= |s| && HardStop(s, spans, cut, end)
    requires NoBreak(s, spans, cut.start, end, true) && NoBreak(s, spans, cut.start, end, false)
    ensures StopsRight(s, spans, cut, end)
  {}

  /** The stop and the split fence, given the last breaks of both kinds. */
  ghost predicate Chosen(s: string, spans: seq<FenceSpan>, cut: Cut, content: nat, newline: int, other: int)
    requires 0 < content && cut.start + content < |s|
  {
    var f := SpanAt(spans, cut.start + content);
    if newline > cut.start then cut.stop == newline && cut.split.None?
    else if other > cut.start then cut.stop == other && cut.split.None?
    else if f.None? then cut.stop == cut.start + content && cut.split.None?
    else cut.stop == FenceBreak(s, cut.start, content, f.value) && cut.split == f
  }

  lemma BreakIsChosen(s: string, spans: seq<FenceSpan>, cut: Cut, content: nat)
    requires 0 < content && cut.start + content < |s|
    requires (cut.stop, cut.split) == BreakAt(s, spans, cut.start, content)
    ensures
      var end := cut.start + content;
      Chosen(s, spans, cut, content, LastSoft(s, spans, cut.start, end, true),
             LastSoft(s, spans, cut.start, end, false))
  {}

  lemma HardStopOf(s: string, spans: seq<FenceSpan>, cut: Cut, content: nat, newline: int, other: int)
    requires 0 < content && cut.start + content < |s|
    requires Chosen(s, spans, cut, content, newline, other) && newline <= cut.start && other <= cut.start
    ensures HardStop(s, spans, cut, cut.start + content)
  {
    var f := SpanAt(spans, cut.start + content);
    if f.Some? {
      FenceBreakSplits(s, cut.start, content, f.value);
    }
  }

  lemma ChosenIsRight(s: string, spans: seq<FenceSpan>, cut: Cut, content: nat, newline: int, other: int)
    requires 0 < content && cut.start + content < |s|
    requires Chosen(s, spans, cut, content, newline, other)
    requires LastBreakIs(s, spans, cut.start, cut.start + content, true, newline)
    requires LastBreakIs(s, spans, cut.start, cut.start + content, false, other)
    ensures StopsRight(s, spans, cut, cut.start + content)
  {
    if newline > cut.start {
      SoftStopIsRight(s, spans, cut, cut.start + content, true);
    } else if other > cut.start {
      SoftStopIsRight(s, spans, cut, cut.start + content, false);
    } else {
      HardStopOf(s, spans, cut, content, newline, other);
      HardStopIsRight(s, spans, cut, cut.start + content);
    }
  }

  lemma BreakStopsRight(s: string, spans: seq<FenceSpan>, cut: Cut, content: nat)
    requires 0 < content && cut.start + content < |s|
    requires (cut.stop, cut.split) == BreakAt(s, spans, cut.start, content)
    ensures StopsRight(s, spans, cut, cut.start + content)
  {
    var end := cut.start + content;
    LastSoftIsLastBreak(s, spans, cut.start, end, true);
    LastSoftIsLastBreak(s, spans, cut.start, end, false);
    BreakIsChosen(s, spans, cut, content);
    ChosenIsRight(s, spans, cut, content, LastSoft(s, spans, cut.start, end, true),
                  LastSoft(s, spans, cut.start, end, false));
  }

  lemma ResumeIsRight(s: string, cut: Cut)
    requires cut.stop < |s| && cut.next == Resume(s, cut.stop, cut.split)
    ensures ResumesRight(s, cut)
  {}

  ghost predicate Unfolded(s: string, spans: seq<FenceSpan>, cut: Cut, content: nat) {
    && 0 < content && cut.start < cut.stop
    && if |s| <= cut.start + content then cut.stop == cut.next == |s| && cut.split.None?
       else
         && (cut.stop, cut.split) == BreakAt(s, spans, cut.start, content)
         && cut.stop < |s| && cut.next == Resume(s, cut.stop, cut.split)
  }

  lemma CutUnfolds(s: string, limit: int, spans: seq<FenceSpan>, cut: Cut, content: nat)
    requires cut.start < |s| && cut == NextCut(s, limit, spans, cut.start, cut.reopen)
    requires content == ContentLimit(limit, cut.reopen)
    ensures Unfolded(s, spans, cut, content)
  {}

  lemma UnfoldedIsRight(s: string, spans: seq<FenceSpan>, cut: Cut, content: nat, end: nat)
    requires Unfolded(s, spans, cut, content) && end == cut.start + content
    ensures CutRight(s, spans, cut, end)
  {
    if end < |s| {
      BreakStopsRight(s, spans, cut, content);
      ResumeIsRight(s, cut);
    }
  }

  lemma WindowIs(limit: int, cut: Cut)
    ensures WindowEnd(limit, cut) == cut.start + ContentLimit(limit, cut.reopen)
  {}

  /** The cut starts where the one before it resumed, with the fence reopened that the one before it split. */
  ghost predicate Follows(cuts: seq<Cut>, k: nat)
    requires k < |cuts|
  {
    cuts[k].start == StartOf(cuts, k) && cuts[k].reopen == ReopenOf(cuts, k)
  }

  lemma LinkedUnfolds(s: string, limit: int, spans: seq<FenceSpan>, cuts: seq<Cut>, k: nat)
    requires k < |cuts| && Linked(s, spans, limit, cuts, k)
    ensures Follows(cuts, k) && cuts[k].start < |s|
    ensures cuts[k] == NextCut(s, limit, spans, cuts[k].start, cuts[k].reopen)
  {}

  lemma NextCutRight(s: string, limit: int, spans: seq<FenceSpan>, cut: Cut, content: nat, end: nat)
    requires cut.start < |s| && cut == NextCut(s, limit, spans, cut.start, cut.reopen)
    requires content == ContentLimit(limit, cut.reopen) && end == cut.start + content
    ensures CutRight(s, spans, cut, end)
  {
    CutUnfolds(s, limit, spans, cut, content);
    UnfoldedIsRight(s, spans, cut, content, end);
  }

  lemma LinkedIsRight(s: string, limit: int, spans: seq<FenceSpan>, cuts: seq<Cut>, k: nat)
    requires k < |cuts| && Linked(s, spans, limit, cuts, k)
    ensures Follows(cuts, k) && CutRight(s, spans, cuts[k], WindowEnd(limit, cuts[k]))
  {
    LinkedUnfolds(s, limit, spans, cuts, k);
    WindowIs(limit, cuts[k]);
    NextCutRight(s, limit, spans, cuts[k], ContentLimit(limit, cuts[k].reopen), WindowEnd(limit, cuts[k]));
  }

  /** Every cut of every text: it starts where the one before it resumed, reopens the fence that one split, and stops
      and resumes where it should. */
  lemma CutsAreRight(s: string, limit: int, cuts: seq<Cut>, k: nat)
    requires cuts == Cuts(s, limit) && k < |cuts|
    ensures Follows(cuts, k) && CutRight(s, Spans(s), cuts[k], WindowEnd(limit, cuts[k]))
  {
    CutsChained(s, limit);
    LinkedIsRight(s, limit, Spans(s), cuts, k);
  }

  /** The text of a chunk: the opening line of the fence it reopens, its slice, and the closing line, on a line of its
      own and indented as the opening one, of the fence it splits. */
  ghost predicate IsChunkOf(s: string, cut: Cut, chunk: string)
    requires cut.start < cut.stop <= |s|
  {
    exists opening: string, closing: string ::
      && chunk == opening + s[cut.start..cut.stop] + closing
      && opening == (match cut.reopen case None => "" case Some(f) => f.openLine + "\n")
      && closing == (match cut.split
                     case None => ""
                     case Some(f) => (if s[cut.stop - 1] == '\n' then "" else "\n") + (f.indent + f.marker))
  }

  lemma RenderIsChunk(s: string, cut: Cut)
    requires cut.start < cut.stop <= |s|
    ensures IsChunkOf(s, cut, Render(s, cut))
  {
    var opening := match cut.reopen case None => "" case Some(f) => f.openLine + "\n";
    var closing := match cut.split
                   case None => ""
                   case Some(f) => (if s[cut.stop - 1] == '\n' then "" else "\n") + (f.indent + f.marker);
    if cut.split.Some? {
      assert "" + CloseLine(cut.split.value) == CloseLine(cut.split.value);
    }
    assert Render(s, cut) == opening + s[cut.start..cut.stop] + closing;
  }

  ghost predicate IsChunkAt(s: string, limit: int, cuts: seq<Cut>, chunks: seq<string>, k: nat)
    requires k < |cuts| == |chunks|
  {
    && Follows(cuts, k) && CutRight(s, Spans(s), cuts[k], WindowEnd(limit, cuts[k]))
    && cuts[k].stop <= |s| && IsChunkOf(s, cuts[k], chunks[k])
  }

  /** The chunks of every text that does not fit: each is that of a cut that starts where the one before it resumed,
      reopens the fence that one split, and stops and resumes where it should. */
  lemma ChunksAreRight(s: string, limit: int, chunks: seq<string>) returns (cuts: seq<Cut>)
    requires 0 < limit < |s| && IsChunking(s, limit, chunks)
    ensures |cuts| == |chunks| > 0 && cuts[|cuts| - 1].next == |s|
    ensures forall k {:trigger IsChunkAt(s, limit, cuts, chunks, k)} ::
              0 <= k < |cuts| ==> IsChunkAt(s, limit, cuts, chunks, k)
  {
    cuts := Cuts(s, limit);
    CutsChained(s, limit);
    forall k | 0 <= k < |cuts|
      ensures IsChunkAt(s, limit, cuts, chunks, k)
    {
      CutsAreRight(s, limit, cuts, k);
      RenderIsChunk(s, cuts[k]);
    }
  }
}
