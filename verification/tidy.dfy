/** Where a text can be cut in two without changing what its fence lines mean. */
module Tidy {
  import opened Text
  import opened Fences

  /** The fence state that a reader holds just before position `i`. */
  function StateAt(s: string, i: nat): Fence
    requires i <= |s|
  {
    Settle(At(s, i))
  }

  // ----- Tidy lines: long runs of fence characters only as the marker of a fence line -----

  predicate TripleAt(s: string, k: nat) {
    k + 2 < |s| && IsFenceChar(s[k]) && s[k] == s[k + 1] == s[k + 2]
  }

  predicate NoTriples(s: string, from: nat) {
    forall k :: from <= k < |s| ==> !TripleAt(s, k)
  }

  predicate TidyLine(line: string) {
    var m := MatchFenceLine(line);
    NoTriples(line, if m.Some? then |m.value.indent| + |m.value.marker| else 0)
  }

  /** Every line is tidy. */
  ghost predicate TidyText(s: string) {
    forall i {:trigger LineOf(s, i)} :: 0 <= i <= |s| ==> TidyLine(LineOf(s, i))
  }

  /** The marker of a fence line is the whole run of its character, and the line goes on with another one. */
  lemma MarkerIsRun(line: string, i: nat)
    requires MatchFenceLine(line).Some? && i < |line|
    ensures
      var m := MatchFenceLine(line).value;
      var b, e := |m.indent|, |m.indent| + |m.marker|;
      && (i < b ==> line[i] == ' ')
      && (b <= i < e ==> line[i] == m.marker[0])
      && (i == e ==> line[i] != m.marker[0])
  {}

  /** No piece of a tidy line is a stronger fence line than the line itself. */
  lemma PieceMatch(line: string, k: nat, j: nat)
    requires TidyLine(line) && k <= j <= |line| && MatchFenceLine(line[k..j]).Some?
    ensures
      var m := MatchFenceLine(line);
      var m' := MatchFenceLine(line[k..j]).value;
      m.Some? && m'.marker[0] == m.value.marker[0] && |m'.marker| <= |m.value.marker|
  {
    var piece := line[k..j];
    var m' := MatchFenceLine(piece).value;
    var a, n := k + |m'.indent|, |m'.marker|;
    forall p | a <= p < a + n
      ensures line[p] == m'.marker[0]
    {
      assert m'.marker[p - a] == piece[p - k] == line[p];
    }
    MarkerWithin(line, a, n, m'.marker[0]);
  }

  /** A run of three or more in a tidy line lies within the marker. */
  lemma MarkerWithin(line: string, a: nat, n: nat, c: char)
    requires TidyLine(line) && 3 <= n && a + n <= |line| && IsFenceChar(c)
    requires forall p :: a <= p < a + n ==> line[p] == c
    ensures
      var m := MatchFenceLine(line);
      m.Some? && c == m.value.marker[0] && n <= |m.value.marker|
  {
    assert TripleAt(line, a);
    var m := MatchFenceLine(line).value;
    var e := |m.indent| + |m.marker|;
    assert a < e;
    MarkerIsRun(line, a);
    if a + n > e {
      MarkerIsRun(line, e);
    }
  }

  // ----- Cutting a line in two -----

  /** Reading the line up to `k` in two pieces, cut at `i`, has the same effect as reading it whole. */
  predicate SameStep(s: string, i: nat, k: nat)
    requires i <= k <= |s|
  {
    StepLine(StateAt(s, i), s[i..k]) == StepLine(At(s, i).fence, At(s, i).line + s[i..k])
  }

  ghost predicate Splittable(s: string, i: nat)
    requires i <= |s|
  {
    forall k {:trigger SameStep(s, i, k)} :: i <= k <= LineEnd(s, i) ==> SameStep(s, i, k)
  }

  lemma {:induction false} RunInLine(sc: Scan, t: string)
    requires forall k :: 0 <= k < |t| ==> t[k] != '\n'
    ensures Run(sc, t) == Scan(sc.fence, sc.line + t)
    decreases |t|
  {
    if t == "" {
      assert sc.line + t == sc.line;
    } else {
      RunInLine(StepChar(sc, t[0]), t[1..]);
      assert sc.line + [t[0]] + t[1..] == sc.line + t;
    }
  }

  lemma RejoinInLine(s: string, i: nat, j: nat)
    requires i <= |s| && i <= j <= LineEnd(s, i) && Splittable(s, i)
    ensures Run(Scan(StateAt(s, i), ""), s[i..j]) == Scan(StateAt(s, i), s[i..j])
    ensures StepLine(StateAt(s, i), s[i..j]) == StateAt(s, j)
  {
    RunInLine(Scan(StateAt(s, i), ""), s[i..j]);
    AtWithinLine(s, i, j);
    assert "" + s[i..j] == s[i..j];
    assert SameStep(s, i, j);
  }

  lemma RunFirst(sc: Scan, s: string, i: nat, j: nat)
    requires i < j <= |s|
    ensures Run(sc, s[i..j]) == Run(StepChar(sc, s[i]), s[i + 1..j])
  {
    assert s[i..j][1..] == s[i + 1..j];
  }

  lemma RunSplit(sc: Scan, s: string, i: nat, e: nat, j: nat)
    requires i <= e <= j <= |s|
    ensures Run(sc, s[i..j]) == Run(Run(sc, s[i..e]), s[e..j])
  {
    RunConcat(sc, s[i..e], s[e..j]);
    SliceConcat(s, i, e, j);
  }

  /** Starting afresh at a splittable position, in the state held there, a reader is in the right state ever after. */
  lemma Rejoin(s: string, i: nat, j: nat)
    requires i <= j <= |s| && Splittable(s, i)
    ensures Settle(Run(Scan(StateAt(s, i), ""), s[i..j])) == StateAt(s, j)
  {
    var e := LineEnd(s, i);
    if j <= e {
      RejoinInLine(s, i, j);
    } else {
      var anew := Scan(StateAt(s, i), "");
      RejoinInLine(s, i, e);
      RunSplit(anew, s, i, e, j);
      RunFirst(Run(anew, s[i..e]), s, e, j);
      assert StepChar(Run(anew, s[i..e]), '\n') == At(s, e + 1);
      RunSlice(s, e + 1, j);
    }
  }

  /** A cut at `i` falls at either end of its line, within the indent of a fence line, or in a line without effect. */
  predicate Cuttable(s: string, i: nat)
    requires i <= |s|
  {
    var m := MatchFenceLine(LineOf(s, i));
    || At(s, i).line == ""
    || i == LineEnd(s, i)
    || NextFence(s, i) == At(s, i).fence
    || (m.Some? && |At(s, i).line| <= |m.value.indent|)
  }

  /** A piece of a line without effect has no effect. */
  lemma PieceOfIdleLine(line: string, st: Fence, k: nat, j: nat)
    requires TidyLine(line) && StepLine(st, line) == st && k <= j <= |line|
    ensures StepLine(st, line[k..j]) == st
  {
    if MatchFenceLine(line[k..j]).Some? {
      PieceMatch(line, k, j);
    }
  }

  lemma RunEndIs(s: string, c: char, from: nat, e: nat)
    requires from <= e <= |s|
    requires forall k :: from <= k < e ==> s[k] == c
    requires e == |s| || s[e] != c
    ensures RunEnd(s, c, from) == e
  {}

  lemma SameBarrier(u: string, w: string, e: nat)
    ensures HasDotBarrier(u + w, |u| + e) <==> HasDotBarrier(w, e)
  {
    var line := u + w;
    forall k | e <= k < |w| && IsDotBarrier(w[k])
      ensures HasDotBarrier(line, |u| + e)
    {
      assert line[|u| + k] == w[k];
    }
  }

  lemma StripMarker(u: string, w: string, n: nat)
    requires n < |w|
    ensures
      var line := u + w;
      var e := RunEnd(w, w[n], n);
      && line[|u| + n] == w[n]
      && RunEnd(line, w[n], |u| + n) == |u| + e
      && line[|u| + n..|u| + e] == w[n..e]
  {
    var line := u + w;
    var e := RunEnd(w, w[n], n);
    assert forall p :: |u| <= p < |line| ==> line[p] == w[p - |u|];
    RunEndIs(line, w[n], |u| + n, |u| + e);
  }

  lemma StripIndent(u: string, w: string)
    requires forall k :: 0 <= k < |u| ==> u[k] == ' '
    ensures RunEnd(u + w, ' ', 0) == |u| + RunEnd(w, ' ', 0)
  {
    RunEndIs(u + w, ' ', 0, |u| + RunEnd(w, ' ', 0));
  }

  /** Leading spaces before at most three of which a fence line stands do not matter. */
  lemma StripSpaces(u: string, w: string)
    requires forall k :: 0 <= k < |u| ==> u[k] == ' '
    requires |u| + RunEnd(w, ' ', 0) <= 3
    ensures StripSame(MatchFenceLine(u + w), MatchFenceLine(w))
  {
    var n := RunEnd(w, ' ', 0);
    StripIndent(u, w);
    if n < |w| {
      StripMarker(u, w, n);
      SameBarrier(u, w, RunEnd(w, w[n], n));
    }
  }

  lemma AllSpaces(u: string)
    requires forall k :: 0 <= k < |u| ==> u[k] == ' '
    ensures MatchFenceLine(u).None?
  {
    RunEndIs(u, ' ', 0, |u|);
  }

  predicate StripSame(m: Option<Mark>, m': Option<Mark>) {
    if m.None? then m'.None? else m'.Some? && m.value.marker == m'.value.marker
  }

  lemma Pieces(u: string, s: string, i: nat, k: nat, e: nat)
    requires i <= k <= e <= |s|
    ensures
      var line := u + s[i..e];
      && |line| == |u| + (e - i)
      && line[0..|u|] == u
      && line[|u|..|u| + (k - i)] == s[i..k]
      && line[0..|u| + (k - i)] == u + s[i..k]
  {
    var line := u + s[i..e];
    assert forall p :: |u| <= p < |line| ==> line[p] == s[i + (p - |u|)];
  }

  lemma LinePieces(s: string, i: nat, k: nat)
    requires i <= |s| && i <= k <= LineEnd(s, i)
    ensures
      var u := At(s, i).line;
      var line := LineOf(s, i);
      && |line| == |u| + (LineEnd(s, i) - i)
      && line[0..|u|] == u
      && line[|u|..|u| + (k - i)] == s[i..k]
      && line[0..|u| + (k - i)] == u + s[i..k]
  {
    Pieces(At(s, i).line, s, i, k, LineEnd(s, i));
  }

  /** A cut within the indent of a fence line leaves the fence line to the second piece. */
  lemma IndentSplits(s: string, i: nat, k: nat)
    requires i <= |s| && i <= k <= LineEnd(s, i)
    requires MatchFenceLine(LineOf(s, i)).Some?
    requires |At(s, i).line| <= |MatchFenceLine(LineOf(s, i)).value.indent|
    ensures StateAt(s, i) == At(s, i).fence && SameStep(s, i, k)
  {
    var u, v, line := At(s, i).line, s[i..k], LineOf(s, i);
    var n := |MatchFenceLine(line).value.indent|;
    LinePieces(s, i, k);
    forall p | 0 <= p < |u|
      ensures u[p] == ' '
    {
      assert line[0..|u|][p] == line[p];
      MarkerIsRun(line, p);
    }
    AllSpaces(u);
    MarkerIsRun(line, n);
    assert |v| > n - |u| ==> v[n - |u|] == line[n];
    StripSpaces(u, v);
    SameMarkSameStep(At(s, i).fence, u + v, v);
    assert StateAt(s, i) == At(s, i).fence;
  }

  lemma SameMarkSameStep(st: Fence, line: string, line': string)
    requires StripSame(MatchFenceLine(line), MatchFenceLine(line'))
    ensures StepLine(st, line) == StepLine(st, line')
  {}

  lemma IdlePiece(line: string, st: Fence, k: nat, j: nat, piece: string)
    requires TidyLine(line) && StepLine(st, line) == st && k <= j <= |line| && line[k..j] == piece
    ensures StepLine(st, piece) == st
  {
    PieceOfIdleLine(line, st, k, j);
  }

  /** Every piece of a tidy line that changes nothing changes nothing. */
  lemma IdlePieces(line: string, st: Fence, u: string, v: string, w: string)
    requires TidyLine(line) && StepLine(st, line) == st && |u| + |v| <= |line|
    requires line[0..|u|] == u && line[|u|..|u| + |v|] == v && line[0..|u| + |v|] == w
    ensures StepLine(st, u) == st && StepLine(st, v) == st && StepLine(st, w) == st
  {
    IdlePiece(line, st, 0, |u|, u);
    IdlePiece(line, st, |u|, |u| + |v|, v);
    IdlePiece(line, st, 0, |u| + |v|, w);
  }

  lemma IdleSplits(s: string, i: nat, k: nat)
    requires i <= |s| && i <= k <= LineEnd(s, i)
    requires TidyLine(LineOf(s, i)) && NextFence(s, i) == At(s, i).fence
    ensures StateAt(s, i) == At(s, i).fence && SameStep(s, i, k)
  {
    var u, v := At(s, i).line, s[i..k];
    LinePieces(s, i, k);
    IdlePieces(LineOf(s, i), At(s, i).fence, u, v, u + v);
  }

  lemma CuttableSplits(s: string, i: nat)
    requires i <= |s| && TidyText(s) && Cuttable(s, i)
    ensures Splittable(s, i)
  {
    assert TidyLine(LineOf(s, i));
    forall k | i <= k <= LineEnd(s, i)
      ensures SameStep(s, i, k)
    {
      var u := At(s, i).line;
      if u == "" {
        assert u + s[i..k] == s[i..k];
        assert StateAt(s, i) == At(s, i).fence;
      } else if i == LineEnd(s, i) {
        assert u + s[i..k] == u;
        assert StepLine(StateAt(s, i), "") == StateAt(s, i);
      } else if NextFence(s, i) == At(s, i).fence {
        IdleSplits(s, i, k);
      } else {
        IndentSplits(s, i, k);
      }
    }
  }

  /** Whitespace after a cuttable position can be dropped: the next position is cuttable, in the same state. */
  lemma DropBlank(s: string, i: nat)
    requires i < |s| && TidyText(s) && Cuttable(s, i) && IsWhitespace(s[i])
    ensures Cuttable(s, i + 1) && StateAt(s, i + 1) == StateAt(s, i)
  {
    if s[i] == '\n' {
      assert At(s, i + 1) == Scan(StateAt(s, i), "");
    } else {
      var line := LineOf(s, i);
      SameLine(s, i);
      assert TidyLine(line);
      if NextFence(s, i) == At(s, i).fence {
        IdleSplits(s, i, i);
        IdleSplits(s, i + 1, i + 1);
      } else {
        MarkerIsRun(line, |At(s, i).line|);
        MarkerIsRun(line, |MatchFenceLine(line).value.indent|);
        IndentSplits(s, i, i);
        IndentSplits(s, i + 1, i + 1);
      }
    }
  }

  lemma LineEndIs(s: string, i: nat, e: nat)
    requires i <= e <= |s| && (e == |s| || s[e] == '\n')
    requires forall k :: i <= k < e ==> s[k] != '\n'
    ensures LineEnd(s, i) == e
  {}

  lemma ShiftOne(u: string, s: string, i: nat, e: nat)
    requires i < e <= |s|
    ensures
      var line := u + s[i..e];
      && line == (u + [s[i]]) + s[i + 1..e]
      && line[|u|] == s[i] && u == line[0..|u|] && u + [s[i]] == line[0..|u| + 1]
  {}

  lemma SameLine(s: string, i: nat)
    requires i < |s| && s[i] != '\n'
    ensures At(s, i + 1) == Scan(At(s, i).fence, At(s, i).line + [s[i]])
    ensures LineOf(s, i + 1) == LineOf(s, i)
    ensures NextFence(s, i + 1) == NextFence(s, i)
    ensures LineEnd(s, i) == LineEnd(s, i + 1) > i
    ensures
      var u := At(s, i).line;
      && |u| < |LineOf(s, i)| && LineOf(s, i)[|u|] == s[i]
      && u == LineOf(s, i)[0..|u|] && u + [s[i]] == LineOf(s, i)[0..|u| + 1]
  {
    LineEndIs(s, i + 1, LineEnd(s, i));
    ShiftOne(At(s, i).line, s, i, LineEnd(s, i));
  }
}
