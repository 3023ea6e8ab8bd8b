/** What a JSONC text is made of, and what stripping makes of each piece: the lexical grammar, not the modes. */
module JsonPieces {
  import opened JsonComments

  // ----- String literals -----

  /** Characters that are neither quote nor backslash, and pairs of a backslash and any character. */
  predicate IsBody(b: string)
    decreases |b|
  {
    || b == ""
    || (b[0] != '"' && b[0] != '\\' && IsBody(b[1..]))
    || (b[0] == '\\' && |b| >= 2 && IsBody(b[2..]))
  }

  ghost predicate IsLiteral(lit: string) {
    |lit| >= 2 && lit[0] == '"' && lit[|lit| - 1] == '"' && IsBody(lit[1..|lit| - 1])
  }

  /** A literal that the text ends in, perhaps after a backslash. */
  ghost predicate IsOpenLiteral(lit: string) {
    && lit != "" && lit[0] == '"'
    && (IsBody(lit[1..]) || (|lit| >= 2 && lit[|lit| - 1] == '\\' && IsBody(lit[1..|lit| - 1])))
  }

  lemma Nothing(s: string)
    ensures s + "" == s && "" + s == s
  {}

  lemma Unescaped(b: string, rest: string)
    requires b != "" && b[0] != '"' && b[0] != '\\'
    ensures Strip(b + rest, Str) == [b[0]] + Strip(b[1..] + rest, Str)
  {
    assert (b + rest)[1..] == b[1..] + rest;
  }

  lemma Escaped(b: string, rest: string)
    requires |b| >= 2 && b[0] == '\\'
    ensures Strip(b + rest, Str) == b[..2] + Strip(b[2..] + rest, Str)
  {
    assert (b + rest)[1..][1..] == b[2..] + rest;
  }

  lemma Regroup(b: string, k: nat, rest: string)
    requires k <= |b|
    ensures b[..k] + (b[k..] + rest) == b + rest
  {}

  /** A literal's body is kept, and what follows it is still read as string. */
  lemma {:induction false} BodySurvives(b: string, rest: string)
    requires IsBody(b)
    ensures Strip(b + rest, Str) == b + Strip(rest, Str)
    decreases |b|
  {
    if b == "" {
      Nothing(rest);
      Nothing(Strip(rest, Str));
    } else if b[0] == '\\' {
      Escaped(b, rest);
      BodySurvives(b[2..], rest);
      Regroup(b, 2, Strip(rest, Str));
    } else {
      Unescaped(b, rest);
      BodySurvives(b[1..], rest);
      Regroup(b, 1, Strip(rest, Str));
    }
  }

  /** A string literal survives verbatim, whatever stands in it. */
  lemma LiteralSurvives(lit: string, rest: string)
    requires IsLiteral(lit)
    ensures Strip(lit + rest, Code) == lit + Strip(rest, Code)
  {
    var b := lit[1..|lit| - 1];
    assert lit == ['"'] + b + ['"'];
    BodySurvives(b, ['"'] + rest);
    assert (['"'] + rest)[1..] == rest;
    assert (lit + rest)[1..] == b + (['"'] + rest);
    assert lit + Strip(rest, Code) == ['"'] + (b + (['"'] + Strip(rest, Code)));
  }

  lemma OpenLiteralSurvives(lit: string)
    requires IsOpenLiteral(lit)
    ensures Strip(lit, Code) == lit
  {
    if IsBody(lit[1..]) {
      BodySurvives(lit[1..], "");
      assert lit[1..] + "" == lit[1..];
    } else {
      var b := lit[1..|lit| - 1];
      BodySurvives(b, ['\\']);
      assert ['\\'][1..] == "" && Strip(['\\'], Str) == ['\\'];
      assert b + ['\\'] == lit[1..];
    }
  }

  // ----- Comments -----

  ghost predicate IsOneLine(body: string) {
    forall k :: 0 <= k < |body| ==> body[k] != '\n' && body[k] != '\r'
  }

  /** The text of a line comment is dropped up to the first line end, or to the end of the text. */
  lemma {:induction false} LineCommentEnds(body: string, rest: string)
    requires IsOneLine(body) && (rest != "" ==> rest[0] == '\n' || rest[0] == '\r')
    ensures Strip(body + rest, LineComment) == Strip(rest, Code)
    decreases |body|
  {
    if body == "" {
      assert body + rest == rest;
    } else {
      LineCommentEnds(body[1..], rest);
      assert (body + rest)[1..] == body[1..] + rest;
    }
  }

  predicate ClosesAt(body: string, k: nat) {
    k + 2 <= |body| && body[k] == '*' && body[k + 1] == '/'
  }

  ghost predicate HasClose(body: string) {
    exists k: nat :: ClosesAt(body, k)
  }

  /** A block comment goes on at least up to its first closing mark, and keeps its line ends. */
  lemma {:induction false} BlockCommentGoesOn(body: string, rest: string)
    requires !HasClose(body) && (rest != "" ==> rest[0] == '*')
    ensures Strip(body + rest, BlockComment) == Newlines(body) + Strip(rest, BlockComment)
    decreases |body|
  {
    if body == "" {
      assert body + rest == rest && "" + Strip(rest, BlockComment) == Strip(rest, BlockComment);
    } else {
      var tail := body[1..];
      assert !HasClose(tail) by {
        assert forall k: nat :: ClosesAt(tail, k) ==> ClosesAt(body, k + 1);
      }
      BlockCommentGoesOn(tail, rest);
      assert !ClosesAt(body, 0);
      assert !ClosesBlock(body + rest);
      assert (body + rest)[1..] == tail + rest;
      BlockStep(body + rest);
      PrependLineEnd(body, Newlines(tail), Strip(rest, BlockComment));
    }
  }

  lemma BlockStep(s: string)
    requires s != "" && !ClosesBlock(s)
    ensures Strip(s, BlockComment) == (if IsNewline(s[0]) then [s[0]] else "") + Strip(s[1..], BlockComment)
  {}

  lemma PrependLineEnd(body: string, tail: string, rest: string)
    requires body != "" && tail == Newlines(body[1..])
    ensures (if IsNewline(body[0]) then [body[0]] else "") + (tail + rest) == Newlines(body) + rest
  {}

  // ----- The pieces of a text -----

  datatype Piece =
    | Plain(c: char)
    | Literal(text: string)
    | OpenLiteral(text: string)
    | ToLineEnd(body: string)
    | Block(body: string)
    | OpenBlock(body: string)

  function TextOf(p: Piece): string {
    match p
    case Plain(c) => [c]
    case Literal(text) => text
    case OpenLiteral(text) => text
    case ToLineEnd(body) => "//" + body
    case Block(body) => "/*" + body + "*/"
    case OpenBlock(body) => "/*" + body
  }

  /** What is left of a piece: of comments just the line ends. */
  function Kept(p: Piece): string {
    match p
    case Plain(c) => [c]
    case Literal(text) => text
    case OpenLiteral(text) => text
    case ToLineEnd(_) => ""
    case Block(body) => Newlines(body)
    case OpenBlock(body) => Newlines(body)
  }

  /** The piece is what it says, before the rest of the text. */
  ghost predicate IsPiece(p: Piece, rest: string) {
    match p
    case Plain(c) => c != '"' && (c == '/' && rest != "" ==> rest[0] != '/' && rest[0] != '*')
    case Literal(text) => IsLiteral(text)
    case OpenLiteral(text) => IsOpenLiteral(text) && rest == ""
    case ToLineEnd(body) => IsOneLine(body) && (rest != "" ==> rest[0] == '\n' || rest[0] == '\r')
    case Block(body) => !HasClose(body)
    case OpenBlock(body) => !HasClose(body) && rest == ""
  }

  function TextOfAll(ps: seq<Piece>): string {
    if ps == [] then "" else TextOf(ps[0]) + TextOfAll(ps[1..])
  }

  function KeptOfAll(ps: seq<Piece>): string {
    if ps == [] then "" else Kept(ps[0]) + KeptOfAll(ps[1..])
  }

  ghost predicate ArePieces(ps: seq<Piece>) {
    ps == [] || (IsPiece(ps[0], TextOfAll(ps[1..])) && ArePieces(ps[1..]))
  }

  lemma PlainStripped(c: char, rest: string)
    requires IsPiece(Plain(c), rest)
    ensures Strip([c] + rest, Code) == [c] + Strip(rest, Code)
  {
    assert ([c] + rest)[1..] == rest;
  }

  lemma LineStripped(body: string, rest: string)
    requires IsPiece(ToLineEnd(body), rest)
    ensures Strip("//" + body + rest, Code) == Strip(rest, Code)
  {
    assert ("//" + body + rest)[2..] == body + rest;
    LineCommentEnds(body, rest);
  }

  lemma BlockStripped(body: string, rest: string)
    requires !HasClose(body)
    ensures Strip("/*" + body + "*/" + rest, Code) == Newlines(body) + Strip(rest, Code)
  {
    var s, end := "/*" + body + "*/" + rest, "*/" + rest;
    assert s[2..] == body + end && end[2..] == rest;
    BlockCommentGoesOn(body, end);
  }

  lemma OpenBlockStripped(body: string)
    requires !HasClose(body)
    ensures Strip("/*" + body, Code) == Newlines(body)
  {
    assert ("/*" + body)[2..] == body && body + "" == body;
    BlockCommentGoesOn(body, "");
  }

  /** One piece, and the rest. */
  lemma PieceStripped(p: Piece, rest: string)
    requires IsPiece(p, rest)
    ensures Strip(TextOf(p) + rest, Code) == Kept(p) + Strip(rest, Code)
  {
    match p
    case Plain(c) => PlainStripped(c, rest);
    case Literal(text) => LiteralSurvives(text, rest);
    case OpenLiteral(text) =>
      OpenLiteralSurvives(text);
      Nothing(text);
    case ToLineEnd(body) =>
      LineStripped(body, rest);
      Nothing(Strip(rest, Code));
    case Block(body) => BlockStripped(body, rest);
    case OpenBlock(body) =>
      OpenBlockStripped(body);
      Nothing("/*" + body);
      Nothing(Newlines(body));
  }

  /** Stripping a text of pieces leaves what is left of each. */
  lemma {:induction false} PiecesStripped(ps: seq<Piece>)
    requires ArePieces(ps)
    ensures Strip(TextOfAll(ps), Code) == KeptOfAll(ps)
    decreases |ps|
  {
    if ps != [] {
      PieceStripped(ps[0], TextOfAll(ps[1..]));
      PiecesStripped(ps[1..]);
    }
  }

  // ----- Every text has pieces -----

  lemma {:induction false} BodyOf(s: string) returns (n: nat)
    ensures n <= |s| && IsBody(s[..n])
    ensures n == |s| || s[n] == '"' || (n + 1 == |s| && s[n] == '\\')
    decreases |s|
  {
    if s == "" || s[0] == '"' || (s[0] == '\\' && |s| == 1) {
      n := 0;
    } else if s[0] == '\\' {
      var m := BodyOf(s[2..]);
      n := m + 2;
      assert s[..n][2..] == s[2..][..m];
    } else {
      var m := BodyOf(s[1..]);
      n := m + 1;
      assert s[..n][1..] == s[1..][..m];
    }
  }

  lemma FirstLiteral(s: string) returns (p: Piece, rest: string)
    requires s != "" && s[0] == '"'
    ensures s == TextOf(p) + rest && IsPiece(p, rest) && |rest| < |s|
  {
    var n := BodyOf(s[1..]);
    var body := s[1..][..n];
    if n + 1 < |s| && s[n + 1] == '"' {
      p, rest := Literal(s[..n + 2]), s[n + 2..];
      assert s[..n + 2][1..n + 1] == body;
    } else {
      p, rest := OpenLiteral(s), "";
      assert s == s + "";
      assert n + 1 == |s| ==> body == s[1..];
      assert n + 2 == |s| ==> body == s[1..|s| - 1];
    }
  }

  lemma {:induction false} LineOf(s: string) returns (n: nat)
    ensures n <= |s| && IsOneLine(s[..n]) && (n < |s| ==> s[n] == '\n' || s[n] == '\r')
    decreases |s|
  {
    if s == "" || IsNewline(s[0]) {
      n := 0;
    } else {
      var m := LineOf(s[1..]);
      n := m + 1;
      assert forall k :: 0 < k < n ==> s[..n][k] == s[1..][..m][k - 1];
    }
  }

  /** The first closing mark, or the end of the text. */
  lemma {:induction false} BlockOf(s: string) returns (n: nat)
    ensures n <= |s| && !HasClose(s[..n]) && (n < |s| ==> n + 2 <= |s| && s[n] == '*' && s[n + 1] == '/')
    decreases |s|
  {
    if s == "" || ClosesBlock(s) {
      n := 0;
    } else {
      var m := BlockOf(s[1..]);
      n := m + 1;
      assert forall k: nat :: k > 0 && ClosesAt(s[..n], k) ==> ClosesAt(s[1..][..m], k - 1);
      assert !ClosesAt(s[..n], 0);
    }
  }

  lemma FirstComment(s: string) returns (p: Piece, rest: string)
    requires |s| >= 2 && s[0] == '/' && (s[1] == '/' || s[1] == '*')
    ensures s == TextOf(p) + rest && IsPiece(p, rest) && |rest| < |s|
  {
    var t := s[2..];
    if s[1] == '/' {
      var n := LineOf(t);
      p, rest := ToLineEnd(t[..n]), t[n..];
      assert s == "//" + t;
    } else {
      var n := BlockOf(t);
      assert s == "/*" + t;
      if n < |t| {
        p, rest := Block(t[..n]), t[n + 2..];
        assert t == t[..n] + "*/" + t[n + 2..];
      } else {
        p, rest := OpenBlock(t), "";
        assert t[..n] == t;
      }
    }
  }

  /** Every text is made of pieces, and stripping it leaves what is left of each: literals whole, of comments the line
      ends, and every other character. */
  lemma {:induction false} StripLeavesPieces(s: string) returns (ps: seq<Piece>)
    ensures ArePieces(ps) && TextOfAll(ps) == s && Strip(s, Code) == KeptOfAll(ps)
    decreases |s|
  {
    if s == "" {
      ps := [];
    } else {
      var p: Piece, rest: string;
      if s[0] == '"' {
        p, rest := FirstLiteral(s);
      } else if |s| >= 2 && s[0] == '/' && (s[1] == '/' || s[1] == '*') {
        p, rest := FirstComment(s);
      } else {
        p, rest := Plain(s[0]), s[1..];
      }
      var more := StripLeavesPieces(rest);
      ps := [p] + more;
      assert ps[1..] == more;
      PiecesStripped(ps);
    }
  }
}
