/** The JSONC comment stripper. String literals are those of section 7 of RFC 8259: a quote, anything with backslash
    escapes, a quote. */
module JsonComments {

  // ----- The lexical modes -----

  datatype Mode = Code | Str | Escape | LineComment | BlockComment

  predicate IsNewline(c: char) { c == '\n' || c == '\r' }

  predicate Opens(s: string, second: char) {
    |s| >= 2 && s[0] == '/' && s[1] == second
  }

  predicate ClosesBlock(s: string) {
    |s| >= 2 && s[0] == '*' && s[1] == '/'
  }

  /** The mode after one character of a string literal. */
  function InString(m: Mode, c: char): Mode {
    if m == Escape then Str else if c == '\\' then Escape else if c == '"' then Code else Str
  }

  /** What stripping leaves of the rest of a text, read in a given mode. */
  function Strip(s: string, m: Mode): string
    decreases |s|
  {
    if s == "" then ""
    else
      match m
      case Str => [s[0]] + Strip(s[1..], InString(m, s[0]))
      case Escape => [s[0]] + Strip(s[1..], InString(m, s[0]))
      case Code =>
        if Opens(s, '/') then Strip(s[2..], LineComment)
        else if Opens(s, '*') then Strip(s[2..], BlockComment)
        else [s[0]] + Strip(s[1..], if s[0] == '"' then Str else Code)
      case LineComment => if IsNewline(s[0]) then [s[0]] + Strip(s[1..], Code) else Strip(s[1..], LineComment)
      case BlockComment =>
        if ClosesBlock(s) then Strip(s[2..], Code)
        else if IsNewline(s[0]) then [s[0]] + Strip(s[1..], BlockComment)
        else Strip(s[1..], BlockComment)
  }

  // ----- The program -----

  /** The rest of the work, from position `i`: what is stripped next goes after `output`. */
  ghost predicate Remaining(input: string, output: string, i: nat, m: Mode)
    requires i <= |input|
  {
    output + Strip(input[i..], m) == Strip(input, Code)
  }

  lemma Emit(input: string, output: string, i: nat, m: Mode, m': Mode)
    requires i < |input| && Remaining(input, output, i, m)
    requires Strip(input[i..], m) == [input[i]] + Strip(input[i + 1..], m')
    ensures Remaining(input, output + [input[i]], i + 1, m')
  {
    assert output + ([input[i]] + Strip(input[i + 1..], m')) == output + [input[i]] + Strip(input[i + 1..], m');
  }

  lemma Rest(input: string, i: nat, k: nat)
    requires i + k <= |input|
    ensures input[i..][k..] == input[i + k..]
  {}

  /** The comment's text is dropped up to its line end; `i` is the last position read. */
  method StripLineComment(input: string, start: nat, before: string) returns (output: string, i: nat)
    requires start <= |input| && Remaining(input, before, start, LineComment)
    ensures start <= i <= |input|
    ensures if i < |input| then Remaining(input, output, i + 1, Code) else output == Strip(input, Code)
  {
    output, i := before, start;
    while i < |input|
      invariant start <= i <= |input|
      invariant Remaining(input, output, i, LineComment)
    {
      var c := input[i];
      Rest(input, i, 1);
      if c == '\n' {
        Emit(input, output, i, LineComment, Code);
        output := output + "\n";
        return;
      }
      if c == '\r' {
        Emit(input, output, i, LineComment, Code);
        output := output + "\r";
        if i + 1 < |input| && input[i + 1] == '\n' {
          Rest(input, i + 1, 1);
          Emit(input, output, i + 1, Code, Code);
          output := output + "\n";
          i := i + 1;
        }
        return;
      }
      i := i + 1;
    }
    assert input[i..] == "" && output + "" == output;
  }

  /** A line end in a block comment. */
  lemma EmitLineEnd(input: string, output: string, i: nat)
    requires i < |input| && input[i] == '\r' && Remaining(input, output, i, BlockComment)
    ensures Remaining(input, output + "\r", i + 1, BlockComment)
    ensures i + 1 < |input| && input[i + 1] == '\n' ==> Remaining(input, output + "\r" + "\n", i + 2, BlockComment)
  {
    Rest(input, i, 1);
    Emit(input, output, i, BlockComment, BlockComment);
    if i + 1 < |input| && input[i + 1] == '\n' {
      Rest(input, i + 1, 1);
      Emit(input, output + "\r", i + 1, BlockComment, BlockComment);
    }
  }

  /** The comment's text is dropped, but not its line ends; `i` is the last position read. */
  method StripBlockComment(input: string, start: nat, before: string) returns (output: string, i: nat)
    requires start <= |input| && Remaining(input, before, start, BlockComment)
    ensures start <= i <= |input|
    ensures if i < |input| then Remaining(input, output, i + 1, Code) else output == Strip(input, Code)
  {
    output, i := before, start;
    while i < |input|
      invariant start <= i <= |input|
      invariant Remaining(input, output, i, BlockComment)
    {
      var c := input[i];
      Rest(input, i, 1);
      if c == '\n' {
        Emit(input, output, i, BlockComment, BlockComment);
        output := output + "\n";
      } else if c == '\r' {
        EmitLineEnd(input, output, i);
        output := output + "\r";
        if i + 1 < |input| && input[i + 1] == '\n' {
          output := output + "\n";
          i := i + 1;
        }
      }
      if c == '*' && i + 1 < |input| && input[i + 1] == '/' {
        Rest(input, i, 2);
        i := i + 1;
        return;
      }
      i := i + 1;
    }
    assert input[i..] == "" && output + "" == output;
  }

  method StripJsonComments(input: string) returns (output: string)
    ensures output == Strip(input, Code)
  {
    output := "";
    var inString := false;
    var escaping := false;
    var i := 0;
    ghost var m := Code;
    assert input[0..] == input && "" + Strip(input, Code) == Strip(input, Code);
    while i < |input|
      invariant 0 <= i <= |input| + 1
      invariant m == if !inString then Code else if escaping then Escape else Str
      invariant i > |input| ==> output == Strip(input, Code)
      invariant i <= |input| ==> Remaining(input, output, i, m)
    {
      var c := input[i];
      Rest(input, i, 1);
      if inString {
        Emit(input, output, i, m, InString(m, c));
        m := InString(m, c);
        output := output + [c];
        if escaping {
          escaping := false;
        } else if c == '\\' {
          escaping := true;
        } else if c == '"' {
          inString := false;
        }
      } else if c == '"' {
        Emit(input, output, i, Code, Str);
        inString := true;
        m := Str;
        escaping := false;
        output := output + [c];
      } else if c == '/' && i + 1 < |input| && input[i + 1] == '/' {
        Rest(input, i, 2);
        output, i := StripLineComment(input, i + 2, output);
      } else if c == '/' && i + 1 < |input| && input[i + 1] == '*' {
        Rest(input, i, 2);
        output, i := StripBlockComment(input, i + 2, output);
      } else {
        Emit(input, output, i, Code, Code);
        output := output + [c];
      }
      i := i + 1;
    }
    if i == |input| {
      assert input[i..] == "" && output + "" == output;
    }
  }

  // ----- Line ends -----

  function Newlines(s: string): string {
    if s == "" then "" else (if IsNewline(s[0]) then [s[0]] else "") + Newlines(s[1..])
  }

  /** The mode in which the stripped rest of a text is read: comments are gone, so it is never a comment's. */
  function Resumed(m: Mode): Mode { if m == LineComment || m == BlockComment then Code else m }

  lemma NewlinesOfTwo(s: string)
    requires |s| >= 2 && !IsNewline(s[0]) && !IsNewline(s[1])
    ensures Newlines(s) == Newlines(s[2..])
  {
    assert s[1..][1..] == s[2..];
  }

  lemma NewlinesCons(c: char, t: string)
    ensures Newlines([c] + t) == (if IsNewline(c) then [c] else "") + Newlines(t)
  {
    assert ([c] + t)[1..] == t;
  }

  /** Stripping keeps exactly the line ends of the text, so positions reported for the output name the right lines. */
  lemma {:induction false} StripKeepsNewlines(s: string, m: Mode)
    ensures Newlines(Strip(s, m)) == Newlines(s)
    decreases |s|
  {
    if s != "" {
      if (m == Code && (Opens(s, '/') || Opens(s, '*'))) || (m == BlockComment && ClosesBlock(s)) {
        NewlinesOfTwo(s);
        StripKeepsNewlines(s[2..], if m == BlockComment then Code
                                   else if Opens(s, '/') then LineComment else BlockComment);
      } else {
        var m' := NextMode(s, m);
        StripKeepsNewlines(s[1..], m');
        NewlinesCons(s[0], Strip(s[1..], m'));
      }
    }
  }

  /** The mode after one character, where no comment opens and no block comment closes. */
  function NextMode(s: string, m: Mode): Mode
    requires s != ""
  {
    match m
    case Str => InString(m, s[0])
    case Escape => InString(m, s[0])
    case Code => if s[0] == '"' then Str else Code
    case LineComment => if IsNewline(s[0]) then Code else LineComment
    case BlockComment => BlockComment
  }

  // ----- What is outside the comments -----

  /** The characters outside comments, each marked with whether it belongs to a string literal, and the line ends of
      comments. */
  function Marked(s: string, m: Mode): seq<(char, bool)>
    decreases |s|
  {
    if s == "" then []
    else
      match m
      case Str => [(s[0], true)] + Marked(s[1..], InString(m, s[0]))
      case Escape => [(s[0], true)] + Marked(s[1..], InString(m, s[0]))
      case Code =>
        if Opens(s, '/') then Marked(s[2..], LineComment)
        else if Opens(s, '*') then Marked(s[2..], BlockComment)
        else [(s[0], s[0] == '"')] + Marked(s[1..], if s[0] == '"' then Str else Code)
      case LineComment =>
        if IsNewline(s[0]) then [(s[0], false)] + Marked(s[1..], Code) else Marked(s[1..], LineComment)
      case BlockComment =>
        if ClosesBlock(s) then Marked(s[2..], Code)
        else if IsNewline(s[0]) then [(s[0], false)] + Marked(s[1..], BlockComment)
        else Marked(s[1..], BlockComment)
  }

  /** Outside a comment, the stripped text starts with the character that the text starts with. */
  lemma FirstSurvives(s: string, m: Mode)
    requires s != "" && m != LineComment && m != BlockComment
    requires m == Code ==> !Opens(s, '/') && !Opens(s, '*')
    ensures Strip(s, m) == [s[0]] + Strip(s[1..], NextMode(s, m))
  {}

  /** A slash that opens no comment opens none in the stripped text. */
  lemma NoNewOpener(s: string)
    requires s != "" && !Opens(s, '/') && !Opens(s, '*')
    ensures
      var t := Strip(s, Code);
      t[0] == s[0] && !Opens(t, '/') && !Opens(t, '*')
  {
    FirstSurvives(s, Code);
    var rest := Strip(s[1..], NextMode(s, Code));
    if s[0] == '/' && |s| >= 2 && s[1] != '/' {
      FirstSurvives(s[1..], Code);
    }
  }

  lemma MarkedCons(c: char, t: string, m: Mode)
    requires m != LineComment && m != BlockComment
    requires m == Code ==> !Opens([c] + t, '/') && !Opens([c] + t, '*')
    ensures Marked([c] + t, m) == [(c, m != Code || c == '"')] + Marked(t, NextMode([c] + t, m))
  {
    assert ([c] + t)[1..] == t;
  }

  /** Stripping changes neither a character outside the comments nor its role: string literals survive verbatim,
      comment-like contents included, and no comment opener comes into being. */
  lemma {:induction false} StripKeepsMarked(s: string, m: Mode)
    ensures Marked(Strip(s, m), Resumed(m)) == Marked(s, m)
    decreases |s|
  {
    if s != "" {
      if m == Code && (Opens(s, '/') || Opens(s, '*')) {
        StripKeepsMarked(s[2..], if Opens(s, '/') then LineComment else BlockComment);
      } else if m == BlockComment && ClosesBlock(s) {
        StripKeepsMarked(s[2..], Code);
      } else {
        var m' := NextMode(s, m);
        StripKeepsMarked(s[1..], m');
        if m == Code {
          NoNewOpener(s);
        }
        if (m == LineComment || m == BlockComment) ==> IsNewline(s[0]) {
          MarkedCons(s[0], Strip(s[1..], m'), Resumed(m));
        }
      }
    }
  }

  // ----- Comments -----

  /** No comment opens outside the string literals. */
  predicate CommentFree(s: string, m: Mode)
    requires m != LineComment && m != BlockComment
    decreases |s|
  {
    s == "" || ((m == Code ==> !Opens(s, '/') && !Opens(s, '*')) && CommentFree(s[1..], NextMode(s, m)))
  }

  lemma {:induction false} StripShortens(s: string, m: Mode)
    ensures |Strip(s, m)| <= |s|
    decreases |s|
  {
    if s != "" {
      if (m == Code && (Opens(s, '/') || Opens(s, '*'))) || (m == BlockComment && ClosesBlock(s)) {
        StripShortens(s[2..], if m == BlockComment then Code else if Opens(s, '/') then LineComment else BlockComment);
      } else {
        StripShortens(s[1..], NextMode(s, m));
      }
    }
  }

  /** Stripping is the identity exactly on comment-free texts. */
  lemma {:induction false} StripIdentity(s: string, m: Mode)
    requires m != LineComment && m != BlockComment
    ensures Strip(s, m) == s <==> CommentFree(s, m)
    decreases |s|
  {
    if s != "" {
      if m == Code && (Opens(s, '/') || Opens(s, '*')) {
        StripShortens(s[2..], if Opens(s, '/') then LineComment else BlockComment);
      } else {
        FirstSurvives(s, m);
        StripIdentity(s[1..], NextMode(s, m));
        assert s == [s[0]] + s[1..];
        assert Strip(s, m)[1..] == Strip(s[1..], NextMode(s, m));
      }
    }
  }

  lemma {:induction false} StrippedIsFree(s: string, m: Mode)
    ensures CommentFree(Strip(s, m), Resumed(m))
    decreases |s|
  {
    if s != "" {
      if m == Code && (Opens(s, '/') || Opens(s, '*')) {
        StrippedIsFree(s[2..], if Opens(s, '/') then LineComment else BlockComment);
      } else if m == BlockComment && ClosesBlock(s) {
        StrippedIsFree(s[2..], Code);
      } else {
        var m' := NextMode(s, m);
        StrippedIsFree(s[1..], m');
        if m == Code {
          NoNewOpener(s);
        }
        assert ([s[0]] + Strip(s[1..], m'))[1..] == Strip(s[1..], m');
      }
    }
  }

  /** The output has no comment opener outside strings, so stripping it again changes nothing. */
  lemma StripIdempotent(s: string)
    ensures CommentFree(Strip(s, Code), Code)
    ensures Strip(Strip(s, Code), Code) == Strip(s, Code)
  {
    StrippedIsFree(s, Code);
    StripIdentity(Strip(s, Code), Code);
  }
}
