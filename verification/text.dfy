/** Strings as the host language sees them: the searches and character classes the program relies on. */
module Text {

  datatype Option<+T> = None | Some(value: T)

  /** The character class `\s`. */
  predicate IsWhitespace(c: char) {
    || c in {'\t', '\n', '\U{000B}', '\U{000C}', '\r', ' ', '\U{00A0}', '\U{1680}'}
    || '\U{2000}' <= c <= '\U{200A}'
    || c in {'\U{2028}', '\U{2029}', '\U{202F}', '\U{205F}', '\U{3000}', '\U{FEFF}'}
  }

  /** The characters that a regular expression's dot does not match. */
  predicate IsDotBarrier(c: char) {
    c in {'\n', '\r', '\U{2028}', '\U{2029}'}
  }

  /** `s.indexOf(c, from)`: the first occurrence at or after `from`, or -1. */
  function IndexOf(s: string, c: char, from: nat): (r: int)
    requires from <= |s|
    ensures r == -1 || from <= r < |s|
    ensures r == -1 ==> forall k :: from <= k < |s| ==> s[k] != c
    ensures r != -1 ==> s[r] == c && forall k :: from <= k < r ==> s[k] != c
    decreases |s| - from
  {
    if from == |s| then -1
    else if s[from] == c then from
    else IndexOf(s, c, from + 1)
  }

  /** The last occurrence of `c` strictly below `bound`, or -1. */
  function LastBelow(s: string, c: char, bound: nat): (r: int)
    requires bound <= |s|
    ensures -1 <= r < bound
    ensures r >= 0 ==> s[r] == c
    ensures forall k :: r < k < bound ==> s[k] != c
  {
    if bound == 0 then -1
    else if s[bound - 1] == c then bound - 1
    else LastBelow(s, c, bound - 1)
  }

  /** `s.lastIndexOf(c, position)`: a negative position is clamped to 0, so the first character is still tried. */
  function LastIndexOf(s: string, c: char, position: int): (r: int)
    ensures -1 <= r < |s|
    ensures r >= 0 ==> s[r] == c && (r <= position || r == 0)
    ensures forall k :: 0 <= k < |s| && r < k && (k <= position || k == 0) ==> s[k] != c
  {
    var clamped := if position < 0 then 0 else position;
    LastBelow(s, c, if clamped < |s| then clamped + 1 else |s|)
  }

  /** Where the run of `c` that starts at `from` ends. */
  function RunEnd(s: string, c: char, from: nat): (e: nat)
    requires from <= |s|
    ensures from <= e <= |s|
    ensures forall k :: from <= k < e ==> s[k] == c
    ensures e < |s| ==> s[e] != c
    decreases |s| - from
  {
    if from == |s| || s[from] != c then from else RunEnd(s, c, from + 1)
  }

  /** Where the line holding position `from` ends: at its newline, or at the end of the text. */
  function LineEnd(s: string, from: nat): (e: nat)
    requires from <= |s|
    ensures from <= e <= |s|
    ensures forall k :: from <= k < e ==> s[k] != '\n'
    ensures e < |s| ==> s[e] == '\n'
  {
    var i := IndexOf(s, '\n', from);
    if i == -1 then |s| else i
  }

  predicate IsLineStart(s: string, i: nat)
    requires i <= |s|
  {
    i == 0 || s[i - 1] == '\n'
  }
}
