/**
 * Values and string predicates shared by the server (C#) and the browser
 * client (JavaScript) halves of the chat system.
 *
 * Both runtimes keep strings as UTF-16 code units. A Dafny `char` is a
 * Unicode scalar value, so the model's strings are sequences of scalar
 * values: lone surrogates are not modelled, and a character outside the
 * Basic Multilingual Plane counts as one element, not as two code units.
 */
module Text {

  /** An absent value: C#'s `null`, JavaScript's `null` or `undefined`. */
  datatype Option<+T> = None | Some(value: T)

  /** The outcome of a call that may throw: its value, or the exception it raised. */
  datatype Result<+T, +E> = Ok(value: T) | Err(error: E)

  /**
   * An ordinal prefix test: JavaScript's `s.startsWith(prefix)`. C#'s
   * one-argument `s.StartsWith(prefix)` compares by the current culture
   * instead; this ordinal test stands for it.
   */
  predicate StartsWith(s: string, prefix: string)
  {
    |prefix| <= |s| && s[..|prefix|] == prefix
  }

  lemma StartsWithConcat(prefix: string, rest: string)
    ensures StartsWith(prefix + rest, prefix)
  {
  }

  /** A string that starts with a non-empty prefix is not empty. */
  lemma StartsWithNonEmpty(s: string, prefix: string)
    requires StartsWith(s, prefix) && |prefix| > 0
    ensures |s| > 0 && s[0] == prefix[0]
  {
  }

  /**
   * .NET `Char.IsWhiteSpace`: the space separators (U+0020, U+00A0, U+1680,
   * U+2000..U+200A, U+202F, U+205F, U+3000), the line and paragraph
   * separators U+2028 and U+2029, the controls U+0009..U+000D and U+0085.
   */
  predicate IsDotNetWhiteSpace(c: char)
  {
    c == ' ' || c == '\U{00A0}' || c == '\U{1680}' ||
    (0x2000 <= c as int <= 0x200A) ||
    c == '\U{202F}' || c == '\U{205F}' || c == '\U{3000}' ||
    c == '\U{2028}' || c == '\U{2029}' ||
    (0x0009 <= c as int <= 0x000D) || c == '\U{0085}'
  }

  /** C#'s `string.IsNullOrWhiteSpace`: null, empty, or white space only. */
  predicate IsNullOrWhiteSpace(s: Option<string>)
  {
    s.None? || forall i :: 0 <= i < |s.value| ==> IsDotNetWhiteSpace(s.value[i])
  }

  /**
   * The characters JavaScript's `String.prototype.trim` removes: WhiteSpace
   * (TAB, VT, FF, SP, NBSP, ZWNBSP U+FEFF and the other space separators)
   * and LineTerminator (LF, CR, LS, PS). Unlike .NET, U+0085 is not
   * white space here and U+FEFF is.
   */
  predicate IsJsWhiteSpace(c: char)
  {
    c == '\t' || c == '\U{000B}' || c == '\U{000C}' || c == ' ' ||
    c == '\U{00A0}' || c == '\U{FEFF}' || c == '\U{1680}' ||
    (0x2000 <= c as int <= 0x200A) ||
    c == '\U{202F}' || c == '\U{205F}' || c == '\U{3000}' ||
    c == '\n' || c == '\r' || c == '\U{2028}' || c == '\U{2029}'
  }

  /** JavaScript's `s.trim()`: white space removed from both ends. */
  function JsTrim(s: string): (r: string)
    ensures |r| <= |s|
    ensures r == "" <==> forall i :: 0 <= i < |s| ==> IsJsWhiteSpace(s[i])
    ensures r != "" ==> !IsJsWhiteSpace(r[0]) && !IsJsWhiteSpace(r[|r| - 1])
    decreases |s|
  {
    if |s| == 0 then ""
    else if IsJsWhiteSpace(s[0]) then JsTrim(s[1..])
    else if IsJsWhiteSpace(s[|s| - 1]) then JsTrim(s[..|s| - 1])
    else s
  }

  /** Positions `i..j` of `s` lie between a white-space prefix and a white-space suffix. */
  predicate WhiteSpaceOutside(s: string, i: nat, j: nat)
  {
    i <= j <= |s| &&
    (forall k :: 0 <= k < i ==> IsJsWhiteSpace(s[k])) &&
    (forall k :: j <= k < |s| ==> IsJsWhiteSpace(s[k]))
  }

  lemma WhiteSpaceOutsideFront(s: string, i: nat, j: nat)
    requires |s| > 0 && IsJsWhiteSpace(s[0]) && WhiteSpaceOutside(s[1..], i, j)
    ensures WhiteSpaceOutside(s, i + 1, j + 1) && s[1..][i..j] == s[i + 1..j + 1]
  {
  }

  lemma WhiteSpaceOutsideBack(s: string, i: nat, j: nat)
    requires |s| > 0 && IsJsWhiteSpace(s[|s| - 1]) && WhiteSpaceOutside(s[..|s| - 1], i, j)
    ensures WhiteSpaceOutside(s, i, j) && s[..|s| - 1][i..j] == s[i..j]
  {
  }

  /**
   * `trim()` keeps what lies between a white-space prefix and a white-space
   * suffix of the string, in order and unchanged.
   */
  lemma {:induction false} JsTrimIsInfix(s: string)
    ensures exists i: nat, j: nat :: WhiteSpaceOutside(s, i, j) && JsTrim(s) == s[i..j]
    decreases |s|
  {
    if |s| == 0 {
      assert WhiteSpaceOutside(s, 0, 0) && JsTrim(s) == s[0..0];
    } else if IsJsWhiteSpace(s[0]) {
      JsTrimIsInfix(s[1..]);
      var i: nat, j: nat :| WhiteSpaceOutside(s[1..], i, j) && JsTrim(s[1..]) == s[1..][i..j];
      WhiteSpaceOutsideFront(s, i, j);
      assert WhiteSpaceOutside(s, i + 1, j + 1) && JsTrim(s) == s[i + 1..j + 1];
    } else if IsJsWhiteSpace(s[|s| - 1]) {
      JsTrimIsInfix(s[..|s| - 1]);
      var i: nat, j: nat :| WhiteSpaceOutside(s[..|s| - 1], i, j) && JsTrim(s[..|s| - 1]) == s[..|s| - 1][i..j];
      WhiteSpaceOutsideBack(s, i, j);
      assert WhiteSpaceOutside(s, i, j) && JsTrim(s) == s[i..j];
    } else {
      assert WhiteSpaceOutside(s, 0, |s|) && JsTrim(s) == s[0..|s|];
    }
  }
}
