/**
 * Character classes and the string normalisations the back end relies on:
 * JavaScript's white-space set with `trim`, and ASCII case mapping.
 */
module Text {

  /**
   * The characters of JavaScript's `\s` class; the same set (white space and
   * line terminators) is what `String.prototype.trim` strips.
   */
  predicate IsWhitespace(c: char)
  {
    || c == '\t' || c == '\n' || c == '\U{000B}' || c == '\U{000C}' || c == '\r' || c == ' '
    || c == '\U{00A0}' || c == '\U{1680}' || ('\U{2000}' <= c <= '\U{200A}')
    || c == '\U{2028}' || c == '\U{2029}' || c == '\U{202F}' || c == '\U{205F}'
    || c == '\U{3000}' || c == '\U{FEFF}'
  }

  predicate IsLowerAscii(c: char) { 'a' <= c <= 'z' }
  predicate IsUpperAscii(c: char) { 'A' <= c <= 'Z' }
  predicate IsDigit(c: char) { '0' <= c <= '9' }

  /** Upper-casing one character leaves no lower-case letter. */
  function UpperChar(c: char): (d: char)
    ensures !IsLowerAscii(d)
  {
    if IsLowerAscii(c) then (c as int - 'a' as int + 'A' as int) as char else c
  }

  /** Lower-casing one character keeps white space and leaves no capital. */
  function LowerChar(c: char): (d: char)
    ensures IsWhitespace(d) <==> IsWhitespace(c)
    ensures !IsUpperAscii(d)
  {
    if IsUpperAscii(c) then (c as int - 'A' as int + 'a' as int) as char else c
  }

  /**
   * Upper-casing, for ASCII letters: every lower-case letter becomes its
   * capital, every other character is kept.
   */
  function ToUpper(s: string): (r: string)
    ensures |r| == |s|
    ensures forall i :: 0 <= i < |s| ==> r[i] == UpperChar(s[i])
    ensures forall i :: 0 <= i < |r| ==> !IsLowerAscii(r[i])
  {
    if s == [] then [] else [UpperChar(s[0])] + ToUpper(s[1..])
  }

  /** A string that is already upper case is left as it is. */
  lemma {:induction false} ToUpperFixesUpper(s: string)
    requires forall i :: 0 <= i < |s| ==> !IsLowerAscii(s[i])
    ensures ToUpper(s) == s
  {
    if s != [] {
      ToUpperFixesUpper(s[1..]);
    }
  }

  /**
   * Lower-casing, for ASCII letters: every capital becomes its lower-case
   * letter, every other character, white space included, is kept.
   */
  function ToLower(s: string): (r: string)
    ensures |r| == |s|
    ensures forall i :: 0 <= i < |s| ==> r[i] == LowerChar(s[i])
    ensures forall i :: 0 <= i < |r| ==> !IsUpperAscii(r[i])
  {
    seq(|s|, i requires 0 <= i < |s| => LowerChar(s[i]))
  }

  /** Lower-casing a lower-cased string changes nothing. */
  lemma LowerIdempotent(s: string)
    ensures ToLower(ToLower(s)) == ToLower(s)
  {
    LowerPointwise(ToLower(s), ToLower(s));
  }

  /** Number of white-space characters at the start. */
  function LeadingBlanks(s: string): (a: nat)
    ensures a <= |s|
    ensures forall i :: 0 <= i < a ==> IsWhitespace(s[i])
    ensures a < |s| ==> !IsWhitespace(s[a])
  {
    if s != [] && IsWhitespace(s[0]) then
      var a := LeadingBlanks(s[1..]);
      assert forall i :: 1 <= i < a + 1 ==> s[i] == s[1..][i - 1];
      a + 1
    else 0
  }

  /** Length of what remains once trailing white space is dropped. */
  function WithoutTrailingBlanks(s: string): (b: nat)
    ensures b <= |s|
    ensures forall i :: b <= i < |s| ==> IsWhitespace(s[i])
    ensures 0 < b ==> !IsWhitespace(s[b - 1])
  {
    if s != [] && IsWhitespace(s[|s| - 1]) then WithoutTrailingBlanks(s[..|s| - 1]) else |s|
  }

  /** `String.prototype.trim`: white space removed from both ends. */
  function Trim(s: string): (r: string)
    ensures IsTrimmedPart(r, s)
  {
    var a := LeadingBlanks(s);
    var b := a + WithoutTrailingBlanks(s[a..]);
    assert IsBlank(s[..a]);
    assert s[b..] == s[a..][b - a..];
    s[a..b]
  }

  /** Every character is white space. */
  predicate IsBlank(s: string)
  {
    forall i :: 0 <= i < |s| ==> IsWhitespace(s[i])
  }

  /** `r` is a contiguous part of `s`, and what lies outside it at either end is white space. */
  ghost predicate IsTrimmedPart(r: string, s: string)
  {
    exists a, b :: 0 <= a <= b <= |s| && r == s[a..b] && IsBlank(s[..a]) && IsBlank(s[b..])
  }

  /** Neither end is white space. */
  predicate IsTrimmed(s: string)
  {
    s == [] || (!IsWhitespace(s[0]) && !IsWhitespace(s[|s| - 1]))
  }

  /**
   * Trimming leaves nothing exactly when the string is blank; otherwise the
   * result starts and ends with a character that is not white space.
   */
  lemma TrimEmptyIffBlank(s: string)
    ensures Trim(s) == [] <==> IsBlank(s)
    ensures IsTrimmed(Trim(s))
  {
    var a := LeadingBlanks(s);
    var t := s[a..];
    var b := WithoutTrailingBlanks(t);
    if a < |s| {
      assert t[0] == s[a];
      assert 0 < b;
    }
  }

  /** Trimming a trimmed string changes nothing, so `trim` is idempotent. */
  lemma TrimIdempotent(s: string)
    ensures Trim(Trim(s)) == Trim(s)
  {
    var r := Trim(s);
    TrimEmptyIffBlank(s);
    if r != [] {
      assert LeadingBlanks(r) == 0;
      assert WithoutTrailingBlanks(r) == |r|;
    }
  }

  /** Strings with white space at the same positions have the same blank prefix and suffix. */
  lemma BlanksFollowWhitespace(s: string, t: string)
    requires |s| == |t|
    requires forall i :: 0 <= i < |s| ==> (IsWhitespace(s[i]) <==> IsWhitespace(t[i]))
    ensures LeadingBlanks(s) == LeadingBlanks(t)
    ensures WithoutTrailingBlanks(s) == WithoutTrailingBlanks(t)
  {
  }

  /**
   * Lower-casing and trimming commute: ASCII case mapping never creates or
   * removes white space, so the order a schema applies the two in does not matter.
   */
  lemma ToLowerTrimCommute(s: string)
    ensures ToLower(Trim(s)) == Trim(ToLower(s))
  {
    var a := LeadingBlanks(s);
    var b := a + WithoutTrailingBlanks(s[a..]);
    LowerSlice(s, a, b);
    LowerKeepsBlanks(s);
  }

  /** Lower-casing leaves the blank prefix and suffix where they were, so trimming cuts at the same places. */
  lemma LowerKeepsBlanks(s: string)
    ensures var a := LeadingBlanks(s);
      Trim(ToLower(s)) == ToLower(s)[a..a + WithoutTrailingBlanks(s[a..])]
  {
    var l := ToLower(s);
    BlanksFollowWhitespace(s, l);
    var a := LeadingBlanks(s);
    BlanksFollowWhitespace(s[a..], l[a..]);
  }

  /** Lower-casing a part of a string is taking that part of the lower-cased string. */
  lemma LowerSlice(s: string, i: nat, j: nat)
    requires i <= j <= |s|
    ensures ToLower(s[i..j]) == ToLower(s)[i..j]
  {
    LowerPointwise(s[i..j], ToLower(s)[i..j]);
  }

  /** A string whose characters are those of `x` lower-cased is `ToLower(x)`. */
  lemma LowerPointwise(x: string, y: string)
    requires |x| == |y| && forall i :: 0 <= i < |x| ==> y[i] == LowerChar(x[i])
    ensures ToLower(x) == y
  {
  }
}
