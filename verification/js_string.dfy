/**
 The two pieces of JavaScript string semantics the client depends on.

 A Dafny `char` is a Unicode scalar value, while a JavaScript string is a
 sequence of UTF-16 code units: `length` counts code units, so a character
 outside the Basic Multilingual Plane counts twice. `trim()` removes the
 ECMAScript WhiteSpace and LineTerminator characters from both ends.
 */
module JsString {

  /** ECMAScript WhiteSpace (TAB, VT, FF, ZWNBSP and every Zs character) and
      LineTerminator (LF, CR, LS, PS) — the characters `trim()` strips. */
  predicate IsWhitespace(c: char) {
    || c == '\t' || c == '\n' || c == '\U{000B}' || c == '\U{000C}' || c == '\r'
    || c == ' ' || c == '\U{00A0}' || c == '\U{1680}'
    || ('\U{2000}' <= c <= '\U{200A}')
    || c == '\U{2028}' || c == '\U{2029}' || c == '\U{202F}' || c == '\U{205F}'
    || c == '\U{3000}' || c == '\U{FEFF}'
  }

  /** Every character of `s` is whitespace (this includes the empty string). */
  predicate AllWhitespace(s: string) {
    forall i :: 0 <= i < |s| ==> IsWhitespace(s[i])
  }

  /** Length of the longest all-whitespace prefix of `s`. */
  function LeadingWhitespace(s: string): (n: nat)
    ensures n <= |s|
    ensures forall i :: 0 <= i < n ==> IsWhitespace(s[i])
    ensures n < |s| ==> !IsWhitespace(s[n])
  {
    if |s| == 0 || !IsWhitespace(s[0]) then 0 else 1 + LeadingWhitespace(s[1..])
  }

  /** Length of the longest all-whitespace suffix of `s`. */
  function TrailingWhitespace(s: string): (n: nat)
    ensures n <= |s|
    ensures forall i :: |s| - n <= i < |s| ==> IsWhitespace(s[i])
    ensures n < |s| ==> !IsWhitespace(s[|s| - 1 - n])
  {
    if |s| == 0 || !IsWhitespace(s[|s| - 1]) then 0 else 1 + TrailingWhitespace(s[..|s| - 1])
  }

  /** `String.prototype.trim`: the text between the leading and the trailing whitespace. */
  function Trim(s: string): (r: string)
    ensures r == "" <==> AllWhitespace(s)
    ensures r != "" ==> !IsWhitespace(r[0]) && !IsWhitespace(r[|r| - 1])
    ensures LeadingWhitespace(s) + |r| <= |s|
    ensures forall i :: 0 <= i < |r| ==> r[i] == s[LeadingWhitespace(s) + i]
    ensures forall i :: LeadingWhitespace(s) + |r| <= i < |s| ==> IsWhitespace(s[i])
  {
    var a := LeadingWhitespace(s);
    if a == |s| then ""
    else
      var b := TrailingWhitespace(s);
      assert !IsWhitespace(s[a]);
      s[a..|s| - b]
  }

  /** Number of UTF-16 code units that encode `c`. */
  function CodeUnits(c: char): nat {
    if c as int >= 0x1_0000 then 2 else 1
  }

  /** JavaScript's `length` of the string `s`. */
  function Utf16Length(s: string): (n: nat)
    ensures |s| <= n <= 2 * |s|
    ensures n == 0 <==> s == ""
  {
    if s == [] then 0 else Utf16Length(s[..|s| - 1]) + CodeUnits(s[|s| - 1])
  }

  /** Characters of the Basic Multilingual Plane take one code unit each. */
  predicate InBmp(s: string) {
    forall i :: 0 <= i < |s| ==> s[i] as int < 0x1_0000
  }

  /** For text inside the Basic Multilingual Plane, JavaScript's `length`
      agrees with the number of characters. */
  lemma {:induction false} Utf16LengthOfBmp(s: string)
    requires InBmp(s)
    ensures Utf16Length(s) == |s|
  {
    if s != [] {
      var p := s[..|s| - 1];
      assert InBmp(p) by {
        forall i | 0 <= i < |p| ensures p[i] as int < 0x1_0000 {
          assert p[i] == s[i];
        }
      }
      Utf16LengthOfBmp(p);
    }
  }

  /** Code units add up over concatenation. */
  lemma {:induction false} Utf16LengthAppend(a: string, b: string)
    ensures Utf16Length(a + b) == Utf16Length(a) + Utf16Length(b)
    decreases |b|
  {
    if b != [] {
      var b' := b[..|b| - 1];
      assert (a + b)[..|a + b| - 1] == a + b';
      assert (a + b)[|a + b| - 1] == b[|b| - 1];
      assert Utf16Length(a + b) == Utf16Length(a + b') + CodeUnits(b[|b| - 1]);
      Utf16LengthAppend(a, b');
      assert Utf16Length(b) == Utf16Length(b') + CodeUnits(b[|b| - 1]);
    } else {
      assert a + b == a;
    }
  }
}
