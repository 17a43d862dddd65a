/** The pieces of JavaScript's own semantics that the normalisation layer leans on,
    written out over Dafny values: `startsWith`, the truthiness of strings, the
    `x | ""` conversion to a 32-bit integer, and a regular expression over UTF-16
    code units. */
module JsSemantics {

  import opened Optional

  /** `s.startsWith(p)`, which is also what `s.indexOf(p) === 0` decides. */
  predicate StartsWith(s: string, p: string) {
    |p| <= |s| && s[..|p|] == p
  }

  /** `a || b` on two strings: the empty string is the only falsy string. */
  function OrElse(a: string, b: string): (r: string)
    ensures r == "" ==> a == "" && b == ""
    ensures a != "" ==> r == a
  {
    if a != "" then a else b
  }

  // ------------------------------------------------------------------
  // UTF-16 and the pattern /\uD83C[\uDF00-\uDFFF]|\uD83D[\uDC00-\uDE4F]/
  // ------------------------------------------------------------------

  /** The UTF-16 code units of one Unicode scalar value. */
  function CodeUnits(c: char): (u: seq<int>)
    ensures 1 <= |u| <= 2
  {
    var n := c as int;
    if n < 0x1_0000 then [n]
    else [0xD800 + (n - 0x1_0000) / 0x400, 0xDC00 + (n - 0x1_0000) % 0x400]
  }

  /** The UTF-16 encoding of a string, the form a JavaScript string has. */
  function Utf16(s: string): seq<int> {
    if s == [] then [] else CodeUnits(s[0]) + Utf16(s[1..])
  }

  /** One match of the two-unit alternatives of the emoji pattern. */
  predicate PairMatches(hi: int, lo: int) {
    (hi == 0xD83C && 0xDF00 <= lo <= 0xDFFF) || (hi == 0xD83D && 0xDC00 <= lo <= 0xDE4F)
  }

  /** `emojiPattern.test(u)` on a sequence of code units (the pattern has no anchors). */
  predicate PatternTest(u: seq<int>)
    decreases |u|
  {
    |u| >= 2 && (PairMatches(u[0], u[1]) || PatternTest(u[1..]))
  }

  /** The code points the pattern covers: U+1F300..U+1F3FF and U+1F400..U+1F64F. */
  predicate IsEmojiChar(c: char) {
    0x1_F300 <= c as int <= 0x1_F64F
  }

  predicate HasEmoji(s: string) {
    exists i :: 0 <= i < |s| && IsEmojiChar(s[i])
  }

  lemma PatternTestSkips(x: int, rest: seq<int>)
    requires x != 0xD83C && x != 0xD83D
    ensures PatternTest([x] + rest) == PatternTest(rest)
  {
    assert ([x] + rest)[1..] == rest;
  }

  lemma SurrogatePairMatches(c: char)
    requires c as int >= 0x1_0000
    ensures PairMatches(CodeUnits(c)[0], CodeUnits(c)[1]) <==> IsEmojiChar(c)
  {
    var m := c as int - 0x1_0000;
    var q, r := m / 0x400, m % 0x400;
    assert m == q * 0x400 + r;
    assert CodeUnits(c) == [0xD800 + q, 0xDC00 + r];
  }

  lemma HasEmojiCons(s: string)
    requires s != []
    ensures HasEmoji(s) <==> IsEmojiChar(s[0]) || HasEmoji(s[1..])
  {
    var t := s[1..];
    if HasEmoji(t) {
      var i :| 0 <= i < |t| && IsEmojiChar(t[i]);
      assert s[i + 1] == t[i];
    }
    if HasEmoji(s) && !IsEmojiChar(s[0]) {
      var i :| 0 <= i < |s| && IsEmojiChar(s[i]);
      assert t[i - 1] == s[i];
    }
  }

  /** One character's code units in front of the rest: the pattern matches across
      them exactly when the character is an emoji or the rest matches. */
  lemma PatternTestCons(c: char, rest: seq<int>)
    ensures PatternTest(CodeUnits(c) + rest) <==> IsEmojiChar(c) || PatternTest(rest)
  {
    var u := CodeUnits(c);
    if c as int < 0x1_0000 {
      PatternTestSkips(c as int, rest);
    } else {
      var tail := [u[1]] + rest;
      assert u + rest == [u[0]] + tail;
      assert ([u[0]] + tail)[1..] == tail;
      assert PatternTest(u + rest) <==> PairMatches(u[0], u[1]) || PatternTest(tail);
      PatternTestSkips(u[1], rest);
      SurrogatePairMatches(c);
    }
  }

  /** The regular expression run on the UTF-16 form of a string finds a match
      exactly when the string holds a code point of the two emoji blocks. */
  lemma {:induction false} PatternMatchesEmoji(s: string)
    ensures PatternTest(Utf16(s)) <==> HasEmoji(s)
  {
    if s != [] {
      PatternMatchesEmoji(s[1..]);
      HasEmojiCons(s);
      PatternTestCons(s[0], Utf16(s[1..]));
    }
  }

  // ------------------------------------------------------------------
  // ToNumber on strings, ToInt32, and the `|` operator
  // ------------------------------------------------------------------

  /** A JavaScript number as far as ToInt32 can see it: finite values are kept
      truncated toward zero. The numeral is read exactly, not rounded to the
      nearest double first, so the two agree only on numerals a double holds
      exactly. */
  datatype JsNumber = NaN | Infinite | Finite(truncated: int)

  /** StrWhiteSpaceChar of the language standard: white space and line terminators. */
  predicate IsWhiteSpace(c: char) {
    || c == '\t' || c == '\U{B}' || c == '\U{C}' || c == ' ' || c == '\U{A0}' || c == '\U{FEFF}'
    || c == '\n' || c == '\r' || c == '\U{2028}' || c == '\U{2029}'
    || c == '\U{1680}' || ('\U{2000}' <= c <= '\U{200A}') || c == '\U{202F}' || c == '\U{205F}'
    || c == '\U{3000}'
  }

  function TrimStart(s: string): (r: string)
    ensures |r| <= |s| && r == s[|s| - |r|..]
    ensures r != [] ==> !IsWhiteSpace(r[0])
  {
    if s != [] && IsWhiteSpace(s[0]) then TrimStart(s[1..]) else s
  }

  function TrimEnd(s: string): (r: string)
    ensures |r| <= |s| && r == s[..|r|]
    ensures s != [] && !IsWhiteSpace(s[0]) ==> r != []
  {
    if s != [] && IsWhiteSpace(s[|s| - 1]) then TrimEnd(s[..|s| - 1]) else s
  }

  function Trim(s: string): string {
    TrimEnd(TrimStart(s))
  }

  predicate IsDecimalDigit(c: char) {
    '0' <= c <= '9'
  }

  predicate IsAsciiLetter(c: char) {
    ('a' <= c <= 'z') || ('A' <= c <= 'Z')
  }

  /** The value of a hexadecimal, decimal, octal or binary digit; 16 for any other character. */
  function DigitValue(c: char): (d: nat)
    ensures d <= 16
  {
    if '0' <= c <= '9' then c as int - '0' as int
    else if 'a' <= c <= 'f' then c as int - 'a' as int + 10
    else if 'A' <= c <= 'F' then c as int - 'A' as int + 10
    else 16
  }

  predicate AllDigits(d: string, base: nat) {
    forall i :: 0 <= i < |d| ==> DigitValue(d[i]) < base
  }

  /** The value of a digit string in the given base, most significant digit first. */
  function DigitsValue(d: string, base: nat): nat {
    if d == [] then 0 else DigitsValue(d[..|d| - 1], base) * base + DigitValue(d[|d| - 1])
  }

  /** Length of the longest prefix of decimal digits. */
  function DigitRun(s: string): (n: nat)
    ensures n <= |s|
    ensures forall i :: 0 <= i < n ==> IsDecimalDigit(s[i])
    ensures n < |s| ==> !IsDecimalDigit(s[n])
  {
    if s != [] && IsDecimalDigit(s[0]) then 1 + DigitRun(s[1..]) else 0
  }

  /** ExponentPart after the `e`: an optional sign and at least one digit, to the end. */
  function ExponentValue(x: string): Option<int> {
    var neg := x != [] && x[0] == '-';
    var d := if x != [] && (x[0] == '-' || x[0] == '+') then x[1..] else x;
    if d != [] && DigitRun(d) == |d| then
      Some(if neg then -(DigitsValue(d, 10) as int) else DigitsValue(d, 10))
    else None
  }

  /** The digits after a decimal point, when the text starts with one. */
  function FractionDigits(rest: string): (f: string)
    ensures |f| <= |rest|
    ensures rest == [] || rest[0] != '.' ==> f == []
  {
    if rest != [] && rest[0] == '.' then rest[1..][..DigitRun(rest[1..])] else []
  }

  /** What follows the integer digits and the fraction. */
  function AfterFraction(rest: string): string {
    if rest != [] && rest[0] == '.' then rest[1 + |FractionDigits(rest)|..] else rest
  }

  /** The exponent of an unsigned decimal literal: 0 when none is written,
      None when the text goes on with anything but a well-formed ExponentPart. */
  function Exponent(after: string): Option<int> {
    if after == [] then Some(0)
    else if after[0] == 'e' || after[0] == 'E' then ExponentValue(after[1..])
    else None
  }

  /** mantissa * 10^-scale, truncated toward zero (one decimal place at a time:
      truncating twice by 10 is truncating once by 100). */
  function Scaled(mantissa: nat, scale: int): nat
    decreases if scale < 0 then -scale else scale
  {
    if scale == 0 then mantissa
    else if scale < 0 then Scaled(mantissa * 10, scale + 1)
    else Scaled(mantissa / 10, scale - 1)
  }

  /** StrUnsignedDecimalLiteral (other than Infinity), truncated toward zero. */
  function UnsignedDecimal(u: string): Option<nat> {
    var i := DigitRun(u);
    var fraction := FractionDigits(u[i..]);
    var exponent := Exponent(AfterFraction(u[i..]));
    if i + |fraction| == 0 || exponent.None? then None
    else Some(Scaled(DigitsValue(u[..i] + fraction, 10), |fraction| - exponent.value))
  }

  /** StrDecimalLiteral: an optional sign, then Infinity or an unsigned decimal. */
  function DecimalLiteral(t: string): JsNumber {
    var neg := t != [] && t[0] == '-';
    var u := if t != [] && (t[0] == '-' || t[0] == '+') then t[1..] else t;
    if u == "Infinity" then Infinite
    else match UnsignedDecimal(u)
      case None => NaN
      case Some(m) => Finite(if neg then -(m as int) else m)
  }

  /** NonDecimalIntegerLiteral after its `0x`, `0o` or `0b` prefix. */
  function NonDecimalLiteral(d: string, base: nat): JsNumber {
    if d != [] && AllDigits(d, base) then Finite(DigitsValue(d, base)) else NaN
  }

  /** A `0x`, `0o` or `0b` prefix, and the base it announces. */
  function RadixPrefix(t: string): Option<nat> {
    if |t| < 2 || t[0] != '0' then None
    else if t[1] == 'x' || t[1] == 'X' then Some(16)
    else if t[1] == 'o' || t[1] == 'O' then Some(8)
    else if t[1] == 'b' || t[1] == 'B' then Some(2)
    else None
  }

  /** ToNumber applied to a string (StringToNumber). */
  function ToNumber(s: string): JsNumber {
    var t := Trim(s);
    if t == "" then Finite(0)
    else match RadixPrefix(t)
      case Some(base) => NonDecimalLiteral(t[2..], base)
      case None => DecimalLiteral(t)
  }

  predicate IsInt32(x: int) {
    -0x8000_0000 <= x < 0x8000_0000
  }

  /** The unsigned 32-bit residue of an integer, read back as a signed 32-bit integer. */
  function Wrap32(k: int): (r: int)
    ensures IsInt32(r)
    ensures (r - k) % 0x1_0000_0000 == 0
  {
    var m := k % 0x1_0000_0000;
    if m >= 0x8000_0000 then m - 0x1_0000_0000 else m
  }

  function ToInt32(n: JsNumber): (r: int)
    ensures IsInt32(r)
  {
    match n
    case NaN => 0
    case Infinite => 0
    case Finite(k) => Wrap32(k)
  }

  /** Bitwise OR of the low `width` bits of two naturals. */
  function OrBits(x: nat, y: nat, width: nat): nat {
    if width == 0 then 0
    else 2 * OrBits(x / 2, y / 2, width - 1) + (if x % 2 == 1 || y % 2 == 1 then 1 else 0)
  }

  /** Bitwise OR of two signed 32-bit integers, bit by bit on their two's complement. */
  function BitOr32(a: int, b: int): (r: int)
    requires IsInt32(a) && IsInt32(b)
    ensures IsInt32(r)
  {
    Wrap32(OrBits(a % 0x1_0000_0000, b % 0x1_0000_0000, 32))
  }

  /** `x | y` with two string operands. */
  function StringOr(x: string, y: string): (r: int)
    ensures IsInt32(r)
  {
    BitOr32(ToInt32(ToNumber(x)), ToInt32(ToNumber(y)))
  }

  function Pow2(n: nat): (r: nat)
    ensures r >= 1
  {
    if n == 0 then 1 else 2 * Pow2(n - 1)
  }

  lemma {:induction false} Pow2Add(a: nat, b: nat)
    ensures Pow2(a + b) == Pow2(a) * Pow2(b)
  {
    if a > 0 {
      Pow2Add(a - 1, b);
    }
  }

  lemma Pow2Of32()
    ensures Pow2(32) == 0x1_0000_0000
  {
    assert Pow2(4) == 16;
    Pow2Add(4, 4);
    Pow2Add(8, 8);
    Pow2Add(16, 16);
  }

  lemma {:induction false} OrBitsZero(x: nat, width: nat)
    requires x < Pow2(width)
    ensures OrBits(x, 0, width) == x
  {
    if width > 0 {
      OrBitsZero(x / 2, width - 1);
    }
  }

  lemma BitOrZero(a: int)
    requires IsInt32(a)
    ensures BitOr32(a, 0) == a
  {
    Pow2Of32();
    var u := a % 0x1_0000_0000;
    OrBitsZero(u, 32);
    if a >= 0 {
      assert u == a;
    } else {
      assert u == a + 0x1_0000_0000;
    }
    assert Wrap32(u) == a;
  }

  /** `x | ""` is ToInt32(ToNumber(x)): the empty string converts to 0, and OR with 0 changes nothing. */
  lemma OrEmptyIsToInt32(x: string)
    ensures StringOr(x, "") == ToInt32(ToNumber(x))
  {
    assert Trim("") == "";
    BitOrZero(ToInt32(ToNumber(x)));
  }

  lemma TrimKeepsFirst(x: string)
    requires x != [] && !IsWhiteSpace(x[0])
    ensures Trim(x) != [] && Trim(x)[0] == x[0]
  {
    assert TrimStart(x) == x;
  }

  lemma LetterLeadingIsNotFinite(t: string)
    requires t != [] && IsAsciiLetter(t[0])
    ensures DecimalLiteral(t) == NaN || DecimalLiteral(t) == Infinite
  {
    assert t[0] != '-' && t[0] != '+';
    assert DigitRun(t) == 0;
    assert t[0..] == t;
    assert FractionDigits(t) == [];
  }

  /** A string that starts with a letter (every content type name does) is not a
      numeric literal, so `x | ""` is 0 for it. */
  lemma LetterLeadingIsZero(x: string)
    requires x != [] && IsAsciiLetter(x[0])
    ensures StringOr(x, "") == 0
  {
    OrEmptyIsToInt32(x);
    TrimKeepsFirst(x);
    var t := Trim(x);
    assert RadixPrefix(t).None?;
    LetterLeadingIsNotFinite(t);
  }

  /** A non-empty string of decimal digits only. */
  predicate IsDigitString(x: string) {
    x != [] && forall i :: 0 <= i < |x| ==> IsDecimalDigit(x[i])
  }

  lemma {:induction false} DigitRunOfDigits(x: string)
    requires forall i :: 0 <= i < |x| ==> IsDecimalDigit(x[i])
    ensures DigitRun(x) == |x|
  {
    if x != [] {
      assert IsDecimalDigit(x[0]);
      DigitRunOfDigits(x[1..]);
    }
  }

  lemma TrimDigits(x: string)
    requires IsDigitString(x)
    ensures Trim(x) == x
  {
    assert TrimStart(x) == x;
    assert !IsWhiteSpace(x[|x| - 1]);
  }

  lemma UnsignedDigits(x: string)
    requires IsDigitString(x)
    ensures UnsignedDecimal(x) == Some(DigitsValue(x, 10))
  {
    DigitRunOfDigits(x);
    assert x[|x|..] == [] && x[..|x|] == x;
    assert FractionDigits([]) == [] && AfterFraction([]) == [];
    assert x[..|x|] + [] == x;
  }

  lemma DecimalDigits(x: string)
    requires IsDigitString(x)
    ensures DecimalLiteral(x) == Finite(DigitsValue(x, 10))
  {
    assert x != "Infinity" by { assert IsDecimalDigit(x[0]); }
    assert x[0] != '-' && x[0] != '+';
    UnsignedDigits(x);
  }

  lemma ToNumberDigits(x: string)
    requires IsDigitString(x)
    ensures ToNumber(x) == Finite(DigitsValue(x, 10))
  {
    TrimDigits(x);
    assert RadixPrefix(x).None? by {
      if |x| >= 2 { assert IsDecimalDigit(x[1]); }
    }
    assert ToNumber(x) == DecimalLiteral(x);
    DecimalDigits(x);
  }

  /** A plain decimal digit string below 2^31 converts to its own value. */
  lemma DigitStringValue(x: string)
    requires IsDigitString(x)
    requires DigitsValue(x, 10) < 0x8000_0000
    ensures StringOr(x, "") == DigitsValue(x, 10)
  {
    OrEmptyIsToInt32(x);
    ToNumberDigits(x);
    Wrap32Small(DigitsValue(x, 10));
  }

  lemma Wrap32Small(k: int)
    requires 0 <= k < 0x8000_0000
    ensures Wrap32(k) == k
  {
  }
}
