/**
 * The few JavaScript runtime behaviours the chat client relies on, written out
 * so that the rest of the model can state what it computes:
 * `Number.prototype.toString(16)`, `String.prototype.padStart`,
 * `String.prototype.trim` and the decimal rendering of a non-negative integer.
 * Strings are sequences of characters.
 */
module Js {

  datatype Option<+T> = None | Some(value: T)

  /** An element of a `Uint8Array`. */
  type byte = x: int | 0 <= x < 256

  /** A value in 0..15, one hexadecimal digit. */
  type Nibble = x: int | 0 <= x < 16

  predicate IsLowerHexDigit(c: char) {
    ('0' <= c <= '9') || ('a' <= c <= 'f')
  }

  /** The digit `toString(16)` writes for a value below 16 (lower-case letters). */
  function HexDigit(v: Nibble): (c: char)
    ensures IsLowerHexDigit(c)
    ensures HexValue(c) == v
  {
    if v < 10 then (v + 48) as char else (v + 87) as char
  }

  /** The value of a lower-case hexadecimal digit. */
  function HexValue(c: char): (v: Nibble)
    requires IsLowerHexDigit(c)
  {
    if c <= '9' then c as int - 48 else c as int - 87
  }

  lemma HexDigitOfValue(c: char)
    requires IsLowerHexDigit(c)
    ensures HexDigit(HexValue(c)) == c
  {
  }

  /** The number a string of lower-case hexadecimal digits denotes. */
  function ParseHex(s: string): (n: nat)
    requires forall i :: 0 <= i < |s| ==> IsLowerHexDigit(s[i])
  {
    if s == [] then 0 else 16 * ParseHex(s[..|s| - 1]) + HexValue(s[|s| - 1])
  }

  /**
   * `n.toString(16)` for a non-negative integer: the shortest lower-case
   * hexadecimal numeral of `n`.
   */
  function NumberToHex(n: nat): (s: string)
    ensures |s| >= 1
    ensures forall i :: 0 <= i < |s| ==> IsLowerHexDigit(s[i])
    ensures ParseHex(s) == n
    ensures |s| > 1 ==> s[0] != '0'
    ensures n < 16 <==> |s| == 1
    decreases n
  {
    if n < 16 then [HexDigit(n)] else NumberToHex(n / 16) + [HexDigit(n % 16)]
  }

  /** `s.padStart(len, [fill])`: prefix copies of `fill` until the length is `len`. */
  function PadStart(s: string, len: nat, fill: char): (r: string)
    ensures |r| == if |s| >= len then |s| else len
    ensures r[|r| - |s|..] == s
    ensures forall i :: 0 <= i < |r| - |s| ==> r[i] == fill
  {
    if |s| >= len then s else seq(len - |s|, _ => fill) + s
  }

  /** The decimal digit for a value below 10. */
  function DecimalDigit(v: nat): (c: char)
    requires v < 10
    ensures '0' <= c <= '9'
    ensures DecimalValue(c) == v
  {
    (v + 48) as char
  }

  /** The value of a decimal digit. */
  function DecimalValue(c: char): (v: nat)
    requires '0' <= c <= '9'
    ensures v < 10
  {
    c as int - 48
  }

  /** The number a string of decimal digits denotes. */
  function ParseDecimal(s: string): nat
    requires forall i :: 0 <= i < |s| ==> '0' <= s[i] <= '9'
  {
    if s == [] then 0 else 10 * ParseDecimal(s[..|s| - 1]) + DecimalValue(s[|s| - 1])
  }

  /** The decimal numeral of `n`, as `${n}` renders an integer. */
  function NatToDecimal(n: nat): (s: string)
    ensures |s| >= 1
    ensures forall i :: 0 <= i < |s| ==> '0' <= s[i] <= '9'
    ensures ParseDecimal(s) == n
    ensures |s| > 1 ==> s[0] != '0'
    ensures n < 10 <==> |s| == 1
    decreases n
  {
    if n < 10 then [DecimalDigit(n)]
    else
      var s := NatToDecimal(n / 10) + [DecimalDigit(n % 10)];
      assert s[..|s| - 1] == NatToDecimal(n / 10);
      s
  }

  /** Different numbers have different numerals. */
  lemma NatToDecimalInjective(a: nat, b: nat)
    requires NatToDecimal(a) == NatToDecimal(b)
    ensures a == b
  {
  }

  /**
   * The characters `String.prototype.trim` removes: white space (tab, vertical
   * tab, form feed, byte order mark and the space separators) and line
   * terminators.
   */
  predicate IsWhitespace(c: char) {
    || c == '\t' || c == '\n' || c == '\U{B}' || c == '\U{C}' || c == '\r'
    || c == ' ' || c == '\U{A0}' || c == '\U{1680}'
    || ('\U{2000}' <= c <= '\U{200A}')
    || c == '\U{2028}' || c == '\U{2029}' || c == '\U{202F}' || c == '\U{205F}'
    || c == '\U{3000}' || c == '\U{FEFF}'
  }

  /** `s.trimStart()`: drops the leading white space. */
  function TrimStart(s: string): (r: string)
    ensures |r| <= |s| && r == s[|s| - |r|..]
    ensures forall i :: 0 <= i < |s| - |r| ==> IsWhitespace(s[i])
    ensures r != [] ==> !IsWhitespace(r[0])
  {
    if s != [] && IsWhitespace(s[0]) then TrimStart(s[1..]) else s
  }

  /** `s.trimEnd()`: drops the trailing white space. */
  function TrimEnd(s: string): (r: string)
    ensures |r| <= |s| && r == s[..|r|]
    ensures forall i :: |r| <= i < |s| ==> IsWhitespace(s[i])
    ensures r != [] ==> !IsWhitespace(r[|r| - 1])
  {
    if s != [] && IsWhitespace(s[|s| - 1]) then TrimEnd(s[..|s| - 1]) else s
  }

  /** `r` is `s` from position `a` on, with only white space before it and after it. */
  predicate TrimmedAt(s: string, r: string, a: nat) {
    && a + |r| <= |s| && r == s[a..a + |r|]
    && (forall i :: 0 <= i < a ==> IsWhitespace(s[i]))
    && (forall i :: a + |r| <= i < |s| ==> IsWhitespace(s[i]))
  }

  /** A prefix `r` of a suffix `t` of `s` is a slice of `s` with the dropped parts around it. */
  lemma {:induction false} PrefixOfSuffix(s: string, t: string, r: string)
    requires |t| <= |s| && t == s[|s| - |t|..]
    requires forall i :: 0 <= i < |s| - |t| ==> IsWhitespace(s[i])
    requires |r| <= |t| && r == t[..|r|]
    requires forall i :: |r| <= i < |t| ==> IsWhitespace(t[i])
    ensures TrimmedAt(s, r, |s| - |t|)
  {
    var a := |s| - |t|;
    forall i | a + |r| <= i < |s|
      ensures IsWhitespace(s[i])
    {
      assert s[i] == t[i - a];
    }
    assert r == s[a..a + |r|];
  }

  /** `s.trim()`: drops the white space at both ends. */
  function Trim(s: string): (r: string)
    ensures |r| <= |s|
    ensures r == [] <==> forall i :: 0 <= i < |s| ==> IsWhitespace(s[i])
    ensures r != [] ==> !IsWhitespace(r[0]) && !IsWhitespace(r[|r| - 1])
    ensures exists a :: TrimmedAt(s, r, a)
  {
    var t := TrimStart(s);
    var r := TrimEnd(t);
    PrefixOfSuffix(s, t, r);
    r
  }
}
