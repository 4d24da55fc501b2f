/**
 * The hexadecimal form of the webhook signature: every byte of the HMAC is
 * written as `b.toString(16).padStart(2, '0')` and the pieces are joined
 * without a separator. `Decode` is the inverse used to state the round trip.
 */
module SignatureHex {
  import opened Js

  /** Two lower-case digits for a byte, high nibble first. */
  function ByteToHex(b: byte): (s: string)
    ensures |s| == 2
    ensures IsLowerHexDigit(s[0]) && IsLowerHexDigit(s[1])
    ensures 16 * HexValue(s[0]) + HexValue(s[1]) == b
  {
    [HexDigit(b / 16), HexDigit(b % 16)]
  }

  /** `ByteToHex` is what `b.toString(16).padStart(2, '0')` gives for every byte. */
  lemma ByteToHexIsPaddedToString(b: byte)
    ensures ByteToHex(b) == PadStart(NumberToHex(b), 2, '0')
  {
    var h := NumberToHex(b);
    if b < 16 {
      assert h == [HexDigit(b)];
      assert PadStart(h, 2, '0') == ['0'] + h;
      assert HexDigit(0) == '0';
    } else {
      assert NumberToHex(b / 16) == [HexDigit(b / 16)];
      assert h == [HexDigit(b / 16), HexDigit(b % 16)];
      assert PadStart(h, 2, '0') == h;
    }
  }

  /** `Array.from(bytes).map(b => b.toString(16).padStart(2, '0')).join('')`. */
  function Encode(bytes: seq<byte>): (s: string)
    ensures |s| == 2 * |bytes|
    ensures forall i :: 0 <= i < |s| ==> IsLowerHexDigit(s[i])
  {
    if bytes == [] then [] else ByteToHex(bytes[0]) + Encode(bytes[1..])
  }

  /** The byte two hexadecimal digits denote. */
  function PairValue(hi: char, lo: char): (b: byte)
    requires IsLowerHexDigit(hi) && IsLowerHexDigit(lo)
  {
    16 * HexValue(hi) + HexValue(lo)
  }

  /** Reads a string of digit pairs back into bytes; `None` if it is not one. */
  function Decode(s: string): (r: Option<seq<byte>>)
    ensures r.Some? ==> 2 * |r.value| == |s|
    decreases |s|
  {
    if s == [] then Some([])
    else if |s| < 2 || !IsLowerHexDigit(s[0]) || !IsLowerHexDigit(s[1]) then None
    else match Decode(s[2..])
      case None => None
      case Some(rest) => Some([PairValue(s[0], s[1])] + rest)
  }

  /** Byte `i` is written at positions `2 * i` and `2 * i + 1`. */
  lemma {:induction false} EncodeAt(bytes: seq<byte>, i: nat)
    requires i < |bytes|
    ensures Encode(bytes)[2 * i] == HexDigit(bytes[i] / 16)
    ensures Encode(bytes)[2 * i + 1] == HexDigit(bytes[i] % 16)
  {
    var s := Encode(bytes);
    assert s == ByteToHex(bytes[0]) + Encode(bytes[1..]);
    if i > 0 {
      EncodeAt(bytes[1..], i - 1);
      assert s[2 * i] == Encode(bytes[1..])[2 * (i - 1)];
      assert s[2 * i + 1] == Encode(bytes[1..])[2 * (i - 1) + 1];
    }
  }

  /** Decoding the encoding gives back the bytes, so the encoding loses nothing. */
  lemma {:induction false} DecodeEncode(bytes: seq<byte>)
    ensures Decode(Encode(bytes)) == Some(bytes)
  {
    if bytes != [] {
      var s := Encode(bytes);
      var b := bytes[0];
      assert s[..2] == ByteToHex(b);
      assert s[2..] == Encode(bytes[1..]);
      DecodeEncode(bytes[1..]);
      assert s[0] == ByteToHex(b)[0] && s[1] == ByteToHex(b)[1];
      assert PairValue(s[0], s[1]) == b;
      assert [b] + bytes[1..] == bytes;
    }
  }

  /** Every string `Decode` accepts is the encoding of what it decodes to. */
  lemma {:induction false} EncodeDecode(s: string)
    requires Decode(s).Some?
    ensures Encode(Decode(s).value) == s
    decreases |s|
  {
    if s != [] {
      var rest := Decode(s[2..]).value;
      EncodeDecode(s[2..]);
      var b := PairValue(s[0], s[1]);
      HexDigitOfValue(s[0]);
      HexDigitOfValue(s[1]);
      assert b / 16 == HexValue(s[0]) && b % 16 == HexValue(s[1]);
      assert ByteToHex(b) == [s[0], s[1]];
      var bytes := [b] + rest;
      assert Decode(s).value == bytes;
      assert bytes[0] == b && bytes[1..] == rest;
      assert s == [s[0], s[1]] + s[2..];
    }
  }

  /** Two signatures with the same hexadecimal form are the same bytes. */
  lemma EncodeInjective(a: seq<byte>, b: seq<byte>)
    requires Encode(a) == Encode(b)
    ensures a == b
  {
    DecodeEncode(a);
    DecodeEncode(b);
  }
}
