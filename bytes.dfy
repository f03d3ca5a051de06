/**
 Bytes as they arrive on the CAT sockets, and the decimal digit strings that
 a frequency report carries.
 */
module Bytes {

  import opened Wrappers

  newtype byte = x: int | 0 <= x < 256

  /** One result of a socket `recv`: any number of bytes, possibly none. */
  type Chunk = seq<byte>

  const DigitZero: byte := 48   // ASCII '0'
  const DigitNine: byte := 57   // ASCII '9'

  predicate IsDigit(b: byte) {
    DigitZero <= b <= DigitNine
  }

  predicate AllDigits(s: seq<byte>) {
    forall i :: 0 <= i < |s| ==> IsDigit(s[i])
  }

  function Pow10(n: nat): (r: nat)
    ensures r >= 1
  {
    if n == 0 then 1 else 10 * Pow10(n - 1)
  }

  /** The value of a string of decimal digits, most significant digit first. */
  function DigitsValue(s: seq<byte>): (v: nat)
    requires AllDigits(s)
    ensures v < Pow10(|s|)
  {
    if s == [] then 0
    else
      var high := DigitsValue(s[..|s| - 1]);
      var low := s[|s| - 1] as int - DigitZero as int;
      assert high * 10 + low <= (Pow10(|s| - 1) - 1) * 10 + 9;
      high * 10 + low
  }

  /** The value `v` written with exactly `width` decimal digits, zero-padded on the left. */
  function EncodeDigits(v: nat, width: nat): (s: seq<byte>)
    ensures |s| == width && AllDigits(s)
  {
    if width == 0 then []
    else EncodeDigits(v / 10, width - 1) + [(DigitZero as int + v % 10) as byte]
  }

  /**
   Parses a byte string as a non-negative decimal integer: the string must be
   non-empty and consist of ASCII digits only; anything else is a parse error.
   */
  function ParseDecimal(s: seq<byte>): (r: Option<nat>)
    ensures r.Some? <==> |s| > 0 && AllDigits(s)
    ensures r.Some? ==> r.value < Pow10(|s|)
  {
    if |s| > 0 && AllDigits(s) then Some(DigitsValue(s)) else None
  }

  /** Writing a value that fits in `width` digits and reading it back gives the value. */
  lemma {:induction false} DecodeEncode(v: nat, width: nat)
    requires v < Pow10(width)
    ensures DigitsValue(EncodeDigits(v, width)) == v
  {
    if width > 0 {
      var s := EncodeDigits(v, width);
      assert s[..width - 1] == EncodeDigits(v / 10, width - 1);
      DecodeEncode(v / 10, width - 1);
    }
  }

  /** Reading a digit string and writing its value back at the same width gives the string. */
  lemma {:induction false} EncodeDecode(s: seq<byte>)
    requires AllDigits(s)
    ensures EncodeDigits(DigitsValue(s), |s|) == s
  {
    if s != [] {
      var n := |s|;
      var high := DigitsValue(s[..n - 1]);
      var v := DigitsValue(s);
      assert v / 10 == high && v % 10 == s[n - 1] as int - DigitZero as int;
      EncodeDecode(s[..n - 1]);
      assert s == s[..n - 1] + [s[n - 1]];
    }
  }

  /** A zero-padded rendering of width at least one always parses back to its value. */
  lemma ParseEncoded(v: nat, width: nat)
    requires 0 < width && v < Pow10(width)
    ensures ParseDecimal(EncodeDigits(v, width)) == Some(v)
  {
    DecodeEncode(v, width);
  }
}
