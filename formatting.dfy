/** The small pieces of .NET text formatting the URL builder relies on:
    nullable strings and `string.IsNullOrWhiteSpace`, the "x2" byte format
    used for the digest, and the decimal formatting of a non-negative `int`. */
module Formatting {

  /** An unsigned 8-bit value, as in a .NET `byte[]`. */
  newtype byte = x: int | 0 <= x < 256

  /** A .NET `string` reference, which may be null. */
  datatype NullableString = Null | Str(value: string)

  /** `char.IsWhiteSpace`: the characters with the Unicode White_Space property
      (the control characters U+0009..U+000D, U+0085, and the space, line and
      paragraph separators). */
  predicate IsWhiteSpace(c: char)
  {
    ('\U{0009}' <= c <= '\U{000D}') || c == ' ' || c == '\U{0085}' || c == '\U{00A0}'
    || c == '\U{1680}' || ('\U{2000}' <= c <= '\U{200A}') || c == '\U{2028}' || c == '\U{2029}'
    || c == '\U{202F}' || c == '\U{205F}' || c == '\U{3000}'
  }

  /** `string.IsNullOrWhiteSpace`: null, empty, or made of white space only. */
  predicate IsNullOrWhiteSpace(s: NullableString)
  {
    s.Null? || forall i :: 0 <= i < |s.value| ==> IsWhiteSpace(s.value[i])
  }

  // ---------------------------------------------------------------------------
  // Hexadecimal: byte.ToString("x2")

  predicate IsHexDigit(c: char)
  {
    ('0' <= c <= '9') || ('a' <= c <= 'f')
  }

  /** The lower-case hexadecimal digit of a nibble. */
  function HexDigit(v: nat): (c: char)
    requires v < 16
    ensures IsHexDigit(c)
  {
    if v < 10 then (('0' as int) + v) as char else (('a' as int) + v - 10) as char
  }

  /** The value of one lower-case hexadecimal digit. */
  function HexValue(c: char): (v: nat)
    requires IsHexDigit(c)
    ensures v < 16 && HexDigit(v) == c
  {
    if '0' <= c <= '9' then (c as int) - ('0' as int) else (c as int) - ('a' as int) + 10
  }

  /** `b.ToString("x2")`: exactly two lower-case hexadecimal digits, high nibble first. */
  function HexByte(b: byte): (s: string)
    ensures |s| == 2 && IsHexDigit(s[0]) && IsHexDigit(s[1])
    ensures HexValue(s[0]) * 16 + HexValue(s[1]) == b as int
  {
    [HexDigit((b as int) / 16), HexDigit((b as int) % 16)]
  }

  /** The hexadecimal rendering of a byte sequence: each byte's "x2" text, in order. */
  function HexOf(h: seq<byte>): (s: string)
    ensures |s| == 2 * |h|
    ensures forall i :: 0 <= i < |s| ==> IsHexDigit(s[i])
  {
    if h == [] then "" else HexOf(h[..|h| - 1]) + HexByte(h[|h| - 1])
  }

  /** Byte k of the input occupies characters 2k and 2k+1 of the rendering. */
  lemma {:induction false} HexOfAt(h: seq<byte>, k: nat)
    requires k < |h|
    ensures HexOf(h)[2 * k .. 2 * k + 2] == HexByte(h[k])
  {
    var front := h[..|h| - 1];
    if k < |h| - 1 {
      HexOfAt(front, k);
      assert HexOf(h) == HexOf(front) + HexByte(h[|h| - 1]);
      assert HexOf(h)[2 * k .. 2 * k + 2] == HexOf(front)[2 * k .. 2 * k + 2];
    }
  }

  /** The byte a pair of hexadecimal digits denotes (0 for a pair that is not two digits). */
  function PairByte(hi: char, lo: char): byte
  {
    if IsHexDigit(hi) && IsHexDigit(lo) then (HexValue(hi) * 16 + HexValue(lo)) as byte else 0
  }

  /** Reads a string of digit pairs back into bytes, one byte per pair. */
  function ParseHex(s: string): (h: seq<byte>)
    requires |s| % 2 == 0
    ensures 2 * |h| == |s|
  {
    if s == [] then [] else ParseHex(s[..|s| - 2]) + [PairByte(s[|s| - 2], s[|s| - 1])]
  }

  /** The hexadecimal rendering loses nothing: parsing it gives back the bytes. */
  lemma {:induction false} ParseHexOf(h: seq<byte>)
    ensures ParseHex(HexOf(h)) == h
  {
    if h != [] {
      var front, last := h[..|h| - 1], h[|h| - 1];
      ParseHexOf(front);
      var s, pair := HexOf(h), HexByte(last);
      assert s == HexOf(front) + pair;
      assert s[..|s| - 2] == HexOf(front);
      assert PairByte(s[|s| - 2], s[|s| - 1]) == last;
      assert h == front + [last];
    }
  }

  // ---------------------------------------------------------------------------
  // Decimal: int.ToString() for a non-negative value

  predicate IsDecimalDigit(c: char)
  {
    '0' <= c <= '9'
  }

  function DecimalDigit(d: nat): (c: char)
    requires d < 10
    ensures IsDecimalDigit(c) && (c as int) - ('0' as int) == d
  {
    (('0' as int) + d) as char
  }

  /** The decimal text of `n`: digits only, and no leading zero unless `n` is 0. */
  function NatToDecimal(n: nat): (s: string)
    ensures |s| >= 1
    ensures forall i :: 0 <= i < |s| ==> IsDecimalDigit(s[i])
    ensures s[0] == '0' ==> n == 0
  {
    if n < 10 then [DecimalDigit(n)] else NatToDecimal(n / 10) + [DecimalDigit(n % 10)]
  }

  /** The number a string of decimal digits denotes. */
  function DecimalValue(s: string): nat
    requires forall i :: 0 <= i < |s| ==> IsDecimalDigit(s[i])
  {
    if s == [] then 0
    else
      assert IsDecimalDigit(s[|s| - 1]);
      DecimalValue(s[..|s| - 1]) * 10 + ((s[|s| - 1] as int) - ('0' as int))
  }

  /** Reading the decimal text of `n` gives back `n`. */
  lemma {:induction false} DecimalRoundTrip(n: nat)
    ensures DecimalValue(NatToDecimal(n)) == n
  {
    if n >= 10 {
      DecimalRoundTrip(n / 10);
      var s := NatToDecimal(n);
      assert s[..|s| - 1] == NatToDecimal(n / 10);
    }
  }
}
