/** Big-endian integers of a fixed width. */
module Bytes {
  import opened Wire

  /** The number of values `width` bytes can hold. */
  function Span(width: nat): (span: nat)
    ensures span >= 1
  {
    if width == 0 then 1 else 256 * Span(width - 1)
  }

  /** The base-256 digit of a number at a place, the lowest place first. */
  function Digit(n: nat, place: nat): (digit: Byte) {
    if place == 0 then n % 256 else Digit(n / 256, place - 1)
  }

  function BigEndian(n: nat, width: nat): (bytes: seq<Byte>)
    ensures |bytes| == width
  {
    seq(width, i requires 0 <= i < width => Digit(n, width - 1 - i))
  }

  function FromBigEndian(bytes: seq<Byte>): (n: nat) {
    if |bytes| == 0 then 0
    else 256 * FromBigEndian(bytes[..|bytes| - 1]) + bytes[|bytes| - 1]
  }

  lemma {:induction false} FromBigEndianFits(bytes: seq<Byte>)
    ensures FromBigEndian(bytes) < Span(|bytes|)
    decreases |bytes|
  {
    if |bytes| > 0 { FromBigEndianFits(bytes[..|bytes| - 1]); }
  }

  lemma LowestByteIsLast(n: nat, width: nat)
    requires width > 0
    ensures BigEndian(n, width) == BigEndian(n / 256, width - 1) + [n % 256]
  {
    forall i | 0 <= i < width - 1
      ensures BigEndian(n, width)[i] == BigEndian(n / 256, width - 1)[i]
    {
      assert Digit(n, width - 1 - i) == Digit(n / 256, width - 2 - i);
    }
    assert BigEndian(n, width)[width - 1] == Digit(n, 0);
  }

  /** The bytes of a number that fits denote that number. */
  lemma {:induction false} BigEndianRoundTrips(n: nat, width: nat)
    requires n < Span(width)
    ensures FromBigEndian(BigEndian(n, width)) == n
  {
    if width > 0 {
      var high := BigEndian(n / 256, width - 1);
      LowestByteIsLast(n, width);
      BigEndianRoundTrips(n / 256, width - 1);
      assert BigEndian(n, width)[..width - 1] == high;
    }
  }

  /** Every byte string of a width is the encoding of the number it denotes. */
  lemma {:induction false} BigEndianIsCanonical(bytes: seq<Byte>)
    ensures BigEndian(FromBigEndian(bytes), |bytes|) == bytes
    decreases |bytes|
  {
    if |bytes| > 0 {
      var high, low := bytes[..|bytes| - 1], bytes[|bytes| - 1];
      var n := FromBigEndian(bytes);
      BigEndianIsCanonical(high);
      LowestByteIsLast(n, |bytes|);
      assert n / 256 == FromBigEndian(high) && n % 256 == low;
      assert bytes == high + [low];
    }
  }

  lemma SpanOfEight()
    ensures Span(8) == 0x1_0000_0000_0000_0000
  {
    assert Span(2) == 0x1_0000;
    assert Span(4) == 256 * (256 * Span(2));
    assert Span(6) == 256 * (256 * Span(4));
    assert Span(8) == 256 * (256 * Span(6));
  }

  function U64Bytes(n: U64): (bytes: seq<Byte>)
    ensures |bytes| == 8
  {
    BigEndian(n, 8)
  }

  function U64Of(bytes: seq<Byte>): (n: U64)
    requires |bytes| == 8
  {
    SpanOfEight();
    FromBigEndianFits(bytes);
    FromBigEndian(bytes)
  }

  lemma U64OfIsCanonical(bytes: seq<Byte>)
    requires |bytes| == 8
    ensures U64Bytes(U64Of(bytes)) == bytes
  {
    BigEndianIsCanonical(bytes);
  }

  lemma U64RoundTrips(n: U64)
    ensures U64Of(U64Bytes(n)) == n
  {
    SpanOfEight();
    BigEndianRoundTrips(n, 8);
  }
}
