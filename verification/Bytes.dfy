/** Bytes and fixed-width big-endian integers (`to_be_bytes` and `from_be_bytes`). */
module Bytes {

  type byte = x: int | 0 <= x < 256

  /** 256 to the power `width`: the number of values that fit in `width` bytes. */
  function Capacity(width: nat): (r: nat)
    ensures r > 0
  {
    if width == 0 then 1 else 256 * Capacity(width - 1)
  }

  function BigEndian(width: nat, value: nat): (r: seq<byte>)
    ensures |r| == width
  {
    if width == 0 then [] else BigEndian(width - 1, value / 256) + [value % 256]
  }

  function FromBigEndian(s: seq<byte>): (r: nat)
    ensures r < Capacity(|s|)
  {
    if s == [] then 0 else 256 * FromBigEndian(s[..|s| - 1]) + s[|s| - 1]
  }

  lemma {:induction false} BigEndianDecodes(width: nat, value: nat)
    requires value < Capacity(width)
    ensures FromBigEndian(BigEndian(width, value)) == value
  {
    if width > 0 {
      BigEndianDecodes(width - 1, value / 256);
      var s := BigEndian(width, value);
      assert s[..|s| - 1] == BigEndian(width - 1, value / 256);
    }
  }

  lemma {:induction false} BigEndianEncodes(s: seq<byte>)
    ensures BigEndian(|s|, FromBigEndian(s)) == s
  {
    if s != [] {
      var init, last := s[..|s| - 1], s[|s| - 1];
      var high := FromBigEndian(init);
      BigEndianEncodes(init);
      LowByte(high, last);
      assert BigEndian(|s|, 256 * high + last) == BigEndian(|init|, high) + [last];
      assert s == init + [last];
    }
  }

  lemma LowByte(high: nat, last: byte)
    ensures (256 * high + last) / 256 == high && (256 * high + last) % 256 == last
  {
  }

  /** The unsigned integer widths the wire formats use. */
  lemma Widths()
    ensures Capacity(1) == 0x100
    ensures Capacity(2) == 0x1_0000
    ensures Capacity(4) == 0x1_0000_0000
    ensures Capacity(8) == 0x1_0000_0000_0000_0000
  {
    assert Capacity(3) == 256 * Capacity(2);
    assert Capacity(5) == 256 * Capacity(4);
    assert Capacity(6) == 256 * Capacity(5);
    assert Capacity(7) == 256 * Capacity(6);
  }

  /** The widths of identifiers. */
  lemma WideWidths()
    ensures Capacity(16) == 0x1_0000_0000_0000_0000_0000_0000_0000_0000
  {
    Widths();
    assert Capacity(9) == 256 * Capacity(8);
    assert Capacity(10) == 256 * Capacity(9);
    assert Capacity(11) == 256 * Capacity(10);
    assert Capacity(12) == 256 * Capacity(11);
    assert Capacity(13) == 256 * Capacity(12);
    assert Capacity(14) == 256 * Capacity(13);
    assert Capacity(15) == 256 * Capacity(14);
  }

  lemma BigEndianInjective(width: nat, a: nat, b: nat)
    requires a < Capacity(width) && b < Capacity(width) && BigEndian(width, a) == BigEndian(width, b)
    ensures a == b
  {
    BigEndianDecodes(width, a);
    BigEndianDecodes(width, b);
  }

  lemma Regroup(a: seq<byte>, b: seq<byte>, c: seq<byte>)
    ensures (a + b) + c == a + (b + c)
  {
  }

  /** The bytes of an ASCII text. */
  function Ascii(s: string): (r: seq<byte>)
    ensures |r| == |s|
  {
    seq(|s|, i requires 0 <= i < |s| => s[i] as int % 256)
  }
}
