/** The unpadded base32 of enrolment seeds, against section 6 of RFC 4648. */
module Base32 {
  import opened Bytes

  type bit = x: int | 0 <= x < 2

  const ALPHABET := "ABCDEFGHIJKLMNOPQRSTUVWXYZ234567"

  // ---- Bit strings ----

  function Power(n: nat): (r: nat)
    ensures r > 0
  {
    if n == 0 then 1 else 2 * Power(n - 1)
  }

  /** The `width` low bits of a value, most significant first. */
  function Bits(width: nat, value: nat): (r: seq<bit>)
    ensures |r| == width
  {
    if width == 0 then [] else Bits(width - 1, value / 2) + [value % 2]
  }

  function Value(bits: seq<bit>): (r: nat)
    ensures r < Power(|bits|)
  {
    if bits == [] then 0 else 2 * Value(bits[..|bits| - 1]) + bits[|bits| - 1]
  }

  lemma {:induction false} ValueOfBits(width: nat, value: nat)
    requires value < Power(width)
    ensures Value(Bits(width, value)) == value
  {
    if width > 0 {
      ValueOfBits(width - 1, value / 2);
      assert Bits(width, value)[..width - 1] == Bits(width - 1, value / 2);
    }
  }

  lemma {:induction false} BitsOfValue(bits: seq<bit>)
    ensures Bits(|bits|, Value(bits)) == bits
  {
    if bits != [] {
      BitsOfValue(bits[..|bits| - 1]);
      assert bits == bits[..|bits| - 1] + [bits[|bits| - 1]];
    }
  }

  lemma {:induction false} ValueOfConcat(a: seq<bit>, b: seq<bit>)
    ensures Value(a + b) == Value(a) * Power(|b|) + Value(b)
  {
    if b == [] {
      assert a + b == a;
    } else {
      var init, last := b[..|b| - 1], b[|b| - 1];
      ValueOfConcat(a, init);
      assert (a + b)[..|a + b| - 1] == a + init;
      calc {
        Value(a + b);
        2 * Value(a + init) + last;
        2 * (Value(a) * Power(|init|)) + Value(b);
        { Doubled(Value(a), Power(|init|)); }
        Value(a) * Power(|b|) + Value(b);
      }
    }
  }

  lemma Doubled(x: nat, y: nat)
    ensures 2 * (x * y) == x * (2 * y)
  {
  }

  // ---- The encoding as groups of five bits ----

  /** The bits of a byte string in order. */
  function ByteBits(bytes: seq<byte>): (r: seq<bit>)
    ensures |r| == 8 * |bytes|
  {
    if bytes == [] then [] else ByteBits(bytes[..|bytes| - 1]) + Bits(8, bytes[|bytes| - 1])
  }

  /** Groups of five bits, the last one filled with zeros on the right. */
  function Indexes(bits: seq<bit>): (r: seq<nat>)
    ensures |r| == (|bits| + 4) / 5
    ensures forall i | 0 <= i < |r| :: r[i] < 32
  {
    assert Power(5) == 32 by { assert Power(4) == 16; }
    if bits == [] then []
    else if |bits| < 5 then [Value(bits + Bits(5 - |bits|, 0))]
    else [Value(bits[..5])] + Indexes(bits[5..])
  }

  function Encode(bytes: seq<byte>): (r: string)
    ensures |r| == (8 * |bytes| + 4) / 5
  {
    var indexes := Indexes(ByteBits(bytes));
    seq(|indexes|, i requires 0 <= i < |indexes| => ALPHABET[indexes[i]])
  }

  lemma {:induction false} IndexesOfConcat(a: seq<bit>, b: seq<bit>)
    requires |a| % 5 == 0
    ensures Indexes(a + b) == Indexes(a) + Indexes(b)
  {
    if a == [] {
      assert a + b == b;
    } else {
      assert |a| >= 5;
      var five, rest := a[..5], a[5..];
      IndexesOfConcat(rest, b);
      assert (a + b)[..5] == five && (a + b)[5..] == rest + b;
      assert Indexes(a + b) == [Value(five)] + Indexes(rest + b);
    }
  }

  lemma OneGroup(five: seq<bit>)
    requires |five| == 5
    ensures Indexes(five) == [Value(five)]
  {
    assert five[..5] == five && five[5..] == [];
  }

  // ---- The encoder ----

  /** The u16 accumulator after shifting a byte in: the shift drops the high byte. */
  function ShiftIn(buffer: nat, next: byte): nat {
    (buffer * 256) % 0x1_0000 + next
  }

  /** A remainder is determined by any quotient. */
  lemma Remainder(a: int, m: nat, q: int, r: nat)
    requires m > 0 && a == m * q + r && r < m
    ensures a % m == r
  {
    var d := q - a / m;
    assert m * d == m * q - m * (a / m);
    Multiple(m, d);
  }

  lemma Multiple(m: nat, d: int)
    ensures d >= 1 ==> m * d >= m
    ensures d <= -1 ==> m * d + m <= 0
  {
    if d >= 1 {
      assert m * d == m * (d - 1) + m;
    } else if d <= -1 {
      assert m * d == m * (d + 1) - m;
    }
  }

  lemma ShiftedRemainder(buffer: nat, next: byte, p: nat)
    requires p == 1 || p == 2 || p == 4 || p == 8 || p == 16
    ensures ShiftIn(buffer, next) % (p * 256) == (buffer % p) * 256 + next
  {
    Remainder(buffer * 256, 0x1_0000, buffer / 256, (buffer % 256) * 256);
    var shifted := (buffer % 256) * 256 + next;
    assert ShiftIn(buffer, next) == shifted;
    var k, v := buffer / p, buffer % p;
    if p == 1 { Remainder(shifted, 256, buffer % 256, next); }
    else if p == 2 { Remainder(shifted, 512, k - 128 * (buffer / 256), v * 256 + next); }
    else if p == 4 { Remainder(shifted, 1024, k - 64 * (buffer / 256), v * 256 + next); }
    else if p == 8 { Remainder(shifted, 2048, k - 32 * (buffer / 256), v * 256 + next); }
    else { Remainder(shifted, 4096, k - 16 * (buffer / 256), v * 256 + next); }
  }

  /** Only the pending low bits of the accumulator matter, and the overflow never reaches them. */
  lemma ShiftInKeepsPending(buffer: nat, next: byte, pending: seq<bit>)
    requires buffer < 0x1_0000 && |pending| < 5 && buffer % Power(|pending|) == Value(pending)
    ensures ShiftIn(buffer, next) < 0x1_0000
    ensures ShiftIn(buffer, next) % Power(|pending| + 8) == Value(pending + Bits(8, next))
  {
    Powers();
    Remainder(buffer * 256, 0x1_0000, buffer / 256, (buffer % 256) * 256);
    ShiftedRemainder(buffer, next, Power(|pending|));
    ValueOfConcat(pending, Bits(8, next));
    ValueOfBits(8, next);
  }

  lemma Powers()
    ensures Power(0) == 1 && Power(1) == 2 && Power(2) == 4 && Power(3) == 8 && Power(4) == 16 && Power(5) == 32
    ensures Power(6) == 64 && Power(7) == 128 && Power(8) == 256 && Power(9) == 512 && Power(10) == 1024
    ensures Power(11) == 2048 && Power(12) == 4096
  {
    assert Power(2) == 2 * Power(1);
    assert Power(4) == 2 * Power(3);
    assert Power(6) == 2 * Power(5);
    assert Power(8) == 2 * Power(7);
    assert Power(10) == 2 * Power(9);
    assert Power(12) == 2 * Power(11);
  }

  /** The quotient and remainder of a shifted-down accumulator. */
  lemma SplitRemainder(buffer: nat, p: nat, high: nat, low: nat)
    requires p > 0 && low < p && high < 32 && buffer % (p * 32) == high * p + low
    ensures buffer % p == low && (buffer / p) % 32 == high
  {
    var q := buffer / (p * 32);
    assert buffer == p * 32 * q + high * p + low;
    assert p * 32 * q == p * (32 * q);
    assert p * (32 * q) + high * p == p * (32 * q + high);
    Remainder(buffer, p, 32 * q + high, low);
    assert buffer / p == 32 * q + high;
    Remainder(32 * q + high, 32, q, high);
  }

  /** Splitting the five leading pending bits off the accumulator. */
  lemma TakeFive(buffer: nat, pending: seq<bit>)
    requires 5 <= |pending| <= 12 && buffer % Power(|pending|) == Value(pending)
    ensures (buffer / Power(|pending| - 5)) % 32 == Value(pending[..5])
    ensures buffer % Power(|pending| - 5) == Value(pending[5..])
  {
    var high, low := pending[..5], pending[5..];
    assert pending == high + low;
    ValueOfConcat(high, low);
    assert Power(|pending|) == Power(|low|) * 32 && Power(5) == 32 by { Powers(); }
    SplitRemainder(buffer, Power(|low|), Value(high), Value(low));
  }

  lemma PaddedRemainder(buffer: nat, p: nat, up: nat)
    requires (p == 2 && up == 16) || (p == 4 && up == 8) || (p == 8 && up == 4) || (p == 16 && up == 2)
    ensures ((buffer * up) % 0x1_0000) % 32 == (buffer % p) * up
  {
    var wide := buffer * up;
    var k, v := buffer / p, buffer % p;
    var lost := wide / 0x1_0000;
    if p == 2 { Remainder(wide % 0x1_0000, 32, k - 2048 * lost, v * 16); }
    else if p == 4 { Remainder(wide % 0x1_0000, 32, k - 2048 * lost, v * 8); }
    else if p == 8 { Remainder(wide % 0x1_0000, 32, k - 2048 * lost, v * 4); }
    else { Remainder(wide % 0x1_0000, 32, k - 2048 * lost, v * 2); }
  }

  /** The last group: shifting the remaining bits up pads them with zeros. */
  lemma PadLast(buffer: nat, pending: seq<bit>)
    requires 0 < |pending| < 5 && buffer % Power(|pending|) == Value(pending)
    ensures ((buffer * Power(5 - |pending|)) % 0x1_0000) % 32 == Value(pending + Bits(5 - |pending|, 0))
  {
    var padding := Bits(5 - |pending|, 0);
    var p, up := Power(|pending|), Power(5 - |pending|);
    assert Value(pending + padding) == Value(pending) * up by {
      ValueOfConcat(pending, padding);
      ValueOfBits(5 - |pending|, 0);
    }
    ComplementaryPowers(|pending|);
    PaddedRemainder(buffer, p, up);
  }

  lemma ComplementaryPowers(n: nat)
    requires 0 < n < 5
    ensures var p, up := Power(n), Power(5 - n);
            (p == 2 && up == 16) || (p == 4 && up == 8) || (p == 8 && up == 4) || (p == 16 && up == 2)
  {
    Powers();
  }

  /** What the loop has done: the output encodes a multiple of five bits and the rest is pending. */
  ghost predicate Progress(seen: seq<bit>, output: string, buffer: nat, bits: nat) {
    && |seen| == 5 * |output| + bits && buffer < 0x1_0000
    && buffer % Power(bits) == Value(seen[5 * |output|..])
    && Spells(output, Indexes(seen[..5 * |output|]))
  }

  predicate Spells(text: string, indexes: seq<nat>) {
    && |text| == |indexes|
    && forall i | 0 <= i < |text| :: indexes[i] < 32 && text[i] == ALPHABET[indexes[i]]
  }

  lemma ProgressShifts(seen: seq<bit>, output: string, buffer: nat, bits: nat, next: byte)
    requires Progress(seen, output, buffer, bits) && bits < 5
    ensures Progress(seen + Bits(8, next), output, ShiftIn(buffer, next), bits + 8)
  {
    var done := 5 * |output|;
    var now := seen + Bits(8, next);
    ShiftInKeepsPending(buffer, next, seen[done..]);
    assert now[done..] == seen[done..] + Bits(8, next);
    assert now[..done] == seen[..done];
  }

  lemma ProgressTakes(seen: seq<bit>, output: string, buffer: nat, bits: nat)
    requires Progress(seen, output, buffer, bits) && 5 <= bits <= 12
    ensures var index := (buffer / Power(bits - 5)) % 32;
            Progress(seen, output + [ALPHABET[index]], buffer, bits - 5)
  {
    var done := 5 * |output|;
    var pending := seen[done..];
    var five := pending[..5];
    assert pending[5..] == seen[done + 5..];
    assert seen[..done + 5] == seen[..done] + five;
    var index := (buffer / Power(bits - 5)) % 32;
    assert index == Value(five) && buffer % Power(bits - 5) == Value(pending[5..]) by {
      TakeFive(buffer, pending);
    }
    assert Indexes(seen[..done] + five) == Indexes(seen[..done]) + [index] by {
      IndexesOfConcat(seen[..done], five);
      OneGroup(five);
    }
  }

  lemma ProgressEnds(seen: seq<bit>, output: string, buffer: nat, bits: nat)
    requires Progress(seen, output, buffer, bits) && 0 < bits < 5
    ensures var index := ((buffer * Power(5 - bits)) % 0x1_0000) % 32;
            Spells(output + [ALPHABET[index]], Indexes(seen))
  {
    var done := 5 * |output|;
    var pending := seen[done..];
    var index := ((buffer * Power(5 - bits)) % 0x1_0000) % 32;
    assert index == Value(pending + Bits(5 - bits, 0)) by {
      PadLast(buffer, pending);
    }
    assert seen == seen[..done] + pending;
    assert Indexes(seen) == Indexes(seen[..done]) + [index] by {
      IndexesOfConcat(seen[..done], pending);
    }
  }

  method Base32NoPadding(bytes: seq<byte>) returns (output: string)
    ensures output == Encode(bytes)
  {
    output := "";
    var buffer: nat, bits: nat := 0, 0;
    var i := 0;
    while i < |bytes|
      invariant 0 <= i <= |bytes| && 0 <= bits < 5
      invariant Progress(ByteBits(bytes[..i]), output, buffer, bits)
    {
      ProgressShifts(ByteBits(bytes[..i]), output, buffer, bits, bytes[i]);
      buffer := ShiftIn(buffer, bytes[i]);
      bits := bits + 8;
      ghost var now := ByteBits(bytes[..i + 1]);
      assert bytes[..i + 1][..i] == bytes[..i];
      while bits >= 5
        invariant 0 <= bits <= 12
        invariant Progress(now, output, buffer, bits)
      {
        ProgressTakes(now, output, buffer, bits);
        var index := (buffer / Power(bits - 5)) % 32;
        output := output + [ALPHABET[index]];
        bits := bits - 5;
      }
      i := i + 1;
    }
    assert bytes[..i] == bytes;
    if bits > 0 {
      ProgressEnds(ByteBits(bytes), output, buffer, bits);
      var index := ((buffer * Power(5 - bits)) % 0x1_0000) % 32;
      output := output + [ALPHABET[index]];
    } else {
      assert ByteBits(bytes)[..5 * |output|] == ByteBits(bytes);
    }
    assert Spells(output, Indexes(ByteBits(bytes)));
  }

  // ---- Decoding recovers the input ----

  /** The bits that a sequence of five-bit groups stands for. */
  function GroupBits(indexes: seq<nat>): (r: seq<bit>)
    ensures |r| == 5 * |indexes|
  {
    if indexes == [] then [] else Bits(5, indexes[0]) + GroupBits(indexes[1..])
  }

  /** Whole bytes at the front of a bit string. */
  function BitBytes(bits: seq<bit>): (r: seq<byte>)
    ensures |r| == |bits| / 8
  {
    if |bits| < 8 then []
    else
      assert Power(8) == 256 by { Powers(); }
      [Value(bits[..8])] + BitBytes(bits[8..])
  }

  /** The value of a letter in the table of section 6 of RFC 4648. */
  function IndexOf(c: char): nat {
    if 'A' <= c <= 'Z' then (c - 'A') as int
    else if '2' <= c <= '7' then 26 + (c - '2') as int
    else 0
  }

  function Decode(text: string): seq<byte> {
    BitBytes(GroupBits(seq(|text|, i requires 0 <= i < |text| => IndexOf(text[i]))))
  }

  /** Ungrouping gives the bits back, followed by fewer than five padding zeros. */
  lemma {:induction false} UngroupedIndexes(bits: seq<bit>)
    ensures bits <= GroupBits(Indexes(bits))
  {
    var groups := Indexes(bits);
    if bits == [] {
    } else if |bits| < 5 {
      var padded := bits + Bits(5 - |bits|, 0);
      BitsOfValue(padded);
      assert groups[1..] == [];
      assert GroupBits(groups) == padded + GroupBits([]);
    } else {
      BitsOfValue(bits[..5]);
      assert groups[1..] == Indexes(bits[5..]);
      UngroupedIndexes(bits[5..]);
      assert bits == bits[..5] + bits[5..];
    }
  }

  lemma {:induction false} BytesOfBits(bytes: seq<byte>, bits: seq<bit>)
    requires ByteBits(bytes) <= bits && |bits| < 8 * |bytes| + 8
    ensures BitBytes(bits) == bytes
  {
    if bytes != [] {
      FrontByte(bytes);
      Powers();
      ValueOfBits(8, bytes[0]);
      assert bits[..8] == ByteBits(bytes)[..8];
      BytesOfBits(bytes[1..], bits[8..]);
    }
  }

  /** The bits of a byte string start with the bits of its first byte. */
  lemma {:induction false} FrontByte(bytes: seq<byte>)
    requires bytes != []
    ensures ByteBits(bytes)[..8] == Bits(8, bytes[0])
    ensures ByteBits(bytes)[8..] == ByteBits(bytes[1..])
  {
    var init, last := bytes[..|bytes| - 1], Bits(8, bytes[|bytes| - 1]);
    assert ByteBits(bytes) == ByteBits(init) + last;
    if |bytes| > 1 {
      FrontByte(init);
      var tail := bytes[1..];
      assert tail[..|tail| - 1] == init[1..];
      assert ByteBits(tail) == ByteBits(init[1..]) + last;
      assert (ByteBits(init) + last)[..8] == ByteBits(init)[..8];
      assert (ByteBits(init) + last)[8..] == ByteBits(init)[8..] + last;
    } else {
      assert init == [] && ByteBits(bytes) == last;
    }
  }

  lemma DecodeRecovers(bytes: seq<byte>)
    ensures Decode(Encode(bytes)) == bytes
  {
    var indexes := Indexes(ByteBits(bytes));
    var text := Encode(bytes);
    var read := seq(|text|, i requires 0 <= i < |text| => IndexOf(text[i]));
    forall i | 0 <= i < |text|
      ensures read[i] == indexes[i]
    {
      LetterIndex(indexes[i]);
    }
    assert read == indexes;
    UngroupedIndexes(ByteBits(bytes));
    BytesOfBits(bytes, GroupBits(indexes));
  }

  lemma LetterIndex(i: nat)
    requires i < 32
    ensures IndexOf(ALPHABET[i]) == i
  {
    if i < 16 {
      assert ALPHABET[i] == "ABCDEFGHIJKLMNOP"[i];
    } else {
      assert ALPHABET[i] == "QRSTUVWXYZ234567"[i - 16];
    }
  }
}
