/** Fixed-width machine integers of the LR35902 core and the few bitwise
    operations the core applies to them, written as arithmetic on bounded
    integers: `x >> 8` is `x / 256`, `x & 0xFF` is `x % 256`, `x & 0x0F` is
    `x % 16`, and `(h << 8) | l` is `h * 256 + l` when `l < 256`. */
module Bits {
  /** Rust `u8`: a register lane, the flag byte or a memory cell. */
  type U8 = x: int | 0 <= x < 0x100

  /** Rust `u16`: a register pair, PC, SP or an address. */
  type U16 = x: int | 0 <= x < 0x1_0000

  /** A mask with exactly one bit set in the high nibble of a byte. */
  type HighBit = m: int | m == 0x80 || m == 0x40 || m == 0x20 || m == 0x10 witness 0x80

  /** `x & m != 0`: bits 7..4 of `x` are the bits 3..0 of its high nibble. */
  predicate HasBit(x: U8, m: HighBit) {
    var nibble := x / 16;
    if m == 0x80 then nibble >= 8
    else if m == 0x40 then nibble % 8 >= 4
    else if m == 0x20 then nibble % 4 >= 2
    else nibble % 2 == 1
  }

  /** Bit `m` of `x` is set exactly when `x mod 2m` reaches `m`. */
  lemma HasBitByRange(x: U8, m: HighBit)
    ensures HasBit(x, m) <==> x % (2 * m) >= m
  {
    if m == 0x40 {
      Bit6ByRange(x);
    } else if m == 0x20 {
      Bit5ByRange(x);
    } else if m == 0x10 {
      Bit4ByRange(x);
    }
  }

  /** Bit 6 of `x` read off its high nibble and off `x mod 0x80`. */
  lemma Bit6ByRange(x: U8)
    ensures (x / 16) % 8 >= 4 <==> x % 0x80 >= 0x40
  {
    assert x % 0x80 == if x >= 0x80 then x - 0x80 else x;
  }

  /** Bit 5, likewise with `x mod 0x40`. */
  lemma Bit5ByRange(x: U8)
    ensures (x / 16) % 4 >= 2 <==> x % 0x40 >= 0x20
  {
    assert x % 0x40 == x - 0x40 * (x / 0x40);
    assert (x / 16) % 4 == x / 16 - 4 * (x / 0x40);
  }

  /** Bit 4, likewise with `x mod 0x20`. */
  lemma Bit4ByRange(x: U8)
    ensures (x / 16) % 2 == 1 <==> x % 0x20 >= 0x10
  {
    assert x % 0x20 == x - 0x20 * (x / 0x20);
    assert (x / 16) % 2 == x / 16 - 2 * (x / 0x20);
  }

  /** Adding a clear high-nibble bit sets it and keeps the low nibble. */
  lemma AddClearBitSelf(x: U8, m: HighBit)
    requires !HasBit(x, m)
    ensures x + m < 0x100 && HasBit(x + m, m) && (x + m) % 16 == x % 16
  {
  }

  /** Subtracting a set high-nibble bit clears it and keeps the low nibble. */
  lemma SubtractSetBitSelf(x: U8, m: HighBit)
    requires HasBit(x, m)
    ensures x >= m && !HasBit(x - m, m) && (x - m) % 16 == x % 16
  {
  }

  /** Adding a clear high-nibble bit leaves every other high-nibble bit. */
  lemma AddClearBit(x: U8, m: HighBit, m': HighBit)
    requires !HasBit(x, m) && m != m'
    ensures x + m < 0x100
    ensures HasBit(x + m, m') <==> HasBit(x, m')
  {
  }

  /** Subtracting a set high-nibble bit leaves every other high-nibble bit. */
  lemma SubtractSetBit(x: U8, m: HighBit, m': HighBit)
    requires HasBit(x, m) && m != m'
    ensures x >= m
    ensures HasBit(x - m, m') <==> HasBit(x, m')
  {
    SubtractSetBitSelf(x, m);
    AddClearBit(x - m, m, m');
  }

  /** `x | m`: sets bit `m` and keeps every other bit of `x`. */
  function WithBit(x: U8, m: HighBit): (r: U8)
    ensures HasBit(r, m)
    ensures forall m': HighBit :: m' != m ==> (HasBit(r, m') <==> HasBit(x, m'))
    ensures r % 16 == x % 16
  {
    if HasBit(x, m) then x
    else
      AddClearBitSelf(x, m);
      forall m': HighBit | m' != m ensures HasBit(x + m, m') <==> HasBit(x, m') {
        AddClearBit(x, m, m');
      }
      x + m
  }

  /** `x & !m`: clears bit `m` and keeps every other bit of `x`. */
  function WithoutBit(x: U8, m: HighBit): (r: U8)
    ensures !HasBit(r, m)
    ensures forall m': HighBit :: m' != m ==> (HasBit(r, m') <==> HasBit(x, m'))
    ensures r % 16 == x % 16
  {
    if !HasBit(x, m) then x
    else
      SubtractSetBitSelf(x, m);
      forall m': HighBit | m' != m ensures HasBit(x - m, m') <==> HasBit(x, m') {
        SubtractSetBit(x, m, m');
      }
      x - m
  }

  /** A byte is determined by its four high-nibble bits and its low nibble. */
  lemma ByteFromBits(x: U8, y: U8)
    requires forall m: HighBit :: HasBit(x, m) <==> HasBit(y, m)
    requires x % 16 == y % 16
    ensures x == y
  {
    assert HasBit(x, 0x80) <==> HasBit(y, 0x80);
    assert HasBit(x, 0x40) <==> HasBit(y, 0x40);
    assert HasBit(x, 0x20) <==> HasBit(y, 0x20);
    assert HasBit(x, 0x10) <==> HasBit(y, 0x10);
  }
}
