/** The flat 64 KiB address space (gbemu/src/memory.rs). Every 16-bit
    address names a cell; the 16-bit accessors touch `addr` and `addr + 1`
    and put the high byte at the lower address. */
module MemoryBus {
  import opened Bits

  /** Exactly 65536 byte cells. */
  type Memory = s: seq<U8> | |s| == 0x1_0000 witness seq(0x1_0000, _ => 0)

  /** A zero-filled address space. */
  function New(): (m: Memory)
    ensures forall a: U16 :: Get8(m, a) == 0
  {
    seq(0x1_0000, _ => 0)
  }

  function Get8(m: Memory, addr: U16): U8 {
    m[addr]
  }

  /** Writes one cell; every other address keeps its value. */
  function Set8(m: Memory, addr: U16, v: U8): (r: Memory)
    ensures Get8(r, addr) == v
    ensures forall a: U16 :: a != addr ==> Get8(r, a) == Get8(m, a)
  {
    m[addr := v]
  }

  /** `(mem[addr] << 8) | mem[addr + 1]`; the Rust code indexes past the end
      of the array, and panics, when `addr` is 0xFFFF. */
  function Get16(m: Memory, addr: U16): (v: U16)
    requires addr < 0xFFFF
    ensures v / 256 == Get8(m, addr) && v % 256 == Get8(m, addr + 1)
  {
    m[addr] as int * 256 + m[addr + 1]
  }

  /** The 16-bit store as the code writes it: `v >> 8` at `addr` and
      `v & 0x0F`, not `v & 0xFF`, at `addr + 1`. */
  function Set16AsWritten(m: Memory, addr: U16, v: U16): (r: Memory)
    requires addr < 0xFFFF
    ensures Get8(r, addr) == v / 256 && Get8(r, addr + 1) == v % 16
    ensures forall a: U16 :: a != addr && a != addr + 1 ==> Get8(r, a) == Get8(m, a)
  {
    m[addr := v / 256][addr + 1 := v % 16]
  }

  /** Reading back the as-written store yields `v & 0xFF0F`: bits 7..4 of the
      value are lost, so the round trip holds exactly when they are zero. */
  lemma Set16AsWrittenRoundTrip(m: Memory, addr: U16, v: U16)
    requires addr < 0xFFFF
    ensures Get16(Set16AsWritten(m, addr, v), addr) == v - v % 256 + v % 16
    ensures Get16(Set16AsWritten(m, addr, v), addr) == v <==> v % 256 < 16
  {
  }

  /** Storing 0x00FF at address 0 and reading it back gives 0x000F. */
  lemma Set16AsWrittenLosesBits()
    ensures Get16(Set16AsWritten(New(), 0, 0x00FF), 0) == 0x000F
  {
    Set16AsWrittenRoundTrip(New(), 0, 0x00FF);
  }

  /** The 16-bit store with the low byte masked by 0xFF: `v >> 8` at `addr`,
      `v & 0xFF` at `addr + 1`, nothing else changes. */
  function Set16(m: Memory, addr: U16, v: U16): (r: Memory)
    requires addr < 0xFFFF
    ensures Get16(r, addr) == v
    ensures forall a: U16 :: a != addr && a != addr + 1 ==> Get8(r, a) == Get8(m, a)
  {
    m[addr := v / 256][addr + 1 := v % 256]
  }

  /** Writing back what was read leaves memory unchanged. */
  lemma Set16Get16(m: Memory, addr: U16)
    requires addr < 0xFFFF
    ensures Set16(m, addr, Get16(m, addr)) == m
  {
    var r := Set16(m, addr, Get16(m, addr));
    assert forall a | 0 <= a < 0x1_0000 :: r[a] == m[a];
  }
}
