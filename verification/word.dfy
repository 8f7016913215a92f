/** A register pair: two 8-bit lanes that can also be read and written as one
    16-bit value (gbemu/src/word.rs). */
module Words {
  import opened Bits

  /** `hi` is the Rust field `.0` (bits 15..8), `lo` is `.1` (bits 7..0). */
  datatype Word = Word(hi: U8, lo: U8)

  /** The 16-bit value of the pair, `(hi << 8) | lo`. */
  function Get16(w: Word): (v: U16)
    ensures v / 256 == w.hi && v % 256 == w.lo
  {
    w.hi * 256 + w.lo
  }

  /** Overwrites both lanes with `v >> 8` and `v & 0xFF`. */
  function Set16(w: Word, v: U16): (r: Word)
    ensures Get16(r) == v
  {
    Word(v / 256, v % 256)
  }

  /** Writing back what was read leaves both lanes unchanged. */
  lemma Set16Get16(w: Word)
    ensures Set16(w, Get16(w)) == w
  {
  }

  /** The result of `Set16` does not depend on the old lanes, so writing the
      same value twice is the same as writing it once. */
  lemma Set16Overwrites(w1: Word, w2: Word, v: U16)
    ensures Set16(w1, v) == Set16(w2, v)
    ensures Set16(Set16(w1, v), v) == Set16(w1, v)
  {
  }
}
