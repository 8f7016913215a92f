/** The LR35902 register file (gbemu/src/registers.rs): the pairs AF, BC, DE
    and HL, each also addressable as two 8-bit registers, plus the bare 16-bit
    PC and SP; the four flags live in bits 7..4 of F. */
module RegisterFile {
  import opened Bits
  import Words

  datatype Registers = Registers(
    af: Words.Word,
    bc: Words.Word,
    de: Words.Word,
    hl: Words.Word,
    pc: U16,
    sp: U16)

  /** The eight 8-bit registers; A, B, D and H are high lanes, F, C, E and L
      low lanes. */
  datatype Reg8 = A | B | C | D | E | F | H | L

  /** The six 16-bit registers. */
  datatype Reg16 = AF | BC | DE | HL | SP | PC

  datatype Flag = Zero | Subtract | HalfCarry | Carry

  const ZeroFlagMask: HighBit := 0x80
  const SubtractFlagMask: HighBit := 0x40
  const HalfCarryFlagMask: HighBit := 0x20
  const CarryFlagMask: HighBit := 0x10

  /** The bit of F that holds `f`. */
  function Mask(f: Flag): HighBit {
    match f
    case Zero => ZeroFlagMask
    case Subtract => SubtractFlagMask
    case HalfCarry => HalfCarryFlagMask
    case Carry => CarryFlagMask
  }

  /** The values the boot ROM leaves behind. */
  function New(): (r: Registers)
    ensures Get16(r, AF) == 0x01B0 && Get16(r, BC) == 0x0013
    ensures Get16(r, DE) == 0x00D8 && Get16(r, HL) == 0x014D
    ensures Get16(r, PC) == 0x0100 && Get16(r, SP) == 0xFFFE
  {
    Registers(
      Words.Word(0x01, 0xB0),
      Words.Word(0x00, 0x13),
      Words.Word(0x00, 0xD8),
      Words.Word(0x01, 0x4D),
      0x0100,
      0xFFFE)
  }

  function Get8(r: Registers, t: Reg8): U8 {
    match t
    case A => r.af.hi
    case B => r.bc.hi
    case C => r.bc.lo
    case D => r.de.hi
    case E => r.de.lo
    case F => r.af.lo
    case H => r.hl.hi
    case L => r.hl.lo
  }

  /** Writes one lane; the other lane of the pair and every other register
      keep their values. */
  function Set8(r: Registers, t: Reg8, v: U8): (r': Registers)
    ensures Get8(r', t) == v
    ensures forall u: Reg8 :: u != t ==> Get8(r', u) == Get8(r, u)
    ensures r'.pc == r.pc && r'.sp == r.sp
  {
    match t
    case A => r.(af := r.af.(hi := v))
    case B => r.(bc := r.bc.(hi := v))
    case C => r.(bc := r.bc.(lo := v))
    case D => r.(de := r.de.(hi := v))
    case E => r.(de := r.de.(lo := v))
    case F => r.(af := r.af.(lo := v))
    case H => r.(hl := r.hl.(hi := v))
    case L => r.(hl := r.hl.(lo := v))
  }

  function Get16(r: Registers, t: Reg16): U16 {
    match t
    case AF => Words.Get16(r.af)
    case BC => Words.Get16(r.bc)
    case DE => Words.Get16(r.de)
    case HL => Words.Get16(r.hl)
    case PC => r.pc
    case SP => r.sp
  }

  /** Writes a whole 16-bit register; the other five keep their values. */
  function Set16(r: Registers, t: Reg16, v: U16): (r': Registers)
    ensures Get16(r', t) == v
    ensures forall u: Reg16 :: u != t ==> Get16(r', u) == Get16(r, u)
  {
    match t
    case AF => r.(af := Words.Set16(r.af, v))
    case BC => r.(bc := Words.Set16(r.bc, v))
    case DE => r.(de := Words.Set16(r.de, v))
    case HL => r.(hl := Words.Set16(r.hl, v))
    case PC => r.(pc := v)
    case SP => r.(sp := v)
  }

  /** Each pair reads as its high register times 256 plus its low register. */
  lemma PairsAreLanes(r: Registers)
    ensures Get16(r, AF) == Get8(r, A) * 256 + Get8(r, F)
    ensures Get16(r, BC) == Get8(r, B) * 256 + Get8(r, C)
    ensures Get16(r, DE) == Get8(r, D) * 256 + Get8(r, E)
    ensures Get16(r, HL) == Get8(r, H) * 256 + Get8(r, L)
    ensures Get16(r, PC) == r.pc && Get16(r, SP) == r.sp
  {
  }

  /** Two register files that agree on every 8-bit register, PC and SP are
      the same register file. */
  lemma Extensionality(r1: Registers, r2: Registers)
    requires forall u: Reg8 :: Get8(r1, u) == Get8(r2, u)
    requires r1.pc == r2.pc && r1.sp == r2.sp
    ensures r1 == r2
  {
    assert Get8(r1, A) == Get8(r2, A) && Get8(r1, F) == Get8(r2, F);
    assert Get8(r1, B) == Get8(r2, B) && Get8(r1, C) == Get8(r2, C);
    assert Get8(r1, D) == Get8(r2, D) && Get8(r1, E) == Get8(r2, E);
    assert Get8(r1, H) == Get8(r2, H) && Get8(r1, L) == Get8(r2, L);
  }

  /** The four masks are four distinct bits of the high nibble of F, and
      together with the low nibble they make up the whole byte. */
  lemma MasksPartitionF(x: U8)
    ensures forall f: Flag, g: Flag :: f != g ==> Mask(f) != Mask(g)
    ensures x == (if HasBit(x, Mask(Zero)) then Mask(Zero) else 0)
               + (if HasBit(x, Mask(Subtract)) then Mask(Subtract) else 0)
               + (if HasBit(x, Mask(HalfCarry)) then Mask(HalfCarry) else 0)
               + (if HasBit(x, Mask(Carry)) then Mask(Carry) else 0)
               + x % 16
  {
  }

  /** `(F & mask) != 0`: bit 7 of F for Z, 6 for N, 5 for H, 4 for C. */
  function GetFlag(r: Registers, f: Flag): (b: bool)
    ensures f == Zero ==> (b <==> Get8(r, F) >= 0x80)
    ensures f == Subtract ==> (b <==> Get8(r, F) % 0x80 >= 0x40)
    ensures f == HalfCarry ==> (b <==> Get8(r, F) % 0x40 >= 0x20)
    ensures f == Carry ==> (b <==> Get8(r, F) % 0x20 >= 0x10)
  {
    HasBitByRange(r.af.lo, Mask(f));
    HasBit(r.af.lo, Mask(f))
  }

  /** Sets or clears one flag bit of F; the other three flags, the low nibble
      of F and every other register keep their values. */
  function SetFlag(r: Registers, f: Flag, b: bool): (r': Registers)
    ensures GetFlag(r', f) == b
    ensures forall g: Flag :: g != f ==> GetFlag(r', g) == GetFlag(r, g)
    ensures Get8(r', F) % 16 == Get8(r, F) % 16
    ensures forall u: Reg8 :: u != F ==> Get8(r', u) == Get8(r, u)
    ensures r'.pc == r.pc && r'.sp == r.sp
  {
    var m := Mask(f);
    r.(af := r.af.(lo := if b then WithBit(r.af.lo, m) else WithoutBit(r.af.lo, m)))
  }

  /** Setting a flag to the value it already has changes nothing. */
  lemma SetFlagCurrent(r: Registers, f: Flag)
    ensures SetFlag(r, f, GetFlag(r, f)) == r
  {
  }

  /** Redefines all four flags at once and clears the low nibble of F; every
      other register keeps its value. */
  function SetFlags(r: Registers, zero: bool, subtract: bool, halfCarry: bool, carry: bool): (r': Registers)
    ensures GetFlag(r', Zero) == zero && GetFlag(r', Subtract) == subtract
    ensures GetFlag(r', HalfCarry) == halfCarry && GetFlag(r', Carry) == carry
    ensures Get8(r', F) % 16 == 0
    ensures forall u: Reg8 :: u != F ==> Get8(r', u) == Get8(r, u)
    ensures r'.pc == r.pc && r'.sp == r.sp
  {
    var f0 := 0;
    var f1 := if zero then WithBit(f0, ZeroFlagMask) else f0;
    var f2 := if subtract then WithBit(f1, SubtractFlagMask) else f1;
    var f3 := if halfCarry then WithBit(f2, HalfCarryFlagMask) else f2;
    var f4 := if carry then WithBit(f3, CarryFlagMask) else f3;
    r.(af := r.af.(lo := f4))
  }

  /** Setting all four flags at once is clearing F and then setting each flag
      in turn. */
  lemma SetFlagsIsFourSetFlag(r: Registers, zero: bool, subtract: bool, halfCarry: bool, carry: bool)
    ensures SetFlags(r, zero, subtract, halfCarry, carry)
         == SetFlag(SetFlag(SetFlag(SetFlag(Set8(r, F, 0), Zero, zero), Subtract, subtract),
                            HalfCarry, halfCarry), Carry, carry)
  {
    var lhs := SetFlags(r, zero, subtract, halfCarry, carry);
    var rhs := SetFlag(SetFlag(SetFlag(SetFlag(Set8(r, F, 0), Zero, zero), Subtract, subtract),
                               HalfCarry, halfCarry), Carry, carry);
    forall m: HighBit ensures HasBit(Get8(lhs, F), m) <==> HasBit(Get8(rhs, F), m) {
      assert m == Mask(Zero) || m == Mask(Subtract) || m == Mask(HalfCarry) || m == Mask(Carry);
    }
    ByteFromBits(Get8(lhs, F), Get8(rhs, F));
    Extensionality(lhs, rhs);
  }
}
