/** The opcode constants of the primary table (gbemu/src/instructions.rs)
    as an encoding between opcode bytes and mnemonics, with the length,
    cycle and flag metadata documented on a few entries. Only the 0x00-0x3F
    block and four later opcodes are defined there. */
module Opcodes {
  import opened Bits
  import opened Wrappers

  /** One constructor per constant; the name spells the mnemonic, with `Ind`
      for a parenthesised operand, `Inc`/`Dec` for `(HL+)`/`(HL-)`, `D8`/`D16`
      for immediate data, `A16` for an immediate address and `S8` for a
      signed displacement. */
  datatype Opcode =
    | NoOp | LdBcD16 | LdIndBcA | IncBc | IncB | DecB | LdBD8 | Rlca | LdA16Sp | AddHlBc | LdAIndBc | DecBc | IncC | DecC | LdCD8 | Rrca
    | Stop | LdDeD16 | LdIndDeA | IncDe | IncD | DecD | LdDD8 | Rla | JrS8 | AddHlDe | LdAIndDe | DecDe | IncE | DecE | LdED8 | Rra
    | JrNzS8 | LdHlD16 | LdIndHlIncA | IncHl | IncH | DecH | LdHD8 | Daa | JrZS8 | AddHlHl | LdAIndHlInc | DecHl | IncL | DecL | LdLD8 | Cpl
    | JrNcS8 | LdSpD16 | LdIndHlDecA | IncSp | IncIndHl | DecIndHl | LdIndHlD8 | Scf | JrCS8 | AddHlSp | LdAIndHlDec | DecSp | IncA | DecA | LdAD8 | Ccf
    // 0x80, 0x81, 0xCB, 0xF8
    | AddAB | AddAC | Prefix | LdHlSpAddS8

  /** The opcode byte of each mnemonic. */
  function Encode(op: Opcode): (b: U8)
    ensures b < 0x40 || b == 0x80 || b == 0x81 || b == 0xCB || b == 0xF8
  {
    match op
    case NoOp => 0x00
    case LdBcD16 => 0x01
    case LdIndBcA => 0x02
    case IncBc => 0x03
    case IncB => 0x04
    case DecB => 0x05
    case LdBD8 => 0x06
    case Rlca => 0x07
    case LdA16Sp => 0x08
    case AddHlBc => 0x09
    case LdAIndBc => 0x0A
    case DecBc => 0x0B
    case IncC => 0x0C
    case DecC => 0x0D
    case LdCD8 => 0x0E
    case Rrca => 0x0F
    case Stop => 0x10
    case LdDeD16 => 0x11
    case LdIndDeA => 0x12
    case IncDe => 0x13
    case IncD => 0x14
    case DecD => 0x15
    case LdDD8 => 0x16
    case Rla => 0x17
    case JrS8 => 0x18
    case AddHlDe => 0x19
    case LdAIndDe => 0x1A
    case DecDe => 0x1B
    case IncE => 0x1C
    case DecE => 0x1D
    case LdED8 => 0x1E
    case Rra => 0x1F
    case JrNzS8 => 0x20
    case LdHlD16 => 0x21
    case LdIndHlIncA => 0x22
    case IncHl => 0x23
    case IncH => 0x24
    case DecH => 0x25
    case LdHD8 => 0x26
    case Daa => 0x27
    case JrZS8 => 0x28
    case AddHlHl => 0x29
    case LdAIndHlInc => 0x2A
    case DecHl => 0x2B
    case IncL => 0x2C
    case DecL => 0x2D
    case LdLD8 => 0x2E
    case Cpl => 0x2F
    case JrNcS8 => 0x30
    case LdSpD16 => 0x31
    case LdIndHlDecA => 0x32
    case IncSp => 0x33
    case IncIndHl => 0x34
    case DecIndHl => 0x35
    case LdIndHlD8 => 0x36
    case Scf => 0x37
    case JrCS8 => 0x38
    case AddHlSp => 0x39
    case LdAIndHlDec => 0x3A
    case DecSp => 0x3B
    case IncA => 0x3C
    case DecA => 0x3D
    case LdAD8 => 0x3E
    case Ccf => 0x3F
    case AddAB => 0x80
    case AddAC => 0x81
    case Prefix => 0xCB
    case LdHlSpAddS8 => 0xF8
  }

  /** Row 0x0* of the table, indexed by the low nibble of the byte. */
  function Row0(n: int): Opcode
    requires 0 <= n < 16
  {
    match n
    case 0x0 => NoOp
    case 0x1 => LdBcD16
    case 0x2 => LdIndBcA
    case 0x3 => IncBc
    case 0x4 => IncB
    case 0x5 => DecB
    case 0x6 => LdBD8
    case 0x7 => Rlca
    case 0x8 => LdA16Sp
    case 0x9 => AddHlBc
    case 0xA => LdAIndBc
    case 0xB => DecBc
    case 0xC => IncC
    case 0xD => DecC
    case 0xE => LdCD8
    case _ => Rrca
  }

  /** Row 0x1* of the table, indexed by the low nibble of the byte. */
  function Row1(n: int): Opcode
    requires 0 <= n < 16
  {
    match n
    case 0x0 => Stop
    case 0x1 => LdDeD16
    case 0x2 => LdIndDeA
    case 0x3 => IncDe
    case 0x4 => IncD
    case 0x5 => DecD
    case 0x6 => LdDD8
    case 0x7 => Rla
    case 0x8 => JrS8
    case 0x9 => AddHlDe
    case 0xA => LdAIndDe
    case 0xB => DecDe
    case 0xC => IncE
    case 0xD => DecE
    case 0xE => LdED8
    case _ => Rra
  }

  /** Row 0x2* of the table, indexed by the low nibble of the byte. */
  function Row2(n: int): Opcode
    requires 0 <= n < 16
  {
    match n
    case 0x0 => JrNzS8
    case 0x1 => LdHlD16
    case 0x2 => LdIndHlIncA
    case 0x3 => IncHl
    case 0x4 => IncH
    case 0x5 => DecH
    case 0x6 => LdHD8
    case 0x7 => Daa
    case 0x8 => JrZS8
    case 0x9 => AddHlHl
    case 0xA => LdAIndHlInc
    case 0xB => DecHl
    case 0xC => IncL
    case 0xD => DecL
    case 0xE => LdLD8
    case _ => Cpl
  }

  /** Row 0x3* of the table, indexed by the low nibble of the byte. */
  function Row3(n: int): Opcode
    requires 0 <= n < 16
  {
    match n
    case 0x0 => JrNcS8
    case 0x1 => LdSpD16
    case 0x2 => LdIndHlDecA
    case 0x3 => IncSp
    case 0x4 => IncIndHl
    case 0x5 => DecIndHl
    case 0x6 => LdIndHlD8
    case 0x7 => Scf
    case 0x8 => JrCS8
    case 0x9 => AddHlSp
    case 0xA => LdAIndHlDec
    case 0xB => DecSp
    case 0xC => IncA
    case 0xD => DecA
    case 0xE => LdAD8
    case _ => Ccf
  }

  /** The mnemonic of an opcode byte, if the table names one. */
  function Decode(b: U8): (r: Option<Opcode>)
    ensures r.Some? <==> b < 0x40 || b == 0x80 || b == 0x81 || b == 0xCB || b == 0xF8
  {
    if b < 0x10 then Some(Row0(b))
    else if b < 0x20 then Some(Row1(b - 0x10))
    else if b < 0x30 then Some(Row2(b - 0x20))
    else if b < 0x40 then Some(Row3(b - 0x30))
    else if b == 0x80 then Some(AddAB)
    else if b == 0x81 then Some(AddAC)
    else if b == 0xCB then Some(Prefix)
    else if b == 0xF8 then Some(LdHlSpAddS8)
    else None
  }

  /** Bytes of immediate operand that follow the opcode, as the mnemonic
      names them: one for `d8` and `s8`, two for `d16` and `a16`. */
  function ImmediateBytes(op: Opcode): nat {
    match op
    case LdBD8 | LdCD8 | LdDD8 | JrS8 | LdED8 | JrNzS8 | LdHD8 | JrZS8 | LdLD8 | JrNcS8 | LdIndHlD8 | JrCS8 | LdAD8 | LdHlSpAddS8 => 1
    case LdBcD16 | LdA16Sp | LdDeD16 | LdHlD16 | LdSpD16 => 2
    case _ => 0
  }

  /** How an instruction treats one flag: computed from the result, forced
      to zero, or left alone. */
  datatype FlagEffect = Affected | Reset | Unaffected

  datatype FlagEffects = FlagEffects(zero: FlagEffect, subtract: FlagEffect, halfCarry: FlagEffect, carry: FlagEffect)

  /** Instruction length in bytes, cost in machine cycles, flag effects. */
  datatype Documentation = Documentation(bytes: nat, cycles: nat, flags: FlagEffects)

  /** The metadata written beside ADD A,B, ADD A,C and LD HL,SP+s8. */
  function Documented(op: Opcode): Option<Documentation> {
    match op
    case AddAB | AddAC => Some(Documentation(1, 1, FlagEffects(Affected, Reset, Affected, Affected)))
    case LdHlSpAddS8 => Some(Documentation(2, 3, FlagEffects(Reset, Reset, Affected, Affected)))
    case _ => None
  }

  /** Every mnemonic decodes back from its byte. */
  lemma DecodeEncode(op: Opcode)
    ensures Decode(Encode(op)) == Some(op)
  {
    // one constructor at a time, so that each byte is a constant
    match op
    case NoOp => assert Decode(Encode(NoOp)) == Some(NoOp);
    case LdBcD16 => assert Decode(Encode(LdBcD16)) == Some(LdBcD16);
    case LdIndBcA => assert Decode(Encode(LdIndBcA)) == Some(LdIndBcA);
    case IncBc => assert Decode(Encode(IncBc)) == Some(IncBc);
    case IncB => assert Decode(Encode(IncB)) == Some(IncB);
    case DecB => assert Decode(Encode(DecB)) == Some(DecB);
    case LdBD8 => assert Decode(Encode(LdBD8)) == Some(LdBD8);
    case Rlca => assert Decode(Encode(Rlca)) == Some(Rlca);
    case LdA16Sp => assert Decode(Encode(LdA16Sp)) == Some(LdA16Sp);
    case AddHlBc => assert Decode(Encode(AddHlBc)) == Some(AddHlBc);
    case LdAIndBc => assert Decode(Encode(LdAIndBc)) == Some(LdAIndBc);
    case DecBc => assert Decode(Encode(DecBc)) == Some(DecBc);
    case IncC => assert Decode(Encode(IncC)) == Some(IncC);
    case DecC => assert Decode(Encode(DecC)) == Some(DecC);
    case LdCD8 => assert Decode(Encode(LdCD8)) == Some(LdCD8);
    case Rrca => assert Decode(Encode(Rrca)) == Some(Rrca);
    case Stop => assert Decode(Encode(Stop)) == Some(Stop);
    case LdDeD16 => assert Decode(Encode(LdDeD16)) == Some(LdDeD16);
    case LdIndDeA => assert Decode(Encode(LdIndDeA)) == Some(LdIndDeA);
    case IncDe => assert Decode(Encode(IncDe)) == Some(IncDe);
    case IncD => assert Decode(Encode(IncD)) == Some(IncD);
    case DecD => assert Decode(Encode(DecD)) == Some(DecD);
    case LdDD8 => assert Decode(Encode(LdDD8)) == Some(LdDD8);
    case Rla => assert Decode(Encode(Rla)) == Some(Rla);
    case JrS8 => assert Decode(Encode(JrS8)) == Some(JrS8);
    case AddHlDe => assert Decode(Encode(AddHlDe)) == Some(AddHlDe);
    case LdAIndDe => assert Decode(Encode(LdAIndDe)) == Some(LdAIndDe);
    case DecDe => assert Decode(Encode(DecDe)) == Some(DecDe);
    case IncE => assert Decode(Encode(IncE)) == Some(IncE);
    case DecE => assert Decode(Encode(DecE)) == Some(DecE);
    case LdED8 => assert Decode(Encode(LdED8)) == Some(LdED8);
    case Rra => assert Decode(Encode(Rra)) == Some(Rra);
    case JrNzS8 => assert Decode(Encode(JrNzS8)) == Some(JrNzS8);
    case LdHlD16 => assert Decode(Encode(LdHlD16)) == Some(LdHlD16);
    case LdIndHlIncA => assert Decode(Encode(LdIndHlIncA)) == Some(LdIndHlIncA);
    case IncHl => assert Decode(Encode(IncHl)) == Some(IncHl);
    case IncH => assert Decode(Encode(IncH)) == Some(IncH);
    case DecH => assert Decode(Encode(DecH)) == Some(DecH);
    case LdHD8 => assert Decode(Encode(LdHD8)) == Some(LdHD8);
    case Daa => assert Decode(Encode(Daa)) == Some(Daa);
    case JrZS8 => assert Decode(Encode(JrZS8)) == Some(JrZS8);
    case AddHlHl => assert Decode(Encode(AddHlHl)) == Some(AddHlHl);
    case LdAIndHlInc => assert Decode(Encode(LdAIndHlInc)) == Some(LdAIndHlInc);
    case DecHl => assert Decode(Encode(DecHl)) == Some(DecHl);
    case IncL => assert Decode(Encode(IncL)) == Some(IncL);
    case DecL => assert Decode(Encode(DecL)) == Some(DecL);
    case LdLD8 => assert Decode(Encode(LdLD8)) == Some(LdLD8);
    case Cpl => assert Decode(Encode(Cpl)) == Some(Cpl);
    case JrNcS8 => assert Decode(Encode(JrNcS8)) == Some(JrNcS8);
    case LdSpD16 => assert Decode(Encode(LdSpD16)) == Some(LdSpD16);
    case LdIndHlDecA => assert Decode(Encode(LdIndHlDecA)) == Some(LdIndHlDecA);
    case IncSp => assert Decode(Encode(IncSp)) == Some(IncSp);
    case IncIndHl => assert Decode(Encode(IncIndHl)) == Some(IncIndHl);
    case DecIndHl => assert Decode(Encode(DecIndHl)) == Some(DecIndHl);
    case LdIndHlD8 => assert Decode(Encode(LdIndHlD8)) == Some(LdIndHlD8);
    case Scf => assert Decode(Encode(Scf)) == Some(Scf);
    case JrCS8 => assert Decode(Encode(JrCS8)) == Some(JrCS8);
    case AddHlSp => assert Decode(Encode(AddHlSp)) == Some(AddHlSp);
    case LdAIndHlDec => assert Decode(Encode(LdAIndHlDec)) == Some(LdAIndHlDec);
    case DecSp => assert Decode(Encode(DecSp)) == Some(DecSp);
    case IncA => assert Decode(Encode(IncA)) == Some(IncA);
    case DecA => assert Decode(Encode(DecA)) == Some(DecA);
    case LdAD8 => assert Decode(Encode(LdAD8)) == Some(LdAD8);
    case Ccf => assert Decode(Encode(Ccf)) == Some(Ccf);
    case AddAB => assert Decode(Encode(AddAB)) == Some(AddAB);
    case AddAC => assert Decode(Encode(AddAC)) == Some(AddAC);
    case Prefix => assert Decode(Encode(Prefix)) == Some(Prefix);
    case LdHlSpAddS8 => assert Decode(Encode(LdHlSpAddS8)) == Some(LdHlSpAddS8);
  }

  /** Row 0x0* of the table decodes to the entries whose byte it is. */
  lemma EncodeDecodeRow0(k: int)
    requires 0 <= k < 0x10
    ensures Encode(Row0(k)) == 0x00 + k
  {
  }

  /** Row 0x1* of the table decodes to the entries whose byte it is. */
  lemma EncodeDecodeRow1(k: int)
    requires 0 <= k < 0x10
    ensures Encode(Row1(k)) == 0x10 + k
  {
  }

  /** Row 0x2* of the table decodes to the entries whose byte it is. */
  lemma EncodeDecodeRow2(k: int)
    requires 0 <= k < 0x10
    ensures Encode(Row2(k)) == 0x20 + k
  {
  }

  /** Row 0x3* of the table decodes to the entries whose byte it is. */
  lemma EncodeDecodeRow3(k: int)
    requires 0 <= k < 0x10
    ensures Encode(Row3(k)) == 0x30 + k
  {
  }

  /** Every byte that decodes is the encoding of what it decodes to. */
  lemma EncodeDecode(b: U8)
    ensures Decode(b).Some? ==> Encode(Decode(b).value) == b
  {
    if b < 0x10 {
      EncodeDecodeRow0(b);
    } else if b < 0x20 {
      EncodeDecodeRow1(b - 0x10);
    } else if b < 0x30 {
      EncodeDecodeRow2(b - 0x20);
    } else if b < 0x40 {
      EncodeDecodeRow3(b - 0x30);
    }
  }

  /** No two constants share a byte. */
  lemma EncodeInjective(op1: Opcode, op2: Opcode)
    ensures Encode(op1) == Encode(op2) ==> op1 == op2
  {
    DecodeEncode(op1);
    DecodeEncode(op2);
  }

  /** ADD A,B, ADD A,C, PREFIX and LD HL,SP+s8 are the only constants outside
      the 0x00-0x3F block. */
  lemma OutsideLowBlock(op: Opcode)
    ensures Encode(op) >= 0x40 <==> op in {AddAB, AddAC, Prefix, LdHlSpAddS8}
  {
  }

  /** Where a length is documented it is the opcode byte plus the immediate
      operand the mnemonic names. */
  lemma DocumentedLengthMatchesOperands(op: Opcode)
    requires Documented(op).Some?
    ensures Documented(op).value.bytes == 1 + ImmediateBytes(op)
  {
  }
}
