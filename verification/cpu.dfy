/** The LR35902 step machine (gbemu/src/cpu.rs): a cycle counter, the
    register file, memory and a program of already-decoded instructions
    indexed by PC, one slot per instruction. Fetching reads the program, not
    memory. */
module Cpu {
  import opened Bits
  import opened Wrappers
  import opened RegisterFile
  import MemoryBus
  import Opcodes

  /** The instructions the executor names, and every other one as `Other`. */
  datatype Instruction =
    | NoOperation
    | LoadStackPointerIntoMemory(addr: U16)
    | LoadIntoC(value: U8)
    | AddBToA
    | AddCToA
    | Other

  /** Why a step stops the machine: `todo!()` in the executor, or `panic!()`
      when `run_n` finds no instruction at PC. */
  datatype Fault =
    | Unimplemented(instruction: Instruction)
    | ProgramExhausted

  datatype Lr35902 = Lr35902(
    cycle: nat,
    registers: Registers,
    memory: MemoryBus.Memory,
    program: seq<Instruction>)

  /** A fresh machine running `program`: cycle 0, boot-ROM registers, zeroed
      memory. */
  function Open(program: seq<Instruction>): (c: Lr35902)
    ensures c.cycle == 0 && c.program == program
    ensures Get16(c.registers, AF) == 0x01B0 && Get16(c.registers, BC) == 0x0013
    ensures Get16(c.registers, DE) == 0x00D8 && Get16(c.registers, HL) == 0x014D
    ensures Get16(c.registers, PC) == 0x0100 && Get16(c.registers, SP) == 0xFFFE
    ensures forall a: U16 :: MemoryBus.Get8(c.memory, a) == 0
  {
    Lr35902(0, RegisterFile.New(), MemoryBus.New(), program)
  }

  /** The instruction at PC, with PC advanced by one (wrapping at 16 bits);
      nothing at all when PC is past the end of the program. */
  function Fetch(c: Lr35902): (r: Option<(Instruction, Lr35902)>)
    ensures r.None? <==> c.registers.pc >= |c.program|
    ensures r.Some? ==> r.value.0 == c.program[c.registers.pc]
    ensures r.Some? ==> r.value.1.registers.pc == (c.registers.pc + 1) % 0x1_0000
    ensures r.Some? ==> r.value.1 == c.(registers := c.registers.(pc := r.value.1.registers.pc))
  {
    var pc := c.registers.pc;
    if pc >= |c.program| then None
    else Some((c.program[pc], c.(registers := c.registers.(pc := (pc + 1) % 0x1_0000))))
  }

  /** What an instruction handler leaves behind: the new registers and the
      number of cycles it took. */
  datatype Handled = Handled(registers: Registers, cycles: nat)

  /** `load_immediate8`: register `t` gets `v`, nothing else changes, two
      cycles. */
  function LoadImmediate8(r: Registers, t: Reg8, v: U8): (h: Handled)
    ensures Get8(h.registers, t) == v
    ensures forall u: Reg8 :: u != t ==> Get8(h.registers, u) == Get8(r, u)
    ensures h.registers.pc == r.pc && h.registers.sp == r.sp
    ensures h.cycles == 2
  {
    Handled(Set8(r, t, v), 2)
  }

  /** Rust `u8::overflowing_add`: the wrapped sum and whether it wrapped. */
  function OverflowingAdd(a: U8, v: U8): (U8, bool) {
    if a + v > 0xFF then (a + v - 0x100, true) else (a + v, false)
  }

  /** `after` holds the 8-bit sum of A and `v` in A, with Z, H and C set
      as the sum defines them and N and the low nibble of F clear. */
  predicate SummedIntoA(before: Registers, v: U8, after: Registers) {
    var a, a' := Get8(before, A), Get8(after, A);
    && a' == (a + v) % 256
    && (GetFlag(after, Zero) <==> a' == 0)
    && !GetFlag(after, Subtract)
    && (GetFlag(after, HalfCarry) <==> a % 16 + v % 16 > 15)
    && (GetFlag(after, Carry) <==> a + v > 255)
    && Get8(after, F) % 16 == 0
  }

  /** `add` with the half carry taken from the operands, as the flag is
      defined: A becomes `(A + v) mod 256`; Z, H and C are computed, N and
      the low nibble of F are cleared; one cycle. */
  function Add(r: Registers, t: Reg8): (h: Handled)
    ensures SummedIntoA(r, Get8(r, t), h.registers)
    ensures forall u: Reg8 :: u != A && u != F ==> Get8(h.registers, u) == Get8(r, u)
    ensures h.registers.pc == r.pc && h.registers.sp == r.sp
    ensures h.cycles == 1
  {
    var a := Get8(r, A);
    var v := Get8(r, t);
    var (sum, carry) := OverflowingAdd(a, v);
    var halfCarry := a % 16 + v % 16 > 0xF;
    Handled(SetFlags(Set8(r, A, sum), sum == 0, false, halfCarry, carry), 1)
  }

  /** `add` as the code writes it: the sum shadows the old A before the
      half-carry test, so H is computed from the new A and the operand. */
  function AddAsWritten(r: Registers, t: Reg8): (h: Handled)
    ensures var v, a' := Get8(r, t), Get8(h.registers, A);
      GetFlag(h.registers, HalfCarry) <==> a' % 16 + v % 16 > 15
  {
    var a := Get8(r, A);
    var v := Get8(r, t);
    var (sum, carry) := OverflowingAdd(a, v);
    var halfCarry := sum % 16 + v % 16 > 0xF;
    Handled(SetFlags(Set8(r, A, sum), sum == 0, false, halfCarry, carry), 1)
  }

  /** The flags of `Add` say what happened to the result: C is set exactly
      when the new A is below the old one (the sum wrapped), H exactly when
      the low nibble of the new A is below that of the old one (bit 3
      carried). */
  lemma AddFlagsFromResult(r: Registers, t: Reg8)
    ensures var a, a' := Get8(r, A), Get8(Add(r, t).registers, A);
      && (GetFlag(Add(r, t).registers, Carry) <==> a' < a)
      && (GetFlag(Add(r, t).registers, HalfCarry) <==> a' % 16 < a % 16)
  {
    WrappedSumFlags(Get8(r, A), Get8(r, t));
  }

  /** For the wrapped 8-bit sum `s` of `a` and `v`: the sum wraps exactly
      when `s < a`, and bit 3 carries exactly when the low nibble of `s` is
      below that of `a`. */
  lemma WrappedSumFlags(a: U8, v: U8)
    ensures var s := (a + v) % 256;
      && (a + v > 255 <==> s < a)
      && (a % 16 + v % 16 > 15 <==> s % 16 < a % 16)
  {
    var s := (a + v) % 256;
    assert s == if a + v > 255 then a + v - 256 else a + v;
    assert s % 16 == (a % 16 + v % 16) % 16;
  }

  /** The as-written `add` differs from `Add` in the half-carry flag only. */
  lemma AddAsWrittenDiffersOnlyInHalfCarry(r: Registers, t: Reg8)
    ensures var h := Add(r, t); var w := AddAsWritten(r, t);
      && w.cycles == h.cycles
      && w.registers == SetFlag(h.registers, HalfCarry, GetFlag(w.registers, HalfCarry))
  {
    var h := Add(r, t);
    var w := AddAsWritten(r, t);
    var s := SetFlag(h.registers, HalfCarry, GetFlag(w.registers, HalfCarry));
    forall m: HighBit ensures HasBit(Get8(w.registers, F), m) <==> HasBit(Get8(s, F), m) {
      assert m == Mask(Zero) || m == Mask(Subtract) || m == Mask(HalfCarry) || m == Mask(Carry);
    }
    ByteFromBits(Get8(w.registers, F), Get8(s, F));
    Extensionality(w.registers, s);
  }

  /** Inputs on which the as-written half carry is wrong in each direction:
      0x0F + 0x01 carries out of bit 3 but the code leaves H clear, and
      0x00 + 0x08 does not but the code sets H. */
  lemma AddAsWrittenHalfCarryCounterexamples()
    ensures var r := Set8(Set8(RegisterFile.New(), A, 0x0F), B, 0x01);
      GetFlag(Add(r, B).registers, HalfCarry) && !GetFlag(AddAsWritten(r, B).registers, HalfCarry)
    ensures var r := Set8(Set8(RegisterFile.New(), A, 0x00), B, 0x08);
      !GetFlag(Add(r, B).registers, HalfCarry) && GetFlag(AddAsWritten(r, B).registers, HalfCarry)
  {
  }

  /** The 8-bit registers an instruction writes. */
  function Writes(i: Instruction): set<Reg8> {
    match i
    case LoadIntoC(_) => {C}
    case AddBToA => {A, F}
    case AddCToA => {A, F}
    case _ => {}
  }

  function Apply(c: Lr35902, h: Handled): Lr35902 {
    c.(registers := h.registers, cycle := c.cycle + h.cycles)
  }

  /** Runs one decoded instruction and adds its cost to the cycle counter:
      one cycle, except two for `LoadIntoC`; storing SP is unimplemented and
      stops the machine. Only the registers in `Writes(i)` change; PC, SP,
      memory and the program never do. */
  function Execute(c: Lr35902, i: Instruction): (r: Result<Lr35902, Fault>)
    ensures r.Err? <==> i.LoadStackPointerIntoMemory?
    ensures r.Err? ==> r.error == Unimplemented(i)
    ensures r.Ok? ==> r.value.cycle == c.cycle + (if i.LoadIntoC? then 2 else 1)
    ensures r.Ok? ==> r.value.memory == c.memory && r.value.program == c.program
    ensures r.Ok? ==> r.value.registers.pc == c.registers.pc && r.value.registers.sp == c.registers.sp
    ensures r.Ok? ==> forall u: Reg8 :: u !in Writes(i) ==> Get8(r.value.registers, u) == Get8(c.registers, u)
    ensures r.Ok? && i.LoadIntoC? ==> Get8(r.value.registers, C) == i.value
    ensures r.Ok? && (i.AddBToA? || i.AddCToA?) ==>
      SummedIntoA(c.registers, Get8(c.registers, AddOperand(i)), r.value.registers)
  {
    match i
    case NoOperation => Ok(c.(cycle := c.cycle + 1))
    case LoadStackPointerIntoMemory(_) => Err(Unimplemented(i))
    case LoadIntoC(v) => Ok(Apply(c, LoadImmediate8(c.registers, C, v)))
    case AddBToA => Ok(Apply(c, Add(c.registers, B)))
    case AddCToA => Ok(Apply(c, Add(c.registers, C)))
    case Other => Ok(c.(cycle := c.cycle + 1))
  }

  /** The register ADD A,r adds to A. */
  function AddOperand(i: Instruction): Reg8 {
    if i.AddBToA? then B else C
  }

  /** `execute` as the code writes it: ADD A,B and ADD A,C go to the
      as-written `add`, whose half carry comes from the new A. */
  function ExecuteAsWritten(c: Lr35902, i: Instruction): (r: Result<Lr35902, Fault>)
    ensures r.Err? <==> i.LoadStackPointerIntoMemory?
    ensures r.Ok? && (i.AddBToA? || i.AddCToA?) ==>
      var v, a' := Get8(c.registers, AddOperand(i)), Get8(r.value.registers, A);
      GetFlag(r.value.registers, HalfCarry) <==> a' % 16 + v % 16 > 15
  {
    match i
    case AddBToA => Ok(Apply(c, AddAsWritten(c.registers, B)))
    case AddCToA => Ok(Apply(c, AddAsWritten(c.registers, C)))
    case _ => Execute(c, i)
  }

  /** The modelled step differs from the code's only in the half-carry flag
      of ADD A,B and ADD A,C; on A = 0x0F, B = 0x01 the two disagree. */
  lemma ExecuteAsWrittenDiffersOnlyInHalfCarry(c: Lr35902, i: Instruction)
    ensures ExecuteAsWritten(c, i).Ok? == Execute(c, i).Ok?
    ensures Execute(c, i).Ok? ==>
      var e, w := Execute(c, i).value, ExecuteAsWritten(c, i).value;
      w == e.(registers := SetFlag(e.registers, HalfCarry, GetFlag(w.registers, HalfCarry)))
  {
    match i
    case AddBToA => AddAsWrittenDiffersOnlyInHalfCarry(c.registers, B);
    case AddCToA => AddAsWrittenDiffersOnlyInHalfCarry(c.registers, C);
    case LoadStackPointerIntoMemory(_) =>
    case _ => SetFlagCurrent(Execute(c, i).value.registers, HalfCarry);
  }

  /** On A = 0x0F, B = 0x01, ADD A,B as modelled sets H and as the code
      writes it clears H. */
  lemma ExecuteAsWrittenHalfCarryCounterexample(c: Lr35902)
    requires Get8(c.registers, A) == 0x0F && Get8(c.registers, B) == 0x01
    ensures GetFlag(Execute(c, AddBToA).value.registers, HalfCarry)
    ensures !GetFlag(ExecuteAsWritten(c, AddBToA).value.registers, HalfCarry)
  {
  }


  /** One iteration of `run_n`: fetch and execute, or stop when the program
      has run out. */
  function Step(c: Lr35902): Result<Lr35902, Fault> {
    match Fetch(c)
    case None => Err(ProgramExhausted)
    case Some((i, next)) => Execute(next, i)
  }

  /** `run_n(k)`: exactly `k` steps, stopping at the first fault. Each step
      advances PC by one and costs one or two cycles; SP, DE, HL, memory and
      the program are never touched. */
  function RunN(c: Lr35902, k: nat): (r: Result<Lr35902, Fault>)
    decreases k
    ensures r.Ok? ==> r.value.program == c.program && r.value.memory == c.memory
    ensures r.Ok? ==> r.value.registers.pc == (c.registers.pc + k) % 0x1_0000
    ensures r.Ok? ==> r.value.registers.sp == c.registers.sp
    ensures r.Ok? ==> Get16(r.value.registers, DE) == Get16(c.registers, DE)
    ensures r.Ok? ==> Get16(r.value.registers, HL) == Get16(c.registers, HL)
    ensures r.Ok? ==> c.cycle + k <= r.value.cycle <= c.cycle + 2 * k
  {
    if k == 0 then Ok(c)
    else
      match Step(c)
      case Err(e) => Err(e)
      case Ok(next) => RunN(next, k - 1)
  }

  /** No instruction in slots `from` up to (not including) `to` is unimplemented. */
  ghost predicate AllImplemented(p: seq<Instruction>, from: int, to: int) {
    forall j :: from <= j < to && 0 <= j < |p| ==> !p[j].LoadStackPointerIntoMemory?
  }

  /** `run`: fetch and execute until fetching finds nothing. With a program
      of at most 0xFFFF instructions PC never wraps, so this ends; it ends
      normally exactly when no remaining instruction is unimplemented, and
      then PC is past the end of the program. */
  function Run(c: Lr35902): (r: Result<Lr35902, Fault>)
    requires |c.program| <= 0xFFFF
    decreases |c.program| - c.registers.pc
    ensures r.Ok? <==> AllImplemented(c.program, c.registers.pc, |c.program|)
    ensures r.Err? ==> r.error.Unimplemented?
    ensures r.Ok? ==> Fetch(r.value).None?
    ensures r.Ok? ==> r.value.program == c.program && r.value.memory == c.memory
  {
    match Fetch(c)
    case None => Ok(c)
    case Some((i, next)) =>
      match Execute(next, i)
      case Err(e) => Err(e)
      case Ok(after) => Run(after)
  }

  /** Continue with `k` more steps after `r`, unless `r` already failed. */
  function ThenRunN(r: Result<Lr35902, Fault>, k: nat): Result<Lr35902, Fault> {
    match r
    case Err(e) => Err(e)
    case Ok(c) => RunN(c, k)
  }

  /** `k1 + k2` steps are `k1` steps followed by `k2` steps, so calling
      `run_n(1)` four times is `run_n(4)`. */
  lemma {:induction false} RunNAdditive(c: Lr35902, k1: nat, k2: nat)
    ensures RunN(c, k1 + k2) == ThenRunN(RunN(c, k1), k2)
    decreases k1
  {
    if k1 > 0 {
      match Step(c)
      case Err(e) =>
      case Ok(next) =>
        RunNAdditive(next, k1 - 1, k2);
    }
  }

  /** With a program short enough that PC cannot wrap, `run_n(k)` for a
      positive `k` succeeds exactly when `k` instructions remain from PC and
      none of them is unimplemented. */
  lemma {:induction false} RunNSucceedsIff(c: Lr35902, k: nat)
    requires |c.program| <= 0xFFFF
    ensures RunN(c, k).Ok? <==>
      k == 0 || (c.registers.pc + k <= |c.program| && AllImplemented(c.program, c.registers.pc, c.registers.pc + k))
    decreases k
  {
    if k > 0 && c.registers.pc < |c.program| {
      var (i, next) := Fetch(c).value;
      var pc := c.registers.pc;
      assert next.registers.pc == pc + 1;
      var e := Execute(next, i);
      assert e.Ok? <==> !c.program[pc].LoadStackPointerIntoMemory?;
      assert RunN(c, k) == if e.Ok? then RunN(e.value, k - 1) else Err(e.error);
      if e.Ok? {
        assert e.value.registers.pc == pc + 1 && e.value.program == c.program;
        RunNSucceedsIff(e.value, k - 1);
      }
    }
  }

  /** `run` is `run_n` for the number of instructions left from PC. */
  lemma {:induction false} RunIsRunNRemaining(c: Lr35902)
    requires |c.program| <= 0xFFFF
    ensures c.registers.pc <= |c.program| ==> Run(c) == RunN(c, |c.program| - c.registers.pc)
    ensures c.registers.pc > |c.program| ==> Run(c) == RunN(c, 0)
    decreases |c.program| - c.registers.pc
  {
    if c.registers.pc < |c.program| {
      var (i, next) := Fetch(c).value;
      if Execute(next, i).Ok? {
        RunIsRunNRemaining(Execute(next, i).value);
      }
    }
  }

  /** With 0x10000 or more instructions every PC is inside the program, so
      fetching never fails: `run_n` never runs out and `run` can only stop on
      a fault. */
  lemma {:induction false} LongProgramNeverExhausts(c: Lr35902, k: nat)
    requires |c.program| >= 0x1_0000
    ensures Fetch(c).Some?
    ensures RunN(c, k) != Err(ProgramExhausted)
    decreases k
  {
    if k > 0 {
      match Step(c)
      case Err(e) =>
      case Ok(next) =>
        LongProgramNeverExhausts(next, k - 1);
    }
  }

  /** Execution starts at PC 0x0100, so a program runs nothing unless it has
      more than 256 instructions. */
  lemma OpenStartsAtEntryPoint(program: seq<Instruction>)
    ensures Fetch(Open(program)).None? <==> |program| <= 0x100
    ensures |program| > 0x100 ==> Fetch(Open(program)).value.0 == program[0x100]
  {
  }

  /** The opcode each decoded instruction comes from. */
  function OpcodeOf(i: Instruction): Option<Opcodes.Opcode> {
    match i
    case NoOperation => Some(Opcodes.NoOp)
    case LoadStackPointerIntoMemory(_) => Some(Opcodes.LdA16Sp)
    case LoadIntoC(_) => Some(Opcodes.LdCD8)
    case AddBToA => Some(Opcodes.AddAB)
    case AddCToA => Some(Opcodes.AddAC)
    case Other => None
  }

  /** Bytes of operand an instruction carries. */
  function PayloadBytes(i: Instruction): nat {
    match i
    case LoadStackPointerIntoMemory(_) => 2
    case LoadIntoC(_) => 1
    case _ => 0
  }

  /** Each instruction carries exactly the immediate operand its opcode's
      mnemonic names; LD C,d8 is 0x0E with one immediate byte. */
  lemma PayloadMatchesOpcode(i: Instruction)
    requires OpcodeOf(i).Some?
    ensures PayloadBytes(i) == Opcodes.ImmediateBytes(OpcodeOf(i).value)
    ensures i.LoadIntoC? ==> Opcodes.Encode(OpcodeOf(i).value) == 0x0E
  {
  }

  /** Where the opcode table documents an instruction the executor runs, the
      cost it adds is the documented cycle count, and a flag documented as
      reset is clear afterwards. */
  lemma ExecuteMatchesDocumentation(c: Lr35902, i: Instruction)
    requires OpcodeOf(i).Some? && Opcodes.Documented(OpcodeOf(i).value).Some?
    ensures var d := Opcodes.Documented(OpcodeOf(i).value).value;
      && Execute(c, i).Ok?
      && Execute(c, i).value.cycle == c.cycle + d.cycles
      && (d.flags.subtract == Opcodes.Reset ==> !GetFlag(Execute(c, i).value.registers, Subtract))
      && (d.flags.zero == Opcodes.Reset ==> !GetFlag(Execute(c, i).value.registers, Zero))
  {
  }
}
