# LR35902 instruction-execution core, modelled in Dafny

This project models the instruction-execution core of the `gbemu` Game Boy
emulator. It covers the register pair `Word`, the register file with its flag
byte, the flat 64 KiB memory, the `LR35902` fetch/execute step machine with
its `run` and `run_n` drivers, and the opcode constant table. Everything is
modelled as immutable datatypes and pure functions. Rust `u8`/`u16` become
bounded integers (module `Bits`), and the few bitwise operations the code uses
are written as the equivalent arithmetic. The `u64` cycle counter is an
unbounded `nat`.

Modules follow the source files:

- `Bits` holds the bounded integer types and single-bit flag operations.
- `Wrappers` holds `Option` and `Result`.
- `Words` models `word.rs`.
- `RegisterFile` models `registers.rs`.
- `MemoryBus` models `memory.rs`.
- `Opcodes` models `instructions.rs`.
- `Cpu` models `cpu.rs`.
- `CpuScenario` models the unit test at the end of `cpu.rs`.

Panics in the code are error results here. `todo!()` in `execute` becomes
`Fault.Unimplemented`, and `panic!()` in `run_n` becomes
`Fault.ProgramExhausted`.

The LR35902 stores 16-bit values little-endian, with the low byte at the
lower address. `memory.rs:19-26` puts the high byte at the lower address,
and the model follows the code.

## Model

| member | source | states |
|---|---|---|
| `Words.Get16` | gbemu/src/word.rs:6-8 | The 16-bit value splits back into its lanes: value / 256 is the high lane `.0`, value mod 256 is the low lane `.1`. |
| `Words.Set16` | gbemu/src/word.rs:10-13 | Reading the pair after writing `v` gives exactly `v`, for every 16-bit `v`. |
| `Words.Set16Get16` | gbemu/src/word.rs:6-13 | Writing back the value just read leaves both lanes unchanged. |
| `Words.Set16Overwrites` | gbemu/src/word.rs:10-13 | The written pair depends only on `v`, not on the old lanes, so writing the same value twice equals writing it once. |
| `RegisterFile.New` | gbemu/src/registers.rs:34-44 | The post-boot values read back as AF=0x01B0, BC=0x0013, DE=0x00D8, HL=0x014D, PC=0x0100, SP=0xFFFE. |
| `RegisterFile.Set8` | gbemu/src/registers.rs:46-70 | Reading the written register gives the written value; every other 8-bit register, PC and SP keep their values. |
| `RegisterFile.Set16` | gbemu/src/registers.rs:72-92 | Reading the written 16-bit register gives the written value; the other five 16-bit registers keep their values. |
| `RegisterFile.PairsAreLanes` | gbemu/src/registers.rs:46-92 | Each pair reads as high register * 256 + low register, with A, B, D, H high and F, C, E, L low; PC and SP read as themselves. |
| `RegisterFile.MasksPartitionF` | gbemu/src/registers.rs:29-32 | The four flag masks are distinct. Together with the low nibble, the four bits they select make up the whole F byte. |
| `Bits.WithBit` | gbemu/src/registers.rs:102-107 | `x \| mask` sets the mask bit, keeps the other three high-nibble bits and keeps the low nibble. |
| `Bits.WithoutBit` | gbemu/src/registers.rs:102-107 | `x & !mask` clears the mask bit, keeps the other three high-nibble bits and keeps the low nibble. |
| `Bits.HasBitByRange` | gbemu/src/registers.rs:125 | For a single-bit mask m in the high nibble, `x & m != 0` holds exactly when x mod 2m is at least m. |
| `RegisterFile.GetFlag` | gbemu/src/registers.rs:118-126 | Z reads as set exactly when F >= 0x80, N when F mod 0x80 >= 0x40, H when F mod 0x40 >= 0x20, and C when F mod 0x20 >= 0x10; that is, each flag is its mask's bit of F (bits 7, 6, 5 and 4). |
| `RegisterFile.SetFlag` | gbemu/src/registers.rs:94-108 | Reading the flag back gives the written value; the other three flags, the low nibble of F and every non-F register are unchanged. |
| `RegisterFile.SetFlags` | gbemu/src/registers.rs:110-116 | The four flags read back as exactly the given values, the low nibble of F is zero, and only F changes. |
| `RegisterFile.SetFlagsIsFourSetFlag` | gbemu/src/registers.rs:94-116 | Setting all flags at once equals clearing F and then setting each of the four flags in turn. |
| `MemoryBus.New` | gbemu/src/memory.rs:6-9 | Every one of the 65536 addresses reads zero. |
| `MemoryBus.Set8` | gbemu/src/memory.rs:11-17 | Reading the written address gives the written byte, and every other address is unchanged. Every 16-bit address is in range. |
| `MemoryBus.Get16` | gbemu/src/memory.rs:24-26 | The word at `a` (with `a < 0xFFFF`) has the byte at `a` as its high byte and the byte at `a+1` as its low byte. |
| `MemoryBus.Set16AsWritten` | gbemu/src/memory.rs:19-22 | The code's store puts `v >> 8` at `a` and `v & 0x0F` at `a+1`, and no other address changes. |
| `MemoryBus.Set16AsWrittenRoundTrip` | gbemu/src/memory.rs:19-26 | Reading back the code's store gives `v & 0xFF0F`. It equals `v` exactly when the low byte of `v` is at most 0x0F. |
| `MemoryBus.Set16AsWrittenLosesBits` | gbemu/src/memory.rs:21 | Storing 0x00FF at address 0 reads back as 0x000F. |
| `MemoryBus.Set16` | gbemu/src/memory.rs:19-22 | The corrected store reads back as exactly `v`, and no address other than `a` and `a+1` changes. |
| `MemoryBus.Set16Get16` | gbemu/src/memory.rs:19-26 | Storing back the word just read leaves memory unchanged. |
| `Opcodes.Encode` | gbemu/src/instructions.rs:7-128 | Every constant's byte lies in 0x00-0x3F or is one of 0x80, 0x81, 0xCB, 0xF8. |
| `Opcodes.Decode` | gbemu/src/instructions.rs:7-128 | A byte names a constant exactly when it is in 0x00-0x3F or is one of 0x80, 0x81, 0xCB, 0xF8. |
| `Opcodes.EncodeDecodeRow0` | gbemu/src/instructions.rs:7-22 | The constant in column k of row 0x0* has byte 0x00 + k, so every byte 0x00-0x0F names the constant whose byte it is. |
| `Opcodes.EncodeDecodeRow1` | gbemu/src/instructions.rs:25-40 | The same for 0x10-0x1F. |
| `Opcodes.EncodeDecodeRow2` | gbemu/src/instructions.rs:43-58 | The same for 0x20-0x2F. |
| `Opcodes.EncodeDecodeRow3` | gbemu/src/instructions.rs:61-76 | The same for 0x30-0x3F. |
| `Opcodes.EncodeDecode` | gbemu/src/instructions.rs:7-76 | Every byte that decodes is the encoding of what it decodes to. |
| `Opcodes.DecodeEncode` | gbemu/src/instructions.rs:7-128 | Every constant decodes back from its byte. |
| `Opcodes.EncodeInjective` | gbemu/src/instructions.rs:7-128 | No two constants share a byte. |
| `Opcodes.OutsideLowBlock` | gbemu/src/instructions.rs:106-128 | ADD A,B, ADD A,C, PREFIX and LD HL,SP+s8 are exactly the constants outside the 0x00-0x3F block. |
| `Opcodes.DocumentedLengthMatchesOperands` | gbemu/src/instructions.rs:100-128 | Each documented length (1 for ADD A,B and ADD A,C, 2 for LD HL,SP+s8) is one opcode byte plus the immediate bytes the mnemonic names. |
| `Cpu.Fetch` | gbemu/src/cpu.rs:28-37 | When PC is at or past the end of the program, fetch returns nothing. Otherwise it returns the instruction at PC and advances PC by one, wrapping at 16 bits, and nothing else changes. |
| `Cpu.LoadImmediate8` | gbemu/src/cpu.rs:79-82 | The target register gets the value, nothing else changes, and the cost is 2 cycles. |
| `Cpu.Add` | gbemu/src/cpu.rs:84-100 | The corrected add: A becomes (A + r) mod 256. C is set iff A + r > 255, Z iff the new A is 0, and H iff the low nibbles of A and r sum past 15. N and the low nibble of F are cleared. Only A and F change, and the cost is 1 cycle. |
| `Cpu.AddAsWritten` | gbemu/src/cpu.rs:87-90 | In the code as written, H is set iff the low nibble of the new A plus the low nibble of r exceeds 15. |
| `Cpu.AddFlagsFromResult` | gbemu/src/cpu.rs:84-100 | After `Add`, C is set iff the new A is below the old A, and H is set iff the new A's low nibble is below the old A's low nibble. |
| `Cpu.AddAsWrittenDiffersOnlyInHalfCarry` | gbemu/src/cpu.rs:84-100 | The code's add and the corrected add give the same registers and cost, except possibly the H flag. |
| `Cpu.AddAsWrittenHalfCarryCounterexamples` | gbemu/src/cpu.rs:87-90 | For 0x0F + 0x01 the code leaves H clear although bit 3 carries. For 0x00 + 0x08 it sets H although nothing carries. |
| `Cpu.Open` | gbemu/src/cpu.rs:18-26 | A freshly opened machine is at cycle 0 and holds the given program. Its registers hold the boot values AF=0x01B0, BC=0x0013, DE=0x00D8, HL=0x014D, PC=0x0100, SP=0xFFFE, and every byte of memory is 0. |
| `Cpu.Execute` | gbemu/src/cpu.rs:39-55 | Storing SP is the only failing instruction. Any other instruction adds 2 cycles for LoadIntoC and 1 otherwise. LD C,d8 puts its operand in C. ADD A,B and ADD A,C leave (A + r) mod 256 in A, with Z, H and C as the sum defines them and N clear. Only the registers the instruction writes change; PC, SP, memory and the program never do. |
| `Cpu.ExecuteAsWritten` | gbemu/src/cpu.rs:39-55 | With the code's add, ADD A,B and ADD A,C set H iff the low nibble of the new A plus that of r exceeds 15; storing SP is still the only failure. |
| `Cpu.ExecuteAsWrittenDiffersOnlyInHalfCarry` | gbemu/src/cpu.rs:39-55 | The code's step and the modelled step fail on the same instructions, and where they succeed they agree on everything but the H flag. |
| `Cpu.ExecuteAsWrittenHalfCarryCounterexample` | gbemu/src/cpu.rs:87-90 | With A = 0x0F and B = 0x01, ADD A,B sets H in the model and leaves it clear in the code. |
| `Cpu.RunN` | gbemu/src/cpu.rs:65-75 | A successful `run_n(k)` advances PC by exactly k (mod 2^16) and costs between k and 2k cycles. It leaves SP, DE, HL, memory and the program unchanged. |
| `Cpu.Run` | gbemu/src/cpu.rs:57-63 | For a program of at most 0xFFFF instructions, `run` ends normally iff no remaining instruction is unimplemented. It ends exactly where fetch returns nothing, and memory and the program are unchanged. |
| `Cpu.RunNAdditive` | gbemu/src/cpu.rs:65-75 | `run_n(k1 + k2)` equals `run_n(k1)` followed by `run_n(k2)`, and a failure stops at the first failing step. |
| `Cpu.RunNSucceedsIff` | gbemu/src/cpu.rs:65-75 | For a program of at most 0xFFFF instructions, `run_n(k)` with k > 0 succeeds iff k instructions remain from PC and none of them is unimplemented; running past the end fails. |
| `Cpu.RunIsRunNRemaining` | gbemu/src/cpu.rs:57-75 | `run` equals `run_n` for the number of instructions left from PC. |
| `Cpu.LongProgramNeverExhausts` | gbemu/src/cpu.rs:28-37 | With 0x10000 or more instructions, fetch never fails, so `run_n` never runs out and `run` can stop only on a fault. |
| `Cpu.OpenStartsAtEntryPoint` | gbemu/src/cpu.rs:18-26 | A freshly opened machine fetches the instruction at slot 0x100 first, and fetches nothing when the program has 256 or fewer instructions. |
| `Cpu.PayloadMatchesOpcode` | gbemu/src/instructions.rs:7-21 | Each executed instruction carries exactly the immediate bytes its opcode's mnemonic names; LD C,d8 is 0x0E with one immediate byte. |
| `Cpu.ExecuteMatchesDocumentation` | gbemu/src/instructions.rs:100-114 | ADD A,B and ADD A,C add their documented 1 cycle, and N, which is documented as 0, is clear afterwards. |
| `CpuScenario.FirstTwoSteps` | gbemu/src/cpu.rs:109-130 | In the test program, the NOP and then ADD A,B leave A = 0x01 after 2 cycles. |
| `CpuScenario.LastTwoSteps` | gbemu/src/cpu.rs:131-136 | Then LD C,0x12 and ADD A,C leave C = 0x12 and A = 0x13 after 5 cycles. |
| `CpuScenario.TestScenario` | gbemu/src/cpu.rs:108-136 | After 2 steps A = 0x01. After 4 steps C = 0x12 and A = 0x13. A fifth step finds no instruction, and `run` ends in the 4-step state. |

## Findings

| source | as written | input that shows it | evidently intended | confidence | as-written member | corrected member |
|---|---|---|---|---|---|---|
| gbemu/src/memory.rs:21 | the low byte is stored as `value & 0x0F` | `set16(0, 0x00FF)` then `get16(0)` gives 0x000F | store `value & 0xFF`, so that `get16` returns what `set16` wrote | high; not executed | `MemoryBus.Set16AsWritten`, `MemoryBus.Set16AsWrittenLosesBits` | `MemoryBus.Set16` |
| gbemu/src/cpu.rs:87-90 | the sum shadows `a`, so the half-carry test uses the new A | A=0x0F, B=0x01 leaves H clear although bit 3 carries; A=0x00, B=0x08 sets H although nothing carries | test `(a & 0xF) + (v & 0xF) > 0xF` on A as read before the add | high; not executed | `Cpu.AddAsWritten`, `Cpu.AddAsWrittenHalfCarryCounterexamples`, `Cpu.ExecuteAsWritten`, `Cpu.ExecuteAsWrittenHalfCarryCounterexample` | `Cpu.Add`, `Cpu.Execute` |

`Cpu.Execute` uses the corrected `Cpu.Add`. Both source bugs are kept in the
as-written members. The memory store is not used by any implemented
instruction.

## Left out

- Logging: the `console_log` calls in `cpu.rs` and the test's `println!` calls are output only.
- `lib.rs` and `site/index.js`: the WebAssembly bindings, the host `log` wrapper and the JavaScript loader are host glue.
- `Instruction::decode_bytes` is not part of this model. `Cpu.Open` takes the already-decoded program.
- The full `Instruction` enum is not part of this model. Variants other than the five that `execute` names are the single `Other` case. The operand of `LoadStackPointerIntoMemory` is taken to be a 16-bit address.
- `Cpu.OpcodeOf`: the link from each instruction to its opcode constant is read off the names. The decoder that would fix it is not part of this model.
- Opcodes that exist only as constants have no semantics, because the code gives them none. This covers INC/DEC, rotates, JR, CPL/CCF/SCF, DAA, STOP, the 0xCB table, and 16-bit loads and adds. Push/pop, the CB-prefixed table and the rest of the 512-opcode space have no code at all.
- Cycle counter: the `u64` wrap-around is not modelled; the counter is a `nat`.
- `MemoryBus.Get16`, `MemoryBus.Set16AsWritten`, `MemoryBus.Set16`: the index-out-of-bounds panic at address 0xFFFF is a precondition (`addr < 0xFFFF`), not an error result.
- `Cpu.Run`: requires a program of at most 0xFFFF instructions. With a longer program, PC wraps and fetch never fails, so the loop runs until a fault or forever. `Cpu.LongProgramNeverExhausts` states this instead.
- `Cpu.RunNSucceedsIff`: proved only for programs of at most 0xFFFF instructions. With a longer program PC wraps, so the steps run slots other than PC..PC+k-1 and the iff as stated does not hold. `Cpu.LongProgramNeverExhausts` covers such programs only to the extent of ruling out exhaustion.
- Panics end the model's computation with an error. The partially updated state that Rust would unwind through is not modelled.
- `Cpu.Execute`: ADD A,B and ADD A,C run the corrected `Cpu.Add`, so H differs from `cpu.rs:87-90` on inputs such as A = 0x0F, B = 0x01. `Cpu.ExecuteAsWritten` is the step as written, and `Cpu.ExecuteAsWrittenDiffersOnlyInHalfCarry` shows that H is the only difference. `Cpu.Step`, `Cpu.RunN` and `Cpu.Run` are built on the corrected step.
- `Cpu.ExecuteMatchesDocumentation`: checks only the documented cycle count and the flags documented as 0. The flags documented as computed are covered by `Cpu.Add`'s contract.
