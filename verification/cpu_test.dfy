/** The scenario of the unit test in gbemu/src/cpu.rs: from the boot-ROM
    registers, run NOP; ADD A,B; LD C,0x12; ADD A,C placed at the entry
    point 0x0100. */
module CpuScenario {
  import opened Wrappers
  import opened RegisterFile
  import opened Cpu

  /** 256 no-ops fill the slots below the entry point; the test's bytes
      0x00, 0x80, 0x0E 0x12, 0x81 decode to the four instructions after them. */
  function TestProgram(): seq<Instruction> {
    seq(0x100, _ => NoOperation) + [NoOperation, AddBToA, LoadIntoC(0x12), AddCToA]
  }

  /** The machine after the first `n` steps of the test, as the test
      observes it. */
  ghost predicate After(c: Lr35902, n: nat, a: int, cReg: int, cycle: nat) {
    && c.program == TestProgram()
    && c.registers.pc == 0x100 + n
    && Get8(c.registers, A) == a
    && Get8(c.registers, B) == 0x00
    && Get8(c.registers, C) == cReg
    && c.cycle == cycle
  }

  lemma FirstTwoSteps()
    ensures RunN(Open(TestProgram()), 1).Ok? && After(RunN(Open(TestProgram()), 1).value, 1, 0x01, 0x13, 1)
    ensures RunN(Open(TestProgram()), 2).Ok? && After(RunN(Open(TestProgram()), 2).value, 2, 0x01, 0x13, 2)
  {
    var p := TestProgram();
    assert p[0x100] == NoOperation && p[0x101] == AddBToA;
    var c0 := Open(p);
    assert After(c0, 0, 0x01, 0x13, 0);
    RunNAdditive(c0, 1, 1);
  }

  lemma LastTwoSteps(c: Lr35902)
    requires After(c, 2, 0x01, 0x13, 2)
    ensures RunN(c, 1).Ok? && After(RunN(c, 1).value, 3, 0x01, 0x12, 4)
    ensures RunN(c, 2).Ok? && After(RunN(c, 2).value, 4, 0x13, 0x12, 5)
  {
    var p := TestProgram();
    assert p[0x102] == LoadIntoC(0x12) && p[0x103] == AddCToA;
    RunNAdditive(c, 1, 1);
  }

  /** After two steps A is 0x01 (boot A plus boot B, which is zero); after
      four, C is 0x12 and A is 0x13, after five cycles; a fifth step finds
      no instruction, and `run` ends in the same state as four steps. */
  lemma TestScenario()
    ensures var r := RunN(Open(TestProgram()), 2);
      r.Ok? && Get8(r.value.registers, A) == 0x01
    ensures var r := RunN(Open(TestProgram()), 4);
      && r.Ok? && Get8(r.value.registers, C) == 0x12 && Get8(r.value.registers, A) == 0x13
      && r.value.cycle == 5 && r.value.registers.pc == 0x104
    ensures RunN(Open(TestProgram()), 5) == Err(ProgramExhausted)
    ensures Run(Open(TestProgram())) == RunN(Open(TestProgram()), 4)
  {
    var c0 := Open(TestProgram());
    FirstTwoSteps();
    LastTwoSteps(RunN(c0, 2).value);
    RunNAdditive(c0, 2, 2);
    RunNAdditive(c0, 4, 1);
    RunIsRunNRemaining(c0);
  }
}
