/** A two-instruction program run end to end: an R-type add followed by a word whose opcode the
    decoder rejects. */
module Programs {
  import opened Words
  import opened Alu
  import opened Decode
  import opened Memory
  import opened Cycle
  import opened Instructions

  /** add $3, $1, $2: opcode 0, rs = 1, rt = 2, rd = 3, funct 0x20. */
  const AddInstruction: bv32 := 0x0022_1820

  /** Opcode 63, which the control unit does not accept. */
  const StopInstruction: bv32 := 0xFC00_0000

  /** The program at word addresses 0 and 4, every other word zero. */
  function AddProgram(): (mem: seq<bv32>)
    ensures |mem| == MemWords
  {
    seq(MemWords, i => if i == 0 then AddInstruction else if i == 1 then StopInstruction else 0)
  }

  /** The add instruction's fields, as instruction_partition extracts them. */
  lemma AddInstructionFields()
    ensures Partition(AddInstruction).op == 0
    ensures Partition(AddInstruction).r1 == 1 && Partition(AddInstruction).r2 == 2 && Partition(AddInstruction).r3 == 3
    ensures Partition(AddInstruction).funct == 0x20
    ensures Partition(StopInstruction).op == 63
  {
  }

  /** From PC 0 with 5 in $1 and 7 in $2, the program stores 12 in $3, moves the PC to 4 and halts
      there on the unsupported opcode, whatever the stale per-cycle values are. */
  lemma AddProgramRun(reg: seq<bv32>, stales: seq<Stale>)
    requires |reg| == NumRegisters && reg[1] == 5 && reg[2] == 7
    requires |stales| >= 2
    ensures RunDefined(State(AddProgram(), reg, 0), stales)
    ensures RunSpec(State(AddProgram(), reg, 0), stales)
         == StepResult(Halt(UnsupportedOpcode), State(AddProgram(), reg[3 := 12], 4))
  {
    var mem := AddProgram();
    var s0 := State(mem, reg, 0);
    AddInstructionFields();
    assert Fetch(0, mem) == Some(AddInstruction);
    var e := Execute(AddInstruction, reg, stales[0]).value;
    ExecuteOperands(AddInstruction, reg, stales[0]);
    AluArithmeticAndLogic(5, 7, stales[0].aluResult);
    assert StepDefined(s0, stales[0]);
    RTypeWritesDestination(s0, stales[0], AddInstruction);
    var s1 := State(mem, reg[3 := 12], 4);
    assert StepSpec(s0, stales[0]) == StepResult(Continue, s1);
    assert Fetch(4, mem) == Some(StopInstruction);
    assert StepDefined(s1, stales[1]);
    UnsupportedOpcodeHalts(s1, stales[1], StopInstruction);
    assert stales[1..][0] == stales[1];
  }
}
