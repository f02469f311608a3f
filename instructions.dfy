/** What one cycle does for each opcode the decoder accepts, with the source's quirks kept as written. */
module Instructions {
  import opened Words
  import opened Alu
  import opened Decode
  import opened Memory
  import opened Registers
  import opened ProgramCounter
  import opened Cycle

  /** A cycle that fetched and decoded its instruction: the memory access decides whether it halts,
      and otherwise write-back and the PC update produce the next state. */
  lemma StepOfExecuted(s: State, stale: Stale, instruction: bv32)
    requires StepDefined(s, stale)
    requires Fetch(s.pc, s.mem) == Some(instruction)
    requires Partition(instruction).op in SupportedOpcodes
    ensures var e := Execute(instruction, s.reg, stale).value;
      var access := MemoryAccess(e.alu.result, e.data2, e.controls.memWrite, e.controls.memRead, stale.memdata, s.mem);
      StepSpec(s, stale) ==
        if access.halt then StepResult(Halt(MemoryAlignmentFault), s)
        else StepResult(Continue, State(access.mem,
          WriteBack(s.reg, e.fields.r2, e.fields.r3, access.memdata, e.alu.result,
                    e.controls.regWrite, e.controls.regDst, e.controls.memtoReg),
          PcUpdate(s.pc, e.fields.jsec, e.extended, e.controls.branch, e.controls.jump, e.alu.zero)))
  {
  }

  /** An opcode outside the decoder's table halts the run before anything changes. */
  lemma UnsupportedOpcodeHalts(s: State, stale: Stale, instruction: bv32)
    requires StepDefined(s, stale)
    requires Fetch(s.pc, s.mem) == Some(instruction)
    requires Partition(instruction).op !in SupportedOpcodes
    ensures StepSpec(s, stale) == StepResult(Halt(UnsupportedOpcode), s)
  {
  }

  /** A cycle whose instruction requests no memory access cannot halt after decoding; the memory is
      left as it was. */
  lemma StepWithoutMemory(s: State, stale: Stale, instruction: bv32)
    requires StepDefined(s, stale)
    requires Fetch(s.pc, s.mem) == Some(instruction)
    requires Partition(instruction).op in {0, 2, 4, 8, 10, 11, 15}
    ensures var e := Execute(instruction, s.reg, stale).value;
      StepSpec(s, stale) == StepResult(Continue, State(s.mem,
          WriteBack(s.reg, e.fields.r2, e.fields.r3, stale.memdata, e.alu.result,
                    e.controls.regWrite, e.controls.regDst, e.controls.memtoReg),
          PcUpdate(s.pc, e.fields.jsec, e.extended, e.controls.branch, e.controls.jump, e.alu.zero)))
  {
    var e := Execute(instruction, s.reg, stale).value;
    ControlUnitConsistent(e.fields.op);
    ControlUnitRoles(e.fields.op);
    StepOfExecuted(s, stale, instruction);
  }

  /** addi, slti, sltiu and lui (opcodes 8, 10, 11, 15) compute their ALU result but, with RegDst and
      MemtoReg both 0, neither write-back branch fires: the cycle only advances the PC. */
  lemma ImmediateArithmeticWritesNothing(s: State, stale: Stale, instruction: bv32)
    requires StepDefined(s, stale)
    requires Fetch(s.pc, s.mem) == Some(instruction)
    requires Partition(instruction).op in {8, 10, 11, 15}
    ensures StepSpec(s, stale) == StepResult(Continue, State(s.mem, s.reg, s.pc + 4))
  {
    var e := Execute(instruction, s.reg, stale).value;
    StepWithoutMemory(s, stale, instruction);
    ControlUnitConsistent(e.fields.op);
    ControlUnitRoles(e.fields.op);
    PcUpdateSequentialAndBranch(s.pc, e.fields.jsec, e.extended, e.controls.branch, e.alu.zero);
  }

  /** An R-type instruction with one of the six recognised funct codes writes the ALU's result on
      Reg[r1] and Reg[r2] into register r3 and moves on to the next word. */
  lemma RTypeWritesDestination(s: State, stale: Stale, instruction: bv32)
    requires StepDefined(s, stale)
    requires Fetch(s.pc, s.mem) == Some(instruction)
    requires Partition(instruction).op == 0
    requires FunctToAluOp(Partition(instruction).funct).Some?
    ensures var e := Execute(instruction, s.reg, stale).value;
      var result := Evaluate(e.data1, e.data2, FunctToAluOp(e.fields.funct).value, stale.aluResult).result;
      StepSpec(s, stale) == StepResult(Continue, State(s.mem, s.reg[e.fields.r3 as int := result], s.pc + 4))
  {
    var e := Execute(instruction, s.reg, stale).value;
    StepWithoutMemory(s, stale, instruction);
    PcUpdateSequentialAndBranch(s.pc, e.fields.jsec, e.extended, e.controls.branch, e.alu.zero);
    var written := WriteBack(s.reg, e.fields.r2, e.fields.r3, stale.memdata, e.alu.result,
                             e.controls.regWrite, e.controls.regDst, e.controls.memtoReg);
    assert written == s.reg[e.fields.r3 as int := e.alu.result];
  }

  /** An R-type instruction with a recognised funct code leaves in register r3 what that code means
      for the operands read from registers r1 and r2 (ExecuteOperands): the sum, difference, AND,
      OR, signed or unsigned comparison. */
  lemma RTypeFunctResults(s: State, stale: Stale, instruction: bv32)
    requires StepDefined(s, stale)
    requires Fetch(s.pc, s.mem) == Some(instruction)
    requires Partition(instruction).op == 0
    requires FunctToAluOp(Partition(instruction).funct).Some?
    ensures var e := Execute(instruction, s.reg, stale).value;
      var next := StepSpec(s, stale);
      next.outcome == Continue && |next.state.reg| == |s.reg| &&
      FunctComputes(e.fields.funct, e.data1, e.data2, next.state.reg[e.fields.r3 as int])
  {
    var e := Execute(instruction, s.reg, stale).value;
    RTypeWritesDestination(s, stale, instruction);
    FunctResults(e.data1, e.data2, e.fields.funct, stale.aluResult);
  }

  /** An R-type instruction with any other funct code does NOT halt: ALU_operations reports the
      failure but the loop ignores it, so register r3 receives whatever ALUresult held. */
  lemma RTypeUnknownFunctWritesStale(s: State, stale: Stale, instruction: bv32)
    requires StepDefined(s, stale)
    requires Fetch(s.pc, s.mem) == Some(instruction)
    requires Partition(instruction).op == 0
    requires FunctToAluOp(Partition(instruction).funct).None?
    ensures var e := Execute(instruction, s.reg, stale).value;
      StepSpec(s, stale) == StepResult(Continue, State(s.mem, s.reg[e.fields.r3 as int := stale.aluResult], s.pc + 4))
  {
    var e := Execute(instruction, s.reg, stale).value;
    StepWithoutMemory(s, stale, instruction);
    PcUpdateSequentialAndBranch(s.pc, e.fields.jsec, e.extended, e.controls.branch, e.alu.zero);
    var written := WriteBack(s.reg, e.fields.r2, e.fields.r3, stale.memdata, e.alu.result,
                             e.controls.regWrite, e.controls.regDst, e.controls.memtoReg);
    assert written == s.reg[e.fields.r3 as int := stale.aluResult];
  }

  /** beq leaves registers and memory alone and updates the PC with Branch asserted and Jump not:
      PcUpdateBranch says that takes the branch exactly when Zero is 1, and BranchAddsOperands says
      where beq's Zero comes from. */
  lemma BranchLeavesState(s: State, stale: Stale, instruction: bv32)
    requires StepDefined(s, stale)
    requires Fetch(s.pc, s.mem) == Some(instruction)
    requires Partition(instruction).op == 4
    ensures var e := Execute(instruction, s.reg, stale).value;
      StepSpec(s, stale) == StepResult(Continue, State(s.mem, s.reg,
        PcUpdate(s.pc, e.fields.jsec, e.extended, 1, 0, e.alu.zero)))
  {
    var e := Execute(instruction, s.reg, stale).value;
    StepWithoutMemory(s, stale, instruction);
    assert e.controls.regWrite == 0 && e.controls.branch == 1 && e.controls.jump == 0;
  }

  /** beq, as written: its controls select ALU operation 0, so the ALU ADDS the two registers
      instead of subtracting them, and Zero reports a zero sum (AluZeroAfterSum). */
  lemma BranchAddsOperands(instruction: bv32, reg: seq<bv32>, stale: Stale)
    requires |reg| == NumRegisters
    requires Partition(instruction).op == 4
    ensures var e := Execute(instruction, reg, stale).value;
      e.alu == Evaluate(e.data1, e.data2, 0, stale.aluResult)
  {
  }

  /** j: the PC becomes the jump target built from the 26-bit field and the top bits of PC + 4;
      nothing else changes. */
  lemma JumpSetsPc(s: State, stale: Stale, instruction: bv32)
    requires StepDefined(s, stale)
    requires Fetch(s.pc, s.mem) == Some(instruction)
    requires Partition(instruction).op == 2
    ensures StepSpec(s, stale) ==
      StepResult(Continue, State(s.mem, s.reg, JumpTarget(Partition(instruction).jsec, s.pc + 4)))
  {
    var e := Execute(instruction, s.reg, stale).value;
    StepWithoutMemory(s, stale, instruction);
    PcUpdateJump(s.pc, e.fields.jsec, e.extended, e.controls.branch, e.alu.zero);
  }

  /** lw and sw compute their address as Reg[r1] plus the sign-extended offset. */
  lemma MemoryInstructionAddress(instruction: bv32, reg: seq<bv32>, stale: Stale)
    requires |reg| == NumRegisters
    requires Partition(instruction).op in {35, 43}
    ensures var e := Execute(instruction, reg, stale).value;
      e.alu == Evaluate(e.data1, e.extended, 0, stale.aluResult)
  {
    var e := Execute(instruction, reg, stale).value;
    assert e.controls.aluOp == 0 && e.controls.aluSrc == 1;
  }

  /** lw, as written: an address that is a multiple of 4 halts the run with nothing changed. */
  lemma LoadWordHaltsWhenAligned(s: State, stale: Stale, instruction: bv32)
    requires StepDefined(s, stale)
    requires Fetch(s.pc, s.mem) == Some(instruction)
    requires Partition(instruction).op == 35
    requires Execute(instruction, s.reg, stale).value.alu.result % 4 == 0
    ensures StepSpec(s, stale) == StepResult(Halt(MemoryAlignmentFault), s)
  {
    var e := Execute(instruction, s.reg, stale).value;
    ControlUnitRoles(e.fields.op);
    StepOfExecuted(s, stale, instruction);
  }

  /** lw, as written: at an address that is not a multiple of 4 it STORES Reg[r2] into memory (its
      MemRead branch) and then writes memdata, which nothing assigned, into register r2. */
  lemma LoadWordStoresWhenMisaligned(s: State, stale: Stale, instruction: bv32)
    requires StepDefined(s, stale)
    requires Fetch(s.pc, s.mem) == Some(instruction)
    requires Partition(instruction).op == 35
    requires Execute(instruction, s.reg, stale).value.alu.result % 4 != 0
    ensures var e := Execute(instruction, s.reg, stale).value;
      && WordIndex(e.alu.result) < |s.mem|
      && StepSpec(s, stale) == StepResult(Continue, State(
           s.mem[WordIndex(e.alu.result) := e.data2], s.reg[e.fields.r2 as int := stale.memdata], s.pc + 4))
  {
    var e := Execute(instruction, s.reg, stale).value;
    var c := e.controls;
    assert c.memWrite == 0 && c.memRead == 1 && c.jump == 0 && c.branch == 0;
    MemoryAccessStoreOnly(e.alu.result, e.data2, c.memWrite, c.memRead, stale.memdata, s.mem);
    StepOfExecuted(s, stale, instruction);
    PcUpdateSequentialAndBranch(s.pc, e.fields.jsec, e.extended, c.branch, e.alu.zero);
    var written := WriteBack(s.reg, e.fields.r2, e.fields.r3, stale.memdata, e.alu.result,
                             c.regWrite, c.regDst, c.memtoReg);
    assert written == s.reg[e.fields.r2 as int := stale.memdata];
  }

  /** sw, as written: an address that is a multiple of 4 halts the run with nothing changed. */
  lemma StoreWordHaltsWhenAligned(s: State, stale: Stale, instruction: bv32)
    requires StepDefined(s, stale)
    requires Fetch(s.pc, s.mem) == Some(instruction)
    requires Partition(instruction).op == 43
    requires Execute(instruction, s.reg, stale).value.alu.result % 4 == 0
    ensures StepSpec(s, stale) == StepResult(Halt(MemoryAlignmentFault), s)
  {
    var e := Execute(instruction, s.reg, stale).value;
    ControlUnitRoles(e.fields.op);
    StepOfExecuted(s, stale, instruction);
  }

  /** sw, as written: at an address that is not a multiple of 4 it LOADS the addressed word into
      memdata (its MemWrite branch), which no write-back uses; memory and registers are unchanged. */
  lemma StoreWordWritesNothing(s: State, stale: Stale, instruction: bv32)
    requires StepDefined(s, stale)
    requires Fetch(s.pc, s.mem) == Some(instruction)
    requires Partition(instruction).op == 43
    requires Execute(instruction, s.reg, stale).value.alu.result % 4 != 0
    ensures StepSpec(s, stale) == StepResult(Continue, State(s.mem, s.reg, s.pc + 4))
  {
    var e := Execute(instruction, s.reg, stale).value;
    var c := e.controls;
    assert c.memWrite == 1 && c.memRead == 0 && c.jump == 0 && c.branch == 0 && c.regWrite == 0;
    MemoryAccessLoadOnly(e.alu.result, e.data2, c.memWrite, c.memRead, stale.memdata, s.mem);
    StepOfExecuted(s, stale, instruction);
    PcUpdateSequentialAndBranch(s.pc, e.fields.jsec, e.extended, c.branch, e.alu.zero);
  }
}
