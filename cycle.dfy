/** One cycle of the simulator's main loop, and the loop itself. Each cycle runs the stages in the
    source's order: fetch, partition, decode, register read, sign extension, ALU, memory access,
    write-back and PC update; a fetch, decode or memory-access failure ends the run. */
module Cycle {
  import opened Words
  import opened Alu
  import opened Decode
  import opened Memory
  import opened Registers
  import opened ProgramCounter

  /** The machine state that survives from one cycle to the next. */
  datatype State = State(mem: seq<bv32>, reg: seq<bv32>, pc: bv32)

  /** ALUresult, Zero and memdata are declared afresh, uninitialised, in every iteration of the
      source's loop; a cycle that does not assign them uses whatever they hold. The model takes that
      content as an input of the cycle. */
  datatype Stale = Stale(aluResult: bv32, zero: int, memdata: bv32)

  /** Why a run stopped: the three places the source breaks out of its loop. */
  datatype HaltKind = MisalignedFetch | UnsupportedOpcode | MemoryAlignmentFault

  datatype Outcome = Continue | Halt(kind: HaltKind)

  datatype StepResult = StepResult(outcome: Outcome, state: State)

  /** The values a decoded instruction carries from the register read to the write-back. */
  datatype Executed = Executed(fields: Fields, controls: Controls, data1: bv32, data2: bv32,
                               extended: bv32, alu: AluOut)

  predicate WellSized(s: State)
  {
    |s.mem| == MemWords && |s.reg| == NumRegisters
  }

  /** The ALU stage's outputs; when ALU_operations rejects the funct field it assigns nothing, so
      ALUresult and Zero keep their stale content. */
  function AluStage(data1: bv32, data2: bv32, extended: bv32, f: Fields, c: Controls, stale: Stale): AluOut
  {
    match AluOperations(data1, data2, extended, f.funct, c.aluOp, c.aluSrc, stale.aluResult)
    case Some(out) => out
    case None => AluOut(stale.aluResult, stale.zero)
  }

  /** Partition, decode, register read, sign extension and the ALU on a fetched instruction; None
      is instruction_decode's halt on an unsupported opcode. */
  function Execute(instruction: bv32, reg: seq<bv32>, stale: Stale): (r: Option<Executed>)
    requires |reg| == NumRegisters
    ensures r.Some? <==> Partition(instruction).op in SupportedOpcodes
    ensures r.Some? ==> r.value.fields == Partition(instruction) && r.value.controls == ControlUnit(r.value.fields.op).value
    ensures r.Some? ==> r.value.fields.r1 as int < |reg| && r.value.fields.r2 as int < |reg| && r.value.fields.r3 as int < |reg|
  {
    var f := Partition(instruction);
    PartitionBounds(instruction);
    match ControlUnit(f.op)
    case None => None
    case Some(c) =>
      var data := ReadRegister(f.r1, f.r2, reg);
      var extended := SignExtend(f.offset);
      Some(Executed(f, c, data.0, data.1, extended, AluStage(data.0, data.1, extended, f, c, stale)))
  }

  /** The operands an executed instruction carries are the registers its r1 and r2 fields name and
      its sign-extended offset. */
  lemma ExecuteOperands(instruction: bv32, reg: seq<bv32>, stale: Stale)
    requires |reg| == NumRegisters
    requires Partition(instruction).op in SupportedOpcodes
    ensures var e := Execute(instruction, reg, stale).value;
      e.data1 == reg[e.fields.r1 as int] && e.data2 == reg[e.fields.r2 as int] && e.extended == SignExtend(e.fields.offset)
  {
  }

  /** The conditions under which one cycle stays inside the source's arrays: the fetched word and
      the word a memory access touches exist. */
  predicate StepDefined(s: State, stale: Stale)
  {
    && WellSized(s)
    && (s.pc % 4 != 0 || WordIndex(s.pc) < |s.mem|)
    && (Fetch(s.pc, s.mem).Some? && Execute(Fetch(s.pc, s.mem).value, s.reg, stale).Some? ==>
          var e := Execute(Fetch(s.pc, s.mem).value, s.reg, stale).value;
          AccessInRange(e.alu.result, e.controls.memWrite, e.controls.memRead, |s.mem|))
  }

  /** One iteration of the main loop. A halting cycle leaves the state as it found it. */
  function StepSpec(s: State, stale: Stale): (r: StepResult)
    requires StepDefined(s, stale)
    ensures WellSized(r.state)
    ensures r.outcome.Halt? ==> r.state == s
    ensures r.outcome == Halt(MisalignedFetch) <==> s.pc & 3 != 0
  {
    match Fetch(s.pc, s.mem)
    case None => StepResult(Halt(MisalignedFetch), s)
    case Some(instruction) =>
      match Execute(instruction, s.reg, stale)
      case None => StepResult(Halt(UnsupportedOpcode), s)
      case Some(e) =>
        var access := MemoryAccess(e.alu.result, e.data2, e.controls.memWrite, e.controls.memRead, stale.memdata, s.mem);
        if access.halt then StepResult(Halt(MemoryAlignmentFault), s)
        else
          var reg := WriteBack(s.reg, e.fields.r2, e.fields.r3, access.memdata, e.alu.result,
                               e.controls.regWrite, e.controls.regDst, e.controls.memtoReg);
          var pc := PcUpdate(s.pc, e.fields.jsec, e.extended, e.controls.branch, e.controls.jump, e.alu.zero);
          StepResult(Continue, State(access.mem, reg, pc))
  }

  /** One iteration of the main loop on the memory and register arrays. */
  method Step(mem: array<bv32>, reg: array<bv32>, pc: bv32, stale: Stale) returns (outcome: Outcome, nextPc: bv32)
    requires mem != reg
    requires StepDefined(State(mem[..], reg[..], pc), stale)
    modifies mem, reg
    ensures StepResult(outcome, State(mem[..], reg[..], nextPc)) == StepSpec(State(old(mem[..]), old(reg[..]), pc), stale)
  {
    var fetched := Fetch(pc, mem[..]);
    if fetched.None? {
      return Halt(MisalignedFetch), pc;
    }
    var f := Partition(fetched.value);
    var decoded := ControlUnit(f.op);
    if decoded.None? {
      return Halt(UnsupportedOpcode), pc;
    }
    var c := decoded.value;
    PartitionBounds(fetched.value);
    var data := ReadRegister(f.r1, f.r2, reg[..]);
    var extended := SignExtend(f.offset);
    var alu := AluStage(data.0, data.1, extended, f, c, stale);
    var halt, memdata := RwMemory(alu.result, data.1, c.memWrite, c.memRead, stale.memdata, mem);
    if halt {
      return Halt(MemoryAlignmentFault), pc;
    }
    WriteRegister(f.r2, f.r3, memdata, alu.result, c.regWrite, c.regDst, c.memtoReg, reg);
    nextPc := PcUpdate(pc, f.jsec, extended, c.branch, c.jump, alu.zero);
    outcome := Continue;
  }

  /** The conditions under which a run that is given one Stale record per cycle stays inside the
      source's arrays until it halts or the records run out. */
  predicate RunDefined(s: State, stales: seq<Stale>)
    decreases |stales|
  {
    |stales| == 0 ||
      (StepDefined(s, stales[0]) &&
       var r := StepSpec(s, stales[0]);
       r.outcome == Continue ==> RunDefined(r.state, stales[1..]))
  }

  /** The main loop, given at most |stales| cycles: the outcome is the halt that ended it, or
      Continue when the cycles ran out first. */
  function RunSpec(s: State, stales: seq<Stale>): (r: StepResult)
    requires RunDefined(s, stales)
    ensures WellSized(s) ==> WellSized(r.state)
    ensures r.outcome == Halt(MisalignedFetch) ==> r.state.pc & 3 != 0
    decreases |stales|
  {
    if |stales| == 0 then StepResult(Continue, s)
    else
      var r := StepSpec(s, stales[0]);
      if r.outcome.Halt? then r else RunSpec(r.state, stales[1..])
  }

  /** The main loop on the memory and register arrays, for at most |stales| cycles. */
  method Run(mem: array<bv32>, reg: array<bv32>, pc: bv32, stales: seq<Stale>) returns (outcome: Outcome, finalPc: bv32)
    requires mem != reg
    requires RunDefined(State(mem[..], reg[..], pc), stales)
    modifies mem, reg
    ensures StepResult(outcome, State(mem[..], reg[..], finalPc)) == RunSpec(State(old(mem[..]), old(reg[..]), pc), stales)
  {
    finalPc := pc;
    outcome := Continue;
    var cycle := 0;
    while cycle < |stales|
      invariant 0 <= cycle <= |stales|
      invariant RunDefined(State(mem[..], reg[..], finalPc), stales[cycle..])
      invariant RunSpec(State(old(mem[..]), old(reg[..]), pc), stales)
             == RunSpec(State(mem[..], reg[..], finalPc), stales[cycle..])
      decreases |stales| - cycle
    {
      outcome, finalPc := Step(mem, reg, finalPc, stales[cycle]);
      if outcome.Halt? {
        return;
      }
      cycle := cycle + 1;
    }
    outcome := Continue;
  }
}
