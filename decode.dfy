/** Instruction decoding: splitting the fetched word into fields (instruction_partition) and the
    control unit that maps an opcode to its control signals (instruction_decode). */
module Decode {
  import opened Words

  /** The fields of one instruction word, as instruction_partition writes them. */
  datatype Fields = Fields(op: bv32, r1: bv32, r2: bv32, r3: bv32, funct: bv32, offset: bv32, jsec: bv32)

  /** instruction_partition. Each register mask keeps five bits but the shift drops one more than the
      mask's position, so every register field is only four bits wide: r1 is bits 21..24, r2 bits
      16..19 and r3 bits 11..14 (the conventional top bit of each field is lost). */
  function Partition(instruction: bv32): Fields
  {
    Fields(
      op := instruction >> 26,
      r1 := (instruction & (0x1F << 20)) >> 21,
      r2 := (instruction & (0x1F << 15)) >> 16,
      r3 := (instruction & (0x1F << 10)) >> 11,
      funct := instruction & 0x3F,
      offset := instruction & 0xFFFF,
      jsec := instruction & 0x3FF_FFFF)
  }

  /** The field bounds: opcode and funct are six bits, offset sixteen, the jump target twenty-six,
      and each register field fits in four bits. */
  lemma PartitionBounds(instruction: bv32)
    ensures Partition(instruction).op < 64
    ensures Partition(instruction).funct < 64
    ensures Partition(instruction).offset < 0x1_0000
    ensures Partition(instruction).jsec < 0x400_0000
    ensures Partition(instruction).r1 < 16
    ensures Partition(instruction).r2 < 16
    ensures Partition(instruction).r3 < 16
  {
    FieldBits(instruction);
  }

  lemma FieldBits(instruction: bv32)
    ensures instruction >> 26 < 64
    ensures instruction & 0x3F < 64
    ensures instruction & 0xFFFF < 0x1_0000
    ensures instruction & 0x3FF_FFFF < 0x400_0000
    ensures (instruction & (0x1F << 20)) >> 21 == (instruction >> 21) & 0xF
    ensures (instruction & (0x1F << 15)) >> 16 == (instruction >> 16) & 0xF
    ensures (instruction & (0x1F << 10)) >> 11 == (instruction >> 11) & 0xF
  {
  }

  /** Each register field is exactly the four instruction bits starting at bit 21, 16 and 11. */
  lemma PartitionRegisterFields(instruction: bv32)
    ensures Partition(instruction).r1 == (instruction >> 21) & 0xF
    ensures Partition(instruction).r2 == (instruction >> 16) & 0xF
    ensures Partition(instruction).r3 == (instruction >> 11) & 0xF
  {
    FieldBits(instruction);
  }

  /** The nine control signals; the numbers are kept because write_register tests exact values.
      RegDst: 0 = r2, 1 = r3, 2 = no destination; MemtoReg: 0 = ALU result, 1 = memory data,
      2 = no write-back; ALUOp: an ALU control code, or 7 for "resolve through funct". */
  datatype Controls = Controls(
    regDst: nat, jump: nat, branch: nat, memRead: nat, memtoReg: nat,
    aluOp: nat, memWrite: nat, aluSrc: nat, regWrite: nat)

  /** Every signal deasserted: instruction_decode's starting point. */
  const Deasserted: Controls := Controls(0, 0, 0, 0, 0, 0, 0, 0, 0)

  /** The opcodes the control unit accepts: R-type, j, beq, addi, slti, sltiu, lui, lw and sw. */
  const SupportedOpcodes: set<bv32> := {0, 2, 4, 8, 10, 11, 15, 35, 43}

  /** instruction_decode. None is the source's return code 1 (unsupported opcode: halt). */
  function ControlUnit(op: bv32): (c: Option<Controls>)
    ensures c.Some? <==> op in SupportedOpcodes
  {
    if op == 0 then Some(Deasserted.(regDst := 1, aluOp := 7, regWrite := 1))
    else if op == 2 then Some(Deasserted.(regDst := 2, jump := 1))
    else if op == 4 then Some(Deasserted.(regDst := 2, branch := 1, memtoReg := 2))
    else if op == 8 then Some(Deasserted.(aluSrc := 1, regWrite := 1))
    else if op == 10 then Some(Deasserted.(aluOp := 2, aluSrc := 1, regWrite := 1))
    else if op == 11 then Some(Deasserted.(aluOp := 3, aluSrc := 1, regWrite := 1))
    else if op == 15 then Some(Deasserted.(aluOp := 6, aluSrc := 1, regWrite := 1))
    else if op == 35 then Some(Deasserted.(memRead := 1, memtoReg := 1, aluSrc := 1, regWrite := 1))
    else if op == 43 then Some(Deasserted.(regDst := 2, memtoReg := 2, memWrite := 1, aluSrc := 1))
    else None
  }

  /** The consistency the control table keeps for every opcode it accepts. */
  predicate Consistent(c: Controls)
  {
    && c.memRead + c.memWrite <= 1
    && c.jump + c.branch <= 1
    && (c.regWrite == 1 ==> c.regDst != 2)
    && c.aluOp in {0, 2, 3, 6, 7}
    && c.regDst <= 2 && c.memtoReg <= 2
    && c.jump <= 1 && c.branch <= 1 && c.memRead <= 1 && c.memWrite <= 1
    && c.aluSrc <= 1 && c.regWrite <= 1
  }

  /** The condition under which write_register commits anything. */
  predicate CommitsRegister(c: Controls)
  {
    c.regWrite == 1 && ((c.memtoReg == 1 && c.regDst == 0) || (c.memtoReg == 0 && c.regDst == 1))
  }

  /** Every accepted opcode yields consistent signals, and only R-type and lw ever reach a register
      write: addi, slti, sltiu and lui assert RegWrite with RegDst = 0 and MemtoReg = 0, which
      neither write-back branch accepts. */
  lemma ControlUnitConsistent(op: bv32)
    requires op in SupportedOpcodes
    ensures Consistent(ControlUnit(op).value)
    ensures CommitsRegister(ControlUnit(op).value) <==> op == 0 || op == 35
  {
  }

  /** Which instructions touch memory, jump, branch or take the immediate operand. */
  lemma ControlUnitRoles(op: bv32)
    requires op in SupportedOpcodes
    ensures ControlUnit(op).value.memRead == 1 <==> op == 35
    ensures ControlUnit(op).value.memWrite == 1 <==> op == 43
    ensures ControlUnit(op).value.jump == 1 <==> op == 2
    ensures ControlUnit(op).value.branch == 1 <==> op == 4
    ensures ControlUnit(op).value.aluSrc == 1 <==> op in {8, 10, 11, 15, 35, 43}
    ensures ControlUnit(op).value.aluOp == 7 <==> op == 0
  {
  }
}
