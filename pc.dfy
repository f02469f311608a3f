/** The program-counter update (PC_update). */
module ProgramCounter {

  /** The jump destination: the 26-bit target shifted into a word address, under the top four bits of
      the already incremented PC. */
  function JumpTarget(jsec: bv32, incremented: bv32): bv32
  {
    (jsec << 2) | (incremented & 0xF000_0000)
  }

  /** The address of the next word. */
  function Incremented(pc: bv32): bv32
  {
    pc + 4
  }

  /** A branch destination: the sign-extended offset, in words, added to the base address. */
  function BranchTarget(base: bv32, extended: bv32): bv32
  {
    base + (extended << 2)
  }

  /** PC_update: PC + 4, then (when Jump is 1) the jump target, then (when Branch and Zero are both 1)
      the shifted offset added on top of whichever of the two was chosen. Words wrap modulo 2^32. */
  function PcUpdate(pc: bv32, jsec: bv32, extended: bv32, branch: nat, jump: nat, zero: int): (next: bv32)
  {
    var afterJump := if jump == 1 then JumpTarget(jsec, Incremented(pc)) else Incremented(pc);
    if zero == 1 && branch == 1 then BranchTarget(afterJump, extended) else afterJump
  }

  /** Without a jump or a taken branch the PC moves to the next word; a taken branch adds the shifted
      offset to PC + 4. */
  lemma PcUpdateSequentialAndBranch(pc: bv32, jsec: bv32, extended: bv32, branch: nat, zero: int)
    ensures !(zero == 1 && branch == 1) ==> PcUpdate(pc, jsec, extended, branch, 0, zero) == pc + 4
    ensures zero == 1 && branch == 1 ==> PcUpdate(pc, jsec, extended, branch, 0, zero) == BranchTarget(pc + 4, extended)
  {
  }

  /** With Branch asserted and Jump not, the PC moves to the branch target exactly when Zero is 1. */
  lemma PcUpdateBranch(pc: bv32, jsec: bv32, extended: bv32, branch: nat, jump: nat, zero: int)
    requires branch == 1 && jump == 0
    ensures PcUpdate(pc, jsec, extended, branch, jump, zero) == if zero == 1 then BranchTarget(pc + 4, extended) else pc + 4
  {
  }

  /** A jump replaces PC + 4 by the jump target; a taken branch in the same cycle adds its offset to
      that target. */
  lemma PcUpdateJump(pc: bv32, jsec: bv32, extended: bv32, branch: nat, zero: int)
    ensures !(zero == 1 && branch == 1) ==> PcUpdate(pc, jsec, extended, branch, 1, zero) == JumpTarget(jsec, pc + 4)
    ensures zero == 1 && branch == 1 ==> PcUpdate(pc, jsec, extended, branch, 1, zero) == BranchTarget(JumpTarget(jsec, pc + 4), extended)
  {
  }

  /** A jump lands on a multiple of 4, stays in the 256 MiB segment of PC + 4, and a 26-bit target
      field can be read back from the destination. */
  lemma JumpTargetBits(jsec: bv32, incremented: bv32)
    ensures JumpTarget(jsec, incremented) & 3 == 0
    ensures JumpTarget(jsec, incremented) & 0xF000_0000 == incremented & 0xF000_0000 || jsec >= 0x400_0000
    ensures jsec < 0x400_0000 ==> (JumpTarget(jsec, incremented) >> 2) & 0x3FF_FFFF == jsec
  {
  }

  /** An aligned PC stays aligned whatever the signals: PC + 4, a jump and a branch offset shifted by two
      all keep the two low bits clear. */
  lemma PcUpdateKeepsAlignment(pc: bv32, jsec: bv32, extended: bv32, branch: nat, jump: nat, zero: int)
    requires pc & 3 == 0
    ensures PcUpdate(pc, jsec, extended, branch, jump, zero) & 3 == 0
  {
    JumpTargetBits(jsec, pc + 4);
    AlignedSum(pc, 4);
    AlignedSum(Incremented(pc), extended << 2);
    AlignedSum(JumpTarget(jsec, Incremented(pc)), extended << 2);
  }

  lemma AlignedSum(a: bv32, b: bv32)
    requires a & 3 == 0 && (b & 3 == 0)
    ensures (a + b) & 3 == 0
  {
  }
}
