/** The register file: operand read (read_register) and write-back (write_register). Register 0 is
    an ordinary register: nothing keeps it at zero. */
module Registers {
  import opened Words

  /** read_register: the words held by registers r1 and r2. */
  function ReadRegister(r1: bv32, r2: bv32, reg: seq<bv32>): (data: (bv32, bv32))
    requires r1 as int < |reg| && r2 as int < |reg|
  {
    (reg[r1 as int], reg[r2 as int])
  }

  /** write_register's first branch: memory data into register r2 (lw's destination field). */
  predicate WritesMemData(regWrite: nat, regDst: nat, memtoReg: nat)
  {
    regWrite == 1 && memtoReg == 1 && regDst == 0
  }

  /** write_register's second branch: the ALU result into register r3 (the R-type destination). */
  predicate WritesAluResult(regWrite: nat, regDst: nat, memtoReg: nat)
  {
    regWrite == 1 && memtoReg == 0 && regDst == 1
  }

  /** write_register on the register contents: at most one register changes, and only through one
      of the two accepted signal combinations; every other combination (RegDst = 2 among them)
      leaves the file as it was. */
  function WriteBack(reg: seq<bv32>, r2: bv32, r3: bv32, memdata: bv32, aluResult: bv32,
                     regWrite: nat, regDst: nat, memtoReg: nat): (r: seq<bv32>)
    requires r2 as int < |reg| && r3 as int < |reg|
    ensures |r| == |reg|
    ensures WritesMemData(regWrite, regDst, memtoReg) ==> r[r2 as int] == memdata
    ensures WritesAluResult(regWrite, regDst, memtoReg) ==> r[r3 as int] == aluResult
    ensures WritesMemData(regWrite, regDst, memtoReg) ==>
      forall i :: 0 <= i < |reg| && i != r2 as int ==> r[i] == reg[i]
    ensures WritesAluResult(regWrite, regDst, memtoReg) ==>
      forall i :: 0 <= i < |reg| && i != r3 as int ==> r[i] == reg[i]
    ensures !WritesMemData(regWrite, regDst, memtoReg) && !WritesAluResult(regWrite, regDst, memtoReg) ==> r == reg
  {
    if regWrite == 1 then
      if memtoReg == 1 && regDst == 0 then reg[r2 as int := memdata]
      else if memtoReg == 0 && regDst == 1 then reg[r3 as int := aluResult]
      else reg
    else reg
  }

  /** Write-back changes at most one register. */
  lemma WriteBackChangesAtMostOne(reg: seq<bv32>, r2: bv32, r3: bv32, memdata: bv32, aluResult: bv32,
                                  regWrite: nat, regDst: nat, memtoReg: nat, i: int, j: int)
    requires r2 as int < |reg| && r3 as int < |reg|
    requires 0 <= i < |reg| && 0 <= j < |reg|
    requires WriteBack(reg, r2, r3, memdata, aluResult, regWrite, regDst, memtoReg)[i] != reg[i]
    requires WriteBack(reg, r2, r3, memdata, aluResult, regWrite, regDst, memtoReg)[j] != reg[j]
    ensures i == j
  {
  }

  /** write_register on the register array itself. */
  method WriteRegister(r2: bv32, r3: bv32, memdata: bv32, aluResult: bv32,
                       regWrite: nat, regDst: nat, memtoReg: nat, reg: array<bv32>)
    requires r2 as int < reg.Length && r3 as int < reg.Length
    modifies reg
    ensures reg[..] == WriteBack(old(reg[..]), r2, r3, memdata, aluResult, regWrite, regDst, memtoReg)
  {
    if regWrite == 1 {
      if memtoReg == 1 && regDst == 0 {
        reg[r2 as int] := memdata;
      } else if memtoReg == 0 && regDst == 1 {
        reg[r3 as int] := aluResult;
      }
    }
  }
}
