/** The arithmetic/logic unit and the ALU control that resolves an R-type funct code. */
module Alu {
  import opened Words

  /** What the ALU writes through its two out-parameters: the result word and the Zero flag (a C `char`, read as an integer). */
  datatype AluOut = AluOut(result: bv32, zero: int)

  /** Operation 0: sum modulo 2^32. */
  function Sum(a: bv32, b: bv32): bv32 { a + b }

  /** Operation 1: difference modulo 2^32. */
  function Difference(a: bv32, b: bv32): bv32 { a - b }

  /** Operation 4: bitwise AND. */
  function BitAnd(a: bv32, b: bv32): bv32 { a & b }

  /** Operation 5: bitwise OR. */
  function BitOr(a: bv32, b: bv32): bv32 { a | b }

  /** Operation 2: set-on-less-than, signed, over the operands extended from bit 15 (the same
      extension as sign_extend, applied to full 32-bit register values). */
  function SetLessSigned(a: bv32, b: bv32): bv32
  {
    if SignedLess(SignExtend(a), SignExtend(b)) then 1 else 0
  }

  /** Operation 3: unsigned set-on-less-than. */
  function SetLessUnsigned(a: bv32, b: bv32): bv32
  {
    if a < b then 1 else 0
  }

  /** Operation 6: the low half of B moved into the upper half, the lower half cleared. */
  function ShiftUpper(b: bv32): bv32
  {
    b << 16
  }

  lemma ShiftBits(b: bv32)
    ensures (b << 16) & 0xFFFF == 0
    ensures (b << 16) >> 16 == b & 0xFFFF
  {
  }

  /** Operation 7: bitwise complement: disjoint from A and together with it covering every bit. */
  function Complement(a: bv32): bv32
  {
    !a
  }

  lemma ComplementBits(a: bv32)
    ensures !a & a == 0
    ensures !a | a == 0xFFFF_FFFF
  {
  }

  /** The word the ALU computes for each control code; `held` is returned for codes outside 0..7. */
  function AluResult(a: bv32, b: bv32, control: nat, held: bv32): bv32
  {
    if control == 0 then Sum(a, b)
    else if control == 1 then Difference(a, b)
    else if control == 2 then SetLessSigned(a, b)
    else if control == 3 then SetLessUnsigned(a, b)
    else if control == 4 then BitAnd(a, b)
    else if control == 5 then BitOr(a, b)
    else if control == 6 then ShiftUpper(b)
    else if control == 7 then Complement(a)
    else held
  }

  /** One ALU evaluation. Words wrap modulo 2^32 (bv32 arithmetic). `held` is what the result slot
      held before the call: for a control code outside 0..7 no branch assigns the result, so it keeps
      that value and Zero is computed from it. */
  function Evaluate(a: bv32, b: bv32, control: nat, held: bv32): (r: AluOut)
    ensures r.zero == 1 <==> r.result == 0
    ensures r.zero == 0 <==> r.result != 0
    ensures control > 7 ==> r.result == held
  {
    var result := AluResult(a, b, control, held);
    AluOut(result, if result == 0 then 1 else 0)
  }

  /** Operations 0, 1, 4 and 5 are the wrap-around sum and difference and the bitwise AND and OR. */
  lemma AluArithmeticAndLogic(a: bv32, b: bv32, held: bv32)
    ensures Evaluate(a, b, 0, held).result == a + b
    ensures Evaluate(a, b, 1, held).result == a - b
    ensures Evaluate(a, b, 4, held).result == a & b
    ensures Evaluate(a, b, 5, held).result == a | b
  {
  }

  /** Zero after an addition reports whether the wrapped sum is zero. */
  lemma AluZeroAfterSum(a: bv32, b: bv32, held: bv32)
    ensures Evaluate(a, b, 0, held).zero == 1 <==> a + b == 0
  {
    AluArithmeticAndLogic(a, b, held);
  }

  /** Operation 2 only ever yields 0 or 1: 1 exactly when A is below B in the signed order of the
      bit-15-extended operands. */
  lemma AluSignedComparison(a: bv32, b: bv32, held: bv32)
    ensures Evaluate(a, b, 2, held).result <= 1
    ensures Evaluate(a, b, 2, held).result == 1 <==> SignedLess(SignExtend(a), SignExtend(b))
  {
  }

  /** Operation 3 only ever yields 0 or 1: 1 exactly when A is below B as unsigned words. */
  lemma AluUnsignedComparison(a: bv32, b: bv32, held: bv32)
    ensures Evaluate(a, b, 3, held).result <= 1
    ensures Evaluate(a, b, 3, held).result == 1 <==> a < b
  {
  }

  /** Operation 6 moves the low half of B into the upper half and clears the lower half, whatever A is;
      operation 7 is the complement of A, whatever B is. */
  lemma AluShiftAndComplement(a: bv32, b: bv32, held: bv32)
    ensures Evaluate(a, b, 6, held).result & 0xFFFF == 0
    ensures Evaluate(a, b, 6, held).result >> 16 == b & 0xFFFF
    ensures Evaluate(a, b, 7, held).result & a == 0
    ensures Evaluate(a, b, 7, held).result | a == 0xFFFF_FFFF
  {
    ShiftBits(b);
    ComplementBits(a);
  }

  /** The ALU control table for R-type instructions: add, sub, and, or, slt, sltu. */
  function FunctToAluOp(funct: bv32): (op: Option<nat>)
    ensures op.Some? <==> funct in {0x20, 0x22, 0x24, 0x25, 0x2A, 0x2B}
    ensures op.Some? ==> op.value <= 5
    ensures funct == 0x20 ==> op == Some(0)
    ensures funct == 0x22 ==> op == Some(1)
    ensures funct == 0x24 ==> op == Some(4)
    ensures funct == 0x25 ==> op == Some(5)
    ensures funct == 0x2A ==> op == Some(2)
    ensures funct == 0x2B ==> op == Some(3)
  {
    if funct == 0x20 then Some(0)
    else if funct == 0x22 then Some(1)
    else if funct == 0x24 then Some(4)
    else if funct == 0x25 then Some(5)
    else if funct == 0x2A then Some(2)
    else if funct == 0x2B then Some(3)
    else None
  }

  /** The instruction-set meaning of each recognised R-type funct code, stated independently of the
      ALU control table: add and sub wrap modulo 2^32, and and or work bitwise, slt compares signed
      after extension from bit 15, and sltu compares unsigned. */
  predicate FunctComputes(funct: bv32, a: bv32, b: bv32, result: bv32)
  {
    && (funct == 0x20 ==> result == a + b)
    && (funct == 0x22 ==> result == a - b)
    && (funct == 0x24 ==> result == a & b)
    && (funct == 0x25 ==> result == a | b)
    && (funct == 0x2A ==> result == if SignedLess(SignExtend(a), SignExtend(b)) then 1 else 0)
    && (funct == 0x2B ==> result == if a < b then 1 else 0)
  }

  /** The ALU control table followed by the ALU gives every recognised funct code its meaning. */
  lemma FunctResults(a: bv32, b: bv32, funct: bv32, held: bv32)
    requires FunctToAluOp(funct).Some?
    ensures FunctComputes(funct, a, b, Evaluate(a, b, FunctToAluOp(funct).value, held).result)
  {
    var op := FunctToAluOp(funct).value;
    if op == 0 || op == 1 || op == 4 || op == 5 {
      AluArithmeticAndLogic(a, b, held);
    } else if op == 2 {
      AluSignedComparison(a, b, held);
    } else {
      AluUnsignedComparison(a, b, held);
    }
  }

  /** ALU_operations: selects the second operand (the sign-extended immediate when ALUSrc is 1),
      resolves ALUOp 7 through the funct code, and runs the ALU. None is the source's return code 1
      (unknown funct): the ALU is not invoked and its out-parameters are not written. */
  function AluOperations(data1: bv32, data2: bv32, extended: bv32, funct: bv32,
                         aluOp: nat, aluSrc: nat, held: bv32): (r: Option<AluOut>)
    ensures aluOp != 7 ==> r == Some(Evaluate(data1, if aluSrc == 1 then extended else data2, aluOp, held))
    ensures aluOp == 7 ==> (r.Some? <==> FunctToAluOp(funct).Some?)
    ensures aluOp == 7 && r.Some? ==>
      r.value == Evaluate(data1, if aluSrc == 1 then extended else data2, FunctToAluOp(funct).value, held)
  {
    var b := if aluSrc == 1 then extended else data2;
    if aluOp == 7 then
      match FunctToAluOp(funct)
      case None => None
      case Some(op) => Some(Evaluate(data1, b, op, held))
    else
      Some(Evaluate(data1, b, aluOp, held))
  }
}
