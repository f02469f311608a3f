/** Machine words, sizes and the small wrappers shared by every stage of the simulator. */
module Words {

  /** Number of 32-bit words in the simulated memory (`unsigned Mem[MEM_SIZE]`). */
  const MemWords: nat := 65536

  /** Number of general-purpose registers. */
  const NumRegisters: nat := 32

  datatype Option<+T> = None | Some(value: T)

  /** Two's-complement ordering of 32-bit words (the source's `int` comparison of converted words):
      a word with bit 31 set is negative and below every word without it; words of the same sign are
      ordered as unsigned numbers. */
  predicate SignedLess(x: bv32, y: bv32)
  {
    var xNegative := x & 0x8000_0000 != 0;
    var yNegative := y & 0x8000_0000 != 0;
    if xNegative != yNegative then xNegative else x < y
  }

  /** sign_extend: when bit 15 is set the whole upper half is filled with ones; otherwise the word is
      passed through unchanged. The low half always survives; a 16-bit offset gets an upper half of
      all ones exactly when its bit 15 is set, and of all zeros exactly when it is clear. */
  function SignExtend(offset: bv32): (e: bv32)
    ensures e & 0xFFFF == offset & 0xFFFF
    ensures offset < 0x1_0000 ==> (e >> 16 == 0xFFFF <==> offset & 0x8000 != 0)
    ensures offset < 0x1_0000 ==> (e >> 16 == 0 <==> offset & 0x8000 == 0)
  {
    if offset & 0x8000 != 0 then offset | 0xFFFF_0000 else offset
  }
}
