# Single-cycle MIPS-subset simulator, modelled in Dafny

This project models `main.c`, a single-cycle simulator for a MIPS-like instruction subset. The
simulator keeps a memory of 65536 32-bit words, 32 registers and a program counter. Every iteration
of its main loop runs the same stages in order:

1. fetch the word at PC / 4, halting if PC is not a multiple of 4;
2. partition the word into its fields;
3. decode the opcode into nine control signals, halting on an unsupported opcode;
4. read two registers and sign-extend the 16-bit offset;
5. run the ALU, with R-type funct codes resolved by the ALU control;
6. access memory, halting on an alignment condition;
7. write back a register;
8. update the PC.

The model follows the code as written, including these behaviours:

- Register fields are 4 bits wide. The masks `0b11111 << 20`, `<< 15` and `<< 10` do not line up
  with the shifts by 21, 16 and 11, so only registers 0-15 can be named.
- beq sets ALU operation 0, so the ALU adds the two registers. The branch is taken when the sum
  wraps to zero.
- rw_memory has its access polarity inverted:
  - MemRead (set by lw) stores Reg[r2] into memory.
  - MemWrite (set by sw) loads into memdata.
  - Either access happens only when the address is not a multiple of 4. An aligned address halts.
- addi, slti, sltiu and lui assert RegWrite with RegDst = 0 and MemtoReg = 0. Neither branch of
  write_register accepts that combination, so they write no register.
- An R-type instruction with an unknown funct code does not halt. ALU_operations reports the
  failure, but the loop ignores it, so ALUresult and Zero keep whatever they held.
- Register 0 is an ordinary register.

Words are `bv32` and wrap modulo 2^32. Control signals are numbers, because write_register tests
exact values such as RegDst == 1. Zero is an `int` (a C `char`). The loop declares its per-cycle
locals afresh and leaves them uninitialised. Whatever ALUresult, Zero and memdata hold when a cycle
does not assign them is an input of that cycle, a `Stale` record.

Modules: one per stage of the cycle, then three that state properties of whole cycles, runs and
a sample program:

- `Words`: sizes, `Option`, sign extension.
- `Alu`: the ALU and the ALU control.
- `Decode`: partition and the control unit.
- `Memory`: fetch and rw_memory.
- `Registers`: the register read and write.
- `ProgramCounter`: the PC update.
- `Cycle`: one loop iteration and the loop itself.
- `Instructions`: what a cycle does for each opcode.
- `Runs`: properties of whole runs.
- `Programs`: a two-instruction program run end to end.

rw_memory, write_register, the cycle and the loop are methods over `array<bv32>`. Each is proved
against a function over sequences, and the properties are proved about those functions.

## Model

| member | source | states |
|---|---|---|
| Words.SignExtend | main.c:246-251 | The low 16 bits are kept. For a 16-bit offset, the upper half is all ones exactly when bit 15 is set and all zeros exactly when it is clear. |
| Alu.Evaluate | main.c:97-131 | Zero is 1 exactly when the result is 0, and 0 exactly when it is not. A control code outside 0..7 leaves the result slot holding its previous value. |
| Alu.AluArithmeticAndLogic | main.c:99-121 | Codes 0, 1, 4 and 5 give A + B, A - B, A & B and A \| B, modulo 2^32. |
| Alu.AluZeroAfterSum | main.c:97-131 | After an addition, Zero is 1 exactly when A + B wraps to zero. |
| Alu.AluSignedComparison | main.c:105-111 | Code 2 yields 0 or 1. It is 1 exactly when A is below B in the signed order, with both first extended from bit 15. |
| Alu.AluUnsignedComparison | main.c:112-115 | Code 3 yields 0 or 1. It is 1 exactly when A < B unsigned. |
| Alu.AluShiftAndComplement | main.c:122-127 | Code 6 clears the low half and puts B's low half on top. Code 7 yields the complement of A: disjoint from A, and covering every bit together with it. |
| Alu.FunctToAluOp | main.c:260-282 | A funct code is resolved exactly for the six codes 0x20, 0x22, 0x24, 0x25, 0x2A and 0x2B: to ALU codes 0 (add), 1 (sub), 4 (and), 5 (or), 2 (slt) and 3 (sltu) respectively. |
| Alu.FunctResults | main.c:260-284 | The ALU control table followed by the ALU gives each recognised funct code its meaning (`FunctComputes`): 0x20 the sum, 0x22 the difference, 0x24 the AND, 0x25 the OR, 0x2A the signed comparison after extension from bit 15, 0x2B the unsigned comparison. |
| Alu.AluOperations | main.c:254-287 | B is the extended offset when ALUSrc is 1, else data2. ALUOp 7 fails exactly on an unknown funct; otherwise the ALU runs the resolved operation. Any other ALUOp runs directly. |
| Decode.PartitionBounds | main.c:146-156 | op and funct are below 64, offset below 2^16 and jsec below 2^26. The register fields are below 16. |
| Decode.PartitionRegisterFields | main.c:150-152 | r1, r2 and r3 are exactly the 4-bit fields at bits 21, 16 and 11. |
| Decode.ControlUnit | main.c:159-236 | Decoding succeeds exactly for opcodes 0, 2, 4, 8, 10, 11, 15, 35 and 43. |
| Decode.ControlUnitConsistent | main.c:172-232 | Every accepted opcode yields consistent signals: at most one of MemRead and MemWrite, at most one of Jump and Branch, no RegDst = 2 with RegWrite, and ALUOp in {0, 2, 3, 6, 7}. Only R-type and lw can commit a register write. |
| Decode.ControlUnitRoles | main.c:172-232 | MemRead is 1 only for lw and MemWrite only for sw. Jump is 1 only for j and Branch only for beq. ALUSrc is 1 exactly for the immediate and memory instructions, and ALUOp is 7 only for R-type. |
| Memory.Fetch | main.c:134-143 | Fetch fails exactly when PC is not a multiple of 4. Otherwise it returns the word at PC / 4. |
| Memory.MemoryAccess | main.c:290-305 | The memory size is preserved. A halt changes neither memory nor memdata, and with both signals off nothing happens. Memory changes only under MemRead, and memdata only under MemWrite. |
| Memory.MemoryAccessHalts | main.c:290-305 | An access halts exactly when one is requested at an address that is a multiple of 4. |
| Memory.MemoryAccessFrame | main.c:290-305 | Every word other than the one at ALUresult >> 2 is left as it was. |
| Memory.MemoryAccessStores | main.c:292-297 | A MemRead access that goes through puts data2 at ALUresult >> 2. |
| Memory.MemoryAccessLoads | main.c:298-303 | A MemWrite access that goes through returns the word at ALUresult >> 2. |
| Memory.MemoryAccessStoreOnly | main.c:292-297 | With only MemRead at a misaligned address, the access is exactly a store of data2. |
| Memory.MemoryAccessLoadOnly | main.c:298-303 | With only MemWrite at a misaligned address, the access is exactly a load of the addressed word. |
| Memory.RwMemory | main.c:290-305 | On the memory array, the halt flag, memdata and new memory are those of MemoryAccess on the old contents. |
| Registers.WriteBack | main.c:308-318 | The size is kept. The memory-data branch sets Reg[r2] and the ALU-result branch sets Reg[r3], each leaving every other register alone. Any other signal combination changes nothing. |
| Registers.WriteBackChangesAtMostOne | main.c:308-318 | At most one register differs after write-back. |
| Registers.WriteRegister | main.c:308-318 | The register array ends as WriteBack of its old contents. |
| ProgramCounter.PcUpdateSequentialAndBranch | main.c:321-328 | Without a jump, the PC becomes PC + 4. A taken branch adds the shifted offset to PC + 4. |
| ProgramCounter.PcUpdateBranch | main.c:321-328 | With Branch 1 and Jump 0, the PC goes to the branch target exactly when Zero is 1, and to PC + 4 otherwise. |
| ProgramCounter.PcUpdateJump | main.c:321-328 | A jump replaces PC + 4 by the jump target. A taken branch in the same cycle adds its offset to that target. |
| ProgramCounter.JumpTargetBits | main.c:321-328 | A jump target is a multiple of 4 and keeps the top four bits of PC + 4. A 26-bit target field can be read back from it. |
| ProgramCounter.PcUpdateKeepsAlignment | main.c:321-328 | An aligned PC stays aligned whatever the signals. |
| Cycle.Execute | main.c:54-69 | Decoding fails exactly on an unsupported opcode. The fields and controls are those of the instruction, and the register fields index the register file. |
| Cycle.ExecuteOperands | main.c:61-65 | The operands are Reg[r1], Reg[r2] and the sign-extended offset. |
| Cycle.StepSpec | main.c:44-80 | Sizes are preserved. A halting cycle leaves memory, registers and PC unchanged. The cycle halts on fetch exactly when PC is not a multiple of 4. |
| Cycle.Step | main.c:44-80 | One iteration on the arrays yields the outcome, memory, registers and PC of StepSpec. |
| Cycle.RunSpec | main.c:44-80 | A run keeps the state well sized. A run that stops on a misaligned fetch ends on a PC that is not a multiple of 4. |
| Cycle.Run | main.c:44-80 | The loop on the arrays, for at most the given number of cycles, ends in RunSpec's outcome and state. |
| Instructions.StepOfExecuted | main.c:71-79 | The unfolding of StepSpec on a fetched, decoded instruction, used by the per-opcode lemmas: the memory access decides the halt, and otherwise write-back and the PC update give the next state. |
| Instructions.UnsupportedOpcodeHalts | main.c:57-59 | An unsupported opcode halts with nothing changed. |
| Instructions.StepWithoutMemory | main.c:71-79 | An instruction that requests no memory access continues, with memory unchanged. |
| Instructions.ImmediateArithmeticWritesNothing | main.c:191-212 | addi, slti, sltiu and lui change no register and no memory word. They only move the PC to PC + 4. |
| Instructions.RTypeWritesDestination | main.c:174-178 | An R-type instruction with a known funct writes the ALU result of Reg[r1] and Reg[r2] into r3 and moves to PC + 4. |
| Instructions.RTypeFunctResults | main.c:254-287 | An R-type instruction with a recognised funct code continues and leaves in r3 what that code means for the operands read from r1 and r2 (`FunctComputes`): sum, difference, AND, OR, signed or unsigned comparison. |
| Instructions.RTypeUnknownFunctWritesStale | main.c:67-69 | An unknown funct does not halt. The stale ALUresult is written into r3. |
| Instructions.BranchLeavesState | main.c:185-189 | beq changes no register and no memory word. It updates the PC with Branch 1 and Jump 0. |
| Instructions.BranchAddsOperands | main.c:185-189 | beq's ALU operation is the sum of Reg[r1] and Reg[r2]. |
| Instructions.JumpSetsPc | main.c:180-183 | j sets the PC to the jump target and changes nothing else. |
| Instructions.MemoryInstructionAddress | main.c:214-226 | The address used by lw and sw is Reg[r1] plus the sign-extended offset. |
| Instructions.LoadWordHaltsWhenAligned | main.c:292-297 | lw at an address that is a multiple of 4 halts with nothing changed. |
| Instructions.LoadWordStoresWhenMisaligned | main.c:214-219 | At a misaligned address, lw stores Reg[r2] into memory and writes the stale memdata into Reg[r2]. |
| Instructions.StoreWordHaltsWhenAligned | main.c:298-303 | sw at an address that is a multiple of 4 halts with nothing changed. |
| Instructions.StoreWordWritesNothing | main.c:221-226 | At a misaligned address, sw changes no register and no memory word. It moves to PC + 4. |
| Runs.RunSplits | main.c:44-80 | Running a + b cycles is running a cycles and then, unless halted, b more. |
| Runs.StepKeepsAlignment | main.c:44-80 | A cycle that starts aligned and goes on ends aligned. |
| Runs.AlignedRunNeverMisfetches | main.c:50-52 | A run from an aligned PC never halts on fetch and ends aligned. |
| Programs.AddInstructionFields | main.c:146-156 | The example add word has opcode 0, fields 1, 2 and 3, and funct 0x20. The stop word has opcode 63. |
| Programs.AddProgramRun | main.c:44-80 | Start at PC 0 with add $3,$1,$2 followed by an unsupported opcode, and with 5 and 7 in $1 and $2. The run halts on the unsupported opcode at PC 4 with 12 in $3, whatever the stale values. |

## Left out

- The final printing of registers and memory (main.c:83-91) is output only and is not modelled.
- Program loading is not modelled, and neither is the content of the uninitialised `Mem` and `Reg`. The initial memory, registers and PC are parameters.
- The infinite `while (1)` is bounded: `Run` and `RunSpec` perform at most one cycle per `Stale` record. A run that has not halted when the records run out ends with `Continue`.
- The values of uninitialised locals are inputs (`Stale`), not modelled indeterminacy.
- Indexing `Mem` outside its 65536 words is undefined behaviour in C. It is a precondition here (`StepDefined`, `RunDefined`, `AccessInRange`, `Fetch`). Fetching from such an address, or accessing one at a misaligned address, is excluded rather than modelled.
- Memory size: `Mem` holds MEM_SIZE = 65536 words (main.c:4, main.c:39), not 65536 bytes.
- Halts: ALU_operations returns 1 on an unknown funct, but the loop discards that value (main.c:68), so an unknown funct is not a halt.
- `char` parameters: ALUOp, ALUSrc and the other signals pass through `char` in the C calls. Every value the control unit produces fits, so no narrowing is modelled.
- BranchLeavesState: states beq's new PC as PcUpdate with Branch 1 and Jump 0, not as a direct condition on Reg[r1] + Reg[r2]. The condition follows from PcUpdateBranch, BranchAddsOperands and AluZeroAfterSum together.
- Partition, ReadRegister, AluStage and PcUpdate carry no contract of their own. Partition and ReadRegister are described by PartitionBounds, PartitionRegisterFields and ExecuteOperands. AluStage (the ALU_operations call at main.c:67-69, whose failure leaves the stale ALUresult and Zero) is described by RTypeWritesDestination, RTypeFunctResults and RTypeUnknownFunctWritesStale. PcUpdate (PC_update, main.c:321-328) is described by PcUpdateSequentialAndBranch, PcUpdateBranch, PcUpdateJump and PcUpdateKeepsAlignment.
