/** The simulated memory: instruction fetch and the data access stage (instruction_fetch, rw_memory).
    Memory is word-indexed; a byte address is turned into an index by dropping its two low bits. */
module Memory {
  import opened Words

  /** The word index a byte address selects. */
  function WordIndex(address: bv32): int
  {
    (address >> 2) as int
  }

  /** instruction_fetch: None is the source's return code 1, raised exactly when PC is not a multiple
      of 4; otherwise the word at PC / 4. */
  function Fetch(pc: bv32, mem: seq<bv32>): (r: Option<bv32>)
    requires pc % 4 != 0 || WordIndex(pc) < |mem|
    ensures r.None? <==> pc & 3 != 0
    ensures r.Some? ==> (pc / 4) as int < |mem| && r.value == mem[(pc / 4) as int]
  {
    if pc % 4 != 0 then None else Some(mem[WordIndex(pc)])
  }

  /** The source indexes Mem with ALUresult >> 2 whenever it performs an access; that index must lie
      inside the memory (the C array has no bound check). */
  predicate AccessInRange(aluResult: bv32, memWrite: nat, memRead: nat, memWords: nat)
  {
    (memRead != 0 || memWrite != 0) && aluResult % 4 != 0 ==> WordIndex(aluResult) < memWords
  }

  /** What rw_memory leaves behind: whether it halted, the memory, and its memdata out-parameter
      (which keeps whatever it held unless a load writes it). */
  datatype Access = Access(halt: bool, mem: seq<bv32>, memdata: bv32)

  /** rw_memory, as written: MemRead makes it STORE data2 and MemWrite makes it LOAD into memdata,
      and either access happens only when the address is NOT a multiple of 4; an address that is a
      multiple of 4 halts instead. */
  function MemoryAccess(aluResult: bv32, data2: bv32, memWrite: nat, memRead: nat,
                        memdata: bv32, mem: seq<bv32>): (r: Access)
    requires AccessInRange(aluResult, memWrite, memRead, |mem|)
    ensures |r.mem| == |mem|
    ensures r.halt ==> r.mem == mem && r.memdata == memdata
    ensures memRead == 0 && memWrite == 0 ==> r == Access(false, mem, memdata)
    ensures memRead == 0 ==> r.mem == mem
    ensures memWrite == 0 ==> r.memdata == memdata
  {
    if memRead != 0 && aluResult % 4 == 0 then Access(true, mem, memdata)
    else
      var stored := if memRead != 0 then mem[WordIndex(aluResult) := data2] else mem;
      if memWrite != 0 then
        if aluResult % 4 != 0 then Access(false, stored, stored[WordIndex(aluResult)])
        else Access(true, stored, memdata)
      else Access(false, stored, memdata)
  }

  /** An access halts exactly when one is requested at a multiple of 4. */
  lemma MemoryAccessHalts(aluResult: bv32, data2: bv32, memWrite: nat, memRead: nat,
                          memdata: bv32, mem: seq<bv32>)
    requires AccessInRange(aluResult, memWrite, memRead, |mem|)
    ensures MemoryAccess(aluResult, data2, memWrite, memRead, memdata, mem).halt
        <==> (memRead != 0 || memWrite != 0) && aluResult & 3 == 0
  {
  }

  /** An access leaves every word other than the one at ALUresult >> 2 as it was. */
  lemma MemoryAccessFrame(aluResult: bv32, data2: bv32, memWrite: nat, memRead: nat,
                          memdata: bv32, mem: seq<bv32>, i: int)
    requires AccessInRange(aluResult, memWrite, memRead, |mem|)
    requires 0 <= i < |mem| && i != WordIndex(aluResult)
    ensures MemoryAccess(aluResult, data2, memWrite, memRead, memdata, mem).mem[i] == mem[i]
  {
  }

  /** A store (MemRead, as written) that goes through puts data2 at ALUresult >> 2. */
  lemma MemoryAccessStores(aluResult: bv32, data2: bv32, memWrite: nat, memRead: nat,
                           memdata: bv32, mem: seq<bv32>)
    requires AccessInRange(aluResult, memWrite, memRead, |mem|)
    requires memRead != 0 && !MemoryAccess(aluResult, data2, memWrite, memRead, memdata, mem).halt
    ensures MemoryAccess(aluResult, data2, memWrite, memRead, memdata, mem).mem[WordIndex(aluResult)] == data2
  {
  }

  /** A load (MemWrite, as written) that goes through returns the word at ALUresult >> 2, read after
      any store of the same cycle. */
  lemma MemoryAccessLoads(aluResult: bv32, data2: bv32, memWrite: nat, memRead: nat,
                          memdata: bv32, mem: seq<bv32>)
    requires AccessInRange(aluResult, memWrite, memRead, |mem|)
    requires memWrite != 0 && !MemoryAccess(aluResult, data2, memWrite, memRead, memdata, mem).halt
    ensures var r := MemoryAccess(aluResult, data2, memWrite, memRead, memdata, mem);
      r.memdata == r.mem[WordIndex(aluResult)]
  {
  }

  /** With only MemRead asserted and an address that is not a multiple of 4, the access is exactly a
      store of data2 and memdata is untouched. */
  lemma MemoryAccessStoreOnly(aluResult: bv32, data2: bv32, memWrite: nat, memRead: nat, memdata: bv32, mem: seq<bv32>)
    requires memWrite == 0 && memRead == 1
    requires AccessInRange(aluResult, memWrite, memRead, |mem|)
    requires aluResult % 4 != 0
    ensures WordIndex(aluResult) < |mem|
    ensures MemoryAccess(aluResult, data2, memWrite, memRead, memdata, mem) == Access(false, mem[WordIndex(aluResult) := data2], memdata)
  {
  }

  /** With only MemWrite asserted and an address that is not a multiple of 4, the access is exactly a
      load: memory is untouched and memdata receives the addressed word. */
  lemma MemoryAccessLoadOnly(aluResult: bv32, data2: bv32, memWrite: nat, memRead: nat, memdata: bv32, mem: seq<bv32>)
    requires memWrite == 1 && memRead == 0
    requires AccessInRange(aluResult, memWrite, memRead, |mem|)
    requires aluResult % 4 != 0
    ensures WordIndex(aluResult) < |mem|
    ensures MemoryAccess(aluResult, data2, memWrite, memRead, memdata, mem) == Access(false, mem, mem[WordIndex(aluResult)])
  {
  }

  /** rw_memory on the memory array itself: the array ends as MemoryAccess describes, and the
      returned flag and memdata are MemoryAccess's. */
  method RwMemory(aluResult: bv32, data2: bv32, memWrite: nat, memRead: nat, memdata: bv32,
                  mem: array<bv32>) returns (halt: bool, memdataOut: bv32)
    requires AccessInRange(aluResult, memWrite, memRead, mem.Length)
    modifies mem
    ensures Access(halt, mem[..], memdataOut) == MemoryAccess(aluResult, data2, memWrite, memRead, memdata, old(mem[..]))
  {
    ghost var before := mem[..];
    ghost var expected := MemoryAccess(aluResult, data2, memWrite, memRead, memdata, before);
    memdataOut := memdata;
    if memRead != 0 {
      if aluResult % 4 != 0 {
        mem[WordIndex(aluResult)] := data2;
        assert mem[..] == before[WordIndex(aluResult) := data2];
      } else {
        assert expected == Access(true, before, memdata);
        return true, memdataOut;
      }
    }
    ghost var stored := mem[..];
    assert stored == if memRead != 0 then before[WordIndex(aluResult) := data2] else before;
    if memWrite != 0 {
      if aluResult % 4 != 0 {
        memdataOut := mem[WordIndex(aluResult)];
        assert expected == Access(false, stored, memdataOut);
      } else {
        assert expected == Access(true, stored, memdata);
        return true, memdataOut;
      }
    }
    halt := false;
  }
}
