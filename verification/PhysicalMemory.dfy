/**
 The address space of vm_init as the processor sees it, and the heap on top:
 which physical bytes the heap's blocks occupy.
 */
module PhysicalMemory {
  import opened HeapSpec
  import HeapRuns
  import VM = VirtualMemory

  // HEAP_SIZE in kernel/kmain.c
  const HEAP_SIZE: nat := 50000

  // What vm_init leaves: the page tables, tables_phys, the addresses of the
  // directory and of free memory, and the number of pages mapped to themselves.
  datatype Space = Space(tables: VM.Directory, words: map<nat, nat>, kdir: nat, phys: nat, k: nat)

  ghost predicate Booted(s: Space) {
    && VM.SoundTables(s.tables) && VM.Placed(s.tables, s.words, s.kdir, s.phys)
    && s.k + 16 <= VM.NFRAMES && s.phys + 0x10000 == VM.PAGE_SIZE * s.k && VM.PAGE_SIZE <= s.kdir && s.kdir + 0x2000 <= s.phys
    && forall v :: VM.EntryOf(s.tables, v) == VM.FinalMapping(s.k, v)
  }

  // vm_init ends in such a space.
  method BootSpace(imageEnd: nat) returns (ok: bool, ghost s: Space)
    requires VM.PAGE_SIZE <= imageEnd <= VM.MEM_SIZE
    ensures ok <==> imageEnd < VM.IMAGE_LIMIT
    ensures ok ==> Booted(s)
  {
    hide VM.FinalMapping, VM.Placed;
    var space := new VM.AddressSpace(imageEnd);
    ghost var k;
    ok, k := space.VmInit();
    s := Space(space.tables, space.tablesPhys, space.kdir, space.physAllocAddr, k);
  }

  // ---------------------------------------------------------------- the walk

  datatype Access = Fault | Byte(addr: nat, writeable: bool, usermode: bool)

  ghost predicate HasTable(ts: VM.Directory, base: nat) {
    exists t :: t in ts && ts[t].address == base
  }

  // The page table at a physical address.
  ghost function TableAt(ts: VM.Directory, base: nat): (table: VM.PageTable)
    requires VM.SoundTables(ts) && HasTable(ts, base)
    ensures table.address == base && |table.pages| == 1024
  {
    var t :| t in ts && ts[t].address == base;
    ts[t]
  }

  // Address translation with 4 KiB pages: the word of the directory selected by
  // the top ten bits must have its present bit set, and its upper bits are the
  // address of a page table; the entry selected by the next ten bits must be
  // present.  Bits 1 and 2 of the word, and the fields of the entry, together
  // say who may do what.
  ghost function Walk(s: Space, addr: nat): Access
    requires VM.SoundTables(s.tables)
  {
    var d := addr / 0x40_0000;
    if d !in s.words || s.words[d] % 2 == 0 then Fault else
    var word := s.words[d];
    var base := word / 0x1000 * 0x1000;
    if !HasTable(s.tables, base) then Fault else
    var e := TableAt(s.tables, base).pages[addr / 0x1000 % 1024];
    if !e.present then Fault
    else Byte(e.frameaddr * 0x1000 + addr % 0x1000, word / 2 % 2 == 1 && e.writeable, word / 4 % 2 == 1 && e.usermode)
  }

  lemma WordOf(a: nat)
    requires a % 0x1000 == 0
    ensures (a + 7) % 2 == 1 && (a + 7) / 2 % 2 == 1 && (a + 7) / 4 % 2 == 1 && (a + 7) / 0x1000 * 0x1000 == a
  {
    var q := a / 0x1000;
    assert a == 0x1000 * q;
    assert (a + 7) / 2 == 2 * (0x400 * q + 1) + 1 && (a + 7) / 4 == 2 * (0x200 * q) + 1;
  }

  lemma SplitIndex(addr: nat)
    ensures addr / 0x1000 / 1024 == addr / 0x40_0000
  {
  }

  // The walk finds the entry of the page.
  lemma WalkFindsEntry(s: Space, addr: nat)
    requires Booted(s)
    ensures var e := VM.EntryOf(s.tables, addr / 0x1000);
      Walk(s, addr) == if e.present then Byte(e.frameaddr * 0x1000 + addr % 0x1000, e.writeable, e.usermode) else Fault
  {
    var d := addr / 0x40_0000;
    SplitIndex(addr);
    VM.DirectoryWords(s.tables, s.words, s.kdir, s.phys);
    if d in s.tables {
      WordOf(s.tables[d].address);
      assert HasTable(s.tables, s.tables[d].address);
    }
    hide VM.FinalMapping;
  }

  // What the processor makes of every address after vm_init: below the bound,
  // and but for the first page, the address itself; in the primitive heap, the
  // memory just above the bound; else a page fault.  All that is mapped may be
  // written, and by the kernel only.
  lemma WalkIs(s: Space, addr: nat)
    requires Booted(s)
    ensures Walk(s, addr) ==
      if VM.PAGE_SIZE <= addr < VM.PAGE_SIZE * s.k then Byte(addr, true, false)
      else if VM.KHEAP_BASE <= addr < VM.KHEAP_BASE + VM.KHEAP_SIZE then
        Byte(VM.PAGE_SIZE * s.k + addr - VM.KHEAP_BASE, true, false)
      else Fault
  {
    WalkFindsEntry(s, addr);
    assert VM.EntryOf(s.tables, addr / 0x1000) == VM.FinalMapping(s.k, addr / 0x1000);
    hide Walk, VM.EntryOf, VM.Placed, VM.SoundTables;
    PageOf(addr, s.k);
  }

  // Which page an address is on.
  lemma PageOf(addr: nat, k: nat)
    ensures VM.PAGE_SIZE <= addr < VM.PAGE_SIZE * k <==> 1 <= addr / 0x1000 < k
    ensures VM.KHEAP_BASE <= addr < VM.KHEAP_BASE + VM.KHEAP_SIZE <==> VM.HEAP_PAGE <= addr / 0x1000 < VM.HEAP_PAGE + 16
    ensures addr / 0x1000 * 0x1000 + addr % 0x1000 == addr
  {
  }

  // -------------------------------------------------------- what follows

  // No two mapped addresses share a byte of physical memory, and none has a
  // byte beyond the memory of the machine.
  lemma WalkIsInjective(s: Space, a: nat, b: nat)
    requires Booted(s) && a != b && Walk(s, a).Byte? && Walk(s, b).Byte?
    ensures Walk(s, a).addr != Walk(s, b).addr && Walk(s, a).addr < VM.MEM_SIZE
  {
    WalkIs(s, a);
    WalkIs(s, b);
    hide Walk, Booted;
  }

  // The directory and the page tables, as the processor reads them, can be
  // written by the kernel at their own addresses; NULL cannot be followed.
  lemma TablesReachable(s: Space, t: nat, offset: nat)
    requires Booted(s) && t in s.tables && offset < 0x1000
    ensures var a := s.tables[t].address + offset; Walk(s, a) == Byte(a, true, false)
    ensures Walk(s, s.kdir + offset) == Byte(s.kdir + offset, true, false)
    ensures var a := s.kdir + 0x1000 + offset; Walk(s, a) == Byte(a, true, false)
    ensures Walk(s, offset) == Fault
  {
    hide *;
    KernelBounds(s, t);
    KernelMemory(s, s.tables[t].address + offset);
    KernelMemory(s, s.kdir + offset);
    KernelMemory(s, s.kdir + 0x1000 + offset);
    FirstPage(s, offset);
  }

  lemma KernelBounds(s: Space, t: nat)
    requires Booted(s) && t in s.tables
    ensures 0x1000 <= s.kdir && s.kdir + 0x2000 <= s.tables[t].address && s.tables[t].address + 0x1000 <= s.phys
  {
    hide VM.SoundTables, VM.EntryOf, VM.FinalMapping;
  }

  lemma KernelMemory(s: Space, addr: nat)
    requires Booted(s) && 0x1000 <= addr < s.phys
    ensures Walk(s, addr) == Byte(addr, true, false)
  {
    WalkIs(s, addr);
    hide Walk, VM.SoundTables, VM.Placed, VM.EntryOf, VM.FinalMapping;
  }

  lemma FirstPage(s: Space, addr: nat)
    requires Booted(s) && addr < 0x1000
    ensures Walk(s, addr) == Fault
  {
    WalkIs(s, addr);
    hide Walk, Booted;
  }

  // A byte of the primitive heap is mapped, and not to a byte of the kernel
  // image, of the page directory or of a page table: those lie below.
  lemma HeapByteMapped(s: Space, addr: nat)
    requires Booted(s) && VM.KHEAP_BASE <= addr < VM.KHEAP_BASE + VM.KHEAP_SIZE
    ensures var b := Walk(s, addr);
      b.Byte? && b.writeable && !b.usermode && VM.PAGE_SIZE * s.k <= b.addr < VM.MEM_SIZE
  {
    WalkIs(s, addr);
    assert s.k + 16 <= VM.NFRAMES;
    hide Walk, Booted;
  }

  // In every heap that a run can reach, a byte of one block and a byte of
  // another, or two bytes of one block, are different bytes of physical
  // memory; none of them belongs to the kernel's own memory.
  lemma HeapBytesApart(s: Space, steps: seq<HeapRuns.Step>, i: nat, j: nat, a: nat, b: nat)
    requires Booted(s)
    requires HeapRuns.Legal(HeapRuns.Boot(VM.KHEAP_BASE, HEAP_SIZE), steps)
    requires var bs := HeapRuns.Run(HeapRuns.Boot(VM.KHEAP_BASE, HEAP_SIZE), steps).blocks;
      && i < |bs| && bs[i].Header() <= a < bs[i].End()
      && j < |bs| && bs[j].Header() <= b < bs[j].End()
      && (i != j || a != b)
    ensures Walk(s, a).Byte? && Walk(s, b).Byte? && Walk(s, a).addr != Walk(s, b).addr
    ensures Walk(s, a).writeable && VM.PAGE_SIZE * s.k <= Walk(s, a).addr < VM.MEM_SIZE
  {
    var bs := HeapRuns.Run(HeapRuns.Boot(VM.KHEAP_BASE, HEAP_SIZE), steps).blocks;
    HeapRuns.RunsAreGood(VM.KHEAP_BASE, HEAP_SIZE, steps);
    BytesDiffer(bs, VM.KHEAP_BASE, VM.KHEAP_BASE + HEAP_SIZE, i, j, a, b);
    hide Walk, Booted, HeapRuns.Legal, HeapRuns.Run;
    HeapByteMapped(s, a);
    HeapByteMapped(s, b);
    WalkIsInjective(s, a, b);
  }

  lemma BytesDiffer(bs: seq<Block>, lo: int, hi: int, i: nat, j: nat, a: nat, b: nat)
    requires WellFormed(bs, lo, hi)
    requires i < |bs| && bs[i].Header() <= a < bs[i].End()
    requires j < |bs| && bs[j].Header() <= b < bs[j].End()
    requires i != j || a != b
    ensures a != b && lo <= a < hi && lo <= b < hi
  {
    if i != j && a == b {
      HeapRuns.ByteHasOneOwner(bs, lo, hi, i, j, a);
    }
  }
}
