/**
 kernel/core-c.c: the frame bitmap, page tables made on demand, the primitive
 kernel allocator, and vm_init, which builds the kernel's address space.

 Fresh physical memory is taken to be zero, as the C code takes it to be: a new
 page table is not cleared.  A kernel panic is a result, not a crash.
 */
module VirtualMemory {
  import opened Bits

  const WORD: nat := 0x1_0000_0000
  const KHEAP_BASE: nat := 0xD00_0000
  const KHEAP_SIZE: nat := 0x1_0000
  const PAGE_SIZE: nat := 0x1000
  const MEM_SIZE: nat := 0x400_0000
  const NFRAMES: nat := 0x4000
  const NO_FRAME: nat := 0xFFFF_FFFF

  // page_entry: the fields that are ever written
  datatype PageEntry = PageEntry(present: bool, writeable: bool, usermode: bool, frameaddr: nat)

  const ZERO_ENTRY := PageEntry(false, false, false, 0)

  // A page table, and where it lives.
  datatype PageTable = PageTable(address: nat, pages: seq<PageEntry>)

  function Add32(a: nat, b: nat): nat {
    (a + b) % WORD
  }

  // addr & 0xFFFFF000
  function PageBase(addr: nat): nat {
    addr / PAGE_SIZE * PAGE_SIZE
  }

  // The alignment step of kmalloc.  Its test looks at the high bits, so an
  // address that is already aligned still moves up by a page.
  function Align(addr: nat): nat {
    if PageBase(addr) != 0 then Add32(PageBase(addr), PAGE_SIZE) else addr
  }

  // addr | 0x7
  function Flags(addr: nat): nat {
    addr / 8 * 8 + 7
  }

  // Bit f of the frame bitmap.
  ghost predicate Marked(words: seq<bv32>, f: nat)
    requires |words| == 512 && f < NFRAMES
  {
    Bit(words[f / 32], f % 32)
  }

  // The frames of word i, up to its bit j.
  lemma FramesOfWord(words: seq<bv32>, i: nat, j: nat)
    requires |words| == 512 && i < 512 && j <= 32 && forall k :: 0 <= k < j ==> Bit(words[i], k)
    ensures forall g :: 32 * i <= g < 32 * i + j ==> Marked(words, g)
    ensures j < 32 ==> (Marked(words, 32 * i + j) <==> Bit(words[i], j))
  {
    hide Bit;
    forall g | 32 * i <= g < 32 * i + j ensures Marked(words, g) {
      assert g / 32 == i && g % 32 == g - 32 * i;
    }
    if j < 32 {
      assert (32 * i + j) / 32 == i && (32 * i + j) % 32 == j;
    }
  }

  lemma BitTest(w: bv32, j: nat)
    requires j < 32
    ensures w & Mask(j) == 0 <==> !Bit(w, j)
  {
    hide Mask;
  }

  // The result of get_page: NULL, or a place in a page table.
  datatype EntryRef = NoEntry | EntryAt(index: nat, offset: nat)

  // A page table in fresh memory.
  function ZeroPages(): (pages: seq<PageEntry>)
    ensures |pages| == 1024 && forall i :: 0 <= i < 1024 ==> pages[i] == ZERO_ENTRY
  {
    seq(1024, i => ZERO_ENTRY)
  }

  function TableOf(addr: nat): nat {
    addr / PAGE_SIZE / 1024
  }

  const HEAP_PAGE: nat := 0xD000   // the first page of the primitive heap
  const HEAP_TABLE: nat := 52      // the page table that covers it

  type Directory = map<nat, PageTable>

  ghost predicate SoundTables(ts: Directory) {
    forall t :: t in ts ==> t < 1024 && |ts[t].pages| == 1024
  }

  // The entry of page v; zero where no table has been made.
  ghost function EntryOf(ts: Directory, v: nat): PageEntry
    requires SoundTables(ts)
  {
    if v / 1024 in ts then ts[v / 1024].pages[v % 1024] else ZERO_ENTRY
  }

  // What get_page does when it may make a table.
  function WithTable(ts: Directory, index: nat, phys: nat): Directory {
    if index in ts then ts else ts[index := PageTable(Align(phys), ZeroPages())]
  }

  function WithFlags(ts: Directory, tp: map<nat, nat>, index: nat, phys: nat): map<nat, nat> {
    if index in ts then tp else tp[index := Flags(Align(phys))]
  }

  function Advance(ts: Directory, index: nat, phys: nat): nat {
    if index in ts then phys else Add32(Align(phys), PAGE_SIZE)
  }

  function StoreEntry(ts: Directory, index: nat, offset: nat, e: PageEntry): Directory
    requires index in ts && offset < |ts[index].pages|
  {
    ts[index := PageTable(ts[index].address, ts[index].pages[offset := e])]
  }

  // Page tables are page-aligned, disjoint, above the directory and below the
  // allocation address, and the directory records each physical address with
  // its flags.
  ghost predicate Placed(ts: Directory, tp: map<nat, nat>, kdir: nat, phys: nat) {
    && tp.Keys == ts.Keys
    && (forall t :: t in ts ==>
          && ts[t].address % PAGE_SIZE == 0
          && kdir + 2 * PAGE_SIZE <= ts[t].address && ts[t].address + PAGE_SIZE <= phys
          && tp[t] == Flags(ts[t].address))
    && (forall t, u :: t in ts && u in ts && t != u ==> ts[t].address != ts[u].address)
  }

  function Mapped(frame: nat): PageEntry {
    PageEntry(true, true, false, frame)
  }

  // k pages mapped to themselves, and h heap pages mapped to the frames behind.
  function Mapping(k: nat, h: nat, v: nat): PageEntry {
    if v < k then Mapped(v)
    else if HEAP_PAGE <= v < HEAP_PAGE + h then Mapped(k + v - HEAP_PAGE)
    else ZERO_ENTRY
  }

  ghost predicate Maps(ts: Directory, k: nat, h: nat)
    requires SoundTables(ts)
  {
    forall v :: EntryOf(ts, v) == Mapping(k, h, v)
  }

  // The number of page tables that cover k pages.
  function TablesFor(k: nat): nat {
    (k + 1023) / 1024
  }

  // The tables once k pages are mapped, and the allocation address, which was
  // p0 before the first of them: each table costs two pages.
  ghost predicate TablesMade(ts: Directory, phys: nat, k: nat, p0: nat) {
    && (forall t: nat :: t in ts <==> t == HEAP_TABLE || t < TablesFor(k))
    && phys == p0 + 2 * PAGE_SIZE * TablesFor(k)
  }

  class AddressSpace {
    const frames: array<bv32>          // one bit for each page frame
    var tables: Directory    // kdir->tables: absent where NULL
    var tablesPhys: map<nat, nat>      // kdir->tables_phys
    var kdir: nat
    var physAllocAddr: nat
    var heapAddr: nat
    var heapIsInitialized: bool

    ghost predicate Sound()
      reads this
    {
      frames.Length == 512 && SoundTables(tables) && heapAddr < WORD
    }

    // Frame f is marked as in use.
    ghost predicate InUse(f: nat)
      requires frames.Length == 512 && f < NFRAMES
      reads frames
    {
      Marked(frames[..], f)
    }

    // Frames below n are in use, and no others.
    ghost predicate Taken(n: nat)
      requires frames.Length == 512
      reads frames
    {
      forall g :: 0 <= g < NFRAMES ==> (InUse(g) <==> g < n)
    }

    // The state at power-up, with the kernel image ending at imageEnd.
    constructor (imageEnd: nat)
      ensures Sound() && fresh(frames)
      ensures tables == map[] && tablesPhys == map[] && physAllocAddr == imageEnd
      ensures heapAddr == KHEAP_BASE && !heapIsInitialized
      ensures Taken(0)
    {
      frames := new bv32[512](_ => 0);
      tables, tablesPhys, kdir := map[], map[], 0;
      physAllocAddr, heapAddr, heapIsInitialized := imageEnd, KHEAP_BASE, false;
      new;
      hide Mask;
    }

    // The first free frame, or NO_FRAME if there is none.
    method FindFree() returns (f: nat)
      requires Sound()
      ensures f < NFRAMES ==> !InUse(f)
      ensures f < NFRAMES || f == NO_FRAME
      ensures forall g: nat :: g < f && g < NFRAMES ==> InUse(g)
    {
      hide Marked, Bit, Mask, And, SoundTables;
      for i := 0 to 512
        invariant forall g :: 0 <= g < 32 * i ==> InUse(g)
      {
        FullWord(frames[i]);
        if frames[i] != 0xFFFF_FFFF {
          for j := 0 to 32
            invariant forall k :: 0 <= k < j ==> Bit(frames[i], k)
          {
            BitTest(frames[i], j);
            if frames[i] & Mask(j) == 0 {
              FramesOfWord(frames[..], i, j);
              return 32 * i + j;
            }
          }
        }
        FramesOfWord(frames[..], i, 32);
      }
      return NO_FRAME;
    }

    method SetBit(addr: nat)
      requires Sound() && addr < MEM_SIZE
      modifies frames
      ensures forall g :: 0 <= g < NFRAMES ==> (InUse(g) <==> g == addr / PAGE_SIZE || old(InUse(g)))
    {
      var frame := addr / PAGE_SIZE;
      var index := frame / 32;
      var offset := frame % 32;
      var w := frames[index] | (1 << offset);
      assert w == Or(frames[index], Mask(offset));
      hide And, Or, Mask, Bit;
      forall k | 0 <= k < 32 ensures Bit(w, k) <==> k == offset || Bit(frames[index], k) {
        SetOneBit(frames[index], offset, k);
      }
      frames[index] := w;
    }

    // alloc: move the heap break; false stands for the panic when it passes
    // the end of the primitive heap.
    method Alloc(size: nat) returns (base: nat, ok: bool)
      modifies this`heapAddr
      ensures base == old(heapAddr) && heapAddr == Add32(base, size)
      ensures ok <==> heapAddr <= KHEAP_BASE + KHEAP_SIZE
    {
      base := heapAddr;
      heapAddr := Add32(heapAddr, size);
      ok := heapAddr <= KHEAP_BASE + KHEAP_SIZE;
    }

    method Kmalloc(size: nat, pageAlign: bool, wantPhys: bool) returns (addr: nat, phys: nat, ok: bool)
      requires Sound()
      requires heapIsInitialized && wantPhys ==> heapAddr / PAGE_SIZE / 1024 in tables
      modifies this`heapAddr, this`physAllocAddr
      ensures Sound()
      ensures heapIsInitialized ==>
        && addr == old(heapAddr) && heapAddr == Add32(addr, size) && physAllocAddr == old(physAllocAddr)
        && (ok <==> heapAddr <= KHEAP_BASE + KHEAP_SIZE)
        && (ok && wantPhys ==> phys == EntryOf(tables, addr / PAGE_SIZE).frameaddr * 0x1000 + addr % 0x1000)
      ensures !heapIsInitialized ==>
        && ok && heapAddr == old(heapAddr)
        && addr == (if pageAlign then Align(old(physAllocAddr)) else old(physAllocAddr))
        && physAllocAddr == Add32(addr, size) && (wantPhys ==> phys == addr)
      decreases 1
    {
      phys := 0;
      if heapIsInitialized {
        addr, ok := Alloc(size);
        if !ok {
          return;
        }
        if wantPhys {
          var page, _ := GetPage(addr, false);
          phys := tables[page.index].pages[page.offset].frameaddr * 0x1000 + addr % 0x1000;
        }
      } else {
        ok := true;
        if pageAlign && PageBase(physAllocAddr) != 0 {
          physAllocAddr := PageBase(physAllocAddr);
          physAllocAddr := Add32(physAllocAddr, 0x1000);
        }
        addr := physAllocAddr;
        if wantPhys {
          phys := addr;
        }
        physAllocAddr := Add32(physAllocAddr, size);
      }
    }

    // get_page: the entry of the page at addr, making its table if asked to.
    method GetPage(addr: nat, makeTable: bool) returns (page: EntryRef, ok: bool)
      requires Sound() && addr < WORD
      requires makeTable ==> !heapIsInitialized
      modifies if makeTable then {this} else {}
      ensures Sound() && kdir == old(kdir) && heapAddr == old(heapAddr) && heapIsInitialized == old(heapIsInitialized)
      ensures ok && page == if makeTable || TableOf(addr) in tables then EntryAt(TableOf(addr), addr / PAGE_SIZE % 1024) else NoEntry
      ensures makeTable ==>
        && tables == WithTable(old(tables), TableOf(addr), old(physAllocAddr))
        && tablesPhys == WithFlags(old(tables), old(tablesPhys), TableOf(addr), old(physAllocAddr))
        && physAllocAddr == Advance(old(tables), TableOf(addr), old(physAllocAddr))
      decreases if makeTable then 2 else 0
    {
      var index := addr / PAGE_SIZE / 1024;
      var offset := addr / PAGE_SIZE % 1024;
      ok := true;
      if index in tables {
        return EntryAt(index, offset), true;
      }
      if makeTable {
        var table, phys, granted := Kmalloc(0x1000, true, true);
        tables := tables[index := PageTable(table, ZeroPages())];
        tablesPhys := tablesPhys[index := Flags(phys)];
        return EntryAt(index, offset), granted;
      }
      return NoEntry, true;
    }

    ghost predicate AllInUse()
      requires frames.Length == 512
      reads frames
    {
      forall g :: 0 <= g < NFRAMES ==> InUse(g)
    }

    // new_frame: give the page the first free frame f, unless it has a frame;
    // false stands for the panic when memory is exhausted.
    method NewFrame(page: EntryRef) returns (ok: bool, ghost f: nat)
      requires Sound() && page.EntryAt? && page.index in tables && page.offset < 1024
      modifies this`tables, frames
      ensures Sound() && tables.Keys == old(tables).Keys
      ensures old(tables)[page.index].pages[page.offset].frameaddr != 0 ==>
        && ok && tables == old(tables)
        && (forall g :: 0 <= g < NFRAMES ==> (InUse(g) <==> old(InUse(g))))
      ensures old(tables)[page.index].pages[page.offset].frameaddr == 0 ==> (ok <==> !old(AllInUse()))
      ensures old(tables)[page.index].pages[page.offset].frameaddr == 0 && ok ==>
        && f < NFRAMES && !old(InUse(f)) && (forall g :: 0 <= g < f ==> old(InUse(g)))
        && (forall g :: 0 <= g < NFRAMES ==> (InUse(g) <==> g == f || old(InUse(g))))
        && tables == StoreEntry(old(tables), page.index, page.offset, PageEntry(true, true, false, f))
    {
      hide Bit;
      var table := tables[page.index];
      f := 0;
      if table.pages[page.offset].frameaddr != 0 {
        ok := true;
        return;
      }
      var index := FindFree();
      assert forall g: nat :: g < NFRAMES ==> (InUse(g) <==> old(InUse(g)));
      if index == NO_FRAME {
        ok := false;
        return;
      }
      f := index;
      SetBit(index * PAGE_SIZE);
      var entry := PageEntry(true, true, false, index);
      tables := tables[page.index := table.(pages := table.pages[page.offset := entry])];
      ok := true;
    }

    // The first loop of vm_init: one call of get_page for every byte of the
    // primitive heap makes its one table.
    method MakeHeapTable()
      requires Sound() && !heapIsInitialized
      requires tables == map[] && tablesPhys == map[]
      requires PAGE_SIZE <= physAllocAddr && physAllocAddr % PAGE_SIZE == 0 && physAllocAddr <= 2 * MEM_SIZE
      modifies this
      ensures Sound() && heapIsInitialized == old(heapIsInitialized) && heapAddr == old(heapAddr) && kdir == old(kdir)
      ensures tables == WithTable(map[], HEAP_TABLE, old(physAllocAddr))
      ensures tablesPhys == WithFlags(map[], map[], HEAP_TABLE, old(physAllocAddr))
      ensures physAllocAddr == old(physAllocAddr) + 2 * PAGE_SIZE
    {
      hide SoundTables;
      var i := KHEAP_BASE;
      while i < KHEAP_BASE + KHEAP_SIZE
        invariant KHEAP_BASE <= i <= KHEAP_BASE + KHEAP_SIZE
        invariant Sound() && heapIsInitialized == old(heapIsInitialized) && heapAddr == old(heapAddr) && kdir == old(kdir)
        invariant i == KHEAP_BASE ==> tables == map[] && tablesPhys == map[] && physAllocAddr == old(physAllocAddr)
        invariant i > KHEAP_BASE ==>
          && tables == WithTable(map[], HEAP_TABLE, old(physAllocAddr))
          && tablesPhys == WithFlags(map[], map[], HEAP_TABLE, old(physAllocAddr))
          && physAllocAddr == old(physAllocAddr) + 2 * PAGE_SIZE
      {
        HeapTable(i);
        var _, _ := GetPage(i, true);
        i := i + 1;
      }
    }

    // The body of the second loop: page k gets frame k; a panic means that
    // all frames are gone.
    method MapOnePage(i: nat, ghost k: nat, ghost p0: nat) returns (ok: bool)
      requires Sound() && !heapIsInitialized && i == PAGE_SIZE * k && k <= NFRAMES && p0 % PAGE_SIZE == 0 && PAGE_SIZE <= p0 <= 2 * MEM_SIZE
      requires kdir + 2 * PAGE_SIZE <= p0
      requires Maps(tables, k, 0) && Taken(k)
      requires Placed(tables, tablesPhys, kdir, physAllocAddr) && TablesMade(tables, physAllocAddr, k, p0)
      modifies this, frames
      ensures Sound() && !heapIsInitialized && heapAddr == old(heapAddr) && kdir == old(kdir)
      ensures ok <==> k < NFRAMES
      ensures ok ==> Maps(tables, k + 1, 0) && Taken(k + 1)
      ensures ok ==> Placed(tables, tablesPhys, kdir, physAllocAddr) && TablesMade(tables, physAllocAddr, k + 1, p0)
    {
      hide Placed, Maps, TablesMade, EntryOf, InUse, WithTable, WithFlags, Advance, StoreEntry;
      ghost var ts, tp, phys := tables, tablesPhys, physAllocAddr;
      NextTable(k);
      var page, _ := GetPage(i, true);
      TableKeeps(ts, tp, kdir, phys, k, p0);
      ghost var f;
      ghost var ts1 := tables;
      EntryIsZero(ts1, k);
      assert forall g: nat :: g < NFRAMES ==> (InUse(g) <==> old(InUse(g)));
      assert k < NFRAMES ==> !InUse(k);
      ok, f := NewFrame(page);
      if ok {
        StoreKeeps(ts1, tablesPhys, kdir, physAllocAddr, k, f, p0);
      }
    }

    // The second loop of vm_init: map pages to themselves until all physical
    // memory handed out so far is covered, with the heap's worth of slack.
    // The bound moves whenever a page table is made.
    method MapIdentity() returns (ok: bool, ghost k: nat)
      requires Sound() && !heapIsInitialized && physAllocAddr % PAGE_SIZE == 0
      requires PAGE_SIZE <= physAllocAddr <= 2 * MEM_SIZE && kdir + 2 * PAGE_SIZE <= physAllocAddr
      requires tables.Keys == {HEAP_TABLE} && Maps(tables, 0, 0) && Taken(0) && Placed(tables, tablesPhys, kdir, physAllocAddr)
      modifies this, frames
      ensures Sound() && !heapIsInitialized && heapAddr == old(heapAddr) && kdir == old(kdir) && k <= NFRAMES
      ensures ok ==> Maps(tables, k, 0) && Taken(k) && Placed(tables, tablesPhys, kdir, physAllocAddr)
      ensures ok ==> TablesMade(tables, physAllocAddr, k, old(physAllocAddr)) && PAGE_SIZE * k == physAllocAddr + 0x10000
      ensures !ok ==> k == NFRAMES && PAGE_SIZE * NFRAMES < old(physAllocAddr) + 2 * PAGE_SIZE * TablesFor(NFRAMES) + 0x10000
    {
      hide Placed, Maps, Taken, SoundTables;
      ghost var p0 := physAllocAddr;
      NoTablesYet(tables, p0);
      k := 0;
      var i := 0;
      while i < Add32(physAllocAddr, 0x10000)
        invariant Sound() && !heapIsInitialized && heapAddr == old(heapAddr) && kdir == old(kdir)
        invariant k <= NFRAMES && i == PAGE_SIZE * k && i <= physAllocAddr + 0x10000
        invariant Maps(tables, k, 0) && Taken(k)
        invariant Placed(tables, tablesPhys, kdir, physAllocAddr) && TablesMade(tables, physAllocAddr, k, p0)
        decreases NFRAMES - k
      {
        StillBelow(tables, physAllocAddr, k, p0);
        ok := MapOnePage(i, k, p0);
        if !ok {
          return;
        }
        StillBelow(tables, physAllocAddr, k + 1, p0);
        i := i + PAGE_SIZE;
        k := k + 1;
      }
      StillBelow(tables, physAllocAddr, k, p0);
      ok := true;
    }

    // The body of the third loop: heap page j gets frame k + j.
    method MapHeapPage(i: nat, ghost k: nat, ghost j: nat) returns (ok: bool)
      requires Sound() && !heapIsInitialized && k <= NFRAMES && j < 16 && i == KHEAP_BASE + PAGE_SIZE * j && k + j <= NFRAMES
      requires HEAP_TABLE in tables && Maps(tables, k, j) && Taken(k + j) && Placed(tables, tablesPhys, kdir, physAllocAddr)
      modifies this, frames
      ensures Sound() && !heapIsInitialized && heapAddr == old(heapAddr) && kdir == old(kdir)
      ensures tables.Keys == old(tables).Keys && physAllocAddr == old(physAllocAddr)
      ensures ok <==> k + j < NFRAMES
      ensures ok ==> Maps(tables, k, j + 1) && Taken(k + j + 1) && Placed(tables, tablesPhys, kdir, physAllocAddr)
    {
      hide Placed, Maps, EntryOf, InUse, StoreEntry, Mapping;
      HeapPage(j);
      var page, _ := GetPage(i, true);
      ghost var f;
      ghost var ts1 := tables;
      HeapEntryIsZero(ts1, k, j);
      assert forall g: nat :: g < NFRAMES ==> (InUse(g) <==> old(InUse(g)));
      assert k + j < NFRAMES ==> !InUse(k + j);
      ok, f := NewFrame(page);
      if ok {
        StoreHeapKeeps(ts1, tablesPhys, kdir, physAllocAddr, k, j);
      }
    }

    // The third loop of vm_init: the sixteen pages of the primitive heap get
    // the frames behind the identity-mapped ones.
    method MapHeap(ghost k: nat) returns (ok: bool)
      requires Sound() && !heapIsInitialized && k <= NFRAMES
      requires HEAP_TABLE in tables && Maps(tables, k, 0) && Taken(k) && Placed(tables, tablesPhys, kdir, physAllocAddr)
      modifies this, frames
      ensures Sound() && !heapIsInitialized && heapAddr == old(heapAddr) && kdir == old(kdir)
      ensures tables.Keys == old(tables).Keys && physAllocAddr == old(physAllocAddr)
      ensures ok <==> k + 16 <= NFRAMES
      ensures ok ==> Maps(tables, k, 16) && Taken(k + 16) && Placed(tables, tablesPhys, kdir, physAllocAddr)
    {
      hide Placed, Maps, Taken, SoundTables;
      ghost var j := 0;
      var i := KHEAP_BASE;
      while i < KHEAP_BASE + KHEAP_SIZE
        invariant Sound() && !heapIsInitialized && heapAddr == old(heapAddr) && kdir == old(kdir)
        invariant tables.Keys == old(tables).Keys && physAllocAddr == old(physAllocAddr)
        invariant 0 <= j <= 16 && i == KHEAP_BASE + PAGE_SIZE * j && k + j <= NFRAMES
        invariant Maps(tables, k, j) && Taken(k + j) && Placed(tables, tablesPhys, kdir, physAllocAddr)
        decreases 16 - j
      {
        ok := MapHeapPage(i, k, j);
        if !ok {
          return;
        }
        i := i + PAGE_SIZE;
        j := j + 1;
      }
      ok := true;
    }

    // vm_init.  It panics exactly when the kernel image reaches into the last
    // 68 pages of memory.  Otherwise k pages, as many as cover every physical
    // address handed out and 64 KiB more, are mapped to themselves, except for
    // page 0; the heap's sixteen pages have the next sixteen frames; nothing
    // else is mapped and no other frame is marked.
    method VmInit() returns (ok: bool, ghost k: nat)
      requires Sound() && !heapIsInitialized && tables == map[] && tablesPhys == map[] && Taken(0)
      requires PAGE_SIZE <= physAllocAddr <= MEM_SIZE
      modifies this, frames
      ensures Sound()
      ensures ok <==> old(physAllocAddr) < IMAGE_LIMIT
      ensures ok ==> heapIsInitialized && heapAddr == old(heapAddr)
      ensures ok ==> k + 16 <= NFRAMES && Taken(k + 16) && PAGE_SIZE * k == physAllocAddr + 0x10000
      ensures ok ==> forall v :: EntryOf(tables, v) == FinalMapping(k, v)
      ensures ok ==> old(physAllocAddr) <= kdir && kdir % PAGE_SIZE == 0 && kdir + 2 * PAGE_SIZE <= physAllocAddr
      ensures ok ==> Placed(tables, tablesPhys, kdir, physAllocAddr)
      ensures ok ==> forall v :: 1 <= v < k ==> Open(EntryOf(tables, v), v)
      ensures ok ==> forall v :: HEAP_PAGE <= v < HEAP_PAGE + 16 ==> Open(EntryOf(tables, v), k + v - HEAP_PAGE)
      ensures ok ==> forall v :: v == 0 || (k <= v && !(HEAP_PAGE <= v < HEAP_PAGE + 16)) ==> !EntryOf(tables, v).present
      ensures ok ==> tablesPhys.Keys == tables.Keys && forall t :: t in tables ==> tablesPhys[t] == tables[t].address + 7
    {
      hide Placed, Maps, Taken, EntryOf, Align, WithTable, WithFlags;
      FirstAddresses(physAllocAddr);
      ghost var end := physAllocAddr;
      var directory, _, _ := Kmalloc(0x2000, true, false);
      kdir := directory;
      tables, tablesPhys := map[], map[];
      ghost var p := physAllocAddr;
      MakeHeapTable();
      HeapTableMade(tables, tablesPhys, kdir, p);
      ghost var p0 := physAllocAddr;
      ok, k := MapIdentity();
      ImageLimit(end, k, ok);
      if !ok {
        return;
      }
      KeysMade(tables, physAllocAddr, k, p0);
      ok := MapHeap(k);
      if !ok {
        return;
      }
      ghost var ts := tables;
      tables := tables[0 := PageTable(tables[0].address, tables[0].pages[0 := ZERO_ENTRY])];
      PageZeroCleared(ts, tablesPhys, kdir, physAllocAddr, k);
      FinallyOpen(tables, k);
      DirectoryWords(tables, tablesPhys, kdir, physAllocAddr);
      heapIsInitialized := true;
    }
  }

  lemma HeapTable(addr: nat)
    requires KHEAP_BASE <= addr < KHEAP_BASE + KHEAP_SIZE
    ensures TableOf(addr) == HEAP_TABLE
  {
  }

  lemma NextTable(k: nat)
    requires k <= NFRAMES
    ensures TableOf(PAGE_SIZE * k) == k / 1024 && PAGE_SIZE * k / PAGE_SIZE % 1024 == k % 1024
    ensures 1024 * (k / 1024) + k % 1024 == k && k / 1024 <= 16
    ensures k % 1024 == 0 ==> TablesFor(k) == k / 1024 && TablesFor(k + 1) == k / 1024 + 1
    ensures k % 1024 != 0 ==> TablesFor(k) == k / 1024 + 1 && TablesFor(k + 1) == TablesFor(k)
  {
  }

  // An aligned address costs a page more than it should.
  lemma AlignAligned(p: nat)
    requires p % PAGE_SIZE == 0 && PAGE_SIZE <= p < WORD - PAGE_SIZE
    ensures Align(p) == p + PAGE_SIZE
  {
  }

  // Making the table of page k, if it is missing.
  lemma TableKeeps(ts: Directory, tp: map<nat, nat>, kdir: nat, phys: nat, k: nat, p0: nat)
    requires SoundTables(ts) && k <= NFRAMES && p0 % PAGE_SIZE == 0 && PAGE_SIZE <= p0 <= 2 * MEM_SIZE && kdir + 2 * PAGE_SIZE <= p0
    requires Maps(ts, k, 0) && Placed(ts, tp, kdir, phys) && TablesMade(ts, phys, k, p0)
    ensures var ts', tp', phys' := WithTable(ts, k / 1024, phys), WithFlags(ts, tp, k / 1024, phys), Advance(ts, k / 1024, phys);
      && SoundTables(ts') && k / 1024 in ts' && Maps(ts', k, 0) && Placed(ts', tp', kdir, phys')
      && TablesMade(ts', phys', k + 1, p0)
  {
    hide Maps, Placed, SoundTables, Align, EntryOf, TablesMade, TablesFor;
    NextTable(k);
    MadeBounds(ts, phys, k, p0);
    TableMade(ts, phys, k, p0);
    if k / 1024 !in ts {
      TableMaps(ts, k, 0, k / 1024, phys);
      AlignAligned(phys);
      AlignedSum(phys);
      TablePlaced(ts, tp, kdir, phys, k / 1024, phys + PAGE_SIZE);
    }
  }

  lemma TableMade(ts: Directory, phys: nat, k: nat, p0: nat)
    requires TablesMade(ts, phys, k, p0) && k <= NFRAMES && p0 % PAGE_SIZE == 0 && PAGE_SIZE <= p0 <= 2 * MEM_SIZE
    ensures TablesMade(WithTable(ts, k / 1024, phys), Advance(ts, k / 1024, phys), k + 1, p0)
    ensures k / 1024 in WithTable(ts, k / 1024, phys)
  {
    NextTable(k);
    MadeBounds(ts, phys, k, p0);
    AlignAligned(phys);
    hide Align;
  }

  lemma TableMaps(ts: Directory, k: nat, h: nat, index: nat, phys: nat)
    requires SoundTables(ts) && index !in ts && index < 1024 && Maps(ts, k, h)
    ensures SoundTables(WithTable(ts, index, phys)) && Maps(WithTable(ts, index, phys), k, h)
  {
    var ts' := WithTable(ts, index, phys);
    forall v: nat ensures EntryOf(ts', v) == Mapping(k, h, v) {
      assert EntryOf(ts, v) == Mapping(k, h, v);
    }
  }

  lemma TablePlaced(ts: Directory, tp: map<nat, nat>, kdir: nat, phys: nat, index: nat, a: nat)
    requires Placed(ts, tp, kdir, phys) && index !in ts
    requires a % PAGE_SIZE == 0 && phys <= a && kdir + 2 * PAGE_SIZE <= a
    ensures Placed(ts[index := PageTable(a, ZeroPages())], tp[index := Flags(a)], kdir, a + PAGE_SIZE)
  {
    hide Flags;
  }

  lemma AlignedSum(p: nat)
    requires p % PAGE_SIZE == 0
    ensures (p + PAGE_SIZE) % PAGE_SIZE == 0
  {
  }

  lemma MadeBounds(ts: Directory, phys: nat, k: nat, p0: nat)
    requires TablesMade(ts, phys, k, p0) && k <= NFRAMES && p0 % PAGE_SIZE == 0 && PAGE_SIZE <= p0 <= 2 * MEM_SIZE
    ensures phys % PAGE_SIZE == 0 && p0 <= phys < WORD - 2 * PAGE_SIZE
    ensures k / 1024 !in ts ==> TablesFor(k + 1) == TablesFor(k) + 1 && k / 1024 == TablesFor(k)
  {
    NextTable(k);
    AlignedProduct(p0, TablesFor(k));
  }

  lemma AlignedProduct(p: nat, n: nat)
    requires p % PAGE_SIZE == 0
    ensures (p + 2 * PAGE_SIZE * n) % PAGE_SIZE == 0
  {
    assert p + 2 * PAGE_SIZE * n == PAGE_SIZE * (p / PAGE_SIZE + 2 * n);
  }

  // A page not mapped yet has no frame.
  lemma EntryIsZero(ts: Directory, k: nat)
    requires SoundTables(ts) && Maps(ts, k, 0) && k / 1024 in ts
    ensures k % 1024 < |ts[k / 1024].pages| && ts[k / 1024].pages[k % 1024] == ZERO_ENTRY
  {
    assert EntryOf(ts, k) == Mapping(k, 0, k);
  }

  // Storing the entry of page k.
  lemma StoreKeeps(ts: Directory, tp: map<nat, nat>, kdir: nat, phys: nat, k: nat, f: nat, p0: nat)
    requires SoundTables(ts) && k / 1024 in ts && f == k
    requires Maps(ts, k, 0) && Placed(ts, tp, kdir, phys) && TablesMade(ts, phys, k + 1, p0)
    ensures var ts' := StoreEntry(ts, k / 1024, k % 1024, Mapped(f));
      && SoundTables(ts') && Maps(ts', k + 1, 0) && Placed(ts', tp, kdir, phys) && TablesMade(ts', phys, k + 1, p0)
  {
    var ts' := StoreEntry(ts, k / 1024, k % 1024, Mapped(f));
    forall v: nat ensures EntryOf(ts', v) == Mapping(k + 1, 0, v) {
      assert EntryOf(ts, v) == Mapping(k, 0, v);
      assert v / 1024 == k / 1024 && v % 1024 == k % 1024 ==> v == k;
    }
  }

  // The bound of the second loop does not wrap around, and is page-aligned.
  lemma StillBelow(ts: Directory, phys: nat, k: nat, p0: nat)
    requires TablesMade(ts, phys, k, p0) && k <= NFRAMES && p0 % PAGE_SIZE == 0 && PAGE_SIZE <= p0 <= 2 * MEM_SIZE
    ensures Add32(phys, 0x10000) == phys + 0x10000
    ensures PAGE_SIZE * k < phys + 0x10000 ==> PAGE_SIZE * (k + 1) <= phys + 0x10000
    ensures k > 0 && PAGE_SIZE * (k - 1) < phys + 0x10000 ==> PAGE_SIZE * k <= phys + 0x10000
  {
    MadeBounds(ts, phys, k, p0);
    assert phys == PAGE_SIZE * (phys / PAGE_SIZE);
  }

  lemma NoTablesYet(ts: Directory, phys: nat)
    requires ts.Keys == {HEAP_TABLE}
    ensures TablesMade(ts, phys, 0, phys)
  {
    assert TablesFor(0) == 0;
    forall t: nat ensures t in ts <==> t == HEAP_TABLE || t < TablesFor(0) {
      assert t in ts <==> t in ts.Keys;
    }
  }

  lemma HeapPage(j: nat)
    requires j < 16
    ensures TableOf(KHEAP_BASE + PAGE_SIZE * j) == HEAP_TABLE
    ensures (KHEAP_BASE + PAGE_SIZE * j) / PAGE_SIZE % 1024 == j
    ensures (HEAP_PAGE + j) / 1024 == HEAP_TABLE && (HEAP_PAGE + j) % 1024 == j
  {
  }

  lemma HeapEntryIsZero(ts: Directory, k: nat, j: nat)
    requires SoundTables(ts) && Maps(ts, k, j) && HEAP_TABLE in ts && j < 16 && k <= NFRAMES
    ensures j < |ts[HEAP_TABLE].pages| && ts[HEAP_TABLE].pages[j] == ZERO_ENTRY
  {
    HeapPage(j);
    assert EntryOf(ts, HEAP_PAGE + j) == Mapping(k, j, HEAP_PAGE + j);
  }

  lemma StoreHeapKeeps(ts: Directory, tp: map<nat, nat>, kdir: nat, phys: nat, k: nat, j: nat)
    requires SoundTables(ts) && HEAP_TABLE in ts && j < 16 && k <= NFRAMES
    requires Maps(ts, k, j) && Placed(ts, tp, kdir, phys)
    ensures var ts' := StoreEntry(ts, HEAP_TABLE, j, Mapped(k + j));
      SoundTables(ts') && Maps(ts', k, j + 1) && Placed(ts', tp, kdir, phys)
  {
    HeapPage(j);
    var ts' := StoreEntry(ts, HEAP_TABLE, j, Mapped(k + j));
    forall v: nat ensures EntryOf(ts', v) == Mapping(k, j + 1, v) {
      assert EntryOf(ts, v) == Mapping(k, j, v);
      assert v / 1024 == HEAP_TABLE && v % 1024 == j ==> v == HEAP_PAGE + j;
    }
  }

  // The first image end, page-aligned, for which memory does not suffice.
  const IMAGE_LIMIT: nat := 0x3FB_C000

  // The address space that vm_init leaves behind.
  function FinalMapping(k: nat, v: nat): PageEntry {
    if v == 0 then ZERO_ENTRY else Mapping(k, 16, v)
  }

  // The kernel, and only the kernel, may read and write the page in frame f.
  predicate Open(e: PageEntry, f: nat) {
    e.present && e.writeable && !e.usermode && e.frameaddr == f
  }

  lemma FinallyOpen(ts: Directory, k: nat)
    requires SoundTables(ts) && k <= HEAP_PAGE && forall v :: EntryOf(ts, v) == FinalMapping(k, v)
    ensures forall v :: 1 <= v < k ==> Open(EntryOf(ts, v), v)
    ensures forall v :: HEAP_PAGE <= v < HEAP_PAGE + 16 ==> Open(EntryOf(ts, v), k + v - HEAP_PAGE)
    ensures forall v :: v == 0 || (k <= v && !(HEAP_PAGE <= v < HEAP_PAGE + 16)) ==> !EntryOf(ts, v).present
  {
    hide EntryOf;
  }

  lemma DirectoryWords(ts: Directory, tp: map<nat, nat>, kdir: nat, phys: nat)
    requires Placed(ts, tp, kdir, phys)
    ensures tp.Keys == ts.Keys && forall t :: t in ts ==> tp[t] == ts[t].address + 7
    ensures 0 in ts ==> kdir + 2 * PAGE_SIZE <= phys
  {
    forall t | t in ts ensures tp[t] == ts[t].address + 7 {
      FlagsOfAligned(ts[t].address);
    }
  }

  lemma FlagsOfAligned(a: nat)
    requires a % PAGE_SIZE == 0
    ensures Flags(a) == a + 7
  {
  }

  // Where the directory and the heap's page table go.
  lemma FirstAddresses(end: nat)
    requires PAGE_SIZE <= end <= MEM_SIZE
    ensures Align(end) == PAGE_SIZE * (end / PAGE_SIZE + 1)
    ensures Align(end) % PAGE_SIZE == 0 && end <= Align(end)
    ensures Add32(Align(end), 0x2000) == PAGE_SIZE * (end / PAGE_SIZE + 3)
    ensures (Add32(Align(end), 0x2000)) % PAGE_SIZE == 0
  {
  }

  lemma HeapTableMade(ts: Directory, tp: map<nat, nat>, kdir: nat, p: nat)
    requires p % PAGE_SIZE == 0 && PAGE_SIZE <= p <= 2 * MEM_SIZE && kdir + 2 * PAGE_SIZE <= p
    requires ts == WithTable(map[], HEAP_TABLE, p) && tp == WithFlags(map[], map[], HEAP_TABLE, p)
    ensures ts.Keys == {HEAP_TABLE} && SoundTables(ts) && Maps(ts, 0, 0) && Placed(ts, tp, kdir, p + 2 * PAGE_SIZE)
  {
    AlignAligned(p);
    AlignedSum(p);
    hide Align;
    forall v: nat ensures EntryOf(ts, v) == Mapping(0, 0, v) {
    }
  }

  lemma KeysMade(ts: Directory, phys: nat, k: nat, p0: nat)
    requires TablesMade(ts, phys, k, p0) && k > 0
    ensures HEAP_TABLE in ts && 0 in ts
  {
  }

  // The end of the kernel image decides whether the frames suffice.
  lemma ImageLimit(end: nat, k: nat, ok: bool)
    requires PAGE_SIZE <= end <= MEM_SIZE && k <= NFRAMES
    requires var p0 := PAGE_SIZE * (end / PAGE_SIZE + 5);
      if ok then PAGE_SIZE * k == p0 + 2 * PAGE_SIZE * TablesFor(k) + 0x10000
      else k == NFRAMES && PAGE_SIZE * NFRAMES < p0 + 2 * PAGE_SIZE * TablesFor(NFRAMES) + 0x10000
    ensures ok ==> k > 0
    ensures ok && k + 16 <= NFRAMES <==> end < IMAGE_LIMIT
  {
  }

  lemma PageZeroCleared(ts: Directory, tp: map<nat, nat>, kdir: nat, phys: nat, k: nat)
    requires SoundTables(ts) && 0 in ts && Maps(ts, k, 16) && Placed(ts, tp, kdir, phys)
    ensures var ts' := ts[0 := PageTable(ts[0].address, ts[0].pages[0 := ZERO_ENTRY])];
      SoundTables(ts') && Placed(ts', tp, kdir, phys) && forall v :: EntryOf(ts', v) == FinalMapping(k, v)
  {
    var ts' := ts[0 := PageTable(ts[0].address, ts[0].pages[0 := ZERO_ENTRY])];
    forall v: nat ensures EntryOf(ts', v) == FinalMapping(k, v) {
      assert EntryOf(ts, v) == Mapping(k, 16, v);
      assert v / 1024 == 0 && v % 1024 == 0 ==> v == 0;
    }
  }
}
