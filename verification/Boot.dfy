/**
 kernel/kmain.c, and r3_load_pcb of user/comhand.c: how the machine gets to
 where the run theorems of module Scheduling start.
 */
module Boot {
  import opened HeapSpec
  import opened HeapRuns
  import opened HeapManagement
  import opened Kernel
  import opened PcbMemory
  import opened PcbQueues
  import opened Processes
  import opened Strings
  import M = Machines
  import O = Ownership
  import P = PhysicalMemory
  import S = Scheduling
  import VM = VirtualMemory

  // ------------------------------------------------- room on a young heap

  // Nothing has been freed: the last block, of size s, is the only free one.
  ghost predicate Young(bs: seq<Block>, s: int) {
    && bs != [] && bs[|bs|-1].free && bs[|bs|-1].size == s && bs[|bs|-1].start > 0
    && forall i :: 0 <= i < |bs| - 1 ==> !bs[i].free
  }

  function LastStart(bs: seq<Block>): int
    requires bs != []
  {
    bs[|bs|-1].start
  }

  lemma AllocateYoung(bs: seq<Block>, s: int, n: nat)
    requires Young(bs, s) && s > n + HEADER
    ensures var r := Allocate(bs, n);
      Young(r.blocks, s - n - HEADER) && r.ptr == LastStart(bs) && LastStart(r.blocks) > r.ptr
  {
    var i := FirstFit(bs, n);
    assert i == |bs| - 1;
    CarveSplitsAt(bs, i, n);
    hide Carve;
  }

  lemma SetupYoung(bs: seq<Block>, s: int, n: nat)
    requires Young(bs, s) && s > PCB_SIZE + n + 1 + 2 * HEADER
    ensures var r := Setup(bs, n);
      Young(r.blocks, s - PCB_SIZE - n - 1 - 2 * HEADER) && r.pcb == LastStart(bs) > 0 && LastStart(r.blocks) > r.pcb
  {
    AllocateYoung(bs, s, PCB_SIZE);
    AllocateYoung(Allocate(bs, PCB_SIZE).blocks, s - PCB_SIZE - HEADER, n + 1);
    hide Allocate;
  }

  // ------------------------------------------------------- loading processes

  // What r3_load_pcb (and, for a system process, load_proc) does: set up a
  // PCB, fill in its first context, and enqueue it.  Without memory nothing is
  // enqueued.
  method LoadProcess(store: PcbStore, table: ProcessTable, entry: int, name: seq<char>, cls: ClassType, priority: int)
    returns (pcb: Pcb?)
    requires store.heap.Valid() && table.Valid() && M.Filed(table.View()) && NUL !in name
    modifies store, store.heap, table.susReady, table.ready, table.susBlocked, table.blocked, table.Pcbs()
    ensures store.heap.Valid() && table.Valid() && M.Filed(table.View())
    ensures table.Pcbs() <= old(table.Pcbs()) + if pcb == null then {} else {pcb}
    ensures pcb != null ==> fresh(pcb)
    ensures store.heap.shape.lo == old(store.heap.shape.lo) && store.heap.shape.hi == old(store.heap.shape.hi)
    ensures var r := Setup(old(store.heap.View()), |name|);
      && store.heap.View() == r.blocks && (pcb == null <==> r.pcb == 0)
      && (pcb == null ==> table.View() == old(table.View()))
      && (pcb != null ==>
            && r.pcb > 0 && table.View() == M.PutIn(old(table.View()), S.Loaded(r.pcb, name, cls, priority, entry))
            && r.pcb in store.pcbs && store.pcbs == old(store.pcbs)[r.pcb := store.pcbs[r.pcb]]
            && store.pcbs[r.pcb].processName == r.name && Reads(store.bytes, r.name, name))
    ensures pcb != null ==> var p := pcb.Snapshot();
      && p.name == name && p.cls == cls && p.priority == priority && p.exe == Ready && p.disp == NotSuspended
      && S.AtEntry(p.context, p.pid, entry) && Seated(store.heap.View(), p)
      && table.View()[0] == old(table.View()[0]) && Joined(old(table.View()[1]), p, table.View()[1])
      && table.View()[2] == old(table.View()[2]) && table.View()[3] == old(table.View()[3])
  {
    hide ProcessTable.Valid, ProcessTable.View, HeapManager.Valid, HeapManager.View, M.Filed, M.PutIn, Setup, Reads, Elsewhere;
    LiteralText(name);
    store.heap.ViewWellFormed();
    SetupIsAtomic(store.heap.View(), |name|, store.heap.shape.lo, store.heap.shape.hi);
    var address := store.PcbSetup(name + [NUL], cls, priority);
    if address == 0 {
      return null;
    }
    SetupAboveZero(old(store.heap.View()), |name|, store.heap.shape.lo, store.heap.shape.hi);
    var first := S.Loaded(address, name, cls, priority, entry);
    pcb := new Pcb(address, name, cls, priority, first.context);
    M.PutFiled(table.View(), first);
    SetupSeats(old(store.heap.View()), |name|, first, store.heap.shape.lo, store.heap.shape.hi);
    FirstJoins(table.View(), first);
    var _ := table.Insert(pcb);
  }

  // The stack of p, with room for a context at its top, lies in the live block
  // at the address of p.
  ghost predicate Seated(bs: seq<Block>, p: Process) {
    exists b :: b in Live(bs) && b.start == p.pid < p.context.ebp < p.context.esp && p.context.esp + 4 * 16 <= b.End()
  }

  lemma LiteralText(name: seq<char>)
    requires NUL !in name
    ensures IsString(name + [NUL]) && Text(name + [NUL]) == name
  {
    LengthIs(name + [NUL], |name|);
  }

  lemma SetupSeats(bs: seq<Block>, n: nat, p: Process, lo: nat, hi: int)
    requires WellFormed(bs, lo, hi) && Setup(bs, n).pcb != 0 && p.pid == Setup(bs, n).pcb
    requires p.context.ebp == p.pid + 20 && p.context.esp == p.pid + 3860
    ensures Seated(Setup(bs, n).blocks, p)
  {
    hide WellFormed, Live, Setup;
    SetupIsAtomic(bs, n, lo, hi);
    var b, q :| TwoNew(bs, Setup(bs, n), b, q, n);
  }

  lemma FirstJoins(qs: seq<seq<Process>>, p: Process)
    requires M.Filed(qs) && p.exe == Ready && p.disp == NotSuspended
    ensures var qs' := M.PutIn(qs, p);
      && |qs| == 4 && |qs'| == 4 && Joined(qs[1], p, qs'[1])
      && qs'[0] == qs[0] && qs'[2] == qs[2] && qs'[3] == qs[3]
  {
    ReadyIsByPriority(qs[1], READY_QUEUE, p);
    hide Sorted, Joined, Enqueue;
  }

  lemma SetupAboveZero(bs: seq<Block>, n: nat, lo: nat, hi: int)
    requires WellFormed(bs, lo, hi) && Setup(bs, n).pcb != 0
    ensures Setup(bs, n).pcb > 0
  {
    var _ := AllocateAdds(bs, PCB_SIZE, lo, hi);
    hide WellFormed, Allocate, Live;
  }

  // ------------------------------------------------------------------ kmain

  // vm_init and initialize_heap: the heap is one free block at the bottom of
  // the primitive heap, all of it mapped.
  method BootMemory(imageEnd: nat) returns (heap: HeapManager?, ghost k: nat)
    requires VM.PAGE_SIZE <= imageEnd <= VM.MEM_SIZE
    ensures heap != null <==> imageEnd < VM.IMAGE_LIMIT
    ensures heap != null ==> fresh(heap) && heap.Valid() && k + 16 <= VM.NFRAMES
    ensures heap != null ==>
      && heap.shape.lo == VM.KHEAP_BASE && heap.shape.hi == VM.KHEAP_BASE + P.HEAP_SIZE
      && heap.View() == HeapRuns.Boot(VM.KHEAP_BASE, P.HEAP_SIZE).blocks
  {
    hide HeapManager.Valid, HeapManager.View, VM.FinalMapping, VM.Placed;
    var space := new VM.AddressSpace(imageEnd);
    var ok: bool;
    ok, k := space.VmInit();
    if !ok {
      return null, k;
    }
    var base, _, _ := space.Kmalloc(P.HEAP_SIZE, false, false);
    heap := new HeapManager();
    heap.Initialize(base, P.HEAP_SIZE);
  }

  lemma BootedYoung()
    ensures var bs := HeapRuns.Boot(VM.KHEAP_BASE, P.HEAP_SIZE).blocks;
      Young(bs, P.HEAP_SIZE - HEADER) && P.HEAP_SIZE - HEADER > 2 * (PCB_SIZE + 2 * HEADER) + 14
  {
  }

  // create_comhand_proc and create_system_idle_proc.
  method BootProcesses(store: PcbStore, table: ProcessTable, comhandEntry: int, idleEntry: int, ghost s: int)
    returns (ghost comhand: nat, ghost idle: nat, ghost names: map<nat, int>)
    requires store.heap.Valid() && Young(store.heap.View(), s) && s > 2 * (PCB_SIZE + 2 * HEADER) + 14
    requires table.Valid() && table.View() == [[], [], [], []] && table.Pcbs() == {}
    modifies store, store.heap, table.susReady, table.ready, table.susBlocked, table.blocked
    ensures store.heap.Valid() && table.Valid() && comhand < idle
    ensures table.View() == BootedQueues(comhand, idle, comhandEntry, idleEntry)
    ensures var r := Setup(old(store.heap.View()), 7); var t := Setup(r.blocks, 4);
      && r.pcb > 0 && t.pcb > 0 && comhand == r.pcb && idle == t.pcb && store.heap.View() == t.blocks
      && names == map[comhand := r.name, idle := t.name]
    ensures Stored(store, names)
  {
    hide HeapManager.Valid, HeapManager.View, ProcessTable.Valid, ProcessTable.View, M.Filed, M.PutIn, Setup, Young, Reads;
    NoneFiled();
    SetupYoung(store.heap.View(), s, 7);
    ghost var r := Setup(store.heap.View(), 7);
    SetupYoung(r.blocks, s - PCB_SIZE - 8 - 2 * HEADER, 4);
    var _ := LoadProcess(store, table, comhandEntry, "comhand", System, 0);
    var _ := LoadProcess(store, table, idleEntry, "idle", System, 9);
    ghost var t := Setup(r.blocks, 4);
    comhand, idle := r.pcb, t.pcb;
    names := map[comhand := r.name, idle := t.name];
  }

  // The PCBs in memory point to these names.
  ghost predicate Stored(store: PcbStore, names: map<nat, int>)
    reads store
  {
    forall pid :: pid in names ==> (pid as int) in store.pcbs && store.pcbs[pid].processName == names[pid]
  }

  // kmain up to its IDLE call.  There is memory for both system processes, so
  // neither load_proc follows a NULL pointer; and the machine, the heap and the
  // names are what the runs of modules Scheduling and Ownership start from.
  method Kmain(imageEnd: nat, comhandEntry: int, idleEntry: int)
    returns (store: PcbStore?, table: ProcessTable, ghost comhand: nat, ghost idle: nat, ghost names: map<nat, int>)
    requires VM.PAGE_SIZE <= imageEnd <= VM.MEM_SIZE
    ensures store != null <==> imageEnd < VM.IMAGE_LIMIT
    ensures store != null ==>
      && store.heap.Valid() && table.Valid() && comhand < idle
      && table.Machine() == M.Machine(BootedQueues(comhand, idle, comhandEntry, idleEntry), M.None, M.None)
    ensures store != null ==>
      && Stored(store, names)
      && forall any: Context :: StartsRuns(store.heap.View(), comhand, idle, comhandEntry, idleEntry, any, names)
  {
    hide HeapManager.Valid, HeapManager.View, ProcessTable.Valid, ProcessTable.View, BootedQueues, HeapRuns.Boot, Young, Setup, Stored;
    comhand, idle, names := 0, 0, map[];
    table := new ProcessTable();
    var heap, _ := BootMemory(imageEnd);
    if heap == null {
      return null, table, 0, 0, map[];
    }
    store := new PcbStore(heap);
    BootedYoung();
    heap.ViewWellFormed();
    ghost var bs := heap.View();
    comhand, idle, names := BootProcesses(store, table, comhandEntry, idleEntry, P.HEAP_SIZE - HEADER);
    forall any: Context ensures StartsRuns(heap.View(), comhand, idle, comhandEntry, idleEntry, any, names) {
      O.BootSound(bs, comhandEntry, idleEntry, any, VM.KHEAP_BASE, VM.KHEAP_BASE + P.HEAP_SIZE);
    }
  }

  // The machine that kmain sets up, on this heap, satisfies the invariant of
  // all runs of processes and heap together.
  ghost predicate StartsRuns(bs: seq<Block>, comhand: nat, idle: nat, comhandEntry: int, idleEntry: int, any: Context, names: map<nat, int>) {
    O.Sound(O.Kernel(S.Boot(comhand, idle, comhandEntry, idleEntry, any), bs, names), VM.KHEAP_BASE, VM.KHEAP_BASE + P.HEAP_SIZE)
  }

  lemma NoneFiled()
    ensures M.Filed([[], [], [], []])
  {
  }

  // The queues that the two load_proc calls make, and where runs start.
  ghost function BootedQueues(comhand: nat, idle: nat, comhandEntry: int, idleEntry: int): seq<seq<Process>> {
    M.PutIn(M.PutIn([[], [], [], []], S.Loaded(comhand, "comhand", System, 0, comhandEntry)), S.Loaded(idle, "idle", System, 9, idleEntry))
  }

  lemma KmainStartsRuns(comhand: nat, idle: nat, comhandEntry: int, idleEntry: int, any: Context)
    requires comhand < idle
    ensures var w := S.Boot(comhand, idle, comhandEntry, idleEntry, any);
      S.Sound(w) && w.m == M.Machine(BootedQueues(comhand, idle, comhandEntry, idleEntry), M.None, M.None)
  {
    S.BootSound(comhand, idle, comhandEntry, idleEntry, any);
  }
}
