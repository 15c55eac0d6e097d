/**
 kernel/pcb.c: where PCBs live.  pcb_setup takes two blocks from the heap, one
 for the PCB and one for its name; pcb_free gives them back.
 */
module PcbMemory {
  import opened HeapSpec
  import opened HeapRuns
  import opened HeapManagement
  import opened Processes
  import opened Strings

  // struct pcb, but for the stack.
  datatype Fields = Fields(
    processName: int, processClass: ClassType, processPriority: int,
    exeState: ExecutionState, dispState: DispatchingState,
    stackPtr: int, nextPcb: int, prevPcb: int)

  // ------------------------------------------------------- the blocks of a PCB

  datatype Made = Made(blocks: seq<Block>, pcb: int, name: int)

  // The blocks after pcb_setup for a name of n characters, and the two
  // addresses, 0 if there are none.
  function Setup(bs: seq<Block>, n: nat): Made {
    var a := Allocate(bs, PCB_SIZE);
    if a.ptr == 0 then Made(a.blocks, 0, 0) else
    var b := Allocate(a.blocks, n + 1);
    if b.ptr == 0 then Made(Free(a.blocks, a.ptr).0, 0, 0) else Made(b.blocks, a.ptr, b.ptr)
  }

  // The blocks after pcb_free, and its answer.
  function GiveBack(bs: seq<Block>, pcb: int, name: int): (seq<Block>, int) {
    var (cs, code) := Free(bs, name);
    if code != 0 then (cs, code) else Free(cs, pcb)
  }

  // What one successful allocation adds.
  ghost predicate Adds(bs: seq<Block>, cs: seq<Block>, b: Block, n: nat) {
    b !in Live(bs) && Live(cs) == Live(bs) + {b} && b.size >= n && b.start > 0
  }

  lemma AllocateAdds(bs: seq<Block>, n: nat, lo: nat, hi: int) returns (b: Block)
    requires WellFormed(bs, lo, hi)
    ensures WellFormed(Allocate(bs, n).blocks, lo, hi)
    ensures var r := Allocate(bs, n);
      if r.ptr == 0 then r.blocks == bs else b.start == r.ptr && Adds(bs, r.blocks, b, n)
  {
    AllocateWellFormed(bs, n, lo, hi);
    FirstFitIsExact(bs, n, lo, hi);
    hide WellFormed, Allocate, Live;
    var r := Allocate(bs, n);
    b := Block(0, 0, true);
    if r.ptr != 0 {
      var c :| c in bs && Fits(c, n) && c.start == r.ptr
        && (forall d :: d in bs && Fits(d, n) ==> c.start <= d.start)
        && var size := if Splits(c, n) then n else c.size;
           && n <= size <= n + HEADER
           && Live(r.blocks) == Live(bs) + {Block(r.ptr, size, false)};
      b := Block(r.ptr, if Splits(c, n) then n else c.size, false);
      StartIsPositive(bs, c, lo, hi);
    }
  }

  lemma StartIsPositive(bs: seq<Block>, b: Block, lo: nat, hi: int)
    requires WellFormed(bs, lo, hi) && b in bs
    ensures b.start > 0
  {
    var i :| 0 <= i < |bs| && bs[i] == b;
    assert lo <= bs[i].Header();
  }

  lemma LiveMayBeFreed(bs: seq<Block>, b: Block, lo: int, hi: int)
    requires WellFormed(bs, lo, hi) && b in Live(bs)
    ensures MayFree(bs, b.start) && WellFormed(Free(bs, b.start).0, lo, hi)
    ensures Free(bs, b.start).1 == 0 && Live(Free(bs, b.start).0) == Live(bs) - {b}
  {
    var i :| 0 <= i < |bs| && bs[i] == b;
    ReachesLive(bs, i, lo, hi);
    MayFreeMeans(bs, b.start, lo, hi);
    FreeWellFormed(bs, b.start, lo, hi);
    ReleaseLive(bs, i, lo, hi);
  }

  // pcb_setup is atomic.  If it fails, what is allocated is what was; if it
  // succeeds, there are exactly two new blocks, large enough for the PCB and
  // for the name with its NUL.
  lemma SetupIsAtomic(bs: seq<Block>, n: nat, lo: nat, hi: int)
    requires WellFormed(bs, lo, hi)
    ensures var r := Setup(bs, n);
      && WellFormed(r.blocks, lo, hi)
      && (r.pcb == 0 <==> r.name == 0)
      && (r.pcb == 0 ==> Live(r.blocks) == Live(bs))
      && (r.pcb != 0 ==> exists p, q :: TwoNew(bs, r, p, q, n))
  {
    hide WellFormed, Live, Allocate, Free;
    var p := AllocateAdds(bs, PCB_SIZE, lo, hi);
    var a := Allocate(bs, PCB_SIZE);
    if a.ptr != 0 {
      var q := AllocateAdds(a.blocks, n + 1, lo, hi);
      var b := Allocate(a.blocks, n + 1);
      if b.ptr != 0 {
        assert TwoNew(bs, Setup(bs, n), p, q, n);
      } else {
        LiveMayBeFreed(a.blocks, p, lo, hi);
      }
    }
  }

  ghost predicate TwoNew(bs: seq<Block>, r: Made, p: Block, q: Block, n: nat) {
    && p !in Live(bs) && q !in Live(bs) && p != q
    && Live(r.blocks) == Live(bs) + {p, q}
    && p.start == r.pcb && q.start == r.name && p.size >= PCB_SIZE && q.size >= n + 1
  }

  // But a failed pcb_setup leaves the heap as it was just if it found no block
  // for the PCB, or did not have to split one; else a header is lost.
  lemma FailedSetup(bs: seq<Block>, n: nat, lo: nat, hi: int)
    requires WellFormed(bs, lo, hi) && Setup(bs, n).pcb == 0
    ensures var i := FirstFit(bs, PCB_SIZE);
      Setup(bs, n).blocks == bs <==> i == |bs| || !Splits(bs[i], PCB_SIZE)
  {
    if FirstFit(bs, PCB_SIZE) < |bs| {
      AllocateThenFree(bs, PCB_SIZE, lo, hi);
      StartIsPositive(bs, bs[FirstFit(bs, PCB_SIZE)], lo, hi);
    }
    hide WellFormed, Free;
  }

  // pcb_free ends the two allocations of the PCB and no other, whatever has
  // been allocated and freed since.
  lemma GiveBackIsExact(bs: seq<Block>, p: Block, q: Block, lo: nat, hi: int)
    requires WellFormed(bs, lo, hi) && p in Live(bs) && q in Live(bs) && p != q
    ensures MayFree(bs, q.start) && MayFree(Free(bs, q.start).0, p.start)
    ensures var (cs, code) := GiveBack(bs, p.start, q.start);
      WellFormed(cs, lo, hi) && code == 0 && Live(cs) == Live(bs) - {p, q}
  {
    hide WellFormed, Live, Free;
    LiveMayBeFreed(bs, q, lo, hi);
    LiveMayBeFreed(Free(bs, q.start).0, p, lo, hi);
  }

  // So freeing a PCB that was just set up takes back exactly what it got.
  lemma SetupThenGiveBack(bs: seq<Block>, n: nat, lo: nat, hi: int)
    requires WellFormed(bs, lo, hi) && Setup(bs, n).pcb != 0
    ensures var r := Setup(bs, n);
      var (cs, code) := GiveBack(r.blocks, r.pcb, r.name);
      code == 0 && Live(cs) == Live(bs)
  {
    hide WellFormed, Live, Setup, GiveBack;
    SetupIsAtomic(bs, n, lo, hi);
    var r := Setup(bs, n);
    var p, q :| TwoNew(bs, r, p, q, n);
    GiveBackIsExact(r.blocks, p, q, lo, hi);
  }

  // Two live allocations share no byte, and both lie inside the arena.
  lemma LiveApart(bs: seq<Block>, p: Block, q: Block, lo: int, hi: int)
    requires WellFormed(bs, lo, hi) && p in Live(bs) && q in Live(bs) && p != q
    ensures p.End() <= q.Header() || q.End() <= p.Header()
    ensures lo <= p.Header() && p.End() <= hi
  {
    var i :| 0 <= i < |bs| && bs[i] == p;
    var j :| 0 <= j < |bs| && bs[j] == q;
    assert i < j || j < i;
  }

  // -------------------------------------------------------------- addresses

  // The addresses of the live allocations.
  ghost function Out(bs: seq<Block>): set<int> {
    set b | b in Live(bs) :: b.start
  }

  lemma OneAtEachAddress(bs: seq<Block>, lo: int, hi: int)
    requires WellFormed(bs, lo, hi)
    ensures forall b, c :: b in Live(bs) && c in Live(bs) && b.start == c.start ==> b == c
  {
    StartsDistinct(bs, lo, hi);
    forall b, c | b in Live(bs) && c in Live(bs) && b.start == c.start ensures b == c {
      var i :| 0 <= i < |bs| && bs[i] == b;
      var j :| 0 <= j < |bs| && bs[j] == c;
      assert i < j || j < i || i == j;
    }
  }

  // pcb_setup in terms of addresses: two new ones, or none.
  lemma SetupOut(bs: seq<Block>, n: nat, lo: nat, hi: int)
    requires WellFormed(bs, lo, hi)
    ensures var r := Setup(bs, n);
      && WellFormed(r.blocks, lo, hi)
      && (r.pcb == 0 ==> Out(r.blocks) == Out(bs))
      && (r.pcb != 0 ==>
            r.pcb > 0 && r.pcb != r.name && r.pcb !in Out(bs) && r.name !in Out(bs) && Out(r.blocks) == Out(bs) + {r.pcb, r.name})
  {
    hide Live, Setup, WellFormed, Out;
    SetupIsAtomic(bs, n, lo, hi);
    var r := Setup(bs, n);
    OneAtEachAddress(r.blocks, lo, hi);
    if r.pcb != 0 {
      var p, q :| TwoNew(bs, r, p, q, n);
      LiveStartsPositive(r.blocks, lo, hi);
      OutOfTwoMore(bs, r.blocks, p, q);
    } else {
      OutOfSame(bs, r.blocks);
    }
  }

  lemma OutOfSame(bs: seq<Block>, cs: seq<Block>)
    requires Live(cs) == Live(bs)
    ensures Out(cs) == Out(bs)
  {
  }

  lemma OutOfTwoMore(bs: seq<Block>, cs: seq<Block>, p: Block, q: Block)
    requires Live(cs) == Live(bs) + {p, q} && p !in Live(bs) && q !in Live(bs) && p != q
    requires forall b, c :: b in Live(cs) && c in Live(cs) && b.start == c.start ==> b == c
    ensures p in Live(cs) && q in Live(cs) && p.start != q.start
    ensures p.start !in Out(bs) && q.start !in Out(bs) && Out(cs) == Out(bs) + {p.start, q.start}
  {
    hide Live;
    assert p in Live(cs) && q in Live(cs);
    forall a | a in Out(cs) ensures a in Out(bs) + {p.start, q.start} {
      var b :| b in Live(cs) && b.start == a;
    }
    forall a | a in Out(bs) ensures a in Out(cs) && a != p.start && a != q.start {
      var b :| b in Live(bs) && b.start == a;
      assert b in Live(cs);
    }
  }

  lemma LiveStartsPositive(bs: seq<Block>, lo: nat, hi: int)
    requires WellFormed(bs, lo, hi)
    ensures forall b :: b in Live(bs) ==> b.start > 0
  {
    forall b | b in Live(bs) ensures b.start > 0 {
      StartIsPositive(bs, b, lo, hi);
    }
  }

  // pcb_free in terms of addresses.
  lemma GiveBackOut(bs: seq<Block>, pcb: int, name: int, lo: nat, hi: int)
    requires WellFormed(bs, lo, hi) && pcb in Out(bs) && name in Out(bs) && pcb != name
    ensures MayFree(bs, name) && MayFree(Free(bs, name).0, pcb)
    ensures var (cs, code) := GiveBack(bs, pcb, name);
      WellFormed(cs, lo, hi) && code == 0 && Out(cs) == Out(bs) - {pcb, name}
  {
    hide Live, GiveBack, Ordered, Coalesced, MayFree, Free;
    var p :| p in Live(bs) && p.start == pcb;
    var q :| q in Live(bs) && q.start == name;
    GiveBackIsExact(bs, p, q, lo, hi);
    OneAtEachAddress(bs, lo, hi);
  }

  // ---------------------------------------------------------------- the code

  // What C strings stand in memory: the text of the string at an address.
  ghost predicate Reads(bytes: map<int, char>, at: int, text: seq<char>) {
    && (forall a :: at <= a < at + |text| ==> a in bytes && bytes[a] == text[a - at] != NUL)
    && at + |text| in bytes && bytes[at + |text|] == NUL
  }

  ghost predicate Copied(bytes: map<int, char>, at: int, text: seq<char>, n: nat) {
    n <= |text| && forall a :: at <= a < at + n ==> a in bytes && bytes[a] == text[a - at]
  }

  lemma NothingCopied(bytes: map<int, char>, at: int, text: seq<char>)
    ensures Copied(bytes, at, text, 0)
  {
  }

  lemma CopyOne(bytes: map<int, char>, at: int, text: seq<char>, n: nat)
    requires Copied(bytes, at, text, n) && n < |text|
    ensures Copied(bytes[at + n := text[n]], at, text, n + 1)
  {
  }

  lemma CopyLast(bytes: map<int, char>, at: int, text: seq<char>)
    requires Copied(bytes, at, text, |text|) && NUL !in text
    ensures Reads(bytes[at + |text| := NUL], at, text)
  {
  }

  class PcbStore {
    const heap: HeapManager
    var pcbs: map<int, Fields>      // the PCBs, by address
    var bytes: map<int, char>       // the bytes of names

    constructor (heap: HeapManager)
      ensures this.heap == heap
    {
      this.heap := heap;
      pcbs, bytes := map[], map[];
    }

    // pcb_allocate
    method PcbAllocate() returns (pcb: int)
      requires heap.Valid()
      modifies this`pcbs, heap
      ensures heap.Valid() && Outcome(heap.View(), pcb) == Allocate(old(heap.View()), PCB_SIZE)
      ensures heap.shape.lo == old(heap.shape.lo) && heap.shape.hi == old(heap.shape.hi)
      ensures pcb == 0 ==> pcbs == old(pcbs)
      ensures pcb != 0 ==> pcb in pcbs && pcbs == old(pcbs)[pcb := pcbs[pcb]]
      ensures pcb != 0 ==> pcbs[pcb].stackPtr == pcb + STACK_TOP && pcbs[pcb].nextPcb == 0 && pcbs[pcb].prevPcb == 0
    {
      hide HeapManager.Valid, HeapManager.View, Allocate;
      pcb := heap.Allocate(PCB_SIZE);
      if pcb == 0 {
        return 0;
      }
      pcbs := pcbs[pcb := Fields(0, System, 0, Ready, Suspended, pcb + STACK_TOP, 0, 0)];
    }

    // The loop that copies the name, and its NUL.
    method CopyName(at: int, newName: seq<char>)
      requires IsString(newName)
      modifies this`bytes
      ensures Reads(bytes, at, Text(newName)) && Elsewhere(old(bytes), bytes, at, |Text(newName)|)
    {
      hide Copied, Reads;
      ghost var text := Text(newName);
      assert forall k :: 0 <= k < |text| ==> text[k] == newName[k];
      NothingCopied(bytes, at, text);
      var i := 0;
      while newName[i] != NUL
        invariant i <= |text| && Elsewhere(old(bytes), bytes, at, |text|)
        invariant Copied(bytes, at, text, i)
        decreases |text| - i
      {
        BeforeNul(newName, i + 1);
        CopyOne(bytes, at, text, i);
        bytes := bytes[at + i := newName[i]];
        i := i + 1;
      }
      LengthIs(newName, i);
      CopyLast(bytes, at, text);
      bytes := bytes[at + i := NUL];
    }

    // pcb_setup
    method PcbSetup(newName: seq<char>, newClass: ClassType, newPriority: int) returns (pcb: int)
      requires heap.Valid() && IsString(newName)
      modifies this, heap
      ensures heap.Valid() && heap.shape.lo == old(heap.shape.lo) && heap.shape.hi == old(heap.shape.hi)
      ensures var r := Setup(old(heap.View()), |Text(newName)|);
        && heap.View() == r.blocks && pcb == r.pcb
        && (pcb == 0 ==> bytes == old(bytes))
        && (pcb != 0 ==>
              && pcb in pcbs && pcbs == old(pcbs)[pcb := pcbs[pcb]]
              && pcbs[pcb] == Fields(r.name, newClass, newPriority, Ready, NotSuspended, pcb + STACK_TOP, 0, 0)
              && Reads(bytes, r.name, Text(newName)) && Elsewhere(old(bytes), bytes, r.name, |Text(newName)|))
    {
      hide HeapManager.Valid, HeapManager.View, HeapManager.Sane, Allocate, Free, MayFree, WellFormed, Tangled, Text, Reads, Elsewhere;
      heap.ViewWellFormed();
      pcb := PcbAllocate();
      if pcb == 0 {
        return 0;
      }
      var len := Strlen(newName);
      var name := heap.Allocate(len + 1);
      pcbs := pcbs[pcb := pcbs[pcb].(processName := name)];
      if name == 0 {
        MayGiveBack(old(heap.View()), len, heap.shape.lo, heap.shape.hi);
        var _ := heap.Free(pcb);
        return 0;
      }
      CopyName(name, newName);
      pcbs := pcbs[pcb :=
        pcbs[pcb].(processClass := newClass, processPriority := newPriority, exeState := Ready, dispState := NotSuspended)];
    }

    // pcb_free, of a PCB whose two blocks are out.
    method PcbFree(pcb: int, ghost p: Block, ghost q: Block) returns (code: int)
      requires heap.Valid() && pcb in pcbs && p.start == pcb && q.start == pcbs[pcb].processName
      requires p in Live(heap.View()) && q in Live(heap.View()) && p != q
      modifies heap
      ensures heap.Valid() && heap.shape.lo == old(heap.shape.lo) && heap.shape.hi == old(heap.shape.hi)
      ensures (heap.View(), code) == GiveBack(old(heap.View()), pcb, pcbs[pcb].processName)
      ensures code == 0 && Live(heap.View()) == Live(old(heap.View())) - {p, q}
    {
      hide HeapManager.Valid, HeapManager.View, HeapManager.Sane, Free, MayFree, Live, WellFormed, Tangled;
      heap.ViewWellFormed();
      GiveBackIsExact(heap.View(), p, q, heap.shape.lo, heap.shape.hi);
      code := heap.Free(pcbs[pcb].processName);
      if code != 0 {
        return;
      }
      code := heap.Free(pcb);
    }
  }

  ghost predicate Elsewhere(before: map<int, char>, after: map<int, char>, at: int, n: nat) {
    forall a :: !(at <= a <= at + n) ==> (a in before <==> a in after) && (a in before ==> before[a] == after[a])
  }

  // The block of a PCB without a name is out, so it may be freed.
  lemma MayGiveBack(bs: seq<Block>, n: nat, lo: nat, hi: int)
    requires WellFormed(bs, lo, hi)
    requires var a := Allocate(bs, PCB_SIZE); a.ptr != 0 && Allocate(a.blocks, n + 1).ptr == 0
    ensures var a := Allocate(bs, PCB_SIZE);
      Allocate(a.blocks, n + 1).blocks == a.blocks && MayFree(a.blocks, a.ptr)
  {
    hide WellFormed, Live, Allocate, Free;
    var p := AllocateAdds(bs, PCB_SIZE, lo, hi);
    var a := Allocate(bs, PCB_SIZE);
    var _ := AllocateAdds(a.blocks, n + 1, lo, hi);
    LiveMayBeFreed(a.blocks, p, lo, hi);
  }
}
