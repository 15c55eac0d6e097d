/**
 What callers of the heap may rely on: first fit is exact, `free_memory` takes
 away one allocation and nothing else, no byte is ever owned twice, and the
 memory lost to block headers is accounted for over every run.
 */
module HeapRuns {
  import opened HeapSpec

  // ------------------------------------------------------------ single calls

  // The allocations that are out, as (address, size) blocks.
  ghost function Live(bs: seq<Block>): set<Block> {
    set b | b in bs && !b.free
  }

  lemma StartsDistinct(bs: seq<Block>, lo: int, hi: int)
    requires Ordered(bs, lo, hi)
    ensures forall i, j :: 0 <= i < j < |bs| ==> bs[i].start < bs[j].start
  {
    forall i, j | 0 <= i < j < |bs| ensures bs[i].start < bs[j].start {
      assert bs[i].End() <= bs[j].Header();
    }
  }

  // A byte, of a header or of a payload, belongs to at most one block, and
  // every block is inside the arena.
  lemma ByteHasOneOwner(bs: seq<Block>, lo: int, hi: int, i: nat, j: nat, addr: int)
    requires WellFormed(bs, lo, hi)
    requires i < |bs| && bs[i].Header() <= addr < bs[i].End()
    requires j < |bs| && bs[j].Header() <= addr < bs[j].End()
    ensures i == j && lo <= addr < hi
  {
  }

  lemma CarveLive(bs: seq<Block>, i: nat, n: nat, lo: int, hi: int)
    requires Ordered(bs, lo, hi) && i < |bs| && Fits(bs[i], n)
    ensures var size := if Splits(bs[i], n) then n else bs[i].size;
      Live(Carve(bs, i, n)) == Live(bs) + {Block(bs[i].start, size, false)}
  {
    var cs := Carve(bs, i, n);
    var b := cs[i];
    if Splits(bs[i], n) {
      CarveSplitsAt(bs, i, n);
      SplitLive(bs, cs, i, n);
    } else {
      forall c | c in Live(bs) ensures c in Live(cs) {
        var k :| 0 <= k < |bs| && bs[k] == c;
        assert cs[k] == c;
      }
      assert cs[i] in cs;
    }
  }

  lemma SplitLive(bs: seq<Block>, cs: seq<Block>, i: nat, n: nat)
    requires SplitAt(bs, cs, i, n) && bs[i].free
    ensures Live(cs) == Live(bs) + {cs[i]}
  {
    forall c | c in Live(bs) ensures c in Live(cs) {
      var k :| 0 <= k < |bs| && bs[k] == c;
      assert k < i ==> cs[k] == c;
      assert k > i ==> cs[k+1] == c;
    }
    forall c | c in Live(cs) ensures c in Live(bs) || c == cs[i] {
      var k :| 0 <= k < |cs| && cs[k] == c;
      assert k < i ==> bs[k] == c;
      assert k > i ==> bs[k-1] == c;
    }
  }

  // First fit, exactly: NULL if and only if every free block is too small;
  // otherwise the lowest free block that is large enough, with at most a
  // header's worth of slack, and every other allocation as it was.
  lemma FirstFitIsExact(bs: seq<Block>, n: nat, lo: nat, hi: int)
    requires WellFormed(bs, lo, hi)
    ensures var r := Allocate(bs, n);
      && (r.ptr == 0 <==> forall b :: b in bs && b.free ==> b.size < n)
      && (r.ptr == 0 ==> r.blocks == bs)
      && (r.ptr != 0 ==>
            exists b :: b in bs && Fits(b, n) && b.start == r.ptr
              && (forall c :: c in bs && Fits(c, n) ==> b.start <= c.start)
              && var size := if Splits(b, n) then n else b.size;
                 && n <= size <= n + HEADER
                 && Live(r.blocks) == Live(bs) + {Block(r.ptr, size, false)})
      && (forall b :: b in Live(bs) ==> b.start != r.ptr)
  {
    hide Coalesced, Carve;
    var i := FirstFit(bs, n);
    StartsDistinct(bs, lo, hi);
    if i < |bs| {
      CarveLive(bs, i, n, lo, hi);
      var b := bs[i];
      forall c | c in bs && Fits(c, n) ensures b.start <= c.start {
        var k :| 0 <= k < |bs| && bs[k] == c;
      }
      assert b in bs && b.free && b.size >= n;
    } else {
      forall b | b in bs && b.free ensures b.size < n {
        var k :| 0 <= k < |bs| && bs[k] == b;
      }
    }
  }

  lemma ReachesLive(bs: seq<Block>, k: nat, lo: int, hi: int)
    requires Ordered(bs, lo, hi) && k < |bs| && !bs[k].free
    ensures Reached(bs, bs[k].start) == k
  {
    StartsDistinct(bs, lo, hi);
  }

  lemma MergedLive(bs: seq<Block>, cs: seq<Block>, i: nat)
    requires MergedAt(bs, cs, i) && bs[i].free && bs[i+1].free
    ensures Live(cs) == Live(bs)
  {
    forall c | c in Live(bs) ensures c in Live(cs) {
      var k :| 0 <= k < |bs| && bs[k] == c;
      assert k < i ==> cs[k] == c;
      assert k > i + 1 ==> cs[k-1] == c;
    }
    forall c | c in Live(cs) ensures c in Live(bs) {
      var k :| 0 <= k < |cs| && cs[k] == c;
      assert k < i ==> bs[k] == c;
      assert k > i ==> bs[k+1] == c;
    }
  }

  lemma MergesLive(bs: seq<Block>, i: nat)
    requires i < |bs| && bs[i].free
    ensures Live(MergePrev(MergeNext(bs, i), i)) == Live(bs)
  {
    if i + 1 < |bs| && bs[i+1].free {
      MergeIsMergedAt(bs, i);
      MergedLive(bs, Merge(bs, i), i);
    }
    var cs := MergeNext(bs, i);
    assert cs[i].free;
    if i > 0 && cs[i-1].free {
      MergeIsMergedAt(cs, i - 1);
      MergedLive(cs, Merge(cs, i - 1), i - 1);
    }
  }

  lemma FreedLive(bs: seq<Block>, i: nat, lo: int, hi: int)
    requires Ordered(bs, lo, hi) && i < |bs|
    ensures Live(bs[i := bs[i].(free := true)]) == Live(bs) - {bs[i]}
  {
    var b1 := bs[i := bs[i].(free := true)];
    StartsDistinct(bs, lo, hi);
    hide Ordered;
    forall c | c in Live(bs) && c != bs[i] ensures c in b1 {
      var k :| 0 <= k < |bs| && bs[k] == c;
      assert b1[k] == c;
    }
  }

  lemma ReleaseLive(bs: seq<Block>, i: nat, lo: int, hi: int)
    requires Ordered(bs, lo, hi) && i < |bs| && !bs[i].free
    ensures Live(Release(bs, i)) == Live(bs) - {bs[i]}
  {
    hide Ordered, Live, MergeNext, MergePrev;
    FreedLive(bs, i, lo, hi);
    MergesLive(bs[i := bs[i].(free := true)], i);
  }

  // free_memory answers 0 if and only if the pointer is the start of a block
  // that is a live allocation or has one below it.  A live allocation ends, and
  // no other; if there was none at the pointer, nothing changes.
  lemma FreeIsExact(bs: seq<Block>, ptr: int, lo: int, hi: int)
    requires WellFormed(bs, lo, hi) && MayFree(bs, ptr)
    ensures var (cs, code) := Free(bs, ptr);
      && (code == 0 <==> exists i, j :: 0 <= i <= j < |bs| && !bs[i].free && bs[j].start == ptr)
      && (code != 0 ==> code == -1)
      && ((forall b :: b in Live(bs) ==> b.start != ptr) ==> cs == bs)
      && Live(cs) == set b | b in Live(bs) && b.start != ptr
  {
    hide MayFree, Release, Reached, Live;
    var i := Reached(bs, ptr);
    ReachedExactly(bs, ptr, lo, hi);
    hide Ordered, Coalesced;
    if i < |bs| && !bs[i].free {
      ReleaseLive(bs, i, lo, hi);
      LiveElsewhere(bs, i, lo, hi);
    } else {
      if i < |bs| {
        ReleaseAgain(bs, i);
      }
      assert Live(bs) == set b | b in Live(bs) && b.start != ptr;
    }
  }

  // All live allocations but one are those at other addresses.
  lemma LiveElsewhere(bs: seq<Block>, i: nat, lo: int, hi: int)
    requires Ordered(bs, lo, hi) && i < |bs| && !bs[i].free
    ensures bs[i] in Live(bs) && Live(bs) - {bs[i]} == set b | b in Live(bs) && b.start != bs[i].start
  {
    StartsDistinct(bs, lo, hi);
    hide Ordered;
    forall b | b in Live(bs) && b.start == bs[i].start ensures b == bs[i] {
      var k :| 0 <= k < |bs| && bs[k] == b;
    }
  }

  lemma ReachedExactly(bs: seq<Block>, ptr: int, lo: int, hi: int)
    requires Ordered(bs, lo, hi)
    ensures var r := Reached(bs, ptr);
      && (r < |bs| <==> exists i, j :: 0 <= i <= j < |bs| && !bs[i].free && bs[j].start == ptr)
      && (r == |bs| || bs[r].free ==> forall b :: b in Live(bs) ==> b.start != ptr)
  {
    hide Reached, FirstLive;
    var r, k := Reached(bs, ptr), FirstLive(bs);
    StartsDistinct(bs, lo, hi);
    hide Ordered;
    if r < |bs| {
      assert !bs[k].free && k <= r && bs[r].start == ptr;
    }
    forall b | b in Live(bs) && (r == |bs| || bs[r].free) ensures b.start != ptr {
      var l :| 0 <= l < |bs| && bs[l] == b;
    }
  }

  lemma ReleaseRemainder(bs: seq<Block>, cs: seq<Block>, i: nat, n: nat)
    requires SplitAt(bs, cs, i, n) && bs[i].free
    requires i > 0 ==> !bs[i-1].free
    ensures Release(cs, i) == bs[i := bs[i].(size := bs[i].size - HEADER)]
  {
    var freed := cs[i := cs[i].(free := true)];
    MergeIsMergedAt(freed, i);
    var ds := MergeNext(freed, i);
    assert ds == bs[i := bs[i].(size := bs[i].size - HEADER)];
  }

  lemma ReleaseWhole(bs: seq<Block>, i: nat)
    requires i < |bs| && bs[i].free && Coalesced(bs)
    ensures Release(bs[i := bs[i].(free := false)], i) == bs
  {
    var cs := bs[i := bs[i].(free := false)];
    assert cs[i := cs[i].(free := true)] == bs;
    assert i + 1 < |bs| ==> !bs[i+1].free;
    assert i > 0 ==> !bs[i-1].free;
  }

  // free(allocate(n)) brings the heap back if and only if the block was not
  // split; after a split one header's worth of memory is gone for good.
  lemma AllocateThenFree(bs: seq<Block>, n: nat, lo: int, hi: int)
    requires WellFormed(bs, lo, hi) && FirstFit(bs, n) < |bs|
    ensures var r, i := Allocate(bs, n), FirstFit(bs, n);
      && MayFree(r.blocks, r.ptr)
      && Free(r.blocks, r.ptr) == (if Splits(bs[i], n) then bs[i := bs[i].(size := bs[i].size - HEADER)] else bs, 0)
      && (Free(r.blocks, r.ptr).0 == bs <==> !Splits(bs[i], n))
  {
    hide Ordered, Coalesced, Release, Reached;
    var i := FirstFit(bs, n);
    var cs := Carve(bs, i, n);
    CarveWellFormed(bs, i, n, lo, hi);
    assert !cs[i].free && cs[i].start == bs[i].start by {
      if Splits(bs[i], n) { CarveSplitsAt(bs, i, n); }
    }
    ReachesLive(cs, i, lo, hi);
    MayFreeMeans(cs, bs[i].start, lo, hi);
    ReleaseCarved(bs, i, n);
  }

  lemma ReleaseCarved(bs: seq<Block>, i: nat, n: nat)
    requires i < |bs| && bs[i].free && Coalesced(bs)
    ensures Release(Carve(bs, i, n), i) ==
      if Splits(bs[i], n) then bs[i := bs[i].(size := bs[i].size - HEADER)] else bs
    ensures Release(Carve(bs, i, n), i) == bs <==> !Splits(bs[i], n)
  {
    assert i > 0 ==> !bs[i-1].free;
    if Splits(bs[i], n) {
      CarveSplitsAt(bs, i, n);
      ReleaseRemainder(bs, Carve(bs, i, n), i, n);
      assert bs[i := bs[i].(size := bs[i].size - HEADER)][i] != bs[i];
    } else {
      ReleaseWhole(bs, i);
    }
  }

  // ------------------------------------------------------------- whole runs

  datatype Step = Alloc(size: nat) | Dealloc(ptr: int)

  // The heap together with the number of splits and merges so far.
  datatype Heap = Heap(blocks: seq<Block>, splits: nat, merges: nat)

  function Boot(lo: int, heapSize: int): Heap {
    Heap([Block(lo + HEADER, heapSize - HEADER, true)], 0, 0)
  }

  function MergesAt(bs: seq<Block>, i: nat): nat
    requires i < |bs|
  {
    (if i + 1 < |bs| && bs[i+1].free then 1 else 0) + (if i > 0 && bs[i-1].free then 1 else 0)
  }

  function Do(h: Heap, s: Step): Heap {
    match s
    case Alloc(n) =>
      var i := FirstFit(h.blocks, n);
      if i < |h.blocks| then
        Heap(Allocate(h.blocks, n).blocks, h.splits + (if Splits(h.blocks[i], n) then 1 else 0), h.merges)
      else h
    case Dealloc(ptr) =>
      var i := Reached(h.blocks, ptr);
      if i < |h.blocks| then
        Heap(Free(h.blocks, ptr).0, h.splits, h.merges + MergesAt(h.blocks, i))
      else h
  }

  function Run(h: Heap, steps: seq<Step>): Heap
    decreases |steps|
  {
    if steps == [] then h else Run(Do(h, steps[0]), steps[1..])
  }

  // Every free in the run is one the caller may make.
  ghost predicate Legal(h: Heap, steps: seq<Step>)
    decreases |steps|
  {
    steps != [] ==>
      && (steps[0].Dealloc? ==> MayFree(h.blocks, steps[0].ptr))
      && Legal(Do(h, steps[0]), steps[1..])
  }

  function Total(bs: seq<Block>): int {
    if bs == [] then 0 else bs[0].size + Total(bs[1..])
  }

  lemma {:induction false} SplitTotal(bs: seq<Block>, cs: seq<Block>, i: nat, n: nat)
    requires SplitAt(bs, cs, i, n)
    ensures Total(cs) == Total(bs) - HEADER
  {
    if i == 0 {
      assert cs[1..][1..] == bs[1..];
    } else {
      SplitTotal(bs[1..], cs[1..], i - 1, n);
    }
  }

  lemma {:induction false} SetFreeTotal(bs: seq<Block>, cs: seq<Block>, i: nat, free: bool)
    requires i < |bs| && cs == bs[i := bs[i].(free := free)]
    ensures Total(cs) == Total(bs)
  {
    if i == 0 {
      assert cs[1..] == bs[1..];
    } else {
      SetFreeTotal(bs[1..], cs[1..], i - 1, free);
    }
  }

  lemma {:induction false} MergedTotal(bs: seq<Block>, cs: seq<Block>, i: nat)
    requires MergedAt(bs, cs, i)
    ensures Total(cs) == Total(bs)
  {
    if i == 0 {
      assert cs[1..] == bs[1..][1..];
    } else {
      MergedTotal(bs[1..], cs[1..], i - 1);
    }
  }

  // A split loses exactly one header's worth of payload; handing out a whole
  // block loses nothing.
  lemma CarveTotal(bs: seq<Block>, i: nat, n: nat)
    requires i < |bs|
    ensures Total(Carve(bs, i, n)) == Total(bs) - (if Splits(bs[i], n) then HEADER else 0)
  {
    if Splits(bs[i], n) {
      CarveSplitsAt(bs, i, n);
      SplitTotal(bs, Carve(bs, i, n), i, n);
    } else {
      SetFreeTotal(bs, Carve(bs, i, n), i, false);
    }
  }

  // free_memory never changes the sum of the block sizes.
  lemma ReleaseTotal(bs: seq<Block>, i: nat)
    requires i < |bs|
    ensures Total(Release(bs, i)) == Total(bs)
    ensures |Release(bs, i)| == |bs| - MergesAt(bs, i)
  {
    var b1 := bs[i := bs[i].(free := true)];
    SetFreeTotal(bs, b1, i, true);
    MergeNextTotal(b1, i);
    MergePrevTotal(MergeNext(b1, i), i);
  }

  lemma MergeNextTotal(bs: seq<Block>, i: nat)
    requires i < |bs|
    ensures var cs := MergeNext(bs, i);
      && Total(cs) == Total(bs)
      && |cs| == |bs| - (if i + 1 < |bs| && bs[i+1].free then 1 else 0)
      && i < |cs| && (i > 0 ==> cs[i-1] == bs[i-1])
  {
    if i + 1 < |bs| && bs[i+1].free {
      MergeIsMergedAt(bs, i);
      MergedTotal(bs, Merge(bs, i), i);
    }
  }

  lemma MergePrevTotal(bs: seq<Block>, i: nat)
    requires i < |bs|
    ensures var cs := MergePrev(bs, i);
      && Total(cs) == Total(bs)
      && |cs| == |bs| - (if i > 0 && bs[i-1].free then 1 else 0)
  {
    if i > 0 && bs[i-1].free {
      MergeIsMergedAt(bs, i - 1);
      MergedTotal(bs, Merge(bs, i - 1), i - 1);
    }
  }

  // The heap invariant together with the two accounting laws.
  ghost predicate Good(h: Heap, lo: int, heapSize: int) {
    && WellFormed(h.blocks, lo, lo + heapSize)
    && Total(h.blocks) + HEADER * (1 + h.splits) == heapSize
    && Total(h.blocks) + HEADER * |h.blocks| + HEADER * h.merges == heapSize
  }

  lemma AllocGood(h: Heap, n: nat, lo: int, heapSize: int)
    requires Good(h, lo, heapSize)
    ensures Good(Do(h, Alloc(n)), lo, heapSize)
  {
    var i := FirstFit(h.blocks, n);
    if i < |h.blocks| {
      CarveWellFormed(h.blocks, i, n, lo, lo + heapSize);
      CarveTotal(h.blocks, i, n);
      assert Splits(h.blocks[i], n) ==> |Carve(h.blocks, i, n)| == |h.blocks| + 1;
    }
  }

  lemma DeallocGood(h: Heap, ptr: int, lo: int, heapSize: int)
    requires Good(h, lo, heapSize) && MayFree(h.blocks, ptr)
    ensures Good(Do(h, Dealloc(ptr)), lo, heapSize)
  {
    var i := Reached(h.blocks, ptr);
    FreeWellFormed(h.blocks, ptr, lo, lo + heapSize);
    if i < |h.blocks| {
      ReleaseTotal(h.blocks, i);
    }
  }

  lemma StepGood(h: Heap, s: Step, lo: int, heapSize: int)
    requires Good(h, lo, heapSize)
    requires s.Dealloc? ==> MayFree(h.blocks, s.ptr)
    ensures Good(Do(h, s), lo, heapSize)
  {
    match s
    case Alloc(n) => AllocGood(h, n, lo, heapSize);
    case Dealloc(ptr) => DeallocGood(h, ptr, lo, heapSize);
  }

  lemma {:induction false} GoodRun(h: Heap, steps: seq<Step>, lo: int, heapSize: int)
    requires Good(h, lo, heapSize) && Legal(h, steps)
    ensures Good(Run(h, steps), lo, heapSize)
    decreases |steps|
  {
    if steps != [] {
      StepGood(h, steps[0], lo, heapSize);
      GoodRun(Do(h, steps[0]), steps[1..], lo, heapSize);
    }
  }

  lemma BootGood(lo: int, heapSize: int)
    requires HEADER <= heapSize
    ensures Good(Boot(lo, heapSize), lo, heapSize)
  {
    assert Boot(lo, heapSize).blocks[1..] == [];
  }

  // Every run from a fresh heap keeps the heap well formed, and accounts for
  // every byte: heapSize is the payload plus a header for each block plus a
  // header for each merge, that is, the payload plus a header for each split
  // and one more.
  lemma RunsAreGood(lo: int, heapSize: int, steps: seq<Step>)
    requires HEADER <= heapSize && Legal(Boot(lo, heapSize), steps)
    ensures var h := Run(Boot(lo, heapSize), steps);
      && WellFormed(h.blocks, lo, lo + heapSize)
      && Total(h.blocks) == heapSize - HEADER * (1 + h.splits)
      && heapSize == Total(h.blocks) + HEADER * |h.blocks| + HEADER * h.merges
  {
    BootGood(lo, heapSize);
    GoodRun(Boot(lo, heapSize), steps, lo, heapSize);
  }

  // ---------------------------------------------------------------- draining

  function Deallocs(ptrs: seq<int>): seq<Step> {
    seq(|ptrs|, i requires 0 <= i < |ptrs| => Dealloc(ptrs[i]))
  }

  // The pointers are the live allocations, each exactly once.
  ghost predicate Names(ptrs: seq<int>, live: set<Block>) {
    && (forall i, j :: 0 <= i < j < |ptrs| ==> ptrs[i] != ptrs[j])
    && (forall b :: b in live ==> b.start in ptrs)
    && (forall p :: p in ptrs ==> exists b :: b in live && b.start == p)
  }

  lemma AllFreeIsOneBlock(bs: seq<Block>, lo: int, hi: int)
    requires WellFormed(bs, lo, hi) && Live(bs) == {}
    ensures bs == [Block(lo + HEADER, Total(bs), true)]
  {
    forall i | 0 <= i < |bs| ensures bs[i].free {
      assert bs[i] !in Live(bs);
    }
    var k := if |bs| > 1 then 1 else 0;
    assert bs[0].free && bs[k].free;
    assert bs[1..] == [];
  }

  lemma {:induction false} DrainEmpties(h: Heap, ptrs: seq<int>, lo: int, heapSize: int)
    requires Good(h, lo, heapSize) && Names(ptrs, Live(h.blocks))
    ensures Legal(h, Deallocs(ptrs))
    ensures var h' := Run(h, Deallocs(ptrs));
      h'.blocks == [Block(lo + HEADER, Total(h'.blocks), true)] && Total(h'.blocks) + HEADER * (1 + h.splits) == heapSize
    decreases |ptrs|
  {
    if ptrs == [] {
      assert forall b :: b in Live(h.blocks) ==> b.start in ptrs;
      AllFreeIsOneBlock(h.blocks, lo, lo + heapSize);
    } else {
      assert Deallocs(ptrs)[0] == Dealloc(ptrs[0]) && Deallocs(ptrs)[1..] == Deallocs(ptrs[1..]);
      DrainOne(h, ptrs, lo, heapSize);
      DrainEmpties(Do(h, Dealloc(ptrs[0])), ptrs[1..], lo, heapSize);
    }
  }

  lemma DrainOne(h: Heap, ptrs: seq<int>, lo: int, heapSize: int)
    requires Good(h, lo, heapSize) && ptrs != [] && Names(ptrs, Live(h.blocks))
    ensures MayFree(h.blocks, ptrs[0])
    ensures var h' := Do(h, Dealloc(ptrs[0]));
      Good(h', lo, heapSize) && h'.splits == h.splits && Names(ptrs[1..], Live(h'.blocks))
  {
    hide Ordered, Coalesced, Release, Reached, FirstFit, Names;
    NamedMayBeFreed(h.blocks, ptrs, lo, lo + heapSize);
    FreeIsExact(h.blocks, ptrs[0], lo, lo + heapSize);
    StepGood(h, Dealloc(ptrs[0]), lo, heapSize);
    NamesRest(ptrs, Live(h.blocks), Live(Do(h, Dealloc(ptrs[0])).blocks));
  }

  lemma NamesRest(ptrs: seq<int>, live: set<Block>, rest: set<Block>)
    requires ptrs != [] && Names(ptrs, live)
    requires rest == set b | b in live && b.start != ptrs[0]
    ensures Names(ptrs[1..], rest)
  {
    forall p | p in ptrs[1..] ensures exists b :: b in rest && b.start == p {
      assert p in ptrs;
      var b :| b in live && b.start == p;
      assert b in rest;
    }
  }

  lemma NamedMayBeFreed(bs: seq<Block>, ptrs: seq<int>, lo: int, hi: int)
    requires Ordered(bs, lo, hi) && Names(ptrs, Live(bs)) && ptrs != []
    ensures MayFree(bs, ptrs[0]) && Reached(bs, ptrs[0]) < |bs|
  {
    assert ptrs[0] in ptrs;
    var b :| b in Live(bs) && b.start == ptrs[0];
    var k :| 0 <= k < |bs| && bs[k] == b;
    ReachesLive(bs, k, lo, hi);
  }

  // After any legal run, freeing all live allocations, in any order, leaves a
  // single free block at the base of the arena; what it lacks of the original
  // size is one header for each split of the run.
  lemma DrainRestoresOneBlock(lo: int, heapSize: int, steps: seq<Step>, ptrs: seq<int>)
    requires HEADER <= heapSize && Legal(Boot(lo, heapSize), steps)
    requires Names(ptrs, Live(Run(Boot(lo, heapSize), steps).blocks))
    ensures var h := Run(Boot(lo, heapSize), steps);
      && Legal(h, Deallocs(ptrs))
      && Run(h, Deallocs(ptrs)).blocks == [Block(lo + HEADER, heapSize - HEADER * (1 + h.splits), true)]
  {
    hide *;
    BootGood(lo, heapSize);
    GoodRun(Boot(lo, heapSize), steps, lo, heapSize);
    DrainEmpties(Run(Boot(lo, heapSize), steps), ptrs, lo, heapSize);
  }
}
