/**
 The heap as a value: its memory blocks in address order.

 This module says what `allocate_memory` and `free_memory` do to that
 sequence of blocks, and proves what a caller may rely on.  The pointer code
 that realises it is in module HeapManager.
 */
module HeapSpec {

  // sizeof(MCB) on the 32-bit target: seven four-byte fields.
  const HEADER: nat := 28

  // `start` is the address of the payload; the header lies just below it.
  datatype Block = Block(start: int, size: int, free: bool) {
    function End(): int { start + size }
    function Header(): int { start - HEADER }
  }

  // The blocks lie in the arena [lo, hi) in address order.  Gaps are possible,
  // since a merge does not give back the header of the block it swallows.
  ghost predicate Ordered(bs: seq<Block>, lo: int, hi: int) {
    && |bs| > 0
    && bs[0].Header() == lo
    && (forall i :: 0 <= i < |bs| ==> bs[i].size >= 0 && lo <= bs[i].Header() && bs[i].End() <= hi)
    && (forall i, j :: 0 <= i < j < |bs| ==> bs[i].End() <= bs[j].Header())
  }

  // No two neighbours are both free.
  ghost predicate Coalesced(bs: seq<Block>) {
    forall i, j :: 0 <= i && j == i + 1 < |bs| ==> !(bs[i].free && bs[j].free)
  }

  ghost predicate WellFormed(bs: seq<Block>, lo: int, hi: int) {
    Ordered(bs, lo, hi) && Coalesced(bs)
  }

  predicate Fits(b: Block, n: nat) {
    b.free && b.size >= n
  }

  // -------------------------------------------------------------- allocation

  // The index of the first block that fits, or |bs|.
  function FirstFit(bs: seq<Block>, n: nat): (r: nat)
    ensures r <= |bs|
    ensures r < |bs| ==> Fits(bs[r], n)
    ensures forall i :: 0 <= i < r ==> !Fits(bs[i], n)
  {
    if |bs| == 0 || Fits(bs[0], n) then 0 else 1 + FirstFit(bs[1..], n)
  }

  predicate Splits(b: Block, n: nat) {
    b.size > n + HEADER
  }

  // Blocks b and c in the place of block i.
  function InTwo(bs: seq<Block>, i: nat, b: Block, c: Block): seq<Block>
    requires i < |bs|
  {
    bs[..i] + [b, c] + bs[i+1..]
  }

  // Hand out block i for a request of n bytes: split it if the rest can hold
  // a header and at least one byte, otherwise hand it out whole.
  function Carve(bs: seq<Block>, i: nat, n: nat): seq<Block>
    requires i < |bs|
  {
    var b := bs[i];
    if Splits(b, n) then
      InTwo(bs, i, Block(b.start, n, false), Block(b.start + n + HEADER, b.size - n - HEADER, true))
    else
      bs[i := b.(free := false)]
  }

  // The blocks after a call, and the address returned (0 is NULL).
  datatype Outcome = Outcome(blocks: seq<Block>, ptr: int)

  function Allocate(bs: seq<Block>, n: nat): Outcome {
    var i := FirstFit(bs, n);
    if i < |bs| then Outcome(Carve(bs, i, n), bs[i].start) else Outcome(bs, 0)
  }

  // ------------------------------------------------------------ deallocation

  function Find(bs: seq<Block>, ptr: int): (r: nat)
    ensures r <= |bs|
    ensures r < |bs| ==> bs[r].start == ptr
    ensures forall i :: 0 <= i < r ==> bs[i].start != ptr
  {
    if |bs| == 0 || bs[0].start == ptr then 0 else 1 + Find(bs[1..], ptr)
  }

  function FirstLive(bs: seq<Block>): (r: nat)
    ensures r <= |bs|
    ensures r < |bs| ==> !bs[r].free
    ensures forall i :: 0 <= i < r ==> bs[i].free
  {
    if |bs| == 0 || !bs[0].free then 0 else 1 + FirstLive(bs[1..])
  }

  // The search starts at the first allocated block and then looks at every
  // later block, free or not.
  function Reached(bs: seq<Block>, ptr: int): (r: nat)
    ensures r <= |bs|
    ensures r < |bs| ==> bs[r].start == ptr && FirstLive(bs) <= r
    ensures forall i :: FirstLive(bs) <= i < r ==> bs[i].start != ptr
  {
    var k := FirstLive(bs);
    k + Find(bs[k..], ptr)
  }

  // The first free block, where the free list begins.
  function LowestFree(bs: seq<Block>): (r: nat)
    ensures r <= |bs|
    ensures r < |bs| ==> bs[r].free
    ensures forall i :: 0 <= i < r ==> !bs[i].free
  {
    if |bs| == 0 || bs[0].free then 0 else 1 + LowestFree(bs[1..])
  }

  // What a caller owes: the pointer is not the start of the first free block,
  // unless no block lies below that.
  ghost predicate MayFree(bs: seq<Block>, ptr: int) {
    var j := LowestFree(bs);
    0 < j < |bs| ==> bs[j].start != ptr
  }

  // That is, the search does not end on the first free block.
  lemma MayFreeMeans(bs: seq<Block>, ptr: int, lo: int, hi: int)
    requires Ordered(bs, lo, hi)
    ensures !MayFree(bs, ptr) <==> Reached(bs, ptr) < |bs| && Reached(bs, ptr) == LowestFree(bs)
  {
    var i, j := Reached(bs, ptr), LowestFree(bs);
    if !MayFree(bs, ptr) {
      assert FirstLive(bs) == 0 && i <= j;
      forall k | 0 <= k < j ensures bs[k].start < bs[j].start {
        assert bs[k].End() <= bs[j].Header();
      }
    }
  }

  // Block i swallows block i+1.
  function Merge(bs: seq<Block>, i: nat): seq<Block>
    requires i + 1 < |bs|
  {
    bs[..i] + [bs[i].(size := bs[i].size + bs[i+1].size)] + bs[i+2..]
  }

  function MergeNext(bs: seq<Block>, i: nat): seq<Block>
    requires i < |bs|
  {
    if i + 1 < |bs| && bs[i+1].free then Merge(bs, i) else bs
  }

  function MergePrev(bs: seq<Block>, i: nat): seq<Block>
    requires i < |bs|
  {
    if i > 0 && bs[i-1].free then Merge(bs, i - 1) else bs
  }

  function Release(bs: seq<Block>, i: nat): seq<Block>
    requires i < |bs|
  {
    MergePrev(MergeNext(bs[i := bs[i].(free := true)], i), i)
  }

  function Free(bs: seq<Block>, ptr: int): (seq<Block>, int) {
    var i := Reached(bs, ptr);
    if i < |bs| then (Release(bs, i), 0) else (bs, -1)
  }

  // ------------------------------------------------- the invariant is kept

  // Carve with a split, entry by entry.
  ghost predicate SplitAt(bs: seq<Block>, cs: seq<Block>, i: nat, n: nat)
  {
    && i < |bs|
    && |cs| == |bs| + 1
    && cs[i] == Block(bs[i].start, n, false)
    && cs[i+1] == Block(bs[i].start + n + HEADER, bs[i].size - n - HEADER, true)
    && (forall k :: 0 <= k < i ==> cs[k] == bs[k])
    && (forall k :: i + 1 < k < |cs| ==> cs[k] == bs[k-1])
  }

  lemma CarveSplitsAt(bs: seq<Block>, i: nat, n: nat)
    requires i < |bs| && Splits(bs[i], n)
    ensures SplitAt(bs, Carve(bs, i, n), i, n)
  {
    hide InTwo;
    var b := bs[i];
    PutTwo(bs, i, Block(b.start, n, false), Block(b.start + n + HEADER, b.size - n - HEADER, true));
  }

  lemma PutTwo(bs: seq<Block>, i: nat, b: Block, c: Block)
    requires i < |bs|
    ensures var cs := InTwo(bs, i, b, c);
      && |cs| == |bs| + 1 && cs[i] == b && cs[i+1] == c
      && (forall k :: 0 <= k < i ==> cs[k] == bs[k])
      && (forall k :: i + 1 < k < |cs| ==> cs[k] == bs[k-1])
  {
  }

  lemma SplitOrdered(bs: seq<Block>, cs: seq<Block>, i: nat, n: nat, lo: int, hi: int)
    requires Ordered(bs, lo, hi) && SplitAt(bs, cs, i, n) && Splits(bs[i], n)
    ensures Ordered(cs, lo, hi)
  {
    forall k, l | 0 <= k < l < |cs| ensures cs[k].End() <= cs[l].Header() {
      SplitPair(bs, cs, i, n, k, l, lo, hi);
    }
  }

  lemma SplitPair(bs: seq<Block>, cs: seq<Block>, i: nat, n: nat, k: nat, l: nat, lo: int, hi: int)
    requires Ordered(bs, lo, hi) && SplitAt(bs, cs, i, n) && Splits(bs[i], n) && k < l < |cs|
    ensures cs[k].End() <= cs[l].Header()
  {
    var k', l' := if k <= i then k else k - 1, if l <= i then l else l - 1;
    assert k' < l' ==> bs[k'].End() <= bs[l'].Header();
  }

  lemma SplitCoalesced(bs: seq<Block>, cs: seq<Block>, i: nat, n: nat)
    requires Coalesced(bs) && SplitAt(bs, cs, i, n) && bs[i].free
    ensures Coalesced(cs)
  {
    forall k, l | 0 <= k && l == k + 1 < |cs| ensures !(cs[k].free && cs[l].free) {
      var k', l' := if k <= i then k else k - 1, if l <= i then l else l - 1;
      assert l' == k' + 1 ==> !(bs[k'].free && bs[l'].free);
    }
  }

  lemma CarveWellFormed(bs: seq<Block>, i: nat, n: nat, lo: int, hi: int)
    requires WellFormed(bs, lo, hi) && i < |bs| && Fits(bs[i], n)
    ensures WellFormed(Carve(bs, i, n), lo, hi)
  {
    if Splits(bs[i], n) {
      hide Ordered, Coalesced;
      CarveSplitsAt(bs, i, n);
      SplitOrdered(bs, Carve(bs, i, n), i, n, lo, hi);
      SplitCoalesced(bs, Carve(bs, i, n), i, n);
    }
  }

  lemma AllocateWellFormed(bs: seq<Block>, n: nat, lo: int, hi: int)
    requires WellFormed(bs, lo, hi)
    ensures WellFormed(Allocate(bs, n).blocks, lo, hi)
  {
    var i := FirstFit(bs, n);
    if i < |bs| {
      CarveWellFormed(bs, i, n, lo, hi);
    }
  }

  // Merge, entry by entry.
  ghost predicate MergedAt(bs: seq<Block>, cs: seq<Block>, i: nat) {
    && i + 1 < |bs|
    && |cs| == |bs| - 1
    && cs[i] == bs[i].(size := bs[i].size + bs[i+1].size)
    && (forall k :: 0 <= k < i ==> cs[k] == bs[k])
    && (forall k :: i < k < |cs| ==> cs[k] == bs[k+1])
  }

  lemma MergeIsMergedAt(bs: seq<Block>, i: nat)
    requires i + 1 < |bs|
    ensures MergedAt(bs, Merge(bs, i), i)
  {
  }

  lemma MergedOrdered(bs: seq<Block>, cs: seq<Block>, i: nat, lo: int, hi: int)
    requires Ordered(bs, lo, hi) && MergedAt(bs, cs, i)
    ensures Ordered(cs, lo, hi)
  {
    forall k, l | 0 <= k < l < |cs| ensures cs[k].End() <= cs[l].Header() {
      var k', l' := if k <= i then k else k + 1, if l <= i then l else l + 1;
      assert bs[k'].End() <= bs[l'].Header();
      assert k == i ==> bs[k+1].End() <= bs[l'].Header();
    }
  }

  // Two free neighbours, if any, sit at positions k and k+1 with k in `at`.
  ghost predicate ClashesIn(bs: seq<Block>, at: set<int>) {
    forall i, j :: 0 <= i && j == i + 1 < |bs| && bs[i].free && bs[j].free ==> i in at
  }

  lemma MergeNextStep(bs: seq<Block>, i: nat, lo: int, hi: int)
    requires Ordered(bs, lo, hi) && i < |bs| && bs[i].free && ClashesIn(bs, {i - 1, i})
    ensures var cs := MergeNext(bs, i);
      Ordered(cs, lo, hi) && i < |cs| && cs[i].free && ClashesIn(cs, {i - 1})
  {
    hide Ordered;
    if i + 1 < |bs| && bs[i+1].free {
      MergeIsMergedAt(bs, i);
      MergedOrdered(bs, Merge(bs, i), i, lo, hi);
      MergedClashes(bs, Merge(bs, i), i, {i - 1, i}, {i - 1});
    }
  }

  lemma MergePrevStep(bs: seq<Block>, i: nat, lo: int, hi: int)
    requires Ordered(bs, lo, hi) && i < |bs| && bs[i].free && ClashesIn(bs, {i - 1})
    ensures WellFormed(MergePrev(bs, i), lo, hi)
  {
    hide Ordered;
    if i > 0 && bs[i-1].free {
      MergeIsMergedAt(bs, i - 1);
      MergedOrdered(bs, Merge(bs, i - 1), i - 1, lo, hi);
      MergedClashes(bs, Merge(bs, i - 1), i - 1, {i - 1}, {});
    }
  }

  lemma MergedClashes(bs: seq<Block>, cs: seq<Block>, i: nat, before: set<int>, after: set<int>)
    requires MergedAt(bs, cs, i) && bs[i].free && bs[i+1].free && ClashesIn(bs, before)
    requires before <= {i - 1, i} && after == before - {i}
    ensures ClashesIn(cs, after)
  {
    forall k, l | 0 <= k && l == k + 1 < |cs| && cs[k].free && cs[l].free ensures k in after {
      if k < i {
        assert bs[k].free && bs[l].free;
      }
    }
  }

  // A block that is free already has no free neighbour, and stays as it is.
  lemma ReleaseAgain(bs: seq<Block>, i: nat)
    requires Coalesced(bs) && i < |bs| && bs[i].free
    ensures Release(bs, i) == bs
  {
    assert bs[i := bs[i].(free := true)] == bs;
    assert i + 1 < |bs| ==> !bs[i+1].free;
    assert i > 0 ==> !bs[i-1].free;
  }

  lemma ReleaseWellFormed(bs: seq<Block>, i: nat, lo: int, hi: int)
    requires WellFormed(bs, lo, hi) && i < |bs|
    ensures WellFormed(Release(bs, i), lo, hi)
  {
    if bs[i].free {
      ReleaseAgain(bs, i);
    } else {
      var b1 := bs[i := bs[i].(free := true)];
      assert Ordered(b1, lo, hi) && ClashesIn(b1, {i - 1, i});
      MergeNextStep(b1, i, lo, hi);
      MergePrevStep(MergeNext(b1, i), i, lo, hi);
    }
  }

  lemma FreeWellFormed(bs: seq<Block>, ptr: int, lo: int, hi: int)
    requires WellFormed(bs, lo, hi)
    ensures WellFormed(Free(bs, ptr).0, lo, hi)
  {
    var i := Reached(bs, ptr);
    if i < |bs| {
      ReleaseWellFormed(bs, i, lo, hi);
    }
  }
}
