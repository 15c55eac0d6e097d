/**
 kernel/library.c: the heap manager.  The methods do the pointer surgery of
 the C code on raw memory; their contracts say that what memory stands for
 changes exactly as module HeapSpec prescribes.
 */
module HeapManagement {
  import opened Links
  import opened HeapSpec
  import opened HeapMemory
  import opened HeapStructure

  // size_t arithmetic.
  function Add32(a: nat, b: nat): nat {
    (a + b) % WORD
  }

  // The two stages of cutting a block: a header for the remainder, next to c
  // on the list of all blocks; then c's place on the free list.
  ghost predicate HeaderStored(m: Memory, m1: Memory, c: Ptr, d: Ptr, n: nat) {
    && c in m && m1.Keys == m.Keys + {d}
    && m1[c] == m[c].(next := d)
    && m1[d] == Mcb(m[c].startAddress + n + HEADER, m[c].size - n - HEADER, m[c].next, c, 0, 0, false)
    && (forall p :: p in m && p != c && p != d ==>
          m1[p] == m[p].(prev := if p != 0 && p == m[c].next then d else m[p].prev))
  }

  ghost predicate PlaceTaken(m1: Memory, m2: Memory, c: Ptr, d: Ptr) {
    && c in m1 && d in m1 && m2.Keys == m1.Keys
    && m2[c] == m1[c]
    && m2[d] == m1[d].(relNext := m1[c].relNext, relPrev := m1[c].relPrev)
    && (forall p :: p in m1 && p != c && p != d ==>
          m2[p] == m1[p].(relPrev := if p != 0 && p == m1[c].relNext then d else m1[p].relPrev,
                          relNext := if p != 0 && p == m1[c].relPrev then d else m1[p].relNext))
  }

  lemma CutFromParts(m: Memory, m1: Memory, m2: Memory, c: Ptr, d: Ptr, n: nat)
    requires HeaderStored(m, m1, c, d, n) && PlaceTaken(m1, m2, c, d) && c != d
    ensures c in m2 && d in m2 && Cut(m, PutIsFree(PutSize(m2, c, n), d, true), c, d, n)
  {
    var m3 := PutIsFree(PutSize(m2, c, n), d, true);
    forall p | p in m && p != c && p != d
      ensures m3[p] == m[p].(prev := if p != 0 && p == m[c].next then d else m[p].prev,
                         relPrev := if p != 0 && p == m[c].relNext then d else m[p].relPrev,
                         relNext := if p != 0 && p == m[c].relPrev then d else m[p].relNext)
    {
      assert m3[p] == m2[p];
    }
  }

  // p is an entry of the list s, linked to its neighbours or to NULL.
  ghost predicate IsOn(m: Memory, s: seq<Ptr>, p: Ptr) {
    exists j: nat :: RelEntry(m, s, j) && s[j] == p
  }

  class HeapManager {
    var memory: Memory
    var freeList: Ptr
    var allocatedList: Ptr
    ghost var shape: Shape

    // The blocks that memory stands for.
    ghost function View(): seq<Block>
      reads this
    {
      Blocks(memory, shape.full)
    }

    ghost predicate Valid()
      reads this
    {
      Structure(memory, shape, freeList, allocatedList, 0) && Coalesced(View())
    }

    // The blocks are in order in the arena, and no two neighbours are free.
    lemma ViewWellFormed()
      requires Valid()
      ensures WellFormed(View(), shape.lo, shape.hi)
    {
    }

    // Every block is threaded on the list of all blocks, in address order, and
    // on just one of the two others, the one its flag names; and a free block
    // has no free neighbour.
    lemma ListsAgree(i: nat)
      requires Valid() && i < |shape.full|
      ensures Increasing(shape.full) && Increasing(shape.frees) && Increasing(shape.allocs)
      ensures freeList == At(shape.frees, 0) && allocatedList == At(shape.allocs, 0)
      ensures FullEntry(memory, shape.full, i)
      ensures var p := shape.full[i];
        if memory[p].isFree then IsOn(memory, shape.frees, p) && p !in shape.allocs
        else IsOn(memory, shape.allocs, p) && p !in shape.frees
      ensures i + 1 < |shape.full| && memory[shape.full[i]].isFree ==>
        shape.full[i+1] in memory && !memory[shape.full[i+1]].isFree
    {
      var p, bs := shape.full[i], View();
      EntryOfFull(memory, shape.full, i);
      hide Ordered, FullList;
      assert i + 1 < |bs| ==> !(bs[i].free && bs[i+1].free);
      assert p in shape.full;
      var s := if memory[p].isFree then shape.frees else shape.allocs;
      var j :| 0 <= j < |s| && s[j] == p;
      EntryOfRel(memory, s, j);
    }

    // The statically allocated heap manager: all zero.
    constructor ()
      ensures freeList == 0 && allocatedList == 0
    {
      memory, freeList, allocatedList := map[], 0, 0;
      shape := Shape([], [], [], 0, 0);
    }

    // initialize_heap, given the address that kmalloc returned.
    method Initialize(base: Ptr, heapSize: nat)
      requires HEADER <= heapSize && base + heapSize <= WORD
      modifies this
      ensures base == 0 ==> freeList == old(freeList) && allocatedList == old(allocatedList) && memory == old(memory)
      ensures base != 0 ==> Valid() && shape.lo == base && shape.hi == base + heapSize
      ensures base != 0 ==> View() == [Block(base + HEADER, heapSize - HEADER, true)]
    {
      if base == 0 {
        return;
      }
      memory := memory[base := Mcb(base + HEADER, heapSize - HEADER, 0, 0, 0, 0, true)];
      freeList := base;
      allocatedList := 0;
      shape := Shape([base], [base], [], base, base + heapSize);
    }

    // Take c off the free list; c itself is left as it is.
    method UnlinkFree(c: Ptr)
      requires c in memory
      requires (memory[c].relPrev != 0 ==> memory[c].relPrev in memory) && (memory[c].relNext != 0 ==> memory[c].relNext in memory)
      modifies this`memory, this`freeList
      ensures memory == Unlinked(old(memory), c)
      ensures freeList == if old(memory)[c].relPrev == 0 then old(memory)[c].relNext else old(freeList)
    {
      var b := memory[c];
      if b.relPrev == 0 {
        freeList := b.relNext;
      } else {
        memory := PutRelNext(memory, b.relPrev, b.relNext);
      }
      if b.relNext != 0 {
        memory := PutRelPrev(memory, b.relNext, b.relPrev);
      }
    }

    method UnlinkAllocated(c: Ptr)
      requires c in memory
      requires (memory[c].relPrev != 0 ==> memory[c].relPrev in memory) && (memory[c].relNext != 0 ==> memory[c].relNext in memory)
      modifies this`memory, this`allocatedList
      ensures memory == Unlinked(old(memory), c)
      ensures allocatedList == if old(memory)[c].relPrev == 0 then old(memory)[c].relNext else old(allocatedList)
    {
      var b := memory[c];
      if b.relPrev != 0 {
        memory := PutRelNext(memory, b.relPrev, b.relNext);
      } else {
        allocatedList := b.relNext;
      }
      if b.relNext != 0 {
        memory := PutRelPrev(memory, b.relNext, b.relPrev);
      }
    }

    // A neighbour that a pointer of c leads to, if it is not NULL.
    ghost predicate Neighbour(c: Ptr, p: Ptr, d: Ptr)
      reads this
    {
      p != 0 ==> p in memory && p != c && p != d
    }

    // Give the remainder a header at d, next to c on the list of all blocks.
    method StoreHeader(c: Ptr, d: Ptr, n: nat)
      requires c in memory && c != d && Neighbour(c, memory[c].next, d)
      modifies this`memory
      ensures HeaderStored(old(memory), memory, c, d, n)
    {
      var b := memory[c];
      memory := memory[d := Mcb(b.startAddress + n + HEADER, b.size - n - HEADER, b.next, c, 0, 0, false)];
      if b.next != 0 {
        memory := PutPrev(memory, b.next, d);
      }
      memory := PutNext(memory, c, d);
    }

    // Put d in the place of c on the free list.
    method TakePlace(c: Ptr, d: Ptr)
      requires c in memory && d in memory && c != d
      requires Neighbour(c, memory[c].relNext, d) && Neighbour(c, memory[c].relPrev, d)
      modifies this`memory, this`freeList
      ensures PlaceTaken(old(memory), memory, c, d)
      ensures freeList == if old(memory)[c].relPrev == 0 then d else old(freeList)
    {
      var b := memory[c];
      memory := PutRelNext(memory, d, b.relNext);
      memory := PutRelPrev(memory, d, b.relPrev);
      if b.relNext != 0 {
        memory := PutRelPrev(memory, b.relNext, d);
      }
      if b.relPrev != 0 {
        memory := PutRelNext(memory, b.relPrev, d);
      } else {
        freeList := d;
      }
    }

    // Cut c down to n bytes; the remainder gets a header of its own, which
    // takes c's place on the free list.
    method StoreRemainder(c: Ptr, n: nat) returns (d: Ptr)
      requires c in memory && c != c + HEADER + n && memory[c].startAddress == c + HEADER
      requires Neighbour(c, memory[c].next, c + HEADER + n)
      requires Neighbour(c, memory[c].relNext, c + HEADER + n)
      requires Neighbour(c, memory[c].relPrev, c + HEADER + n)
      modifies this`memory, this`freeList
      ensures d == c + HEADER + n && Cut(old(memory), memory, c, d, n)
      ensures freeList == if old(memory)[c].relPrev == 0 then d else old(freeList)
    {
      d := memory[c].startAddress + n;
      StoreHeader(c, d, n);
      ghost var m1 := memory;
      TakePlace(c, d);
      ghost var m2 := memory;
      CutFromParts(old(memory), m1, m2, c, d, n);
      memory := PutSize(memory, c, n);
      memory := PutIsFree(memory, d, true);
    }

    method SplitBlock(c: Ptr, n: nat, ghost i: nat, ghost j: nat)
      requires Structure(memory, shape, freeList, allocatedList, 0)
      requires i < |shape.full| && j < |shape.frees| && c == shape.full[i] == shape.frees[j]
      requires c in memory && Splits(BlockAt(memory, c), n)
      modifies this
      ensures Structure(memory, shape, freeList, allocatedList, c)
      ensures shape.lo == old(shape.lo) && shape.hi == old(shape.hi) && shape.allocs == old(shape.allocs)
      ensures i < |shape.full| && shape.full[i] == c
      ensures c in memory && memory[c] == old(memory)[c].(size := n, next := memory[c].next)
      ensures View() == Carve(old(View()), i, n)[i := Block(old(View())[i].start, n, true)]
    {
      hide Structure, Carve;
      ghost var m := memory;
      CutApplies(m, shape, freeList, allocatedList, i, j, n);
      var d := StoreRemainder(c, n);
      CutStep(m, memory, shape, old(freeList), allocatedList, i, j, n);
      shape := shape.(full := Links.Insert(shape.full, i + 1, d), frees := shape.frees[j := d]);
    }

    // Lines 123-145: c lies above the head of the allocated list; walk to the
    // place where it belongs.
    method ThreadBeyondHead(c: Ptr) returns (ghost k: nat)
      requires Structure(memory, shape, freeList, allocatedList, c) && c in memory && c != 0
      requires memory[c].isFree && memory[c].startAddress == c + HEADER
      requires shape.allocs != [] && shape.allocs[0] == allocatedList < c
      modifies this`memory
      ensures Threaded(old(memory), memory, shape.allocs, k, c) && Gap(shape.allocs, k, c) && k > 0
      ensures c in memory && !memory[c].isFree
    {
      hide Structure, Threaded, Walks;
      ghost var t, m := shape.allocs, memory;
      var index := allocatedList;
      k := 1;
      WalkAllocated(m, shape, freeList, allocatedList, c, 0);
      WalksFacts(m, t, 0, c);
      while memory[index].relNext != 0
        invariant 1 <= k <= |t| && memory == m && index == t[k-1] && index < c
        invariant Walks(m, t, k - 1, c) && index in m && m[index].relNext == At(t, k)
        decreases |t| - k
      {
        WalksFacts(m, t, k - 1, c);
        var following := memory[index].relNext;
        if memory[following].startAddress > memory[c].startAddress {
          ThreadMiddle(m, t, k, c, false);
          memory := PutRelPrev(memory, following, c);
          memory := PutRelNext(memory, c, following);
          memory := PutRelPrev(memory, c, index);
          memory := PutRelNext(memory, index, c);
          memory := PutIsFree(memory, c, false);
          break;
        }
        index := following;
        WalkAllocated(m, shape, freeList, allocatedList, c, k);
        WalksFacts(m, t, k, c);
        k := k + 1;
      }
      if memory[c].isFree {
        WalksFacts(m, t, k - 1, c);
        ThreadTail(m, t, c, false);
        memory := PutRelNext(memory, index, c);
        memory := PutRelPrev(memory, c, index);
        memory := PutRelNext(memory, c, 0);
        memory := PutIsFree(memory, c, false);
      }
    }

    // Lines 103-147: put c on the allocated list, in address order.  A new
    // head keeps whatever rel_prev it has, so that must already be NULL.
    method ThreadAllocated(c: Ptr) returns (ghost k: nat)
      requires Structure(memory, shape, freeList, allocatedList, c) && c in memory && c != 0
      requires memory[c].isFree && memory[c].startAddress == c + HEADER
      requires shape.allocs != [] && c < shape.allocs[0] ==> memory[c].relPrev == 0
      modifies this`memory, this`allocatedList
      ensures Threaded(old(memory), memory, shape.allocs, k, c) && Gap(shape.allocs, k, c)
      ensures c in memory && !memory[c].isFree
      ensures allocatedList == if k == 0 then c else old(allocatedList)
    {
      hide Structure, Threaded, Walks;
      ghost var t, m := shape.allocs, memory;
      HeadOf(m, shape, freeList, allocatedList, c);
      if allocatedList == 0 {
        allocatedList := c;
        memory := PutRelNext(memory, c, 0);
        memory := PutRelPrev(memory, c, 0);
        memory := PutIsFree(memory, c, false);
        k := 0;
        ThreadAlone(m, memory, t, c);
      } else {
        var index := allocatedList;
        WalkAllocated(m, shape, freeList, allocatedList, c, 0);
        WalksFacts(m, t, 0, c);
        if memory[index].startAddress > memory[c].startAddress {
          ThreadHead(m, t, c, false);
          memory := PutRelNext(memory, c, index);
          memory := PutRelPrev(memory, index, c);
          allocatedList := c;
          memory := PutIsFree(memory, c, false);
          k := 0;
        } else {
          k := ThreadBeyondHead(c);
        }
      }
    }

    // Lines 84-101: take the whole block off the free list.
    method WithdrawBlock(c: Ptr, ghost j: nat)
      requires Structure(memory, shape, freeList, allocatedList, 0)
      requires j < |shape.frees| && c == shape.frees[j] && c in memory
      modifies this
      ensures Structure(memory, shape, freeList, allocatedList, c)
      ensures shape == old(shape).(frees := Links.Remove(old(shape).frees, j))
      ensures c in memory && memory[c] == old(memory)[c] && View() == old(View())
    {
      hide Structure;
      UnlinkFreeStep(memory, shape, freeList, allocatedList, j);
      UnlinkFree(c);
      shape := shape.(frees := Links.Remove(shape.frees, j));
    }

    // Lines 47-150: hand out block c, which fits.
    method Grant(c: Ptr, n: nat, ghost i: nat) returns (ptr: int)
      requires Valid() && i < |shape.full| && c == shape.full[i] && Fits(View()[i], n) && c in memory
      modifies this
      ensures Valid() && shape.lo == old(shape.lo) && shape.hi == old(shape.hi)
      ensures View() == Carve(old(View()), i, n) && ptr == old(View())[i].start
    {
      ghost var bs := View();
      GrantFacts(memory, shape, freeList, allocatedList, i, n);
      hide Structure, Coalesced, Carve, Threaded, Gap, Splits, Ordered;
      ghost var j := PositionIn(memory, shape, freeList, allocatedList, i);
      if memory[c].size > Add32(n, HEADER) {
        SplitBlock(c, n, i, j);
      } else {
        WithdrawBlock(c, j);
      }
      Settle(c, i);
      FinishCarve(bs, i, n);
      ptr := memory[c].startAddress;
      CarveWellFormed(bs, i, n, old(shape.lo), old(shape.hi));
    }

    // Put the loose block c on the allocated list.
    method Settle(c: Ptr, ghost i: nat)
      requires Structure(memory, shape, freeList, allocatedList, c)
      requires i < |shape.full| && shape.full[i] == c && c in memory && c != 0
      requires memory[c].isFree && memory[c].startAddress == c + HEADER
      requires shape.allocs != [] && c < shape.allocs[0] ==> memory[c].relPrev == 0
      modifies this
      ensures Structure(memory, shape, freeList, allocatedList, 0)
      ensures shape.full == old(shape.full) && shape.lo == old(shape.lo) && shape.hi == old(shape.hi)
      ensures i < |View()| && View() == old(View())[i := old(View())[i].(free := false)]
      ensures c in memory && memory[c].startAddress == c + HEADER
    {
      hide Structure, Threaded;
      ghost var m := memory;
      ghost var k := ThreadAllocated(c);
      LinkAllocatedStep(m, memory, shape, freeList, old(allocatedList), i, k);
      shape := shape.(allocs := Links.Insert(shape.allocs, k, c));
      FullMember(memory, shape, freeList, allocatedList, 0, i);
    }

    // allocate_memory: first fit, with splitting.
    method Allocate(size: nat) returns (ptr: int)
      requires Valid()
      modifies this
      ensures Valid() && shape.lo == old(shape.lo) && shape.hi == old(shape.hi)
      ensures Outcome(View(), ptr) == HeapSpec.Allocate(old(View()), size)
    {
      hide Structure, Coalesced, Carve;
      var curr := freeList;
      ghost var k: nat := FirstFree(memory, shape, freeList, allocatedList);
      while curr != 0
        invariant k <= |shape.full| && curr == At(shape.full, k)
        invariant forall l :: 0 <= l < k ==> !Fits(View()[l], size)
        modifies {}
        decreases |shape.full| - k
      {
        FullMember(memory, shape, freeList, allocatedList, 0, k);
        if memory[curr].isFree && memory[curr].size >= size {
          break;
        }
        curr := memory[curr].next;
        k := k + 1;
      }
      NullIsEnd(memory, shape, freeList, allocatedList, k);
      FirstFitIs(View(), size, k);
      if curr == 0 {
        ptr := 0;
      } else {
        ptr := Grant(curr, size, k);
      }
    }

    // Lines 202-223: c lies above the head of the free list; walk to the
    // place where it belongs.  If c is itself the head, which it should not be,
    // the walk ends at once and ties c to itself.
    method ThreadFreeBeyondHead(c: Ptr) returns (ghost k: nat)
      requires c in memory && c != 0
      requires memory[c].relNext == 0 && memory[c].relPrev == 0 && memory[c].startAddress == c + HEADER
      requires freeList != c ==>
        Structure(memory, shape, freeList, allocatedList, c) && shape.frees != [] && shape.frees[0] == freeList < c
      modifies this`memory
      ensures c in memory && memory[c].isFree == old(memory)[c].isFree
      ensures freeList != c ==> Threaded(old(memory), memory, shape.frees, k, c) && Gap(shape.frees, k, c) && k > 0
      ensures freeList == c ==> memory == TiedToItself(old(memory), c)
    {
      hide Structure, Threaded, Walks;
      ghost var t, m := shape.frees, memory;
      var index := freeList;
      k := 0;
      if freeList != c {
        WalkFrees(m, shape, freeList, allocatedList, c, 0);
        WalksFacts(m, t, 0, c);
      }
      while index != 0
        invariant memory == m && index != 0 && index in m && m[index].startAddress == index + HEADER
        invariant freeList == c ==> index == c
        invariant freeList != c ==> WalkedTo(m, t, k, c, index)
        decreases |t| - k
      {
        if memory[index].startAddress > memory[c].startAddress {
          ThreadFreeMiddle(m, t, k, c);
          memory := PutRelNext(memory, memory[index].relPrev, c);
          memory := PutRelPrev(memory, c, memory[index].relPrev);
          memory := PutRelNext(memory, c, index);
          memory := PutRelPrev(memory, index, c);
          return;
        } else if memory[index].relNext == 0 {
          if freeList != c {
            WalksFacts(m, t, k, c);
            ThreadFreeTail(m, t, c);
          }
          memory := PutRelNext(memory, index, c);
          memory := PutRelPrev(memory, c, index);
          k := k + 1;
          return;
        }
        WalksFacts(m, t, k, c);
        index := memory[index].relNext;
        WalkFrees(m, shape, freeList, allocatedList, c, k + 1);
        WalksFacts(m, t, k + 1, c);
        k := k + 1;
      }
    }

    // Lines 190-223: put c, which should be loose, on the free list, in address
    // order.
    method ThreadFree(c: Ptr) returns (ghost k: nat)
      requires c in memory && c != 0
      requires memory[c].relNext == 0 && memory[c].relPrev == 0 && memory[c].startAddress == c + HEADER
      requires freeList != c ==> Structure(memory, shape, freeList, allocatedList, c)
      modifies this`memory, this`freeList
      ensures c in memory && memory[c].isFree == old(memory)[c].isFree
      ensures old(freeList) != c ==>
        Threaded(old(memory), memory, shape.frees, k, c) && Gap(shape.frees, k, c) && freeList == if k == 0 then c else old(freeList)
      ensures old(freeList) == c ==> memory == TiedToItself(old(memory), c) && freeList == c
    {
      hide Structure, Threaded, Walks;
      ghost var t, m := shape.frees, memory;
      var index := freeList;
      if freeList != c {
        HeadOf(m, shape, freeList, allocatedList, c);
        if index != 0 {
          WalkFrees(m, shape, freeList, allocatedList, c, 0);
          WalksFacts(m, t, 0, c);
        }
      }
      if index == 0 || memory[index].startAddress > memory[c].startAddress {
        ThreadFreeHead(m, t, c);
        freeList := c;
        if index != 0 {
          memory := PutRelNext(memory, c, index);
          memory := PutRelPrev(memory, index, c);
        }
        k := 0;
      } else {
        k := ThreadFreeBeyondHead(c);
      }
    }

    // Lines 171-188: take block c off its relative list, which should be the
    // allocated list, and mark it free.
    method Loosen(c: Ptr, ghost i: nat)
      requires Structure(memory, shape, freeList, allocatedList, 0)
      requires i < |shape.full| && c == shape.full[i] && c in memory
      modifies this`memory, this`allocatedList, this`shape
      ensures c in memory && memory[c].relNext == 0 && memory[c].relPrev == 0 && memory[c].isFree
      ensures memory[c].startAddress == c + HEADER && c != 0
      ensures shape.full == old(shape.full) && shape.lo == old(shape.lo) && shape.hi == old(shape.hi)
      ensures c != freeList ==> Structure(memory, shape, freeList, allocatedList, c)
      ensures c != freeList ==> View() == old(View())[i := old(View())[i].(free := true)]
      ensures c == freeList ==> LostHead(old(memory), memory, c) && allocatedList == old(memory)[c].relNext && shape == old(shape)
    {
      hide Structure, Unlinked;
      ghost var m := memory;
      FullMember(memory, shape, freeList, allocatedList, 0, i);
      ghost var sh := UnlinkStep(memory, shape, freeList, allocatedList, i);
      UnlinkAllocated(c);
      if c != freeList {
        shape := sh;
      }
      ghost var m1 := memory;
      memory := PutRelNext(memory, c, 0);
      memory := PutRelPrev(memory, c, 0);
      memory := PutIsFree(memory, c, true);
      if c != freeList {
        RetouchStep(m1, memory, shape, freeList, allocatedList, i);
      } else {
        HeadLost(m, c);
      }
    }

    // Lines 171-223: move block c to the free list, in address order.
    method Retire(c: Ptr, ghost i: nat)
      requires Structure(memory, shape, freeList, allocatedList, 0)
      requires i < |shape.full| && c == shape.full[i] && c in memory
      modifies this
      ensures shape.full == old(shape.full) && shape.lo == old(shape.lo) && shape.hi == old(shape.hi)
      ensures c != old(freeList) ==> Structure(memory, shape, freeList, allocatedList, 0)
      ensures c != old(freeList) ==> View() == old(View())[i := old(View())[i].(free := true)]
      ensures c == old(freeList) ==>
        Tangled(old(memory), memory, c) && freeList == c && allocatedList == old(memory)[c].relNext && shape == old(shape)
    {
      hide Structure, Threaded, Gap, LostHead, TiedToItself, Tangled;
      ghost var m0 := memory;
      Loosen(c, i);
      ghost var m := memory;
      ghost var k := ThreadFree(c);
      if c != old(freeList) {
        LinkFreeStep(m, memory, shape, old(freeList), allocatedList, i, k);
        GapBound(shape.frees, k, c);
        shape := shape.(frees := Links.Insert(shape.frees, k, c));
      } else {
        TangledFromParts(m0, m, memory, c);
      }
    }

    // Block c takes over the memory of its right neighbour and its links on
    // the free list.
    method Absorb(c: Ptr, d: Ptr)
      requires c in memory && d in memory && c != d
      requires memory[d].relNext != 0 ==> memory[d].relNext in memory && memory[d].relNext != c && memory[d].relNext != d
      modifies this`memory
      ensures Absorbed(old(memory), memory, c, d)
    {
      memory := PutSize(memory, c, memory[c].size + memory[d].size);
      memory := PutRelNext(memory, c, memory[d].relNext);
      if memory[d].relNext != 0 {
        memory := PutRelPrev(memory, memory[d].relNext, c);
      }
      memory := PutRelNext(memory, d, 0);
      memory := PutRelPrev(memory, d, 0);
    }

    // The right neighbour of c leaves the list of all blocks.
    method Bypass(c: Ptr, d: Ptr)
      requires c in memory && d in memory && c != d && memory[c].next == d
      requires memory[d].next != 0 ==> memory[d].next in memory && memory[d].next != c && memory[d].next != d
      modifies this`memory
      ensures Bypassed(old(memory), memory, c, d)
    {
      var temp := memory[c].next;
      if memory[d].next != 0 {
        memory := PutPrev(memory, memory[d].next, c);
      }
      memory := PutNext(memory, c, memory[d].next);
      memory := PutNext(memory, temp, 0);
      memory := PutPrev(memory, temp, 0);
    }

    // Lines 229-246, and again 252-269: merge c with the block to its right.
    method MergeRight(c: Ptr, ghost i: nat)
      requires Structure(memory, shape, freeList, allocatedList, 0)
      requires i + 1 < |shape.full| && c == shape.full[i] && View()[i].free && View()[i+1].free
      modifies this
      ensures Structure(memory, shape, freeList, allocatedList, 0)
      ensures shape.full == Links.Remove(old(shape.full), i + 1) && shape.lo == old(shape.lo) && shape.hi == old(shape.hi)
      ensures View() == Merge(old(View()), i)
    {
      hide Structure, Merge;
      ghost var m := memory;
      SwallowApplies(m, shape, freeList, allocatedList, i);
      var d := memory[c].next;
      Absorb(c, d);
      ghost var m1 := memory;
      Bypass(c, d);
      SwallowedFromParts(m, m1, memory, c, d);
      ghost var sh' := SwallowStep(m, memory, shape, freeList, allocatedList, i);
      shape := sh';
    }

    // Lines 226-247: merge with the block to the right, if that is free.
    method JoinNext(c: Ptr, ghost i: nat)
      requires MayJoin(c, i) || Isolated(memory, c)
      modifies this
      ensures old(MayJoin(c, i)) ==>
        && MayJoin(c, i) && shape.lo == old(shape.lo) && shape.hi == old(shape.hi)
        && i < |old(View())| && View() == MergeNext(old(View()), i)
      ensures old(Isolated(memory, c)) ==> unchanged(this)
    {
      hide Structure, Merge, Links.Remove;
      if MayJoin(c, i) {
        FullMember(memory, shape, freeList, allocatedList, 0, i);
        NextMember(memory, shape, freeList, allocatedList, i);
      }
      if memory[c].next != 0 && memory[memory[c].next].isFree {
        MergeIsMergedAt(View(), i);
        RemoveIs(shape.full, i + 1);
        MergeRight(c, i);
      }
    }

    // Lines 248-270: merge with the block to the left, if that is free.
    method JoinPrev(c: Ptr, ghost i: nat)
      requires MayJoin(c, i) || Isolated(memory, c)
      modifies this
      ensures old(MayJoin(c, i)) ==>
        && Structure(memory, shape, freeList, allocatedList, 0) && shape.lo == old(shape.lo) && shape.hi == old(shape.hi)
        && i < |old(View())| && View() == MergePrev(old(View()), i)
      ensures old(Isolated(memory, c)) ==> unchanged(this)
    {
      hide Structure, Merge, Links.Remove;
      if MayJoin(c, i) {
        FullMember(memory, shape, freeList, allocatedList, 0, i);
        PrevMember(memory, shape, freeList, allocatedList, i);
      }
      if memory[c].prev != 0 && memory[memory[c].prev].isFree {
        MergeRight(memory[c].prev, i - 1);
      }
    }

    // Block c, at place i, is free and on its lists.
    ghost predicate MayJoin(c: Ptr, i: nat)
      reads this
    {
      Structure(memory, shape, freeList, allocatedList, 0) && i < |shape.full| && c == shape.full[i] && View()[i].free
    }

    // Memory and heads are those of some heap.
    ghost predicate Sane()
      reads this
    {
      exists sh: Shape :: Structure(memory, sh, freeList, allocatedList, 0)
    }

    // free_memory: 0 if the search finds a block, -1 if it does not.  The lists
    // survive the call just if that block is not the first free one; else the
    // head of the allocated list is lost, and the free list is tied to itself.
    method Free(ptr: int) returns (code: int)
      requires Valid()
      modifies this
      ensures Sane() <==> MayFree(old(View()), ptr)
      ensures MayFree(old(View()), ptr) ==> Valid() && shape.lo == old(shape.lo) && shape.hi == old(shape.hi)
      ensures MayFree(old(View()), ptr) ==> (View(), code) == HeapSpec.Free(old(View()), ptr)
      ensures !MayFree(old(View()), ptr) ==>
        && code == 0 && freeList == old(freeList) && ptr == freeList + HEADER
        && Tangled(old(memory), memory, freeList) && allocatedList == old(memory)[freeList].relNext
    {
      hide Structure, Coalesced, HeapSpec.Release, MayFree;
      ghost var bs := View();
      var curr := allocatedList;
      ghost var k: nat := FirstLive(View());
      FirstAllocated(memory, shape, freeList, allocatedList);
      NullIsEnd(memory, shape, freeList, allocatedList, k);
      while curr != 0
        invariant FirstLive(View()) <= k <= |shape.full| && curr == At(shape.full, k)
        invariant forall l :: FirstLive(View()) <= l < k ==> View()[l].start != ptr
        modifies {}
        decreases |shape.full| - k
      {
        FullMember(memory, shape, freeList, allocatedList, 0, k);
        if memory[curr].startAddress == ptr {
          break;
        }
        curr := memory[curr].next;
        k := k + 1;
      }
      NullIsEnd(memory, shape, freeList, allocatedList, k);
      ReachedIs(View(), ptr, k);
      MayFreeAt(memory, shape, freeList, allocatedList, ptr, k);
      if curr == 0 {
        code := -1;
      } else {
        ReleaseBlock(curr, k);
        code := 0;
      }
      if MayFree(bs, ptr) {
        assert Structure(memory, shape, freeList, allocatedList, 0) by { assert Valid(); }
      } else {
        NoHeap(memory, freeList, allocatedList);
      }
    }

    // Lines 171-273: what is done once the block is found.
    method ReleaseBlock(c: Ptr, ghost i: nat)
      requires Valid() && i < |shape.full| && c == shape.full[i]
      modifies this
      ensures c != old(freeList) ==> Valid() && shape.lo == old(shape.lo) && shape.hi == old(shape.hi)
      ensures c != old(freeList) ==> i < |old(View())| && View() == HeapSpec.Release(old(View()), i)
      ensures c == old(freeList) ==>
        c in old(memory) && Tangled(old(memory), memory, c) && freeList == c && allocatedList == old(memory)[c].relNext
    {
      ghost var bs, m := View(), memory;
      hide Structure, Coalesced, MergeNext, MergePrev, Tangled, Isolated;
      FullMember(memory, shape, freeList, allocatedList, 0, i);
      HeadIsolated(memory, shape, freeList, allocatedList, i);
      HeadIsFree(memory, shape, freeList, allocatedList);
      IsOrdered(memory, shape, freeList, allocatedList);
      Retire(c, i);
      if c == old(freeList) {
        StillIsolated(m, memory, c);
      }
      JoinNext(c, i);
      JoinPrev(c, i);
      if c != old(freeList) {
        ReleaseWellFormed(bs, i, old(shape.lo), old(shape.hi));
      }
    }
  }

  // --------------------------------------------------- freeing a free block

  // c's links lead to c itself.
  function TiedToItself(m: Memory, c: Ptr): Memory
    requires c in m
  {
    PutRelPrev(PutRelNext(m, c, c), c, c)
  }

  // Head c was taken off a list: only its successor noticed.
  ghost predicate LostHead(m: Memory, m1: Memory, c: Ptr) {
    && c in m && m1.Keys == m.Keys && m1[c] == m[c].(relNext := 0, relPrev := 0, isFree := true)
    && forall p :: p in m && p != c ==> m1[p] == m[p].(relPrev := if p != 0 && p == m[c].relNext then 0 else m[p].relPrev)
  }

  // And then c was tied to itself.
  ghost predicate Tangled(m: Memory, m1: Memory, c: Ptr) {
    && c in m && m1.Keys == m.Keys && m1[c] == m[c].(relNext := c, relPrev := c, isFree := true)
    && forall p :: p in m && p != c ==> m1[p] == m[p].(relPrev := if p != 0 && p == m[c].relNext then 0 else m[p].relPrev)
  }

  lemma TangledFromParts(m: Memory, m1: Memory, m2: Memory, c: Ptr)
    requires LostHead(m, m1, c) && m2 == TiedToItself(m1, c)
    ensures Tangled(m, m2, c)
  {
  }

  // The neighbours of block c are not free.
  ghost predicate Isolated(m: Memory, c: Ptr) {
    && c in m
    && (m[c].next != 0 ==> m[c].next in m && !m[m[c].next].isFree)
    && (m[c].prev != 0 ==> m[c].prev in m && !m[m[c].prev].isFree)
  }

  lemma StillIsolated(m: Memory, m1: Memory, c: Ptr)
    requires Isolated(m, c) && Tangled(m, m1, c) && m[c].isFree
    ensures Isolated(m1, c)
  {
  }

  lemma HeadLost(m: Memory, c: Ptr)
    requires c in m && m[c].relPrev == 0 && (m[c].relNext != 0 ==> m[c].relNext in m)
    ensures LostHead(m, PutIsFree(PutRelPrev(PutRelNext(Unlinked(m, c), c, 0), c, 0), c, true), c)
  {
  }

  lemma HeadIsolated(m: Memory, sh: Shape, fl: Ptr, al: Ptr, i: nat)
    requires Structure(m, sh, fl, al, 0) && Coalesced(Blocks(m, sh.full)) && i < |sh.full|
    ensures sh.full[i] in m && (m[sh.full[i]].isFree ==> Isolated(m, sh.full[i]))
  {
    var bs := Blocks(m, sh.full);
    FullMember(m, sh, fl, al, 0, i);
    NextMember(m, sh, fl, al, i);
    PrevMember(m, sh, fl, al, i);
    assert i + 1 < |bs| ==> !(bs[i].free && bs[i+1].free);
    assert i > 0 ==> !(bs[i-1].free && bs[i].free);
    hide Structure, Coalesced;
  }

  // Taking block i off its relative list.  The head of the allocated list moves
  // as it should, unless the block is the head of the free list.
  lemma UnlinkStep(m: Memory, sh: Shape, fl: Ptr, al: Ptr, i: nat) returns (sh': Shape)
    requires Structure(m, sh, fl, al, 0) && i < |sh.full|
    ensures sh.full[i] in m
    ensures var c := m[sh.full[i]]; (c.relPrev != 0 ==> c.relPrev in m) && (c.relNext != 0 ==> c.relNext in m)
    ensures sh.full[i] in Unlinked(m, sh.full[i])
    ensures var c := sh.full[i];
      c != fl ==>
        && sh'.full == sh.full && sh'.lo == sh.lo && sh'.hi == sh.hi
        && Unlinked(m, c)[c] == m[c] && Blocks(Unlinked(m, c), sh.full) == Blocks(m, sh.full)
        && Structure(Unlinked(m, c), sh', fl, if m[c].relPrev == 0 then m[c].relNext else al, c)
    ensures sh.full[i] == fl ==> m[fl].relPrev == 0 && m[fl].isFree
  {
    hide Structure, Unlinked;
    FullMember(m, sh, fl, al, 0, i);
    HeadOf(m, sh, fl, al, 0);
    if m[sh.full[i]].isFree {
      var j := PositionIn(m, sh, fl, al, i);
      UnlinkFreeStep(m, sh, fl, al, j);
      sh' := sh.(frees := Links.Remove(sh.frees, j));
      hide Links.Remove;
      if j > 0 {
        EarlierNotNull(m, sh, fl, al, j);
      }
    } else {
      var j := PositionInAllocs(m, sh, fl, al, i);
      UnlinkAllocatedStep(m, sh, fl, al, j);
      sh' := sh.(allocs := Links.Remove(sh.allocs, j));
      HeadIsFree(m, sh, fl, al);
    }
  }

  lemma EarlierNotNull(m: Memory, sh: Shape, fl: Ptr, al: Ptr, j: nat)
    requires Structure(m, sh, fl, al, 0) && 0 < j < |sh.frees| && sh.frees[j] in m && RelEntry(m, sh.frees, j)
    ensures m[sh.frees[j]].relPrev != 0 && sh.frees[j] != fl
  {
    ListsOf(m, sh, fl, al, 0);
    assert sh.frees[j-1] in sh.frees && sh.frees[0] < sh.frees[j];
    hide FullList, RelList, Ordered, Classified;
  }

  lemma HeadIsFree(m: Memory, sh: Shape, fl: Ptr, al: Ptr)
    requires Structure(m, sh, fl, al, 0)
    ensures fl != 0 ==> fl in m && m[fl].isFree && fl in sh.full
  {
    assert sh.frees != [] ==> sh.frees[0] in sh.frees;
    hide FullList, RelList, Ordered;
  }

  // The search that ends at place k may go on just if that is not the head of
  // the free list.
  lemma MayFreeAt(m: Memory, sh: Shape, fl: Ptr, al: Ptr, ptr: int, k: nat)
    requires Structure(m, sh, fl, al, 0) && k == Reached(Blocks(m, sh.full), ptr)
    ensures MayFree(Blocks(m, sh.full), ptr) <==> k == |sh.full| || sh.full[k] != fl
    ensures k < |sh.full| ==> ptr == sh.full[k] + HEADER && sh.full[k] != 0 && sh.full[k] in m
  {
    hide Reached, MayFree;
    var bs := Blocks(m, sh.full);
    IsOrdered(m, sh, fl, al);
    MayFreeMeans(bs, ptr, sh.lo, sh.hi);
    var j := FirstFree(m, sh, fl, al);
    HeadIsFree(m, sh, fl, al);
    NullIsEnd(m, sh, fl, al, j);
    if k < |sh.full| {
      FullMember(m, sh, fl, al, 0, k);
    }
    if j < |sh.full| {
      FullMember(m, sh, fl, al, 0, j);
    }
    assert Increasing(sh.full);
    hide Structure;
    LowestFreeIs(bs, j);
    assert k < |sh.full| && sh.full[k] == fl ==> k == j;
  }

  lemma LowestFreeIs(bs: seq<Block>, k: nat)
    requires k <= |bs| && (k < |bs| ==> bs[k].free) && forall i :: 0 <= i < k ==> !bs[i].free
    ensures LowestFree(bs) == k
  {
  }

  // The walk of ThreadFreeBeyondHead has come to entry k.
  ghost predicate WalkedTo(m: Memory, t: seq<Ptr>, k: nat, c: Ptr, index: Ptr) {
    && k < |t| && index == t[k] && Walks(m, t, k, c) && index in m && m[index].relNext == At(t, k + 1)
    && (k == 0 ==> index < c) && (k > 0 ==> t[k-1] < c && Walks(m, t, k - 1, c))
  }

  // No heap looks like this: the first block of a free list has no
  // predecessor.
  lemma NoHeap(m: Memory, fl: Ptr, al: Ptr)
    requires fl != 0 && fl in m && m[fl].relPrev == fl
    ensures !exists sh: Shape :: Structure(m, sh, fl, al, 0)
  {
    forall sh: Shape ensures !Structure(m, sh, fl, al, 0) {
      hide Ordered, Addressed, Classified, FullList, Increasing;
    }
  }

  // After one allocation the rest of the heap is the first free block, with a
  // block below it.
  lemma SmallHeap(base: int)
    ensures var r := HeapSpec.Allocate([Block(base + HEADER, 972, true)], 100);
      && r == Outcome([Block(base + HEADER, 100, false), Block(base + 2 * HEADER + 100, 844, true)], base + HEADER)
      && !MayFree(r.blocks, base + 2 * HEADER + 100)
  {
    var bs := [Block(base + HEADER, 972, true)];
    assert FirstFit(bs, 100) == 0;
    CarveSplitsAt(bs, 0, 100);
    var cs := Carve(bs, 0, 100);
    LowestFreeIs(cs, 1);
  }

  // Freeing that block answers 0 and breaks the lists.
  method BreakSmallHeap(heap: HeapManager, base: Ptr) returns (code: int)
    requires 0 < base && base + 1000 <= WORD
    modifies heap
    ensures code == 0 && !heap.Sane()
    ensures heap.freeList in heap.memory && heap.memory[heap.freeList].relNext == heap.freeList
  {
    hide HeapManager.Valid, HeapManager.View, HeapManager.Sane, HeapSpec.Allocate, HeapSpec.Free, MayFree;
    SmallHeap(base);
    heap.Initialize(base, 1000);
    var p := heap.Allocate(100);
    code := heap.Free(p + 100 + HEADER);
  }

  lemma HeadOf(m: Memory, sh: Shape, fl: Ptr, al: Ptr, loose: Ptr)
    requires Structure(m, sh, fl, al, loose)
    ensures (sh.allocs == [] <==> al == 0) && (sh.allocs != [] ==> sh.allocs[0] == al)
    ensures (sh.frees == [] <==> fl == 0) && (sh.frees != [] ==> sh.frees[0] == fl)
  {
    hide Ordered, Addressed, Classified, Increasing, FullList;
  }

  lemma WalksFacts(m: Memory, t: seq<Ptr>, k: nat, c: Ptr)
    requires Walks(m, t, k, c)
    ensures k < |t| && t[k] in m && t[k] != 0 && t[k] != c && m[t[k]].startAddress == t[k] + HEADER
    ensures m[t[k]].relNext == At(t, k + 1)
    ensures k + 1 < |t| ==> t[k+1] in m && t[k+1] != 0 && t[k+1] != c && m[t[k+1]].startAddress == t[k+1] + HEADER
  {
  }

  lemma ThreadAlone(m: Memory, m': Memory, t: seq<Ptr>, c: Ptr)
    requires t == [] && c in m && c in m' && m' == m[c := m[c].(relNext := 0, relPrev := 0, isFree := m'[c].isFree)]
    ensures Threaded(m, m', t, 0, c)
  {
  }

  lemma CutApplies(m: Memory, sh: Shape, fl: Ptr, al: Ptr, i: nat, j: nat, n: nat)
    requires Structure(m, sh, fl, al, 0) && i < |sh.full| && j < |sh.frees| && sh.full[i] == sh.frees[j]
    requires Splits(BlockAt(m, sh.full[i]), n)
    ensures var c := sh.full[i];
      && c in m && m[c].startAddress == c + HEADER
      && forall p :: p == m[c].next || p == m[c].relNext || p == m[c].relPrev ==>
           p != 0 ==> p in m && p != c && p != c + HEADER + n
  {
    hide Structure, FullList, RelList, Ordered, Classified, Addressed, Splits;
    FullMember(m, sh, fl, al, 0, i);
    RemainderInGap(m, sh, fl, al, i, n);
    ListsOf(m, sh, fl, al, 0);
    EntryOfRel(m, sh.frees, j);
    GapNotMember(sh.full, i + 1, sh.full[i] + HEADER + n);
    hide Gap;
    assert i + 1 < |sh.full| ==> sh.full[i+1] in sh.full && sh.full[i] < sh.full[i+1];
    assert j + 1 < |sh.frees| ==> sh.frees[j+1] in sh.frees && sh.frees[j] < sh.frees[j+1];
    assert j > 0 ==> sh.frees[j-1] in sh.frees && sh.frees[j-1] < sh.frees[j];
  }

  // Why a block that becomes the new head of the allocated list has no
  // predecessor on the free list: with every block below it free and no two
  // neighbours free, it is the first block of all.
  lemma BelowAllAllocated(m: Memory, sh: Shape, fl: Ptr, al: Ptr, i: nat)
    requires Structure(m, sh, fl, al, 0) && Coalesced(Blocks(m, sh.full))
    requires i < |sh.full| && sh.full[i] in m && m[sh.full[i]].isFree
    requires sh.allocs != [] && sh.full[i] < sh.allocs[0]
    ensures m[sh.full[i]].relPrev == 0
  {
    hide Ordered, FullList, RelList;
    var bs, c := Blocks(m, sh.full), sh.full[i];
    ListsOf(m, sh, fl, al, 0);
    var p := if i > 0 then i - 1 else 0;
    assert sh.full[p] in sh.full && sh.full[p] < sh.allocs[0];
    assert bs[p].free && bs[i].free;
    assert i == 0;
    var j := PositionIn(m, sh, fl, al, i);
    assert j == 0 by {
      assert sh.frees[0] in sh.frees;
    }
    EntryOfRel(m, sh.frees, j);
  }

  lemma PositionIn(m: Memory, sh: Shape, fl: Ptr, al: Ptr, i: nat) returns (j: nat)
    requires Structure(m, sh, fl, al, 0) && i < |sh.full| && sh.full[i] in m && m[sh.full[i]].isFree
    ensures j < |sh.frees| && sh.frees[j] == sh.full[i]
  {
    hide Ordered, FullList, RelList, Classified;
    FullMember(m, sh, fl, al, 0, i);
    j := PositionOfFree(m, sh.full, sh.frees, sh.allocs, i);
  }

  // What granting block i needs to know of it: the size test does not wrap
  // around, and the quirk of the new head is harmless.
  lemma GrantFacts(m: Memory, sh: Shape, fl: Ptr, al: Ptr, i: nat, n: nat)
    requires Structure(m, sh, fl, al, 0) && Coalesced(Blocks(m, sh.full))
    requires i < |sh.full| && Fits(Blocks(m, sh.full)[i], n)
    ensures var c := sh.full[i];
      && c in m && c != 0 && m[c].isFree && m[c].startAddress == c + HEADER
      && Blocks(m, sh.full)[i] == BlockAt(m, c)
      && (m[c].size > Add32(n, HEADER) <==> Splits(BlockAt(m, c), n))
      && (sh.allocs != [] && c < sh.allocs[0] ==> m[c].relPrev == 0)
  {
    var c := sh.full[i];
    assert Blocks(m, sh.full)[i].End() <= WORD;
    SizeTestIsExact(BlockAt(m, c).size, c, n);
    hide Add32, Ordered, FullList, RelList, Classified, Increasing, Coalesced;
    FullMember(m, sh, fl, al, 0, i);
    if sh.allocs != [] && c < sh.allocs[0] {
      BelowAllAllocated(m, sh, fl, al, i);
    }
  }

  // The sum in the size test does not wrap around: the block lies inside the
  // address space, and the request is no larger than the block.
  lemma SizeTestIsExact(size: int, c: Ptr, n: nat)
    requires c > 0 && n <= size && c + HEADER + size <= WORD
    ensures size > Add32(n, HEADER) <==> size > n + HEADER
  {
  }

  lemma FinishCarve(bs: seq<Block>, i: nat, n: nat)
    requires i < |bs|
    ensures var cs := if Splits(bs[i], n) then Carve(bs, i, n)[i := Block(bs[i].start, n, true)] else bs;
      i < |cs| && cs[i := cs[i].(free := false)] == Carve(bs, i, n)
  {
    if Splits(bs[i], n) {
      CarveSplitsAt(bs, i, n);
    }
  }

  lemma NullIsEnd(m: Memory, sh: Shape, fl: Ptr, al: Ptr, k: nat)
    requires Structure(m, sh, fl, al, 0) && k <= |sh.full|
    ensures At(sh.full, k) == 0 <==> k == |sh.full|
    ensures k < |sh.full| ==> sh.full[k] in m
  {
    if k < |sh.full| {
      FullMember(m, sh, fl, al, 0, k);
    }
  }

  lemma FirstFitIs(bs: seq<Block>, n: nat, k: nat)
    requires k <= |bs| && (k < |bs| ==> Fits(bs[k], n))
    requires forall l :: 0 <= l < k ==> !Fits(bs[l], n)
    ensures FirstFit(bs, n) == k
  {
  }

  lemma ReachedIs(bs: seq<Block>, ptr: int, k: nat)
    requires FirstLive(bs) <= k <= |bs| && (k < |bs| ==> bs[k].start == ptr)
    requires forall l :: FirstLive(bs) <= l < k ==> bs[l].start != ptr
    ensures Reached(bs, ptr) == k
  {
  }

  lemma IsOrdered(m: Memory, sh: Shape, fl: Ptr, al: Ptr)
    requires Structure(m, sh, fl, al, 0)
    ensures Ordered(Blocks(m, sh.full), sh.lo, sh.hi)
  {
  }

  lemma GapBound(s: seq<Ptr>, k: nat, c: Ptr)
    requires Gap(s, k, c)
    ensures k <= |s|
  {
  }

  lemma PositionInAllocs(m: Memory, sh: Shape, fl: Ptr, al: Ptr, i: nat) returns (j: nat)
    requires Structure(m, sh, fl, al, 0) && i < |sh.full| && sh.full[i] in m && !m[sh.full[i]].isFree
    ensures j < |sh.allocs| && sh.allocs[j] == sh.full[i]
  {
    hide Ordered, FullList, RelList, Classified;
    FullMember(m, sh, fl, al, 0, i);
    j := PositionOfAllocated(m, sh.full, sh.frees, sh.allocs, i);
  }

  lemma NextMember(m: Memory, sh: Shape, fl: Ptr, al: Ptr, i: nat)
    requires Structure(m, sh, fl, al, 0) && i < |sh.full|
    ensures i + 1 < |sh.full| ==> Blocks(m, sh.full)[i+1].free == m[sh.full[i+1]].isFree
    ensures i + 1 < |sh.full| ==> sh.full[i+1] in m
  {
    if i + 1 < |sh.full| {
      FullMember(m, sh, fl, al, 0, i + 1);
    }
  }

  lemma PrevMember(m: Memory, sh: Shape, fl: Ptr, al: Ptr, i: nat)
    requires Structure(m, sh, fl, al, 0) && i < |sh.full|
    ensures i > 0 ==> sh.full[i-1] in m && Blocks(m, sh.full)[i-1].free == m[sh.full[i-1]].isFree
  {
    if i > 0 {
      FullMember(m, sh, fl, al, 0, i - 1);
    }
  }

  // The two stages of a merge.
  ghost predicate Absorbed(m: Memory, m1: Memory, c: Ptr, d: Ptr) {
    && c in m && d in m && c != d && m1.Keys == m.Keys
    && m1[c] == m[c].(size := m[c].size + m[d].size, relNext := m[d].relNext)
    && m1[d] == m[d].(relNext := 0, relPrev := 0)
    && (forall p :: p in m && p != c && p != d ==>
          m1[p] == m[p].(relPrev := if p != 0 && p == m[d].relNext then c else m[p].relPrev))
  }

  ghost predicate Bypassed(m1: Memory, m2: Memory, c: Ptr, d: Ptr) {
    && c in m1 && d in m1 && c != d && m2.Keys == m1.Keys
    && m2[c] == m1[c].(next := m1[d].next)
    && m2[d] == m1[d].(next := 0, prev := 0)
    && (forall p :: p in m1 && p != c && p != d ==>
          m2[p] == m1[p].(prev := if p != 0 && p == m1[d].next then c else m1[p].prev))
  }

  lemma SwallowedFromParts(m: Memory, m1: Memory, m2: Memory, c: Ptr, d: Ptr)
    requires Absorbed(m, m1, c, d) && Bypassed(m1, m2, c, d)
    ensures Swallowed(m, m2, c, d)
  {
  }

  lemma SwallowApplies(m: Memory, sh: Shape, fl: Ptr, al: Ptr, i: nat)
    requires Structure(m, sh, fl, al, 0) && i + 1 < |sh.full|
    requires Blocks(m, sh.full)[i].free && Blocks(m, sh.full)[i+1].free
    ensures var c, d := sh.full[i], sh.full[i+1];
      && c in m && d in m && c != d && m[c].next == d && m[c].isFree && m[d].isFree
      && (m[d].relNext != 0 ==> m[d].relNext in m && m[d].relNext != c && m[d].relNext != d)
      && (m[d].next != 0 ==> m[d].next in m && m[d].next != c && m[d].next != d)
  {
    hide Structure, FullList, RelList, Classified;
    FullMember(m, sh, fl, al, 0, i);
    FullMember(m, sh, fl, al, 0, i + 1);
    ListsOf(m, sh, fl, al, 0);
    var j := PositionIn(m, sh, fl, al, i + 1);
    EntryOfRel(m, sh.frees, j);
    assert sh.full[i] < sh.full[i+1];
    assert i + 2 < |sh.full| ==> sh.full[i+1] < sh.full[i+2];
    assert j + 1 < |sh.frees| ==> sh.frees[j] < sh.frees[j+1];
  }
}
