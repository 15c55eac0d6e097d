/**
 The structural invariant of the heap manager, and what each piece of pointer
 surgery does to it.
 */
module HeapStructure {
  import opened Links
  import opened HeapSpec
  import opened HeapMemory

  // Addresses and sizes are 32 bits wide.
  const WORD: nat := 0x1_0000_0000

  // The lists threaded through memory, as sequences, and the arena's bounds.
  datatype Shape = Shape(full: seq<Ptr>, frees: seq<Ptr>, allocs: seq<Ptr>, lo: nat, hi: nat)

  // Everything but coalescing; `loose` is on neither relative list.
  ghost predicate Structure(m: Memory, sh: Shape, freeList: Ptr, allocatedList: Ptr, loose: Ptr) {
    && Linked(m, sh.full, sh.frees, sh.allocs, loose)
    && Addressed(m, sh.full)
    && Ordered(Blocks(m, sh.full), sh.lo, sh.hi) && sh.hi <= WORD
    && freeList == At(sh.frees, 0) && allocatedList == At(sh.allocs, 0)
  }

  // ----------------------------------------------------------- members, heads

  lemma FullMember(m: Memory, sh: Shape, fl: Ptr, al: Ptr, loose: Ptr, i: nat)
    requires Structure(m, sh, fl, al, loose) && i < |sh.full|
    ensures sh.full[i] in m && sh.full[i] != 0 && m[sh.full[i]].startAddress == sh.full[i] + HEADER
    ensures m[sh.full[i]].next == At(sh.full, i + 1) && m[sh.full[i]].prev == At(sh.full, i - 1)
    ensures i > 0 ==> sh.full[i-1] in m && sh.full[i-1] != 0
    ensures i + 1 < |sh.full| ==> sh.full[i+1] in m && sh.full[i+1] != 0
    ensures Blocks(m, sh.full)[i] == BlockAt(m, sh.full[i])
  {
    EntryOfFull(m, sh.full, i);
    assert sh.full[i] in sh.full;
    hide FullList, RelList, Ordered, Increasing, Classified;
  }

  lemma ListsOf(m: Memory, sh: Shape, fl: Ptr, al: Ptr, loose: Ptr)
    requires Structure(m, sh, fl, al, loose)
    ensures Linked(m, sh.full, sh.frees, sh.allocs, loose)
    ensures forall p :: p in sh.frees ==> p in sh.full
    ensures forall p :: p in sh.allocs ==> p in sh.full
    ensures 0 !in sh.full
  {
    hide Ordered, Increasing, Addressed;
  }

  // The head of an address-ordered sublist is the first of its members.
  lemma HeadOfSublist(full: seq<Ptr>, t: seq<Ptr>) returns (k: nat)
    requires Increasing(full) && Increasing(t) && (forall p :: p in t ==> p in full)
    requires 0 !in full
    ensures k <= |full| && At(full, k) == At(t, 0)
    ensures forall l :: 0 <= l < k ==> full[l] !in t
  {
    if t == [] {
      k := |full|;
    } else {
      assert t[0] in t;
      k :| 0 <= k < |full| && full[k] == t[0];
      forall l | 0 <= l < k ensures full[l] !in t {
        assert full[l] < t[0];
      }
    }
  }

  lemma FirstFree(m: Memory, sh: Shape, fl: Ptr, al: Ptr) returns (k: nat)
    requires Structure(m, sh, fl, al, 0)
    ensures k <= |sh.full| && At(sh.full, k) == fl
    ensures forall l :: 0 <= l < k ==> !Blocks(m, sh.full)[l].free
  {
    hide Ordered, RelList;
    k := HeadOfSublist(sh.full, sh.frees);
    forall l | 0 <= l < k ensures !Blocks(m, sh.full)[l].free {
      assert sh.full[l] in sh.full;
    }
  }

  lemma FirstAllocated(m: Memory, sh: Shape, fl: Ptr, al: Ptr)
    requires Structure(m, sh, fl, al, 0)
    ensures At(sh.full, FirstLive(Blocks(m, sh.full))) == al
  {
    hide Ordered, RelList;
    var k := HeadOfSublist(sh.full, sh.allocs);
    var bs := Blocks(m, sh.full);
    forall l | 0 <= l < k ensures bs[l].free {
      assert sh.full[l] in sh.full;
    }
    if k < |sh.full| {
      assert sh.allocs[0] in sh.allocs;
      assert !bs[k].free;
    }
    assert FirstLive(bs) == k;
  }

  // -------------------------------------------------------------- unlinking

  lemma LoosenFree(m: Memory, m': Memory, full: seq<Ptr>, frees: seq<Ptr>, frees': seq<Ptr>, allocs: seq<Ptr>, j: nat)
    requires Classified(m, full, frees, allocs, 0) && RelOnly(m, m', frees) && Increasing(frees)
    requires RemovesAt(frees, frees', j) && 0 !in full
    ensures Classified(m', full, frees', allocs, frees[j])
  {
    RemoveMembers(frees, frees', j);
    assert frees[j] in frees;
    assert forall p :: p in m' <==> p in m;
    assert forall p :: p in m ==> m'[p].isFree == m[p].isFree;
    hide Increasing, RemovesAt, RelOnly;
  }

  lemma LoosenAllocated(m: Memory, m': Memory, full: seq<Ptr>, frees: seq<Ptr>, allocs: seq<Ptr>, allocs': seq<Ptr>, j: nat)
    requires Classified(m, full, frees, allocs, 0) && RelOnly(m, m', allocs) && Increasing(allocs)
    requires RemovesAt(allocs, allocs', j) && 0 !in full
    ensures Classified(m', full, frees, allocs', allocs[j])
  {
    RemoveMembers(allocs, allocs', j);
    assert allocs[j] in allocs;
    assert forall p :: p in m' <==> p in m;
    assert forall p :: p in m ==> m'[p].isFree == m[p].isFree;
    hide Increasing, RemovesAt, RelOnly;
  }

  // The head pointer of a list after entry j is unlinked.
  lemma HeadAfterRemove(m: Memory, s: seq<Ptr>, j: nat)
    requires j < |s| && RelEntry(m, s, j) && Increasing(s) && 0 !in s
    ensures At(Remove(s, j), 0) == if m[s[j]].relPrev == 0 then m[s[j]].relNext else At(s, 0)
  {
    assert j > 0 ==> s[j-1] in s;
  }

  lemma NotNull(m: Memory, full: seq<Ptr>, s: seq<Ptr>)
    requires FullList(m, full) && RelList(m, s)
    ensures 0 !in s && 0 !in full
  {
  }

  lemma UnlinkFreeStep(m: Memory, sh: Shape, fl: Ptr, al: Ptr, j: nat)
    requires Structure(m, sh, fl, al, 0) && j < |sh.frees|
    ensures RelEntry(m, sh.frees, j)
    ensures var c := m[sh.frees[j]]; (c.relPrev != 0 ==> c.relPrev in m) && (c.relNext != 0 ==> c.relNext in m)
    ensures var c := sh.frees[j];
      var m' := Unlinked(m, c);
      var fl' := if m[c].relPrev == 0 then m[c].relNext else fl;
      && c in m' && m'[c] == m[c] && Blocks(m', sh.full) == Blocks(m, sh.full)
      && Structure(m', sh.(frees := Remove(sh.frees, j)), fl', al, c)
  {
    hide Ordered, Increasing, RelList, FullList, Unlinked, Addressed, Classified, Remove, RelOnly;
    var c, s' := sh.frees[j], Remove(sh.frees, j);
    EntryOfRel(m, sh.frees, j);
    RemoveIs(sh.frees, j);
    UnlinkedRemoves(m, sh.frees, s', j);
    var m' := Unlinked(m, c);
    NotNull(m, sh.full, sh.frees);
    FreesAreNotAllocs(m, sh.full, sh.frees, sh.allocs, 0);
    RelOnlyKeeps(m, m', sh.frees, sh.full, sh.allocs);
    RemoveIncreasing(sh.frees, s', j);
    LoosenFree(m, m', sh.full, sh.frees, s', sh.allocs, j);
    HeadAfterRemove(m, sh.frees, j);
  }

  lemma FreesAreNotAllocs(m: Memory, full: seq<Ptr>, frees: seq<Ptr>, allocs: seq<Ptr>, loose: Ptr)
    requires Classified(m, full, frees, allocs, loose)
    ensures forall p :: p in allocs ==> p !in frees
    ensures forall p :: p in frees ==> p !in allocs
  {
  }

  lemma UnlinkAllocatedStep(m: Memory, sh: Shape, fl: Ptr, al: Ptr, j: nat)
    requires Structure(m, sh, fl, al, 0) && j < |sh.allocs|
    ensures RelEntry(m, sh.allocs, j)
    ensures var c := m[sh.allocs[j]]; (c.relPrev != 0 ==> c.relPrev in m) && (c.relNext != 0 ==> c.relNext in m)
    ensures var c := sh.allocs[j];
      var m' := Unlinked(m, c);
      var al' := if m[c].relPrev == 0 then m[c].relNext else al;
      && c in m' && m'[c] == m[c] && Blocks(m', sh.full) == Blocks(m, sh.full)
      && Structure(m', sh.(allocs := Remove(sh.allocs, j)), fl, al', c)
  {
    hide Ordered, Increasing, RelList, FullList, Unlinked, Addressed, Classified, Remove, RelOnly;
    var c, s' := sh.allocs[j], Remove(sh.allocs, j);
    EntryOfRel(m, sh.allocs, j);
    RemoveIs(sh.allocs, j);
    UnlinkedRemoves(m, sh.allocs, s', j);
    var m' := Unlinked(m, c);
    NotNull(m, sh.full, sh.allocs);
    FreesAreNotAllocs(m, sh.full, sh.frees, sh.allocs, 0);
    RelOnlyKeeps(m, m', sh.allocs, sh.full, sh.frees);
    RemoveIncreasing(sh.allocs, s', j);
    LoosenAllocated(m, m', sh.full, sh.frees, sh.allocs, s', j);
    HeadAfterRemove(m, sh.allocs, j);
  }

  // A loose block may change its own relative links and its flag.
  ghost predicate Retouched(m: Memory, m': Memory, c: Ptr) {
    && c in m && m'.Keys == m.Keys && (forall p :: p in m && p != c ==> m'[p] == m[p])
    && m'[c] == m[c].(relNext := m'[c].relNext, relPrev := m'[c].relPrev, isFree := m'[c].isFree)
  }

  lemma RetouchedLists(m: Memory, m': Memory, c: Ptr, full: seq<Ptr>, s: seq<Ptr>)
    requires Retouched(m, m', c) && FullList(m, full) && RelList(m, s) && c !in s
    ensures FullList(m', full) && RelList(m', s)
  {
    assert forall i :: 0 <= i < |full| ==> m'[full[i]].next == m[full[i]].next && m'[full[i]].prev == m[full[i]].prev;
    assert forall i :: 0 <= i < |s| ==> s[i] in s && m'[s[i]] == m[s[i]];
  }

  lemma RetouchedBlocks(m: Memory, m': Memory, c: Ptr, full: seq<Ptr>, i: nat)
    requires Retouched(m, m', c) && i < |full| && full[i] == c && Increasing(full)
    ensures var bs := Blocks(m, full);
      Blocks(m', full) == bs[i := bs[i].(free := m'[c].isFree)]
  {
  }

  // Marking a block free or allocated moves nothing.
  lemma FlagOrdered(bs: seq<Block>, i: nat, free: bool, lo: int, hi: int)
    requires Ordered(bs, lo, hi) && i < |bs|
    ensures Ordered(bs[i := bs[i].(free := free)], lo, hi)
  {
  }

  lemma RetouchStep(m: Memory, m': Memory, sh: Shape, fl: Ptr, al: Ptr, i: nat)
    requires i < |sh.full| && sh.full[i] != 0 && Structure(m, sh, fl, al, sh.full[i]) && Retouched(m, m', sh.full[i])
    ensures Structure(m', sh, fl, al, sh.full[i])
    ensures var bs := Blocks(m, sh.full);
      Blocks(m', sh.full) == bs[i := bs[i].(free := m'[sh.full[i]].isFree)]
  {
    hide Ordered, Increasing, RelList, FullList;
    var c := sh.full[i];
    RetouchedLists(m, m', c, sh.full, sh.frees);
    RetouchedLists(m, m', c, sh.full, sh.allocs);
    RetouchedBlocks(m, m', c, sh.full, i);
    FlagOrdered(Blocks(m, sh.full), i, m'[c].isFree, sh.lo, sh.hi);
  }

  // ---------------------------------------------------------------- linking

  lemma ThreadedBlocks(m: Memory, m': Memory, s: seq<Ptr>, k: nat, c: Ptr, full: seq<Ptr>, i: nat)
    requires Threaded(m, m', s, k, c) && i < |full| && full[i] == c && Increasing(full)
    ensures var bs := Blocks(m, full);
      Blocks(m', full) == bs[i := bs[i].(free := m'[c].isFree)]
  {
    hide RelList;
  }

  // c sits in the gap before position k of an address-ordered list.
  ghost predicate Gap(s: seq<Ptr>, k: nat, c: Ptr) {
    k <= |s| && (k > 0 ==> s[k-1] < c) && (k < |s| ==> c < s[k])
  }

  lemma TightenAllocated(m: Memory, m': Memory, full: seq<Ptr>, frees: seq<Ptr>, allocs: seq<Ptr>, allocs': seq<Ptr>, k: nat, c: Ptr)
    requires Classified(m, full, frees, allocs, c) && Threaded(m, m', allocs, k, c)
    requires InsertsAt(allocs, allocs', k, c) && c in full && 0 !in full && !m'[c].isFree
    ensures Classified(m', full, frees, allocs', 0)
  {
    InsertMembers(allocs, allocs', k, c);
    assert forall p :: p in m' <==> p in m;
    assert forall p :: p in m && p != c ==> m'[p].isFree == m[p].isFree;
    hide Threaded, InsertsAt;
  }

  lemma TightenFree(m: Memory, m': Memory, full: seq<Ptr>, frees: seq<Ptr>, frees': seq<Ptr>, allocs: seq<Ptr>, k: nat, c: Ptr)
    requires Classified(m, full, frees, allocs, c) && Threaded(m, m', frees, k, c)
    requires InsertsAt(frees, frees', k, c) && c in full && 0 !in full && m'[c].isFree
    ensures Classified(m', full, frees', allocs, 0)
  {
    InsertMembers(frees, frees', k, c);
    assert forall p :: p in m' <==> p in m;
    assert forall p :: p in m && p != c ==> m'[p].isFree == m[p].isFree;
    hide Threaded, InsertsAt;
  }

  lemma LinkAllocatedStep(m: Memory, m': Memory, sh: Shape, fl: Ptr, al: Ptr, i: nat, k: nat)
    requires i < |sh.full| && Structure(m, sh, fl, al, sh.full[i])
    requires Threaded(m, m', sh.allocs, k, sh.full[i]) && Gap(sh.allocs, k, sh.full[i]) && !m'[sh.full[i]].isFree
    ensures Structure(m', sh.(allocs := Insert(sh.allocs, k, sh.full[i])), fl, if k == 0 then sh.full[i] else al, 0)
    ensures var bs := Blocks(m, sh.full);
      Blocks(m', sh.full) == bs[i := bs[i].(free := false)]
  {
    hide Ordered, Increasing, RelList, FullList, Insert, Threaded, Classified;
    var c, s, s' := sh.full[i], sh.allocs, Insert(sh.allocs, k, sh.full[i]);
    NotNull(m, sh.full, s);
    FreesAreNotAllocs(m, sh.full, sh.frees, s, c);
    LooseOnNoList(m, sh.full, sh.frees, s, c);
    InsertIs(s, k, c);
    ThreadedInserts(m, m', s, s', k, c);
    ThreadedKeeps(m, m', s, k, c, sh.full, sh.frees);
    InsertIncreasing(s, s', k, c);
    TightenAllocated(m, m', sh.full, sh.frees, s, s', k, c);
    ThreadedBlocks(m, m', s, k, c, sh.full, i);
    FlagOrdered(Blocks(m, sh.full), i, false, sh.lo, sh.hi);
  }

  lemma LinkFreeStep(m: Memory, m': Memory, sh: Shape, fl: Ptr, al: Ptr, i: nat, k: nat)
    requires i < |sh.full| && Structure(m, sh, fl, al, sh.full[i])
    requires Threaded(m, m', sh.frees, k, sh.full[i]) && Gap(sh.frees, k, sh.full[i])
    requires m[sh.full[i]].isFree && m'[sh.full[i]].isFree
    ensures Structure(m', sh.(frees := Insert(sh.frees, k, sh.full[i])), if k == 0 then sh.full[i] else fl, al, 0)
    ensures Blocks(m', sh.full) == Blocks(m, sh.full)
  {
    hide Ordered, Increasing, RelList, FullList, Insert, Threaded, Classified;
    var c, s, s' := sh.full[i], sh.frees, Insert(sh.frees, k, sh.full[i]);
    NotNull(m, sh.full, s);
    FreesAreNotAllocs(m, sh.full, s, sh.allocs, c);
    LooseOnNoList(m, sh.full, s, sh.allocs, c);
    InsertIs(s, k, c);
    ThreadedInserts(m, m', s, s', k, c);
    ThreadedKeeps(m, m', s, k, c, sh.full, sh.allocs);
    InsertIncreasing(s, s', k, c);
    TightenFree(m, m', sh.full, s, s', sh.allocs, k, c);
    ThreadedBlocks(m, m', s, k, c, sh.full, i);
    assert Blocks(m', sh.full) == Blocks(m, sh.full);
  }

  lemma LooseOnNoList(m: Memory, full: seq<Ptr>, frees: seq<Ptr>, allocs: seq<Ptr>, loose: Ptr)
    requires Classified(m, full, frees, allocs, loose)
    ensures loose !in frees && loose !in allocs
  {
  }

  // -------------------------------------------------------------- splitting

  // The address of the remainder's header falls in the gap above c.
  lemma RemainderInGap(m: Memory, sh: Shape, fl: Ptr, al: Ptr, i: nat, n: nat)
    requires i < |sh.full| && Structure(m, sh, fl, al, 0) && Splits(BlockAt(m, sh.full[i]), n)
    ensures Gap(sh.full, i + 1, sh.full[i] + HEADER + n)
    ensures sh.full[i] + HEADER + n + HEADER < sh.hi
  {
    var bs, c := Blocks(m, sh.full), sh.full[i];
    hide RelList, FullList, Increasing, Classified;
    assert c in sh.full && bs[i] == BlockAt(m, c);
    if i + 1 < |sh.full| {
      assert sh.full[i+1] in sh.full && bs[i+1] == BlockAt(m, sh.full[i+1]);
      assert bs[i].End() <= bs[i+1].Header();
    }
  }

  lemma GapNotMember(s: seq<Ptr>, k: nat, d: Ptr)
    requires Increasing(s) && Gap(s, k, d)
    ensures d !in s
    ensures forall p :: p in s ==> (p < d <==> k > 0 && p <= s[k-1])
  {
    forall l | 0 <= l < |s| ensures s[l] != d && (s[l] < d <==> k > 0 && s[l] <= s[k-1]) {
      assert l < k ==> s[l] <= s[k-1];
      assert k < l ==> s[k] <= s[l];
    }
  }

  lemma ReplaceIncreasing(full: seq<Ptr>, i: nat, frees: seq<Ptr>, j: nat, d: Ptr)
    requires Increasing(full) && Increasing(frees) && (forall p :: p in frees ==> p in full)
    requires i < |full| && j < |frees| && full[i] == frees[j] && Gap(full, i + 1, d)
    ensures Increasing(frees[j := d])
  {
    GapNotMember(full, i + 1, d);
    hide Gap;
    var t := frees[j := d];
    forall a, b | 0 <= a < b < |t| ensures t[a] < t[b] {
      assert frees[a] < frees[b];
      assert frees[a] in frees && frees[b] in frees;
      assert a == j ==> !(frees[b] < d) && frees[b] != d;
    }
  }

  lemma CutAddressed(m: Memory, m': Memory, full: seq<Ptr>, full': seq<Ptr>, i: nat, n: nat)
    requires i < |full| && Addressed(m, full) && full[i] in m
    requires Cut(m, m', full[i], full[i] + HEADER + n, n) && InsertsAt(full, full', i + 1, full[i] + HEADER + n)
    ensures Addressed(m', full')
  {
    InsertMembers(full, full', i + 1, full[i] + HEADER + n);
    assert full[i] in full;
    hide InsertsAt;
  }

  lemma CutOrdered(bs: seq<Block>, i: nat, n: nat, lo: int, hi: int)
    requires Ordered(bs, lo, hi) && i < |bs| && Splits(bs[i], n)
    ensures Ordered(Carve(bs, i, n)[i := Block(bs[i].start, n, true)], lo, hi)
  {
    hide Ordered, Carve;
    CarveSplitsAt(bs, i, n);
    var cs := Carve(bs, i, n);
    SplitOrdered(bs, cs, i, n, lo, hi);
    FlagOrdered(cs, i, true, lo, hi);
    assert cs[i].(free := true) == Block(bs[i].start, n, true);
  }

  lemma CutStep(m: Memory, m': Memory, sh: Shape, fl: Ptr, al: Ptr, i: nat, j: nat, n: nat)
    requires Structure(m, sh, fl, al, 0) && i < |sh.full| && j < |sh.frees| && sh.full[i] == sh.frees[j]
    requires Splits(BlockAt(m, sh.full[i]), n)
    requires Cut(m, m', sh.full[i], sh.full[i] + HEADER + n, n)
    ensures var c := sh.full[i];
      var d := c + HEADER + n;
      Structure(m', sh.(full := Insert(sh.full, i + 1, d), frees := sh.frees[j := d]), if m[c].relPrev == 0 then d else fl, al, c)
    ensures var bs := Blocks(m, sh.full);
      i < |bs| && Blocks(m', Insert(sh.full, i + 1, sh.full[i] + HEADER + n)) == Carve(bs, i, n)[i := Block(bs[i].start, n, true)]
  {
    hide Ordered, Increasing, RelList, FullList, Insert, Cut, Classified, Carve, Gap, InsertsAt, Addressed;
    var c, d := sh.full[i], sh.full[i] + HEADER + n;
    var full', frees' := Insert(sh.full, i + 1, d), sh.frees[j := d];
    InsertIs(sh.full, i + 1, d);
    RemainderInGap(m, sh, fl, al, i, n);
    GapNotMember(sh.full, i + 1, d);
    Sublists(m, sh.full, sh.frees, sh.allocs, 0);
    FreesAreNotAllocs(m, sh.full, sh.frees, sh.allocs, 0);
    NotNull(m, sh.full, sh.frees);
    CutFull(m, m', sh.full, full', i, d, n);
    CutFrees(m, m', sh.frees, frees', j, d, n);
    CutAllocs(m, m', sh.frees, sh.allocs, j, d, n);
    FullMember(m, sh, fl, al, 0, i);
    FlagOfFree(m, sh.full, sh.frees, sh.allocs, j);
    InMemory(m, sh.full);
    CutRest(m, m', sh, full', frees', i, j, n);
    EntryOfRel(m, sh.frees, j);
    assert At(frees', 0) == if m[c].relPrev == 0 then d else fl by {
      assert j > 0 ==> sh.frees[j-1] != 0;
    }
  }

  lemma CutRest(m: Memory, m': Memory, sh: Shape, full': seq<Ptr>, frees': seq<Ptr>, i: nat, j: nat, n: nat)
    requires Linked(m, sh.full, sh.frees, sh.allocs, 0) && Addressed(m, sh.full)
    requires Ordered(Blocks(m, sh.full), sh.lo, sh.hi)
    requires i < |sh.full| && j < |sh.frees| && sh.full[i] == sh.frees[j] && Splits(BlockAt(m, sh.full[i]), n)
    requires sh.full[i] in m && m[sh.full[i]].isFree && (forall p :: p in sh.full ==> p in m)
    requires forall p :: p in sh.frees ==> p in sh.full
    requires var d := sh.full[i] + HEADER + n;
      && Gap(sh.full, i + 1, d) && d !in sh.full && 0 !in sh.full
      && InsertsAt(sh.full, full', i + 1, d) && frees' == sh.frees[j := d]
      && Cut(m, m', sh.full[i], d, n)
    ensures Increasing(full') && Increasing(frees')
    ensures Classified(m', full', frees', sh.allocs, sh.full[i]) && Addressed(m', full')
    ensures var bs := Blocks(m, sh.full);
      && Blocks(m', full') == Carve(bs, i, n)[i := Block(bs[i].start, n, true)]
      && Ordered(Blocks(m', full'), sh.lo, sh.hi)
  {
    hide Ordered, Increasing, RelList, FullList, Insert, Cut, Classified, Carve, InsertsAt, Addressed;
    var d := sh.full[i] + HEADER + n;
    InsertIncreasing(sh.full, full', i + 1, d);
    ReplaceIncreasing(sh.full, i, sh.frees, j, d);
    CutClassified(m, m', sh.full, full', sh.frees, sh.allocs, i, j, d, n);
    CutAddressed(m, m', sh.full, full', i, n);
    CutBlocks(m, m', sh.full, full', i, d, n);
    CutOrdered(Blocks(m, sh.full), i, n, sh.lo, sh.hi);
  }

  lemma Sublists(m: Memory, full: seq<Ptr>, frees: seq<Ptr>, allocs: seq<Ptr>, loose: Ptr)
    requires Classified(m, full, frees, allocs, loose)
    ensures forall p :: p in frees ==> p in full
    ensures forall p :: p in allocs ==> p in full
  {
  }

  lemma FlagOfFree(m: Memory, full: seq<Ptr>, frees: seq<Ptr>, allocs: seq<Ptr>, j: nat)
    requires Classified(m, full, frees, allocs, 0) && j < |frees|
    ensures frees[j] in m && m[frees[j]].isFree
  {
    assert frees[j] in frees;
  }

  lemma InMemory(m: Memory, full: seq<Ptr>)
    requires Addressed(m, full)
    ensures forall p :: p in full ==> p in m
  {
  }

  lemma PositionOfFree(m: Memory, full: seq<Ptr>, frees: seq<Ptr>, allocs: seq<Ptr>, i: nat) returns (j: nat)
    requires Classified(m, full, frees, allocs, 0) && i < |full| && full[i] != 0 && full[i] in m && m[full[i]].isFree
    ensures j < |frees| && frees[j] == full[i] && full[i] in frees
  {
    assert full[i] in full;
    j :| 0 <= j < |frees| && frees[j] == full[i];
  }

  lemma PositionOfAllocated(m: Memory, full: seq<Ptr>, frees: seq<Ptr>, allocs: seq<Ptr>, i: nat) returns (j: nat)
    requires Classified(m, full, frees, allocs, 0) && i < |full| && full[i] != 0 && full[i] in m && !m[full[i]].isFree
    ensures j < |allocs| && allocs[j] == full[i] && full[i] in allocs
  {
    assert full[i] in full;
    j :| 0 <= j < |allocs| && allocs[j] == full[i];
  }

  // ---------------------------------------------------------------- merging

  lemma SwallowAddressed(m: Memory, m': Memory, full: seq<Ptr>, full': seq<Ptr>, i: nat)
    requires Addressed(m, full) && Increasing(full) && i + 1 < |full|
    requires Swallowed(m, m', full[i], full[i+1]) && RemovesAt(full, full', i + 1)
    ensures Addressed(m', full')
  {
    RemoveMembers(full, full', i + 1);
    hide RemovesAt, Increasing;
  }

  lemma SwallowStep(m: Memory, m': Memory, sh: Shape, fl: Ptr, al: Ptr, i: nat) returns (sh': Shape)
    requires Structure(m, sh, fl, al, 0) && i + 1 < |sh.full|
    requires Swallowed(m, m', sh.full[i], sh.full[i+1]) && m[sh.full[i]].isFree && m[sh.full[i+1]].isFree
    ensures Structure(m', sh', fl, al, 0)
    ensures sh'.full == Remove(sh.full, i + 1) && sh'.lo == sh.lo && sh'.hi == sh.hi
    ensures Blocks(m', sh'.full) == Merge(Blocks(m, sh.full), i)
  {
    hide Ordered, Increasing, RelList, FullList, Remove, Swallowed, Classified, Addressed, RemovesAt, Merge;
    FullMember(m, sh, fl, al, 0, i);
    FullMember(m, sh, fl, al, 0, i + 1);
    var j := PositionOfFree(m, sh.full, sh.frees, sh.allocs, i);
    var j' := PositionOfFree(m, sh.full, sh.frees, sh.allocs, i + 1);
    InMemory(m, sh.full);
    Sublists(m, sh.full, sh.frees, sh.allocs, 0);
    FreesAreNotAllocs(m, sh.full, sh.frees, sh.allocs, 0);
    NeighboursInSublist(sh.full, i, sh.frees, j);
    sh' := sh.(full := Remove(sh.full, i + 1), frees := Remove(sh.frees, j + 1));
    RemoveIs(sh.full, i + 1);
    RemoveIs(sh.frees, j + 1);
    SwallowedFull(m, m', sh.full, sh'.full, i);
    SwallowedFrees(m, m', sh.frees, sh'.frees, j);
    SwallowedAllocs(m, m', sh.frees, sh.allocs, j);
    SwallowedClassified(m, m', sh.full, sh'.full, sh.frees, sh'.frees, sh.allocs, i, j);
    RemoveIncreasing(sh.full, sh'.full, i + 1);
    RemoveIncreasing(sh.frees, sh'.frees, j + 1);
    SwallowAddressed(m, m', sh.full, sh'.full, i);
    SwallowedBlocks(m, m', sh.full, sh'.full, i);
    MergeIsMergedAt(Blocks(m, sh.full), i);
    MergedOrdered(Blocks(m, sh.full), Merge(Blocks(m, sh.full), i), i, sh.lo, sh.hi);
    HeadUnmoved(sh.frees, j + 1);
  }

  lemma HeadUnmoved(s: seq<Ptr>, k: nat)
    requires 0 < k < |s|
    ensures At(Remove(s, k), 0) == At(s, 0)
  {
  }

  // ------------------------------------------------- walking a relative list

  // Entry k of an address-ordered list t of blocks that c is not on.
  ghost predicate Walks(m: Memory, t: seq<Ptr>, k: nat, c: Ptr) {
    && RelEntry(m, t, k) && t[k] != c && m[t[k]].startAddress == t[k] + HEADER
    && (k + 1 < |t| ==> t[k+1] in m && t[k+1] != 0 && t[k+1] != c && t[k] < t[k+1]
                        && m[t[k+1]].startAddress == t[k+1] + HEADER && m[t[k+1]].relPrev == t[k])
  }

  lemma WalkAllocated(m: Memory, sh: Shape, fl: Ptr, al: Ptr, c: Ptr, k: nat)
    requires Structure(m, sh, fl, al, c) && k < |sh.allocs|
    ensures Walks(m, sh.allocs, k, c)
  {
    hide Ordered, RelList, FullList, RelEntry;
    ListsOf(m, sh, fl, al, c);
    EntryOfRel(m, sh.allocs, k);
    assert sh.allocs[k] in sh.allocs;
    if k + 1 < |sh.allocs| {
      EntryOfRel(m, sh.allocs, k + 1);
      assert sh.allocs[k+1] in sh.allocs;
    }
    assert RelEntry(m, sh.allocs, k) && (k + 1 < |sh.allocs| ==> RelEntry(m, sh.allocs, k + 1));
    hide Classified, Increasing, Structure;
    RelEntryFacts(m, sh.allocs, k);
  }

  lemma WalkFrees(m: Memory, sh: Shape, fl: Ptr, al: Ptr, c: Ptr, k: nat)
    requires Structure(m, sh, fl, al, c) && k < |sh.frees|
    ensures Walks(m, sh.frees, k, c)
  {
    hide Ordered, RelList, FullList, RelEntry;
    ListsOf(m, sh, fl, al, c);
    EntryOfRel(m, sh.frees, k);
    assert sh.frees[k] in sh.frees;
    if k + 1 < |sh.frees| {
      EntryOfRel(m, sh.frees, k + 1);
      assert sh.frees[k+1] in sh.frees;
    }
    assert RelEntry(m, sh.frees, k) && (k + 1 < |sh.frees| ==> RelEntry(m, sh.frees, k + 1));
    hide Classified, Increasing, Structure;
    RelEntryFacts(m, sh.frees, k);
  }

  lemma RelEntryFacts(m: Memory, t: seq<Ptr>, k: nat)
    requires RelEntry(m, t, k) && (k + 1 < |t| ==> RelEntry(m, t, k + 1))
    ensures k + 1 < |t| ==> t[k+1] in m && m[t[k+1]].relPrev == t[k]
  {
  }

  // The stores that thread c between two neighbours, or at either end.
  lemma ThreadMiddle(m: Memory, t: seq<Ptr>, k: nat, c: Ptr, free: bool)
    requires 0 < k < |t| && Walks(m, t, k - 1, c) && c in m && c != 0
    ensures var m1 := PutRelPrev(m, t[k], c);
      var m2 := PutRelPrev(PutRelNext(m1, c, t[k]), c, t[k-1]);
      Threaded(m, PutIsFree(PutRelNext(m2, t[k-1], c), c, free), t, k, c)
  {
  }

  lemma ThreadHead(m: Memory, t: seq<Ptr>, c: Ptr, free: bool)
    requires t != [] && Walks(m, t, 0, c) && c in m && c != 0 && m[c].relPrev == 0
    ensures Threaded(m, PutIsFree(PutRelPrev(PutRelNext(m, c, t[0]), t[0], c), c, free), t, 0, c)
  {
  }

  lemma ThreadTail(m: Memory, t: seq<Ptr>, c: Ptr, free: bool)
    requires t != [] && Walks(m, t, |t| - 1, c) && c in m && c != 0
    ensures Threaded(m, PutIsFree(PutRelNext(PutRelPrev(PutRelNext(m, t[|t|-1], c), c, t[|t|-1]), c, 0), c, free), t, |t|, c)
  {
  }

  // The stores that put c back on the free list; its own links start as NULL.
  lemma ThreadFreeHead(m: Memory, t: seq<Ptr>, c: Ptr)
    requires c in m && c != 0 && m[c].relNext == 0 && m[c].relPrev == 0
    requires t != [] ==> Walks(m, t, 0, c)
    ensures Threaded(m, if t == [] then m else PutRelPrev(PutRelNext(m, c, t[0]), t[0], c), t, 0, c)
  {
  }

  lemma ThreadFreeMiddle(m: Memory, t: seq<Ptr>, k: nat, c: Ptr)
    requires 0 < k < |t| && Walks(m, t, k - 1, c) && c in m && c != 0
    ensures m[t[k]].relPrev in m && m[t[k]].relPrev == t[k-1]
    ensures Threaded(m, PutRelPrev(PutRelNext(PutRelPrev(PutRelNext(m, t[k-1], c), c, t[k-1]), c, t[k]), t[k], c), t, k, c)
  {
  }

  lemma ThreadFreeTail(m: Memory, t: seq<Ptr>, c: Ptr)
    requires t != [] && Walks(m, t, |t| - 1, c) && c in m && c != 0 && m[c].relNext == 0
    ensures Threaded(m, PutRelPrev(PutRelNext(m, t[|t|-1], c), c, t[|t|-1]), t, |t|, c)
  {
  }
}
