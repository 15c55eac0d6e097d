/**
 Raw memory holding memory control blocks, and the lists threaded through it.

 The C code manufactures headers at computed addresses inside the arena, so
 memory is a map from addresses to headers.  That no header overwrites another
 is then something to prove, not something object identity gives for free.
 */
module HeapMemory {
  import opened Links
  import opened HeapSpec

  // struct mcb (include/mpx/library.h)
  datatype Mcb = Mcb(
    startAddress: int, size: int,
    next: Ptr, prev: Ptr,        // the list of all blocks
    relNext: Ptr, relPrev: Ptr,  // the list of free, or of allocated, blocks
    isFree: bool)

  type Memory = map<Ptr, Mcb>

  // ------------------------------------------------------------------ stores

  function PutNext(m: Memory, p: Ptr, v: Ptr): Memory
    requires p in m
  {
    m[p := m[p].(next := v)]
  }

  function PutPrev(m: Memory, p: Ptr, v: Ptr): Memory
    requires p in m
  {
    m[p := m[p].(prev := v)]
  }

  function PutRelNext(m: Memory, p: Ptr, v: Ptr): Memory
    requires p in m
  {
    m[p := m[p].(relNext := v)]
  }

  function PutRelPrev(m: Memory, p: Ptr, v: Ptr): Memory
    requires p in m
  {
    m[p := m[p].(relPrev := v)]
  }

  function PutSize(m: Memory, p: Ptr, v: int): Memory
    requires p in m
  {
    m[p := m[p].(size := v)]
  }

  function PutIsFree(m: Memory, p: Ptr, v: bool): Memory
    requires p in m
  {
    m[p := m[p].(isFree := v)]
  }

  // ------------------------------------------------------------------- lists

  ghost predicate FullList(m: Memory, s: seq<Ptr>) {
    && (forall i :: 0 <= i < |s| ==> s[i] in m && s[i] != 0)
    && (forall i, j :: 0 <= i && j == i + 1 < |s| ==> m[s[i]].next == s[j] && m[s[j]].prev == s[i])
    && (s != [] ==> m[s[0]].prev == 0 && m[s[|s|-1]].next == 0)
  }

  ghost predicate RelList(m: Memory, s: seq<Ptr>) {
    && (forall i :: 0 <= i < |s| ==> s[i] in m && s[i] != 0)
    && (forall i, j :: 0 <= i && j == i + 1 < |s| ==> m[s[i]].relNext == s[j] && m[s[j]].relPrev == s[i])
    && (s != [] ==> m[s[0]].relPrev == 0 && m[s[|s|-1]].relNext == 0)
  }

  // One entry of a list, with its neighbours or NULL on either side.
  ghost predicate FullEntry(m: Memory, s: seq<Ptr>, i: nat) {
    i < |s| && s[i] in m && s[i] != 0 && m[s[i]].next == At(s, i + 1) && m[s[i]].prev == At(s, i - 1)
  }

  ghost predicate RelEntry(m: Memory, s: seq<Ptr>, i: nat) {
    i < |s| && s[i] in m && s[i] != 0 && m[s[i]].relNext == At(s, i + 1) && m[s[i]].relPrev == At(s, i - 1)
  }

  lemma FullFromEntries(m: Memory, s: seq<Ptr>)
    requires forall i :: 0 <= i < |s| ==> FullEntry(m, s, i)
    ensures FullList(m, s)
  {
    assert s != [] ==> FullEntry(m, s, 0) && FullEntry(m, s, |s| - 1);
    forall i | 0 <= i < |s| ensures s[i] in m && s[i] != 0 {
      assert FullEntry(m, s, i);
    }
    forall i, j | 0 <= i && j == i + 1 < |s| ensures m[s[i]].next == s[j] && m[s[j]].prev == s[i] {
      assert FullEntry(m, s, i) && FullEntry(m, s, j);
    }
  }

  lemma RelFromEntries(m: Memory, s: seq<Ptr>)
    requires forall i :: 0 <= i < |s| ==> RelEntry(m, s, i)
    ensures RelList(m, s)
  {
    assert s != [] ==> RelEntry(m, s, 0) && RelEntry(m, s, |s| - 1);
    forall i | 0 <= i < |s| ensures s[i] in m && s[i] != 0 {
      assert RelEntry(m, s, i);
    }
    forall i, j | 0 <= i && j == i + 1 < |s| ensures m[s[i]].relNext == s[j] && m[s[j]].relPrev == s[i] {
      assert RelEntry(m, s, i) && RelEntry(m, s, j);
    }
  }

  lemma EntryOfFull(m: Memory, s: seq<Ptr>, i: nat)
    requires FullList(m, s) && i < |s|
    ensures FullEntry(m, s, i)
    ensures i > 0 ==> s[i-1] in m && s[i-1] != 0
    ensures i + 1 < |s| ==> s[i+1] in m && s[i+1] != 0
  {
  }

  lemma EntryOfRel(m: Memory, s: seq<Ptr>, i: nat)
    requires RelList(m, s) && i < |s|
    ensures RelEntry(m, s, i)
    ensures i > 0 ==> s[i-1] in m && s[i-1] != 0
    ensures i + 1 < |s| ==> s[i+1] in m && s[i+1] != 0
  {
  }

  // The free and the allocated list split the full list by the isFree flag;
  // `loose` is on neither (0: no block is loose).
  ghost predicate Classified(m: Memory, full: seq<Ptr>, frees: seq<Ptr>, allocs: seq<Ptr>, loose: Ptr) {
    && (forall p :: p in frees <==> p in full && p in m && m[p].isFree && p != loose)
    && (forall p :: p in allocs <==> p in full && p in m && !m[p].isFree && p != loose)
  }

  ghost predicate Linked(m: Memory, full: seq<Ptr>, frees: seq<Ptr>, allocs: seq<Ptr>, loose: Ptr) {
    && FullList(m, full) && RelList(m, frees) && RelList(m, allocs)
    && Increasing(full) && Increasing(frees) && Increasing(allocs)
    && Classified(m, full, frees, allocs, loose)
  }

  // ----------------------------------------------------- what memory stands for

  ghost function BlockAt(m: Memory, p: Ptr): Block {
    if p in m then Block(m[p].startAddress, m[p].size, m[p].isFree) else Block(0, 0, false)
  }

  ghost function Blocks(m: Memory, full: seq<Ptr>): (bs: seq<Block>)
    ensures |bs| == |full| && forall i :: 0 <= i < |full| ==> bs[i] == BlockAt(m, full[i])
  {
    seq(|full|, i requires 0 <= i < |full| => BlockAt(m, full[i]))
  }

  // Each payload starts right above its header.
  ghost predicate Addressed(m: Memory, full: seq<Ptr>) {
    forall p :: p in full ==> p in m && m[p].startAddress == p + HEADER
  }

  // ------------------------------------------------------------- unlinking

  // Only relative links change, and only for the entries of s.
  ghost predicate RelOnly(m: Memory, m': Memory, s: seq<Ptr>) {
    && m'.Keys == m.Keys
    && (forall p :: p in m ==> m'[p].(relNext := m[p].relNext, relPrev := m[p].relPrev) == m[p])
    && (forall p :: p in m && p !in s ==> m'[p] == m[p])
  }

  lemma RelOnlyKeeps(m: Memory, m': Memory, s: seq<Ptr>, full: seq<Ptr>, other: seq<Ptr>)
    requires RelOnly(m, m', s) && FullList(m, full) && RelList(m, other)
    requires forall p :: p in other ==> p !in s
    ensures FullList(m', full) && RelList(m', other)
    ensures Blocks(m', full) == Blocks(m, full)
    ensures Addressed(m, full) ==> Addressed(m', full)
  {
    forall i | 0 <= i < |other| ensures m'[other[i]] == m[other[i]] {
      assert other[i] in other;
    }
  }

  // The pointer surgery that takes c off its relative list: the neighbours
  // are joined, c keeps its own links.
  function Unlinked(m: Memory, c: Ptr): Memory
    requires c in m && (m[c].relPrev != 0 ==> m[c].relPrev in m) && (m[c].relNext != 0 ==> m[c].relNext in m)
  {
    var m1 := if m[c].relPrev != 0 then PutRelNext(m, m[c].relPrev, m[c].relNext) else m;
    if m[c].relNext != 0 then PutRelPrev(m1, m[c].relNext, m[c].relPrev) else m1
  }

  // Entry j of the list s has been taken out of the chain.
  ghost predicate Detached(m: Memory, m': Memory, s: seq<Ptr>, j: nat) {
    && j < |s| && m'.Keys == m.Keys
    && (forall p :: p in m ==>
          m'[p] == m[p].(relNext := if p != 0 && p == At(s, j - 1) then At(s, j + 1) else m[p].relNext,
                         relPrev := if p != 0 && p == At(s, j + 1) then At(s, j - 1) else m[p].relPrev))
  }

  lemma UnlinkedDetaches(m: Memory, s: seq<Ptr>, j: nat)
    requires RelList(m, s) && Increasing(s) && j < |s|
    ensures s[j] in m && (m[s[j]].relPrev != 0 ==> m[s[j]].relPrev in m) && (m[s[j]].relNext != 0 ==> m[s[j]].relNext in m)
    ensures Detached(m, Unlinked(m, s[j]), s, j)
  {
    EntryOfRel(m, s, j);
    hide RelList;
  }

  lemma DetachedRemoves(m: Memory, m': Memory, s: seq<Ptr>, s': seq<Ptr>, j: nat)
    requires RelList(m, s) && Increasing(s) && Detached(m, m', s, j) && RemovesAt(s, s', j)
    ensures RelList(m', s')
  {
    hide RelList, Increasing;
    forall i: nat | i < |s'| ensures RelEntry(m', s', i) {
      var k := if i < j then i else i + 1;
      EntryOfRel(m, s, k);
      AtInjective(s, k, j - 1);
      AtInjective(s, k, j + 1);
    }
    RelFromEntries(m', s');
  }

  lemma DetachedRelOnly(m: Memory, m': Memory, s: seq<Ptr>, j: nat)
    requires Detached(m, m', s, j) && RelList(m, s) && Increasing(s)
    ensures RelOnly(m, m', s) && m'[s[j]] == m[s[j]]
  {
    assert j > 0 ==> s[j-1] in s;
    assert j + 1 < |s| ==> s[j+1] in s;
    AtInjective(s, j, j - 1);
    AtInjective(s, j, j + 1);
  }

  lemma UnlinkedRemoves(m: Memory, s: seq<Ptr>, s': seq<Ptr>, j: nat)
    requires RelList(m, s) && Increasing(s) && j < |s| && RemovesAt(s, s', j)
    ensures s[j] in m && (m[s[j]].relPrev != 0 ==> m[s[j]].relPrev in m) && (m[s[j]].relNext != 0 ==> m[s[j]].relNext in m)
    ensures var m' := Unlinked(m, s[j]);
      RelList(m', s') && RelOnly(m, m', s) && s[j] in m' && m'[s[j]] == m[s[j]]
  {
    hide *;
    UnlinkedDetaches(m, s, j);
    var m' := Unlinked(m, s[j]);
    DetachedRemoves(m, m', s, s', j);
    DetachedRelOnly(m, m', s, j);
  }

  // ---------------------------------------------------------------- linking

  // c has been threaded into the list s at position k.
  ghost predicate Threaded(m: Memory, m': Memory, s: seq<Ptr>, k: nat, c: Ptr) {
    && k <= |s| && c in m && m'.Keys == m.Keys
    && m'[c] == m[c].(relNext := At(s, k), relPrev := At(s, k - 1), isFree := m'[c].isFree)
    && (forall p :: p in m && p != c ==>
          m'[p] == m[p].(relNext := if p != 0 && p == At(s, k - 1) then c else m[p].relNext,
                         relPrev := if p != 0 && p == At(s, k) then c else m[p].relPrev))
  }

  lemma ThreadedInserts(m: Memory, m': Memory, s: seq<Ptr>, s': seq<Ptr>, k: nat, c: Ptr)
    requires RelList(m, s) && Increasing(s) && c !in s && c != 0
    requires Threaded(m, m', s, k, c) && InsertsAt(s, s', k, c)
    ensures RelList(m', s')
  {
    hide RelList, Increasing;
    forall i: nat | i < |s'| ensures RelEntry(m', s', i) {
      if i != k {
        var l := if i < k then i else i - 1;
        EntryOfRel(m, s, l);
        assert s[l] in s;
        AtInjective(s, l, k - 1);
        AtInjective(s, l, k);
      }
    }
    RelFromEntries(m', s');
  }

  lemma ThreadedKeeps(m: Memory, m': Memory, s: seq<Ptr>, k: nat, c: Ptr, full: seq<Ptr>, other: seq<Ptr>)
    requires Threaded(m, m', s, k, c) && FullList(m, full) && RelList(m, other)
    requires c !in other && (forall p :: p in other ==> p !in s)
    ensures FullList(m', full) && RelList(m', other)
    ensures Addressed(m, full) ==> Addressed(m', full)
  {
    forall i | 0 <= i < |other| ensures m'[other[i]] == m[other[i]] {
      assert other[i] in other;
      assert k > 0 ==> s[k-1] in s;
      assert k < |s| ==> s[k] in s;
    }
    forall i | 0 <= i < |full|
      ensures full[i] in m' && m'[full[i]].next == m[full[i]].next && m'[full[i]].prev == m[full[i]].prev
    {
      assert full[i] in m;
    }
  }

  // -------------------------------------------------------------- splitting

  // Block c was cut to n bytes; the remainder has its own header at d, which
  // took c's place on the free list.
  ghost predicate Cut(m: Memory, m': Memory, c: Ptr, d: Ptr, n: nat) {
    && c in m && c != d && m'.Keys == m.Keys + {d}
    && m'[c] == m[c].(size := n, next := d)
    && m'[d] == Mcb(m[c].startAddress + n + HEADER, m[c].size - n - HEADER, m[c].next, c, m[c].relNext, m[c].relPrev, true)
    && (forall p :: p in m && p != c && p != d ==>
          m'[p] == m[p].(prev := if p != 0 && p == m[c].next then d else m[p].prev,
                         relPrev := if p != 0 && p == m[c].relNext then d else m[p].relPrev,
                         relNext := if p != 0 && p == m[c].relPrev then d else m[p].relNext))
  }

  lemma CutFullEntry(m: Memory, m': Memory, full: seq<Ptr>, full': seq<Ptr>, i: nat, d: Ptr, n: nat, l: nat)
    requires FullList(m, full) && Increasing(full) && i < |full| && d !in full && d != 0
    requires Cut(m, m', full[i], d, n) && InsertsAt(full, full', i + 1, d) && l < |full'|
    ensures FullEntry(m', full', l)
  {
    hide FullList, Increasing;
    EntryOfFull(m, full, i);
    if l != i + 1 {
      var k := if l <= i then l else l - 1;
      EntryOfFull(m, full, k);
      assert full[k] in full;
      AtInjective(full, k, i + 1);
      AtInjective(full, k, i);
    }
  }

  lemma CutFull(m: Memory, m': Memory, full: seq<Ptr>, full': seq<Ptr>, i: nat, d: Ptr, n: nat)
    requires FullList(m, full) && Increasing(full) && i < |full| && d !in full && d != 0
    requires Cut(m, m', full[i], d, n) && InsertsAt(full, full', i + 1, d)
    ensures FullList(m', full')
  {
    hide *;
    forall l: nat | l < |full'| ensures FullEntry(m', full', l) {
      CutFullEntry(m, m', full, full', i, d, n, l);
    }
    FullFromEntries(m', full');
  }

  lemma CutFrees(m: Memory, m': Memory, frees: seq<Ptr>, frees': seq<Ptr>, j: nat, d: Ptr, n: nat)
    requires RelList(m, frees) && Increasing(frees) && j < |frees| && d !in frees && d != 0
    requires Cut(m, m', frees[j], d, n)
    requires |frees'| == |frees| && frees'[j] == d && forall l :: 0 <= l < |frees| && l != j ==> frees'[l] == frees[l]
    ensures RelList(m', frees')
  {
    hide RelList, Increasing;
    EntryOfRel(m, frees, j);
    forall l: nat | l < |frees'| ensures RelEntry(m', frees', l) {
      if l != j {
        EntryOfRel(m, frees, l);
        assert frees[l] in frees;
        AtInjective(frees, l, j);
        AtInjective(frees, l, j + 1);
        AtInjective(frees, l, j - 1);
      }
    }
    RelFromEntries(m', frees');
  }

  lemma CutAllocs(m: Memory, m': Memory, frees: seq<Ptr>, allocs: seq<Ptr>, j: nat, d: Ptr, n: nat)
    requires RelList(m, frees) && RelList(m, allocs) && j < |frees|
    requires d !in allocs && (forall p :: p in allocs ==> p !in frees)
    requires Cut(m, m', frees[j], d, n)
    ensures RelList(m', allocs)
  {
    EntryOfRel(m, frees, j);
    forall l | 0 <= l < |allocs|
      ensures allocs[l] in m' && m'[allocs[l]].relNext == m[allocs[l]].relNext && m'[allocs[l]].relPrev == m[allocs[l]].relPrev
    {
      assert allocs[l] in m && allocs[l] in allocs;
      assert frees[j] in frees;
      assert j > 0 ==> frees[j-1] in frees;
      assert j + 1 < |frees| ==> frees[j+1] in frees;
    }
  }

  lemma CutBlocks(m: Memory, m': Memory, full: seq<Ptr>, full': seq<Ptr>, i: nat, d: Ptr, n: nat)
    requires i < |full| && (forall p :: p in full ==> p in m) && d !in full
    requires Increasing(full)
    requires Cut(m, m', full[i], d, n) && InsertsAt(full, full', i + 1, d)
    requires Splits(BlockAt(m, full[i]), n) && m[full[i]].isFree
    ensures Blocks(m', full') == Carve(Blocks(m, full), i, n)[i := Block(m[full[i]].startAddress, n, true)]
  {
    var bs, cs := Blocks(m, full), Blocks(m', full');
    CarveSplitsAt(bs, i, n);
    forall l | 0 <= l < |cs| && l != i && l != i + 1 ensures cs[l] == bs[if l < i then l else l - 1] {
      var k := if l < i then l else l - 1;
      assert full'[l] == full[k] && full[k] in full;
    }
  }

  lemma CutClassified(m: Memory, m': Memory, full: seq<Ptr>, full': seq<Ptr>, frees: seq<Ptr>, allocs: seq<Ptr>, i: nat, j: nat, d: Ptr, n: nat)
    requires Classified(m, full, frees, allocs, 0) && Increasing(frees)
    requires i < |full| && j < |frees| && full[i] == frees[j] && d !in full && 0 !in full
    requires (forall p :: p in full ==> p in m)
    requires Cut(m, m', full[i], d, n) && InsertsAt(full, full', i + 1, d)
    ensures Classified(m', full', frees[j := d], allocs, full[i])
  {
    InsertMembers(full, full', i + 1, d);
    var frees' := frees[j := d];
    forall p ensures p in frees' <==> (p in frees && p != frees[j]) || p == d {
      if p in frees && p != frees[j] {
        var k :| 0 <= k < |frees| && frees[k] == p;
        assert frees'[k] == p;
      }
      assert frees'[j] == d;
    }
  }

  // ----------------------------------------------------------------- merging

  // Block c swallowed its right neighbour d.
  ghost predicate Swallowed(m: Memory, m': Memory, c: Ptr, d: Ptr) {
    && c in m && d in m && c != d && m'.Keys == m.Keys
    && m'[c] == m[c].(size := m[c].size + m[d].size, next := m[d].next, relNext := m[d].relNext)
    && m'[d] == m[d].(next := 0, prev := 0, relNext := 0, relPrev := 0)
    && (forall p :: p in m && p != c && p != d ==>
          m'[p] == m[p].(prev := if p != 0 && p == m[d].next then c else m[p].prev,
                         relPrev := if p != 0 && p == m[d].relNext then c else m[p].relPrev))
  }

  lemma SwallowedFull(m: Memory, m': Memory, full: seq<Ptr>, full': seq<Ptr>, i: nat)
    requires FullList(m, full) && Increasing(full) && i + 1 < |full|
    requires Swallowed(m, m', full[i], full[i+1]) && RemovesAt(full, full', i + 1)
    ensures FullList(m', full')
  {
    hide FullList, Increasing;
    EntryOfFull(m, full, i + 1);
    forall l: nat | l < |full'| ensures FullEntry(m', full', l) {
      var k := if l <= i then l else l + 1;
      EntryOfFull(m, full, k);
      AtInjective(full, k, i);
      AtInjective(full, k, i + 1);
      AtInjective(full, k, i + 2);
    }
    FullFromEntries(m', full');
  }

  lemma SwallowedFrees(m: Memory, m': Memory, frees: seq<Ptr>, frees': seq<Ptr>, j: nat)
    requires RelList(m, frees) && Increasing(frees) && j + 1 < |frees|
    requires Swallowed(m, m', frees[j], frees[j+1]) && RemovesAt(frees, frees', j + 1)
    ensures RelList(m', frees')
  {
    hide RelList, Increasing;
    EntryOfRel(m, frees, j + 1);
    forall l: nat | l < |frees'| ensures RelEntry(m', frees', l) {
      var k := if l <= j then l else l + 1;
      EntryOfRel(m, frees, k);
      AtInjective(frees, k, j);
      AtInjective(frees, k, j + 1);
      AtInjective(frees, k, j + 2);
    }
    RelFromEntries(m', frees');
  }

  lemma SwallowedAllocs(m: Memory, m': Memory, frees: seq<Ptr>, allocs: seq<Ptr>, j: nat)
    requires RelList(m, frees) && RelList(m, allocs) && j + 1 < |frees|
    requires forall p :: p in allocs ==> p !in frees
    requires Swallowed(m, m', frees[j], frees[j+1])
    ensures RelList(m', allocs)
  {
    EntryOfRel(m, frees, j + 1);
    forall l | 0 <= l < |allocs|
      ensures allocs[l] in m' && m'[allocs[l]].relNext == m[allocs[l]].relNext && m'[allocs[l]].relPrev == m[allocs[l]].relPrev
    {
      assert allocs[l] in m && allocs[l] in allocs;
      assert frees[j] in frees && frees[j+1] in frees;
      assert j + 2 < |frees| ==> frees[j+2] in frees;
    }
  }

  lemma SwallowedBlocks(m: Memory, m': Memory, full: seq<Ptr>, full': seq<Ptr>, i: nat)
    requires i + 1 < |full| && (forall p :: p in full ==> p in m) && Increasing(full)
    requires Swallowed(m, m', full[i], full[i+1]) && RemovesAt(full, full', i + 1)
    ensures Blocks(m', full') == Merge(Blocks(m, full), i)
  {
    var bs, cs := Blocks(m, full), Blocks(m', full');
    MergeIsMergedAt(bs, i);
    forall l | 0 <= l < |cs| && l != i ensures cs[l] == bs[if l < i then l else l + 1] {
      var k := if l < i then l else l + 1;
      assert full'[l] == full[k] && full[k] in full;
    }
  }

  lemma SwallowedClassified(m: Memory, m': Memory, full: seq<Ptr>, full': seq<Ptr>, frees: seq<Ptr>, frees': seq<Ptr>, allocs: seq<Ptr>, i: nat, j: nat)
    requires Classified(m, full, frees, allocs, 0) && Increasing(frees) && Increasing(full)
    requires i + 1 < |full| && j + 1 < |frees| && full[i+1] == frees[j+1]
    requires (forall p :: p in full ==> p in m)
    requires Swallowed(m, m', full[i], full[i+1])
    requires RemovesAt(full, full', i + 1) && RemovesAt(frees, frees', j + 1)
    ensures Classified(m', full', frees', allocs, 0)
  {
    RemoveMembers(full, full', i + 1);
    RemoveMembers(frees, frees', j + 1);
    assert frees[j+1] in frees;
  }
}
