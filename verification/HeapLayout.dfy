/**
 The whole heap after a call of kernel/library.c, block by block.
 */
module HeapLayout {
  import opened HeapSpec
  import opened HeapRuns

  // What stands in the place of block i, for a request of n bytes.
  function Granted(b: Block, n: nat): seq<Block> {
    if b.size > n + 28 then [Block(b.start, n, false), Block(b.start + n + 28, b.size - n - 28, true)]
    else [Block(b.start, b.size, false)]
  }

  // allocate_memory takes the first free block of at least n bytes.  If more
  // than a header would be left over, the rest is a free block just behind.
  lemma AllocateLayout(bs: seq<Block>, n: nat)
    ensures var r := Allocate(bs, n);
      if forall i :: 0 <= i < |bs| && bs[i].free ==> bs[i].size < n then r == Outcome(bs, 0)
      else exists i :: 0 <= i < |bs| && Takes(bs, i, n, r)
  {
    var i := FirstFit(bs, n);
    if i < |bs| {
      assert bs[i].free && bs[i].size >= n;
      CarveLayout(bs, i, n);
      hide Carve, Granted;
      assert Takes(bs, i, n, Allocate(bs, n));
    }
  }

  ghost predicate Takes(bs: seq<Block>, i: nat, n: nat, r: Outcome) {
    && i < |bs| && bs[i].free && bs[i].size >= n
    && (forall j :: 0 <= j < i && bs[j].free ==> bs[j].size < n)
    && r == Outcome(bs[..i] + Granted(bs[i], n) + bs[i+1..], bs[i].start)
  }

  lemma CarveLayout(bs: seq<Block>, i: nat, n: nat)
    requires i < |bs|
    ensures Carve(bs, i, n) == bs[..i] + Granted(bs[i], n) + bs[i+1..]
  {
  }

  // Where the free block that contains block i after its release begins and
  // ends.
  function First(bs: seq<Block>, i: nat): (a: nat)
    requires i < |bs|
    ensures a <= i
  {
    if i > 0 && bs[i-1].free then i - 1 else i
  }

  function Last(bs: seq<Block>, i: nat): (z: nat)
    requires i < |bs|
    ensures i <= z < |bs|
  {
    if i + 1 < |bs| && bs[i+1].free then i + 1 else i
  }

  // Block i has become one free block with its free neighbours: it starts where
  // the first of them did, and has the sum of their sizes.
  ghost predicate Joins(bs: seq<Block>, i: nat, cs: seq<Block>) {
    && i < |bs|
    && var (a, z) := (First(bs, i), Last(bs, i));
       cs == bs[..a] + [Block(bs[a].start, Total(bs[a..z+1]), true)] + bs[z+1..]
  }

  lemma TotalOfFew(s: seq<Block>)
    ensures |s| == 1 ==> Total(s) == s[0].size
    ensures |s| == 2 ==> Total(s) == s[0].size + s[1].size
    ensures |s| == 3 ==> Total(s) == s[0].size + s[1].size + s[2].size
  {
    if |s| > 1 {
      assert Total(s[1..]) == s[1..][0].size + Total(s[1..][1..]);
      if |s| > 2 {
        assert s[1..][1..] == s[2..] && Total(s[2..]) == s[2..][0].size + Total(s[2..][1..]);
      }
    }
  }

  lemma ReleaseJoins(bs: seq<Block>, i: nat)
    requires i < |bs|
    ensures Joins(bs, i, Release(bs, i))
  {
    var b1, a, z := bs[i := bs[i].(free := true)], First(bs, i), Last(bs, i);
    TotalOfFew(bs[a..z+1]);
    hide Total;
    var b2 := MergeNext(b1, i);
    assert b2 == bs[..i] + [Block(bs[i].start, if z == i then bs[i].size else bs[i].size + bs[i+1].size, true)] + bs[z+1..];
    if a < i {
      assert b2[i-1] == bs[i-1] && b2[..i-1] == bs[..i-1] && b2[i+1..] == bs[z+1..];
    }
  }

  // free_memory joins the block it finds with its free neighbours.  It finds
  // the block that starts at the pointer, unless no block up to it is
  // allocated; then, and if there is none, it answers -1.
  lemma FreeLayout(bs: seq<Block>, ptr: int, lo: int, hi: int)
    requires WellFormed(bs, lo, hi)
    ensures var (cs, code) := Free(bs, ptr);
      if exists i, j :: 0 <= i <= j < |bs| && !bs[i].free && bs[j].start == ptr then
        code == 0 && exists j :: 0 <= j < |bs| && bs[j].start == ptr && Joins(bs, j, cs)
      else code == -1 && cs == bs
  {
    ReachedExactly(bs, ptr, lo, hi);
    var k := Reached(bs, ptr);
    if k < |bs| {
      ReleaseJoins(bs, k);
    }
    hide Joins, Release, Ordered, Coalesced;
  }
}
