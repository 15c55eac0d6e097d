/**
 Address-ordered lists of pointers, entry by entry: what inserting or removing
 one entry does to order and membership.
 */
module Links {

  // An address; 0 is NULL.
  type Ptr = nat

  // Entry i of a list, or NULL beyond either end.
  function At(s: seq<Ptr>, i: int): Ptr {
    if 0 <= i < |s| then s[i] else 0
  }

  ghost predicate Increasing(s: seq<Ptr>) {
    forall i, j :: 0 <= i < j < |s| ==> s[i] < s[j]
  }

  function Insert(s: seq<Ptr>, k: nat, c: Ptr): seq<Ptr>
    requires k <= |s|
  {
    s[..k] + [c] + s[k..]
  }

  function Remove(s: seq<Ptr>, k: nat): seq<Ptr>
    requires k < |s|
  {
    s[..k] + s[k+1..]
  }

  ghost predicate InsertsAt(s: seq<Ptr>, s': seq<Ptr>, k: nat, c: Ptr) {
    && k <= |s| && |s'| == |s| + 1
    && s'[k] == c
    && (forall i :: 0 <= i < k ==> s'[i] == s[i])
    && (forall i :: k < i < |s'| ==> s'[i] == s[i-1])
  }

  ghost predicate RemovesAt(s: seq<Ptr>, s': seq<Ptr>, k: nat) {
    && k < |s| && |s'| == |s| - 1
    && (forall i :: 0 <= i < k ==> s'[i] == s[i])
    && (forall i :: k <= i < |s'| ==> s'[i] == s[i+1])
  }

  lemma InsertIs(s: seq<Ptr>, k: nat, c: Ptr)
    requires k <= |s|
    ensures InsertsAt(s, Insert(s, k, c), k, c)
  {
  }

  lemma RemoveIs(s: seq<Ptr>, k: nat)
    requires k < |s|
    ensures RemovesAt(s, Remove(s, k), k)
  {
  }

  lemma InsertMembers(s: seq<Ptr>, s': seq<Ptr>, k: nat, c: Ptr)
    requires InsertsAt(s, s', k, c)
    ensures forall p :: p in s' <==> p in s || p == c
  {
    forall p | p in s ensures p in s' {
      var i :| 0 <= i < |s| && s[i] == p;
      assert s'[if i < k then i else i + 1] == p;
    }
    forall p | p in s' ensures p in s || p == c {
      var i :| 0 <= i < |s'| && s'[i] == p;
      assert i != k ==> s[if i < k then i else i - 1] == p;
    }
  }

  lemma RemoveMembers(s: seq<Ptr>, s': seq<Ptr>, k: nat)
    requires RemovesAt(s, s', k) && Increasing(s)
    ensures forall p :: p in s' <==> p in s && p != s[k]
  {
    forall p | p in s && p != s[k] ensures p in s' {
      var i :| 0 <= i < |s| && s[i] == p;
      assert s'[if i < k then i else i - 1] == p;
    }
    forall p | p in s' ensures p in s && p != s[k] {
      var i :| 0 <= i < |s'| && s'[i] == p;
      assert s[if i < k then i else i + 1] == p;
    }
  }

  lemma InsertIncreasing(s: seq<Ptr>, s': seq<Ptr>, k: nat, c: Ptr)
    requires InsertsAt(s, s', k, c) && Increasing(s)
    requires k > 0 ==> s[k-1] < c
    requires k < |s| ==> c < s[k]
    ensures Increasing(s')
  {
    forall i, j | 0 <= i < j < |s'| ensures s'[i] < s'[j] {
      if j == k {
        assert s[i] <= s[k-1];
      } else if i == k {
        assert s[k] <= s[j-1];
      } else {
        assert s[if i < k then i else i - 1] < s[if j < k then j else j - 1];
      }
    }
  }

  lemma RemoveIncreasing(s: seq<Ptr>, s': seq<Ptr>, k: nat)
    requires RemovesAt(s, s', k) && Increasing(s)
    ensures Increasing(s')
  {
  }

  // Two neighbours of an address-ordered list that both belong to an
  // address-ordered sublist are neighbours there too.
  lemma NeighboursInSublist(s: seq<Ptr>, i: nat, t: seq<Ptr>, j: nat)
    requires Increasing(s) && Increasing(t) && (forall p :: p in t ==> p in s)
    requires i + 1 < |s| && s[i+1] in t
    requires j < |t| && t[j] == s[i]
    ensures j + 1 < |t| && t[j+1] == s[i+1]
  {
    var k :| 0 <= k < |t| && t[k] == s[i+1];
    assert k > j;
    assert t[j+1] in s;
    var l :| 0 <= l < |s| && s[l] == t[j+1];
    assert l > i;
  }

  lemma AtInjective(s: seq<Ptr>, l: nat, j: int)
    requires Increasing(s) && l < |s| && s[l] != 0
    ensures s[l] == At(s, j) <==> l == j
  {
    if 0 <= j < |s| && l != j {
      assert l < j ==> s[l] < s[j];
    }
  }
}
