/**
 kernel/pcb.c: the doubly linked queues of PCBs.
 */
module PcbQueues {
  import opened Processes

  class Pcb {
    const pid: nat                     // the address of the PCB
    var processName: string
    var processClass: ClassType
    var processPriority: int
    var exeState: ExecutionState
    var dispState: DispatchingState
    var stackPtr: Context              // the context it points to
    var nextPcb: Pcb?
    var prevPcb: Pcb?
    ghost var owner: ProcessQueue?     // the queue it is in

    constructor (pid: nat, name: string, cls: ClassType, priority: int, context: Context)
      ensures Snapshot() == Process(pid, name, cls, priority, Ready, NotSuspended, context)
      ensures Detached()
    {
      this.pid, processName, processClass, processPriority := pid, name, cls, priority;
      exeState, dispState, stackPtr := Ready, NotSuspended, context;
      nextPcb, prevPcb, owner := null, null, null;
    }

    // In no queue; the links are NULL then.
    ghost predicate Detached()
      reads this
    {
      owner == null && nextPcb == null && prevPcb == null
    }

    ghost function Snapshot(): Process
      reads this
    {
      Process(pid, processName, processClass, processPriority, exeState, dispState, stackPtr)
    }
  }

  ghost function Snapshots(s: seq<Pcb>): (r: seq<Process>)
    reads s
    ensures |r| == |s| && forall i :: 0 <= i < |s| ==> r[i] == s[i].Snapshot()
  {
    seq(|s|, i requires 0 <= i < |s| reads s => s[i].Snapshot())
  }

  ghost predicate Distinct(s: seq<Pcb>) {
    forall i, j :: 0 <= i < j < |s| ==> s[i] != s[j]
  }

  // The snapshots still show the PCBs.
  ghost predicate Shows(qs: seq<Process>, s: seq<Pcb>)
    reads s
  {
    |qs| == |s| && forall i :: 0 <= i < |s| ==> qs[i] == s[i].Snapshot()
  }

  lemma ShowsInsert(qs: seq<Process>, s: seq<Pcb>, k: nat, p: Pcb)
    requires Shows(qs, s) && k <= |s|
    ensures Snapshots(InsertAt(s, k, p)) == Insert(qs, k, p.Snapshot())
  {
    InsertAtIs(s, k, p);
    InsertAtIs(qs, k, p.Snapshot());
    assert Insert(qs, k, p.Snapshot()) == InsertAt(qs, k, p.Snapshot());
    hide Insert, InsertAt, Pcb.Snapshot;
  }

  lemma ShowsRemove(qs: seq<Process>, s: seq<Pcb>, k: nat)
    requires Shows(qs, s) && k < |s|
    ensures Snapshots(RemoveAt(s, k)) == Remove(qs, k)
  {
    RemoveAtIs(s, k);
    RemoveAtIs(qs, k);
    assert Remove(qs, k) == RemoveAt(qs, k);
    hide Remove, RemoveAt, Pcb.Snapshot;
  }

  // s is a doubly linked chain, with NULL at both ends.
  ghost predicate Chain(s: seq<Pcb>)
    reads s`nextPcb, s`prevPcb
  {
    && Distinct(s)
    && (forall i, j :: 0 <= i && j == i + 1 < |s| ==> s[i].nextPcb == s[j] && s[j].prevPcb == s[i])
    && (s != [] ==> s[0].prevPcb == null && s[|s|-1].nextPcb == null)
  }

  function InsertAt<T>(s: seq<T>, k: nat, x: T): seq<T>
    requires k <= |s|
  {
    s[..k] + [x] + s[k..]
  }

  function RemoveAt<T>(s: seq<T>, k: nat): seq<T>
    requires k < |s|
  {
    s[..k] + s[k+1..]
  }

  lemma EndPositions(q: seq<Process>, v: int)
    requires Sorted(q)
    ensures q != [] && v < q[0].priority ==> Position(q, v) == 0
    ensures q == [] || q[|q|-1].priority <= v ==> Position(q, v) == |q|
  {
  }

  lemma InsertEnds<T>(s: seq<T>, x: T)
    ensures InsertAt(s, 0, x) == [x] + s && InsertAt(s, |s|, x) == s + [x]
  {
  }

  lemma InsertAtIs<T>(s: seq<T>, k: nat, x: T)
    requires k <= |s|
    ensures var r := InsertAt(s, k, x);
      && |r| == |s| + 1 && r[k] == x
      && (forall i :: 0 <= i < k ==> r[i] == s[i])
      && (forall i :: k < i < |r| ==> r[i] == s[i-1])
      && (forall i :: 0 <= i < |s| ==> s[i] == r[if i < k then i else i + 1])
  {
  }

  lemma DistinctInsert(s: seq<Pcb>, r: seq<Pcb>, k: nat, p: Pcb)
    requires Distinct(s) && p !in s && k <= |s| && |r| == |s| + 1 && r[k] == p
    requires forall i :: 0 <= i < |s| ==> s[i] == r[if i < k then i else i + 1]
    ensures Distinct(r)
  {
    forall i, j | 0 <= i < j < |r| ensures r[i] != r[j] {
      var i', j' := if i < k then i else i - 1, if j < k then j else j - 1;
      assert i != k ==> r[i] == s[i'];
      assert j != k ==> r[j] == s[j'];
    }
  }

  lemma RemoveAtIs<T>(s: seq<T>, k: nat)
    requires k < |s|
    ensures var r := RemoveAt(s, k);
      && |r| == |s| - 1
      && (forall i :: 0 <= i < k ==> r[i] == s[i])
      && (forall i :: k <= i < |r| ==> r[i] == s[i+1])
  {
  }

  // s is a chain but for the gap before entry k, which p fills.
  lemma ChainInserted(s: seq<Pcb>, r: seq<Pcb>, k: nat, p: Pcb)
    requires Distinct(s) && p !in s && 0 < k < |s| && r == InsertAt(s, k, p)
    requires forall i, j :: 0 <= i && j == i + 1 < |s| && j != k ==> s[i].nextPcb == s[j] && s[j].prevPcb == s[i]
    requires s[k-1].nextPcb == p && p.prevPcb == s[k-1] && p.nextPcb == s[k] && s[k].prevPcb == p
    requires s[0].prevPcb == null && s[|s|-1].nextPcb == null
    ensures Chain(r) && |r| == |s| + 1 && r[0] == s[0] && r[|r|-1] == s[|s|-1]
  {
    InsertAtIs(s, k, p);
    hide InsertAt;
    DistinctInsert(s, r, k, p);
    hide Distinct;
    forall i, j | 0 <= i && j == i + 1 < |r| ensures r[i].nextPcb == r[j] && r[j].prevPcb == r[i] {
      if i < k - 1 {
        assert s[i].nextPcb == s[j] && s[j].prevPcb == s[i];
      } else if i > k {
        assert s[i-1].nextPcb == s[j-1] && s[j-1].prevPcb == s[i-1];
      }
    }
  }

  class ProcessQueue {
    var queueHead: Pcb?
    var queueTail: Pcb?
    ghost var items: seq<Pcb>

    ghost predicate Linked()
      reads this, items`nextPcb, items`prevPcb
    {
      && Chain(items)
      && queueHead == (if items == [] then null else items[0])
      && queueTail == (if items == [] then null else items[|items|-1])
    }

    ghost predicate Valid()
      reads this, items`nextPcb, items`prevPcb, items`owner
    {
      Linked() && forall x :: x in items ==> x.owner == this
    }

    constructor ()
      ensures Valid() && items == []
    {
      queueHead, queueTail, items := null, null, [];
    }

    // The node behind which an entry of priority v belongs, when it belongs
    // neither first nor last: scanning forward from the head for the better
    // half of the priorities, backward from the tail for the rest.
    method FindPlace(v: int) returns (index: Pcb, ghost k: nat)
      requires Linked() && Sorted(Snapshots(items))
      requires items != [] && items[0].processPriority <= v < items[|items|-1].processPriority
      ensures 0 < k < |items| && k == Position(Snapshots(items), v) && index == items[k-1]
    {
      hide Sorted, Distinct, Position, Snapshots;
      ghost var better := PositionMeans(items, v);
      if v <= 4 {
        index := queueHead;
        k := 1;
        while index.nextPcb.processPriority <= v
          invariant 0 < k <= better && index == items[k-1] && index.nextPcb == items[k]
          decreases |items| - k
        {
          index := index.nextPcb;
          k := k + 1;
          AtTail(items, k - 1);
        }
      } else {
        index := queueTail;
        k := |items| - 1;
        while index.prevPcb.processPriority > v
          invariant better <= k < |items| && index == items[k] && index.prevPcb == items[k-1]
          decreases k
        {
          index := index.prevPcb;
          k := k - 1;
          AtTail(items, k - 1);
        }
        index := index.prevPcb;
      }
    }

    // Thread p in between its neighbours items[k-1] and items[k].
    method InsertBetween(p: Pcb, index: Pcb, ghost k: nat)
      requires Linked() && p !in items && 0 < k < |items| && index == items[k-1]
      modifies this`items, p`nextPcb, p`prevPcb, index`nextPcb, items`prevPcb
      ensures Linked() && items == InsertAt(old(items), k, p)
    {
      ghost var s := items;
      hide InsertAt;
      assert index.nextPcb == s[k] && s[k] in s && s[k-1] in s;
      p.nextPcb := index.nextPcb;
      index.nextPcb.prevPcb := p;
      index.nextPcb := p;
      p.prevPcb := index;
      items := InsertAt(s, k, p);
      ChainInserted(s, items, k, p);
      hide Chain;
    }

    lemma HeadAndTail()
      requires Linked()
      ensures queueHead == null <==> items == []
      ensures items != [] ==> queueHead == items[0] && queueTail == items[|items|-1]
      ensures Distinct(items)
    {
      hide Distinct;
    }

    // The priority-queue half of enqueue.  p must come with NULL links.
    method EnqueueByPriority(p: Pcb)
      requires Linked() && Sorted(Snapshots(items))
      requires p !in items && p.nextPcb == null && p.prevPcb == null
      modifies this, p`nextPcb, p`prevPcb, items`nextPcb, items`prevPcb
      ensures Linked()
      ensures items == InsertAt(old(items), Position(old(Snapshots(items)), p.processPriority), p)
      ensures Snapshots(items) == Insert(old(Snapshots(items)), Position(old(Snapshots(items)), p.processPriority), p.Snapshot())
    {
      ghost var qs, s := Snapshots(items), items;
      hide Chain, Sorted, InsertAt, Insert, Linked;
      ThreadByPriority(p);
      assert Shows(qs, s);
      ShowsInsert(qs, s, Position(qs, p.processPriority), p);
    }

    method ThreadByPriority(p: Pcb)
      requires Linked() && Sorted(Snapshots(items))
      requires p !in items && p.nextPcb == null && p.prevPcb == null
      modifies this, p`nextPcb, p`prevPcb, items`nextPcb, items`prevPcb
      ensures Linked()
      ensures items == InsertAt(old(items), Position(old(Snapshots(items)), p.processPriority), p)
    {
      hide Chain, Sorted, Position, InsertAt, Linked;
      HeadAndTail();
      EndPositions(Snapshots(items), p.processPriority);
      InsertEnds(items, p);
      hide InsertAt;
      if queueHead == null {
        Append(p);
      } else if p.processPriority < queueHead.processPriority {
        Prepend(p);
      } else if p.processPriority >= queueTail.processPriority {
        Append(p);
      } else {
        var index, k := FindPlace(p.processPriority);
        InsertBetween(p, index, k);
      }
    }

    // A newcomer better than all others.
    method Prepend(p: Pcb)
      requires Linked() && items != [] && p !in items && p.prevPcb == null
      modifies this, p`nextPcb, p`prevPcb, items`prevPcb
      ensures Linked() && items == [p] + old(items)
    {
      queueHead.prevPcb := p;
      p.nextPcb := queueHead;
      queueHead := p;
      items := [p] + items;
    }

    // Put p at the tail: a newcomer of the worst priority, or any newcomer to
    // a blocked queue.
    method Append(p: Pcb)
      requires Linked() && p !in items && p.nextPcb == null && p.prevPcb == null
      modifies this, p`nextPcb, p`prevPcb, items`nextPcb, items`prevPcb
      ensures Linked() && items == old(items) + [p] && Snapshots(items) == old(Snapshots(items)) + [p.Snapshot()]
    {
      if queueHead == null {
        queueHead := p;
        queueTail := p;
      } else {
        queueTail.nextPcb := p;
        p.prevPcb := queueTail;
        queueTail := p;
      }
      items := items + [p];
    }

    // enqueue, once the queue is selected: by priority on the two ready
    // queues, at the tail of the others.
    method Enqueue(p: Pcb, tag: nat)
      requires Valid() && p.Detached() && (tag <= 1 ==> Sorted(Snapshots(items)))
      modifies this, p, items
      ensures Valid() && p.owner == this && p.Snapshot() == old(p.Snapshot())
      ensures forall x :: x in items ==> x == p || x in old(items)
      ensures Snapshots(items) == Processes.Enqueue(old(Snapshots(items)), tag, p.Snapshot())
      ensures 2 <= tag <= 3 ==> Snapshots(items) == old(Snapshots(items)) + [p.Snapshot()]
      ensures tag <= 1 ==> Joined(old(Snapshots(items)), p.Snapshot(), Snapshots(items))
    {
      hide Chain, Position, Insert, Sorted, Linked, Snapshots, Joined;
      if tag <= 1 {
        ReadyIsByPriority(Snapshots(items), tag, p.Snapshot());
      }
      p.owner := this;
      if tag == SUS_READY_QUEUE || tag == READY_QUEUE {
        EnqueueByPriority(p);
      } else {
        Append(p);
      }
    }

    // search_queue: the first PCB of the given name, or NULL.
    method SearchQueue(name: string) returns (found: Pcb?)
      requires Linked()
      ensures var k := Search(Snapshots(items), name);
        found == if k < |items| then items[k] else null
    {
      hide Distinct;
      if queueHead == null {
        return null;
      }
      var index := queueHead;
      ghost var k := 0;
      while index.nextPcb != null
        invariant 0 <= k < |items| && index == items[k]
        invariant forall i :: 0 <= i < k ==> items[i].processName != name
        decreases |items| - k
      {
        if name == index.processName {
          SearchIs(Snapshots(items), name, k);
          return index;
        }
        AtTail(items, k);
        index := index.nextPcb;
        k := k + 1;
      }
      AtTail(items, k);
      if name == index.processName {
        SearchIs(Snapshots(items), name, k);
        return index;
      }
      SearchIs(Snapshots(items), name, |items|);
      return null;
    }

    // Take the head off; it is not the only entry.
    method RemoveHead(p: Pcb)
      requires Linked() && |items| > 1 && p == items[0]
      modifies this, items`nextPcb, items`prevPcb
      ensures Linked() && items == old(items)[1..] && p.nextPcb == null && p.prevPcb == null
    {
      ghost var s := items;
      assert s[0].nextPcb == s[1] && s[0] in s && s[1] in s;
      queueHead := p.nextPcb;
      p.nextPcb.prevPcb := null;
      p.nextPcb := null;
      items := s[1..];
    }

    method RemoveTail(p: Pcb)
      requires Linked() && |items| > 1 && p == items[|items|-1]
      modifies this, items`nextPcb, items`prevPcb
      ensures Linked() && items == old(items)[..|old(items)|-1] && p.nextPcb == null && p.prevPcb == null
    {
      ghost var s := items;
      ghost var n := |s| - 1;
      assert s[n-1].nextPcb == s[n] && s[n].prevPcb == s[n-1] && s[n-1] in s && s[n] in s;
      queueTail := p.prevPcb;
      p.prevPcb.nextPcb := null;
      p.prevPcb := null;
      items := s[..n];
    }

    method RemoveInside(p: Pcb, ghost k: nat)
      requires Linked() && 0 < k < |items| - 1 && p == items[k]
      modifies this`items, items`nextPcb, items`prevPcb
      ensures Linked() && items == RemoveAt(old(items), k) && p.nextPcb == null && p.prevPcb == null
    {
      ghost var s := items;
      RemoveAtIs(s, k);
      hide RemoveAt;
      assert s[k-1].nextPcb == s[k] && s[k].prevPcb == s[k-1] && s[k].nextPcb == s[k+1];
      assert s[k-1] in s && s[k] in s && s[k+1] in s;
      p.prevPcb.nextPcb := p.nextPcb;
      p.nextPcb.prevPcb := p.prevPcb;
      p.prevPcb := null;
      p.nextPcb := null;
      items := RemoveAt(s, k);
      DistinctRemove(s, items, k);
      forall i, j | 0 <= i && j == i + 1 < |items|
        ensures items[i].nextPcb == items[j] && items[j].prevPcb == items[i]
      {
        if i < k - 1 {
          assert s[i].nextPcb == s[j] && s[j].prevPcb == s[i];
        } else if i > k - 1 {
          assert s[i+1].nextPcb == s[j+1] && s[j+1].prevPcb == s[i+1];
        }
      }
    }

    // dequeue: 0 if p was taken off, 1 if it is not there.  The test for
    // presence goes by name, so a PCB that is not in the queue must not share
    // its name with one that is.
    method Dequeue(p: Pcb, ghost k: nat) returns (code: int)
      requires Linked()
      requires (k < |items| && items[k] == p) || (p !in items && forall q :: q in items ==> q.processName != p.processName)
      modifies this, items`nextPcb, items`prevPcb
      ensures Linked()
      ensures p in old(items) ==> code == 0 && items == RemoveAt(old(items), k) && p.nextPcb == null && p.prevPcb == null
      ensures p !in old(items) ==> code == 1 && items == old(items)
    {
      hide Distinct, Search, Chain, Linked, RemoveAt;
      HeadAndTail();
      var found := SearchQueue(p.processName);
      if found == null {
        return 1;
      }
      PlaceInQueue(items, p, k);
      if queueHead == p && queueTail == p {
        Clear(p);
      } else if queueHead == p {
        RemoveHead(p);
      } else if queueTail == p {
        RemoveTail(p);
      } else {
        RemoveInside(p, k);
      }
      return 0;
    }

    // dequeue of a PCB that is there.
    method Withdraw(p: Pcb, ghost k: nat) returns (code: int)
      requires Valid() && k < |items| && items[k] == p
      modifies this, items
      ensures Valid() && code == 0 && p.Detached() && p.Snapshot() == old(p.Snapshot())
      ensures forall x :: x in items ==> x in old(items)
      ensures k < |old(Snapshots(items))| && Snapshots(items) == Remove(old(Snapshots(items)), k)
    {
      ghost var qs, s := Snapshots(items), items;
      assert Distinct(s) && p in s;
      hide Chain, RemoveAt, Remove, Linked, Distinct;
      RemoveMembers(s, k);
      p.owner := null;
      code := Dequeue(p, k);
      assert Shows(qs, s);
      hide Snapshots, Shows;
      ShowsRemove(qs, s, k);
    }

    method Clear(p: Pcb)
      requires Linked() && items == [p]
      modifies this, p`nextPcb, p`prevPcb
      ensures Linked() && items == [] && p.nextPcb == null && p.prevPcb == null
    {
      queueHead := null;
      queueTail := null;
      p.prevPcb := null;
      p.nextPcb := null;
      items := [];
    }
  }

  // Where an entry of priority v belongs, and what stands before and behind.
  lemma PositionMeans(s: seq<Pcb>, v: int) returns (k: nat)
    requires Sorted(Snapshots(s)) && s != [] && s[0].processPriority <= v < s[|s|-1].processPriority
    ensures 0 < k < |s| && k == Position(Snapshots(s), v)
    ensures forall i :: 0 <= i < |s| ==> (s[i].processPriority <= v <==> i < k)
  {
    var q := Snapshots(s);
    k := Position(q, v);
    assert q[0].priority == s[0].processPriority && q[|s|-1].priority == s[|s|-1].processPriority;
    forall i | 0 <= i < |s| ensures s[i].processPriority <= v <==> i < k {
      assert q[i].priority == s[i].processPriority;
      assert i >= k ==> q[k].priority <= q[i].priority;
    }
    hide Position;
  }

  lemma RemoveMembers(s: seq<Pcb>, k: nat)
    requires Distinct(s) && k < |s|
    ensures forall x :: x in RemoveAt(s, k) <==> x in s && x != s[k]
  {
    RemoveAtIs(s, k);
    var r := RemoveAt(s, k);
    forall x | x in s && x != s[k] ensures x in r {
      var i :| 0 <= i < |s| && s[i] == x;
      assert r[if i < k then i else i - 1] == x;
    }
    forall x | x in r ensures x in s && x != s[k] {
      var i :| 0 <= i < |r| && r[i] == x;
      assert s[if i < k then i else i + 1] == x;
    }
  }

  lemma SearchIs(q: seq<Process>, name: string, k: nat)
    requires k <= |q| && (k < |q| ==> q[k].name == name)
    requires forall i :: 0 <= i < k ==> q[i].name != name
    ensures Search(q, name) == k
  {
  }

  lemma AtTail(s: seq<Pcb>, k: nat)
    requires Chain(s) && k < |s|
    ensures s[k].nextPcb == null <==> k == |s| - 1
    ensures k + 1 < |s| ==> s[k].nextPcb == s[k+1]
  {
    assert k + 1 < |s| ==> s[k].nextPcb == s[k+1];
  }

  lemma DistinctRemove(s: seq<Pcb>, r: seq<Pcb>, k: nat)
    requires Distinct(s) && k < |s| && |r| == |s| - 1
    requires forall i :: 0 <= i < k ==> r[i] == s[i]
    requires forall i :: k <= i < |r| ==> r[i] == s[i+1]
    ensures Distinct(r)
  {
  }

  // Which of the four cases of dequeue applies is a matter of position only.
  lemma PlaceInQueue(s: seq<Pcb>, p: Pcb, k: nat)
    requires Distinct(s) && k < |s| && s[k] == p
    ensures s[0] == p <==> k == 0
    ensures s[|s|-1] == p <==> k == |s| - 1
    ensures |s| == 1 ==> s == [p]
    ensures k == 0 ==> RemoveAt(s, k) == s[1..]
    ensures k == |s| - 1 ==> RemoveAt(s, k) == s[..|s|-1]
  {
  }

  lemma SnapshotsWithOne(qs: seq<Process>, s: seq<Pcb>, k: nat)
    requires |qs| == |s| && k < |s|
    requires forall i :: 0 <= i < |s| && i != k ==> qs[i] == s[i].Snapshot()
    ensures Snapshots(s) == qs[k := s[k].Snapshot()]
  {
  }
}
