/**
 kernel/pcb.c, user/user_pcb.c and kernel/sys_call.c on real PCBs: the four
 queues, the commands that move processes between them, and the dispatcher.
 */
module Kernel {
  import opened Processes
  import opened PcbQueues
  import M = Machines

  // Nothing about this queue has changed.
  twostate predicate Untouched(q: ProcessQueue)
    reads q, q.items
  {
    unchanged(q) && forall p :: p in q.items ==> unchanged(p)
  }

  twostate lemma UntouchedKeeps(q: ProcessQueue)
    requires old(q.Valid()) && Untouched(q)
    ensures q.Valid() && Snapshots(q.items) == old(Snapshots(q.items))
  {
    assert forall i :: 0 <= i < |q.items| ==> q.items[i] in q.items;
  }

  lemma OwnItems(q: ProcessQueue, k: nat)
    requires q.Valid() && k < |q.items|
    ensures q.items[k].owner == q && forall i :: 0 <= i < |q.items| && i != k ==> q.items[i] != q.items[k]
  {
    assert q.items[k] in q.items && Distinct(q.items);
  }

  class ProcessTable {
    const susReady: ProcessQueue
    const ready: ProcessQueue
    const susBlocked: ProcessQueue
    const blocked: ProcessQueue
    var currentProcess: Pcb?
    var initialContext: M.Option<Context>

    // The global queues start out empty.
    constructor ()
      ensures Valid() && View() == [[], [], [], []] && currentProcess == null && initialContext == M.None
      ensures fresh(susReady) && fresh(ready) && fresh(susBlocked) && fresh(blocked) && Pcbs() == {}
    {
      susReady := new ProcessQueue();
      ready := new ProcessQueue();
      susBlocked := new ProcessQueue();
      blocked := new ProcessQueue();
      currentProcess, initialContext := null, M.None;
    }

    // The four queues are separate chains.
    ghost predicate Valid()
      reads susReady, ready, susBlocked, blocked
      reads susReady.items`nextPcb, ready.items`nextPcb, susBlocked.items`nextPcb, blocked.items`nextPcb
      reads susReady.items`prevPcb, ready.items`prevPcb, susBlocked.items`prevPcb, blocked.items`prevPcb
      reads susReady.items`owner, ready.items`owner, susBlocked.items`owner, blocked.items`owner
    {
      && susReady != ready && susReady != susBlocked && susReady != blocked
      && ready != susBlocked && ready != blocked && susBlocked != blocked
      && susReady.Valid() && ready.Valid() && susBlocked.Valid() && blocked.Valid()
    }

    ghost function View(): (qs: seq<seq<Process>>)
      reads susReady, ready, susBlocked, blocked
      reads susReady.items, ready.items, susBlocked.items, blocked.items
      ensures |qs| == 4
    {
      [Snapshots(susReady.items), Snapshots(ready.items), Snapshots(susBlocked.items), Snapshots(blocked.items)]
    }

    // The queue of a tag.
    function Queue(tag: nat): ProcessQueue
      requires tag <= 3
    {
      if tag == SUS_READY_QUEUE then susReady
      else if tag == READY_QUEUE then ready
      else if tag == SUS_BLOCKED_QUEUE then susBlocked
      else blocked
    }

    // Every PCB that is in a queue.
    ghost function Pcbs(): set<Pcb>
      reads susReady, ready, susBlocked, blocked
    {
      (set x | x in susReady.items) + (set x | x in ready.items)
      + (set x | x in susBlocked.items) + (set x | x in blocked.items)
    }

    // The PCB p stands at this place.
    ghost predicate Holds(at: M.Place, p: Pcb)
      reads susReady, ready, susBlocked, blocked
    {
      at.queue <= 3 && at.position < |Queue(at.queue).items| && Queue(at.queue).items[at.position] == p
    }

    // enqueue: by priority on the ready queues, at the tail of the others.
    method Enqueue(p: Pcb, tag: nat)
      requires Valid() && p.Detached() && tag <= 3
      requires tag <= 1 ==> Sorted(View()[tag])
      modifies Queue(tag), p, Queue(tag).items
      ensures Valid() && p.Snapshot() == old(p.Snapshot())
      ensures View() == old(View())[tag := Processes.Enqueue(old(View())[tag], tag, p.Snapshot())]
      ensures Pcbs() <= old(Pcbs()) + {p}
    {
      hide Processes.Enqueue, ProcessQueue.Linked, Snapshots, Sorted;
      Queue(tag).Enqueue(p, tag);
      if tag != SUS_READY_QUEUE { UntouchedKeeps(susReady); }
      if tag != READY_QUEUE { UntouchedKeeps(ready); }
      if tag != SUS_BLOCKED_QUEUE { UntouchedKeeps(susBlocked); }
      if tag != BLOCKED_QUEUE { UntouchedKeeps(blocked); }
    }

    // dequeue
    method Dequeue(p: Pcb, tag: nat, ghost k: nat) returns (code: int)
      requires Valid() && Holds(M.Place(tag, k), p)
      modifies Queue(tag), Queue(tag).items
      ensures Valid() && p.Detached() && code == 0 && p.Snapshot() == old(p.Snapshot())
      ensures k < |old(View())[tag]| && View() == old(View())[tag := Processes.Remove(old(View())[tag], k)]
      ensures Pcbs() <= old(Pcbs())
    {
      hide Processes.Remove, ProcessQueue.Linked, Snapshots;
      code := Queue(tag).Withdraw(p, k);
      if tag != SUS_READY_QUEUE { UntouchedKeeps(susReady); }
      if tag != READY_QUEUE { UntouchedKeeps(ready); }
      if tag != SUS_BLOCKED_QUEUE { UntouchedKeeps(susBlocked); }
      if tag != BLOCKED_QUEUE { UntouchedKeeps(blocked); }
    }

    // pcb_insert, for a PCB that is not NULL.
    method Insert(p: Pcb) returns (code: int)
      requires Valid() && p.Detached() && M.Filed(View())
      modifies p, susReady, ready, susBlocked, blocked, Pcbs()
      ensures Valid() && p.Snapshot() == old(p.Snapshot()) && code == 0
      ensures View() == M.PutIn(old(View()), p.Snapshot()) && Pcbs() <= old(Pcbs()) + {p}
    {
      var tag := DispCode(p.dispState) + ExeCode(p.exeState);
      hide Valid, Sorted, Processes.Enqueue;
      Enqueue(p, tag);
      code := 0;
    }

    // pcb_remove, for a PCB that is not NULL.
    method Remove(p: Pcb, ghost k: nat) returns (code: int)
      requires Valid() && Holds(M.Place(Tag(p.Snapshot()), k), p)
      modifies Queue(Tag(p.Snapshot())), Queue(Tag(p.Snapshot())).items
      ensures Valid() && p.Detached() && p.Snapshot() == old(p.Snapshot()) && code == 0
      ensures Pcbs() <= old(Pcbs())
      ensures k < |old(View())[Tag(p.Snapshot())]| && View() == M.TakeFrom(old(View()), Tag(p.Snapshot()), k)
    {
      var tag := DispCode(p.dispState) + ExeCode(p.exeState);
      hide Valid, Sorted, Processes.Remove;
      code := Dequeue(p, tag, k);
    }

    lemma IsQueue(tag: nat)
      requires Valid() && tag <= 3
      ensures Queue(tag).Valid() && View()[tag] == Snapshots(Queue(tag).items)
    {
    }

    // pcb_find: the first PCB of the given name, in the order of the tags;
    // the empty name finds nothing.
    method FindPcb(name: string) returns (found: Pcb?, ghost at: M.Place)
      requires Valid()
      ensures found == null <==> M.Find(View(), name).None?
      ensures found != null ==>
        M.Find(View(), name) == M.Some(at) && Holds(at, found) && M.Occupied(View(), at) && M.At(View(), at) == found.Snapshot()
      ensures found == null <==> name == "" || forall t, i :: 0 <= t < 4 && 0 <= i < |View()[t]| ==> View()[t][i].name != name
      ensures found != null ==>
        && found.processName == name
        && (forall t, i :: 0 <= t < at.queue && 0 <= i < |View()[t]| ==> View()[t][i].name != name)
        && (forall i :: 0 <= i < at.position ==> View()[at.queue][i].name != name)
    {
      found, at := FindInQueues(name);
      M.FindIsFirst(View(), name, at);
      hide Valid, M.Find, View;
    }

    // The loop over the queues.
    method FindInQueues(name: string) returns (found: Pcb?, ghost at: M.Place)
      requires Valid()
      ensures found == null <==> M.Find(View(), name).None?
      ensures found != null ==>
        M.Find(View(), name) == M.Some(at) && Holds(at, found) && M.Occupied(View(), at) && M.At(View(), at) == found.Snapshot()
    {
      hide Valid, M.FindFrom, Search, ProcessQueue.Linked, Snapshots;
      at := M.Place(0, 0);
      if |name| == 0 {
        return null, at;
      }
      var i := 0;
      while i <= 3
        invariant 0 <= i <= 4
        invariant M.Find(View(), name) == M.FindFrom(View(), name, i)
      {
        IsQueue(i);
        FindStep(View(), name, i);
        var p := Queue(i).SearchQueue(name);
        if p != null {
          at := M.Place(i, Search(View()[i], name));
          return p, at;
        }
        i := i + 1;
      }
      FindStep(View(), name, 4);
      return null, at;
    }

    // The place of a process agrees with its states.
    lemma HeldIsFiled(at: M.Place, p: Pcb)
      requires Valid() && M.Filed(View()) && Holds(at, p) && M.Occupied(View(), at) && M.At(View(), at) == p.Snapshot()
      ensures Tag(p.Snapshot()) == at.queue && p.exeState != Running && p.owner == Queue(at.queue)
      ensures p in Pcbs()
    {
      hide ProcessQueue.Linked, Sorted;
    }

    // Assignments to a PCB that is in no queue.
    method SetExeState(p: Pcb, s: ExecutionState)
      requires Valid() && p.Detached()
      modifies p`exeState
      ensures Valid() && View() == old(View()) && p.Detached()
      ensures p.Snapshot() == old(p.Snapshot()).(exe := s)
    {
      hide ProcessQueue.Linked, Snapshots;
      p.exeState := s;
      UntouchedKeeps(susReady);
      UntouchedKeeps(ready);
      UntouchedKeeps(susBlocked);
      UntouchedKeeps(blocked);
    }

    method SetDispState(p: Pcb, s: DispatchingState)
      requires Valid() && p.Detached()
      modifies p`dispState
      ensures Valid() && View() == old(View()) && p.Detached()
      ensures p.Snapshot() == old(p.Snapshot()).(disp := s)
    {
      hide ProcessQueue.Linked, Snapshots;
      p.dispState := s;
      UntouchedKeeps(susReady);
      UntouchedKeeps(ready);
      UntouchedKeeps(susBlocked);
      UntouchedKeeps(blocked);
    }

    // block_pcb, after the prompt.
    method BlockPcb(name: string) returns (code: int)
      requires Valid() && M.Filed(View())
      modifies susReady, ready, susBlocked, blocked, Pcbs()
      ensures Valid() && (View(), code) == M.Execute(old(View()), M.Block(name))
    {
      hide Valid, View, M.Filed, M.PutIn, M.TakeFrom, M.Find;
      var p, at := FindPcb(name);
      if p != null && p.exeState != Blocked {
        HeldIsFiled(at, p);
        if p.processClass == System {
          return -1;
        }
        M.TakeFiled(View(), at.queue, at.position);
        code := Remove(p, at.position);
        if code != 0 {
          return -2;
        }
        SetExeState(p, Blocked);
        code := Insert(p);
        if code != 0 {
          return -3;
        }
        return 0;
      } else {
        return -4;
      }
    }

    // unblock_pcb, after the prompt.
    method UnblockPcb(name: string) returns (code: int)
      requires Valid() && M.Filed(View())
      modifies susReady, ready, susBlocked, blocked, Pcbs()
      ensures Valid() && (View(), code) == M.Execute(old(View()), M.Unblock(name))
    {
      hide Valid, View, M.Filed, M.PutIn, M.TakeFrom, M.Find;
      var p, at := FindPcb(name);
      if p != null && p.exeState == Blocked {
        HeldIsFiled(at, p);
        M.TakeFiled(View(), at.queue, at.position);
        code := Remove(p, at.position);
        if code != 0 {
          return -1;
        }
        SetExeState(p, Ready);
        code := Insert(p);
        if code != 0 {
          return -2;
        }
        return 0;
      } else {
        return -3;
      }
    }

    // suspend_pcb, after the prompt.
    method SuspendPcb(name: string) returns (code: int)
      requires Valid() && M.Filed(View())
      modifies susReady, ready, susBlocked, blocked, Pcbs()
      ensures Valid() && (View(), code) == M.Execute(old(View()), M.Suspend(name))
    {
      hide Valid, View, M.Filed, M.PutIn, M.TakeFrom, M.Find;
      var p, at := FindPcb(name);
      if p != null && p.dispState != Suspended {
        HeldIsFiled(at, p);
        if p.processClass == System {
          return -1;
        }
        M.TakeFiled(View(), at.queue, at.position);
        code := Remove(p, at.position);
        if code != 0 {
          return -2;
        }
        SetDispState(p, Suspended);
        code := Insert(p);
        if code != 0 {
          return -3;
        }
        return 0;
      } else {
        return -4;
      }
    }

    // resume_pcb, after the prompt.
    method ResumePcb(name: string) returns (code: int)
      requires Valid() && M.Filed(View())
      modifies susReady, ready, susBlocked, blocked, Pcbs()
      ensures Valid() && (View(), code) == M.Execute(old(View()), M.Resume(name))
    {
      hide Valid, View, M.Filed, M.PutIn, M.TakeFrom, M.Find;
      var p, at := FindPcb(name);
      if p != null && p.dispState == Suspended {
        HeldIsFiled(at, p);
        M.TakeFiled(View(), at.queue, at.position);
        code := Remove(p, at.position);
        if code != 0 {
          return -1;
        }
        SetDispState(p, NotSuspended);
        code := Insert(p);
        if code != 0 {
          return -2;
        }
        return 0;
      } else {
        return -3;
      }
    }

    // delete_pcb, after the prompt; the memory is freed elsewhere.
    method DeletePcb(name: string) returns (code: int, ghost freed: Pcb?)
      requires Valid() && M.Filed(View())
      modifies susReady, ready, susBlocked, blocked, Pcbs()
      ensures Valid() && (View(), code) == M.Execute(old(View()), M.Delete(name))
      ensures code == 0 <==> freed != null
      ensures freed != null ==> freed.Detached()
    {
      hide Valid, View, M.Filed, M.PutIn, M.TakeFrom, M.Find;
      freed := null;
      var p, at := FindPcb(name);
      if p != null {
        HeldIsFiled(at, p);
        if p.processClass == System {
          code := -1;
          return;
        }
        var retval := Remove(p, at.position);
        if retval != 0 {
          code := -2;
          return;
        }
        freed := p;
        code := 0;
      } else {
        code := -3;
      }
    }

    // All queues but one look as they did.
    ghost predicate OthersShow(qs: seq<seq<Process>>, tag: nat)
      requires |qs| == 4
      reads susReady, ready, susBlocked, blocked
      reads susReady.items, ready.items, susBlocked.items, blocked.items
    {
      && (tag != SUS_READY_QUEUE ==> Snapshots(susReady.items) == qs[SUS_READY_QUEUE])
      && (tag != READY_QUEUE ==> Snapshots(ready.items) == qs[READY_QUEUE])
      && (tag != SUS_BLOCKED_QUEUE ==> Snapshots(susBlocked.items) == qs[SUS_BLOCKED_QUEUE])
      && (tag != BLOCKED_QUEUE ==> Snapshots(blocked.items) == qs[BLOCKED_QUEUE])
    }

    lemma ViewOf(qs: seq<seq<Process>>, tag: nat)
      requires |qs| == 4 && tag <= 3 && OthersShow(qs, tag)
      ensures View() == qs[tag := Snapshots(Queue(tag).items)]
    {
      hide Snapshots;
    }

    // A PCB in a queue is in no other.
    lemma OwnedOnce(at: M.Place, p: Pcb)
      requires Valid() && Holds(at, p)
      ensures at.queue != SUS_READY_QUEUE ==> p !in susReady.items
      ensures at.queue != READY_QUEUE ==> p !in ready.items
      ensures at.queue != SUS_BLOCKED_QUEUE ==> p !in susBlocked.items
      ensures at.queue != BLOCKED_QUEUE ==> p !in blocked.items
    {
      hide ProcessQueue.Linked;
      OwnItems(Queue(at.queue), at.position);
    }

    // set_pcb_priority assigns while the PCB is in its queue.  No link changes.
    method AssignPriority(p: Pcb, n: int)
      requires Valid()
      modifies p`processPriority
      ensures Valid() && p.processPriority == n
    {
      hide ProcessQueue.Valid;
      p.processPriority := n;
    }

    // The assignment shows in no other queue: first the ready queues,
    method AssignBesideReady(p: Pcb, n: int, ghost at: M.Place)
      requires Valid() && Holds(at, p)
      modifies p`processPriority
      ensures Valid() && p.processPriority == n
      ensures at.queue != SUS_READY_QUEUE ==> Snapshots(susReady.items) == old(Snapshots(susReady.items))
      ensures at.queue != READY_QUEUE ==> Snapshots(ready.items) == old(Snapshots(ready.items))
    {
      OwnedOnce(at, p);
      hide ProcessQueue.Valid, Snapshots, Holds;
      AssignPriority(p, n);
      if at.queue != SUS_READY_QUEUE { UntouchedKeeps(susReady); }
      if at.queue != READY_QUEUE { UntouchedKeeps(ready); }
    }

    // then the blocked ones,
    method StorePriority(p: Pcb, n: int, ghost at: M.Place)
      requires Valid() && Holds(at, p)
      modifies p`processPriority
      ensures Valid() && p.processPriority == n
      ensures OthersShow(old(View()), at.queue)
    {
      OwnedOnce(at, p);
      hide ProcessQueue.Valid, Snapshots, Holds;
      AssignBesideReady(p, n, at);
      if at.queue != SUS_BLOCKED_QUEUE { UntouchedKeeps(susBlocked); }
      if at.queue != BLOCKED_QUEUE { UntouchedKeeps(blocked); }
    }

    // and in its own queue only at its place.
    method ShowPriority(p: Pcb, n: int, ghost q: ProcessQueue, ghost at: M.Place)
      requires Valid() && Holds(at, p) && q == Queue(at.queue)
      modifies p`processPriority
      ensures Valid() && p.processPriority == n
      ensures OthersShow(old(View()), at.queue)
      ensures Snapshots(q.items) == old(Snapshots(q.items))[at.position := p.Snapshot()]
    {
      ghost var s, qs := q.items, Snapshots(q.items);
      IsQueue(at.queue);
      OwnItems(q, at.position);
      hide Valid, View, ProcessQueue.Valid, OthersShow, Queue;
      StorePriority(p, n, at);
      SnapshotsWithOne(qs, s, at.position);
    }

    method SetPriorityInPlace(p: Pcb, n: int, ghost at: M.Place)
      requires Valid() && Holds(at, p)
      modifies p`processPriority
      ensures Valid() && Holds(at, p) && Pcbs() == old(Pcbs()) && at.position < |old(View())[at.queue]|
      ensures p.Snapshot() == old(p.Snapshot()).(priority := n)
      ensures View() == old(View())[at.queue := old(View())[at.queue][at.position := p.Snapshot()]]
    {
      ghost var qs := View();
      IsQueue(at.queue);
      assert Holds(at, p);
      hide Valid, View, Snapshots, OthersShow, Pcbs, Queue, ProcessQueue.Valid;
      ShowPriority(p, n, Queue(at.queue), at);
      ViewOf(qs, at.queue);
    }

    // set_pcb_priority, after the prompts.  The priority changes while the
    // process is still in its queue, which may then be out of order; taking
    // the process out does not need the order, and restores it.
    method SetPcbPriority(name: string, newPriority: int) returns (code: int)
      requires Valid() && M.Filed(View())
      modifies susReady, ready, susBlocked, blocked, Pcbs()
      ensures Valid() && (View(), code) == M.Execute(old(View()), M.SetPriority(name, newPriority))
    {
      hide Valid, View, M.Filed, M.PutIn, M.TakeFrom, M.Find;
      var p, at := FindPcb(name);
      if p != null {
        HeldIsFiled(at, p);
        if (newPriority == 0 && p.processClass == System) || 1 <= newPriority <= 9 {
          ghost var qs := View();
          M.TakeFiled(qs, at.queue, at.position);
          SetPriorityInPlace(p, newPriority, at);
          TakeChanged(qs, at, p.Snapshot());
          if p.exeState == Ready {
            var _ := Remove(p, at.position);
            var _ := Insert(p);
          }
          return 0;
        } else {
          return -1;
        }
      } else {
        return -2;
      }
    }

    // Any of the commands, as the running process gives them.
    method Command(c: M.Command) returns (code: int)
      requires Valid() && M.Filed(View()) && Dispatched()
      modifies susReady, ready, susBlocked, blocked, Pcbs()
      ensures Valid() && M.Filed(View()) && Dispatched()
      ensures Machine() == old(Machine()).(queues := M.Execute(old(View()), c).0) && code == M.Execute(old(View()), c).1
    {
      M.ExecuteFiled(View(), c);
      if currentProcess != null { DetachedIsNotQueued(currentProcess); }
      hide Valid, View, M.Filed, M.Execute;
      match c {
        case Delete(name) =>
          ghost var freed;
          code, freed := DeletePcb(name);
        case Block(name) => code := BlockPcb(name);
        case Unblock(name) => code := UnblockPcb(name);
        case Suspend(name) => code := SuspendPcb(name);
        case Resume(name) => code := ResumePcb(name);
        case SetPriority(name, priority) => code := SetPcbPriority(name, priority);
      }
    }

    // -------------------------------------------------------- the dispatcher

    ghost function Machine(): M.Machine
      reads this, susReady, ready, susBlocked, blocked
      reads susReady.items, ready.items, susBlocked.items, blocked.items, currentProcess
    {
      M.Machine(View(), if currentProcess == null then M.None else M.Some(currentProcess.Snapshot()), initialContext)
    }

    // The running process is in no queue.
    ghost predicate Dispatched()
      reads this, currentProcess
    {
      currentProcess != null ==>
        currentProcess.Detached() && currentProcess.exeState == Ready && currentProcess.dispState == NotSuspended
    }

    method SetStackPtr(p: Pcb, ctx: Context)
      requires Valid() && p.Detached()
      modifies p`stackPtr
      ensures Valid() && View() == old(View()) && p.Detached() && Pcbs() == old(Pcbs())
      ensures p.Snapshot() == old(p.Snapshot()).(context := ctx)
    {
      hide ProcessQueue.Linked, Snapshots;
      p.stackPtr := ctx;
      UntouchedKeeps(susReady);
      UntouchedKeeps(ready);
      UntouchedKeeps(susBlocked);
      UntouchedKeeps(blocked);
    }

    lemma DetachedIsNotQueued(p: Pcb)
      requires Valid() && p.owner == null
      ensures p !in Pcbs()
    {
      hide ProcessQueue.Linked;
    }

    // The head of the ready queue.
    lemma ReadyHead()
      requires Valid() && M.Filed(View())
      ensures ready.queueHead == null <==> View()[READY_QUEUE] == []
      ensures ready.queueHead != null ==>
        && Holds(M.Place(READY_QUEUE, 0), ready.queueHead) && ready.queueHead.Snapshot() == View()[READY_QUEUE][0]
        && ready.queueHead in Pcbs() && Tag(ready.queueHead.Snapshot()) == READY_QUEUE
        && ready.queueHead.exeState == Ready && ready.queueHead.dispState == NotSuspended
    {
      hide Chain, Sorted;
    }

    // Take the first ready process off its queue.
    method NextReady() returns (next: Pcb)
      requires Valid() && M.Filed(View()) && ready.queueHead != null && View()[READY_QUEUE] != []
      modifies susReady, ready, susBlocked, blocked, Pcbs()
      ensures Valid() && next.Detached() && next.exeState == Ready && next.dispState == NotSuspended
      ensures next.Snapshot() == old(View()[READY_QUEUE][0]) && next in old(Pcbs())
      ensures View() == M.TakeFrom(old(View()), READY_QUEUE, 0) && M.Filed(View()) && Pcbs() <= old(Pcbs())
    {
      ReadyHead();
      hide Valid, View, M.Filed, M.TakeFrom;
      next := ready.queueHead;
      M.TakeFiled(View(), READY_QUEUE, 0);
      var _ := Remove(next, 0);
    }

    // The first half of sys_call: yield to the first ready process.
    method SwitchFrom(ctx: Context) returns (resumed: Context)
      requires Valid() && M.Filed(View()) && Dispatched() && ready.queueHead != null && View()[READY_QUEUE] != []
      modifies this`currentProcess, susReady, ready, susBlocked, blocked, Pcbs(), currentProcess
      ensures Valid() && Dispatched() && initialContext == old(initialContext)
      ensures resumed == old(View()[READY_QUEUE][0].context)
      ensures Machine() == M.Yield(old(Machine()), ctx)
    {
      hide Valid, View, M.Filed, M.TakeFrom, M.PutIn;
      if currentProcess != null { DetachedIsNotQueued(currentProcess); }
      var next := NextReady();
      if currentProcess != null {
        SetStackPtr(currentProcess, ctx);
        DetachedIsNotQueued(next);
        var _ := Insert(currentProcess);
      }
      currentProcess := next;
      resumed := currentProcess.stackPtr;
    }

    // Run the first ready process in the place of one that is gone.
    method SwitchTo() returns (resumed: Context)
      requires Valid() && M.Filed(View()) && ready.queueHead != null && View()[READY_QUEUE] != []
      modifies this`currentProcess, susReady, ready, susBlocked, blocked, Pcbs()
      ensures Valid() && Dispatched()
      ensures resumed == old(View()[READY_QUEUE][0].context)
      ensures Machine() == M.Machine(
        M.TakeFrom(old(View()), READY_QUEUE, 0), M.Some(old(View())[READY_QUEUE][0]), old(initialContext))
    {
      hide Valid, View, M.Filed, M.TakeFrom;
      var next := NextReady();
      currentProcess := next;
      resumed := currentProcess.stackPtr;
    }

    // Nobody is ready: back to the context saved at boot.
    method BackToBoot() returns (resumed: Context)
      requires Valid() && initialContext.Some?
      modifies this`currentProcess, this`initialContext
      ensures Valid() && Dispatched()
      ensures resumed == old(initialContext).value.(eax := 0)
      ensures Machine() == M.Machine(old(View()), M.None, M.None)
    {
      hide Valid, View;
      resumed := initialContext.value.(eax := 0);
      initialContext := M.None;
      currentProcess := null;
    }

    // sys_call for EXIT.  Freeing the memory of the exiting process is left to
    // the heap; here it is simply dropped.
    method ExitCall(ctx: Context) returns (resumed: Context)
      requires Valid() && M.Filed(View()) && Dispatched() && ctx.eax == M.EXIT && M.Callable(Machine(), ctx.eax)
      modifies this`currentProcess, this`initialContext, susReady, ready, susBlocked, blocked, Pcbs()
      ensures Valid() && Dispatched()
      ensures (Machine(), resumed) == M.SysCall(old(Machine()), ctx)
    {
      ReadyHead();
      ExitResult(Machine(), ctx);
      hide Valid, View, M.Filed, M.TakeFrom, M.SysCall;
      if ready.queueHead != null {
        resumed := SwitchTo();
      } else {
        resumed := BackToBoot();
      }
    }

    method RememberBoot(ctx: Context)
      requires Valid() && Dispatched()
      modifies this`initialContext
      ensures Valid() && Dispatched() && View() == old(View()) && initialContext.Some?
      ensures Machine() == old(Machine()).(initial := M.Remembered(old(Machine()), ctx))
    {
      hide Valid, View;
      if initialContext == M.None {
        initialContext := M.Some(ctx);
      }
    }

    // sys_call for IDLE.
    method IdleCall(ctx: Context) returns (resumed: Context)
      requires Valid() && M.Filed(View()) && Dispatched() && ctx.eax == M.IDLE
      modifies this`currentProcess, this`initialContext, susReady, ready, susBlocked, blocked, Pcbs(), currentProcess
      ensures Valid() && Dispatched()
      ensures (Machine(), resumed) == M.SysCall(old(Machine()), ctx)
    {
      ReadyHead();
      IdleResult(Machine(), ctx);
      hide Valid, View, M.Filed, M.Yield, M.SysCall;
      RememberBoot(ctx);
      if ready.queueHead != null {
        resumed := SwitchFrom(ctx);
      } else {
        resumed := BackToBoot();
      }
    }

    // sys_call
    method SysCall(ctx: Context) returns (resumed: Context)
      requires Valid() && M.Filed(View()) && Dispatched() && M.Callable(Machine(), ctx.eax)
      modifies this`currentProcess, this`initialContext, susReady, ready, susBlocked, blocked, Pcbs(), currentProcess
      ensures Valid() && M.Filed(View()) && Dispatched()
      ensures (Machine(), resumed) == M.SysCall(old(Machine()), ctx)
      ensures ctx.eax != 0 && ctx.eax != 1 ==> Machine() == old(Machine()) && resumed == ctx.(eax := -1)
      ensures ctx.eax == 0 || ctx.eax == 1 ==> M.Dispatches(old(Machine()), ctx, Machine(), resumed)
    {
      assert M.RunsReady(Machine().current);
      M.SysCallFiled(Machine(), ctx);
      M.SysCallMeans(Machine(), ctx);
      if ctx.eax == M.IDLE {
        resumed := IdleCall(ctx);
      } else if ctx.eax == M.EXIT {
        resumed := ExitCall(ctx);
      } else {
        hide Valid, View, M.Filed, Dispatched;
        resumed := ctx.(eax := -1);
      }
    }
  }

  lemma FindStep(qs: seq<seq<Process>>, name: string, i: nat)
    requires i <= |qs|
    ensures i == |qs| ==> M.FindFrom(qs, name, i) == M.None
    ensures i < |qs| && Search(qs[i], name) < |qs[i]| ==> M.FindFrom(qs, name, i) == M.Some(M.Place(i, Search(qs[i], name)))
    ensures i < |qs| && Search(qs[i], name) == |qs[i]| ==> M.FindFrom(qs, name, i) == M.FindFrom(qs, name, i + 1)
  {
  }

  lemma ExitResult(m: M.Machine, ctx: Context)
    requires M.Callable(m, ctx.eax) && ctx.eax == M.EXIT
    ensures var q := m.queues[READY_QUEUE];
      M.SysCall(m, ctx) ==
        if q != [] then (M.Machine(M.TakeFrom(m.queues, READY_QUEUE, 0), M.Some(q[0]), m.initial), q[0].context)
        else (M.Machine(m.queues, M.None, M.None), m.initial.value.(eax := 0))
  {
  }

  lemma IdleResult(m: M.Machine, ctx: Context)
    requires |m.queues| == 4 && ctx.eax == M.IDLE
    ensures M.Callable(m, ctx.eax)
    ensures var q, initial := m.queues[READY_QUEUE], M.Remembered(m, ctx);
      M.SysCall(m, ctx) ==
        if q != [] then (M.Yield(m.(initial := initial), ctx), q[0].context)
        else (M.Machine(m.queues, M.None, M.None), initial.value.(eax := 0))
  {
  }

  // Whatever stood at the place, taking it out leaves the same queues.
  lemma TakeChanged(qs: seq<seq<Process>>, at: M.Place, p: Process)
    requires M.Occupied(qs, at)
    ensures M.TakeFrom(qs[at.queue := qs[at.queue][at.position := p]], at.queue, at.position) == M.TakeFrom(qs, at.queue, at.position)
  {
    var q := qs[at.queue];
    assert Processes.Remove(q[at.position := p], at.position) == Processes.Remove(q, at.position);
  }
}
