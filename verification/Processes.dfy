/**
 Processes as values, and the queue discipline: include/mpx/pcb.h, and what
 kernel/pcb.c does to a queue seen as a sequence of processes.
 */
module Processes {

  datatype ClassType = System | User
  datatype ExecutionState = Ready | Running | Blocked
  datatype DispatchingState = Suspended | NotSuspended

  // struct context: the registers saved on a process's stack
  datatype Context = Context(
    ss: int, gs: int, fs: int, es: int, ds: int,
    edi: int, esi: int, ebp: int, esp: int, ebx: int, edx: int, ecx: int, eax: int,
    eip: int, cs: int, eflags: int)

  // struct pcb without its links.  The pid is the address of the PCB;
  // `context` is what stackPtr points to.
  datatype Process = Process(
    pid: nat, name: string, cls: ClassType, priority: int,
    exe: ExecutionState, disp: DispatchingState, context: Context)

  // The layout of struct pcb on the 32-bit target: its size, the offset of
  // pcb_stack, an array of 1024 ints, and the offset of the place in it that
  // stackPtr points to at first, sizeof(struct context) ints below its end.
  const PCB_SIZE: nat := 4128
  const PCB_STACK: nat := 20
  const STACK_TOP: nat := PCB_STACK + 4 * (1024 - 64)

  const SUS_READY_QUEUE: nat := 0
  const READY_QUEUE: nat := 1
  const SUS_BLOCKED_QUEUE: nat := 2
  const BLOCKED_QUEUE: nat := 3

  function ExeCode(s: ExecutionState): nat {
    match s
    case Ready => 0
    case Running => 1
    case Blocked => 2
  }

  function DispCode(s: DispatchingState): nat {
    match s
    case Suspended => 0
    case NotSuspended => 1
  }

  // disp_state + exe_state, the number of the queue a process belongs to.
  function Tag(p: Process): (t: nat)
    ensures t <= 3
  {
    DispCode(p.disp) + ExeCode(p.exe)
  }

  // The number names the states, as long as RUNNING is never assigned.
  lemma TagNamesStates(p: Process, q: Process)
    requires p.exe != Running && q.exe != Running
    ensures Tag(p) == Tag(q) <==> p.exe == q.exe && p.disp == q.disp
    ensures Tag(p) == READY_QUEUE <==> p.exe == Ready && p.disp == NotSuspended
    ensures Tag(p) == 0 <==> p.exe == Ready && p.disp == Suspended
    ensures Tag(p) == 1 <==> p.exe == Ready && p.disp == NotSuspended
    ensures Tag(p) == 2 <==> p.exe == Blocked && p.disp == Suspended
    ensures Tag(p) == 3 <==> p.exe == Blocked && p.disp == NotSuspended
  {
  }

  // With RUNNING it would not: every running process shares its queue number
  // with one that is not running.
  lemma RunningIsAmbiguous(p: Process)
    requires p.exe == Running
    ensures exists s, d :: s != Running && Tag(p.(exe := s, disp := d)) == Tag(p)
  {
    if p.disp == Suspended {
      assert Tag(p.(exe := Ready, disp := NotSuspended)) == Tag(p);
    } else {
      assert Tag(p.(exe := Blocked, disp := Suspended)) == Tag(p);
    }
  }

  // ------------------------------------------------------ ready-queue order

  // Highest priority first, that is, smallest number first.
  ghost predicate Sorted(q: seq<Process>) {
    forall i, j :: 0 <= i < j < |q| ==> q[i].priority <= q[j].priority
  }

  // Where a process of priority v belongs in a sorted queue: behind every
  // entry of priority v or better.
  function Position(q: seq<Process>, v: int): (k: nat)
    ensures k <= |q|
    ensures forall i :: 0 <= i < k ==> q[i].priority <= v
    ensures k < |q| ==> v < q[k].priority
  {
    if q == [] || v < q[0].priority then 0 else 1 + Position(q[1..], v)
  }

  function Insert(q: seq<Process>, k: nat, p: Process): seq<Process>
    requires k <= |q|
  {
    q[..k] + [p] + q[k..]
  }

  function Remove(q: seq<Process>, k: nat): seq<Process>
    requires k < |q|
  {
    q[..k] + q[k+1..]
  }

  // The two ready queues are kept in priority order, the two blocked queues
  // in order of arrival.
  function Enqueue(q: seq<Process>, tag: nat, p: Process): seq<Process> {
    if tag == SUS_READY_QUEUE || tag == READY_QUEUE then Insert(q, Position(q, p.priority), p) else q + [p]
  }

  lemma InsertSorted(q: seq<Process>, p: Process)
    requires Sorted(q)
    ensures Sorted(Insert(q, Position(q, p.priority), p))
  {
    var k := Position(q, p.priority);
    var r := Insert(q, k, p);
    forall i, j | 0 <= i < j < |r| ensures r[i].priority <= r[j].priority {
      assert j > k ==> r[j] == q[j-1] && q[k].priority <= q[j-1].priority;
      assert i > k ==> r[i] == q[i-1];
    }
  }

  lemma RemoveSorted(q: seq<Process>, k: nat)
    requires Sorted(q) && k < |q|
    ensures Sorted(Remove(q, k))
  {
    var r := Remove(q, k);
    assert forall i :: 0 <= i < |r| ==> r[i] == if i < k then q[i] else q[i+1];
  }

  // ------------------------------------------------- first in, first out

  // The processes of one priority, in queue order.
  function OfPriority(q: seq<Process>, v: int): seq<Process> {
    if q == [] then []
    else (if q[0].priority == v then [q[0]] else []) + OfPriority(q[1..], v)
  }

  lemma {:induction false} NoneOfPriority(q: seq<Process>, v: int)
    requires forall i :: 0 <= i < |q| ==> q[i].priority != v
    ensures OfPriority(q, v) == []
  {
    if q != [] {
      NoneOfPriority(q[1..], v);
    }
  }

  lemma InsertBehind(q: seq<Process>, k: nat, p: Process)
    requires 0 < k <= |q|
    ensures |Insert(q, k, p)| > 1 && Insert(q, k, p)[0] == q[0] && Insert(q, k, p)[1..] == Insert(q[1..], k - 1, p)
  {
  }

  lemma InsertFirst(q: seq<Process>, p: Process, v: int)
    requires forall i :: 0 <= i < |q| ==> p.priority < q[i].priority
    ensures OfPriority(Insert(q, 0, p), v) == OfPriority(q, v) + if p.priority == v then [p] else []
  {
    assert Insert(q, 0, p)[0] == p && Insert(q, 0, p)[1..] == q;
    if p.priority == v {
      NoneOfPriority(q, v);
    }
  }

  lemma PositionBehind(q: seq<Process>, v: int)
    requires Sorted(q)
    ensures var k := Position(q, v);
      && (forall i :: k <= i < |q| ==> v < q[i].priority)
      && (k > 0 ==> Position(q[1..], v) == k - 1)
  {
    var k := Position(q, v);
    forall i | k <= i < |q| ensures v < q[i].priority {
      assert i == k || q[k].priority <= q[i].priority;
    }
  }

  lemma FifoStep(q: seq<Process>, r: seq<Process>, v: int, last: seq<Process>)
    requires q != [] && r != [] && r[0] == q[0] && OfPriority(r[1..], v) == OfPriority(q[1..], v) + last
    ensures OfPriority(r, v) == OfPriority(q, v) + last
  {
  }

  lemma SortedTail(q: seq<Process>)
    requires q != [] && Sorted(q)
    ensures Sorted(q[1..])
  {
  }

  // Within each priority, enqueueing on a sorted queue adds the newcomer last
  // and leaves everybody else alone.
  lemma {:induction false} EnqueueIsFifo(q: seq<Process>, p: Process, v: int)
    requires Sorted(q)
    ensures OfPriority(Insert(q, Position(q, p.priority), p), v) ==
      OfPriority(q, v) + if p.priority == v then [p] else []
  {
    hide *;
    var k := Position(q, p.priority);
    PositionBehind(q, p.priority);
    if k == 0 {
      InsertFirst(q, p, v);
    } else {
      SortedTail(q);
      InsertBehind(q, k, p);
      EnqueueIsFifo(q[1..], p, v);
      FifoStep(q, Insert(q, k, p), v, if p.priority == v then [p] else []);
    }
  }

  // Order and these queues-within-the-queue determine a sorted queue, so the
  // two facts above leave no other result for enqueue.
  lemma {:induction false} SortedDetermined(q: seq<Process>, r: seq<Process>)
    requires Sorted(q) && Sorted(r)
    requires forall v :: OfPriority(q, v) == OfPriority(r, v)
    ensures q == r
    decreases |q|
  {
    if q == [] || r == [] {
      assert q != [] ==> OfPriority(q, q[0].priority) != [];
      assert r != [] ==> OfPriority(r, r[0].priority) != [];
    } else {
      HeadsAgree(q, r);
      forall u: int ensures OfPriority(q[1..], u) == OfPriority(r[1..], u) {
        assert OfPriority(q, u) == OfPriority(r, u);
        DropFirst(q, u);
        DropFirst(r, u);
      }
      SortedDetermined(q[1..], r[1..]);
    }
  }

  // The two blocked queues are first in, first out, whatever the priorities.
  lemma BlockedIsFifo(q: seq<Process>, tag: nat, p: Process)
    requires 2 <= tag <= 3
    ensures var r := Enqueue(q, tag, p);
      |r| == |q| + 1 && q <= r && r[|q|] == p
  {
  }

  // p has joined q behind all of its priority or better, and before all others.
  ghost predicate Joined(q: seq<Process>, p: Process, r: seq<Process>) {
    exists k :: 0 <= k <= |q| && r == q[..k] + [p] + q[k..] && forall i :: 0 <= i < |q| ==> (i < k <==> q[i].priority <= p.priority)
  }

  lemma ReadyIsByPriority(q: seq<Process>, tag: nat, p: Process)
    requires tag <= 1 && Sorted(q)
    ensures Joined(q, p, Enqueue(q, tag, p))
  {
    PositionBehind(q, p.priority);
    assert Enqueue(q, tag, p) == q[..Position(q, p.priority)] + [p] + q[Position(q, p.priority)..];
    hide Position, Sorted, Insert;
  }

  lemma DropFirst(q: seq<Process>, v: int)
    requires q != []
    ensures OfPriority(q[1..], v) == if q[0].priority == v then OfPriority(q, v)[1..] else OfPriority(q, v)
  {
  }

  lemma FirstOfPriority(q: seq<Process>)
    requires q != []
    ensures OfPriority(q, q[0].priority) != [] && OfPriority(q, q[0].priority)[0] == q[0]
  {
  }

  lemma HeadsAgree(q: seq<Process>, r: seq<Process>)
    requires q != [] && r != [] && Sorted(q) && Sorted(r)
    requires OfPriority(q, q[0].priority) == OfPriority(r, q[0].priority)
    requires OfPriority(q, r[0].priority) == OfPriority(r, r[0].priority)
    ensures q[0] == r[0]
  {
    FirstOfPriority(q);
    FirstOfPriority(r);
    hide OfPriority;
    if q[0].priority < r[0].priority {
      NoneOfPriority(r, q[0].priority);
    } else if r[0].priority < q[0].priority {
      NoneOfPriority(q, r[0].priority);
    }
  }

  // ------------------------------------------------------------- searching

  // The first process of the given name, or |q|.
  function Search(q: seq<Process>, name: string): (k: nat)
    ensures k <= |q|
    ensures k < |q| ==> q[k].name == name
    ensures forall i :: 0 <= i < k ==> q[i].name != name
  {
    if q == [] || q[0].name == name then 0 else 1 + Search(q[1..], name)
  }
}
