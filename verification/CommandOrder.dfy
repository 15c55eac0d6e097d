/**
 Where the commands of user/user_pcb.c leave each process in its queue.
 */
module CommandOrder {
  import opened Processes
  import opened Machines

  // Queue t without the process at the place.
  ghost function Left(qs: seq<seq<Process>>, at: Place, t: nat): seq<Process>
    requires Occupied(qs, at) && t < |qs|
  {
    if t == at.queue then qs[t][..at.position] + qs[t][at.position+1..] else qs[t]
  }

  // p stands at `at`; all others stand as they did, with the process that was
  // at `from` taken out.
  ghost predicate Moved(qs: seq<seq<Process>>, from: Place, qs': seq<seq<Process>>, at: Place, p: Process) {
    && |qs'| == |qs| && Occupied(qs, from) && Occupied(qs', at) && At(qs', at) == p
    && forall t :: 0 <= t < |qs| ==> Left(qs', at, t) == Left(qs, from, t)
  }

  // On a blocked queue the newcomer is last; on a ready queue it stands behind
  // all of its priority or better, and before all others.
  ghost predicate InTurn(q: seq<Process>, blocked: bool, k: nat) {
    && k < |q|
    && (blocked ==> k == |q| - 1)
    && (!blocked ==>
          && (forall i :: 0 <= i < k ==> q[i].priority <= q[k].priority)
          && (forall i :: k < i < |q| ==> q[k].priority < q[i].priority))
  }

  // What a command other than delete makes of the process it finds.
  ghost predicate Becomes(c: Command, p: Process, p': Process) {
    && p'.pid == p.pid && p'.name == p.name && p'.cls == p.cls && p'.context == p.context
    && p'.priority == (if c.SetPriority? then c.priority else p.priority)
    && p'.exe == (if c.Block? then Blocked else if c.Unblock? then Ready else p.exe)
    && p'.disp == (if c.Suspend? then Suspended else if c.Resume? then NotSuspended else p.disp)
  }

  // Queues 2 and 3 are the blocked ones; 1 and 3 those that are not suspended.
  ghost predicate Belongs(p: Process, t: nat) {
    t == (if p.exe == Blocked then 2 else 0) + if p.disp == Suspended then 0 else 1
  }

  // The process at `from` has become p, and stands where it belongs: where it
  // stood, if only the priority of a blocked process was set, else at its turn.
  ghost predicate Placed(qs: seq<seq<Process>>, from: Place, c: Command, qs': seq<seq<Process>>, at: Place, p: Process) {
    && Moved(qs, from, qs', at, p) && Becomes(c, At(qs, from), p) && Belongs(p, at.queue)
    && if c.SetPriority? && p.exe == Blocked then at == from else InTurn(qs'[at.queue], p.exe == Blocked, at.position)
  }

  lemma InsertLeaves(q: seq<Process>, k: nat, p: Process)
    requires k <= |q|
    ensures var r := Insert(q, k, p); |r| == |q| + 1 && r[k] == p && r[..k] + r[k+1..] == q
  {
    assert Insert(q, k, p)[..k] == q[..k] && Insert(q, k, p)[k+1..] == q[k..];
  }

  lemma EnqueueReadyInTurn(q: seq<Process>, p: Process)
    requires Sorted(q)
    ensures var k := Position(q, p.priority); InTurn(Insert(q, k, p), false, k)
  {
    var k := Position(q, p.priority);
    PositionBehind(q, p.priority);
    InsertAt(q, k, p, Insert(q, k, p));
    hide Insert, Sorted, Position;
  }

  lemma EnqueueInTurn(q: seq<Process>, t: nat, p: Process) returns (k: nat)
    requires t <= 3 && (t <= 1 ==> Sorted(q))
    ensures var r := Enqueue(q, t, p); InTurn(r, t >= 2, k) && r[k] == p && r[..k] + r[k+1..] == q
  {
    hide Sorted, Position, Insert;
    if t <= 1 {
      k := Position(q, p.priority);
      EnqueueReadyInTurn(q, p);
      hide InTurn;
      InsertLeaves(q, k, p);
    } else {
      k := |q|;
      assert Enqueue(q, t, p)[..k] == q;
    }
  }

  // Joining the queue that p belongs to, in turn.
  lemma PutInTurn(qs: seq<seq<Process>>, p: Process) returns (at: Place)
    requires Filed(qs) && p.exe != Running
    ensures var qs' := PutIn(qs, p);
      && Belongs(p, at.queue) && Occupied(qs', at) && At(qs', at) == p && InTurn(qs'[at.queue], p.exe == Blocked, at.position)
      && |qs'| == 4 && forall u :: 0 <= u < 4 ==> Left(qs', at, u) == qs[u]
  {
    TagNamesStates(p, p);
    var t := Tag(p);
    hide Enqueue, Sorted, InTurn;
    var k := EnqueueInTurn(qs[t], t, p);
    at := Place(t, k);
  }

  // Moving a process is taking it out and letting it join in turn.
  lemma MoveInTurn(qs: seq<seq<Process>>, from: Place, c: Command, p: Process) returns (at: Place)
    requires Filed(qs) && Occupied(qs, from) && p.exe != Running && Becomes(c, At(qs, from), p)
    requires c.SetPriority? ==> p.exe == Ready
    ensures Placed(qs, from, c, Move(qs, from, p), at, p)
  {
    var qs1 := TakeFrom(qs, from.queue, from.position);
    TakeFiled(qs, from.queue, from.position);
    assert |qs| == 4;
    hide Filed, PutIn, InTurn, Becomes, Belongs;
    at := PutInTurn(qs1, p);
    assert forall t :: 0 <= t < 4 ==> qs1[t] == Left(qs, from, t);
  }

  lemma SetStays(qs: seq<seq<Process>>, from: Place, c: Command, p: Process)
    requires Filed(qs) && Occupied(qs, from) && p.exe == Blocked && c.SetPriority? && Becomes(c, At(qs, from), p)
    ensures Placed(qs, from, c, qs[from.queue := qs[from.queue][from.position := p]], from, p)
  {
    var q := qs[from.queue];
    var r := q[from.position := p];
    assert r[..from.position] == q[..from.position] && r[from.position+1..] == q[from.position+1..];
    TagNamesStates(At(qs, from), At(qs, from));
    hide Sorted;
  }

  // All four queues after a successful command.  delete takes its process out;
  // a priority set on a blocked process leaves it where it stands; every other
  // command moves its process to its turn in the queue that it belongs to then.
  // Nobody else moves.
  lemma ExecuteMoves(qs: seq<seq<Process>>, c: Command) returns (at: Place, p: Process)
    requires Filed(qs) && Execute(qs, c).1 == 0
    ensures Find(qs, c.name).Some? && |Execute(qs, c).0| == 4
    ensures var (from, qs') := (Find(qs, c.name).value, Execute(qs, c).0);
      if c.Delete? then forall t :: 0 <= t < 4 ==> qs'[t] == Left(qs, from, t)
      else Placed(qs, from, c, qs', at, p)
  {
    hide Find, Filed, Sorted, Placed, Move, Becomes;
    var from := Find(qs, c.name).value;
    at, p := from, Changed(c, At(qs, from));
    NobodyRuns(qs, from);
    if c.Delete? {
    } else if c.SetPriority? && p.exe != Ready {
      ExecuteIsSet(qs, c, from);
      hide Execute;
      SetStays(qs, from, c, p);
    } else {
      ExecuteIsMove(qs, c, from);
      hide Execute;
      at := MoveInTurn(qs, from, c, p);
    }
  }

  lemma NobodyRuns(qs: seq<seq<Process>>, at: Place)
    requires Filed(qs) && Occupied(qs, at)
    ensures |qs| == 4 && At(qs, at).exe != Running
  {
  }

  lemma ExecuteIsSet(qs: seq<seq<Process>>, c: Command, from: Place)
    requires |qs| == 4 && Find(qs, c.name) == Some(from) && Execute(qs, c).1 == 0
    requires c.SetPriority? && At(qs, from).exe == Blocked
    ensures var p := Changed(c, At(qs, from));
      && Execute(qs, c).0 == qs[from.queue := qs[from.queue][from.position := p]]
      && Becomes(c, At(qs, from), p) && p.exe == Blocked
  {
    hide Find, Move;
  }

  lemma ExecuteIsMove(qs: seq<seq<Process>>, c: Command, from: Place)
    requires |qs| == 4 && Find(qs, c.name) == Some(from) && Execute(qs, c).1 == 0
    requires !c.Delete? && (c.SetPriority? ==> At(qs, from).exe == Ready) && At(qs, from).exe != Running
    ensures var p := Changed(c, At(qs, from));
      && Execute(qs, c).0 == Move(qs, from, p) && |Move(qs, from, p)| == 4
      && Becomes(c, At(qs, from), p) && p.exe != Running && (c.SetPriority? ==> p.exe == Ready)
  {
    hide Find, Enqueue, Remove;
  }

  // ------------------------------------------------------------- the others

  // The queue but for the process of this pid.
  function Others(q: seq<Process>, pid: nat): seq<Process> {
    if q == [] then []
    else (if q[0].pid == pid then [] else [q[0]]) + Others(q[1..], pid)
  }

  lemma {:induction false} OthersWithout(q: seq<Process>, k: nat, pid: nat)
    requires k < |q| && q[k].pid == pid
    ensures Others(q[..k] + q[k+1..], pid) == Others(q, pid)
  {
    if k == 0 {
      assert q[..0] + q[1..] == q[1..];
    } else {
      assert (q[..k] + q[k+1..])[1..] == q[1..][..k-1] + q[1..][k..];
      OthersWithout(q[1..], k - 1, pid);
    }
  }

  lemma OthersLeft(qs: seq<seq<Process>>, at: Place, t: nat)
    requires Occupied(qs, at) && t < |qs|
    ensures Others(Left(qs, at, t), At(qs, at).pid) == Others(qs[t], At(qs, at).pid)
  {
    if t == at.queue {
      OthersWithout(qs[t], at.position, At(qs, at).pid);
    }
    hide Others;
  }

  // Whatever a command does to its process, all others stay in their queues in
  // the same order.
  lemma OthersKeepOrder(qs: seq<seq<Process>>, c: Command, t: nat)
    requires Filed(qs) && Execute(qs, c).1 == 0 && t < 4
    ensures var (at, qs') := (Find(qs, c.name), Execute(qs, c).0);
      at.Some? && |qs'| == 4 && Others(qs'[t], At(qs, at.value).pid) == Others(qs[t], At(qs, at.value).pid)
  {
    var at, p := ExecuteMoves(qs, c);
    assert |qs| == 4;
    hide Execute, Filed, Find, Belongs, InTurn, Left, Others;
    var from, qs' := Find(qs, c.name).value, Execute(qs, c).0;
    OthersLeft(qs, from, t);
    if !c.Delete? {
      OthersLeft(qs', at, t);
    }
  }
}
