/**
 The process side of the kernel as a value: the four queues, the running
 process, and the context saved at boot.  What the commands of
 user/user_pcb.c and the dispatcher of kernel/sys_call.c do to it.
 */
module Machines {
  import opened Processes

  datatype Option<+T> = None | Some(value: T)

  // system call numbers (include/sys_req.h)
  const EXIT: int := 0
  const IDLE: int := 1

  datatype Machine = Machine(queues: seq<seq<Process>>, current: Option<Process>, initial: Option<Context>)

  // ------------------------------------------------------- queue primitives

  function PutIn(qs: seq<seq<Process>>, p: Process): seq<seq<Process>>
    requires |qs| == 4
  {
    qs[Tag(p) := Enqueue(qs[Tag(p)], Tag(p), p)]
  }

  function TakeFrom(qs: seq<seq<Process>>, t: nat, i: nat): seq<seq<Process>>
    requires t < |qs| && i < |qs[t]|
  {
    qs[t := Remove(qs[t], i)]
  }

  // The place of a process: its queue and its position there.
  datatype Place = Place(queue: nat, position: nat)

  predicate Occupied(qs: seq<seq<Process>>, at: Place) {
    at.queue < |qs| && at.position < |qs[at.queue]|
  }

  function At(qs: seq<seq<Process>>, at: Place): Process
    requires Occupied(qs, at)
  {
    qs[at.queue][at.position]
  }

  // pcb_find from queue t on.
  function FindFrom(qs: seq<seq<Process>>, name: string, t: nat): (r: Option<Place>)
    ensures r.Some? ==> Occupied(qs, r.value) && At(qs, r.value).name == name
    ensures r.None? ==> forall u, i :: t <= u < |qs| && 0 <= i < |qs[u]| ==> qs[u][i].name != name
    decreases |qs| - t
  {
    if t >= |qs| then None
    else
      var i := Search(qs[t], name);
      if i < |qs[t]| then Some(Place(t, i)) else FindFrom(qs, name, t + 1)
  }

  // pcb_find: the empty name names nobody.
  function Find(qs: seq<seq<Process>>, name: string): (r: Option<Place>)
    ensures r.Some? ==> Occupied(qs, r.value) && At(qs, r.value).name == name
  {
    if name == "" then None else FindFrom(qs, name, 0)
  }

  // Take a process out, and put it back with changed fields.
  function Move(qs: seq<seq<Process>>, at: Place, p: Process): seq<seq<Process>>
    requires |qs| == 4 && Occupied(qs, at)
  {
    PutIn(TakeFrom(qs, at.queue, at.position), p)
  }

  // --------------------------------------------------------------- commands

  datatype Command =
    | Delete(name: string)
    | Block(name: string)
    | Unblock(name: string)
    | Suspend(name: string)
    | Resume(name: string)
    | SetPriority(name: string, priority: int)

  predicate PriorityAllowed(cls: ClassType, n: int) {
    (n == 0 && cls == System) || 1 <= n <= 9
  }

  // The queues after a command, and the code it returns.
  function Execute(qs: seq<seq<Process>>, c: Command): (seq<seq<Process>>, int)
    requires |qs| == 4
  {
    var at := Find(qs, c.name);
    match c
    case Delete(_) =>
      if at.None? then (qs, -3) else
      var p := At(qs, at.value);
      if p.cls == System then (qs, -1)
      else (TakeFrom(qs, at.value.queue, at.value.position), 0)
    case Block(_) =>
      if at.None? then (qs, -4) else
      var p := At(qs, at.value);
      if p.exe == Blocked then (qs, -4)
      else if p.cls == System then (qs, -1)
      else (Move(qs, at.value, p.(exe := Blocked)), 0)
    case Unblock(_) =>
      if at.None? then (qs, -3) else
      var p := At(qs, at.value);
      if p.exe != Blocked then (qs, -3)
      else (Move(qs, at.value, p.(exe := Ready)), 0)
    case Suspend(_) =>
      if at.None? then (qs, -4) else
      var p := At(qs, at.value);
      if p.disp == Suspended then (qs, -4)
      else if p.cls == System then (qs, -1)
      else (Move(qs, at.value, p.(disp := Suspended)), 0)
    case Resume(_) =>
      if at.None? then (qs, -3) else
      var p := At(qs, at.value);
      if p.disp != Suspended then (qs, -3)
      else (Move(qs, at.value, p.(disp := NotSuspended)), 0)
    case SetPriority(_, n) =>
      if at.None? then (qs, -2) else
      var p := At(qs, at.value);
      if !PriorityAllowed(p.cls, n) then (qs, -1)
      else if p.exe == Ready then (Move(qs, at.value, p.(priority := n)), 0)
      else (qs[at.value.queue := qs[at.value.queue][at.value.position := p.(priority := n)]], 0)
  }

  // -------------------------------------------------------------- dispatcher

  // What a system call must find: an exit has somebody to exit, and if nobody
  // is ready afterwards, a boot context to go back to.
  predicate Callable(m: Machine, op: int) {
    && |m.queues| == 4
    && (op == EXIT ==> m.current.Some? && (m.queues[READY_QUEUE] == [] ==> m.initial.Some?))
  }

  // The first ready process runs instead of the current one, which goes back
  // to its queue with its context saved.
  function Yield(m: Machine, ctx: Context): Machine
    requires |m.queues| == 4 && m.queues[READY_QUEUE] != []
  {
    var qs := TakeFrom(m.queues, READY_QUEUE, 0);
    var qs' := if m.current.Some? then PutIn(qs, m.current.value.(context := ctx)) else qs;
    Machine(qs', Some(m.queues[READY_QUEUE][0]), m.initial)
  }

  // The boot context, remembered at the first IDLE.
  function Remembered(m: Machine, ctx: Context): Option<Context> {
    if m.initial.None? then Some(ctx) else m.initial
  }

  // sys_call: the machine afterwards, and the context that is resumed.
  function SysCall(m: Machine, ctx: Context): (Machine, Context)
    requires Callable(m, ctx.eax)
  {
    var ready := m.queues[READY_QUEUE];
    if ctx.eax == IDLE then
      var initial := Remembered(m, ctx);
      if ready != [] then
        (Yield(m.(initial := initial), ctx), ready[0].context)
      else
        (Machine(m.queues, None, None), initial.value.(eax := 0))
    else if ctx.eax == EXIT then
      if ready != [] then
        (Machine(TakeFrom(m.queues, READY_QUEUE, 0), Some(ready[0]), m.initial), ready[0].context)
      else
        (Machine(m.queues, None, None), m.initial.value.(eax := 0))
    else
      (m, ctx.(eax := -1))
  }

  // What IDLE (number 1) and EXIT (number 0) do.  If somebody is ready, the
  // first of them runs, from the context it was left with; the caller of IDLE
  // joins a queue with its own.  If nobody is, the boot context runs, answered
  // with 0, and is forgotten.
  ghost predicate Dispatches(m: Machine, ctx: Context, m': Machine, resumed: Context) {
    && |m.queues| == 4 && |m'.queues| == 4
    && var q := m.queues[1];
       if q != [] then
         && m'.current == Some(q[0]) && resumed == q[0].context
         && m'.initial == (if ctx.eax == 1 && m.initial.None? then Some(ctx) else m.initial)
         && (forall t :: 0 <= t < 4 && t != 1 ==> m'.queues[t] == m.queues[t])
         && (ctx.eax == 0 || m.current.None? ==> m'.queues[1] == q[1..])
         && (ctx.eax == 1 && m.current.Some? ==> Joined(q[1..], m.current.value.(context := ctx), m'.queues[1]))
       else
         && m'.queues == m.queues && m'.current.None? && m'.initial.None?
         && (m.initial.Some? ==> resumed == m.initial.value.(eax := 0))
         && (m.initial.None? ==> resumed == ctx.(eax := 0))
  }

  lemma YieldJoins(q: seq<Process>, p: Process)
    requires q != [] && Sorted(q)
    ensures Remove(q, 0) == q[1..] && Joined(q[1..], p, Enqueue(q[1..], READY_QUEUE, p))
  {
    assert Remove(q, 0) == q[1..];
    SortedTail(q);
    hide Enqueue, Sorted, Remove;
    ReadyIsByPriority(q[1..], READY_QUEUE, p);
  }

  lemma IdleMeans(m: Machine, ctx: Context)
    requires Filed(m.queues) && RunsReady(m.current) && ctx.eax == IDLE
    ensures Callable(m, ctx.eax) && Dispatches(m, ctx, SysCall(m, ctx).0, SysCall(m, ctx).1)
  {
    var q := m.queues[READY_QUEUE];
    if q != [] {
      YieldJoins(q, if m.current.Some? then m.current.value.(context := ctx) else q[0]);
    }
    hide Filed, Remove, Enqueue, Sorted, Joined;
  }

  lemma ExitMeans(m: Machine, ctx: Context)
    requires Filed(m.queues) && Callable(m, ctx.eax) && ctx.eax == EXIT
    ensures Dispatches(m, ctx, SysCall(m, ctx).0, SysCall(m, ctx).1)
  {
    var q := m.queues[READY_QUEUE];
    if q != [] {
      assert Remove(q, 0) == q[1..];
    }
    hide Filed, Remove, Sorted, Joined;
  }

  // The three branches of sys_call, over all machines that are in order.  Any
  // other number is answered with -1, and nothing else happens: not even
  // another register changes.
  lemma SysCallMeans(m: Machine, ctx: Context)
    requires Filed(m.queues) && RunsReady(m.current) && Callable(m, ctx.eax)
    ensures var (m', resumed) := SysCall(m, ctx);
      && (ctx.eax == 0 || ctx.eax == 1 ==> Dispatches(m, ctx, m', resumed))
      && (ctx.eax != 0 && ctx.eax != 1 ==> m' == m && resumed == ctx.(eax := -1))
  {
    if ctx.eax == IDLE {
      IdleMeans(m, ctx);
      hide SysCall, Dispatches;
    } else if ctx.eax == EXIT {
      ExitMeans(m, ctx);
      hide SysCall, Dispatches;
    }
  }

  // --------------------------------------------------------------- invariant

  // Each process is in the queue its states name, and the ready queues are in
  // priority order.
  ghost predicate Filed(qs: seq<seq<Process>>) {
    && |qs| == 4
    && (forall t, i :: 0 <= t < 4 && 0 <= i < |qs[t]| ==> Tag(qs[t][i]) == t && qs[t][i].exe != Running)
    && Sorted(qs[SUS_READY_QUEUE]) && Sorted(qs[READY_QUEUE])
  }

  ghost predicate RunsReady(current: Option<Process>) {
    current.Some? ==> current.value.exe == Ready && current.value.disp == NotSuspended
  }

  lemma RemoveAt(q: seq<Process>, k: nat, r: seq<Process>)
    requires k < |q| && r == Remove(q, k)
    ensures |r| == |q| - 1 && forall i :: 0 <= i < |r| ==> r[i] == if i < k then q[i] else q[i+1]
  {
  }

  lemma InsertAt(q: seq<Process>, k: nat, p: Process, r: seq<Process>)
    requires k <= |q| && r == Insert(q, k, p)
    ensures |r| == |q| + 1 && forall i :: 0 <= i < |r| ==> r[i] == if i < k then q[i] else if i == k then p else q[i-1]
  {
  }

  lemma TakeFiled(qs: seq<seq<Process>>, t: nat, k: nat)
    requires Filed(qs) && t < 4 && k < |qs[t]|
    ensures Filed(TakeFrom(qs, t, k))
  {
    var r := Remove(qs[t], k);
    RemoveAt(qs[t], k, r);
    if t <= 1 {
      RemoveSorted(qs[t], k);
    }
    hide Remove, Sorted;
  }

  lemma PutFiled(qs: seq<seq<Process>>, p: Process)
    requires Filed(qs) && p.exe != Running
    ensures Filed(PutIn(qs, p))
  {
    var t := Tag(p);
    var r := Enqueue(qs[t], t, p);
    if t <= 1 {
      InsertSorted(qs[t], p);
      InsertAt(qs[t], Position(qs[t], p.priority), p, r);
    }
    hide Insert, Sorted, Position;
  }

  lemma MoveFiled(qs: seq<seq<Process>>, at: Place, p: Process)
    requires Filed(qs) && Occupied(qs, at) && p.exe != Running
    ensures Filed(Move(qs, at, p))
  {
    assert |qs| == 4;
    hide Filed, TakeFrom, PutIn;
    TakeFiled(qs, at.queue, at.position);
    PutFiled(TakeFrom(qs, at.queue, at.position), p);
  }

  // A blocked process may change its priority where it stands.
  lemma SetBlockedFiled(qs: seq<seq<Process>>, at: Place, n: int)
    requires Filed(qs) && Occupied(qs, at) && At(qs, at).exe == Blocked
    ensures Filed(qs[at.queue := qs[at.queue][at.position := At(qs, at).(priority := n)]])
  {
    hide Sorted;
  }

  // Every command leaves every process in the queue its states name, and
  // both ready queues in order, even the one that changes a priority in place
  // first.
  lemma ExecuteFiled(qs: seq<seq<Process>>, c: Command)
    requires Filed(qs)
    ensures Filed(Execute(qs, c).0)
  {
    var at := Find(qs, c.name);
    if at.Some? {
      var p := At(qs, at.value);
      assert p.exe != Running;
      hide Filed, Move, Find;
      match c
      case Delete(_) => TakeFiled(qs, at.value.queue, at.value.position);
      case Block(_) => MoveFiled(qs, at.value, p.(exe := Blocked));
      case Unblock(_) => MoveFiled(qs, at.value, p.(exe := Ready));
      case Suspend(_) => MoveFiled(qs, at.value, p.(disp := Suspended));
      case Resume(_) => MoveFiled(qs, at.value, p.(disp := NotSuspended));
      case SetPriority(_, n) =>
        MoveFiled(qs, at.value, p.(priority := n));
        if p.exe == Blocked {
          SetBlockedFiled(qs, at.value, n);
        }
    }
  }

  // Where yielding leaves the ready queue.
  lemma YieldQueue(m: Machine, ctx: Context)
    requires |m.queues| == 4 && m.current.Some? && RunsReady(m.current) && m.queues[READY_QUEUE] != []
    ensures var (p, q, m') := (m.current.value, m.queues[READY_QUEUE], Yield(m, ctx));
      && m'.current == Some(q[0]) && |m'.queues| == 4
      && m'.queues[READY_QUEUE] == Insert(q[1..], Position(q[1..], p.priority), p.(context := ctx))
  {
    var q := m.queues[READY_QUEUE];
    assert Remove(q, 0) == q[1..];
    hide Remove, Insert, Position;
  }

  lemma YieldFiled(m: Machine, ctx: Context)
    requires Filed(m.queues) && RunsReady(m.current) && m.queues[READY_QUEUE] != []
    ensures Filed(Yield(m, ctx).queues) && RunsReady(Yield(m, ctx).current)
  {
    TakeFiled(m.queues, READY_QUEUE, 0);
    TagNamesStates(m.queues[READY_QUEUE][0], m.queues[READY_QUEUE][0]);
    if m.current.Some? {
      PutFiled(TakeFrom(m.queues, READY_QUEUE, 0), m.current.value.(context := ctx));
    }
    hide Sorted, TakeFrom, PutIn;
  }

  lemma NextFiled(qs: seq<seq<Process>>)
    requires Filed(qs) && qs[READY_QUEUE] != []
    ensures Filed(TakeFrom(qs, READY_QUEUE, 0)) && RunsReady(Some(qs[READY_QUEUE][0]))
  {
    TakeFiled(qs, READY_QUEUE, 0);
    TagNamesStates(qs[READY_QUEUE][0], qs[READY_QUEUE][0]);
    hide Sorted, TakeFrom;
  }

  // Every system call leaves every process in the queue its states name and
  // the ready queues in order, and runs a ready process that is not suspended.
  lemma SysCallFiled(m: Machine, ctx: Context)
    requires Filed(m.queues) && RunsReady(m.current) && Callable(m, ctx.eax)
    ensures var m' := SysCall(m, ctx).0; Filed(m'.queues) && RunsReady(m'.current)
  {
    if m.queues[READY_QUEUE] != [] {
      YieldFiled(m.(initial := Remembered(m, ctx)), ctx);
      NextFiled(m.queues);
    }
    hide Filed, TakeFrom, Yield;
  }

  // -------------------------------------------------------------- population

  ghost function Population(qs: seq<seq<Process>>): multiset<Process>
    requires |qs| == 4
  {
    multiset(qs[0]) + multiset(qs[1]) + multiset(qs[2]) + multiset(qs[3])
  }

  // Each process once, and no two processes with one pid.
  ghost predicate OneEach(pop: multiset<Process>) {
    forall p, q :: p in pop && q in pop && p.pid == q.pid ==> p == q && pop[p] == 1
  }

  lemma InsertPopulation(q: seq<Process>, k: nat, p: Process)
    requires k <= |q|
    ensures multiset(Insert(q, k, p)) == multiset(q) + multiset{p}
  {
    assert q == q[..k] + q[k..];
  }

  lemma RemovePopulation(q: seq<Process>, k: nat)
    requires k < |q|
    ensures multiset(Remove(q, k)) + multiset{q[k]} == multiset(q)
  {
    assert q == q[..k] + [q[k]] + q[k+1..];
  }

  lemma PutPopulation(qs: seq<seq<Process>>, p: Process)
    requires |qs| == 4
    ensures Population(PutIn(qs, p)) == Population(qs) + multiset{p}
  {
    var t := Tag(p);
    InsertPopulation(qs[t], Position(qs[t], p.priority), p);
    assert multiset(Enqueue(qs[t], t, p)) == multiset(qs[t]) + multiset{p};
    hide Enqueue;
  }

  lemma TakePopulation(qs: seq<seq<Process>>, t: nat, k: nat)
    requires |qs| == 4 && t < 4 && k < |qs[t]|
    ensures Population(TakeFrom(qs, t, k)) + multiset{qs[t][k]} == Population(qs)
  {
    RemovePopulation(qs[t], k);
    hide Remove;
  }

  lemma MovePopulation(qs: seq<seq<Process>>, at: Place, p: Process)
    requires |qs| == 4 && Occupied(qs, at)
    ensures Population(Move(qs, at, p)) + multiset{At(qs, at)} == Population(qs) + multiset{p}
  {
    hide Population, PutIn, Remove;
    TakePopulation(qs, at.queue, at.position);
    PutPopulation(TakeFrom(qs, at.queue, at.position), p);
  }

  lemma SetPopulation(qs: seq<seq<Process>>, at: Place, p: Process)
    requires |qs| == 4 && Occupied(qs, at)
    ensures Population(qs[at.queue := qs[at.queue][at.position := p]]) + multiset{At(qs, at)} == Population(qs) + multiset{p}
  {
    var q := qs[at.queue];
    assert multiset(q[at.position := p]) + multiset{q[at.position]} == multiset(q) + multiset{p};
  }

  // What each command turns the process it finds into.
  function Changed(c: Command, p: Process): Process {
    match c
    case Delete(_) => p
    case Block(_) => p.(exe := Blocked)
    case Unblock(_) => p.(exe := Ready)
    case Suspend(_) => p.(disp := Suspended)
    case Resume(_) => p.(disp := NotSuspended)
    case SetPriority(_, n) => p.(priority := n)
  }

  // Whom a command acts on: never on a system process if it deletes, blocks or
  // suspends; only on one that is not yet as it should be; and only with a
  // priority that the class allows.
  predicate MayAffect(c: Command, p: Process) {
    && p.name == c.name && c.name != ""
    && (c.Delete? || c.Block? || c.Suspend? ==> p.cls == User)
    && (c.Block? ==> p.exe != Blocked) && (c.Unblock? ==> p.exe == Blocked)
    && (c.Suspend? ==> p.disp != Suspended) && (c.Resume? ==> p.disp == Suspended)
    && (c.SetPriority? ==> PriorityAllowed(p.cls, c.priority))
  }

  // p, found by its name, has been changed or removed, and nothing else.
  ghost predicate Affects(c: Command, qs: seq<seq<Process>>, p: Process, qs': seq<seq<Process>>) {
    && |qs| == 4 && |qs'| == 4
    && p in Population(qs) && MayAffect(c, p)
    && Population(qs') + multiset{p} == Population(qs) + if c.Delete? then multiset{} else multiset{Changed(c, p)}
  }

  lemma TakeAffects(qs: seq<seq<Process>>, at: Place, c: Command)
    requires |qs| == 4 && Occupied(qs, at) && MayAffect(c, At(qs, at)) && c.Delete?
    ensures Affects(c, qs, At(qs, at), TakeFrom(qs, at.queue, at.position))
  {
    PlacePopulation(qs, at);
    TakePopulation(qs, at.queue, at.position);
    hide Population;
  }

  lemma MoveAffects(qs: seq<seq<Process>>, at: Place, c: Command)
    requires |qs| == 4 && Occupied(qs, at) && MayAffect(c, At(qs, at)) && !c.Delete?
    ensures Affects(c, qs, At(qs, at), Move(qs, at, Changed(c, At(qs, at))))
  {
    PlacePopulation(qs, at);
    MovePopulation(qs, at, Changed(c, At(qs, at)));
    hide Population, Changed;
  }

  lemma SetAffects(qs: seq<seq<Process>>, at: Place, c: Command)
    requires |qs| == 4 && Occupied(qs, at) && MayAffect(c, At(qs, at)) && !c.Delete?
    ensures Affects(c, qs, At(qs, at), qs[at.queue := qs[at.queue][at.position := Changed(c, At(qs, at))]])
  {
    PlacePopulation(qs, at);
    SetPopulation(qs, at, Changed(c, At(qs, at)));
    hide Population, Changed;
  }

  lemma ExecuteAffects(qs: seq<seq<Process>>, c: Command, at: Place)
    requires |qs| == 4 && Find(qs, c.name) == Some(at)
    ensures var (qs', code) := Execute(qs, c);
      && (code == 0 <==> MayAffect(c, At(qs, at)))
      && if code != 0 then qs' == qs else Affects(c, qs, At(qs, at), qs')
  {
    hide Affects, TakeFrom, Move;
    var p := At(qs, at);
    if Execute(qs, c).1 == 0 {
      assert MayAffect(c, p);
      hide Find;
      match c
      case Delete(_) => TakeAffects(qs, at, c);
      case SetPriority(_, _) =>
        MoveAffects(qs, at, c);
        SetAffects(qs, at, c);
      case _ => MoveAffects(qs, at, c);
    }
  }

  // A command succeeds just if the first process of the name, in the order of
  // the queues, is one it may act on.  Then it changes that process, or removes
  // it, and nothing else; if it fails, it changes nothing.
  lemma ExecuteIsExact(qs: seq<seq<Process>>, c: Command)
    requires |qs| == 4
    ensures var (qs', code) := Execute(qs, c);
      && (code == 0 <==> Find(qs, c.name).Some? && MayAffect(c, At(qs, Find(qs, c.name).value)))
      && if code != 0 then qs' == qs else exists p :: Affects(c, qs, p, qs')
  {
    var at := Find(qs, c.name);
    hide Affects;
    if at.Some? {
      ExecuteAffects(qs, c, at.value);
      hide Execute;
    } else {
      hide Find;
    }
  }

  // ----------------------------------------------- whom a name stands for

  // A name stands for the first process that has it, in the queue of the
  // lowest number; the empty name, for nobody.
  lemma FindIsFirst(qs: seq<seq<Process>>, name: string, at: Place)
    ensures Find(qs, name) == Some(at) <==>
      && name != "" && Occupied(qs, at) && At(qs, at).name == name
      && (forall t, i :: 0 <= t < at.queue && 0 <= i < |qs[t]| ==> qs[t][i].name != name)
      && (forall i :: 0 <= i < at.position ==> qs[at.queue][i].name != name)
    ensures Find(qs, name).None? <==> name == "" || forall t, i :: 0 <= t < |qs| && 0 <= i < |qs[t]| ==> qs[t][i].name != name
  {
    FindFromIsFirst(qs, name, 0);
    hide FindFrom;
  }

  lemma {:induction false} FindFromIsFirst(qs: seq<seq<Process>>, name: string, u: nat)
    ensures FindFrom(qs, name, u).Some? ==> var at := FindFrom(qs, name, u).value;
      && u <= at.queue && Occupied(qs, at)
      && (forall t, i :: u <= t < at.queue && 0 <= i < |qs[t]| ==> qs[t][i].name != name)
      && (forall i :: 0 <= i < at.position ==> qs[at.queue][i].name != name)
    decreases |qs| - u
  {
    if u < |qs| && Search(qs[u], name) == |qs[u]| {
      FindFromIsFirst(qs, name, u + 1);
    }
    hide Search;
  }

  // ------------------------------------------------------- what is answered

  // Which failure is answered with which number, and which priorities the two
  // classes may get.
  lemma ExecuteAnswers(qs: seq<seq<Process>>, c: Command)
    requires |qs| == 4
    ensures var (at, code) := (Find(qs, c.name), Execute(qs, c).1);
      if at.None? then
        code == match c
          case Delete(_) => -3
          case Block(_) => -4
          case Unblock(_) => -3
          case Suspend(_) => -4
          case Resume(_) => -3
          case SetPriority(_, _) => -2
      else
        var p := At(qs, at.value);
        && (c.Delete? ==> code == if p.cls == System then -1 else 0)
        && (c.Block? ==> code == if p.exe == Blocked then -4 else if p.cls == System then -1 else 0)
        && (c.Unblock? ==> code == if p.exe == Blocked then 0 else -3)
        && (c.Suspend? ==> code == if p.disp == Suspended then -4 else if p.cls == System then -1 else 0)
        && (c.Resume? ==> code == if p.disp == Suspended then 0 else -3)
        && (c.SetPriority? && p.cls == User ==> code == if 1 <= c.priority <= 9 then 0 else -1)
        && (c.SetPriority? && p.cls == System ==> code == if 0 <= c.priority <= 9 then 0 else -1)
  {
    hide Find, Move, TakeFrom;
  }

  lemma PlacePopulation(qs: seq<seq<Process>>, at: Place)
    requires |qs| == 4 && Occupied(qs, at)
    ensures At(qs, at) in Population(qs)
  {
    assert At(qs, at) in qs[at.queue];
  }
}
