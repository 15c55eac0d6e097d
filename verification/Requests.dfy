/**
 sys_req of user/core.c, around the system call it makes.  The interrupt may
 give the processor to others before sys_req goes on, so what comes before it
 and what comes after are two functions.
 */
module Requests {
  import opened Processes
  import opened Machines
  import S = Scheduling

  // op_code (include/sys_req.h)
  const READ: int := 2
  const WRITE: int := 3

  datatype Request = Request(op: int, dev: int, buffer: int, len: int)

  // The registers at the interrupt.  Device, buffer and length are read only
  // for READ and WRITE.
  function Trap(regs: Context, r: Request): Context {
    if r.op == READ || r.op == WRITE then regs.(eax := r.op, ebx := r.dev, ecx := r.buffer, edx := r.len)
    else regs.(eax := r.op, ebx := 0, ecx := 0, edx := 0)
  }

  datatype Outcome =
    | SerialPoll(dev: int, buffer: int, len: int)
    | SerialOut(dev: int, buffer: int, len: int)
    | Answer(code: int)

  // What sys_req does with the registers it gets back.
  function Continue(r: Request, back: Context): Outcome {
    if back.eax == -1 && (r.op == READ || r.op == WRITE) then
      if r.op == READ then SerialPoll(r.dev, r.buffer, r.len) else SerialOut(r.dev, r.buffer, r.len)
    else Answer(back.eax)
  }

  // In every run, whoever runs may call READ and WRITE at any time, with any
  // registers.  The call goes on to the driver with the caller's own arguments;
  // nobody else runs in between, and no process, queue or context changes.
  lemma IoReachesDriver(w: S.World, es: seq<S.Event>, regs: Context, r: Request)
    requires S.Sound(w) && S.Legal(w, es) && (r.op == 2 || r.op == 3)
    requires S.Run(w, es).m.current.Some?
    ensures var (u, ctx) := (S.Run(w, es), Trap(regs, r));
      && S.Possible(u, S.Call(ctx)) && S.Next(u, S.Call(ctx)) == u
      && Callable(u.m, ctx.eax) && SysCall(u.m, ctx).0 == u.m
      && var back := SysCall(u.m, ctx).1;
         && Continue(r, back) == (if r.op == 2 then SerialPoll(r.dev, r.buffer, r.len) else SerialOut(r.dev, r.buffer, r.len))
         && back == regs.(eax := -1, ebx := r.dev, ecx := r.buffer, edx := r.len)
  {
    var u, ctx := S.Run(w, es), Trap(regs, r);
    S.CallerIsDue(u);
    hide Filed, S.Run, S.Legal, S.Roster;
    S.CallsAreGood(u, ctx);
    OrdinaryCall(u, ctx);
  }

  lemma OrdinaryCall(w: S.World, ctx: Context)
    requires S.Sound(w) && S.Possible(w, S.Call(ctx)) && w.m.current.Some? && ctx.eax > 1
    ensures Callable(w.m, ctx.eax) && SysCall(w.m, ctx) == (w.m, ctx.(eax := -1)) && S.Next(w, S.Call(ctx)) == w
  {
    S.CallsAreGood(w, ctx);
    assert Filed(w.m.queues) && RunsReady(w.m.current);
    SysCallMeans(w.m, ctx);
    hide S.Sound, Filed, Dispatches;
  }

  // A process that yields by sys_req(IDLE) gets back the number of its own
  // request when it next runs, since nobody stores an answer; it never goes on
  // to the driver.
  lemma YieldAnswersItself(w: S.World, regs: Context, r: Request, es: seq<S.Event>)
    requires S.Sound(w) && w.m.current.Some? && r.op == 1 && S.Possible(w, S.Call(Trap(regs, r)))
    requires var w' := S.Next(w, S.Call(Trap(regs, r)));
      && S.Legal(w', es) && S.Away(w', es, w.m.current.value.pid)
      && S.Run(w', es).m.current.Some? && S.Run(w', es).m.current.value.pid == w.m.current.value.pid
    ensures var back := S.Run(S.Next(w, S.Call(Trap(regs, r))), es).entered;
      Continue(r, back) == Answer(1) && back == regs.(eax := 1, ebx := 0, ecx := 0, edx := 0)
  {
    S.ContextIntegrity(w, Trap(regs, r), es);
    hide S.Sound, S.Next, S.Run, S.Legal, S.Away, S.Possible;
  }
}
