/**
 Runs of the whole process side: kernel/kmain.c boots comhand and idle, comhand
 issues commands and loads processes (user/comhand.c), processes call IDLE and
 EXIT (user/core.c), and the dispatcher of kernel/sys_call.c answers.
 */
module Scheduling {
  import opened Processes
  import opened Machines

  // The machine, and what is known about the processes besides their PCBs.
  datatype World = World(
    m: Machine,
    comhand: nat,               // the pids of the two system processes
    idle: nat,
    shut: bool,                 // comhand has exited
    left: map<nat, nat>,        // IDLE calls an r3 process has yet to make
    saved: map<nat, Context>,   // the context a process last called IDLE with, or its first
    boot: Option<Context>,      // kmain's context
    entered: Context)           // the context last resumed by IDLE or EXIT

  datatype Event =
    | Call(ctx: Context)               // the running process makes a system call
    | Order(command: Command)          // comhand carries out a command
    | Load(process: Process, idles: nat) // comhand loads an r3 process

  // ------------------------------------------------------------------- boot

  // The PCB that load_proc and r3_load_pcb make.
  function Loaded(pid: nat, name: string, cls: ClassType, priority: int, entry: int): Process {
    Process(pid, name, cls, priority, Ready, NotSuspended, Context(
      ss := 0x10, gs := 0x10, fs := 0x10, es := 0x10, ds := 0x10,
      edi := 0, esi := 0, ebp := pid + PCB_STACK, esp := pid + STACK_TOP, ebx := 0, edx := 0, ecx := 0, eax := 0,
      eip := entry, cs := 0x08, eflags := 0x0202))
  }

  // What kmain has set up when it calls IDLE.
  function Boot(comhand: nat, idle: nat, comhandEntry: int, idleEntry: int, any: Context): World {
    var c := Loaded(comhand, "comhand", System, 0, comhandEntry);
    var i := Loaded(idle, "idle", System, 9, idleEntry);
    World(Machine(PutIn(PutIn([[], [], [], []], c), i), None, None), comhand, idle, false,
      map[], map[comhand := c.context, idle := i.context], None, any)
  }

  // ------------------------------------------------------------------ events

  ghost function InHand(m: Machine): multiset<Process> {
    if m.current.Some? then multiset{m.current.value} else multiset{}
  }

  ghost function Everyone(m: Machine): multiset<Process>
    requires |m.queues| == 4
  {
    Population(m.queues) + InHand(m)
  }

  ghost predicate Has(pop: multiset<Process>, pid: nat) {
    exists p :: p in pop && p.pid == pid
  }

  // What the running process may do next.  kmain calls IDLE once; idle never
  // exits; an r3 process makes its IDLE calls and then exits; comhand may do
  // anything, and processes it loads get memory that no live process has.
  ghost predicate Possible(w: World, e: Event) {
    && |w.m.queues| == 4
    && match e
       case Call(ctx) =>
         if w.m.current.None? then w.boot.None? && ctx.eax == IDLE
         else
           var pid := w.m.current.value.pid;
           if pid == w.comhand then true
           else if pid == w.idle then ctx.eax != EXIT
           else pid in w.left && (ctx.eax == IDLE ==> w.left[pid] > 0) && (ctx.eax == EXIT ==> w.left[pid] == 0)
       case Order(_) => w.m.current.Some? && w.m.current.value.pid == w.comhand
       case Load(p, _) =>
         && w.m.current.Some? && w.m.current.value.pid == w.comhand
         && p.cls == User && p.exe == Ready && p.disp == NotSuspended && !Has(Everyone(w.m), p.pid)
  }

  // The books of the running process after it calls IDLE or EXIT.
  ghost function Charged(w: World, ctx: Context): World
    requires w.m.current.Some?
  {
    var pid := w.m.current.value.pid;
    if ctx.eax == IDLE then
      w.(saved := w.saved[pid := ctx], left := if pid in w.left && w.left[pid] > 0 then w.left[pid := w.left[pid] - 1] else w.left)
    else if pid == w.comhand then w.(shut := true)
    else w
  }

  ghost function Step(w: World, e: Event): World
    requires Sound(w) && Possible(w, e)
  {
    match e
    case Call(ctx) =>
      CallsAreGood(w, ctx);
      var (m, resumed) := SysCall(w.m, ctx);
      if ctx.eax != IDLE && ctx.eax != EXIT then w.(m := m)
      else if w.m.current.None? then w.(m := m, boot := Some(ctx), entered := resumed)
      else Charged(w, ctx).(m := m, entered := resumed)
    case Order(c) => w.(m := w.m.(queues := Execute(w.m.queues, c).0))
    case Load(p, n) =>
      w.(m := w.m.(queues := PutIn(w.m.queues, p)), left := w.left[p.pid := n], saved := w.saved[p.pid := p.context])
  }

  // --------------------------------------------------------------- invariant

  // kmain has got the processor back.
  ghost predicate Finished(w: World) {
    w.m.current.None? && w.boot.Some?
  }

  // What holds of each live process.
  ghost predicate Regular(w: World, p: Process) {
    && p.pid in w.saved && p.context == w.saved[p.pid]
    && (p.pid == w.comhand || p.pid == w.idle ==> p.cls == System && p.exe == Ready && p.disp == NotSuspended)
    && (p.pid == w.comhand ==> !w.shut)
    && (p.pid != w.comhand && p.pid != w.idle ==> p.cls == User && p.pid in w.left)
  }

  // Everybody has one PCB; comhand, until it exits, and idle are among them.
  ghost predicate Roster(w: World, pop: multiset<Process>) {
    && OneEach(pop)
    && (forall p :: p in pop ==> Regular(w, p))
    && Has(pop, w.idle) && (!w.shut ==> Has(pop, w.comhand))
  }

  ghost predicate Sound(w: World) {
    && Filed(w.m.queues) && RunsReady(w.m.current) && w.comhand != w.idle
    && (!Finished(w) ==> Roster(w, Everyone(w.m)) && w.m.initial == w.boot)
    && (w.m.current.None? && w.boot.None? ==> !w.shut)
    && (w.m.current.Some? ==> w.boot.Some? && w.entered == w.m.current.value.context)
    && (Finished(w) ==> w.shut && w.m.queues[READY_QUEUE] == [] && w.entered == w.boot.value.(eax := 0))
  }

  // A ready process that is not suspended is in the ready queue or running.
  lemma FiledReady(m: Machine, pid: nat)
    requires Filed(m.queues) && Has(Everyone(m), pid)
    requires forall p :: p in Everyone(m) && p.pid == pid ==> p.exe == Ready && p.disp == NotSuspended
    ensures (m.current.Some? && m.current.value.pid == pid) || exists p :: p in m.queues[READY_QUEUE] && p.pid == pid
  {
    var p :| p in Everyone(m) && p.pid == pid;
    hide Sorted;
  }

  // A call by anyone but idle leaves idle ready; comhand cannot be missing
  // unless it has exited.
  lemma ReadyUnlessIdle(w: World)
    requires Sound(w) && !Finished(w)
    ensures w.m.queues[READY_QUEUE] == [] ==> w.m.current.Some? && w.m.current.value.pid == w.idle && w.shut
  {
    FiledReady(w.m, w.idle);
    if !w.shut {
      FiledReady(w.m, w.comhand);
    }
    hide Filed, Everyone;
  }

  // No possible call dereferences a NULL pointer.
  lemma CallsAreGood(w: World, ctx: Context)
    requires Sound(w) && Possible(w, Call(ctx))
    ensures !Finished(w) && Callable(w.m, ctx.eax)
  {
    ReadyUnlessIdle(w);
    hide Filed, Everyone, Roster;
  }

  // ------------------------------------------------ how the roster changes

  lemma CountChanged(pop: multiset<Process>, p: Process, p': Process, pop': multiset<Process>, q: Process)
    requires pop' + multiset{p} == pop + multiset{p'}
    ensures pop'[q] + (if q == p then 1 else 0) == pop[q] + (if q == p' then 1 else 0)
  {
    assert (pop' + multiset{p})[q] == (pop + multiset{p'})[q];
  }

  lemma ChangedMembers(pop: multiset<Process>, p: Process, p': Process, pop': multiset<Process>)
    requires OneEach(pop) && p in pop && pop' + multiset{p} == pop + multiset{p'} && p'.pid == p.pid
    ensures OneEach(pop') && forall q :: q in pop' <==> q == p' || (q in pop && q.pid != p.pid)
  {
    forall q ensures pop'[q] + (if q == p then 1 else 0) == pop[q] + (if q == p' then 1 else 0) {
      CountChanged(pop, p, p', pop', q);
    }
    forall q ensures q in pop' <==> q == p' || (q in pop && q.pid != p.pid) {
      assert q in pop && q.pid == p.pid ==> q == p && pop[q] == 1;
    }
  }

  lemma HasChanged(pop: multiset<Process>, p: Process, p': Process, pop': multiset<Process>, pid: nat)
    requires p in pop && p'.pid == p.pid && Has(pop, pid)
    requires forall q :: q in pop' <==> q == p' || (q in pop && q.pid != p.pid)
    ensures Has(pop', pid)
  {
    var q :| q in pop && q.pid == pid;
    assert q.pid == p.pid ==> p' in pop';
    assert q.pid != p.pid ==> q in pop';
  }

  lemma RosterChanged(w: World, w': World, pop: multiset<Process>, p: Process, p': Process, pop': multiset<Process>)
    requires Roster(w, pop) && p in pop && pop' + multiset{p} == pop + multiset{p'} && p'.pid == p.pid
    requires w'.idle == w.idle && w'.comhand == w.comhand && w'.shut == w.shut
    requires Regular(w', p') && forall q :: q in pop && q.pid != p.pid ==> Regular(w', q)
    ensures Roster(w', pop')
  {
    ChangedMembers(pop, p, p', pop');
    HasChanged(pop, p, p', pop', w.idle);
    if !w.shut {
      HasChanged(pop, p, p', pop', w.comhand);
    }
    hide OneEach, Has, Regular;
  }

  lemma RosterDropped(w: World, w': World, pop: multiset<Process>, p: Process, pop': multiset<Process>)
    requires Roster(w, pop) && p in pop && pop' + multiset{p} == pop && p.pid != w.idle
    requires w'.idle == w.idle && w'.comhand == w.comhand && (!w'.shut ==> !w.shut && p.pid != w.comhand)
    requires forall q :: q in pop && q.pid != p.pid ==> Regular(w', q)
    ensures Roster(w', pop')
  {
    forall q ensures q in pop' <==> q in pop && q.pid != p.pid {
      assert q in pop && q.pid == p.pid ==> q == p && pop[q] == 1;
    }
    assert forall q :: q in pop' ==> pop'[q] == pop[q];
    hide Regular;
  }

  lemma RosterJoined(w: World, w': World, pop: multiset<Process>, p: Process, pop': multiset<Process>)
    requires Roster(w, pop) && !Has(pop, p.pid) && pop' == pop + multiset{p}
    requires w'.idle == w.idle && w'.comhand == w.comhand && w'.shut == w.shut
    requires Regular(w', p) && forall q :: q in pop ==> Regular(w', q)
    ensures Roster(w', pop')
  {
    assert forall q :: q in pop' ==> q == p || q in pop;
    assert forall q :: q in pop ==> q in pop' && q.pid != p.pid && pop'[q] == pop[q];
    hide Regular;
  }

  // ------------------------------------------------------ what a step does

  lemma HeadOut(m: Machine)
    requires |m.queues| == 4 && m.queues[READY_QUEUE] != []
    ensures var h := m.queues[READY_QUEUE][0];
      Population(TakeFrom(m.queues, READY_QUEUE, 0)) + multiset{h} == Population(m.queues) && h in Population(m.queues)
  {
    TakePopulation(m.queues, READY_QUEUE, 0);
    PlacePopulation(m.queues, Place(READY_QUEUE, 0));
    hide Population, TakeFrom;
  }

  // Yielding changes nobody but the caller, and of the caller the context.
  lemma YieldEveryone(m: Machine, ctx: Context)
    requires |m.queues| == 4 && m.queues[READY_QUEUE] != []
    ensures |Yield(m, ctx).queues| == 4
    ensures m.current.None? ==> Everyone(Yield(m, ctx)) == Everyone(m)
    ensures m.current.Some? ==> var p := m.current.value;
      Everyone(Yield(m, ctx)) + multiset{p} == Everyone(m) + multiset{p.(context := ctx)}
  {
    HeadOut(m);
    if m.current.Some? {
      PutPopulation(TakeFrom(m.queues, READY_QUEUE, 0), m.current.value.(context := ctx));
    }
    hide Population, TakeFrom, PutIn;
  }

  lemma OthersStayRegular(w: World, w': World, pid: nat, pop: multiset<Process>)
    requires forall p :: p in pop ==> Regular(w, p)
    requires w'.idle == w.idle && w'.comhand == w.comhand && (w'.shut ==> w.shut || pid == w.comhand)
    requires forall k :: k != pid && k in w.left ==> k in w'.left
    requires forall k :: k != pid && k in w.saved ==> k in w'.saved && w'.saved[k] == w.saved[k]
    ensures forall p :: p in pop && p.pid != pid ==> Regular(w', p)
  {
  }

  lemma KmainCallSound(w: World, ctx: Context)
    requires Sound(w) && Possible(w, Call(ctx)) && w.m.current.None?
    ensures Sound(Step(w, Call(ctx)))
  {
    ReadyUnlessIdle(w);
    var m := w.m.(initial := Some(ctx));
    YieldEveryone(m, ctx);
    YieldFiled(m, ctx);
    HeadOut(m);
    var w' := Step(w, Call(ctx));
    assert w'.m == Yield(m, ctx);
    assert Everyone(w.m) == Everyone(m);
    OthersStayRegular(w, w', w.comhand, Everyone(m));
    OthersStayRegular(w, w', w.idle, Everyone(m));
    hide Yield, Filed, OneEach, Everyone, Regular, Population;
  }

  lemma IdleCallSound(w: World, ctx: Context)
    requires Sound(w) && Possible(w, Call(ctx)) && w.m.current.Some? && ctx.eax == IDLE
    ensures Sound(Step(w, Call(ctx)))
  {
    ReadyUnlessIdle(w);
    if w.m.queues[READY_QUEUE] != [] {
      YieldFiled(w.m, ctx);
      IdleCallRoster(w, ctx);
    }
    hide Yield, Filed, Roster, Everyone, Population, PutIn, TakeFrom;
  }

  lemma IdleCallRoster(w: World, ctx: Context)
    requires Sound(w) && Possible(w, Call(ctx)) && w.m.current.Some? && ctx.eax == IDLE && w.m.queues[READY_QUEUE] != []
    ensures var w' := Step(w, Call(ctx)); w'.m == Yield(w.m, ctx) && Roster(w', Everyone(w'.m))
  {
    assert Step(w, Call(ctx)).m == Yield(w.m, ctx);
    YieldEveryone(w.m, ctx);
    hide Yield, Filed, Everyone, Population, Roster;
    ChargedRoster(w, Step(w, Call(ctx)), ctx, Everyone(w.m), Everyone(Yield(w.m, ctx)));
  }

  lemma ChargedRoster(w: World, w': World, ctx: Context, pop: multiset<Process>, pop': multiset<Process>)
    requires Roster(w, pop) && w.m.current.Some? && w.m.current.value in pop && ctx.eax == IDLE
    requires var p := w.m.current.value; pop' + multiset{p} == pop + multiset{p.(context := ctx)}
    requires w' == Charged(w, ctx).(m := w'.m, entered := w'.entered)
    ensures Roster(w', pop')
  {
    var p := w.m.current.value;
    OthersStayRegular(w, w', p.pid, pop);
    assert Regular(w, p);
    assert Regular(w', p.(context := ctx));
    hide OneEach, Has, Regular;
    RosterChanged(w, w', pop, p, p.(context := ctx), pop');
  }

  lemma ExitEveryone(m: Machine)
    requires |m.queues| == 4 && m.queues[READY_QUEUE] != [] && m.current.Some?
    ensures var m' := Machine(TakeFrom(m.queues, READY_QUEUE, 0), Some(m.queues[READY_QUEUE][0]), m.initial);
      Everyone(m') + multiset{m.current.value} == Everyone(m)
  {
    HeadOut(m);
    hide Population, TakeFrom;
  }

  lemma ExitCallSound(w: World, ctx: Context)
    requires Sound(w) && Possible(w, Call(ctx)) && w.m.current.Some? && ctx.eax == EXIT
    ensures Sound(Step(w, Call(ctx)))
  {
    ReadyUnlessIdle(w);
    NextFiled(w.m.queues);
    ExitCallRoster(w, ctx);
    hide Filed, Population, TakeFrom, Roster, Everyone;
  }

  lemma ExitCallRoster(w: World, ctx: Context)
    requires Sound(w) && Possible(w, Call(ctx)) && w.m.current.Some? && ctx.eax == EXIT
    ensures var w' := Step(w, Call(ctx)); Roster(w', Everyone(w'.m))
  {
    var w', p, pop := Step(w, Call(ctx)), w.m.current.value, Everyone(w.m);
    ReadyUnlessIdle(w);
    ExitEveryone(w.m);
    OthersStayRegular(w, w', p.pid, pop);
    assert p in pop;
    hide Filed, OneEach, Everyone, Population, Has, Regular, TakeFrom;
    RosterDropped(w, w', pop, p, Everyone(w'.m));
  }

  lemma LoadSound(w: World, p: Process, n: nat)
    requires Sound(w) && Possible(w, Load(p, n))
    ensures Sound(Step(w, Load(p, n)))
  {
    PutFiled(w.m.queues, p);
    LoadRoster(w, p, n);
    hide Filed, Population, PutIn, Everyone, Roster;
  }

  lemma LoadRoster(w: World, p: Process, n: nat)
    requires Sound(w) && Possible(w, Load(p, n))
    ensures var w' := Step(w, Load(p, n)); Roster(w', Everyone(w'.m))
  {
    LoadEveryone(w.m, p);
    hide Filed, Everyone, Population, PutIn, Roster;
    LoadedRoster(w, Step(w, Load(p, n)), p, n, Everyone(w.m));
  }

  lemma LoadedRoster(w: World, w': World, p: Process, n: nat, pop: multiset<Process>)
    requires Roster(w, pop) && !Has(pop, p.pid) && p.cls == User
    requires w' == w.(m := w'.m, left := w.left[p.pid := n], saved := w.saved[p.pid := p.context])
    requires p.pid != w.idle && p.pid != w.comhand
    ensures Roster(w', pop + multiset{p})
  {
    OthersStayRegular(w, w', p.pid, pop);
    hide OneEach;
    assert forall q :: q in pop ==> q.pid != p.pid;
    hide Has;
    RosterJoined(w, w', pop, p, pop + multiset{p});
  }

  lemma LoadEveryone(m: Machine, p: Process)
    requires |m.queues| == 4
    ensures Everyone(m.(queues := PutIn(m.queues, p))) == Everyone(m) + multiset{p}
  {
    PutPopulation(m.queues, p);
    hide Population, PutIn;
  }

  lemma OrderSound(w: World, c: Command)
    requires Sound(w) && Possible(w, Order(c))
    ensures Sound(Step(w, Order(c)))
  {
    var qs := w.m.queues;
    ExecuteFiled(qs, c);
    ExecuteIsExact(qs, c);
    hide Filed, Execute, Affects, Everyone, Roster;
    var (qs', code) := Execute(qs, c);
    var m := w.m.(queues := qs');
    assert !Finished(w) && Roster(w, Everyone(w.m));
    if code == 0 {
      var p :| Affects(c, qs, p, qs');
      OrderedRoster(w, c, p, m);
    } else {
      assert m == w.m;
    }
    assert Step(w, Order(c)) == w.(m := m);
    SoundWith(w, m);
  }

  // Nothing but the queues changed.
  lemma SoundWith(w: World, m: Machine)
    requires Sound(w) && w.m.current.Some? && m == w.m.(queues := m.queues)
    requires Filed(m.queues) && Roster(w, Everyone(m))
    ensures Sound(w.(m := m))
  {
    assert forall p :: Regular(w, p) <==> Regular(w.(m := m), p);
    hide Filed, Everyone, OneEach, Has, Regular;
  }

  lemma OrderedEveryone(c: Command, m: Machine, p: Process, qs: seq<seq<Process>>)
    requires |m.queues| == 4 && Affects(c, m.queues, p, qs)
    ensures p in Everyone(m)
    ensures Everyone(m.(queues := qs)) + multiset{p} == Everyone(m) + if c.Delete? then multiset{} else multiset{Changed(c, p)}
  {
    var kept, added := InHand(m), if c.Delete? then multiset{} else multiset{Changed(c, p)};
    CarryOver(Population(qs), multiset{p}, Population(m.queues), added, kept);
    hide Population, Changed;
  }

  lemma CarryOver(a: multiset<Process>, b: multiset<Process>, c: multiset<Process>, d: multiset<Process>, e: multiset<Process>)
    requires a + b == c + d
    ensures (a + e) + b == (c + e) + d
  {
    assert (a + e) + b == (a + b) + e;
    assert (c + e) + d == (c + d) + e;
  }

  lemma OrderedRoster(w: World, c: Command, p: Process, m: Machine)
    requires |w.m.queues| == 4 && Roster(w, Everyone(w.m)) && Affects(c, w.m.queues, p, m.queues) && m == w.m.(queues := m.queues)
    ensures Roster(w, Everyone(m))
  {
    var pop := Everyone(w.m);
    OrderedEveryone(c, w.m, p, m.queues);
    assert Regular(w, p);
    assert MayAffect(c, p);
    hide Population, Has, OneEach, Everyone, Affects;
    if c.Delete? {
      assert Everyone(m) + multiset{p} == pop;
      hide Regular;
      RosterDropped(w, w, pop, p, Everyone(m));
    } else {
      assert Regular(w, Changed(c, p));
      hide Regular;
      RosterChanged(w, w, pop, p, Changed(c, p), Everyone(m));
    }
  }

  // Every step of every process keeps the invariant.
  lemma StepSound(w: World, e: Event)
    requires Sound(w) && Possible(w, e)
    ensures Sound(Step(w, e))
  {
    hide Sound, Possible;
    match e
    case Order(c) => OrderSound(w, c);
    case Load(p, n) => LoadSound(w, p, n);
    case Call(ctx) => CallSound(w, ctx);
  }

  lemma CallSound(w: World, ctx: Context)
    requires Sound(w) && Possible(w, Call(ctx))
    ensures Sound(Step(w, Call(ctx)))
  {
    if w.m.current.None? {
      KmainCallSound(w, ctx);
    } else if ctx.eax == IDLE {
      IdleCallSound(w, ctx);
    } else if ctx.eax == EXIT {
      ExitCallSound(w, ctx);
    } else {
      assert Step(w, Call(ctx)) == w;
    }
  }

  // ------------------------------------------------------------------- runs

  ghost function Next(w: World, e: Event): (w': World)
    requires Sound(w) && Possible(w, e)
    ensures Sound(w')
  {
    StepSound(w, e);
    Step(w, e)
  }

  ghost predicate Legal(w: World, es: seq<Event>)
    requires Sound(w)
    decreases |es|
  {
    es == [] || (Possible(w, es[0]) && Legal(Next(w, es[0]), es[1..]))
  }

  ghost function Run(w: World, es: seq<Event>): (w': World)
    requires Sound(w) && Legal(w, es)
    ensures Sound(w')
    decreases |es|
  {
    if es == [] then w else Run(Next(w, es[0]), es[1..])
  }

  // kmain's boot leaves comhand first and idle second in the ready queue, and
  // the invariant holds.
  lemma BootSound(comhand: nat, idle: nat, comhandEntry: int, idleEntry: int, any: Context)
    requires comhand != idle
    ensures var w := Boot(comhand, idle, comhandEntry, idleEntry, any);
      && w.m.queues == [[], [Loaded(comhand, "comhand", System, 0, comhandEntry), Loaded(idle, "idle", System, 9, idleEntry)], [], []]
      && Sound(w)
  {
    var w := Boot(comhand, idle, comhandEntry, idleEntry, any);
    var c, i := Loaded(comhand, "comhand", System, 0, comhandEntry), Loaded(idle, "idle", System, 9, idleEntry);
    BootQueues(c, i);
    assert Regular(w, c) && Regular(w, i);
    hide Regular, Filed, PutIn;
    StartSound(w, c, i);
  }

  lemma StartSound(w: World, c: Process, i: Process)
    requires w.m == Machine([[], [c, i], [], []], None, None) && w.boot.None? && !w.shut
    requires c.pid == w.comhand && i.pid == w.idle && c.pid != i.pid && Regular(w, c) && Regular(w, i)
    requires Filed(w.m.queues)
    ensures Sound(w)
  {
    BootPopulation(c, i);
    hide Population, Roster, Filed, Regular;
    BootRoster(w, c, i);
    assert Everyone(w.m) == multiset{c, i};
  }

  lemma BootPopulation(c: Process, i: Process)
    ensures Population([[], [c, i], [], []]) == multiset{c, i}
  {
    assert multiset([c, i]) == multiset{c, i};
  }

  lemma BootRoster(w: World, c: Process, i: Process)
    requires c.pid == w.comhand && i.pid == w.idle && c.pid != i.pid && Regular(w, c) && Regular(w, i)
    ensures Roster(w, multiset{c, i})
  {
    hide Regular;
    assert c in multiset{c, i} && i in multiset{c, i};
  }

  lemma BootQueues(c: Process, i: Process)
    requires Tag(c) == READY_QUEUE && Tag(i) == READY_QUEUE && c.priority <= i.priority
    requires c.exe != Running && i.exe != Running
    ensures PutIn(PutIn([[], [], [], []], c), i) == [[], [c, i], [], []]
    ensures Filed([[], [c, i], [], []])
  {
    var none: seq<seq<Process>> := [[], [], [], []];
    assert Position([], c.priority) == 0 && Position([c], i.priority) == 1 + Position([c][1..], i.priority) == 1;
    assert Enqueue([], READY_QUEUE, c) == [c];
    assert Enqueue([c], READY_QUEUE, i) == [c, i];
    assert none[READY_QUEUE := [c]] == [[], [c], [], []];
  }

  // In every run from boot, as long as comhand has not exited, comhand and
  // idle are ready or running; idle is until kmain gets the processor back.
  lemma Availability(w: World, es: seq<Event>, pid: nat)
    requires Sound(w) && Legal(w, es) && !Finished(Run(w, es))
    requires pid == w.idle || (pid == w.comhand && !Run(w, es).shut)
    ensures var m := Run(w, es).m;
      (m.current.Some? && m.current.value.pid == pid) || exists p :: p in m.queues[READY_QUEUE] && p.pid == pid
  {
    RunKeepsIds(w, es);
    hide Run, Legal, Sound;
    AvailableNow(Run(w, es), pid);
  }

  lemma AvailableNow(w: World, pid: nat)
    requires Sound(w) && !Finished(w) && (pid == w.idle || (pid == w.comhand && !w.shut))
    ensures (w.m.current.Some? && w.m.current.value.pid == pid) || exists p :: p in w.m.queues[READY_QUEUE] && p.pid == pid
  {
    FiledReady(w.m, pid);
    hide Filed, Everyone;
  }

  lemma {:induction false} RunKeepsIds(w: World, es: seq<Event>)
    requires Sound(w) && Legal(w, es)
    ensures var w' := Run(w, es); w'.comhand == w.comhand && w'.idle == w.idle
    decreases |es|
  {
    if es != [] {
      StepKeepsIds(w, es[0]);
      hide Sound, Possible, Next;
      RunKeepsIds(Next(w, es[0]), es[1..]);
    }
  }

  lemma StepKeepsIds(w: World, e: Event)
    requires Sound(w) && Possible(w, e)
    ensures var w' := Next(w, e); w'.comhand == w.comhand && w'.idle == w.idle
    ensures Next(w, e).boot == w.boot || w.m.current.None?
  {
    hide Sound;
  }

  // So somebody is always ready when a process exits, and the fallback of the
  // EXIT branch to kmain's context is unreachable.
  lemma ExitFallbackUnreachable(w: World, es: seq<Event>, ctx: Context)
    requires Sound(w) && Legal(w, es) && Possible(Run(w, es), Call(ctx)) && ctx.eax == EXIT
    ensures Run(w, es).m.current.Some? && Run(w, es).m.queues[READY_QUEUE] != []
  {
    ReadyUnlessIdle(Run(w, es));
    hide Run, Legal, Filed, Roster;
  }

  // The fallback of the IDLE branch is taken just when idle runs alone, after
  // comhand has exited.  It ends the run: kmain resumes with the context of
  // its own call, with 0 for an answer.  Idle's PCB is in no queue then.
  lemma IdleFallback(w: World, es: seq<Event>, ctx: Context)
    requires Sound(w) && Legal(w, es) && Possible(Run(w, es), Call(ctx)) && ctx.eax == IDLE
    ensures var u := Run(w, es); var w' := Next(u, Call(ctx));
      && (Finished(w') <==> u.m.queues[READY_QUEUE] == [])
      && (Finished(w') ==>
            && u.shut && u.m.current.Some? && u.m.current.value.pid == w.idle
            && w'.entered == u.boot.value.(eax := 0) && !Has(Everyone(w'.m), w.idle))
  {
    var u := Run(w, es);
    RunKeepsIds(w, es);
    ReadyUnlessIdle(u);
    hide Run, Legal, Filed, OneEach;
    if u.m.queues[READY_QUEUE] == [] {
      var w', p, pop := Next(u, Call(ctx)), u.m.current.value, Everyone(u.m);
      assert Everyone(w'.m) + multiset{p} == pop;
      IdleIsGone(u, p, pop, Everyone(w'.m));
    }
  }

  lemma IdleIsGone(w: World, p: Process, pop: multiset<Process>, pop': multiset<Process>)
    requires Roster(w, pop) && p in pop && p.pid == w.idle && pop' + multiset{p} == pop
    ensures !Has(pop', w.idle)
  {
    forall q | q in pop' ensures q.pid != w.idle {
      assert q in pop && (pop' + multiset{p})[q] == pop[q];
    }
  }

  // --------------------------------------------------------------- contexts

  // Until the last step of the run the process does not have the processor,
  // and it is not replaced by a new process at the same address.
  ghost predicate Away(w: World, es: seq<Event>, pid: nat)
    requires Sound(w) && Legal(w, es)
    decreases |es|
  {
    es != [] ==>
      && (w.m.current.Some? ==> w.m.current.value.pid != pid)
      && (es[0].Load? ==> es[0].process.pid != pid)
      && Away(Next(w, es[0]), es[1..], pid)
  }

  lemma StepKeepsSaved(w: World, e: Event, pid: nat)
    requires Sound(w) && Possible(w, e) && pid in w.saved
    requires (w.m.current.Some? ==> w.m.current.value.pid != pid) && (e.Load? ==> e.process.pid != pid)
    ensures var w' := Next(w, e); pid in w'.saved && w'.saved[pid] == w.saved[pid]
  {
    hide Sound;
  }

  lemma {:induction false} AwayKeepsSaved(w: World, es: seq<Event>, pid: nat)
    requires Sound(w) && Legal(w, es) && Away(w, es, pid) && pid in w.saved
    ensures var w' := Run(w, es); pid in w'.saved && w'.saved[pid] == w.saved[pid]
    decreases |es|
  {
    if es != [] {
      StepKeepsSaved(w, es[0], pid);
      hide Sound, Possible, Next;
      AwayKeepsSaved(Next(w, es[0]), es[1..], pid);
    }
  }

  lemma EntersSaved(w: World)
    requires Sound(w) && w.m.current.Some?
    ensures var pid := w.m.current.value.pid; pid in w.saved && w.entered == w.saved[pid]
  {
    assert w.m.current.value in Everyone(w.m);
    hide Filed, OneEach, Everyone;
  }

  // A process that has called IDLE gets the processor back with exactly the
  // context of that call, whatever all others did in between.
  lemma ContextIntegrity(w: World, ctx: Context, es: seq<Event>)
    requires Sound(w) && Possible(w, Call(ctx)) && w.m.current.Some? && ctx.eax == IDLE
    requires Legal(Next(w, Call(ctx)), es)
    requires Away(Next(w, Call(ctx)), es, w.m.current.value.pid)
    requires var m := Run(Next(w, Call(ctx)), es).m; m.current.Some? && m.current.value.pid == w.m.current.value.pid
    ensures Run(Next(w, Call(ctx)), es).entered == ctx
  {
    var w', pid := Next(w, Call(ctx)), w.m.current.value.pid;
    assert w'.saved[pid] == ctx;
    hide Sound, Next, Run, Legal, Away, Possible;
    AwayKeepsSaved(w', es, pid);
    EntersSaved(Run(w', es));
  }

  // A newly loaded process starts with the context its loader made.
  lemma FirstContext(w: World, p: Process, n: nat, es: seq<Event>)
    requires Sound(w) && Possible(w, Load(p, n))
    requires Legal(Next(w, Load(p, n)), es) && Away(Next(w, Load(p, n)), es, p.pid)
    requires var m := Run(Next(w, Load(p, n)), es).m; m.current.Some? && m.current.value.pid == p.pid
    ensures Run(Next(w, Load(p, n)), es).entered == p.context
  {
    var w' := Next(w, Load(p, n));
    hide Sound, Run, Legal, Away, Possible;
    AwayKeepsSaved(w', es, p.pid);
    EntersSaved(Run(w', es));
  }

  // The registers a process should have when it first runs: at its entry, on
  // flat segments with interrupts enabled, everything else 0, on the stack of
  // the PCB at pid.
  ghost predicate AtEntry(x: Context, pid: nat, entry: int) {
    && x.eip == entry && x.cs == 0x08 && x.eflags == 0x202
    && x.ss == x.gs == x.fs == x.es == x.ds == 0x10
    && x.edi == x.esi == x.ebx == x.edx == x.ecx == x.eax == 0
    && x.ebp == pid + 20 && x.esp == pid + 20 + 4 * (1024 - 64)
  }

  // comhand, idle, and every process that is loaded, first run at their entry.
  lemma LoadedStarts(w: World, pid: nat, name: string, priority: int, entry: int, n: nat, es: seq<Event>)
    requires var e := Load(Loaded(pid, name, User, priority, entry), n);
      Sound(w) && Possible(w, e) && Legal(Next(w, e), es) && Away(Next(w, e), es, pid)
    requires var m := Run(Next(w, Load(Loaded(pid, name, User, priority, entry), n)), es).m;
      m.current.Some? && m.current.value.pid == pid
    ensures AtEntry(Run(Next(w, Load(Loaded(pid, name, User, priority, entry), n)), es).entered, pid, entry)
  {
    FirstContext(w, Loaded(pid, name, User, priority, entry), n, es);
    hide Sound, Run, Legal, Away, Possible, Next;
  }

  lemma BootStarts(comhand: nat, idle: nat, comhandEntry: int, idleEntry: int, any: Context, es: seq<Event>, pid: nat)
    requires comhand != idle && (pid == comhand || pid == idle)
    requires var w := Boot(comhand, idle, comhandEntry, idleEntry, any);
      Sound(w) && Legal(w, es) && Away(w, es, pid) && Run(w, es).m.current.Some? && Run(w, es).m.current.value.pid == pid
    ensures var u := Run(Boot(comhand, idle, comhandEntry, idleEntry, any), es);
      AtEntry(u.entered, pid, if pid == comhand then comhandEntry else idleEntry)
  {
    hide Sound, Run, Legal, Away, Boot, AtEntry;
    BootSaved(comhand, idle, comhandEntry, idleEntry, any, pid);
    var w := Boot(comhand, idle, comhandEntry, idleEntry, any);
    AwayKeepsSaved(w, es, pid);
    EntersSaved(Run(w, es));
  }

  lemma BootSaved(comhand: nat, idle: nat, comhandEntry: int, idleEntry: int, any: Context, pid: nat)
    requires comhand != idle && (pid == comhand || pid == idle)
    ensures var w := Boot(comhand, idle, comhandEntry, idleEntry, any);
      pid in w.saved && AtEntry(w.saved[pid], pid, if pid == comhand then comhandEntry else idleEntry)
  {
    hide PutIn;
  }

  lemma {:induction false} BootStays(w: World, es: seq<Event>)
    requires Sound(w) && Legal(w, es) && w.boot.Some?
    ensures Run(w, es).boot == w.boot
    decreases |es|
  {
    if es != [] {
      StepKeepsIds(w, es[0]);
      hide Sound, Next;
      BootStays(Next(w, es[0]), es[1..]);
    }
  }

  // kmain finally gets back the context of its one IDLE call, answered with 0.
  lemma KmainResumes(w: World, ctx: Context, es: seq<Event>)
    requires Sound(w) && Possible(w, Call(ctx)) && w.m.current.None?
    requires Legal(Next(w, Call(ctx)), es) && Finished(Run(Next(w, Call(ctx)), es))
    ensures Run(Next(w, Call(ctx)), es).entered == ctx.(eax := 0)
  {
    var w' := Next(w, Call(ctx));
    assert w'.boot == Some(ctx);
    BootStays(w', es);
    hide Run, Legal, Filed, Roster, Next;
  }

  // --------------------------------------------------------------- shutdown

  // The system calls an r3 process still has to make.
  ghost function Due(w: World, p: Process): nat {
    if p.pid == w.idle || p.pid !in w.left then 0 else w.left[p.pid] + 1
  }

  ghost function DueIn(w: World, q: seq<Process>): nat {
    if q == [] then 0 else Due(w, q[0]) + DueIn(w, q[1..])
  }

  // W: the calls due to processes that are ready or running.
  ghost function Work(w: World): nat
    requires |w.m.queues| == 4
  {
    DueIn(w, w.m.queues[READY_QUEUE]) + if w.m.current.Some? then Due(w, w.m.current.value) else 0
  }

  // An upper bound on the IDLE and EXIT calls to come.
  ghost function Remaining(w: World): nat
    requires |w.m.queues| == 4
  {
    if w.m.current.None? then 0
    else 2 * Work(w) + if w.m.current.value.pid == w.idle then 1 else 0
  }

  ghost function Dispatches(es: seq<Event>): nat {
    if es == [] then 0
    else (if es[0].Call? && (es[0].ctx.eax == IDLE || es[0].ctx.eax == EXIT) then 1 else 0) + Dispatches(es[1..])
  }

  lemma {:induction false} DueInSame(w: World, w': World, q: seq<Process>)
    requires forall i :: 0 <= i < |q| ==> Due(w', q[i]) == Due(w, q[i])
    ensures DueIn(w', q) == DueIn(w, q)
  {
    if q != [] {
      hide Due;
      assert Due(w', q[0]) == Due(w, q[0]);
      DueInSame(w, w', q[1..]);
    }
  }

  lemma {:induction false} DueInInsert(w: World, q: seq<Process>, k: nat, p: Process)
    requires k <= |q|
    ensures DueIn(w, Insert(q, k, p)) == DueIn(w, q) + Due(w, p)
  {
    hide Due;
    if k == 0 {
      assert Insert(q, 0, p)[0] == p && Insert(q, 0, p)[1..] == q;
    } else {
      InsertBehind(q, k, p);
      hide Insert;
      DueInInsert(w, q[1..], k - 1, p);
    }
  }

  // Nobody else has the pid of the running process.
  lemma CurrentIsAlone(w: World, i: nat)
    requires Sound(w) && w.m.current.Some? && i < |w.m.queues[READY_QUEUE]|
    ensures w.m.queues[READY_QUEUE][i].pid != w.m.current.value.pid
  {
    var p, r := w.m.current.value, w.m.queues[READY_QUEUE][i];
    PlacePopulation(w.m.queues, Place(READY_QUEUE, i));
    var pop := Everyone(w.m);
    assert p in pop && r in pop && (r == p ==> pop[p] >= 2);
    hide Filed, Population;
  }

  // Where IDLE leaves the ready queue and the accounts.
  lemma AfterIdle(w: World, ctx: Context)
    requires Sound(w) && Possible(w, Call(ctx)) && w.m.current.Some? && ctx.eax == IDLE && w.m.queues[READY_QUEUE] != []
    ensures var w' := Next(w, Call(ctx)); w' == Charged(w, ctx).(m := Yield(w.m, ctx), entered := w'.entered)
  {
    assert w.m.(initial := Remembered(w.m, ctx)) == w.m;
    hide Filed, Roster, Yield, Everyone;
  }

  lemma AfterExit(w: World, ctx: Context)
    requires Sound(w) && Possible(w, Call(ctx)) && w.m.current.Some? && ctx.eax == EXIT && w.m.queues[READY_QUEUE] != []
    ensures var w' := Next(w, Call(ctx));
      var q := w.m.queues[READY_QUEUE];
      w'.m.queues[READY_QUEUE] == q[1..] && w'.m.current == Some(q[0]) && w'.idle == w.idle && w'.left == w.left
  {
    hide Filed, Roster, Everyone;
    assert TakeFrom(w.m.queues, READY_QUEUE, 0)[READY_QUEUE] == w.m.queues[READY_QUEUE][1..];
  }

  // Whoever runs is comhand, or idle, or has a call to make.
  lemma CallerIsDue(w: World)
    requires Sound(w) && w.m.current.Some?
    ensures var p := w.m.current.value;
      (w.shut ==> p.pid != w.comhand) && (p.pid != w.comhand && p.pid != w.idle ==> p.pid in w.left)
  {
    var p := w.m.current.value;
    assert p in Everyone(w.m) && Regular(w, p);
    hide Filed, OneEach, Everyone;
  }

  // The accounts after IDLE: the caller, idle aside, has a call less to make.
  lemma IdleBalance(w: World, w': World, ctx: Context)
    requires |w.m.queues| == 4 && |w'.m.queues| == 4 && w.m.current.Some? && w.m.queues[READY_QUEUE] != []
    requires var (p, q) := (w.m.current.value, w.m.queues[READY_QUEUE]);
      && w'.m.queues[READY_QUEUE] == Insert(q[1..], Position(q[1..], p.priority), p.(context := ctx))
      && w'.m.current == Some(q[0]) && w'.idle == w.idle && q[0].pid != p.pid
      && (forall i :: 0 <= i < |q| ==> Due(w', q[i]) == Due(w, q[i]))
      && (p.pid != w.idle ==> Due(w, p) > 0 && Due(w', p) == Due(w, p) - 1)
    ensures Remaining(w') < Remaining(w)
  {
    var p, q := w.m.current.value, w.m.queues[READY_QUEUE];
    var p' := p.(context := ctx);
    assert Due(w', p') == Due(w', p);
    assert p.pid == w.idle ==> Due(w', p) == Due(w, p) == 0;
    hide Due, Insert, Position;
    DueInInsert(w', q[1..], Position(q[1..], p.priority), p');
    DueInSame(w, w', q);
  }

  // Each IDLE or EXIT call after comhand has gone is one call fewer to come.
  lemma IdlePays(w: World, ctx: Context)
    requires Sound(w) && Possible(w, Call(ctx)) && w.shut && ctx.eax == IDLE
    ensures Remaining(Next(w, Call(ctx))) < Remaining(w)
  {
    ReadyUnlessIdle(w);
    CallsAreGood(w, ctx);
    IdleFallback(w, [], ctx);
    hide Filed, Roster, Everyone, Next;
    if w.m.queues[READY_QUEUE] != [] {
      IdlePaysOnce(w, ctx);
    }
  }

  lemma IdlePaysOnce(w: World, ctx: Context)
    requires Sound(w) && Possible(w, Call(ctx)) && w.shut && w.m.current.Some? && ctx.eax == IDLE && w.m.queues[READY_QUEUE] != []
    ensures Remaining(Next(w, Call(ctx))) < Remaining(w)
  {
    AfterIdle(w, ctx);
    CallerIsDue(w);
    forall i | 0 <= i < |w.m.queues[READY_QUEUE]| ensures w.m.queues[READY_QUEUE][i].pid != w.m.current.value.pid {
      CurrentIsAlone(w, i);
    }
    hide Remaining, Next, Yield, Charged, Filed, Roster, Everyone;
    ChargedPays(w, Next(w, Call(ctx)), ctx);
  }

  lemma ChargedPays(w: World, w': World, ctx: Context)
    requires |w.m.queues| == 4 && w.m.current.Some? && RunsReady(w.m.current) && ctx.eax == IDLE && w.m.queues[READY_QUEUE] != []
    requires w' == Charged(w, ctx).(m := Yield(w.m, ctx), entered := w'.entered)
    requires var p := w.m.current.value; p.pid != w.idle ==> p.pid in w.left && w.left[p.pid] > 0
    requires forall i :: 0 <= i < |w.m.queues[READY_QUEUE]| ==> w.m.queues[READY_QUEUE][i].pid != w.m.current.value.pid
    ensures |w'.m.queues| == 4 && Remaining(w') < Remaining(w)
  {
    YieldQueue(w.m, ctx);
    hide Yield, Insert, Position, Remaining;
    IdleBalance(w, w', ctx);
  }

  lemma ExitBalance(w: World, w': World)
    requires |w.m.queues| == 4 && |w'.m.queues| == 4 && w.m.current.Some? && w.m.queues[READY_QUEUE] != []
    requires var q := w.m.queues[READY_QUEUE]; w'.m.queues[READY_QUEUE] == q[1..] && w'.m.current == Some(q[0])
    requires w'.idle == w.idle && w'.left == w.left && w.m.current.value.pid != w.idle && w.m.current.value.pid in w.left
    ensures Remaining(w') < Remaining(w)
  {
    var q := w.m.queues[READY_QUEUE];
    assert Due(w, w.m.current.value) > 0;
    forall p: Process ensures Due(w', p) == Due(w, p) {}
    hide Due;
    DueInSame(w, w', q);
  }

  lemma ExitPays(w: World, ctx: Context)
    requires Sound(w) && Possible(w, Call(ctx)) && w.shut && ctx.eax == EXIT
    ensures Remaining(Next(w, Call(ctx))) < Remaining(w)
  {
    ReadyUnlessIdle(w);
    CallsAreGood(w, ctx);
    hide Filed, Roster, Everyone, Next, Remaining;
    CallerIsDue(w);
    AfterExit(w, ctx);
    ExitBalance(w, Next(w, Call(ctx)));
  }

  lemma StepPays(w: World, e: Event)
    requires Sound(w) && Possible(w, e) && w.shut
    ensures var w' := Next(w, e); w'.shut && Remaining(w') + Dispatches([e]) <= Remaining(w)
  {
    hide Remaining;
    assert e.Call?;
    if e.ctx.eax == IDLE {
      IdlePays(w, e.ctx);
    } else if e.ctx.eax == EXIT {
      ExitPays(w, e.ctx);
    } else {
      assert Next(w, e) == w;
    }
    hide Sound;
  }

  lemma RemainingNone(w: World)
    requires Sound(w) && w.shut
    ensures Remaining(w) == 0 <==> Finished(w)
    ensures Remaining(w) <= 2 * Work(w) + 1
  {
    if w.m.current.Some? {
      CallerIsDue(w);
    }
    hide Filed, Roster;
  }

  lemma DispatchesFirst(es: seq<Event>)
    requires es != []
    ensures Dispatches(es) == Dispatches([es[0]]) + Dispatches(es[1..])
  {
    assert [es[0]][1..] == [];
  }

  // Once comhand has exited, every run makes at most 2W + 1 IDLE and EXIT
  // calls, whatever the priorities and however READ and WRITE calls come in
  // between; and a run that makes as many as remain ends in kmain.
  lemma {:induction false} ShutdownBound(w: World, es: seq<Event>)
    requires Sound(w) && Legal(w, es) && w.shut
    ensures Dispatches(es) + Remaining(Run(w, es)) <= Remaining(w) <= 2 * Work(w) + 1
    ensures Run(w, es).shut && (Dispatches(es) == Remaining(w) ==> Finished(Run(w, es)))
    decreases |es|
  {
    hide Sound, Possible, Next, Remaining, Work, Finished, Dispatches;
    RemainingNone(w);
    if es == [] {
      NoDispatches();
    } else {
      StepPays(w, es[0]);
      DispatchesFirst(es);
      ShutdownBound(Next(w, es[0]), es[1..]);
      RemainingNone(Run(w, es));
    }
  }

  lemma NoDispatches()
    ensures Dispatches([]) == 0
  {
  }

  // A dispatching call that the running process, or kmain, may make.
  ghost function Op(w: World): int {
    if w.m.current.None? then IDLE else
    var pid := w.m.current.value.pid;
    if pid != w.idle && pid != w.comhand && pid in w.left && w.left[pid] == 0 then EXIT else IDLE
  }

  // Nobody is ever stuck, with any registers, until kmain has resumed.
  lemma MovesOn(w: World, ctx: Context)
    requires Sound(w) && !Finished(w)
    ensures Possible(w, Call(ctx.(eax := Op(w))))
  {
    if w.m.current.Some? {
      CallerIsDue(w);
    }
    hide Filed, Roster;
  }

  // Every process makes the call it is about to make, with any registers,
  // until kmain runs.
  ghost function Drive(w: World, regs: seq<Context>): World
    requires Sound(w) && w.shut
    decreases |regs|
  {
    if regs == [] || Finished(w) then w else
    var e := Call(regs[0].(eax := Op(w)));
    MovesOn(w, regs[0]);
    StepPays(w, e);
    Drive(Next(w, e), regs[1..])
  }

  // So after comhand has exited the machine is back in kmain within 2W + 1
  // IDLE and EXIT calls.
  lemma {:induction false} ReturnsToKmain(w: World, regs: seq<Context>)
    requires Sound(w) && w.shut && |regs| >= Remaining(w)
    ensures Remaining(w) <= 2 * Work(w) + 1 && Finished(Drive(w, regs))
    decreases |regs|
  {
    RemainingNone(w);
    if regs != [] && !Finished(w) {
      var e := Call(regs[0].(eax := Op(w)));
      MovesOn(w, regs[0]);
      StepPays(w, e);
      hide Sound, Possible, Next, Remaining, Work;
      ReturnsToKmain(Next(w, e), regs[1..]);
    }
  }

  lemma FirstDispatch(w: World, ctx: Context)
    requires Sound(w) && w.m.current.None? && w.boot.None? && ctx.eax == IDLE && w.m.queues[READY_QUEUE] != []
    ensures Possible(w, Call(ctx)) && !w.shut
    ensures var w' := Next(w, Call(ctx));
      && w'.m.queues[READY_QUEUE] == w.m.queues[READY_QUEUE][1..] && w'.m.current == Some(w.m.queues[READY_QUEUE][0])
      && w'.comhand == w.comhand && w'.idle == w.idle && w'.boot == Some(ctx)
  {
    assert |w.m.queues| == 4;
    hide Filed, Roster, Everyone;
    assert TakeFrom(w.m.queues, READY_QUEUE, 0)[READY_QUEUE] == w.m.queues[READY_QUEUE][1..];
  }

  lemma IdleEnds(w: World, ctx: Context)
    requires Sound(w) && w.m.current.Some? && w.m.current.value.pid == w.idle && w.m.queues[READY_QUEUE] == [] && ctx.eax == IDLE
    ensures Legal(w, [Call(ctx)])
    ensures w.boot.Some? && Finished(Run(w, [Call(ctx)])) && Run(w, [Call(ctx)]).entered == w.boot.value.(eax := 0)
  {
    assert |w.m.queues| == 4 && w.boot.Some?;
    assert Possible(w, Call(ctx));
    hide Filed, Roster, Everyone, Next;
    IdleFallback(w, [], ctx);
    assert [Call(ctx)][1..] == [];
  }

  lemma ComhandLeaves(w: World, ctx: Context)
    requires Sound(w) && w.m.current.Some? && w.m.current.value.pid == w.comhand && ctx.eax == EXIT
    requires |w.m.queues[READY_QUEUE]| == 1 && w.m.queues[READY_QUEUE][0].pid == w.idle
    ensures Possible(w, Call(ctx))
    ensures var w' := Next(w, Call(ctx));
      && w'.m.current.Some? && w'.m.current.value.pid == w'.idle && |w'.m.queues| == 4 && w'.m.queues[READY_QUEUE] == []
      && w'.boot == w.boot
  {
    assert |w.m.queues| == 4;
    assert Possible(w, Call(ctx));
    AfterExit(w, ctx);
    StepKeepsIds(w, Call(ctx));
    SoundHasQueues(Next(w, Call(ctx)));
    hide Sound, Next;
  }

  lemma SoundHasQueues(w: World)
    requires Sound(w)
    ensures |w.m.queues| == 4
  {
  }

  lemma LastTwoCalls(w: World, c1: Context, c2: Context)
    requires Sound(w) && w.boot.Some? && w.m.current.Some? && w.m.current.value.pid == w.comhand
    requires |w.m.queues[READY_QUEUE]| == 1 && w.m.queues[READY_QUEUE][0].pid == w.idle
    requires c1.eax == EXIT && c2.eax == IDLE
    ensures Legal(w, [Call(c1), Call(c2)])
    ensures var w' := Run(w, [Call(c1), Call(c2)]); Finished(w') && w'.entered == w.boot.value.(eax := 0)
  {
    hide Sound, Next, Possible;
    ComhandLeaves(w, c1);
    IdleEnds(Next(w, Call(c1)), c2);
    assert [Call(c1), Call(c2)][1..] == [Call(c2)];
  }

  lemma ThreeCalls(w: World, c0: Context, c1: Context, c2: Context)
    requires Sound(w) && w.m.current.None? && w.boot.None? && |w.m.queues[READY_QUEUE]| == 2
    requires w.m.queues[READY_QUEUE][0].pid == w.comhand && w.m.queues[READY_QUEUE][1].pid == w.idle
    requires c0.eax == IDLE && c1.eax == EXIT && c2.eax == IDLE
    ensures Legal(w, [Call(c0), Call(c1), Call(c2)])
    ensures var w' := Run(w, [Call(c0), Call(c1), Call(c2)]); Finished(w') && w'.entered == c0.(eax := 0)
  {
    var es := [Call(c0), Call(c1), Call(c2)];
    FirstDispatch(w, c0);
    hide Sound, Next;
    LastTwoCalls(Next(w, es[0]), c1, c2);
    assert es[1..] == [Call(c1), Call(c2)];
  }

  // The shortest run from boot: comhand exits at once, and idle hands the
  // machine back.
  lemma ShortestRun(comhand: nat, idle: nat, comhandEntry: int, idleEntry: int, c0: Context, c1: Context, c2: Context)
    requires comhand != idle && c0.eax == IDLE && c1.eax == EXIT && c2.eax == IDLE
    ensures var w := Boot(comhand, idle, comhandEntry, idleEntry, c0);
      Sound(w) && Legal(w, [Call(c0), Call(c1), Call(c2)]) && Finished(Run(w, [Call(c0), Call(c1), Call(c2)]))
  {
    BootSound(comhand, idle, comhandEntry, idleEntry, c0);
    hide Sound, Legal, Run, PutIn;
    ThreeCalls(Boot(comhand, idle, comhandEntry, idleEntry, c0), c0, c1, c2);
  }
}
