/**
 Processes and their memory together: what kernel/sys_call.c, user/user_pcb.c
 and user/comhand.c allocate and free as processes come and go.
 */
module Ownership {
  import opened HeapSpec
  import opened HeapRuns
  import opened PcbMemory
  import opened Processes
  import M = Machines
  import S = Scheduling

  // The processes, the heap, and the process_name field of each PCB.
  datatype Kernel = Kernel(w: S.World, blocks: seq<Block>, names: map<nat, int>)

  datatype Act =
    | Proceed(event: S.Event)                                       // a system call or a command
    | Load(name: seq<char>, priority: int, entry: int, idles: nat)  // r3_load_pcb
    | Grab(size: nat)                                               // any other allocation,
    | Drop(ptr: int)                                                // and the end of one

  ghost function PidsOf(pop: multiset<Process>): set<nat> {
    set p | p in pop :: p.pid
  }

  // Whose PCBs are on the heap: every live process, and idle for good once it
  // has handed the machine back.
  ghost function Held(w: S.World): set<nat>
    requires |w.m.queues| == 4
  {
    PidsOf(S.Everyone(w.m)) + if S.Finished(w) then {w.idle} else {}
  }

  // Each of them has its two allocations, and no two share one.
  ghost predicate Backed(pids: set<nat>, out: set<int>, names: map<nat, int>) {
    && names.Keys == pids
    && (forall k :: k in names ==> (k as int) in out && names[k] in out)
    && (forall k, l :: k in names && l in names ==> names[k] != l)
    && (forall k, l :: k in names && l in names && k != l ==> names[k] != names[l])
  }

  ghost predicate Sound(k: Kernel, lo: nat, hi: int) {
    S.Sound(k.w) && WellFormed(k.blocks, lo, hi) && Backed(Held(k.w), Out(k.blocks), k.names)
  }

  // The process whose PCB the step frees.
  ghost function Gone(w: S.World, e: S.Event): M.Option<nat>
    requires |w.m.queues| == 4
  {
    match e
    case Call(ctx) => if ctx.eax == M.EXIT && w.m.current.Some? then M.Some(w.m.current.value.pid) else M.None
    case Order(c) =>
      if c.Delete? && M.Execute(w.m.queues, c).1 == 0 then M.Some(M.At(w.m.queues, M.Find(w.m.queues, c.name).value).pid)
      else M.None
    case Load(_, _) => M.None
  }

  ghost predicate Possible(k: Kernel, a: Act) {
    match a
    case Proceed(e) => !e.Load? && S.Possible(k.w, e)
    case Load(_, _, _, _) => k.w.m.current.Some? && k.w.m.current.value.pid == k.w.comhand
    case Grab(_) => true
    case Drop(ptr) => ptr in Out(k.blocks) && forall pid :: pid in k.names ==> ptr != pid && ptr != k.names[pid]
  }

  // ----------------------------------------------------- who comes and goes

  lemma PidsChanged(pop: multiset<Process>, p: Process, p': Process, pop': multiset<Process>)
    requires M.OneEach(pop) && p in pop && pop' + multiset{p} == pop + multiset{p'} && p'.pid == p.pid
    ensures PidsOf(pop') == PidsOf(pop)
  {
    S.ChangedMembers(pop, p, p', pop');
    hide M.OneEach;
    assert forall k :: k in PidsOf(pop) ==> k in PidsOf(pop') by {
      forall k | k in PidsOf(pop) ensures k in PidsOf(pop') {
        var q :| q in pop && q.pid == k;
        assert (if k == p.pid then p' else q) in pop';
      }
    }
  }

  lemma PidsDropped(pop: multiset<Process>, p: Process, pop': multiset<Process>)
    requires M.OneEach(pop) && p in pop && pop' + multiset{p} == pop
    ensures PidsOf(pop') == PidsOf(pop) - {p.pid}
  {
    forall q ensures q in pop' <==> q in pop && q.pid != p.pid {
      assert (pop' + multiset{p})[q] == pop[q];
      assert q in pop && q.pid == p.pid ==> q == p && pop[q] == 1;
    }
    hide M.OneEach;
    forall k | k in PidsOf(pop) && k != p.pid ensures k in PidsOf(pop') {
      var q :| q in pop && q.pid == k;
      assert q in pop';
    }
  }

  lemma OneOfEach(w: S.World)
    requires S.Sound(w)
    ensures |w.m.queues| == 4 && (!S.Finished(w) ==> M.OneEach(S.Everyone(w.m)))
  {
    hide S.Everyone, M.OneEach;
  }

  // A step frees the PCB of just the process that it ends.
  lemma IdleHeld(w: S.World, ctx: Context)
    requires S.Sound(w) && S.Possible(w, S.Call(ctx)) && ctx.eax == M.IDLE
    ensures Held(S.Next(w, S.Call(ctx))) == Held(w)
  {
    hide S.Everyone, S.Next, S.Sound, S.Possible, PidsOf;
    var w' := S.Next(w, S.Call(ctx));
    OneOfEach(w);
    OneOfEach(w');
    S.CallsAreGood(w, ctx);
    S.IdleFallback(w, [], ctx);
    S.StepKeepsIds(w, S.Call(ctx));
    if w.m.queues[READY_QUEUE] != [] {
      IdleEveryone(w, ctx);
    } else {
      LastEveryone(w, ctx);
    }
  }

  lemma IdleEveryone(w: S.World, ctx: Context)
    requires S.Sound(w) && S.Possible(w, S.Call(ctx)) && ctx.eax == M.IDLE && w.m.queues[READY_QUEUE] != []
    ensures PidsOf(S.Everyone(S.Next(w, S.Call(ctx)).m)) == PidsOf(S.Everyone(w.m))
  {
    S.CallsAreGood(w, ctx);
    var m := w.m.(initial := M.Remembered(w.m, ctx));
    assert S.Next(w, S.Call(ctx)).m == M.Yield(m, ctx);
    assert S.Everyone(m) == S.Everyone(w.m);
    S.YieldEveryone(m, ctx);
    assert M.OneEach(S.Everyone(w.m));
    if w.m.current.Some? {
      var p := w.m.current.value;
      assert p in S.Everyone(w.m);
      hide S.Everyone, M.OneEach, M.Yield, S.Next, S.Sound;
      PidsChanged(S.Everyone(w.m), p, p.(context := ctx), S.Everyone(M.Yield(m, ctx)));
    }
  }

  lemma LastEveryone(w: S.World, ctx: Context)
    requires S.Sound(w) && S.Possible(w, S.Call(ctx)) && ctx.eax == M.IDLE && w.m.queues[READY_QUEUE] == []
    ensures PidsOf(S.Everyone(S.Next(w, S.Call(ctx)).m)) == PidsOf(S.Everyone(w.m)) - {w.idle}
    ensures w.idle in PidsOf(S.Everyone(w.m))
  {
    S.CallsAreGood(w, ctx);
    S.ReadyUnlessIdle(w);
    var p, pop := w.m.current.value, S.Everyone(w.m);
    var pop' := S.Everyone(S.Next(w, S.Call(ctx)).m);
    assert M.OneEach(pop) && p in pop;
    hide M.OneEach, M.Filed, S.Roster;
    assert pop' + multiset{p} == pop;
    PidsDropped(pop, p, pop');
  }

  lemma ExitHeld(w: S.World, ctx: Context)
    requires S.Sound(w) && S.Possible(w, S.Call(ctx)) && ctx.eax == M.EXIT
    ensures w.m.current.Some? && w.m.current.value.pid in Held(w)
    ensures Held(S.Next(w, S.Call(ctx))) == Held(w) - {w.m.current.value.pid}
  {
    S.CallsAreGood(w, ctx);
    S.ReadyUnlessIdle(w);
    S.ExitEveryone(w.m);
    var p, pop := w.m.current.value, S.Everyone(w.m);
    assert M.OneEach(pop) && p in pop;
    hide M.OneEach, M.Filed, S.Roster, S.Everyone, M.TakeFrom;
    PidsDropped(pop, p, S.Everyone(S.Next(w, S.Call(ctx)).m));
  }

  lemma OrderStep(w: S.World, c: M.Command)
    requires S.Sound(w) && S.Possible(w, S.Order(c))
    ensures |w.m.queues| == 4 && w.m.current.Some? && M.OneEach(S.Everyone(w.m))
    ensures S.Next(w, S.Order(c)) == w.(m := w.m.(queues := M.Execute(w.m.queues, c).0))
  {
    assert !S.Finished(w);
    OneOfEach(w);
    hide S.Sound, M.Execute;
  }

  lemma OrderHeld(w: S.World, c: M.Command)
    requires S.Sound(w) && S.Possible(w, S.Order(c))
    ensures var (w', gone) := (S.Next(w, S.Order(c)), Gone(w, S.Order(c)));
      && (gone.None? ==> Held(w') == Held(w))
      && (gone.Some? ==> gone.value in Held(w) && Held(w') == Held(w) - {gone.value})
  {
    hide S.Everyone, S.Next, S.Sound, S.Possible, PidsOf, M.Execute, M.Find, M.OneEach;
    OrderStep(w, c);
    OneOfEach(S.Next(w, S.Order(c)));
    if M.Execute(w.m.queues, c).1 == 0 {
      FoundIfDone(w.m.queues, c);
      OrderedPids(w.m, c, M.Find(w.m.queues, c.name).value);
    } else {
      FailureKeeps(w.m.queues, c);
    }
  }

  lemma OrderedPids(m: M.Machine, c: M.Command, at: M.Place)
    requires |m.queues| == 4 && M.Find(m.queues, c.name) == M.Some(at) && M.Execute(m.queues, c).1 == 0
    requires M.OneEach(S.Everyone(m))
    ensures var (p, m') := (M.At(m.queues, at), m.(queues := M.Execute(m.queues, c).0));
      && |m'.queues| == 4 && p.pid in PidsOf(S.Everyone(m))
      && PidsOf(S.Everyone(m')) == if c.Delete? then PidsOf(S.Everyone(m)) - {p.pid} else PidsOf(S.Everyone(m))
  {
    var p, qs', pop := M.At(m.queues, at), M.Execute(m.queues, c).0, S.Everyone(m);
    M.ExecuteAffects(m.queues, c, at);
    hide M.OneEach, S.Everyone, M.Execute, M.Find;
    S.OrderedEveryone(c, m, p, qs');
    hide M.Affects;
    if c.Delete? {
      PidsDropped(pop, p, S.Everyone(m.(queues := qs')));
    } else {
      PidsChanged(pop, p, M.Changed(c, p), S.Everyone(m.(queues := qs')));
    }
  }

  lemma FoundIfDone(qs: seq<seq<Process>>, c: M.Command)
    requires |qs| == 4 && M.Execute(qs, c).1 == 0
    ensures M.Find(qs, c.name).Some?
  {
    hide M.Find;
  }

  lemma FailureKeeps(qs: seq<seq<Process>>, c: M.Command)
    requires |qs| == 4 && M.Execute(qs, c).1 != 0
    ensures M.Execute(qs, c).0 == qs
  {
    M.ExecuteIsExact(qs, c);
    hide M.Execute, M.Affects;
  }

  // ------------------------------------------------------------- the memory

  lemma BackedMore(pids: set<nat>, out: set<int>, names: map<nat, int>, pid: nat, name: int, out': set<int>)
    requires Backed(pids, out, names) && pid != name && (pid as int) !in out && name !in out && out' == out + {pid as int, name}
    ensures pid !in pids && Backed(pids + {pid}, out', names[pid := name])
  {
    assert names[pid := name].Keys == pids + {pid};
  }

  lemma BackedLess(pids: set<nat>, out: set<int>, names: map<nat, int>, pid: nat, out': set<int>)
    requires Backed(pids, out, names) && pid in pids && out' == out - {pid as int, names[pid]}
    ensures Backed(pids - {pid}, out', names - {pid})
  {
    assert (names - {pid}).Keys == pids - {pid};
  }

  lemma BackedElse(pids: set<nat>, out: set<int>, names: map<nat, int>, out': set<int>)
    requires Backed(pids, out, names)
    requires forall k :: k in names ==> (k as int) in out' && names[k] in out'
    ensures Backed(pids, out', names)
  {
  }

  lemma GrabOut(bs: seq<Block>, n: nat, lo: nat, hi: int)
    requires WellFormed(bs, lo, hi)
    ensures WellFormed(Allocate(bs, n).blocks, lo, hi) && Out(bs) <= Out(Allocate(bs, n).blocks)
  {
    var b := AllocateAdds(bs, n, lo, hi);
    hide WellFormed, Allocate;
    var cs := Allocate(bs, n).blocks;
    assert Live(bs) <= Live(cs);
  }

  lemma DropOut(bs: seq<Block>, ptr: int, lo: nat, hi: int)
    requires WellFormed(bs, lo, hi) && ptr in Out(bs)
    ensures MayFree(bs, ptr) && Free(bs, ptr).1 == 0
    ensures WellFormed(Free(bs, ptr).0, lo, hi) && Out(Free(bs, ptr).0) == Out(bs) - {ptr}
  {
    hide WellFormed, Free, Live, MayFree;
    var b :| b in Live(bs) && b.start == ptr;
    LiveMayBeFreed(bs, b, lo, hi);
    OneAtEachAddress(bs, lo, hi);
  }

  // ---------------------------------------------------------------- one step

  // A new process gets an address that no live process has.
  lemma LoadIsPossible(k: Kernel, a: Act, lo: nat, hi: int)
    requires Sound(k, lo, hi) && Possible(k, a) && a.Load?
    ensures var r := Setup(k.blocks, |a.name|);
      r.pcb != 0 ==> r.pcb > 0 && S.Possible(k.w, S.Load(S.Loaded(r.pcb, a.name, User, a.priority, a.entry), a.idles))
  {
    hide S.Sound, S.Everyone, WellFormed, Setup, Out;
    SetupOut(k.blocks, |a.name|, lo, hi);
    OneOfEach(k.w);
    var r := Setup(k.blocks, |a.name|);
    if r.pcb != 0 {
      HasHeld(k.w, r.pcb);
      hide Held, S.Has;
    }
  }

  lemma HasHeld(w: S.World, pid: nat)
    requires |w.m.queues| == 4
    ensures S.Has(S.Everyone(w.m), pid) ==> pid in Held(w)
  {
    hide S.Everyone;
  }

  // free_memory is called within its rights: both blocks of the process that
  // goes are live allocations.
  lemma GoneIsHeld(k: Kernel, e: S.Event, lo: nat, hi: int)
    requires Sound(k, lo, hi) && S.Possible(k.w, e) && Gone(k.w, e).Some?
    ensures var pid := Gone(k.w, e).value;
      && pid in k.names && MayFree(k.blocks, k.names[pid]) && MayFree(Free(k.blocks, k.names[pid]).0, pid)
      && GiveBack(k.blocks, pid, k.names[pid]).1 == 0
  {
    GoneInHeld(k.w, e);
    var pid := Gone(k.w, e).value;
    GiveBackOut(k.blocks, pid, k.names[pid], lo, hi);
    hide S.Sound, S.Possible, Out, WellFormed, MayFree, Free, GiveBack, Gone;
  }

  lemma GoneInHeld(w: S.World, e: S.Event)
    requires S.Sound(w) && S.Possible(w, e) && !e.Load?
    ensures Gone(w, e).None? ==> Held(S.Next(w, e)) == Held(w)
    ensures Gone(w, e).Some? ==> Gone(w, e).value in Held(w) && Held(S.Next(w, e)) == Held(w) - {Gone(w, e).value}
  {
    hide S.Sound, Held;
    match e
    case Order(c) => OrderHeld(w, c);
    case Call(ctx) =>
      if ctx.eax == M.IDLE {
        IdleHeld(w, ctx);
      } else if ctx.eax == M.EXIT {
        ExitHeld(w, ctx);
      } else {
        OtherCall(w, ctx);
      }
  }

  lemma OtherCall(w: S.World, ctx: Context)
    requires S.Sound(w) && S.Possible(w, S.Call(ctx)) && ctx.eax != M.IDLE && ctx.eax != M.EXIT
    ensures S.Next(w, S.Call(ctx)) == w
  {
    hide S.Sound;
  }

  ghost function Do(k: Kernel, a: Act, lo: nat, hi: int): Kernel
    requires Sound(k, lo, hi) && Possible(k, a)
  {
    match a
    case Proceed(e) =>
      var gone := Gone(k.w, e);
      if gone.None? then k.(w := S.Next(k.w, e))
      else
        GoneIsHeld(k, e, lo, hi);
        Kernel(S.Next(k.w, e), GiveBack(k.blocks, gone.value, k.names[gone.value]).0, k.names - {gone.value})
    case Load(name, priority, entry, idles) =>
      var r := Setup(k.blocks, |name|);
      if r.pcb == 0 then k.(blocks := r.blocks)
      else
        LoadIsPossible(k, a, lo, hi);
        Kernel(S.Next(k.w, S.Load(S.Loaded(r.pcb, name, User, priority, entry), idles)), r.blocks, k.names[r.pcb := r.name])
    case Grab(size) => k.(blocks := Allocate(k.blocks, size).blocks)
    case Drop(ptr) => k.(blocks := Free(k.blocks, ptr).0)
  }

  // Every step leaves every live process with the two allocations of its PCB
  // and nobody else's; what a step frees is a live allocation; and nothing of
  // a process outlives it, but for idle, whose PCB is lost in the end.
  lemma DoSound(k: Kernel, a: Act, lo: nat, hi: int)
    requires Sound(k, lo, hi) && Possible(k, a)
    ensures Sound(Do(k, a, lo, hi), lo, hi)
  {
    hide S.Sound, S.Possible, WellFormed, Backed, Held, Out, S.Next, Setup, GiveBack, Allocate, Free, Gone;
    match a
    case Proceed(e) => ProceedSound(k, e, lo, hi);
    case Load(name, priority, entry, idles) => LoadSound(k, a, lo, hi);
    case Grab(size) => GrabSound(k, size, lo, hi);
    case Drop(ptr) => DropSound(k, ptr, lo, hi);
  }

  lemma ProceedSound(k: Kernel, e: S.Event, lo: nat, hi: int)
    requires Sound(k, lo, hi) && Possible(k, Proceed(e))
    ensures Sound(Do(k, Proceed(e), lo, hi), lo, hi)
  {
    hide S.Sound, S.Possible, WellFormed, Out, S.Next, GiveBack, Gone, Held, MayFree, Free;
    OneOfEach(k.w);
    GoneInHeld(k.w, e);
    var gone := Gone(k.w, e);
    if gone.Some? {
      var pid := gone.value;
      assert (pid as int) in Out(k.blocks) && k.names[pid] in Out(k.blocks) && pid != k.names[pid];
      GiveBackOut(k.blocks, pid, k.names[pid], lo, hi);
      hide Backed;
      BackedLess(Held(k.w), Out(k.blocks), k.names, pid, Out(GiveBack(k.blocks, pid, k.names[pid]).0));
    }
  }

  lemma LoadSound(k: Kernel, a: Act, lo: nat, hi: int)
    requires Sound(k, lo, hi) && Possible(k, a) && a.Load?
    ensures Sound(Do(k, a, lo, hi), lo, hi)
  {
    hide S.Sound, S.Possible, WellFormed, Out, S.Next, Setup, Backed, Held;
    OneOfEach(k.w);
    SetupOut(k.blocks, |a.name|, lo, hi);
    var r := Setup(k.blocks, |a.name|);
    if r.pcb != 0 {
      LoadIsPossible(k, a, lo, hi);
      var p := S.Loaded(r.pcb, a.name, User, a.priority, a.entry);
      BackedMore(Held(k.w), Out(k.blocks), k.names, r.pcb, r.name, Out(r.blocks));
      LoadHeld(k.w, p, a.idles);
    }
  }

  lemma LoadHeld(w: S.World, p: Process, idles: nat)
    requires S.Sound(w) && S.Possible(w, S.Load(p, idles))
    ensures Held(S.Next(w, S.Load(p, idles))) == Held(w) + {p.pid}
  {
    hide S.Sound, S.Everyone, PidsOf, M.PutIn;
    OneOfEach(w);
    S.LoadEveryone(w.m, p);
    PidsJoined(S.Everyone(w.m), p);
    OneOfEach(S.Next(w, S.Load(p, idles)));
  }

  lemma PidsJoined(pop: multiset<Process>, p: Process)
    ensures PidsOf(pop + multiset{p}) == PidsOf(pop) + {p.pid}
  {
    assert p in pop + multiset{p};
    forall k | k in PidsOf(pop) ensures k in PidsOf(pop + multiset{p}) {
      var q :| q in pop && q.pid == k;
      assert q in pop + multiset{p};
    }
  }

  lemma GrabSound(k: Kernel, size: nat, lo: nat, hi: int)
    requires Sound(k, lo, hi)
    ensures Sound(Do(k, Grab(size), lo, hi), lo, hi)
  {
    hide S.Sound, WellFormed, Out, Allocate, Held;
    OneOfEach(k.w);
    GrabOut(k.blocks, size, lo, hi);
    BackedElse(Held(k.w), Out(k.blocks), k.names, Out(Allocate(k.blocks, size).blocks));
  }

  lemma DropSound(k: Kernel, ptr: int, lo: nat, hi: int)
    requires Sound(k, lo, hi) && Possible(k, Drop(ptr))
    ensures Sound(Do(k, Drop(ptr), lo, hi), lo, hi)
  {
    hide S.Sound, WellFormed, Out, Free, Held, MayFree;
    OneOfEach(k.w);
    DropOut(k.blocks, ptr, lo, hi);
    BackedElse(Held(k.w), Out(k.blocks), k.names, Out(Free(k.blocks, ptr).0));
  }

  // -------------------------------------------------------------------- runs

  ghost predicate Legal(k: Kernel, acts: seq<Act>, lo: nat, hi: int)
    requires Sound(k, lo, hi)
    decreases |acts|
  {
    acts != [] ==> Possible(k, acts[0]) && (DoSound(k, acts[0], lo, hi); Legal(Do(k, acts[0], lo, hi), acts[1..], lo, hi))
  }

  ghost function Run(k: Kernel, acts: seq<Act>, lo: nat, hi: int): (k': Kernel)
    requires Sound(k, lo, hi) && Legal(k, acts, lo, hi)
    ensures Sound(k', lo, hi)
    decreases |acts|
  {
    if acts == [] then k else
    DoSound(k, acts[0], lo, hi);
    Run(Do(k, acts[0], lo, hi), acts[1..], lo, hi)
  }

  // What an act is on the side of the processes.
  ghost function EventsOf(k: Kernel, a: Act): seq<S.Event> {
    match a
    case Proceed(e) => [e]
    case Load(name, priority, entry, idles) =>
      var r := Setup(k.blocks, |name|);
      if r.pcb <= 0 then [] else [S.Load(S.Loaded(r.pcb, name, User, priority, entry), idles)]
    case Grab(_) => []
    case Drop(_) => []
  }

  ghost function Events(k: Kernel, acts: seq<Act>, lo: nat, hi: int): seq<S.Event>
    requires Sound(k, lo, hi) && Legal(k, acts, lo, hi)
    decreases |acts|
  {
    if acts == [] then [] else
    DoSound(k, acts[0], lo, hi);
    EventsOf(k, acts[0]) + Events(Do(k, acts[0], lo, hi), acts[1..], lo, hi)
  }

  lemma ActIsEvents(k: Kernel, a: Act, lo: nat, hi: int)
    requires Sound(k, lo, hi) && Possible(k, a)
    ensures S.Legal(k.w, EventsOf(k, a)) && S.Run(k.w, EventsOf(k, a)) == Do(k, a, lo, hi).w
  {
    hide S.Sound, S.Possible, S.Next, WellFormed, Backed, Held, Out, Setup, GiveBack, Gone, Allocate, Free;
    if a.Load? {
      LoadIsPossible(k, a, lo, hi);
      SetupOut(k.blocks, |a.name|, lo, hi);
    }
    if EventsOf(k, a) != [] {
      assert EventsOf(k, a)[1..] == [];
    }
  }

  lemma {:induction false} RunsAppend(w: S.World, es: seq<S.Event>, fs: seq<S.Event>)
    requires S.Sound(w) && S.Legal(w, es) && S.Legal(S.Run(w, es), fs)
    ensures S.Legal(w, es + fs) && S.Run(w, es + fs) == S.Run(S.Run(w, es), fs)
    decreases |es|
  {
    hide S.Sound, S.Possible, S.Next;
    if es == [] {
      assert es + fs == fs;
    } else {
      RunsAppend(S.Next(w, es[0]), es[1..], fs);
      assert (es + fs)[1..] == es[1..] + fs;
    }
  }

  // Every run of processes and heap together is a run of the processes, so all
  // that holds of those holds here.
  lemma {:induction false} RunsAreRuns(k: Kernel, acts: seq<Act>, lo: nat, hi: int)
    requires Sound(k, lo, hi) && Legal(k, acts, lo, hi)
    ensures S.Sound(k.w) && S.Legal(k.w, Events(k, acts, lo, hi))
    ensures S.Run(k.w, Events(k, acts, lo, hi)) == Run(k, acts, lo, hi).w
    decreases |acts|
  {
    hide S.Sound, S.Legal, S.Run, Do, Possible, EventsOf;
    if acts == [] {
      NoEvents(k.w);
    } else {
      DoSound(k, acts[0], lo, hi);
      ActIsEvents(k, acts[0], lo, hi);
      RunsAreRuns(Do(k, acts[0], lo, hi), acts[1..], lo, hi);
      RunsAppend(k.w, EventsOf(k, acts[0]), Events(Do(k, acts[0], lo, hi), acts[1..], lo, hi));
    }
  }

  lemma NoEvents(w: S.World)
    requires S.Sound(w)
    ensures S.Legal(w, []) && S.Run(w, []) == w
  {
  }

  // A process that was given memory and loaded first runs at its entry, on the
  // stack of its own PCB, whatever happens to processes and heap in between.
  lemma LoadedStarts(k: Kernel, a: Act, acts: seq<Act>, lo: nat, hi: int)
    requires Sound(k, lo, hi) && Possible(k, a) && a.Load? && Setup(k.blocks, |a.name|).pcb > 0
    requires Sound(Do(k, a, lo, hi), lo, hi) && Legal(Do(k, a, lo, hi), acts, lo, hi)
    requires var (k', pid) := (Do(k, a, lo, hi), Setup(k.blocks, |a.name|).pcb);
      && S.Legal(k'.w, Events(k', acts, lo, hi)) && S.Away(k'.w, Events(k', acts, lo, hi), pid)
      && Run(k', acts, lo, hi).w.m.current.Some? && Run(k', acts, lo, hi).w.m.current.value.pid == pid
    ensures S.AtEntry(Run(Do(k, a, lo, hi), acts, lo, hi).w.entered, Setup(k.blocks, |a.name|).pcb, a.entry)
  {
    var k', pid := Do(k, a, lo, hi), Setup(k.blocks, |a.name|).pcb;
    LoadIsPossible(k, a, lo, hi);
    RunsAreRuns(k', acts, lo, hi);
    assert k'.w == S.Next(k.w, S.Load(S.Loaded(pid, a.name, User, a.priority, a.entry), a.idles));
    hide Sound, Legal, Run, Events, Do, Possible, Setup, S.Sound, S.Legal, S.Run, S.Away, S.Next, S.Possible, S.AtEntry, S.Loaded;
    S.LoadedStarts(k.w, pid, a.name, a.priority, a.entry, a.idles, Events(k', acts, lo, hi));
  }

  // In every run, pcb_free as the dispatcher and delete_pcb call it meets the
  // demands of free_memory and answers 0: no PCB is freed twice.
  lemma NoDoubleFree(k: Kernel, acts: seq<Act>, e: S.Event, lo: nat, hi: int)
    requires Sound(k, lo, hi) && Legal(k, acts, lo, hi)
    requires var u := Run(k, acts, lo, hi); S.Possible(u.w, e) && |u.w.m.queues| == 4 && Gone(u.w, e).Some?
    ensures var u := Run(k, acts, lo, hi); var pid := Gone(u.w, e).value;
      && pid in u.names && MayFree(u.blocks, u.names[pid]) && MayFree(Free(u.blocks, u.names[pid]).0, pid)
      && GiveBack(u.blocks, pid, u.names[pid]).1 == 0
  {
    hide Sound, Legal, Run, MayFree, Free, GiveBack, Gone;
    GoneIsHeld(Run(k, acts, lo, hi), e, lo, hi);
  }

  // When kmain has the machine back, what processes still hold is the memory
  // of those that are suspended or blocked, and of idle.
  lemma WhatIsLeft(k: Kernel, acts: seq<Act>, lo: nat, hi: int)
    requires Sound(k, lo, hi) && Legal(k, acts, lo, hi) && S.Finished(Run(k, acts, lo, hi).w)
    ensures var u := Run(k, acts, lo, hi);
      && |u.w.m.queues| == 4 && u.w.m.queues[READY_QUEUE] == []
      && u.names.Keys == PidsOf(M.Population(u.w.m.queues)) + {u.w.idle}
  {
    var u := Run(k, acts, lo, hi);
    OneOfEach(u.w);
    assert S.Everyone(u.w.m) == M.Population(u.w.m.queues);
    hide Run, Legal, M.Population, PidsOf, WellFormed, Out;
  }

  // The runs may start from kmain's two processes on any heap with room.
  lemma BootSound(bs: seq<Block>, comhandEntry: int, idleEntry: int, any: Context, lo: nat, hi: int)
    requires WellFormed(bs, lo, hi)
    requires Setup(bs, 7).pcb != 0 && Setup(Setup(bs, 7).blocks, 4).pcb != 0
    ensures var r := Setup(bs, 7); var t := Setup(r.blocks, 4);
      && r.pcb > 0 && t.pcb > 0
      && var names := map[(r.pcb as nat) := r.name, (t.pcb as nat) := t.name];
         Sound(Kernel(S.Boot(r.pcb, t.pcb, comhandEntry, idleEntry, any), t.blocks, names), lo, hi)
  {
    hide S.Sound, WellFormed, Out, Setup, S.Boot, Backed;
    SetupOut(bs, 7, lo, hi);
    var r := Setup(bs, 7);
    SetupOut(r.blocks, 4, lo, hi);
    var t := Setup(r.blocks, 4);
    NoneBacked(Out(bs));
    BackedMore({}, Out(bs), map[], r.pcb, r.name, Out(r.blocks));
    BackedMore({r.pcb as nat}, Out(r.blocks), map[(r.pcb as nat) := r.name], t.pcb, t.name, Out(t.blocks));
    BootHeld(r.pcb, t.pcb, comhandEntry, idleEntry, any);
  }

  lemma NoneBacked(out: set<int>)
    ensures Backed({}, out, map[])
  {
  }

  lemma BootHeld(comhand: nat, idle: nat, comhandEntry: int, idleEntry: int, any: Context)
    requires comhand != idle
    ensures var w := S.Boot(comhand, idle, comhandEntry, idleEntry, any);
      S.Sound(w) && |w.m.queues| == 4 && Held(w) == {comhand} + {idle}
  {
    S.BootSound(comhand, idle, comhandEntry, idleEntry, any);
    var w := S.Boot(comhand, idle, comhandEntry, idleEntry, any);
    var c, i := w.m.queues[READY_QUEUE][0], w.m.queues[READY_QUEUE][1];
    assert w.m.current.None? && w.boot.None? && c.pid == comhand && i.pid == idle;
    hide S.Sound, S.Boot, S.Loaded;
    S.BootPopulation(c, i);
    hide M.Population;
    assert S.Everyone(w.m) == multiset{c, i};
    PidsOfTwo(c, i);
  }

  lemma PidsOfTwo(c: Process, i: Process)
    ensures PidsOf(multiset{c, i}) == {c.pid} + {i.pid}
  {
    assert c in multiset{c, i} && i in multiset{c, i};
  }
}
