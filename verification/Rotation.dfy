/**
 Who runs when processes only ever call IDLE (kernel/sys_call.c): the
 dispatcher picks the best ready process, and the caller, whatever its
 priority, is not among them.
 */
module Rotation {
  import opened Processes
  import opened Machines

  // The same process, but for its saved context.
  predicate Alike(p: Process, q: Process) {
    p.(context := q.context) == q
  }

  ghost predicate AllAlike(q: seq<Process>, r: seq<Process>) {
    |q| == |r| && forall i :: 0 <= i < |q| ==> Alike(q[i], r[i])
  }

  // The machine after IDLE calls with these registers.
  function Idles(m: Machine, ctxs: seq<Context>): (m': Machine)
    requires |m.queues| == 4
    ensures |m'.queues| == 4
    decreases |ctxs|
  {
    if ctxs == [] then m else IdleOnce(Idles(m, ctxs[..|ctxs|-1]), ctxs[|ctxs|-1])
  }

  function IdleOnce(m: Machine, ctx: Context): (m': Machine)
    requires |m.queues| == 4
    ensures |m'.queues| == 4
  {
    SysCall(m, ctx.(eax := IDLE)).0
  }

  // The running process and the ready queue, and one turn of the dispatcher.
  datatype Deck = Deck(top: Process, rest: seq<Process>)

  function Turn(d: Deck): (d': Deck)
    requires d.rest != []
    ensures d'.rest != []
  {
    Deck(d.rest[0], Insert(d.rest[1..], Position(d.rest[1..], d.top.priority), d.top))
  }

  function Turns(d: Deck, n: nat): (d': Deck)
    requires d.rest != []
    ensures d'.rest != []
    decreases n
  {
    if n == 0 then d else Turn(Turns(d, n - 1))
  }

  // The machine shows the deck, whatever the contexts.
  ghost predicate Plays(m: Machine, d: Deck) {
    && |m.queues| == 4 && m.current.Some? && RunsReady(m.current)
    && Alike(m.current.value, d.top) && AllAlike(m.queues[READY_QUEUE], d.rest)
    && forall i :: 0 <= i < |m.queues[READY_QUEUE]| ==> RunsReady(Some(m.queues[READY_QUEUE][i]))
  }

  lemma {:induction false} SamePosition(q: seq<Process>, r: seq<Process>, v: int)
    requires AllAlike(q, r)
    ensures Position(q, v) == Position(r, v)
  {
    if q != [] {
      assert Alike(q[0], r[0]);
      SamePosition(q[1..], r[1..], v);
    }
  }

  lemma InsertAlike(q: seq<Process>, r: seq<Process>, k: nat, p: Process, p': Process)
    requires AllAlike(q, r) && k <= |q| && Alike(p, p')
    ensures AllAlike(Insert(q, k, p), Insert(r, k, p'))
  {
    InsertAt(q, k, p, Insert(q, k, p));
    InsertAt(r, k, p', Insert(r, k, p'));
    hide Insert, Alike;
  }

  lemma InsertReady(q: seq<Process>, k: nat, p: Process)
    requires k <= |q| && RunsReady(Some(p)) && forall i :: 0 <= i < |q| ==> RunsReady(Some(q[i]))
    ensures forall i :: 0 <= i < |Insert(q, k, p)| ==> RunsReady(Some(Insert(q, k, p)[i]))
  {
    InsertAt(q, k, p, Insert(q, k, p));
    hide Insert;
  }

  lemma TurnPlays(m: Machine, d: Deck, ctx: Context)
    requires Plays(m, d) && d.rest != []
    ensures Plays(IdleOnce(m, ctx), Turn(d))
  {
    var p, q, k := m.current.value.(context := ctx.(eax := IDLE)), m.queues[READY_QUEUE], Position(d.rest[1..], d.top.priority);
    var n := m.(initial := Remembered(m, ctx.(eax := IDLE)));
    SamePosition(q[1..], d.rest[1..], d.top.priority);
    YieldQueue(n, ctx.(eax := IDLE));
    assert IdleOnce(m, ctx) == Yield(n, ctx.(eax := IDLE));
    InsertAlike(q[1..], d.rest[1..], k, p, d.top);
    InsertReady(q[1..], k, p);
    hide IdleOnce, Yield, Insert, Position;
  }

  lemma IdlesLast(m: Machine, ctxs: seq<Context>)
    requires |m.queues| == 4 && ctxs != []
    ensures var n := |ctxs| - 1; Idles(m, ctxs) == IdleOnce(Idles(m, ctxs[..n]), ctxs[n])
  {
    hide IdleOnce;
  }

  lemma TurnsLast(d: Deck, n: nat)
    requires d.rest != []
    ensures Turns(d, 0) == d && Turns(d, n + 1) == Turn(Turns(d, n))
  {
    hide Turn;
  }

  lemma {:induction false} TurnsPlay(m: Machine, d: Deck, ctxs: seq<Context>)
    requires Plays(m, d) && d.rest != []
    ensures |m.queues| == 4 && Plays(Idles(m, ctxs), Turns(d, |ctxs|))
    decreases |ctxs|
  {
    assert |m.queues| == 4;
    if ctxs != [] {
      var n := |ctxs| - 1;
      IdlesLast(m, ctxs);
      TurnsLast(d, n);
      hide Plays, IdleOnce, Turn, Idles, Turns;
      TurnsPlay(m, d, ctxs[..n]);
      TurnPlays(Idles(m, ctxs[..n]), Turns(d, n), ctxs[n]);
    }
  }

  // ---------------------------------------------------------------- rotation

  function Rotated<T>(s: seq<T>, n: nat): (r: seq<T>)
    requires s != []
    ensures |r| == |s|
  {
    if n == 0 then s else
    var r := Rotated(s, n - 1);
    r[1..] + [r[0]]
  }

  lemma {:induction false} Unwound<T>(s: seq<T>, n: nat)
    requires s != [] && n <= |s|
    ensures Rotated(s, n) == s[n..] + s[..n]
  {
    if n > 0 {
      Unwound(s, n - 1);
      assert s[n-1..] == [s[n-1]] + s[n..];
      assert s[..n-1] + [s[n-1]] == s[..n];
    }
  }

  lemma FullCircle<T>(s: seq<T>)
    requires s != []
    ensures Rotated(s, |s|) == s
  {
    Unwound(s, |s|);
  }

  ghost predicate AllOf(q: seq<Process>, v: int) {
    forall i :: 0 <= i < |q| ==> q[i].priority == v
  }

  ghost predicate AllWorse(q: seq<Process>, v: int) {
    forall i :: 0 <= i < |q| ==> v < q[i].priority
  }

  lemma {:induction false} RotatedAllOf(q: seq<Process>, n: nat, v: int)
    requires q != [] && AllOf(q, v)
    ensures AllOf(Rotated(q, n), v)
  {
    if n > 0 {
      RotatedAllOf(q, n - 1, v);
    }
  }

  lemma BestFirst(q: seq<Process>, p: Process)
    requires q == [] || p.priority < q[0].priority
    ensures Insert(q, Position(q, p.priority), p) == [p] + q
  {
  }

  // Where a process goes among equals, with only worse ones behind them.
  lemma {:induction false} AmongEquals(front: seq<Process>, worse: seq<Process>, p: Process)
    requires AllOf(front, p.priority) && AllWorse(worse, p.priority)
    ensures Insert(front + worse, Position(front + worse, p.priority), p) == front + [p] + worse
  {
    BehindEquals(front, worse, p.priority);
    hide Position, AllOf, AllWorse;
    assert (front + worse)[..|front|] == front && (front + worse)[|front|..] == worse;
  }

  lemma {:induction false} BehindEquals(front: seq<Process>, worse: seq<Process>, v: int)
    requires AllOf(front, v) && AllWorse(worse, v)
    ensures Position(front + worse, v) == |front|
  {
    if front == [] {
      assert front + worse == worse;
    } else {
      assert (front + worse)[1..] == front[1..] + worse;
      BehindEquals(front[1..], worse, v);
    }
  }

  // c runs; front, and behind it worse, are ready.
  function Runs(c: Process, front: seq<Process>, worse: seq<Process>): (d: Deck) {
    Deck(c, front + worse)
  }

  // The first of front runs while c, ahead of the others, is ready.
  function Waits(c: Process, front: seq<Process>, worse: seq<Process>): (d: Deck)
    requires front != []
  {
    Deck(front[0], [c] + front[1..] + worse)
  }

  // c, better than all who are ready, yields to the first of them, and the
  // next time gets the processor back.
  lemma TurnBest(c: Process, front: seq<Process>, worse: seq<Process>, v: int)
    requires front != [] && AllOf(front, v) && AllWorse(worse, v) && c.priority < v
    ensures Runs(c, front, worse).rest != [] && Turn(Runs(c, front, worse)) == Waits(c, front, worse)
  {
    var tail := front[1..] + worse;
    assert (front + worse)[1..] == tail;
    assert tail != [] ==> tail[0] == if |front| > 1 then front[1] else worse[0];
    BestFirst(tail, c);
    hide Insert, Position, AllOf, AllWorse;
    assert [c] + tail == [c] + front[1..] + worse;
  }

  lemma TurnBack(x: Process, c: Process, front: seq<Process>, worse: seq<Process>)
    requires AllOf(front, x.priority) && AllWorse(worse, x.priority)
    ensures Turn(Deck(x, [c] + front + worse)) == Runs(c, front + [x], worse)
  {
    assert ([c] + front + worse)[1..] == front + worse;
    AmongEquals(front, worse, x);
    hide Insert, Position, AllOf, AllWorse;
  }

  lemma TurnNext(c: Process, front: seq<Process>, worse: seq<Process>, v: int, k: nat)
    requires front != [] && AllOf(front, v) && AllWorse(worse, v)
    ensures var w := Waits(c, Rotated(front, k), worse);
      w.rest != [] && Turn(w) == Runs(c, Rotated(front, k + 1), worse)
  {
    var f := Rotated(front, k);
    RotatedAllOf(front, k, v);
    assert f[0].priority == v && AllOf(f[1..], v);
    TurnBack(f[0], c, f[1..], worse);
    hide AllOf, AllWorse, Turn;
  }

  lemma {:induction false} BestAlternates(c: Process, front: seq<Process>, worse: seq<Process>, v: int, k: nat)
    requires front != [] && AllOf(front, v) && AllWorse(worse, v) && c.priority < v
    ensures Runs(c, front, worse).rest != []
    ensures Turns(Runs(c, front, worse), k + k) == Runs(c, Rotated(front, k), worse)
    ensures Turns(Runs(c, front, worse), k + k + 1) == Waits(c, Rotated(front, k), worse)
  {
    hide Runs, Waits, AllOf, AllWorse, Turn, Turns;
    var d := Runs(c, front, worse);
    TurnBest(c, front, worse, v);
    if k > 0 {
      BestAlternates(c, front, worse, v, k - 1);
      hide Rotated;
      TurnNext(c, front, worse, v, k - 1);
      TurnsLast(d, k + k - 1);
    } else {
      TurnsLast(d, 0);
    }
    TurnsLast(d, k + k);
    RotatedAllOf(front, k, v);
    TurnBest(c, Rotated(front, k), worse, v);
  }

  // A process better than all who are ready runs every second time; those of
  // the next best priority run in between, first come first served; after two
  // rounds of theirs all stand where they stood; nobody worse ever runs.
  lemma BestRotation(m: Machine, c: Process, front: seq<Process>, worse: seq<Process>, v: int, ctxs: seq<Context>, k: nat)
    requires front != [] && AllOf(front, v) && AllWorse(worse, v) && c.priority < v
    requires Plays(m, Runs(c, front, worse))
    ensures |ctxs| == k + k ==> Plays(Idles(m, ctxs), Runs(c, Rotated(front, k), worse))
    ensures |ctxs| == k + k + 1 ==> Plays(Idles(m, ctxs), Waits(c, Rotated(front, k), worse))
    ensures |ctxs| == |front| + |front| ==> Plays(Idles(m, ctxs), Runs(c, front, worse))
  {
    hide Plays, Idles, Turns, Rotated, AllOf, AllWorse, Runs, Waits;
    BestAlternates(c, front, worse, v, k);
    BestAlternates(c, front, worse, v, |front|);
    FullCircle(front);
    TurnsPlay(m, Runs(c, front, worse), ctxs);
  }

  // Where n turns lead when c has the priority of the first who are ready.
  function AfterEqual(c: Process, front: seq<Process>, worse: seq<Process>, n: nat): Deck {
    var line := Rotated([c] + front, n);
    Deck(line[0], line[1..] + worse)
  }

  lemma TurnEqual(line: seq<Process>, worse: seq<Process>)
    requires |line| > 1 && AllOf(line, line[0].priority) && AllWorse(worse, line[0].priority)
    ensures Turn(Deck(line[0], line[1..] + worse)) == Deck(line[1], line[2..] + [line[0]] + worse)
  {
    assert line[1..] + worse == [line[1]] + line[2..] + worse;
    TurnBack(line[0], line[1], line[2..], worse);
  }

  lemma {:induction false} EqualsRotate(c: Process, front: seq<Process>, worse: seq<Process>, n: nat)
    requires front != [] && AllOf(front, c.priority) && AllWorse(worse, c.priority)
    ensures Turns(Runs(c, front, worse), n) == AfterEqual(c, front, worse, n)
  {
    var all := [c] + front;
    if n == 0 {
      assert all[1..] == front;
    } else {
      var line := Rotated(all, n - 1);
      EqualsRotate(c, front, worse, n - 1);
      RotatedAllOf(all, n - 1, c.priority);
      assert line[0].priority == c.priority;
      TurnEqual(line, worse);
      hide AllOf, AllWorse, Turn;
      assert Rotated(all, n) == line[1..] + [line[0]];
      assert (line[1..] + [line[0]])[1..] == line[2..] + [line[0]];
    }
  }

  // Processes of one priority, none of the ready ones being better, take
  // turns: the period is their number, and nobody worse ever runs.
  lemma EqualRotation(m: Machine, c: Process, front: seq<Process>, worse: seq<Process>, ctxs: seq<Context>)
    requires front != [] && Plays(m, Runs(c, front, worse))
    requires AllOf(front, c.priority) && AllWorse(worse, c.priority)
    ensures Plays(Idles(m, ctxs), AfterEqual(c, front, worse, |ctxs|))
    ensures |ctxs| == 1 + |front| ==> Plays(Idles(m, ctxs), Runs(c, front, worse))
  {
    EqualsRotate(c, front, worse, |ctxs|);
    FullCircle([c] + front);
    assert ([c] + front)[1..] == front;
    hide Plays, Idles, Turns, Rotated, AllOf, AllWorse;
    TurnsPlay(m, Runs(c, front, worse), ctxs);
  }

  // ------------------------------------------------------- from any start

  // How many processes at the front of the queue share the first priority.
  function FrontLength(q: seq<Process>, v: int): (k: nat)
    ensures k <= |q| && (forall i :: 0 <= i < k ==> q[i].priority == v) && (k < |q| ==> q[k].priority != v)
  {
    if q == [] || q[0].priority != v then 0 else 1 + FrontLength(q[1..], v)
  }

  function Front(q: seq<Process>): (f: seq<Process>)
    requires q != []
    ensures f != [] && f <= q
  {
    q[..FrontLength(q, q[0].priority)]
  }

  lemma SplitQueue(q: seq<Process>) returns (worse: seq<Process>)
    requires q != [] && Sorted(q)
    ensures q == Front(q) + worse && AllOf(Front(q), q[0].priority) && AllWorse(worse, q[0].priority)
  {
    var k := FrontLength(q, q[0].priority);
    worse := q[k..];
    if k < |q| {
      assert q[0].priority <= q[k].priority;
      forall i | 0 <= i < |worse| ensures q[0].priority < worse[i].priority {
        assert i > 0 ==> q[k].priority <= q[k+i].priority;
      }
    }
  }

  // Those who share the processor for good when c runs and q is ready.
  function Elite(c: Process, q: seq<Process>): seq<Process>
    requires q != []
  {
    if c.priority <= q[0].priority then [c] + Front(q)
    else [q[0]] + Front(Turn(Deck(c, q)).rest)
  }

  ghost predicate AlikeOneOf(p: Process, s: seq<Process>) {
    exists q :: q in s && Alike(p, q)
  }

  lemma {:induction false} RotatedMembers<T>(s: seq<T>, n: nat)
    requires s != []
    ensures forall x :: x in Rotated(s, n) ==> x in s
  {
    if n > 0 {
      RotatedMembers(s, n - 1);
      var r := Rotated(s, n - 1);
      assert forall x :: x in r[1..] + [r[0]] ==> x in r;
    }
  }

  lemma FiledPlays(m: Machine)
    requires Filed(m.queues) && m.current.Some? && RunsReady(m.current)
    ensures Plays(m, Deck(m.current.value, m.queues[READY_QUEUE]))
  {
    var q := m.queues[READY_QUEUE];
    forall i | 0 <= i < |q| ensures RunsReady(Some(q[i])) {
      TagNamesStates(q[i], q[i]);
    }
    hide Sorted;
  }

  // From a state where the running process is as good as the ready ones.
  lemma PatternRuns(m: Machine, c: Process, front: seq<Process>, worse: seq<Process>, v: int, ctxs: seq<Context>)
    requires front != [] && AllOf(front, v) && AllWorse(worse, v) && c.priority <= v
    requires Plays(m, Runs(c, front, worse))
    ensures var u := Idles(m, ctxs); u.current.Some? && AlikeOneOf(u.current.value, [c] + front)
  {
    var n := |ctxs|;
    if c.priority < v {
      var k := n / 2;
      RotatedMembers(front, k);
      BestRotation(m, c, front, worse, v, ctxs, k);
      assert n == k + k || n == k + k + 1;
      hide Idles, AllOf, AllWorse, Rotated;
      var f := Rotated(front, k);
      assert f[0] in f && f[0] in [c] + front && c in [c] + front;
    } else {
      RotatedMembers([c] + front, n);
      EqualRotation(m, c, front, worse, ctxs);
      hide Idles, AllOf, AllWorse, Rotated;
      var line := Rotated([c] + front, n);
      assert line[0] in line;
    }
  }

  // Wherever the machine starts, from the next IDLE call on only two classes
  // ever run: one process, and those of the best priority it finds ready.
  // Everybody else waits until one of these does something other than IDLE.
  lemma OnlyTheBestRun(m: Machine, ctx: Context, ctxs: seq<Context>)
    requires Filed(m.queues) && m.current.Some? && RunsReady(m.current) && m.queues[READY_QUEUE] != []
    ensures var u := Idles(IdleOnce(m, ctx), ctxs);
      u.current.Some? && AlikeOneOf(u.current.value, Elite(m.current.value, m.queues[READY_QUEUE]))
  {
    var c, q := m.current.value, m.queues[READY_QUEUE];
    FiledPlays(m);
    assert Sorted(q);
    if c.priority <= q[0].priority {
      var worse := SplitQueue(q);
      IdlesFirst(m, ctx, ctxs);
      hide Plays, Filed, IdleOnce, Idles, Sorted, Front;
      PatternRuns(m, c, Front(q), worse, q[0].priority, [ctx] + ctxs);
    } else {
      TurnPlays(m, Deck(c, q), ctx);
      TurnSorted(c, q);
      var r := Turn(Deck(c, q)).rest;
      var worse := SplitQueue(r);
      hide Plays, Filed, IdleOnce, Idles, Sorted, Front, Turn;
      PatternRuns(IdleOnce(m, ctx), q[0], Front(r), worse, r[0].priority, ctxs);
    }
  }

  lemma TurnSorted(c: Process, q: seq<Process>)
    requires q != [] && Sorted(q) && q[0].priority <= c.priority
    ensures var d := Turn(Deck(c, q)); d.top == q[0] && Sorted(d.rest) && q[0].priority <= d.rest[0].priority
  {
    InsertSorted(q[1..], c);
    InsertAt(q[1..], Position(q[1..], c.priority), c, Turn(Deck(c, q)).rest);
    assert |q| > 1 ==> q[0].priority <= q[1].priority;
    hide Sorted, Insert, Position;
  }

  lemma {:induction false} IdlesFirst(m: Machine, ctx: Context, ctxs: seq<Context>)
    requires |m.queues| == 4
    ensures Idles(m, [ctx] + ctxs) == Idles(IdleOnce(m, ctx), ctxs)
    decreases |ctxs|
  {
    var all := [ctx] + ctxs;
    var n := |ctxs|;
    if n == 0 {
      assert all[..0] == [] && all[0] == ctx;
      assert Idles(m, all) == IdleOnce(Idles(m, all[..0]), all[0]);
    } else {
      assert all[..n] == [ctx] + ctxs[..n-1];
      IdlesFirst(m, ctx, ctxs[..n-1]);
    }
    hide IdleOnce;
  }

  // --------------------------------------------------------- the idle process

  // Nobody ready is better than entry k, and nobody as good stands before it.
  ghost predicate ComesFirst(q: seq<Process>, k: nat)
    requires k < |q|
  {
    && (forall j :: 0 <= j < |q| ==> q[k].priority <= q[j].priority)
    && (forall j :: 0 <= j < k ==> q[j].priority != q[k].priority)
  }

  lemma ComesFirstIsHead(q: seq<Process>, k: nat)
    requires k < |q| && Sorted(q)
    ensures ComesFirst(q, k) <==> k == 0
  {
    if k > 0 {
      assert q[0].priority <= q[k].priority;
    }
  }

  // The idle process should be dispatched when, and only when, no other process
  // is available.  Let idle be ready, at place k.  A call of IDLE dispatches it
  // just if nobody ready is better and nobody ready has waited longer at its
  // priority; but somebody is ready afterwards whenever a process made the
  // call, namely that process.  So the promise is kept just by calls that
  // dispatch another process, and by kmain's with idle alone.
  lemma IdlePromise(m: Machine, ctx: Context, k: nat)
    requires Filed(m.queues) && RunsReady(m.current) && k < |m.queues[READY_QUEUE]|
    requires forall j :: 0 <= j < |m.queues[READY_QUEUE]| && j != k ==> m.queues[READY_QUEUE][j].pid != m.queues[READY_QUEUE][k].pid
    ensures var (q, m') := (m.queues[READY_QUEUE], IdleOnce(m, ctx));
      && m'.current.Some?
      && (m'.current.value.pid == q[k].pid <==> ComesFirst(q, k))
      && (m'.queues[READY_QUEUE] == [] <==> m.current.None? && |q| == 1)
      && ((m'.current.value.pid == q[k].pid ==> m'.queues[READY_QUEUE] == []) <==>
            !ComesFirst(q, k) || (m.current.None? && |q| == 1))
  {
    var q := m.queues[READY_QUEUE];
    ComesFirstIsHead(q, k);
    ReadyAfterIdle(m, ctx);
    hide Filed, Sorted, ComesFirst, IdleOnce;
  }

  lemma ReadyAfterIdle(m: Machine, ctx: Context)
    requires |m.queues| == 4 && RunsReady(m.current) && m.queues[READY_QUEUE] != []
    ensures var (q, m') := (m.queues[READY_QUEUE], IdleOnce(m, ctx));
      m'.current == Some(q[0]) && |m'.queues[READY_QUEUE]| == |q| - 1 + if m.current.Some? then 1 else 0
  {
    var q, n := m.queues[READY_QUEUE], m.(initial := Remembered(m, ctx.(eax := IDLE)));
    if m.current.Some? {
      YieldQueue(n, ctx.(eax := IDLE));
    }
    assert |Remove(q, 0)| == |q| - 1;
    hide Remove, PutIn;
  }

  // When a process exits, idle is dispatched under the same condition, and
  // nobody is ready afterwards just if idle was the only ready process.  So the
  // promise is kept just if somebody ready is better, or as good and before
  // idle, or idle is alone: always, if all others are better than idle.
  lemma ExitPromise(m: Machine, ctx: Context, k: nat)
    requires Filed(m.queues) && m.current.Some? && k < |m.queues[READY_QUEUE]| && ctx.eax == EXIT
    requires forall j :: 0 <= j < |m.queues[READY_QUEUE]| && j != k ==> m.queues[READY_QUEUE][j].pid != m.queues[READY_QUEUE][k].pid
    ensures var (q, m') := (m.queues[READY_QUEUE], SysCall(m, ctx).0);
      && m'.current.Some?
      && (m'.current.value.pid == q[k].pid <==> ComesFirst(q, k))
      && (m'.queues[READY_QUEUE] == [] <==> |q| == 1)
      && ((m'.current.value.pid == q[k].pid ==> m'.queues[READY_QUEUE] == []) <==> !ComesFirst(q, k) || |q| == 1)
    ensures var q := m.queues[READY_QUEUE];
      (forall j :: 0 <= j < |q| && j != k ==> q[j].priority < q[k].priority) ==> !ComesFirst(q, k) || |q| == 1
  {
    var q := m.queues[READY_QUEUE];
    ComesFirstIsHead(q, k);
    assert |Remove(q, 0)| == |q| - 1;
    if |q| > 1 {
      assert q[0].priority <= q[1].priority;
    }
    hide Filed, Sorted, Remove;
  }

  // With nobody ready but idle, comhand calls IDLE: idle is dispatched, and
  // comhand, which is better, is ready.
  lemma CallerPassedOver(m: Machine, c: Process, i: Process, ctx: Context)
    requires m.queues == [[], [i], [], []] && m.current == Some(c) && RunsReady(m.current) && RunsReady(Some(i))
    requires c.priority == 0 && i.priority == 9
    ensures Filed(m.queues)
    ensures var m' := IdleOnce(m, ctx);
      m'.current == Some(i) && m'.queues[READY_QUEUE] == [c.(context := ctx.(eax := IDLE))]
  {
    AloneFiled(i);
    var n, x := m.(initial := Remembered(m, ctx.(eax := IDLE))), ctx.(eax := IDLE);
    YieldQueue(n, x);
    assert IdleOnce(m, ctx) == Yield(n, x);
    IntoEmpty(c.(context := x), m.queues[READY_QUEUE][1..]);
    hide Yield, Filed, Insert, Position, IdleOnce;
  }

  lemma IntoEmpty(p: Process, q: seq<Process>)
    requires q == []
    ensures Insert(q, Position(q, p.priority), p) == [p]
  {
  }

  lemma AloneFiled(i: Process)
    requires RunsReady(Some(i))
    ensures Filed([[], [i], [], []])
  {
  }

  // With a user process of priority 9 behind it, idle is dispatched whoever
  // calls IDLE.
  lemma IdlePromiseFails(i: Process, u: Process)
    requires RunsReady(Some(i)) && RunsReady(Some(u)) && i.priority == 9 && PriorityAllowed(User, u.priority) && u.priority == 9
    ensures var qs := [[], [i, u], [], []];
      Filed(qs) && forall ctx: Context, p: Process ::
        RunsReady(Some(p)) ==> IdleOnce(Machine(qs, Some(p), None), ctx).current == Some(i)
  {
    hide Insert, Position;
  }
}
