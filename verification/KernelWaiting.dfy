/** How long a ready task waits for the processor, counted in runs of the signal handler. */
module KernelWaiting {
  import opened TimerWheel
  import opened TimerRefinement
  import opened Kernel
  import opened KernelPlaces
  import opened KernelSleep
  import opened KernelLocks
  import opened KernelRuns
  import opened KernelSafety

  /** The handler runs that the tasks before x on the ready list may still use. */
  function Ahead(tasks: map<TaskId, Task>, ready: seq<TaskId>, x: TaskId): (n: nat)
    requires forall t | t in ready :: t in tasks
  {
    if ready == [] || ready[0] == x then 0 else tasks[ready[0]].ticks + 1 + Ahead(tasks, ready[1..], x)
  }

  /** The handler runs until x becomes current, if nobody is put in front of it. */
  function Wait(k: Kernel, x: TaskId): nat
    requires Shape(k)
  {
    Me(k).ticks + 1 + Ahead(k.tasks, k.ready, x)
  }

  /** What a step may add: tasks woken by task_unblock go to the front of the ready list. */
  ghost function Pushed(k: Kernel, a: Action): nat
    requires Shape(k)
  {
    match a
    case Unblock(t) => if t in k.tasks then k.tasks[t].priority + 1 else 0
    case Continue =>
      if Me(k).pc.Up? && Me(k).pc.l < |k.locks| && k.locks[Me(k).pc.l].waiters != [] then
        k.tasks[k.locks[Me(k).pc.l].waiters[0]].priority + 1
      else 0
    case _ => 0
  }

  predicate SameTicks(a: map<TaskId, Task>, b: map<TaskId, Task>, s: seq<TaskId>) {
    forall t | t in s :: t in a && t in b && a[t].ticks == b[t].ticks
  }

  /** Only the list up to x counts. */
  lemma {:induction false} AheadCong(a: map<TaskId, Task>, b: map<TaskId, Task>, s: seq<TaskId>, more: seq<TaskId>, x: TaskId)
    requires SameTicks(a, b, s) && x in s && forall t | t in more :: t in b
    ensures Ahead(a, s, x) == Ahead(b, s + more, x)
  {
    assert (s + more)[0] == s[0];
    if s[0] != x {
      assert (s + more)[1..] == s[1..] + more;
      assert forall t | t in s[1..] :: t in s;
      AheadCong(a, b, s[1..], more, x);
    }
  }

  /** A dispatch gives the processor to the head of the list. */
  lemma DispatchWait(k: Kernel, x: TaskId)
    requires NoDup(k.ready) && x in k.ready && (forall t | t in k.ready :: t in k.tasks) && Shape(Dispatch(k))
    ensures var k' := Dispatch(k);
            if k.ready[0] == x then k'.current == x
            else x in k'.ready && Wait(k', x) == Ahead(k.tasks, k.ready, x)
  {
    var k' := Dispatch(k);
    if k.ready[0] != x {
      assert x in k.ready[1..];
      assert SameTicks(k.tasks, k'.tasks, k.ready[1..]) by {
        forall t | t in k.ready[1..] ensures t in k.ready && t != k.ready[0] { }
      }
      AheadCong(k.tasks, k'.tasks, k.ready[1..], [], x);
      assert k.ready[1..] + [] == k.ready[1..];
    }
  }

  /** A step that is not a dispatch: the list grows at the end at most, and nobody's time slice changes. */
  lemma StayWait(k: Kernel, k': Kernel, more: seq<TaskId>, x: TaskId)
    requires Shape(k) && Shape(k') && x in k.ready
    requires k'.current == k.current && k'.ready == k.ready + more
    requires SameTicks(k.tasks, k'.tasks, k.ready)
    ensures x in k'.ready && Wait(k', x) == Me(k').ticks + 1 + Ahead(k.tasks, k.ready, x)
  {
    AheadCong(k.tasks, k'.tasks, k.ready, more, x);
  }

  /** A step that dispatches: the list loses its head. */
  lemma LeaveWait(k: Kernel, k1: Kernel, more: seq<TaskId>, x: TaskId)
    requires Shape(k) && x in k.ready && k1.ready == k.ready + more && NoDup(k1.ready)
    requires (forall t | t in k1.ready :: t in k1.tasks) && Shape(Dispatch(k1))
    requires SameTicks(k.tasks, k1.tasks, k.ready)
    ensures var k' := Dispatch(k1);
            k'.current == x || (x in k'.ready && Wait(k', x) == Ahead(k.tasks, k.ready, x))
  {
    AheadCong(k.tasks, k1.tasks, k.ready, more, x);
    DispatchWait(k1, x);
  }

  /** A task put in front of x. */
  lemma PushWait(k: Kernel, k': Kernel, t: TaskId, x: TaskId)
    requires Shape(k) && Shape(k') && x in k.ready && t in k.tasks && t != x
    requires k'.current == k.current && k'.ready == [t] + k.ready && Me(k').ticks == Me(k).ticks
    requires SameTicks(k.tasks, k'.tasks, k'.ready) && k.tasks[t].ticks <= k.tasks[t].priority
    ensures x in k'.ready && Wait(k', x) <= Wait(k, x) + k.tasks[t].priority + 1
  {
    assert k'.ready[1..] == k.ready;
    assert forall u | u in k.ready :: u in k'.ready;
    AheadCong(k.tasks, k'.tasks, k.ready, [], x);
    assert k.ready + [] == k.ready;
  }

  /** x runs, or is still ready with this much waiting left at most. */
  ghost predicate Closer(k': Kernel, x: TaskId, bound: int)
    requires Shape(k')
  {
    k'.current == x || (x in k'.ready && Wait(k', x) <= bound)
  }

  lemma {:induction false} WakeAllOthers(k: Kernel, ts: seq<TaskId>)
    requires forall t | t in ts :: t in k.tasks
    ensures forall t | t in k.tasks && t !in ts :: WakeUpAll(k, ts).tasks[t] == k.tasks[t]
  {
    if ts != [] {
      assert ts == ts[..|ts| - 1] + [ts[|ts| - 1]];
      WakeAllOthers(k, ts[..|ts| - 1]);
    }
  }

  lemma TimersTicks(g: nat, k: Kernel, now: nat)
    requires g >= 1 && KernelInv(g, k) && CanStep(g, k, Handler(now)) && CanHandle(g, k, now)
    ensures SameTicks(k.tasks, AfterTimers(g, k, now).tasks, k.ready)
  {
    hide LocksOk, WheelInv, Fits, SleepersOk, WaitersOk, AllCoherent;
    WokenAsleep(g, k, now);
    var ts := Woken(RunLog(g, k.wheel, now));
    WakeAllOthers(k.(wheel := Run(g, k.wheel, now)), ts);
    forall t | t in k.ready ensures t in k.tasks && t !in ts { }
  }

  lemma HandlerWait(g: nat, k: Kernel, now: nat, x: TaskId)
    requires g >= 1 && KernelInv(g, k) && CanStep(g, k, Handler(now)) && x in k.ready
    requires CanHandle(g, k, now) && KernelInv(g, TimerHandler(g, k, now))
    ensures Closer(TimerHandler(g, k, now), x, Wait(k, x) - 1)
  {
    hide LocksOk, WheelInv, Fits, SleepersOk, WaitersOk, AllCoherent, Run, RunLog, Woken;
    var k1 := AfterTimers(g, k, now);
    var ts := Woken(RunLog(g, k.wheel, now));
    TimersKeep(g, k, now);
    TimersTicks(g, k, now);
    hide KernelInv;
    assert NoDup(k1.ready);
    if Me(k1).collaborative {
      LeaveWait(k, AddTimer(g, k1, Me(k1).sleepMs, 0, Wake(k1.current)), ts, x);
    } else if Me(k1).ticks == 0 {
      RequeuedReady(k1);
      assert Requeued(k1).ready == k.ready + (ts + [k1.current]);
      RequeuedTicks(k, k1);
      LeaveWait(k, Requeued(k1), ts + [k1.current], x);
    } else {
      StayWait(k, AfterTick(g, k1), ts, x);
    }
  }

  lemma RequeuedTicks(k: Kernel, k1: Kernel)
    requires SameTicks(k.tasks, k1.tasks, k.ready) && k1.current in k1.tasks && k1.current !in k.ready
    ensures SameTicks(k.tasks, Requeued(k1).tasks, k.ready)
  {
  }

  lemma StatementWait(g: nat, k: Kernel, x: TaskId)
    requires g >= 1 && KernelInv(g, k) && CanContinue(k) && KernelInv(g, Statement(k)) && x in k.ready
    ensures Closer(Statement(k), x, Wait(k, x) + Pushed(k, Continue))
  {
    hide KernelInv, SemaDown, SemaUp, LockStatement, Wait, Closer, Pushed;
    ReadyFacts(g, k);
    ReadyFacts(g, Statement(k));
    PushedFacts(k);
    var pc := Me(k).pc;
    if pc.Up? && k.locks[pc.l].waiters != [] {
      UpWait(g, k, pc.l, x);
    } else if LockOf(pc).Some? && (pc.Down? || pc.Retry?) && k.locks[pc.l].value == 0 {
      DownWait(k, pc.l, x);
    } else {
      RestWait(k, x);
    }
  }

  lemma ReadyFacts(g: nat, k: Kernel)
    requires g >= 1 && KernelInv(g, k)
    ensures Shape(k) && NoDup(k.ready) && k.current !in k.ready
  {
    hide WaitersOk, AllCoherent, LocksOk, SleepersOk, WheelInv;
  }

  lemma PushedFacts(k: Kernel)
    requires Shape(k) && CanContinue(k)
    ensures !(Me(k).pc.Up? && k.locks[Me(k).pc.l].waiters != []) ==> Pushed(k, Continue) == 0
  {
  }

  lemma UpWait(g: nat, k: Kernel, l: nat, x: TaskId)
    requires g >= 1 && KernelInv(g, k) && CanContinue(k) && Shape(Statement(k)) && x in k.ready
    requires Me(k).pc == Up(l) && l < |k.locks| && k.locks[l].waiters != []
    ensures Closer(Statement(k), x, Wait(k, x) + Pushed(k, Continue))
  {
    hide LocksOk, WheelInv, SleepersOk;
    var t := k.locks[l].waiters[0];
    WaiterElsewhere(k, l);
    assert Coherent(k, t);
    hide ReadyOk, WaitersOk, AllCoherent;
    PushWait(k, Statement(k), t, x);
  }

  lemma RestWait(k: Kernel, x: TaskId)
    requires Shape(k) && CanContinue(k) && Shape(Statement(k)) && x in k.ready
    requires LockOf(Me(k).pc).Some? && (Me(k).pc.Down? || Me(k).pc.Retry?) ==> k.locks[Me(k).pc.l].value != 0
    requires Me(k).pc.Up? ==> k.locks[Me(k).pc.l].waiters == []
    ensures Closer(Statement(k), x, Wait(k, x))
  {
    StatementStays(k);
    hide Statement;
    assert Statement(k).ready == k.ready + [];
    StayWait(k, Statement(k), [], x);
  }

  lemma DownWait(k: Kernel, l: nat, x: TaskId)
    requires Shape(k) && NoDup(k.ready) && x in k.ready && k.current !in k.ready && l < |k.locks| && k.locks[l].value == 0
    requires Shape(SemaDown(k, l))
    ensures Closer(SemaDown(k, l), x, Wait(k, x))
  {
    var k1 := SetMe(SetLock(k, l, k.locks[l].(waiters := k.locks[l].waiters + [k.current])), Me(k).(status := BLOCKED, pc := Retry(l)));
    assert SemaDown(k, l) == Dispatch(k1) && k1.ready == k.ready + [];
    LeaveWait(k, k1, [], x);
  }

  lemma StatementStays(k: Kernel)
    requires Shape(k) && CanContinue(k)
    requires LockOf(Me(k).pc).Some? && (Me(k).pc.Down? || Me(k).pc.Retry?) ==> k.locks[Me(k).pc.l].value != 0
    requires Me(k).pc.Up? ==> k.locks[Me(k).pc.l].waiters == []
    ensures var k' := Statement(k); k'.current == k.current && k'.ready == k.ready && k'.current in k'.tasks && Me(k').ticks == Me(k).ticks
    ensures SameTicks(k.tasks, Statement(k).tasks, k.ready)
  {
  }

  /** One step: the wait of a ready task shrinks with every handler run and grows only by tasks put in front. */
  lemma StepWait(g: nat, k: Kernel, a: Action, x: TaskId)
    requires g >= 1 && KernelInv(g, k) && CanStep(g, k, a) && x in k.ready && Defined(g, k, a)
    requires KernelInv(g, Apply(g, k, a))
    ensures Closer(Apply(g, k, a), x, Wait(k, x) + Pushed(k, a) - One(a.Handler?))
  {
    hide KernelInv, Fits, Ahead, Statement, TimerHandler, CanHandle, TaskExit, TaskBlock, Create, Delete;
    ReadyFacts(g, k);
    ReadyFacts(g, Apply(g, k, a));
    assert k.ready + [] == k.ready;
    match a
    case Handler(now) => HandlerWait(g, k, now, x);
    case Continue => StatementWait(g, k, x);
    case Start(id, p) => StartWait(g, k, id, p, x);
    case Exit => ExitWait(g, k, x);
    case BlockSelf(s) => ParkWait(k, s, x);
    case Unblock(t) => UnblockWait(g, k, t, x);
    case _ => StayWait(k, Apply(g, k, a), [], x);
  }

  lemma ParkWait(k: Kernel, s: Status, x: TaskId)
    requires Shape(k) && NoDup(k.ready) && x in k.ready && k.current !in k.ready && Shape(TaskBlock(k, s, Parked))
    ensures Closer(TaskBlock(k, s, Parked), x, Wait(k, x))
  {
    assert k.ready + [] == k.ready;
    LeaveWait(k, SetMe(k, Me(k).(status := s, pc := Parked)), [], x);
  }

  lemma UnblockWait(g: nat, k: Kernel, t: TaskId, x: TaskId)
    requires g >= 1 && KernelInv(g, k) && CanStep(g, k, Unblock(t)) && Shape(TaskUnblock(k, t)) && x in k.ready
    ensures Closer(TaskUnblock(k, t), x, Wait(k, x) + k.tasks[t].priority + 1)
  {
    hide WaitersOk, LocksOk, SleepersOk, WheelInv;
    assert Coherent(k, t);
    hide AllCoherent;
    PushWait(k, TaskUnblock(k, t), t, x);
  }

  lemma StartWait(g: nat, k: Kernel, id: TaskId, p: int, x: TaskId)
    requires g >= 1 && KernelInv(g, k) && CanStep(g, k, Start(id, p)) && x in k.ready
    requires KernelInv(g, TaskStart(k, id, p))
    ensures Closer(TaskStart(k, id, p), x, Wait(k, x))
  {
    hide LocksOk, WheelInv, SleepersOk, WaitersOk, AllCoherent, ReadyOk;
    StayWait(k, TaskStart(k, id, p), [id], x);
  }

  lemma ExitWait(g: nat, k: Kernel, x: TaskId)
    requires g >= 1 && KernelInv(g, k) && CanStep(g, k, Exit) && x in k.ready && Defined(g, k, Exit)
    requires KernelInv(g, TaskExit(k, k.current))
    ensures Closer(TaskExit(k, k.current), x, Wait(k, x))
  {
    hide LocksOk, WheelInv, SleepersOk, WaitersOk, AllCoherent, Removed;
    assert k.current !in k.ready && NoDup(k.ready);
    ExitIsDispatch(k);
    hide TaskExit;
    assert k.ready + [] == k.ready;
    LeaveWait(k, k.(tasks := k.tasks - {k.current}), [], x);
  }

  // ---- Runs ----

  /** The handler runs among steps i to j of a run. */
  function Handlers(acts: seq<Action>, i: nat, j: nat): nat
    requires i <= j <= |acts|
  {
    if i == j then 0 else Handlers(acts, i, j - 1) + One(acts[j - 1].Handler?)
  }

  ghost predicate Shapes(ks: seq<Kernel>) { forall i | 0 <= i < |ks| :: Shape(ks[i]) }

  /** The front insertions among those steps. */
  ghost function AllPushed(ks: seq<Kernel>, acts: seq<Action>, i: nat, j: nat): nat
    requires i <= j <= |acts| <= |ks| && Shapes(ks)
  {
    if i == j then 0 else AllPushed(ks, acts, i, j - 1) + Pushed(ks[j - 1], acts[j - 1])
  }

  lemma RunShapes(g: nat, ks: seq<Kernel>, acts: seq<Action>)
    requires g >= 1 && IsRun(g, ks, acts)
    ensures Shapes(ks) && |ks| == |acts| + 1
  {
    RunKeepsInv(g, ks, acts);
    forall i | 0 <= i < |ks| ensures Shape(ks[i]) {
      assert KernelInv(g, ks[i]);
      ShapeOf(ks[i]);
    }
  }

  lemma RunStepWait(g: nat, ks: seq<Kernel>, acts: seq<Action>, i: nat, x: TaskId)
    requires g >= 1 && IsRun(g, ks, acts) && i < |acts| && Shapes(ks) && x in ks[i].ready
    ensures Closer(ks[i + 1], x, Wait(ks[i], x) + Pushed(ks[i], acts[i]) - One(acts[i].Handler?))
  {
    RunKeepsInv(g, ks, acts);
    assert KernelInv(g, ks[i]) && KernelInv(g, ks[i + 1]);
    hide KernelInv, Shape, CanStep, Defined, Initial, Asserts;
    assert ks[i + 1] == Apply(g, ks[i], acts[i]);
    hide Apply;
    StepWait(g, ks[i], acts[i], x);
  }

  /** Bounded waiting: while a ready task has not run, the handler has run fewer times than the time slices
      of the current task and of the tasks ahead allow, one extra run each, plus the time slices of the
      tasks that task_unblock put in front meanwhile. */
  lemma {:induction false} BoundedWaiting(g: nat, ks: seq<Kernel>, acts: seq<Action>, i: nat, j: nat, x: TaskId)
    requires g >= 1 && IsRun(g, ks, acts) && i <= j < |ks|
    requires x in ks[i].ready && forall m | i < m <= j :: ks[m].current != x
    ensures Shapes(ks) && x in ks[j].ready
    ensures Handlers(acts, i, j) + Wait(ks[j], x) <= Wait(ks[i], x) + AllPushed(ks, acts, i, j)
  {
    hide Shape, IsRun, Wait, Pushed, Ahead, Initial, CanStep, Defined, Apply;
    RunShapes(g, ks, acts);
    if i < j {
      BoundedWaiting(g, ks, acts, i, j - 1, x);
      RunStepWait(g, ks, acts, j - 1, x);
    }
  }
}
