/** What a single step does to the task that takes it, to the other tasks, and to the ready list. */
module KernelSteps {
  import opened TimerWheel
  import opened TimerRefinement
  import opened Kernel
  import opened KernelPlaces
  import opened KernelSleep
  import opened KernelLocks
  import opened KernelRuns
  import opened KernelWakeUps

  /** A round of sema_down that finds no token. */
  predicate Blocks(k: Kernel)
    requires k.current in k.tasks
  {
    var pc := Me(k).pc;
    (pc.Down? || pc.Retry?) && pc.l < |k.locks| && k.locks[pc.l].value == 0
  }

  /** The current task gives up the processor of its own accord, or is about to. */
  predicate GivesUp(k: Kernel, a: Action)
    requires k.current in k.tasks
  {
    a.Exit? || a.BlockSelf? || a.Sleep? || (a.Continue? && Blocks(k))
  }

  // ---- Tasks ----

  /** The same task, unless it has become ready or got the processor. */
  predicate SameButStatus(a: Task, b: Task) { b == a.(status := b.status) && b.status in {a.status, READY, RUNNING} }

  /** A statement changes program counter and depth, and the status if the task has to wait. */
  predicate SameButControl(a: Task, b: Task, blocks: bool) {
    b == a.(status := if blocks then BLOCKED else a.status, pc := b.pc, depth := b.depth)
  }

  /** A task as collaborative_schedule_helper leaves it. */
  function Refilled(t: Task): Task { t.(status := READY, ticks := t.priority, collaborative := false, sleepMs := 0) }

  ghost function WokenAt(g: nat, k: Kernel, a: Action): seq<TaskId>
    requires g >= 1 && |k.wheel.cells| == SLOTS
  {
    if a.Handler? then Woken(RunLog(g, k.wheel, a.now)) else []
  }

  /** A task that is not current: only a wake-up touches more than its status. */
  lemma StepOthers(g: nat, k: Kernel, a: Action, t: TaskId)
    requires g >= 1 && KernelInv(g, k) && CanStep(g, k, a) && Defined(g, k, a) && t in k.tasks && t != k.current
    ensures Shape(k) && t in Apply(g, k, a).tasks
    ensures SameButStatus(if t in WokenAt(g, k, a) then Refilled(k.tasks[t]) else k.tasks[t], Apply(g, k, a).tasks[t])
  {
    hide KernelInv, Create, Delete, Removed, Statement, TimerHandler, CanHandle;
    PlacesOf(g, k);
    match a
    case Handler(now) => HandlerOthers(g, k, now, t);
    case Continue => StatementOthers(k, t);
    case _ =>
  }

  lemma StatementOthers(k: Kernel, t: TaskId)
    requires Places(k) && CanContinue(k) && t in k.tasks && t != k.current
    ensures t in Statement(k).tasks && SameButStatus(k.tasks[t], Statement(k).tasks[t])
  {
    hide ReadyOk, WaitersOk, AllCoherent, LockStatement;
  }

  lemma {:induction false} WakeAllTasks(k: Kernel, ts: seq<TaskId>)
    requires forall t | t in ts :: t in k.tasks
    ensures forall t | t in k.tasks ::
              SameButStatus(if t in ts then Refilled(k.tasks[t]) else k.tasks[t], WakeUpAll(k, ts).tasks[t])
  {
    if ts != [] {
      var n := |ts| - 1;
      assert ts == ts[..n] + [ts[n]];
      WakeAllTasks(k, ts[..n]);
    }
  }

  lemma TickOthers(g: nat, k: Kernel, t: TaskId)
    requires g >= 1 && Shape(k) && (Me(k).collaborative ==> k.ready != []) && t in k.tasks && t != k.current
    ensures t in AfterTick(g, k).tasks && SameButStatus(k.tasks[t], AfterTick(g, k).tasks[t])
  {
    hide Create;
  }

  lemma HandlerOthers(g: nat, k: Kernel, now: nat, t: TaskId)
    requires g >= 1 && KernelInv(g, k) && CanStep(g, k, Handler(now)) && CanHandle(g, k, now) && t in k.tasks && t != k.current
    ensures Shape(k) && t in TimerHandler(g, k, now).tasks
    ensures var ts := Woken(RunLog(g, k.wheel, now));
            SameButStatus(if t in ts then Refilled(k.tasks[t]) else k.tasks[t], TimerHandler(g, k, now).tasks[t])
  {
    hide Places, SleepersOk, LocksOk, WheelInv, Fits, Run, RunLog, Woken, AfterTick;
    ShapeOf(k);
    TimersKeep(g, k, now);
    WakeAllTasks(k.(wheel := Run(g, k.wheel, now)), Woken(RunLog(g, k.wheel, now)));
    TickOthers(g, AfterTimers(g, k, now), t);
  }

  /** What a handler run leaves of the time slice of the task it finds. */
  function Ticked(me: Task): Task {
    if me.collaborative then me else if me.ticks == 0 then me.(ticks := me.priority) else me.(ticks := me.ticks - 1)
  }

  /** The task that takes the step. */
  ghost predicate MineAfter(k: Kernel, a: Action, me': Task)
    requires k.current in k.tasks
  {
    match a
    case CallAcquire(l) => me' == Me(k).(pc := AcquireTest(l))
    case CallRelease(l) => me' == Me(k).(pc := ReleaseTest(l))
    case Continue => SameButControl(Me(k), me', Blocks(k))
    case Handler(_) => SameButStatus(Ticked(Me(k)), me')
    case BlockSelf(s) => me' == Me(k).(status := s, pc := Parked)
    case Sleep(ms) => me' == Me(k).(collaborative := true, sleepMs := ms, pc := Spin)
    case _ => me' == Me(k)
  }

  lemma StepMine(g: nat, k: Kernel, a: Action)
    requires g >= 1 && KernelInv(g, k) && CanStep(g, k, a) && Defined(g, k, a)
    ensures Shape(k) && (a.Exit? <==> k.current !in Apply(g, k, a).tasks)
    ensures !a.Exit? ==> MineAfter(k, a, Apply(g, k, a).tasks[k.current])
  {
    hide KernelInv, Create, Delete, Removed, Statement, TimerHandler, CanHandle;
    PlacesOf(g, k);
    match a
    case Handler(now) => HandlerMine(g, k, now);
    case Continue => StatementMine(k);
    case BlockSelf(s) => assert k.ready[0] in k.ready; assert k.ready[0] != k.current;
    case Unblock(t) => assert t != k.current;
    case _ =>
  }

  lemma StatementMine(k: Kernel)
    requires Places(k) && CanContinue(k)
    ensures k.current in Statement(k).tasks && SameButControl(Me(k), Statement(k).tasks[k.current], Blocks(k))
  {
    hide ReadyOk, WaitersOk, AllCoherent, LockStatement;
    if Me(k).pc.Up? && k.locks[Me(k).pc.l].waiters != [] {
      WaiterElsewhere(k, Me(k).pc.l);
    } else if Blocks(k) {
      ReadyFirst(k);
    } else if LockOf(Me(k).pc).Some? && Plain(Me(k).pc) {
      PlainStatus(k.current, Me(k), k.locks[Me(k).pc.l]);
    }
  }

  lemma PlainStatus(id: TaskId, me: Task, lock: Lock)
    requires LockOf(me.pc).Some? && me.pc.l < |me.depth| && (me.pc.Drop? ==> lock.repeat >= 1 && me.depth[me.pc.l] >= 1)
    ensures SameButControl(me, LockStatement(id, me, lock).0, false)
  {
  }

  lemma TickMine(g: nat, k: Kernel)
    requires g >= 1 && Shape(k) && (Me(k).collaborative ==> k.ready != [])
    ensures k.current in AfterTick(g, k).tasks && SameButStatus(Ticked(Me(k)), AfterTick(g, k).tasks[k.current])
  {
    hide Create;
  }

  lemma HandlerMine(g: nat, k: Kernel, now: nat)
    requires g >= 1 && KernelInv(g, k) && CanStep(g, k, Handler(now)) && CanHandle(g, k, now)
    ensures k.current in k.tasks && k.current in TimerHandler(g, k, now).tasks
    ensures SameButStatus(Ticked(Me(k)), TimerHandler(g, k, now).tasks[k.current])
  {
    hide Places, SleepersOk, LocksOk, WheelInv, Fits, Run, RunLog, Woken, AfterTick;
    ShapeOf(k);
    TimersKeep(g, k, now);
    TickMine(g, AfterTimers(g, k, now));
  }

  /** Tasks come and go with task_start and task_exit only. */
  lemma StepTasks(g: nat, k: Kernel, a: Action)
    requires g >= 1 && KernelInv(g, k) && CanStep(g, k, a) && Defined(g, k, a)
    ensures Shape(k)
    ensures Apply(g, k, a).tasks.Keys ==
            if a.Start? then k.tasks.Keys + {a.id} else if a.Exit? then k.tasks.Keys - {k.current} else k.tasks.Keys
  {
    hide KernelInv, Create, Delete, Removed, Statement, TimerHandler, CanHandle;
    PlacesOf(g, k);
    match a
    case Handler(now) => HandlerKeys(g, k, now);
    case Continue => StatementElsewhere(k);
    case _ =>
  }

  lemma HandlerKeys(g: nat, k: Kernel, now: nat)
    requires g >= 1 && CanHandle(g, k, now)
    ensures TimerHandler(g, k, now).tasks.Keys == k.tasks.Keys
  {
    hide Run, RunLog, Woken, AfterTick, WakeUpAll;
    TimersControl(g, k, now);
    TickControl(g, AfterTimers(g, k, now));
  }

  // ---- The ready list ----

  /** The ready list just before the dispatch, if there is one. */
  ghost function Queue(g: nat, k: Kernel, a: Action): seq<TaskId>
    requires g >= 1 && k.current in k.tasks && |k.wheel.cells| == SLOTS
  {
    match a
    case Start(id, _) => k.ready + [id]
    case Unblock(t) => [t] + k.ready
    case Handler(now) =>
      k.ready + Woken(RunLog(g, k.wheel, now)) + if !Me(k).collaborative && Me(k).ticks == 0 then [k.current] else []
    case Continue =>
      if Me(k).pc.Up? && Me(k).pc.l < |k.locks| && k.locks[Me(k).pc.l].waiters != [] then [k.locks[Me(k).pc.l].waiters[0]] + k.ready
      else k.ready
    case _ => k.ready
  }

  /** A step that ends in a dispatch. */
  predicate Dispatches(k: Kernel, a: Action)
    requires k.current in k.tasks
  {
    a.Exit? || a.BlockSelf? || (a.Continue? && Blocks(k)) || (a.Handler? && (Me(k).collaborative || Me(k).ticks == 0))
  }

  ghost predicate Queued(k: Kernel, q: seq<TaskId>, dispatched: bool, k': Kernel) {
    if dispatched then q != [] && k'.current == q[0] && k'.ready == q[1..] else k'.current == k.current && k'.ready == q
  }

  /** Who runs after a step, and who is ready, in order. */
  lemma StepQueue(g: nat, k: Kernel, a: Action)
    requires g >= 1 && KernelInv(g, k) && CanStep(g, k, a) && Defined(g, k, a)
    ensures Shape(k) && Queued(k, Queue(g, k, a), Dispatches(k, a), Apply(g, k, a))
  {
    hide KernelInv, Create, Delete, Removed, Statement, TimerHandler, CanHandle, RunLog, Woken;
    PlacesOf(g, k);
    match a
    case Handler(now) => HandlerQueue(g, k, now);
    case Continue => StatementQueue(g, k);
    case Exit => ExitIsDispatch(k);
    case _ =>
  }

  lemma StatementQueue(g: nat, k: Kernel)
    requires g >= 1 && Places(k) && CanContinue(k)
    ensures Queued(k, Queue(g, k, Continue), Blocks(k), Statement(k))
  {
    hide ReadyOk, WaitersOk, AllCoherent, LockStatement;
  }

  lemma TickQueue(g: nat, k: Kernel)
    requires g >= 1 && Shape(k) && (Me(k).collaborative ==> k.ready != [])
    ensures Queued(k, k.ready + if !Me(k).collaborative && Me(k).ticks == 0 then [k.current] else [],
                   Me(k).collaborative || Me(k).ticks == 0, AfterTick(g, k))
  {
    hide Create;
  }

  lemma HandlerQueue(g: nat, k: Kernel, now: nat)
    requires g >= 1 && KernelInv(g, k) && CanStep(g, k, Handler(now)) && CanHandle(g, k, now)
    ensures Shape(k) && Queued(k, Queue(g, k, Handler(now)), Dispatches(k, Handler(now)), TimerHandler(g, k, now))
  {
    hide Places, SleepersOk, LocksOk, WheelInv, Fits, Run, RunLog, Woken, AfterTick;
    ShapeOf(k);
    TimersKeep(g, k, now);
    TickQueue(g, AfterTimers(g, k, now));
  }

  // ---- The waiters of a lock ----

  /** The task that joins the waiters of lock l in a step, if any. */
  function Joins(k: Kernel, a: Action, l: nat): seq<TaskId>
    requires k.current in k.tasks
  {
    if a.Continue? && Blocks(k) && Me(k).pc.l == l then [k.current] else []
  }

  /** The task that sema_up takes off the waiters of lock l. */
  function Called(k: Kernel, a: Action, l: nat): seq<TaskId>
    requires k.current in k.tasks && l < |k.locks|
  {
    if a.Continue? && Me(k).pc == Up(l) && k.locks[l].waiters != [] then [k.locks[l].waiters[0]] else []
  }

  /** Tasks join a lock's waiters at the end and leave them at the front. */
  lemma StepWaiters(g: nat, k: Kernel, a: Action, l: nat)
    requires g >= 1 && KernelInv(g, k) && CanStep(g, k, a) && Defined(g, k, a) && l < |k.locks|
    ensures k.current in k.tasks && l < |Apply(g, k, a).locks|
    ensures k.locks[l].waiters + Joins(k, a, l) == Called(k, a, l) + Apply(g, k, a).locks[l].waiters
  {
    hide KernelInv, Apply, CanStep, Defined, SameWaiting, OnlyMine, Places, Shape, Statement;
    PlacesOf(g, k);
    CurrentKnown(k);
    if a == Continue {
      ApplyContinue(g, k);
      LockValue(g, k, l);
      StatementWaiters(k, l);
    } else {
      OtherStepWaits(g, k, a);
      LocksSame(k, Apply(g, k, a));
    }
  }

  lemma StatementWaiters(k: Kernel, l: nat)
    requires Places(k) && k.current in k.tasks && CanContinue(k) && l < |k.locks| && k.locks[l].value <= 1
    ensures l < |Statement(k).locks|
    ensures k.locks[l].waiters + Joins(k, Continue, l) == Called(k, Continue, l) + Statement(k).locks[l].waiters
  {
    hide OnlyMine, Places, Statement, CanContinue;
    ShapeOf(k);
    StatementElsewhere(k);
    var pc := Me(k).pc;
    if LockOf(pc) != Some(l) {
      OnlyMineAt(k, Statement(k), LockOf(pc), l);
    } else if Plain(pc) {
      PlainEffect(k, l);
    } else if pc.Down? || pc.Retry? {
      DownEffect(k, l);
    } else if pc.Take? {
      TakeEffect(k, l);
    } else if pc.Up? {
      UpEffect(k, l);
      var ws := k.locks[l].waiters;
      assert ws != [] ==> ws == [ws[0]] + ws[1..];
    } else {
      GiveEffect(k, l);
    }
  }
}
