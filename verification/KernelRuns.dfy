/** Whole runs of the library: every step keeps the invariant, so every state of every run has it. */
module KernelRuns {
  import opened TimerWheel
  import opened TimerRefinement
  import opened TimerConservation
  import opened CellSums
  import opened Kernel
  import opened KernelPlaces
  import opened KernelSleep
  import opened KernelLocks

  // ---- Steps ----

  /** What the partial operations below need; StepKeepsInv shows that it always holds. */
  ghost predicate Defined(g: nat, k: Kernel, a: Action)
    requires g >= 1 && Shape(k) && CanStep(g, k, a)
  {
    match a
    case Handler(now) => CanHandle(g, k, now)
    case Exit => var r := Removed(k.ready, k.current); r != [] && r[0] in k.tasks && r[0] != k.current
    case _ => true
  }

  function Apply(g: nat, k: Kernel, a: Action): Kernel
    requires g >= 1 && Shape(k) && CanStep(g, k, a) && Defined(g, k, a)
  {
    match a
    case CallAcquire(l) => SetPc(k, AcquireTest(l))
    case CallRelease(l) => SetPc(k, ReleaseTest(l))
    case Continue => Statement(k)
    case Handler(now) => TimerHandler(g, k, now)
    case Start(id, priority) => TaskStart(k, id, priority)
    case Exit => TaskExit(k, k.current)
    case BlockSelf(s) => TaskBlock(k, s, Parked)
    case Unblock(t) => TaskUnblock(k, t)
    case Sleep(ms) => SetMe(k, Me(k).(collaborative := true, sleepMs := ms, pc := Spin))
    case CreateTimer(due, period, tag) => AddTimer(g, k, due, period, Other(tag))
    case DeleteTimer(slot, pos) => k.(wheel := Delete(k.wheel, slot, pos))
  }

  /** The assertions that the source makes while it executes a step, except the one that ends sema_up once a
      signal may come before it: KernelCheck says exactly when that one holds. */
  ghost predicate Asserts(g: nat, k: Kernel, a: Action)
    requires g >= 1 && Shape(k) && CanStep(g, k, a)
  {
    match a
    case Continue => StatementAsserts(k)
    case Handler(now) =>
      var ts := Woken(RunLog(g, k.wheel, now));
      && (forall i: nat | i < |ts| :: ts[i] !in k.ready + ts[..i])
      && (!Me(k).collaborative && Me(k).ticks == 0 ==> k.current !in k.ready + ts)
    case Start(id, _) => id !in k.ready
    case BlockSelf(s) => Halted(s) && k.ready != []
    case Unblock(t) => Halted(k.tasks[t].status) && t !in k.ready
    case _ => true
  }

  ghost predicate StatementAsserts(k: Kernel)
    requires Shape(k) && CanContinue(k)
  {
    LockOf(Me(k).pc).Some? ==>
      var lock := k.locks[Me(k).pc.l];
      match Me(k).pc
      case Down(_) => if lock.value == 0 then k.current !in lock.waiters && k.ready != [] else lock.value - 1 == 0
      case Retry(_) => if lock.value == 0 then k.current !in lock.waiters && k.ready != [] else lock.value - 1 == 0
      case Take(_) => lock.value - 1 == 0
      case SetCount(_) => lock.repeat == 0
      case ReleaseTest(_) => lock.holder == Some(k.current) && (lock.repeat <= 1 ==> lock.repeat == 1)
      case Up(_) =>
        && lock.value == 0
        && (lock.waiters != [] ==> Halted(k.tasks[lock.waiters[0]].status) && lock.waiters[0] !in k.ready)
        && (k.nests || lock.waiters == [] ==> lock.value + 1 == 1)
      case _ => true
  }

  ghost predicate KernelInv(g: nat, k: Kernel)
    requires g >= 1
  {
    Places(k) && LocksOk(k) && SleepersOk(k) && WheelInv(g, k.wheel)
  }

  // ---- Sleepers ----

  lemma SleepersKept(k: Kernel, k': Kernel)
    requires SleepersOk(k) && k'.wheel == k.wheel && forall t :: Asleep(k', t) <==> Asleep(k, t)
    ensures SleepersOk(k')
  {
    hide Asleep, WakesOnce, Callbacks;
  }

  /** Who sleeps after a dispatch: as before, and the current task if it left with the status RUNNING. */
  lemma DispatchAsleep(k: Kernel)
    requires k.ready != [] && k.ready[0] in k.tasks && k.tasks[k.ready[0]].status == READY
    ensures forall t :: Asleep(Dispatch(k), t) <==>
              Asleep(k, t) || (t == k.current && t in k.tasks && k.tasks[t].status == RUNNING)
  {
  }

  lemma AddWakeUp(g: nat, k: Kernel)
    requires g >= 1 && Shape(k) && SleepersOk(k) && k.wheel.jiffies + Me(k).sleepMs < WORD
    ensures var w := AddTimer(g, k, Me(k).sleepMs, 0, Wake(k.current)).wheel;
            && WakesOnce(w)
            && forall t: TaskId :: Callbacks(w)[Wake(t)] == Callbacks(k.wheel)[Wake(t)] + if t == k.current then 1 else 0
  {
    hide Insert, Sum, Bag;
    AddedKeepsWakesOnce(g, k, Me(k).sleepMs, 0, Wake(k.current));
    CreateBag(ByCallback(), g, k.wheel, k.nextTimer, Me(k).sleepMs, 0, Wake(k.current));
  }

  lemma AddedKeepsWakesOnce(g: nat, k: Kernel, due: nat, period: nat, cb: Callback)
    requires g >= 1 && |k.wheel.cells| == SLOTS && WakesOnce(k.wheel) && (cb.Wake? ==> period == 0)
    ensures WakesOnce(AddTimer(g, k, due, period, cb).wheel)
  {
    hide SlotFor;
  }

  lemma SleepKeepsInv(g: nat, k: Kernel)
    requires g >= 1 && KernelInv(g, k) && Me(k).collaborative && k.ready != [] && k.wheel.jiffies + Me(k).sleepMs < WORD
    ensures KernelInv(g, AfterTick(g, k))
  {
    hide ReadyOk, WaitersOk, AllCoherent, LocksOk, Callbacks, WakesOnce, Insert, Ok;
    var k1 := AddTimer(g, k, Me(k).sleepMs, 0, Wake(k.current));
    AddWakeUp(g, k);
    InsertKeepsInv(g, k.wheel.jiffies, 1, k.wheel.cells, Timer(k.nextTimer, k.wheel.jiffies + Me(k).sleepMs, 0, Wake(k.current)));
    WheelKeepsPlaces(k, k1.wheel, k1.nextTimer);
    ReadyFirst(k1);
    DispatchKeepsPlaces(k1);
    DispatchAsleep(k1);
    SameControlKeepsLocks(k, Dispatch(k1));
  }

  /** A step of the current task that is not a dispatch and leaves its locks alone. */
  lemma MeKeepsInv(g: nat, k: Kernel, me: Task)
    requires g >= 1 && KernelInv(g, k)
    requires me.status == RUNNING && me.depth == Me(k).depth && me.ticks <= me.priority < 256
    requires me.collaborative ==> me.pc == Spin
    requires me.pc == Me(k).pc || LockOf(me.pc) == LockOf(Me(k).pc) == None
    ensures KernelInv(g, SetMe(k, me))
  {
    hide ReadyOk, WaitersOk, LocksOk, Callbacks, WakesOnce, WheelInv;
    assert Coherent(k, k.current);
    hide AllCoherent;
    MeKeepsPlaces(k, me);
    hide Coherent;
    SleepersKept(k, SetMe(k, me));
    SameControlKeepsLocks(k, SetMe(k, me));
  }

  lemma ScheduleKeepsInv(g: nat, k: Kernel)
    requires g >= 1 && KernelInv(g, k) && !Me(k).collaborative
    ensures KernelInv(g, Schedule(k))
  {
    hide ReadyOk, WaitersOk, LocksOk, Callbacks, WakesOnce, WheelInv, AllCoherent;
    RequeuedReady(k);
    ScheduleKeepsPlaces(k);
    ReadyFirst(Requeued(k));
    DispatchAsleep(Requeued(k));
    SleepersKept(k, Schedule(k));
    SameControlKeepsLocks(k, Schedule(k));
  }

  lemma TickKeepsInv(g: nat, k: Kernel)
    requires g >= 1 && KernelInv(g, k) && !Me(k).collaborative
    ensures KernelInv(g, AfterTick(g, k))
  {
    hide ReadyOk, WaitersOk, LocksOk, SleepersOk, WheelInv;
    var me := Me(k);
    assert Coherent(k, k.current);
    hide AllCoherent;
    if me.ticks == 0 {
      ScheduleKeepsInv(g, k);
    } else {
      MeKeepsInv(g, k, me.(ticks := me.ticks - 1));
    }
  }

  lemma {:induction false} WakeAllControl(k: Kernel, ts: seq<TaskId>)
    requires forall t | t in ts :: t in k.tasks
    ensures SameControl(k, WakeUpAll(k, ts))
  {
    if ts != [] { WakeAllControl(k, ts[..|ts| - 1]); }
  }

  lemma HandlerKeepsInv(g: nat, k: Kernel, now: nat)
    requires g >= 1 && KernelInv(g, k) && CanStep(g, k, Handler(now))
    ensures CanHandle(g, k, now) && Asserts(g, k, Handler(now)) && KernelInv(g, TimerHandler(g, k, now))
  {
    hide ReadyOk, WaitersOk, AllCoherent, LocksOk, SleepersOk, Fits, WheelInv;
    TimersKeep(g, k, now);
    RunKeepsWheelInv(g, k.wheel, now);
    var k1 := AfterTimers(g, k, now);
    var ts := Woken(RunLog(g, k.wheel, now));
    WakeAllControl(k.(wheel := Run(g, k.wheel, now)), ts);
    SameControlKeepsLocks(k, k1);
    HandlerAsserts(g, k, now);
    if Me(k1).collaborative { SleepKeepsInv(g, k1); } else { TickKeepsInv(g, k1); }
  }

  lemma HandlerAsserts(g: nat, k: Kernel, now: nat)
    requires g >= 1 && KernelInv(g, k) && CanStep(g, k, Handler(now))
    ensures Asserts(g, k, Handler(now))
  {
    hide WaitersOk, AllCoherent, LocksOk, Fits, WheelInv, RunLog, Woken;
    TimersKeep(g, k, now);
    var k1 := AfterTimers(g, k, now);
    var ts := Woken(RunLog(g, k.wheel, now));
    assert k1.ready == k.ready + ts && NoDup(k1.ready);
    forall i: nat | i < |ts| ensures ts[i] !in k.ready + ts[..i] {
      assert k1.ready[|k.ready| + i] == ts[i] && k1.ready[..|k.ready| + i] == k.ready + ts[..i];
    }
    assert k1.current !in k1.ready;
  }

  // ---- Lock operations ----

  lemma CallKeepsLocks(k: Kernel, l: nat, pc: Pc)
    requires Shape(k) && LocksOk(k) && l < |k.locks| && Me(k).pc == Idle
    requires pc == AcquireTest(l) || (pc == ReleaseTest(l) && Me(k).depth[l] >= 1)
    ensures Shape(SetPc(k, pc)) && LocksOk(SetPc(k, pc))
  {
    hide LockOk, Owned;
    var lock, me := k.locks[l], Me(k).(pc := pc);
    var o := OwnerOf(k, l);
    MyPhase(k, l, o);
    OwnedValue(k, l, o);
    assert SetPc(k, pc) == Moved(k, l, lock, me);
    assert Handover(k, l, lock, me, o, o);
    hide Handover, LocksOk, Shape;
    MovedKeepsLocks(k, l, lock, me, o, o);
  }

  /** Entering lock_acquire, or entering lock_release with the lock held. */
  lemma CallKeepsInv(g: nat, k: Kernel, l: nat, pc: Pc)
    requires g >= 1 && KernelInv(g, k) && l < |k.locks| && Me(k).pc == Idle
    requires pc == AcquireTest(l) || (pc == ReleaseTest(l) && Me(k).depth[l] >= 1)
    ensures KernelInv(g, SetPc(k, pc))
  {
    hide ReadyOk, WaitersOk, SleepersOk, WheelInv, LocksOk;
    assert Coherent(k, k.current);
    hide AllCoherent;
    MeKeepsPlaces(k, Me(k).(pc := pc));
    hide Coherent;
    CallKeepsLocks(k, l, pc);
    SleepersKept(k, SetPc(k, pc));
  }

  lemma StatementKeepsInv(g: nat, k: Kernel)
    requires g >= 1 && KernelInv(g, k) && CanContinue(k)
    ensures KernelInv(g, Statement(k))
  {
    hide ReadyOk, WaitersOk, SleepersOk, WheelInv, LocksOk;
    assert Coherent(k, k.current);
    hide AllCoherent;
    var pc := Me(k).pc;
    if LockOf(pc).None? {
      MeKeepsInv(g, k, Me(k).(pc := Idle));
    } else {
      hide Coherent;
      LockStatementKeeps(k, pc.l);
      StatementKeepsSleepers(k);
    }
  }

  lemma LockStatementKeeps(k: Kernel, l: nat)
    requires Places(k) && LocksOk(k) && CanContinue(k) && LockOf(Me(k).pc) == Some(l) && l < |k.locks|
    ensures Places(Statement(k)) && LocksOk(Statement(k))
  {
    hide Places, LocksOk, SemaDown, SemaUp, TakeToken, GiveToken, LockStatement;
    ShapeOf(k);
    var pc := Me(k).pc;
    if pc.Down? || pc.Retry? {
      if k.locks[l].value == 0 { WaitKeepsLocks(k, l); } else { DownKeepsLocks(k, l); }
    } else if pc.Up? {
      UpKeepsLocks(k, l);
    } else if pc.Take? {
      TakeKeepsLocks(k, l);
    } else if pc.Give? {
      GiveKeepsLocks(k, l, Check(l));
    } else {
      StatementKeepsLocks(k, l);
    }
  }

  lemma StatementKeepsSleepers(k: Kernel)
    requires Places(k) && SleepersOk(k) && CanContinue(k) && LockOf(Me(k).pc).Some? && !Me(k).collaborative
    ensures SleepersOk(Statement(k)) && Statement(k).wheel == k.wheel
  {
    hide WaitersOk, SleepersOk, AllCoherent, LockStatement;
    var pc := Me(k).pc;
    var l := pc.l;
    if (pc.Down? || pc.Retry?) && k.locks[l].value == 0 {
      ReadyFirst(k);
      hide ReadyOk;
      assert Statement(k) == Dispatch(Joined(k, l));
      DispatchAsleep(Joined(k, l));
    } else if pc.Up? {
      hide ReadyOk;
      UpAsleep(k, l);
    } else {
      hide ReadyOk;
      StatementStatus(k);
    }
    SleepersKept(k, Statement(k));
  }

  lemma UpAsleep(k: Kernel, l: nat)
    requires Places(k) && CanContinue(k) && Me(k).pc == Up(l)
    ensures forall t :: Asleep(Statement(k), t) <==> Asleep(k, t)
    ensures Statement(k).wheel == k.wheel
  {
    hide WaitersOk, AllCoherent, ReadyOk;
    if k.locks[l].waiters != [] { WaiterElsewhere(k, l); }
  }

  /** A statement that keeps the current task running. */
  lemma StatementStatus(k: Kernel)
    requires Shape(k) && CanContinue(k) && LockOf(Me(k).pc).Some? && !Me(k).pc.Up?
    requires (Me(k).pc.Down? || Me(k).pc.Retry?) ==> k.locks[Me(k).pc.l].value != 0
    ensures forall t :: Asleep(Statement(k), t) <==> Asleep(k, t)
    ensures Statement(k).wheel == k.wheel
  {
    var (me', lock') := if Plain(Me(k).pc) then LockStatement(k.current, Me(k), k.locks[Me(k).pc.l]) else (Me(k), k.locks[0]);
    assert me'.status == Me(k).status;
  }

  lemma StatementMeetsAsserts(g: nat, k: Kernel)
    requires g >= 1 && KernelInv(g, k) && CanContinue(k)
    ensures StatementAsserts(k)
  {
    hide SleepersOk, WheelInv, Owned, LockOk;
    if LockOf(Me(k).pc).Some? {
      assert Coherent(k, k.current);
      hide AllCoherent;
      var l := Me(k).pc.l;
      var o := OwnerOf(k, l);
      MyPhase(k, l, o);
      OwnedValue(k, l, o);
      if k.locks[l].waiters != [] { WaiterElsewhere(k, l); }
    }
  }

  // ---- The other calls ----

  lemma StartKeepsLocks(k: Kernel, id: TaskId, priority: int)
    requires Places(k) && LocksOk(k) && id !in k.tasks && Shape(TaskStart(k, id, priority))
    ensures LocksOk(TaskStart(k, id, priority))
  {
    hide ReadyOk, WaitersOk, AllCoherent, Owned, LockOk;
    var k' := TaskStart(k, id, priority);
    forall l: nat | l < |k'.locks| ensures LockOk(k', l) {
      var o := OwnerOf(k, l);
      StartKeepsLock(k, id, priority, l, o);
      LockOkFrom(k', l, o);
    }
  }

  lemma StartKeepsLock(k: Kernel, id: TaskId, priority: int, l: nat, o: Option<TaskId>)
    requires Shape(k) && l < |k.locks| && Owned(k, l, o)
    requires id !in k.tasks && Shape(TaskStart(k, id, priority))
    ensures Owned(TaskStart(k, id, priority), l, o)
  {
    hide OwnerPhase;
  }

  lemma StartKeepsInv(g: nat, k: Kernel, id: TaskId, priority: int)
    requires g >= 1 && KernelInv(g, k) && id !in k.tasks
    ensures KernelInv(g, TaskStart(k, id, priority)) && id !in k.ready
  {
    hide ReadyOk, WaitersOk, AllCoherent, SleepersOk, WheelInv, LocksOk;
    StartKeepsPlaces(k, id, priority);
    StartKeepsLocks(k, id, priority);
    SleepersKept(k, TaskStart(k, id, priority));
    assert id !in k.ready;
  }

  lemma ExitKeepsLock(k: Kernel, l: nat, o: Option<TaskId>, k': Kernel)
    requires Shape(k) && l < |k.locks| && Owned(k, l, o) && Shape(k')
    requires Me(k).pc == Idle && Me(k).depth[l] == 0
    requires k'.locks == k.locks && k'.tasks.Keys == k.tasks.Keys - {k.current}
    requires forall t | t in k'.tasks :: SameUse(k.tasks[t], k'.tasks[t])
    ensures Owned(k', l, o)
  {
    MyPhase(k, l, o);
    forall t | t in k'.tasks
      ensures if o == Some(t) then OwnerPhase(k'.tasks[t], t, k'.locks[l], l) else Outside(k'.tasks[t], l)
    {
      SameTaskKeepsPhase(k.tasks[t], k'.tasks[t], t, k.locks[l], l);
    }
  }

  lemma ExitKeepsLocks(k: Kernel)
    requires Places(k) && LocksOk(k) && k.ready != [] && Me(k).pc == Idle
    requires forall l: nat | l < |k.locks| :: Me(k).depth[l] == 0
    requires Removed(k.ready, k.current) == k.ready && k.ready[0] != k.current && k.ready[0] in k.tasks
    requires Places(TaskExit(k, k.current))
    ensures LocksOk(TaskExit(k, k.current))
  {
    hide ReadyOk, WaitersOk, AllCoherent, Owned, LockOk, Removed;
    var k' := TaskExit(k, k.current);
    forall l: nat | l < |k'.locks| ensures LockOk(k', l) {
      var o := OwnerOf(k, l);
      ExitKeepsLock(k, l, o, k');
      LockOkFrom(k', l, o);
    }
  }

  /** task_exit keeps the invariant exactly if the task that ends is the current one, and holds no lock. */
  lemma ExitKeepsInv(g: nat, k: Kernel, t: TaskId)
    requires g >= 1 && KernelInv(g, k) && Free(k) && t in k.tasks && Removed(k.ready, t) != []
    ensures var r := Removed(k.ready, t); r[0] in k.tasks && r[0] != t
    ensures |Me(k).depth| == |k.locks|
    ensures KernelInv(g, TaskExit(k, t)) <==> t == k.current && forall l: nat | l < |k.locks| :: Me(k).depth[l] == 0
  {
    hide ReadyOk, WaitersOk, SleepersOk, WheelInv, LocksOk, Removed;
    assert Coherent(k, k.current);
    hide AllCoherent;
    ExitReady(k, t);
    if t != k.current {
      ExitOfOther(k, t);
    } else if l: nat :| l < |k.locks| && Me(k).depth[l] != 0 {
      ExitWithLock(k, l);
    } else {
      ExitOfCurrent(g, k);
    }
  }

  /** A lock whose owner has ended stays taken for ever. */
  lemma ExitWithLock(k: Kernel, l: nat)
    requires Places(k) && LocksOk(k) && k.ready != [] && l < |k.locks| && Me(k).depth[l] != 0
    requires Removed(k.ready, k.current) == k.ready && k.ready[0] != k.current && k.ready[0] in k.tasks
    ensures Shape(TaskExit(k, k.current)) ==> !LocksOk(TaskExit(k, k.current))
  {
    hide ReadyOk, WaitersOk, AllCoherent, Owned, LockOk, Removed;
    var o := OwnerOf(k, l);
    OwnersAre(k, l, o);
    assert k.current in TokenOwners(k, l);
    OwnedValue(k, l, o);
    var k' := TaskExit(k, k.current);
    if Shape(k') && LocksOk(k') {
      var o' := OwnerOf(k', l);
      OwnedValue(k', l, o');
      OwnersAre(k', l, o');
      assert forall t | t in TokenOwners(k', l) :: t in TokenOwners(k, l) && t != k.current;
      assert false;
    }
  }

  lemma ExitOfCurrent(g: nat, k: Kernel)
    requires g >= 1 && KernelInv(g, k) && CanStep(g, k, Exit)
    ensures Defined(g, k, Exit) && KernelInv(g, TaskExit(k, k.current))
  {
    hide WaitersOk, AllCoherent, SleepersOk, WheelInv, LocksOk, Removed;
    ExitKeepsPlaces(k);
    ExitKeepsLocks(k);
    ReadyFirst(k);
    hide ReadyOk;
    var k1 := k.(tasks := k.tasks - {k.current});
    assert TaskExit(k, k.current) == Dispatch(k1);
    DispatchAsleep(k1);
    SleepersKept(k, TaskExit(k, k.current));
  }

  lemma ParkedControl(k: Kernel, s: Status)
    requires k.current in k.tasks && k.ready != [] && k.ready[0] in k.tasks && Me(k).pc == Idle
    ensures SameControl(k, TaskBlock(k, s, Parked))
  {
  }

  lemma ParkedSleepers(k: Kernel, s: Status)
    requires k.current in k.tasks && k.ready != [] && k.ready[0] in k.tasks && k.tasks[k.ready[0]].status == READY
    requires SleepersOk(k) && Halted(s) && k.ready[0] != k.current
    ensures SleepersOk(TaskBlock(k, s, Parked))
  {
    hide SleepersOk;
    DispatchAsleep(SetMe(k, Me(k).(status := s, pc := Parked)));
    SleepersKept(k, TaskBlock(k, s, Parked));
  }

  lemma ParkKeepsInv(g: nat, k: Kernel, s: Status)
    requires g >= 1 && KernelInv(g, k) && CanStep(g, k, BlockSelf(s))
    ensures KernelInv(g, TaskBlock(k, s, Parked))
  {
    hide ReadyOk, WaitersOk, SleepersOk, WheelInv, LocksOk;
    assert Coherent(k, k.current);
    hide AllCoherent;
    ParkKeepsPlaces(k, s);
    hide Coherent;
    ReadyFirst(k);
    ParkedSleepers(k, s);
    ParkedControl(k, s);
    hide SameControl;
    SameControlKeepsLocks(k, TaskBlock(k, s, Parked));
  }

  /** task_unblock of a halted task keeps the invariant exactly if task_block parked it. */
  lemma UnblockKeepsInv(g: nat, k: Kernel, t: TaskId)
    requires g >= 1 && KernelInv(g, k) && t in k.tasks && Halted(k.tasks[t].status)
    ensures t !in k.ready && (KernelInv(g, TaskUnblock(k, t)) <==> k.tasks[t].pc == Parked)
  {
    hide WaitersOk, AllCoherent, SleepersOk, WheelInv, LocksOk;
    assert t !in k.ready;
    hide ReadyOk;
    UnblockKeepsPlaces(k, t);
    if k.tasks[t].pc == Parked {
      SleepersKept(k, TaskUnblock(k, t));
      SameControlKeepsLocks(k, TaskUnblock(k, t));
    }
  }

  lemma CreateKeepsInv(g: nat, k: Kernel, due: nat, period: nat, tag: nat)
    requires g >= 1 && KernelInv(g, k) && k.wheel.jiffies + due < WORD
    ensures KernelInv(g, AddTimer(g, k, due, period, Other(tag)))
  {
    hide Places, LocksOk, Insert, Callbacks, WakesOnce, Ok, Bag;
    assert Shape(k) by { ShapeOf(k); }
    var k' := AddTimer(g, k, due, period, Other(tag));
    var t := Timer(k.nextTimer, k.wheel.jiffies + due, period, Other(tag));
    InsertKeepsInv(g, k.wheel.jiffies, 1, k.wheel.cells, t);
    WheelKeepsPlaces(k, k'.wheel, k'.nextTimer);
    AddedKeepsWakesOnce(g, k, due, period, Other(tag));
    assert forall u: TaskId :: Callbacks(k'.wheel)[Wake(u)] == Callbacks(k.wheel)[Wake(u)] by {
      CreatedOther(g, k, due, period, tag);
    }
    SameControlKeepsLocks(k, k');
  }

  lemma CreatedOther(g: nat, k: Kernel, due: nat, period: nat, tag: nat)
    requires g >= 1 && |k.wheel.cells| == SLOTS
    ensures forall u: TaskId :: Callbacks(AddTimer(g, k, due, period, Other(tag)).wheel)[Wake(u)] == Callbacks(k.wheel)[Wake(u)]
  {
    hide Create, Bag;
    CreateBag(ByCallback(), g, k.wheel, k.nextTimer, due, period, Other(tag));
  }

  lemma DeleteKeepsInv(g: nat, k: Kernel, c: nat, pos: nat)
    requires g >= 1 && KernelInv(g, k) && CanStep(g, k, DeleteTimer(c, pos))
    ensures KernelInv(g, Apply(g, k, DeleteTimer(c, pos)))
  {
    hide Places, LocksOk, Callbacks, Ok, Bag;
    assert Shape(k) by { ShapeOf(k); }
    var k' := Apply(g, k, DeleteTimer(c, pos));
    forall i: nat, t | i < SLOTS && t in k'.wheel.cells[i] ensures t in k.wheel.cells[i] {
    }
    WheelKeepsPlaces(k, k'.wheel, k.nextTimer);
    assert k' == k.(wheel := k'.wheel, nextTimer := k.nextTimer);
    assert forall u: TaskId :: Callbacks(k'.wheel)[Wake(u)] == Callbacks(k.wheel)[Wake(u)] by {
      DeletedOther(k.wheel, c, pos);
    }
    SameControlKeepsLocks(k, k');
  }

  lemma DeletedOther(w: Wheel, c: nat, pos: nat)
    requires |w.cells| == SLOTS && c < SLOTS && pos < |w.cells[c]| && w.cells[c][pos].callback.Other?
    ensures forall u: TaskId :: Callbacks(Delete(w, c, pos))[Wake(u)] == Callbacks(w)[Wake(u)]
  {
    hide Delete, Bag;
    DeleteBag(ByCallback(), w, c, pos);
  }

  // ---- Runs ----

  /** Every step is well defined, meets the assertions of the source, and keeps the invariant. */
  lemma StepKeepsInv(g: nat, k: Kernel, a: Action)
    requires g >= 1 && KernelInv(g, k) && CanStep(g, k, a)
    ensures Defined(g, k, a) && Asserts(g, k, a) && KernelInv(g, Apply(g, k, a))
  {
    hide ReadyOk, WaitersOk, LocksOk, SleepersOk, WheelInv, Fits;
    assert Coherent(k, k.current);
    hide AllCoherent;
    match a
    case CallAcquire(l) => CallKeepsInv(g, k, l, AcquireTest(l));
    case CallRelease(l) => CallKeepsInv(g, k, l, ReleaseTest(l));
    case Continue => StatementKeepsInv(g, k); StatementMeetsAsserts(g, k);
    case Handler(now) => HandlerKeepsInv(g, k, now);
    case Start(id, p) => StartKeepsInv(g, k, id, p);
    case Exit => ExitOfCurrent(g, k);
    case BlockSelf(s) => ParkKeepsInv(g, k, s);
    case Unblock(t) => UnblockKeepsInv(g, k, t);
    case Sleep(ms) => MeKeepsInv(g, k, Me(k).(collaborative := true, sleepMs := ms, pc := Spin));
    case CreateTimer(due, period, tag) => CreateKeepsInv(g, k, due, period, tag);
    case DeleteTimer(c, pos) => DeleteKeepsInv(g, k, c, pos);
  }
}
