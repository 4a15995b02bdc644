/** The scheduler as the source writes it: global variables changed step by step. Every method is one atomic
    step, or part of one, and its effect is the transition of module Kernel with the same name. */
module SchedulerState {
  import opened TimerWheel
  import opened TimerRefinement
  import opened K = Kernel
  import opened KernelPlaces
  import opened KernelSleep
  import opened KernelLocks
  import opened KernelRuns
  import opened KernelSafety
  import opened TimerManager
  import opened Hook

  class Scheduler {
    const g: nat
    const nests: bool
    const manager: Manager
    var current: TaskId
    var ready: seq<TaskId>
    var tasks: map<TaskId, Task>
    var locks: seq<Lock>
    var nextTimer: nat

    ghost function State(): K.Kernel
      reads this, manager
    {
      K.Kernel(nests, current, ready, tasks, locks, manager.Model(), nextTimer)
    }

    ghost predicate Valid()
      reads this, manager, manager.heads, manager.nodes
    {
      g >= 1 && KernelInv(g, State()) && manager.Valid() && manager.clockGranularity == g
    }

    /** task_init and timer_init, with n locks: the main task runs. */
    constructor (g: nat, nests: bool, jiffies: nat, n: nat, main: TaskId)
      requires g >= 1 && jiffies < WORD
      ensures Valid() && Initial(State()) && this.g == g && this.nests == nests
      ensures current == main && |locks| == n && State().wheel.jiffies == jiffies
      ensures fresh(manager) && fresh(manager.heads) && fresh(manager.nodes)
    {
      this.g, this.nests := g, nests;
      manager := new Manager(g, jiffies);
      current, ready := main, [];
      tasks := map[main := Task(RUNNING, MAIN_PRIORITY, MAIN_PRIORITY, false, 0, Idle, seq(n, _ => 0))];
      locks := seq(n, _ => Lock(None, 0, 1, []));
      nextTimer := 0;
      new;
      InitialInv(g, State());
    }

    // ---- task.c ----

    /** get_next_task */
    method GetNextTask() returns (next: TaskId)
      requires ready != [] && ready[0] in tasks
      modifies this
      ensures next == old(ready[0])
      ensures State() == old(State()).(ready := old(ready)[1..], tasks := old(tasks)[next := old(tasks)[next].(status := RUNNING)])
    {
      next := ready[0];
      ready := ready[1..];
      tasks := tasks[next := tasks[next].(status := RUNNING)];
    }

    /** schedule */
    method Schedule()
      requires current in tasks && forall t | t in ready :: t in tasks
      modifies this
      ensures State() == K.Schedule(old(State()))
    {
      ghost var k := State();
      ready := ready + [current];
      tasks := tasks[current := tasks[current].(ticks := tasks[current].priority)];
      tasks := tasks[current := tasks[current].(status := READY)];
      assert tasks == k.tasks[current := Me(k).(status := READY, ticks := Me(k).priority)];
      SwitchToNext();
    }

    /** The dispatch shared by collaborative_schedule, block_task_schedule and died_task_schedule. */
    method SwitchToNext()
      requires ready != [] && ready[0] in tasks
      modifies this
      ensures State() == Dispatch(old(State()))
    {
      var next := GetNextTask();
      current := next;
    }

    /** task_block of the current task, which goes on at `pc` when it runs again. */
    method BlockCurrent(status: Status, pc: Pc)
      requires current in tasks && ready != [] && ready[0] in tasks
      modifies this
      ensures State() == K.TaskBlock(old(State()), status, pc)
    {
      tasks := tasks[current := tasks[current].(status := status, pc := pc)];
      SwitchToNext();
    }

    method TaskBlock(status: Status)
      requires Valid() && CanStep(g, State(), BlockSelf(status))
      modifies this
      ensures Valid() && State() == K.TaskBlock(old(State()), status, Parked)
    {
      ParkKeepsInv(g, State(), status);
      ReadyFirst(State());
      BlockCurrent(status, Parked);
    }

    /** task_unblock */
    method Unblock(t: TaskId)
      requires t in tasks
      modifies this
      ensures State() == K.TaskUnblock(old(State()), t)
    {
      ready := [t] + ready;
      tasks := tasks[t := tasks[t].(status := READY)];
    }

    /** task_unblock of a halted task; the library stays in order exactly if task_block parked it. */
    method TaskUnblock(t: TaskId)
      requires Valid() && t in tasks && Halted(tasks[t].status)
      modifies this
      ensures State() == K.TaskUnblock(old(State()), t)
      ensures Valid() <==> old(tasks)[t].pc == Parked
    {
      ghost var k := State();
      UnblockKeepsInv(g, k, t);
      hide KernelInv;
      Unblock(t);
    }

    /** task_start, for a task structure `id` that is not in use. */
    method TaskStart(id: TaskId, priority: int)
      requires Valid() && id !in tasks
      modifies this
      ensures Valid() && State() == K.TaskStart(old(State()), id, priority)
    {
      StartKeepsInv(g, State(), id, priority);
      var p := priority % 256;
      tasks := tasks[id := Task(READY, p, p, false, 0, Idle, seq(|locks|, _ => 0))];
      ready := ready + [id];
    }

    /** elem_find and list_remove on the ready list. */
    method RemoveFromReady(x: TaskId)
      modifies this
      ensures State() == old(State()).(ready := Removed(old(ready), x))
    {
      var i := 0;
      while i < |ready| && ready[i] != x
        invariant 0 <= i <= |ready| && x !in ready[..i]
        invariant State() == old(State())
      {
        i := i + 1;
      }
      RemovedAt(ready, x, i);
      if i < |ready| {
        ready := ready[..i] + ready[i + 1..];
      }
    }

    /** task_exit; the library stays in order exactly if the task that ends is the current one, and holds no lock. */
    method TaskExit(task: TaskId)
      requires Valid() && Free(State()) && task in tasks && Removed(ready, task) != []
      modifies this
      ensures var r := Removed(old(ready), task); r[0] in old(tasks) && r[0] != task
      ensures State() == K.TaskExit(old(State()), task)
      ensures |Me(old(State())).depth| == |old(locks)|
      ensures Valid() <==> task == old(current) && forall l: nat | l < |old(locks)| :: Me(old(State())).depth[l] == 0
    {
      ghost var k := State();
      ExitKeepsInv(g, k, task);
      hide KernelInv, Removed, K.TaskExit;
      ExitTask(task);
    }

    method ExitTask(task: TaskId)
      requires var r := Removed(ready, task); r != [] && r[0] in tasks && r[0] != task
      modifies this
      ensures State() == K.TaskExit(old(State()), task)
    {
      hide Removed;
      RemoveFromReady(task);
      tasks := tasks - {task};
      SwitchToNext();
    }

    // ---- sync.c ----

    /** One round of sema_down: it blocks, or finds the token. A signal may come before the token is taken,
        unless this is the first round or interrupts nest. */
    method SemaDown(l: nat) returns (found: bool)
      requires current in tasks && l < |locks| && (locks[l].value == 0 ==> ready != [] && ready[0] in tasks)
      modifies this
      ensures State() == K.SemaDown(old(State()), l)
      ensures found <==> old(locks[l].value) != 0
    {
      found := locks[l].value != 0;
      if !found {
        locks := locks[l := locks[l].(waiters := locks[l].waiters + [current])];
        BlockCurrent(BLOCKED, Retry(l));
      } else if tasks[current].pc.Retry? && !nests {
        SetPosition(Take(l));
      } else {
        TakeToken(l);
      }
    }

    /** The end of sema_down. */
    method TakeToken(l: nat)
      requires current in tasks && l < |locks| && locks[l].value >= 1
      modifies this
      ensures State() == K.TakeToken(old(State()), l)
    {
      locks := locks[l := locks[l].(value := locks[l].value - 1)];
      tasks := tasks[current := tasks[current].(pc := SetHolder(l))];
    }

    /** The first half of sema_up: wake the first waiter. */
    method WakeFirst(l: nat) returns (woken: bool)
      requires l < |locks| && (locks[l].waiters != [] ==> locks[l].waiters[0] in tasks)
      modifies this
      ensures State() == K.WakeFirst(old(State()), l)
      ensures woken <==> old(locks[l].waiters) != []
    {
      woken := locks[l].waiters != [];
      if woken {
        var t := locks[l].waiters[0];
        locks := locks[l := locks[l].(waiters := locks[l].waiters[1..])];
        Unblock(t);
      }
    }

    /** The increment in sema_up; the task goes on at `pc`. */
    method GiveToken(l: nat, pc: Pc)
      requires current in tasks && l < |locks| && l < |tasks[current].depth|
      modifies this
      ensures State() == K.GiveToken(old(State()), l, pc)
    {
      locks := locks[l := locks[l].(value := locks[l].value + 1)];
      tasks := tasks[current := Returned(tasks[current], l, 0).(pc := pc)];
    }

    /** The assertion at the end of sema_up: a task that fails it stays there for good. */
    method CheckToken(l: nat)
      requires current in tasks && l < |locks|
      modifies this
      ensures State() == SetPc(old(State()), if old(locks)[l].value == 1 then Idle else Stuck)
    {
      if locks[l].value == 1 {
        SetPosition(Idle);
      } else {
        SetPosition(Stuck);
      }
    }

    /** sema_up, as far as it runs without a signal: task_unblock has enabled signals again. */
    method SemaUp(l: nat)
      requires current in tasks && l < |locks| && l < |tasks[current].depth|
      requires locks[l].waiters != [] ==> locks[l].waiters[0] in tasks
      modifies this
      ensures State() == K.SemaUp(old(State()), l)
    {
      var woken := WakeFirst(l);
      if woken && !nests {
        SetPosition(Give(l));
      } else {
        GiveToken(l, Idle);
      }
    }

    /** The current task's next statement inside lock_acquire or lock_release. */
    method LockStep()
      requires Valid() && CanContinue(State()) && LockOf(Me(State()).pc).Some?
      modifies this
      ensures Valid() && State() == Statement(old(State()))
    {
      ghost var k := State();
      StatementKeepsInv(g, k);
      StatementShape(g, k);
      hide KernelInv, Statement;
      Execute();
    }

    method Execute()
      requires Shape(State()) && CanContinue(State()) && LockOf(Me(State()).pc).Some?
      requires ready != [] ==> ready[0] in tasks
      requires Me(State()).pc.Up? && locks[Me(State()).pc.l].waiters != [] ==> locks[Me(State()).pc.l].waiters[0] in tasks
      modifies this
      ensures State() == Statement(old(State()))
    {
      var me := tasks[current];
      var l := me.pc.l;
      assert locks[l := locks[l]] == locks;
      match me.pc
      case Down(_) => var found := SemaDown(l);
      case Retry(_) => var found := SemaDown(l);
      case Up(_) => SemaUp(l);
      case Take(_) => TakeToken(l);
      case Give(_) => GiveToken(l, Check(l));
      case Check(_) => CheckToken(l);
      case AcquireTest(_) =>
        SetPosition(if locks[l].holder != Some(current) then Down(l) else Bump(l));
      case SetHolder(_) =>
        locks := locks[l := locks[l].(holder := Some(current))];
        SetPosition(SetCount(l));
      case SetCount(_) =>
        locks := locks[l := locks[l].(repeat := 1)];
        tasks := tasks[current := Returned(me, l, 1)];
      case Bump(_) =>
        locks := locks[l := locks[l].(repeat := locks[l].repeat + 1)];
        tasks := tasks[current := Returned(me, l, me.depth[l] + 1)];
      case ReleaseTest(_) =>
        SetPosition(if locks[l].repeat > 1 then Drop(l) else ClearHolder(l));
      case Drop(_) =>
        locks := locks[l := locks[l].(repeat := locks[l].repeat - 1)];
        tasks := tasks[current := Returned(me, l, me.depth[l] - 1)];
      case ClearHolder(_) =>
        locks := locks[l := locks[l].(holder := None)];
        SetPosition(ClearCount(l));
      case ClearCount(_) =>
        locks := locks[l := locks[l].(repeat := 0)];
        SetPosition(Up(l));
    }

    method SetPosition(pc: Pc)
      requires current in tasks
      modifies this
      ensures State() == SetPc(old(State()), pc)
    {
      tasks := tasks[current := tasks[current].(pc := pc)];
    }

    // ---- hook.c ----

    /** Set the sleep flag and the duration; the task then spins until the flag is cleared. */
    method RequestSleep(ms: nat)
      requires Valid() && CanStep(g, State(), Sleep(ms))
      modifies this
      ensures Valid() && State() == SetMe(old(State()), Me(old(State())).(collaborative := true, sleepMs := ms, pc := Spin))
    {
      ghost var k := State();
      SleepKept(g, k, ms);
      hide KernelInv;
      SetSleep(ms);
    }

    method SetSleep(ms: nat)
      requires current in tasks
      modifies this
      ensures State() == SetMe(old(State()), Me(old(State())).(collaborative := true, sleepMs := ms, pc := Spin))
    {
      ghost var k := State();
      tasks := tasks[current := tasks[current].(collaborative := true)];
      tasks := tasks[current := tasks[current].(sleepMs := ms)];
      tasks := tasks[current := tasks[current].(pc := Spin)];
      assert tasks == k.tasks[current := Me(k).(collaborative := true, sleepMs := ms, pc := Spin)];
    }

    /** sleep of a task whose calls are hooked */
    method SleepSeconds(seconds: nat)
      requires Valid() && Free(State()) && seconds < UINT
      modifies this
      ensures Valid()
      ensures State() == SetMe(old(State()), Me(old(State())).(collaborative := true, sleepMs := SleepMs(seconds), pc := Spin))
    {
      RequestSleep(SleepMs(seconds));
    }

    /** nanosleep */
    method SleepNanoseconds(sec: nat, nsec: nat)
      requires Valid() && Free(State())
      modifies this
      ensures Valid()
      ensures State() == SetMe(old(State()), Me(old(State())).(collaborative := true, sleepMs := NanosleepMs(sec, nsec), pc := Spin))
    {
      RequestSleep(NanosleepMs(sec, nsec));
    }

    /** usleep */
    method SleepMicroseconds(usec: nat)
      requires Valid() && Free(State()) && usec < UINT
      modifies this
      ensures Valid()
      ensures State() == SetMe(old(State()), Me(old(State())).(collaborative := true, sleepMs := UsleepMs(usec), pc := Spin))
    {
      RequestSleep(UsleepMs(usec));
    }

    // ---- timer.c ----

    /** collaborative_schedule_helper */
    method WakeUp(t: TaskId)
      requires t in tasks
      modifies this
      ensures State() == K.WakeUp(old(State()), t)
    {
      ready := ready + [t];
      tasks := tasks[t := tasks[t].(ticks := tasks[t].priority)];
      tasks := tasks[t := tasks[t].(status := READY)];
      tasks := tasks[t := tasks[t].(collaborative := false)];
      tasks := tasks[t := tasks[t].(sleepMs := 0)];
    }

    /** run_timer with its callbacks. */
    method RunTimer(now: nat)
      requires g >= 1 && Shape(State()) && (forall t | t in Woken(RunLog(g, State().wheel, now)) :: t in tasks)
      requires manager.Valid() && manager.clockGranularity == g && now < WORD - 1
      modifies this, manager, manager.heads, manager.nodes
      ensures manager.Valid() && manager.nodes == old(manager.nodes)
      ensures State() == AfterTimers(g, old(State()), now)
    {
      hide Woken, Run, RunLog, WakeUpAll;
      var log := manager.RunTimer(now);
      CallBack(log);
    }

    /** The callbacks, one after the other. */
    method CallBack(log: seq<Firing>)
      requires forall t | t in Woken(log) :: t in tasks
      modifies this
      ensures State() == WakeUpAll(old(State()), Woken(log))
    {
      hide Woken, WakeUpAll, K.WakeUp;
      ghost var k := State();
      var i := 0;
      assert log[..0] == [];
      WakeNone(k);
      while i < |log|
        invariant 0 <= i <= |log|
        invariant forall t | t in Woken(log[..i]) :: t in k.tasks
        invariant State() == WakeUpAll(k, Woken(log[..i]))
      {
        WokenStep(k, log, i);
        match log[i].timer.callback {
          case Wake(t) => WakeUp(t);
          case Other(_) =>
        }
        i := i + 1;
      }
      assert log[..|log|] == log;
    }

    /** The handler's three branches, after run_timer. */
    method TickCurrent()
      requires g >= 1 && Shape(State()) && (Me(State()).collaborative ==> ready != [])
      requires manager.Valid() && manager.clockGranularity == g && (ready != [] ==> ready[0] in tasks)
      modifies this, manager, manager.heads, manager.nodes
      ensures manager.Valid() && fresh(manager.nodes - old(manager.nodes))
      ensures State() == AfterTick(g, old(State()))
    {
      hide Create;
      if !tasks[current].collaborative && tasks[current].ticks == 0 {
        Schedule();
      } else if !tasks[current].collaborative {
        tasks := tasks[current := tasks[current].(ticks := tasks[current].ticks - 1)];
      } else {
        var timenode := manager.CreateTimer(nextTimer, Wake(current), tasks[current].sleepMs, 0);
        nextTimer := nextTimer + 1;
        SwitchToNext();
      }
    }

    /** interrupt_timer_handler */
    method InterruptTimerHandler(now: nat)
      requires Valid() && CanStep(g, State(), Handler(now))
      modifies this, manager, manager.heads, manager.nodes
      ensures Valid() && CanHandle(g, old(State()), now) && State() == TimerHandler(g, old(State()), now)
    {
      ghost var k := State();
      HandlerKeepsInv(g, k, now);
      hide KernelInv, Run, RunLog, Woken, AfterTimers, AfterTick, Shape, Fits;
      RunTimer(now);
      ReadyKnown(State());
      TickCurrent();
    }
  }

  lemma ReadyKnown(k: K.Kernel)
    requires Shape(k)
    ensures k.ready != [] ==> k.ready[0] in k.tasks
  {
    if k.ready != [] { assert k.ready[0] in k.ready; }
  }

  lemma SleepKept(g: nat, k: K.Kernel, ms: nat)
    requires g >= 1 && KernelInv(g, k) && CanStep(g, k, Sleep(ms))
    ensures KernelInv(g, SetMe(k, Me(k).(collaborative := true, sleepMs := ms, pc := Spin)))
  {
    hide LocksOk, WheelInv, SleepersOk, ReadyOk, WaitersOk;
    assert Coherent(k, k.current);
    MeKeepsInv(g, k, Me(k).(collaborative := true, sleepMs := ms, pc := Spin));
  }

  /** The tasks woken by part of a log are among those woken by all of it. */
  lemma {:induction false} WokenPrefix(log: seq<Firing>, i: nat)
    requires i <= |log|
    ensures forall t | t in Woken(log[..i]) :: t in Woken(log)
    decreases |log|
  {
    if i == |log| {
      assert log[..i] == log;
    } else {
      WokenPrefix(log[..|log| - 1], i);
      assert log[..|log| - 1][..i] == log[..i];
    }
  }

  lemma WakeNone(k: K.Kernel)
    ensures Woken([]) == [] && WakeUpAll(k, []) == k
  {
  }

  /** One more firing of the log. */
  lemma WokenStep(k: K.Kernel, log: seq<Firing>, i: nat)
    requires i < |log| && forall t | t in Woken(log) :: t in k.tasks
    ensures forall t | t in Woken(log[..i]) || t in Woken(log[..i + 1]) :: t in k.tasks
    ensures match log[i].timer.callback
            case Wake(t) =>
              && t in k.tasks
              && WakeUpAll(k, Woken(log[..i + 1])) == K.WakeUp(WakeUpAll(k, Woken(log[..i])), t)
            case Other(_) => Woken(log[..i + 1]) == Woken(log[..i])
  {
    WokenPrefix(log, i);
    WokenPrefix(log, i + 1);
    var before := Woken(log[..i]);
    assert log[..i + 1][..i] == log[..i];
    match log[i].timer.callback
    case Wake(t) =>
      assert Woken(log[..i + 1]) == before + [t];
      assert t in Woken(log[..i + 1]);
      assert (before + [t])[..|before|] == before;
    case Other(_) =>
  }

  lemma StatementShape(g: nat, k: K.Kernel)
    requires g >= 1 && KernelInv(g, k) && CanContinue(k)
    ensures Shape(k) && (k.ready != [] ==> k.ready[0] in k.tasks)
    ensures LockOf(Me(k).pc).Some? && Me(k).pc.Up? && k.locks[Me(k).pc.l].waiters != [] ==>
              k.locks[Me(k).pc.l].waiters[0] in k.tasks && k.locks[Me(k).pc.l].waiters[0] != k.current
  {
    if k.ready != [] { ReadyFirst(k); }
    if LockOf(Me(k).pc).Some? && Me(k).pc.Up? && k.locks[Me(k).pc.l].waiters != [] { WaiterElsewhere(k, Me(k).pc.l); }
  }
}
