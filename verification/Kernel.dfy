/** The scheduler of src/task/task.c, the locks of src/task/sync.c, the signal handler of
    src/interrupt/timer.c and the sleep calls of src/hook.c, as one transition system. */
module Kernel {
  import opened TimerWheel
  import opened TimerRefinement

  type TaskId = nat

  datatype Option<T> = None | Some(value: T)

  datatype Status = RUNNING | READY | BLOCKED | WAITING | HANGING

  /** The statement a task executes next: inside lock_acquire, lock_release, a sleep call or task_block. */
  datatype Pc =
    | Idle
    | AcquireTest(l: nat) | Down(l: nat) | Retry(l: nat) | Take(l: nat) | SetHolder(l: nat) | SetCount(l: nat) | Bump(l: nat)
    | ReleaseTest(l: nat) | Drop(l: nat) | ClearHolder(l: nat) | ClearCount(l: nat) | Up(l: nat) | Give(l: nat) | Check(l: nat)
    | Spin
    | Parked
    | Stuck

  /** A live task. `depth` counts, lock by lock, its acquisitions not yet released. */
  datatype Task = Task(status: Status, priority: nat, ticks: nat, collaborative: bool, sleepMs: nat, pc: Pc, depth: seq<nat>)

  datatype Lock = Lock(holder: Option<TaskId>, repeat: nat, value: nat, waiters: seq<TaskId>)

  /** `nests` says whether interrupt_disable and interrupt_enable nest. In the source they do not: task_unblock
      enables signals again although sema_up, which calls it, has not come to its end, and a task that waits
      in sema_down may be resumed with signals enabled. */
  datatype Kernel = Kernel(nests: bool, current: TaskId, ready: seq<TaskId>, tasks: map<TaskId, Task>, locks: seq<Lock>,
                           wheel: Wheel, nextTimer: nat)

  datatype Action =
    | CallAcquire(l: nat)
    | CallRelease(l: nat)
    | Continue
    | Handler(now: nat)
    | Start(id: TaskId, priority: int)
    | Exit
    | BlockSelf(status: Status)
    | Unblock(id: TaskId)
    | Sleep(ms: nat)
    | CreateTimer(due: nat, period: nat, tag: nat)
    | DeleteTimer(slot: nat, pos: nat)

  predicate Halted(s: Status) { s == BLOCKED || s == WAITING || s == HANGING }

  /** What makes the functions below meaningful; part of the invariant. */
  ghost predicate Shape(k: Kernel) {
    && k.current in k.tasks
    && (forall t | t in k.tasks :: |k.tasks[t].depth| == |k.locks|)
    && (forall t | t in k.ready :: t in k.tasks)
    && (forall l: nat, t | l < |k.locks| && t in k.locks[l].waiters :: t in k.tasks)
    && |k.wheel.cells| == SLOTS
  }

  function Me(k: Kernel): Task
    requires k.current in k.tasks
  {
    k.tasks[k.current]
  }

  function SetMe(k: Kernel, t: Task): Kernel { k.(tasks := k.tasks[k.current := t]) }

  function SetPc(k: Kernel, pc: Pc): Kernel
    requires k.current in k.tasks
  {
    SetMe(k, Me(k).(pc := pc))
  }

  function SetLock(k: Kernel, l: nat, lock: Lock): Kernel
    requires l < |k.locks|
  {
    k.(locks := k.locks[l := lock])
  }

  // ---- task.c ----

  /** Take the first ready task and make it current: get_next_task and the tail of every dispatch. */
  function Dispatch(k: Kernel): Kernel
    requires k.ready != [] && k.ready[0] in k.tasks
  {
    var next := k.ready[0];
    k.(current := next, ready := k.ready[1..], tasks := k.tasks[next := k.tasks[next].(status := RUNNING)])
  }

  /** schedule. */
  function Schedule(k: Kernel): Kernel
    requires k.current in k.tasks && forall t | t in k.ready :: t in k.tasks
  {
    var me := Me(k).(status := READY, ticks := Me(k).priority);
    Dispatch(SetMe(k, me).(ready := k.ready + [k.current]))
  }

  /** task_block, up to the moment the task runs again. */
  function TaskBlock(k: Kernel, s: Status, pc: Pc): Kernel
    requires k.current in k.tasks && k.ready != [] && k.ready[0] in k.tasks
  {
    Dispatch(SetMe(k, Me(k).(status := s, pc := pc)))
  }

  /** task_unblock. */
  function TaskUnblock(k: Kernel, t: TaskId): Kernel
    requires t in k.tasks
  {
    k.(ready := [t] + k.ready, tasks := k.tasks[t := k.tasks[t].(status := READY)])
  }

  /** task_start; the priority, an int, is stored in a uint8_t. */
  function TaskStart(k: Kernel, id: TaskId, priority: int): Kernel {
    var p := priority % 256;
    k.(tasks := k.tasks[id := Task(READY, p, p, false, 0, Idle, seq(|k.locks|, _ => 0))], ready := k.ready + [id])
  }

  /** elem_find and list_remove: s without the first x, if there is one. */
  function Removed(s: seq<TaskId>, x: TaskId): (r: seq<TaskId>)
    ensures x !in s ==> r == s
    ensures forall y | y in r :: y in s
  {
    if s == [] then [] else if s[0] == x then s[1..] else [s[0]] + Removed(s[1..], x)
  }

  /** What is removed is the first x, and nothing else. */
  lemma {:induction false} RemovedAt(s: seq<TaskId>, x: TaskId, i: nat)
    requires i <= |s| && x !in s[..i] && (i < |s| ==> s[i] == x)
    ensures Removed(s, x) == if i < |s| then s[..i] + s[i + 1..] else s
  {
    if i > 0 {
      assert s[0] == s[..i][0];
      var front, rest := s[..i][1..], s[1..];
      assert rest[..i - 1] == front && s[..i] == [s[0]] + front;
      RemovedAt(rest, x, i - 1);
      assert i < |s| ==> rest[i..] == s[i + 1..];
    }
  }

  /** task_exit of task t, by the current task: it leaves the ready list, and the next ready task runs. */
  function TaskExit(k: Kernel, t: TaskId): Kernel
    requires var r := Removed(k.ready, t); r != [] && r[0] in k.tasks && r[0] != t
  {
    Dispatch(k.(ready := Removed(k.ready, t), tasks := k.tasks - {t}))
  }

  // ---- sync.c ----

  /** The end of sema_down: take the token. */
  function TakeToken(k: Kernel, l: nat): Kernel
    requires k.current in k.tasks && l < |k.locks| && k.locks[l].value >= 1
  {
    SetPc(SetLock(k, l, k.locks[l].(value := k.locks[l].value - 1)), SetHolder(l))
  }

  /** One round of sema_down's loop: join the waiters and block, or take the token. A signal may come between
      the test and the taking, unless this is the first round or interrupts nest. */
  function SemaDown(k: Kernel, l: nat): Kernel
    requires k.current in k.tasks && l < |k.locks|
    requires k.locks[l].value == 0 ==> k.ready != [] && k.ready[0] in k.tasks
  {
    var lock := k.locks[l];
    if lock.value == 0 then
      TaskBlock(SetLock(k, l, lock.(waiters := lock.waiters + [k.current])), BLOCKED, Retry(l))
    else if Me(k).pc.Retry? && !k.nests then SetPc(k, Take(l))
    else TakeToken(k, l)
  }

  /** The first half of sema_up: wake the first waiter, if there is one. */
  function WakeFirst(k: Kernel, l: nat): Kernel
    requires l < |k.locks| && (k.locks[l].waiters != [] ==> k.locks[l].waiters[0] in k.tasks)
  {
    var lock := k.locks[l];
    if lock.waiters == [] then k
    else SetLock(TaskUnblock(k, lock.waiters[0]), l, lock.(waiters := lock.waiters[1..]))
  }

  /** The increment in sema_up: the token is back. */
  function GiveToken(k: Kernel, l: nat, pc: Pc): Kernel
    requires k.current in k.tasks && l < |k.locks| && l < |Me(k).depth|
  {
    SetMe(SetLock(k, l, k.locks[l].(value := k.locks[l].value + 1)), Returned(Me(k), l, 0).(pc := pc))
  }

  /** sema_up as far as it runs without a signal: if a waiter was woken, signals may come before the increment
      and before the assertion behind it. */
  function SemaUp(k: Kernel, l: nat): Kernel
    requires k.current in k.tasks && l < |k.locks| && l < |Me(k).depth|
    requires k.locks[l].waiters != [] ==> k.locks[l].waiters[0] in k.tasks
  {
    var k1 := WakeFirst(k, l);
    if k.nests || k.locks[l].waiters == [] then GiveToken(k1, l, Idle) else SetPc(k1, Give(l))
  }

  /** Leave a lock operation with the given depth. */
  function Returned(me: Task, l: nat, depth: nat): Task
    requires l < |me.depth|
  {
    me.(pc := Idle, depth := me.depth[l := depth])
  }

  /** The statements of lock_acquire and lock_release around sema_down and sema_up, executed by task `id`:
      what they do to the task itself and to its lock. The assertion at the end of sema_up is one of them: a
      task that fails it never comes out of it. */
  function LockStatement(id: TaskId, me: Task, lock: Lock): (Task, Lock)
    requires LockOf(me.pc).Some? && me.pc.l < |me.depth|
    requires me.pc.Drop? ==> lock.repeat >= 1 && me.depth[me.pc.l] >= 1
  {
    match me.pc
    case AcquireTest(l) => (me.(pc := if lock.holder != Some(id) then Down(l) else Bump(l)), lock)
    case SetHolder(l) => (me.(pc := SetCount(l)), lock.(holder := Some(id)))
    case SetCount(l) => (Returned(me, l, 1), lock.(repeat := 1))
    case Bump(l) => (Returned(me, l, me.depth[l] + 1), lock.(repeat := lock.repeat + 1))
    case ReleaseTest(l) => (me.(pc := if lock.repeat > 1 then Drop(l) else ClearHolder(l)), lock)
    case Drop(l) => (Returned(me, l, me.depth[l] - 1), lock.(repeat := lock.repeat - 1))
    case ClearHolder(l) => (me.(pc := ClearCount(l)), lock.(holder := None))
    case ClearCount(l) => (me.(pc := Up(l)), lock.(repeat := 0))
    case Check(l) => (me.(pc := if lock.value == 1 then Idle else Stuck), lock)
    case _ => (me, lock)
  }

  /** The next statement of a lock operation; a sleep call or a task_block that has ended returns. */
  function Statement(k: Kernel): Kernel
    requires Shape(k) && CanContinue(k)
  {
    var me := Me(k);
    if LockOf(me.pc).None? then SetPc(k, Idle) else
    var l := me.pc.l;
    if me.pc.Down? || me.pc.Retry? then SemaDown(k, l)
    else if me.pc.Up? then SemaUp(k, l)
    else if me.pc.Take? then TakeToken(k, l)
    else if me.pc.Give? then GiveToken(k, l, Check(l))
    else
      var (me', lock') := LockStatement(k.current, me, k.locks[l]);
      SetMe(SetLock(k, l, lock'), me')
  }

  function LockOf(pc: Pc): Option<nat> {
    match pc
    case Idle => None
    case Spin => None
    case Parked => None
    case Stuck => None
    case _ => Some(pc.l)
  }

  /** A blocking sema_down needs another task to run; a sleep call spins until its flag is cleared. A token is
      taken only if it is there: KernelCheck says exactly when it is not. */
  ghost predicate CanContinue(k: Kernel)
    requires Shape(k)
  {
    var me := Me(k);
    && me.pc != Idle && me.pc != Stuck
    && (me.pc.Take? ==> me.pc.l < |k.locks| && k.locks[me.pc.l].value >= 1)
    && (LockOf(me.pc).Some? ==> me.pc.l < |k.locks|)
    && (me.pc.Down? || me.pc.Retry? ==> k.locks[me.pc.l].value == 0 ==> k.ready != [])
    && (me.pc.Drop? ==> k.locks[me.pc.l].repeat >= 1 && me.depth[me.pc.l] >= 1)
    && (me.pc == Spin ==> !me.collaborative)
  }

  // ---- timer.c: the handler ----

  /** The tasks that the callbacks in the log put back on the ready list. */
  function Woken(log: seq<Firing>): seq<TaskId> {
    if log == [] then [] else
    Woken(log[..|log| - 1]) +
    match log[|log| - 1].timer.callback
    case Wake(t) => [t]
    case Other(_) => []
  }

  /** collaborative_schedule_helper. */
  function WakeUp(k: Kernel, t: TaskId): Kernel
    requires t in k.tasks
  {
    var task := k.tasks[t];
    k.(ready := k.ready + [t],
       tasks := k.tasks[t := task.(status := READY, ticks := task.priority, collaborative := false, sleepMs := 0)])
  }

  function WakeUpAll(k: Kernel, ts: seq<TaskId>): (r: Kernel)
    requires forall t | t in ts :: t in k.tasks
    ensures r.tasks.Keys == k.tasks.Keys
  {
    if ts == [] then k else WakeUp(WakeUpAll(k, ts[..|ts| - 1]), ts[|ts| - 1])
  }

  /** The part of the handler before it looks at the current task: run_timer and its callbacks. */
  function AfterTimers(g: nat, k: Kernel, now: nat): Kernel
    requires g >= 1 && Shape(k) && forall t | t in Woken(RunLog(g, k.wheel, now)) :: t in k.tasks
  {
    WakeUpAll(k.(wheel := Run(g, k.wheel, now)), Woken(RunLog(g, k.wheel, now)))
  }

  /** create_timer, with the next free number. */
  function AddTimer(g: nat, k: Kernel, due: nat, period: nat, cb: Callback): Kernel
    requires g >= 1 && |k.wheel.cells| == SLOTS
  {
    k.(wheel := Create(g, k.wheel, k.nextTimer, due, period, cb), nextTimer := k.nextTimer + 1)
  }

  /** The rest of the handler: preempt, use up a tick, or put the current task to sleep. */
  function AfterTick(g: nat, k: Kernel): Kernel
    requires g >= 1 && Shape(k) && (Me(k).collaborative ==> k.ready != [])
  {
    var me := Me(k);
    if !me.collaborative && me.ticks == 0 then Schedule(k)
    else if !me.collaborative then SetMe(k, me.(ticks := me.ticks - 1))
    else Dispatch(AddTimer(g, k, me.sleepMs, 0, Wake(k.current)))
  }

  /** interrupt_timer_handler. */
  function TimerHandler(g: nat, k: Kernel, now: nat): Kernel
    requires g >= 1 && CanHandle(g, k, now)
  {
    AfterTick(g, AfterTimers(g, k, now))
  }

  ghost predicate CanHandle(g: nat, k: Kernel, now: nat)
    requires g >= 1
  {
    && Shape(k)
    && (forall t | t in Woken(RunLog(g, k.wheel, now)) :: t in k.tasks)
    && var k1 := AfterTimers(g, k, now); Shape(k1) && (Me(k1).collaborative ==> k1.ready != [])
  }

  // ---- Steps ----

  /** The current task executes ordinary code, so it may make the calls below. */
  predicate Free(k: Kernel)
    requires k.current in k.tasks
  {
    Me(k).pc == Idle
  }

  /** What a step needs: callers that match their releases with acquisitions, a ready task for every
      dispatch, and a clock that does not wrap round. */
  ghost predicate CanStep(g: nat, k: Kernel, a: Action)
    requires g >= 1 && Shape(k)
  {
    match a
    case CallAcquire(l) => Free(k) && l < |k.locks|
    case CallRelease(l) => Free(k) && l < |k.locks| && Me(k).depth[l] >= 1
    case Continue => CanContinue(k)
    case Handler(now) =>
      && now < WORD - 1 && Fits(k.wheel, now)
      && (Me(k).collaborative ==> k.ready + Woken(RunLog(g, k.wheel, now)) != [])
      && (Me(k).collaborative ==> (if k.wheel.jiffies <= now then now + 1 else k.wheel.jiffies) + Me(k).sleepMs < WORD)
    case Start(id, priority) => Free(k) && id !in k.tasks
    case Exit => Free(k) && k.ready != [] && forall l: nat | l < |k.locks| :: Me(k).depth[l] == 0
    case BlockSelf(s) => Free(k) && Halted(s) && k.ready != []
    case Unblock(t) => Free(k) && t in k.tasks && k.tasks[t].pc == Parked && Halted(k.tasks[t].status)
    case Sleep(ms) => Free(k) && ms < WORD
    case CreateTimer(due, period, _) => Free(k) && k.wheel.jiffies + due < WORD
    case DeleteTimer(slot, pos) =>
      Free(k) && slot < SLOTS && pos < |k.wheel.cells[slot]| && k.wheel.cells[slot][pos].callback.Other?
  }
}
