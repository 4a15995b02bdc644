/** Runs from the initial state in which signals do harm: a wake-up is lost, the last assertion of sema_up fails,
    and a token is gone between the test and the taking. Tasks 1 and 2, whose time slices are always used up,
    compete for lock 0; the main task 0 has blocked itself. */
module KernelWitness {
  import opened TimerWheel
  import opened TimerRefinement
  import opened Kernel
  import opened KernelLocks
  import opened KernelRuns
  import opened KernelSafety
  import opened KernelWakeUps
  import opened KernelPaused
  import opened KernelCheck

  // ---- A wheel without timers ----

  lemma EmptyCascade(g: nat, j: nat, l: Level)
    requires g >= 1
    ensures Cascade(g, j, EmptyCells(SLOTS), l) == EmptyCells(SLOTS)
  {
    var cells, c := EmptyCells(SLOTS), Slot(l, j);
    assert cells[c] == [] && cells[c := []] == cells;
    InsertAllNone(g, j, cells);
  }

  lemma EmptyTick(g: nat, j: nat)
    requires g >= 1
    ensures Fired(g, Wheel(j, EmptyCells(SLOTS))) == []
    ensures Tick(g, Wheel(j, EmptyCells(SLOTS))) == Wheel(j + 1, EmptyCells(SLOTS))
  {
    hide Slot, Cascade, EmptyCells;
    EmptyCascades(g, j);
    EmptyAt(Slot(1, j));
    RearmNone(g, j, EmptyCells(SLOTS));
  }

  lemma EmptyAt(c: nat)
    requires c < SLOTS
    ensures EmptyCells(SLOTS)[c] == [] && EmptyCells(SLOTS)[c := []] == EmptyCells(SLOTS)
  {
  }

  lemma EmptyCascades(g: nat, j: nat)
    requires g >= 1
    ensures Cascades(g, j, EmptyCells(SLOTS)) == EmptyCells(SLOTS)
  {
    hide Cascade, EmptyCells;
    EmptyCascade(g, j, 2);
    EmptyCascade(g, j, 3);
    EmptyCascade(g, j, 4);
    EmptyCascade(g, j, 5);
  }

  /** One millisecond goes by. */
  lemma EmptyRun(g: nat, j: nat)
    requires g >= 1
    ensures RunLog(g, Wheel(j, EmptyCells(SLOTS)), j) == []
    ensures Run(g, Wheel(j, EmptyCells(SLOTS)), j) == Wheel(j + 1, EmptyCells(SLOTS))
  {
    hide Tick, Fired;
    EmptyTick(g, j);
  }

  lemma EmptyFits(now: nat)
    requires now < WORD
    ensures Fits(Wheel(now, EmptyCells(SLOTS)), now)
  {
  }

  // ---- Scenes ----

  datatype Side = Side(status: Status, pc: Pc, depth: nat)

  /** Whose turn it is, who is ready, tasks 1 and 2, the lock, and the time. */
  datatype Scene = Scene(turn: TaskId, ready: seq<TaskId>, one: Side, two: Side, lock: Lock, jiffies: nat)

  function TaskOf(s: Side): Task { Task(s.status, 0, 0, false, 0, s.pc, [s.depth]) }

  function World(s: Scene): Kernel {
    Kernel(false, s.turn, s.ready,
           map[0 := Task(BLOCKED, MAIN_PRIORITY, MAIN_PRIORITY, false, 0, Parked, [0]), 1 := TaskOf(s.one), 2 := TaskOf(s.two)],
           [s.lock], Wheel(s.jiffies, EmptyCells(SLOTS)), 0)
  }

  predicate Fine(s: Scene) {
    && (s.turn == 1 || s.turn == 2) && (s.ready == [] || s.ready == [Other(s)])
    && forall t | t in s.lock.waiters :: t == 1 || t == 2
  }

  function Other(s: Scene): TaskId { if s.turn == 1 then 2 else 1 }

  function Mine(s: Scene): Side { if s.turn == 1 then s.one else s.two }

  function SetMine(s: Scene, side: Side): Scene { if s.turn == 1 then s.(one := side) else s.(two := side) }

  function SetOther(s: Scene, status: Status): Scene {
    if s.turn == 1 then s.(two := s.two.(status := status)) else s.(one := s.one.(status := status))
  }

  /** The other task gets the processor, and this one is left with `status`. */
  function Turned(s: Scene, status: Status): Scene {
    SetOther(SetMine(s, Mine(s).(status := status)), RUNNING).(turn := Other(s), ready := if status == READY then [s.turn] else [])
  }

  /** The steps that the runs below consist of. */
  predicate Playable(s: Scene, a: Action) {
    Fine(s) &&
    match a
    case CallAcquire(l) => l == 0 && Mine(s).pc == Idle
    case CallRelease(l) => l == 0 && Mine(s).pc == Idle && Mine(s).depth == 1
    case Handler(now) => now == s.jiffies < WORD - 1 && s.ready != []
    case Continue =>
      var pc := Mine(s).pc;
      && LockOf(pc) == Some(0) && !pc.Drop? && !pc.Bump?
      && (pc.Down? || pc.Retry? ==> s.lock.value == 0 ==> s.ready != [] && s.lock.waiters == [])
      && (pc.Take? ==> s.lock.value >= 1)
      && (pc.Up? ==> s.lock.waiters == [Other(s)] && s.ready == [])
    case _ => false
  }

  function Play(s: Scene, a: Action): Scene
    requires Playable(s, a)
  {
    var me, lock := Mine(s), s.lock;
    match a
    case CallAcquire(_) => SetMine(s, me.(pc := AcquireTest(0)))
    case CallRelease(_) => SetMine(s, me.(pc := ReleaseTest(0)))
    case Handler(_) => Turned(s, READY).(jiffies := s.jiffies + 1)
    case Continue =>
      if (me.pc.Down? || me.pc.Retry?) && lock.value == 0 then
        Turned(SetMine(s, me.(pc := Retry(0))).(lock := lock.(waiters := [s.turn])), BLOCKED)
      else if me.pc.Retry? then SetMine(s, me.(pc := Take(0)))
      else if me.pc.Down? || me.pc.Take? then SetMine(s, me.(pc := SetHolder(0))).(lock := lock.(value := lock.value - 1))
      else if me.pc.Up? then
        SetOther(SetMine(s, me.(pc := Give(0))), READY).(ready := [Other(s)], lock := lock.(waiters := []))
      else if me.pc.Give? then SetMine(s, Side(me.status, Check(0), 0)).(lock := lock.(value := lock.value + 1))
      else
        var (t, lock') := LockStatement(s.turn, TaskOf(me), lock);
        SetMine(s, Side(t.status, t.pc, t.depth[0])).(lock := lock')
    case _ => s
  }

  // ---- Every play is a step ----

  ghost predicate StepIs(g: nat, k: Kernel, a: Action, k': Kernel)
    requires g >= 1
  {
    Shape(k) && CanStep(g, k, a) && Defined(g, k, a) && k' == Apply(g, k, a)
  }

  lemma WorldShape(s: Scene)
    requires Fine(s)
    ensures Shape(World(s)) && Me(World(s)) == TaskOf(Mine(s))
  {
    hide EmptyCells;
  }

  /** A step that changes the current task and the lock. */
  lemma Moves(s: Scene, side: Side, lock: Lock)
    requires Fine(s)
    ensures SetMe(SetLock(World(s), 0, lock), TaskOf(side)) == World(SetMine(s, side).(lock := lock))
    ensures SetMe(World(s), TaskOf(side)) == World(SetMine(s, side))
  {
    hide EmptyCells;
  }

  lemma DispatchTurns(s: Scene, status: Status)
    requires Fine(s) && s.ready == [Other(s)] && status != READY
    ensures var k := World(SetMine(s, Mine(s).(status := status)));
            k.ready[0] in k.tasks && Dispatch(k) == World(Turned(s, status))
  {
    hide EmptyCells;
  }

  lemma ScheduleTurns(s: Scene)
    requires Fine(s) && s.ready == [Other(s)]
    ensures Shape(World(s)) && Schedule(World(s)) == World(Turned(s, READY))
  {
    hide EmptyCells;
    WorldShape(s);
    assert ([Other(s)] + [s.turn])[1..] == [s.turn];
  }

  lemma HandlerPlays(g: nat, s: Scene)
    requires g >= 1 && Playable(s, Handler(s.jiffies))
    ensures StepIs(g, World(s), Handler(s.jiffies), World(Play(s, Handler(s.jiffies))))
  {
    var k, s' := World(s), s.(jiffies := s.jiffies + 1);
    WorldShape(s);
    EmptyRun(g, s.jiffies);
    EmptyFits(s.jiffies);
    hide Run, RunLog, EmptyCells, Fits, Shape;
    assert Woken([]) == [];
    assert AfterTimers(g, k, s.jiffies) == World(s');
    WorldShape(s');
    ScheduleTurns(s');
  }

  lemma CallPlays(g: nat, s: Scene, a: Action)
    requires g >= 1 && Playable(s, a) && (a.CallAcquire? || a.CallRelease?)
    ensures StepIs(g, World(s), a, World(Play(s, a)))
  {
    hide EmptyCells, Shape;
    WorldShape(s);
    Moves(s, Mine(s).(pc := if a.CallAcquire? then AcquireTest(0) else ReleaseTest(0)), s.lock);
  }

  lemma SingleDepth(d: nat, e: nat)
    ensures [d][0 := e] == [e]
  {
  }

  lemma WaitPlays(s: Scene)
    requires Playable(s, Continue) && (Mine(s).pc.Down? || Mine(s).pc.Retry?) && s.lock.value == 0
    ensures CanContinue(World(s)) && Statement(World(s)) == World(Play(s, Continue))
  {
    hide EmptyCells, Dispatch;
    WorldShape(s);
    var lock := s.lock.(waiters := [s.turn]);
    var s1 := SetMine(s, Mine(s).(pc := Retry(0))).(lock := lock);
    assert [] + [s.turn] == [s.turn];
    Moves(s, Mine(s).(status := BLOCKED, pc := Retry(0)), lock);
    DispatchTurns(s1, BLOCKED);
  }

  lemma WakePlays(s: Scene)
    requires Playable(s, Continue) && Mine(s).pc.Up?
    ensures CanContinue(World(s)) && Statement(World(s)) == World(Play(s, Continue))
  {
    hide EmptyCells;
    WorldShape(s);
    assert [Other(s)] + [] == [Other(s)];
    var s1 := SetOther(s, READY).(ready := [Other(s)], lock := s.lock.(waiters := []));
    assert WakeFirst(World(s), 0) == World(s1);
    Moves(s1, Mine(s).(pc := Give(0)), s1.lock);
  }

  /** Where a step changes the current task and the lock only. */
  lemma MineAfter(s: Scene)
    requires Playable(s, Continue) && !Mine(s).pc.Up? && ((Mine(s).pc.Down? || Mine(s).pc.Retry?) ==> s.lock.value != 0)
    ensures var s' := Play(s, Continue); s' == SetMine(s, Mine(s')).(lock := s'.lock)
  {
    hide LockStatement;
  }

  lemma LockPlays(s: Scene)
    requires Playable(s, Continue) && Plain(Mine(s).pc)
    ensures var s', k := Play(s, Continue), World(s);
            CanContinue(k) && Statement(k) == SetMe(SetLock(k, 0, s'.lock), TaskOf(Mine(s')))
  {
    hide EmptyCells;
    WorldShape(s);
    SingleDepth(Mine(s).depth, 0);
    SingleDepth(Mine(s).depth, 1);
  }

  lemma TokenPlays(s: Scene)
    requires Playable(s, Continue) && !Plain(Mine(s).pc) && !Mine(s).pc.Up?
    requires (Mine(s).pc.Down? || Mine(s).pc.Retry?) ==> s.lock.value != 0
    ensures var s', k := Play(s, Continue), World(s);
            CanContinue(k) && Statement(k) == SetMe(SetLock(k, 0, s'.lock), TaskOf(Mine(s')))
  {
    hide EmptyCells, LockStatement;
    WorldShape(s);
    SingleDepth(Mine(s).depth, 0);
    SameLock(World(s));
  }

  lemma SameLock(k: Kernel)
    requires |k.locks| == 1
    ensures SetLock(k, 0, k.locks[0]) == k
  {
  }

  lemma OwnPlays(s: Scene)
    requires Playable(s, Continue) && !Mine(s).pc.Up? && ((Mine(s).pc.Down? || Mine(s).pc.Retry?) ==> s.lock.value != 0)
    ensures CanContinue(World(s)) && Statement(World(s)) == World(Play(s, Continue))
  {
    MineAfter(s);
    var s' := Play(s, Continue);
    hide World, Statement, CanContinue, Play;
    if Plain(Mine(s).pc) { LockPlays(s); } else { TokenPlays(s); }
    Moves(s, Mine(s'), s'.lock);
  }

  lemma PlayIs(g: nat, s: Scene, a: Action)
    requires g >= 1 && Playable(s, a)
    ensures StepIs(g, World(s), a, World(Play(s, a)))
  {
    hide World, Statement, Shape, CanContinue;
    WorldShape(s);
    match a
    case Handler(now) => HandlerPlays(g, s);
    case CallAcquire(_) => CallPlays(g, s, a);
    case CallRelease(_) => CallPlays(g, s, a);
    case Continue =>
      if Mine(s).pc.Up? { WakePlays(s); }
      else if (Mine(s).pc.Down? || Mine(s).pc.Retry?) && s.lock.value == 0 { WaitPlays(s); }
      else { OwnPlays(s); }
    case _ =>
  }

  // ---- The runs ----

  /** Task 1 takes the lock, task 2 preempts it and waits, and task 1 releases the lock, as far as waking task 2. */
  function Prologue(n: nat): Scene {
    var free, taken := Lock(None, 0, 1, []), Lock(Some(1), 1, 0, []);
    var ready, blocked := Side(READY, Idle, 0), Side(BLOCKED, Retry(0), 0);
    match n
    case 0 => Scene(1, [2], Side(RUNNING, Idle, 0), ready, free, 0)
    case 1 => Scene(1, [2], Side(RUNNING, AcquireTest(0), 0), ready, free, 0)
    case 2 => Scene(1, [2], Side(RUNNING, Down(0), 0), ready, free, 0)
    case 3 => Scene(1, [2], Side(RUNNING, SetHolder(0), 0), ready, Lock(None, 0, 0, []), 0)
    case 4 => Scene(1, [2], Side(RUNNING, SetCount(0), 0), ready, Lock(Some(1), 0, 0, []), 0)
    case 5 => Scene(1, [2], Side(RUNNING, Idle, 1), ready, taken, 0)
    case 6 => Scene(2, [1], Side(READY, Idle, 1), Side(RUNNING, Idle, 0), taken, 1)
    case 7 => Scene(2, [1], Side(READY, Idle, 1), Side(RUNNING, AcquireTest(0), 0), taken, 1)
    case 8 => Scene(2, [1], Side(READY, Idle, 1), Side(RUNNING, Down(0), 0), taken, 1)
    case 9 => Scene(1, [], Side(RUNNING, Idle, 1), blocked, taken.(waiters := [2]), 1)
    case 10 => Scene(1, [], Side(RUNNING, ReleaseTest(0), 1), blocked, taken.(waiters := [2]), 1)
    case 11 => Scene(1, [], Side(RUNNING, ClearHolder(0), 1), blocked, taken.(waiters := [2]), 1)
    case 12 => Scene(1, [], Side(RUNNING, ClearCount(0), 1), blocked, Lock(None, 1, 0, [2]), 1)
    case 13 => Scene(1, [], Side(RUNNING, Up(0), 1), blocked, Lock(None, 0, 0, [2]), 1)
    case _ => Scene(1, [2], Side(RUNNING, Give(0), 1), Side(READY, Retry(0), 0), Lock(None, 0, 0, []), 1)
  }

  function PrologueStep(n: nat): Action {
    if n == 0 || n == 6 then CallAcquire(0) else if n == 5 then Handler(0) else if n == 9 then CallRelease(0) else Continue
  }

  /** A signal before the increment: task 2 retries in vain, and then nobody wakes it. */
  function Lost(n: nat): Scene {
    match n
    case 15 => Scene(2, [1], Side(READY, Give(0), 1), Side(RUNNING, Retry(0), 0), Lock(None, 0, 0, []), 2)
    case 16 => Scene(1, [], Side(RUNNING, Give(0), 1), Side(BLOCKED, Retry(0), 0), Lock(None, 0, 0, [2]), 2)
    case 17 => Scene(1, [], Side(RUNNING, Check(0), 0), Side(BLOCKED, Retry(0), 0), Lock(None, 0, 1, [2]), 2)
    case _ => Prologue(n)
  }

  function LostStep(n: nat): Action { if n == 14 then Handler(1) else if n < 14 then PrologueStep(n) else Continue }

  /** A signal before the assertion: task 2 takes the token, and task 1 comes back to find none. */
  function Failed(n: nat): Scene {
    match n
    case 15 => Scene(1, [2], Side(RUNNING, Check(0), 0), Side(READY, Retry(0), 0), Lock(None, 0, 1, []), 1)
    case 16 => Scene(2, [1], Side(READY, Check(0), 0), Side(RUNNING, Retry(0), 0), Lock(None, 0, 1, []), 2)
    case 17 => Scene(2, [1], Side(READY, Check(0), 0), Side(RUNNING, Take(0), 0), Lock(None, 0, 1, []), 2)
    case 18 => Scene(2, [1], Side(READY, Check(0), 0), Side(RUNNING, SetHolder(0), 0), Lock(None, 0, 0, []), 2)
    case 19 => Scene(1, [2], Side(RUNNING, Check(0), 0), Side(READY, SetHolder(0), 0), Lock(None, 0, 0, []), 3)
    case 20 => Scene(1, [2], Side(RUNNING, Stuck, 0), Side(READY, SetHolder(0), 0), Lock(None, 0, 0, []), 3)
    case _ => Prologue(n)
  }

  function FailedStep(n: nat): Action {
    if n == 15 then Handler(1) else if n == 18 then Handler(2) else if n < 14 then PrologueStep(n) else Continue
  }

  /** A signal between the test and the taking: task 1 takes the token that task 2 has seen. */
  function Gone(n: nat): Scene {
    var free := Lock(None, 0, 1, []);
    match n
    case 15 => Failed(15)
    case 16 => Scene(1, [2], Side(RUNNING, Idle, 0), Side(READY, Retry(0), 0), free, 1)
    case 17 => Scene(1, [2], Side(RUNNING, AcquireTest(0), 0), Side(READY, Retry(0), 0), free, 1)
    case 18 => Scene(1, [2], Side(RUNNING, Down(0), 0), Side(READY, Retry(0), 0), free, 1)
    case 19 => Scene(2, [1], Side(READY, Down(0), 0), Side(RUNNING, Retry(0), 0), free, 2)
    case 20 => Scene(2, [1], Side(READY, Down(0), 0), Side(RUNNING, Take(0), 0), free, 2)
    case 21 => Scene(1, [2], Side(RUNNING, Down(0), 0), Side(READY, Take(0), 0), free, 3)
    case 22 => Scene(1, [2], Side(RUNNING, SetHolder(0), 0), Side(READY, Take(0), 0), Lock(None, 0, 0, []), 3)
    case 23 => Scene(2, [1], Side(READY, SetHolder(0), 0), Side(RUNNING, Take(0), 0), Lock(None, 0, 0, []), 4)
    case _ => Prologue(n)
  }

  function GoneStep(n: nat): Action {
    if n == 16 then CallAcquire(0) else if n == 18 then Handler(1) else if n == 20 then Handler(2)
    else if n == 22 then Handler(3) else if n < 14 then PrologueStep(n) else Continue
  }

  lemma PrologueIs(n: nat)
    requires n < 14
    ensures Playable(Prologue(n), PrologueStep(n)) && Play(Prologue(n), PrologueStep(n)) == Prologue(n + 1)
  {
    hide Play, Playable, Prologue, PrologueStep;
    if n < 7 { Acquires(n); } else if n < 10 { Waits(n); } else { Releases(n); }
  }

  lemma Acquires(n: nat)
    requires n < 7
    ensures Playable(Prologue(n), PrologueStep(n)) && Play(Prologue(n), PrologueStep(n)) == Prologue(n + 1)
  {
  }

  lemma Waits(n: nat)
    requires 7 <= n < 10
    ensures Playable(Prologue(n), PrologueStep(n)) && Play(Prologue(n), PrologueStep(n)) == Prologue(n + 1)
  {
  }

  lemma Releases(n: nat)
    requires 10 <= n < 14
    ensures Playable(Prologue(n), PrologueStep(n)) && Play(Prologue(n), PrologueStep(n)) == Prologue(n + 1)
  {
  }

  lemma LostIs(n: nat)
    requires n < 17
    ensures Playable(Lost(n), LostStep(n)) && Play(Lost(n), LostStep(n)) == Lost(n + 1)
  {
    hide Play, Playable, Prologue, PrologueStep, Lost, LostStep;
    if n < 14 {
      LostBegins(n);
      PrologueIs(n);
    } else {
      LostTail(n);
    }
  }

  lemma LostBegins(n: nat)
    requires n < 14
    ensures Lost(n) == Prologue(n) && Lost(n + 1) == Prologue(n + 1) && LostStep(n) == PrologueStep(n)
  {
    hide Prologue, PrologueStep;
  }

  lemma LostTail(n: nat)
    requires 14 <= n < 17
    ensures Playable(Lost(n), LostStep(n)) && Play(Lost(n), LostStep(n)) == Lost(n + 1)
  {
  }

  lemma FailedIs(n: nat)
    requires n < 20
    ensures Playable(Failed(n), FailedStep(n)) && Play(Failed(n), FailedStep(n)) == Failed(n + 1)
  {
    hide Play, Playable, Prologue, PrologueStep, Failed, FailedStep;
    if n < 14 {
      FailedBegins(n);
      PrologueIs(n);
    } else {
      if n < 17 { FailedMiddle(n); } else { FailedTail(n); }
    }
  }

  lemma FailedBegins(n: nat)
    requires n < 14
    ensures Failed(n) == Prologue(n) && Failed(n + 1) == Prologue(n + 1) && FailedStep(n) == PrologueStep(n)
  {
    hide Prologue, PrologueStep;
  }

  lemma FailedMiddle(n: nat)
    requires 14 <= n < 17
    ensures Playable(Failed(n), FailedStep(n)) && Play(Failed(n), FailedStep(n)) == Failed(n + 1)
  {
  }

  lemma FailedTail(n: nat)
    requires 17 <= n < 20
    ensures Playable(Failed(n), FailedStep(n)) && Play(Failed(n), FailedStep(n)) == Failed(n + 1)
  {
  }

  lemma GoneIs(n: nat)
    requires n < 23
    ensures Playable(Gone(n), GoneStep(n)) && Play(Gone(n), GoneStep(n)) == Gone(n + 1)
  {
    hide Play, Playable, Prologue, PrologueStep, Gone, GoneStep;
    if n < 14 {
      GoneBegins(n);
      PrologueIs(n);
    } else {
      if n < 19 { GoneMiddle(n); } else { GoneTail(n); }
    }
  }

  lemma GoneBegins(n: nat)
    requires n < 14
    ensures Gone(n) == Prologue(n) && Gone(n + 1) == Prologue(n + 1) && GoneStep(n) == PrologueStep(n)
  {
    hide Prologue, PrologueStep;
  }

  lemma GoneMiddle(n: nat)
    requires 14 <= n < 19
    ensures Playable(Gone(n), GoneStep(n)) && Play(Gone(n), GoneStep(n)) == Gone(n + 1)
  {
  }

  lemma GoneTail(n: nat)
    requires 19 <= n < 23
    ensures Playable(Gone(n), GoneStep(n)) && Play(Gone(n), GoneStep(n)) == Gone(n + 1)
  {
  }

  /** The main task alone, with task 1, and with both. */
  function Opening(n: nat): Kernel {
    var main := Task(RUNNING, MAIN_PRIORITY, MAIN_PRIORITY, false, 0, Idle, [0]);
    var started := TaskOf(Side(READY, Idle, 0));
    var tasks := if n == 0 then map[0 := main] else if n == 1 then map[0 := main, 1 := started] else map[0 := main, 1 := started, 2 := started];
    Kernel(false, 0, if n == 0 then [] else if n == 1 then [1] else [1, 2], tasks,
           [Lock(None, 0, 1, [])], Wheel(0, EmptyCells(SLOTS)), 0)
  }

  lemma Opens()
    ensures Initial(Opening(0)) && !Opening(0).nests
  {
    hide EmptyCells;
    assert seq(1, _ => 0) == [0];
  }

  lemma Starts(g: nat, n: nat)
    requires g >= 1 && n < 2
    ensures StepIs(g, Opening(n), Start(n + 1, 0), Opening(n + 1))
  {
    if n == 0 { StartsOne(g); } else { StartsTwo(g); }
  }

  lemma StartsOne(g: nat)
    requires g >= 1
    ensures StepIs(g, Opening(0), Start(1, 0), Opening(1))
  {
    hide EmptyCells;
    assert seq(1, _ => 0) == [0];
    assert Opening(1).tasks == Opening(0).tasks[1 := TaskOf(Side(READY, Idle, 0))];
  }

  lemma StartsTwo(g: nat)
    requires g >= 1
    ensures StepIs(g, Opening(1), Start(2, 0), Opening(2))
  {
    hide EmptyCells;
    assert seq(1, _ => 0) == [0] && [1] + [2] == [1, 2];
    assert Opening(2).tasks == Opening(1).tasks[2 := TaskOf(Side(READY, Idle, 0))];
  }

  lemma Leaves(g: nat)
    requires g >= 1
    ensures StepIs(g, Opening(2), BlockSelf(BLOCKED), World(Prologue(0)))
  {
    hide EmptyCells;
    assert Opening(2).ready[1..] == [2];
  }

  /** A play as a run. */
  lemma RunOf(g: nat, scenes: nat -> Scene, steps: nat -> Action, n: nat) returns (ks: seq<Kernel>, acts: seq<Action>)
    requires g >= 1 && scenes(0) == Prologue(0)
    requires forall i: nat | i < n :: Playable(scenes(i), steps(i)) && Play(scenes(i), steps(i)) == scenes(i + 1)
    ensures |acts| == n + 3 && IsRun(g, ks, acts) && !ks[0].nests
    ensures forall i | 3 <= i <= n + 3 :: ks[i] == World(scenes(i - 3))
    ensures forall i | 3 <= i < n + 3 :: acts[i] == steps(i - 3)
  {
    hide Playable, Play, World, Opening, Prologue, Initial, Shape, CanStep, Defined, Apply;
    ks := seq(n + 4, i requires 0 <= i <= n + 3 => if i < 3 then Opening(i) else World(scenes(i - 3)));
    acts := seq(n + 3, i requires 0 <= i < n + 3 => if i < 2 then Start(i + 1, 0) else if i == 2 then BlockSelf(BLOCKED) else steps(i - 3));
    Opens();
    forall i | 0 <= i < |acts|
      ensures Shape(ks[i]) && CanStep(g, ks[i], acts[i]) && Defined(g, ks[i], acts[i]) && ks[i + 1] == Apply(g, ks[i], acts[i])
    {
      if i < 2 { Starts(g, i); } else if i == 2 { Leaves(g); } else { PlayIs(g, scenes(i - 3), steps(i - 3)); }
    }
  }

  /** For every granularity there is a run that loses a wake-up. */
  lemma AWakeUpIsLost(g: nat) returns (ks: seq<Kernel>, acts: seq<Action>)
    requires g >= 1
    ensures IsRun(g, ks, acts) && |acts| == 20 && InterruptedUp(ks, acts, 16, 19, 0)
    ensures |ks[20].locks| == 1 && !WakeUpPending(ks[20], 0)
  {
    hide Playable, Play, World, Initial, IsRun, InterruptedUp, WakeUpPending;
    LostBegins(0);
    hide Lost, LostStep;
    forall n: nat | n < 17 ensures Playable(Lost(n), LostStep(n)) && Play(Lost(n), LostStep(n)) == Lost(n + 1) {
      LostIs(n);
    }
    ks, acts := RunOf(g, (n: nat) => Lost(n), (n: nat) => LostStep(n), 17);
    RunLength(g, ks, acts);
    assert ks[16] == World(Lost(13)) && ks[17] == World(Lost(14)) && ks[18] == World(Lost(15)) && ks[19] == World(Lost(16));
    assert ks[20] == World(Lost(17));
    assert acts[16] == LostStep(13) && acts[17] == LostStep(14) && acts[18] == LostStep(15) && acts[19] == LostStep(16);
    LostEnds(ks, acts);
  }

  lemma LostEnds(ks: seq<Kernel>, acts: seq<Action>)
    requires |ks| == |acts| + 1 && |acts| == 20
    requires ks[16] == World(Lost(13)) && ks[17] == World(Lost(14)) && ks[18] == World(Lost(15)) && ks[19] == World(Lost(16))
    requires ks[20] == World(Lost(17))
    requires acts[16] == LostStep(13) && acts[17] == LostStep(14) && acts[18] == LostStep(15) && acts[19] == LostStep(16)
    ensures InterruptedUp(ks, acts, 16, 19, 0) && |ks[20].locks| == 1 && !WakeUpPending(ks[20], 0)
  {
    hide EmptyCells;
    forall m | 17 <= m < 19 ensures !(acts[m] == Continue && ks[m].current == ks[16].current) {
      assert m == 17 || m == 18;
    }
  }

  lemma FailedRun(g: nat) returns (ks: seq<Kernel>, acts: seq<Action>)
    requires g >= 1
    ensures IsRun(g, ks, acts) && |acts| == 23 && |ks| == 24
    ensures forall i | 3 <= i <= 23 :: ks[i] == World(Failed(i - 3))
    ensures forall i | 3 <= i < 23 :: acts[i] == FailedStep(i - 3)
  {
    hide Playable, Play, World, Initial, IsRun;
    FailedBegins(0);
    hide Failed, FailedStep;
    forall n: nat | n < 20 ensures Playable(Failed(n), FailedStep(n)) && Play(Failed(n), FailedStep(n)) == Failed(n + 1) {
      FailedIs(n);
    }
    ks, acts := RunOf(g, (n: nat) => Failed(n), (n: nat) => FailedStep(n), 20);
    RunLength(g, ks, acts);
  }

  /** For every granularity there is a run in which a signal makes the last assertion of sema_up fail. */
  lemma ACheckFails(g: nat) returns (ks: seq<Kernel>, acts: seq<Action>)
    requires g >= 1
    ensures IsRun(g, ks, acts) && |acts| == 23 && SignalBeforeCheck(ks, acts, 16, 22, 0)
    ensures |ks[22].locks| == 1 && ks[22].current in ks[22].tasks && Me(ks[22]).pc == Check(0) && ks[22].locks[0].value == 0
    ensures ks[23].current in ks[23].tasks && Me(ks[23]).pc == Stuck
  {
    hide World, IsRun, SignalBeforeCheck, Failed, FailedStep;
    ks, acts := FailedRun(g);
    FailedEnds(ks, acts);
  }

  lemma FailedEnds(ks: seq<Kernel>, acts: seq<Action>)
    requires |ks| == |acts| + 1 && |acts| == 23
    requires ks[16] == World(Failed(13)) && ks[17] == World(Failed(14)) && ks[18] == World(Failed(15)) && ks[19] == World(Failed(16))
    requires ks[20] == World(Failed(17)) && ks[21] == World(Failed(18)) && ks[22] == World(Failed(19)) && ks[23] == World(Failed(20))
    requires acts[16] == FailedStep(13) && acts[17] == FailedStep(14) && acts[18] == FailedStep(15) && acts[19] == FailedStep(16)
    requires acts[20] == FailedStep(17) && acts[21] == FailedStep(18) && acts[22] == FailedStep(19)
    ensures SignalBeforeCheck(ks, acts, 16, 22, 0)
    ensures |ks[22].locks| == 1 && ks[22].current in ks[22].tasks && Me(ks[22]).pc == Check(0) && ks[22].locks[0].value == 0
    ensures ks[23].current in ks[23].tasks && Me(ks[23]).pc == Stuck
  {
    hide EmptyCells;
    forall m | 18 <= m < 22 ensures !(acts[m] == Continue && ks[m].current == ks[16].current) {
      assert m == 18 || m == 19 || m == 20 || m == 21;
    }
    assert !GivesAt(ks, acts, 21, 0);
  }

  /** For every granularity there is a run in which a task has passed the test of sema_down, and the token is gone
      when it comes to take it. */
  lemma ATokenIsGone(g: nat) returns (ks: seq<Kernel>, acts: seq<Action>)
    requires g >= 1
    ensures IsRun(g, ks, acts) && |acts| == 26 && acts[22] == Continue && !ks[22].nests && Resumes(ks, acts, 23, 26, 2)
    ensures |ks[22].locks| == 1 && ks[22].current == 2 && 2 in ks[22].tasks && Me(ks[22]).pc == Retry(0) && ks[22].locks[0].value == 1
    ensures |ks[26].locks| == 1 && ks[26].current == 2 && 2 in ks[26].tasks && Me(ks[26]).pc == Take(0) && ks[26].locks[0].value == 0
  {
    hide Playable, Play, World, Initial, IsRun, Resumes;
    GoneBegins(0);
    hide Gone, GoneStep;
    forall n: nat | n < 23 ensures Playable(Gone(n), GoneStep(n)) && Play(Gone(n), GoneStep(n)) == Gone(n + 1) {
      GoneIs(n);
    }
    ks, acts := RunOf(g, (n: nat) => Gone(n), (n: nat) => GoneStep(n), 23);
    RunLength(g, ks, acts);
    assert ks[22] == World(Gone(19)) && ks[23] == World(Gone(20)) && ks[24] == World(Gone(21)) && ks[25] == World(Gone(22));
    assert ks[26] == World(Gone(23));
    assert acts[22] == GoneStep(19) && acts[23] == GoneStep(20) && acts[24] == GoneStep(21) && acts[25] == GoneStep(22);
    GoneEnds(ks, acts);
  }

  lemma GoneEnds(ks: seq<Kernel>, acts: seq<Action>)
    requires |ks| == |acts| + 1 && |acts| == 26
    requires ks[22] == World(Gone(19)) && ks[23] == World(Gone(20)) && ks[24] == World(Gone(21)) && ks[25] == World(Gone(22))
    requires ks[26] == World(Gone(23))
    requires acts[22] == GoneStep(19) && acts[23] == GoneStep(20) && acts[24] == GoneStep(21) && acts[25] == GoneStep(22)
    ensures acts[22] == Continue && !ks[22].nests && Resumes(ks, acts, 23, 26, 2)
    ensures |ks[22].locks| == 1 && ks[22].current == 2 && 2 in ks[22].tasks && Me(ks[22]).pc == Retry(0) && ks[22].locks[0].value == 1
    ensures |ks[26].locks| == 1 && ks[26].current == 2 && 2 in ks[26].tasks && Me(ks[26]).pc == Take(0) && ks[26].locks[0].value == 0
  {
    hide EmptyCells;
    forall m | 23 <= m < 26 ensures !(acts[m] == Continue && ks[m].current == 2) {
      assert m == 23 || m == 24 || m == 25;
    }
  }
}
