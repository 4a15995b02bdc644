/** Acquisitions are counted: what lock_acquire and lock_release amount to over whole runs, and that they end. */
module KernelCounts {
  import opened TimerWheel
  import opened TimerRefinement
  import opened Kernel
  import opened KernelPlaces
  import opened KernelSleep
  import opened KernelLocks
  import opened KernelRuns
  import opened KernelSafety
  import opened KernelWakeUps
  import opened KernelSteps

  predicate Acquiring(pc: Pc, l: nat) {
    LockOf(pc) == Some(l)
    && (pc.AcquireTest? || pc.Down? || pc.Retry? || pc.Take? || pc.SetHolder? || pc.SetCount? || pc.Bump?)
  }

  /** In lock_release, and the release not yet counted. */
  predicate Releasing(pc: Pc, l: nat) {
    LockOf(pc) == Some(l) && (pc.ReleaseTest? || pc.Drop? || pc.ClearHolder? || pc.ClearCount? || pc.Up? || pc.Give?)
  }

  /** The depth, with the call under way counted already. */
  function Net(t: Task, l: nat): int
    requires l < |t.depth|
  {
    t.depth[l] + One(Acquiring(t.pc, l)) - One(Releasing(t.pc, l))
  }

  /** The depth that no call under way takes away. */
  function Firm(t: Task, l: nat): int
    requires l < |t.depth|
  {
    t.depth[l] - One(Releasing(t.pc, l))
  }

  /** The statements to the end of the call, waiting apart. */
  function Left(pc: Pc): nat {
    match pc
    case Idle => 0
    case Stuck => 0
    case Spin => 1
    case Parked => 1
    case AcquireTest(_) => 5
    case Down(_) => 4
    case Retry(_) => 4
    case Take(_) => 3
    case SetHolder(_) => 2
    case SetCount(_) => 1
    case Bump(_) => 1
    case ReleaseTest(_) => 6
    case Drop(_) => 1
    case ClearHolder(_) => 5
    case ClearCount(_) => 4
    case Up(_) => 3
    case Give(_) => 2
    case Check(_) => 1
  }

  // ---- One statement ----

  lemma MineShape(k: Kernel)
    requires Shape(k) && CanContinue(k)
    ensures k.current in Statement(k).tasks && |Statement(k).tasks[k.current].depth| == |Me(k).depth| == |k.locks|
  {
    hide Statement;
    StatementElsewhere(k);
  }

  /** A statement counts nothing twice and forgets nothing, lock by lock. */
  lemma StatementCounts(k: Kernel, l: nat)
    requires Places(k) && LocksOk(k) && CanContinue(k) && l < |k.locks|
    ensures k.current in Statement(k).tasks && |Statement(k).tasks[k.current].depth| == |Me(k).depth| == |k.locks|
    ensures Net(Statement(k).tasks[k.current], l) == Net(Me(k), l) && Firm(Statement(k).tasks[k.current], l) >= Firm(Me(k), l)
  {
    hide Places, LocksOk, Statement, OnlyMine, Owned, Shape;
    ShapeOf(k);
    MineShape(k);
    if LockOf(Me(k).pc) == Some(l) {
      var o := OwnerOf(k, l);
      MyPhase(k, l, o);
      OwnedValue(k, l, o);
      hide LocksOk, Owned;
      PhaseCounts(k, l, o == Some(k.current));
    } else {
      StatementElsewhere(k);
      DepthElsewhere(k, Statement(k), LockOf(Me(k).pc), l);
      LockAfter(k);
    }
  }

  lemma DepthElsewhere(k: Kernel, k': Kernel, m: Option<nat>, l: nat)
    requires k.current in k.tasks && OnlyMine(k, k', m) && m != Some(l) && l < |Me(k).depth|
    ensures k.current in k'.tasks && l < |k'.tasks[k.current].depth| && k'.tasks[k.current].depth[l] == Me(k).depth[l]
  {
  }

  lemma LockAfter(k: Kernel)
    requires Shape(k) && CanContinue(k)
    ensures k.current in Statement(k).tasks && LockOf(Statement(k).tasks[k.current].pc) in {None, LockOf(Me(k).pc)}
  {
    hide Statement, Shape;
    DepthKnown(k);
    if LockOf(Me(k).pc).None? {
      Returns(k);
    } else if Plain(Me(k).pc) {
      PlainTurn(k);
    } else {
      SemaTurns(k, Me(k).pc.l);
    }
  }

  lemma PlainTurn(k: Kernel)
    requires Shape(k) && CanContinue(k) && LockOf(Me(k).pc).Some? && Plain(Me(k).pc)
    ensures Me(k).pc.l < |Me(k).depth| == |k.locks|
    ensures Me(k).pc.Drop? ==> k.locks[Me(k).pc.l].repeat >= 1 && Me(k).depth[Me(k).pc.l] >= 1
    ensures k.current in Statement(k).tasks
    ensures Statement(k).tasks[k.current] == LockStatement(k.current, Me(k), k.locks[Me(k).pc.l]).0
  {
    hide LockStatement;
  }

  /** The statements of sema_down and sema_up, by program counter and depth. */
  ghost predicate SemaTurn(k: Kernel, t: Task, l: nat)
    requires k.current in k.tasks && l < |k.locks| && l < |Me(k).depth|
  {
    var pc := Me(k).pc;
    if (pc.Up? && t.pc == Idle) || pc.Give? then t.depth == Me(k).depth[l := 0] && t.pc == (if pc.Give? then Check(l) else Idle)
    else
      && t.depth == Me(k).depth
      && (pc.Up? ==> t.pc == Give(l))
      && (pc.Take? ==> t.pc == SetHolder(l))
      && (pc.Down? || pc.Retry? ==> if Blocks(k) then t.pc == Retry(l) else t.pc == SetHolder(l) || (pc.Retry? && t.pc == Take(l)))
  }

  lemma SemaTurns(k: Kernel, l: nat)
    requires Shape(k) && CanContinue(k) && l < |k.locks| && LockOf(Me(k).pc) == Some(l) && !Plain(Me(k).pc)
    ensures |Me(k).depth| == |k.locks| && k.current in Statement(k).tasks && SemaTurn(k, Statement(k).tasks[k.current], l)
  {
  }

  lemma PhaseCounts(k: Kernel, l: nat, owner: bool)
    requires Shape(k) && CanContinue(k) && l < |k.locks| && LockOf(Me(k).pc) == Some(l)
    requires if owner then OwnerPhase(Me(k), k.current, k.locks[l], l) else Outside(Me(k), l) && k.locks[l].holder != Some(k.current)
    requires k.current in Statement(k).tasks && |Statement(k).tasks[k.current].depth| == |Me(k).depth| == |k.locks|
    ensures Net(Statement(k).tasks[k.current], l) == Net(Me(k), l) && Firm(Statement(k).tasks[k.current], l) >= Firm(Me(k), l)
  {
    hide Statement, Shape, CanContinue, LockStatement, OwnerPhase, Outside, SemaTurn, Plain, Net, Firm;
    DepthKnown(k);
    if Plain(Me(k).pc) {
      PlainTurn(k);
      PlainCounts(k.current, Me(k), k.locks[l], l, owner);
    } else {
      SemaTurns(k, l);
      SemaCounts(k, Statement(k).tasks[k.current], l, owner);
    }
  }

  lemma PlainCounts(id: TaskId, me: Task, lock: Lock, l: nat, owner: bool)
    requires l < |me.depth| && LockOf(me.pc) == Some(l) && Plain(me.pc)
    requires if owner then OwnerPhase(me, id, lock, l) else Outside(me, l) && lock.holder != Some(id)
    requires me.pc.Drop? ==> lock.repeat >= 1 && me.depth[l] >= 1
    ensures var me' := LockStatement(id, me, lock).0;
            |me'.depth| == |me.depth| && Net(me', l) == Net(me, l) && Firm(me', l) >= Firm(me, l)
  {
  }

  lemma SemaCounts(k: Kernel, t: Task, l: nat, owner: bool)
    requires k.current in k.tasks && l < |k.locks| && l < |Me(k).depth| && LockOf(Me(k).pc) == Some(l) && !Plain(Me(k).pc)
    requires if owner then OwnerPhase(Me(k), k.current, k.locks[l], l) else Outside(Me(k), l)
    requires SemaTurn(k, t, l)
    ensures |t.depth| == |Me(k).depth| && Net(t, l) == Net(Me(k), l) && Firm(t, l) >= Firm(Me(k), l)
  {
  }

  /** A statement brings the end of the call nearer, unless the task has to wait. */
  lemma StatementProgress(k: Kernel)
    requires Shape(k) && CanContinue(k)
    ensures k.current in Statement(k).tasks
    ensures if Blocks(k) then Statement(k).tasks[k.current].pc == Retry(Me(k).pc.l)
            else Left(Statement(k).tasks[k.current].pc) < Left(Me(k).pc)
  {
    hide Statement, Shape;
    DepthKnown(k);
    if LockOf(Me(k).pc).None? {
      Returns(k);
    } else if Plain(Me(k).pc) {
      PlainTurn(k);
    } else {
      SemaTurns(k, Me(k).pc.l);
    }
  }

  lemma DepthKnown(k: Kernel)
    requires Shape(k)
    ensures k.current in k.tasks && |Me(k).depth| == |k.locks|
  {
  }

  /** A sleep call or a task_block that has ended. */
  lemma Returns(k: Kernel)
    requires Shape(k) && CanContinue(k) && LockOf(Me(k).pc).None?
    ensures k.current in Statement(k).tasks && Statement(k).tasks[k.current].pc == Idle
  {
  }

  // ---- One step ----

  predicate Acquires(k: Kernel, a: Action, t: TaskId, l: nat) { k.current == t && a == CallAcquire(l) }

  predicate Releases(k: Kernel, a: Action, t: TaskId, l: nat) { k.current == t && a == CallRelease(l) }

  ghost predicate Counted(k: Kernel, a: Action, t: TaskId, l: nat, was: Task, now: Task)
    requires l < |was.depth| == |now.depth|
  {
    && Net(now, l) == Net(was, l) + One(Acquires(k, a, t, l)) - One(Releases(k, a, t, l))
    && Firm(now, l) >= Firm(was, l) - One(Releases(k, a, t, l))
  }

  lemma StepCounts(g: nat, k: Kernel, a: Action, t: TaskId, l: nat)
    requires g >= 1 && KernelInv(g, k) && CanStep(g, k, a) && Defined(g, k, a) && KernelInv(g, Apply(g, k, a))
    requires l < |k.locks| && t in k.tasks && t in Apply(g, k, a).tasks
    ensures |k.tasks[t].depth| == |k.locks| == |Apply(g, k, a).tasks[t].depth|
    ensures Counted(k, a, t, l, k.tasks[t], Apply(g, k, a).tasks[t])
  {
    hide KernelInv, CanStep, Defined, Apply, Net, Firm, Statement, Places, LocksOk, Shape;
    PlacesOf(g, k);
    PlacesOf(g, Apply(g, k, a));
    StepKeepsCount(g, k, a);
    DepthAt(k, t);
    DepthAt(Apply(g, k, a), t);
    if t != k.current {
      StepOthers(g, k, a, t);
      OtherCounts(k, a, t, l, k.tasks[t], Apply(g, k, a).tasks[t]);
    } else if a == Continue {
      ApplyContinue(g, k);
      LocksOf(g, k);
      StatementCounts(k, l);
    } else {
      StepMine(g, k, a);
      CallCounts(g, k, a, Apply(g, k, a).tasks[t], l);
    }
  }

  lemma OtherCounts(k: Kernel, a: Action, t: TaskId, l: nat, was: Task, now: Task)
    requires t != k.current && l < |was.depth| && now.depth == was.depth && now.pc == was.pc
    ensures Counted(k, a, t, l, was, now)
  {
  }

  lemma DepthAt(k: Kernel, t: TaskId)
    requires Shape(k) && t in k.tasks
    ensures |k.tasks[t].depth| == |k.locks|
  {
  }

  lemma LocksOf(g: nat, k: Kernel)
    requires g >= 1 && KernelInv(g, k)
    ensures Shape(k) && LocksOk(k)
  {
    hide LocksOk;
  }

  lemma CallCounts(g: nat, k: Kernel, a: Action, me': Task, l: nat)
    requires g >= 1 && Shape(k) && CanStep(g, k, a) && a != Continue && MineAfter(k, a, me') && l < |Me(k).depth| == |me'.depth|
    ensures Counted(k, a, k.current, l, Me(k), me')
  {
    hide Shape, Fits, RunLog, Woken;
  }

  // ---- Runs ----

  /** The acquisitions of lock l that task t has called for among the first n steps of a run, less its releases,
      since its task_start. */
  function Balance(ks: seq<Kernel>, acts: seq<Action>, n: nat, t: TaskId, l: nat): int
    requires n <= |acts| <= |ks|
  {
    if n == 0 then 0 else
    var k, a := ks[n - 1], acts[n - 1];
    if a.Start? && a.id == t then 0
    else Balance(ks, acts, n - 1, t, l) + One(Acquires(k, a, t, l)) - One(Releases(k, a, t, l))
  }

  lemma NewTask(g: nat, k: Kernel, a: Action, t: TaskId)
    requires g >= 1 && KernelInv(g, k) && CanStep(g, k, a) && Defined(g, k, a)
    ensures Shape(k)
    ensures t in Apply(g, k, a).tasks ==> t in k.tasks || (a.Start? && a.id == t)
    ensures a.Start? && a.id == t ==>
              && t !in k.tasks && t in Apply(g, k, a).tasks
              && Apply(g, k, a).tasks[t] == Task(READY, a.priority % 256, a.priority % 256, false, 0, Idle, seq(|k.locks|, _ => 0))
  {
    hide KernelInv, Apply, Defined, CanStep;
    PlacesOf(g, k);
    StepTasks(g, k, a);
    if a.Start? { StartedTask(g, k, a); }
  }

  lemma StartedTask(g: nat, k: Kernel, a: Action)
    requires g >= 1 && Shape(k) && a.Start? && CanStep(g, k, a) && Defined(g, k, a)
    ensures a.id !in k.tasks && a.id in Apply(g, k, a).tasks
    ensures Apply(g, k, a).tasks[a.id] == Task(READY, a.priority % 256, a.priority % 256, false, 0, Idle, seq(|k.locks|, _ => 0))
  {
  }

  /** In every state of every run, the calls made by a task are what its depth says: those it has returned from
      exactly, and the one under way as far as it has come. */
  lemma {:induction false} CallsCounted(g: nat, ks: seq<Kernel>, acts: seq<Action>, n: nat, t: TaskId, l: nat)
    requires g >= 1 && IsRun(g, ks, acts) && n <= |acts| && t in ks[n].tasks && l < |ks[n].locks|
    ensures |ks| == |acts| + 1 && l < |ks[n].tasks[t].depth| && Balance(ks, acts, n, t, l) == Net(ks[n].tasks[t], l)
  {
    hide KernelInv, Shape, CanStep, Defined, Apply, Net, Initial, Counted;
    RunKeepsCount(g, ks, acts, n);
    if n == 0 {
      InitialCounts(ks[0], t, l);
    } else {
      var k, a := ks[n - 1], acts[n - 1];
      RunStep(g, ks, acts, n - 1);
      RunKeepsCount(g, ks, acts, n - 1);
      NewTask(g, k, a, t);
      if t in k.tasks {
        CallsCounted(g, ks, acts, n - 1, t, l);
        StepCounts(g, k, a, t, l);
        CountedNet(k, a, t, l, k.tasks[t], ks[n].tasks[t]);
      } else {
        DepthAt(ks[n], t);
        NewCounts(ks[n].tasks[t], l);
      }
    }
  }

  lemma CountedNet(k: Kernel, a: Action, t: TaskId, l: nat, was: Task, now: Task)
    requires l < |was.depth| == |now.depth| && Counted(k, a, t, l, was, now)
    ensures Net(now, l) == Net(was, l) + One(Acquires(k, a, t, l)) - One(Releases(k, a, t, l))
    ensures Firm(now, l) >= Firm(was, l) - One(Releases(k, a, t, l))
  {
  }

  lemma NewCounts(task: Task, l: nat)
    requires task.pc == Idle && l < |task.depth| && task.depth[l] == 0
    ensures Net(task, l) == 0
  {
  }

  lemma InitialCounts(k: Kernel, t: TaskId, l: nat)
    requires Initial(k) && t in k.tasks && l < |k.locks|
    ensures l < |k.tasks[t].depth| && Net(k.tasks[t], l) == 0
  {
  }

  /** Re-entrancy. A task outside all calls holds lock l exactly if it has called lock_acquire more often than
      lock_release; then the repeat count is the difference, and otherwise lock l is not its own. */
  lemma RepeatIsBalance(g: nat, ks: seq<Kernel>, acts: seq<Action>, n: nat, t: TaskId, l: nat)
    requires g >= 1 && IsRun(g, ks, acts) && n <= |acts| && t in ks[n].tasks && l < |ks[n].locks| && ks[n].tasks[t].pc == Idle
    ensures |ks| == |acts| + 1 && Shape(ks[n]) && Balance(ks, acts, n, t, l) >= 0
    ensures Balance(ks, acts, n, t, l) >= 1 <==> TokenOwners(ks[n], l) == {t}
    ensures Balance(ks, acts, n, t, l) >= 1 <==> ks[n].locks[l].holder == Some(t)
    ensures Balance(ks, acts, n, t, l) >= 1 ==> ks[n].locks[l].repeat == Balance(ks, acts, n, t, l)
  {
    hide KernelInv, Shape, CanStep, Defined, Apply, Initial, Asserts, Balance;
    CallsCounted(g, ks, acts, n, t, l);
    RunKeepsInv(g, ks, acts);
    IdleOwner(g, ks[n], t, l);
  }

  /** And no task ever waits for a lock it holds. */
  lemma NeverWaitsForOwn(g: nat, ks: seq<Kernel>, acts: seq<Action>, n: nat, t: TaskId, l: nat)
    requires g >= 1 && IsRun(g, ks, acts) && n <= |acts| < |ks| && t in ks[n].tasks && l < |ks[n].locks|
    requires ks[n].tasks[t].pc == Down(l) || ks[n].tasks[t].pc == Retry(l) || ks[n].tasks[t].pc == Take(l)
    ensures Shape(ks[n]) && t !in TokenOwners(ks[n], l)
  {
    hide KernelInv, Shape, CanStep, Defined, Apply, Initial, Asserts;
    RunKeepsInv(g, ks, acts);
    WaiterOutside(g, ks[n], t, l);
  }

  lemma WaiterOutside(g: nat, k: Kernel, t: TaskId, l: nat)
    requires g >= 1 && KernelInv(g, k) && t in k.tasks && l < |k.locks|
    requires k.tasks[t].pc == Down(l) || k.tasks[t].pc == Retry(l) || k.tasks[t].pc == Take(l)
    ensures Shape(k) && t !in TokenOwners(k, l)
  {
    hide Places, SleepersOk, WheelInv, Owned, TokenOwners;
    ShapeOf(k);
    LocksOf(g, k);
    var o := OwnerOf(k, l);
    OwnersAre(k, l, o);
    OwnedPhase(k, l, o, t);
  }

  lemma IdleOwner(g: nat, k: Kernel, t: TaskId, l: nat)
    requires g >= 1 && KernelInv(g, k) && t in k.tasks && l < |k.locks| && k.tasks[t].pc == Idle
    ensures Shape(k) && l < |k.tasks[t].depth|
    ensures k.tasks[t].depth[l] >= 1 <==> TokenOwners(k, l) == {t}
    ensures k.tasks[t].depth[l] >= 1 <==> k.locks[l].holder == Some(t)
    ensures k.tasks[t].depth[l] >= 1 ==> k.locks[l].repeat == k.tasks[t].depth[l]
  {
    hide Places, SleepersOk, WheelInv, Owned, TokenOwners, OwnerPhase, Outside;
    ShapeOf(k);
    LocksOf(g, k);
    DepthAt(k, t);
    var o := OwnerOf(k, l);
    OwnersAre(k, l, o);
    OwnedPhase(k, l, o, t);
    if k.locks[l].holder == Some(t) { HolderOwns(k, l, o, t); }
    IdlePhase(k.tasks[t], t, k.locks[l], l);
  }

  lemma OwnedPhase(k: Kernel, l: nat, o: Option<TaskId>, t: TaskId)
    requires Shape(k) && l < |k.locks| && Owned(k, l, o) && t in k.tasks
    ensures if o == Some(t) then OwnerPhase(k.tasks[t], t, k.locks[l], l) else Outside(k.tasks[t], l)
  {
  }

  lemma IdlePhase(task: Task, t: TaskId, lock: Lock, l: nat)
    requires l < |task.depth| && task.pc == Idle
    ensures OwnerPhase(task, t, lock, l) ==> task.depth[l] >= 1 && lock.holder == Some(t) && lock.repeat == task.depth[l]
    ensures Outside(task, l) ==> task.depth[l] == 0
  {
  }

  /** The calls of lock_release(l) by task t among steps i to j. */
  function Released(ks: seq<Kernel>, acts: seq<Action>, i: nat, j: nat, t: TaskId, l: nat): nat
    requires i <= j <= |acts| <= |ks|
  {
    if i == j then 0 else Released(ks, acts, i, j - 1, t, l) + One(Releases(ks[j - 1], acts[j - 1], t, l))
  }

  /** A lock acquired n times stays with its task until the n-th release is called, whatever happens meanwhile. */
  lemma HeldToLastRelease(g: nat, ks: seq<Kernel>, acts: seq<Action>, i: nat, j: nat, t: TaskId, l: nat)
    requires g >= 1 && IsRun(g, ks, acts) && i <= j <= |acts| < |ks| && t in ks[i].tasks && l < |ks[i].locks|
    requires ks[i].tasks[t].pc == Idle && Released(ks, acts, i, j, t, l) < Balance(ks, acts, i, t, l)
    ensures t in ks[j].tasks && Shape(ks[j]) && l < |ks[j].locks| && TokenOwners(ks[j], l) == {t}
  {
    hide KernelInv, Shape, CanStep, Defined, Apply, Initial, Balance, Net, Firm, TokenOwners;
    CallsCounted(g, ks, acts, i, t, l);
    IdleFirm(ks[i].tasks[t], l);
    FirmLasts(g, ks, acts, i, j, t, l);
    RunKeepsInv(g, ks, acts);
    FirmOwns(g, ks[j], t, l);
  }

  lemma IdleFirm(task: Task, l: nat)
    requires l < |task.depth| && task.pc == Idle
    ensures Firm(task, l) == Net(task, l)
  {
  }

  lemma {:induction false} FirmLasts(g: nat, ks: seq<Kernel>, acts: seq<Action>, i: nat, j: nat, t: TaskId, l: nat)
    requires g >= 1 && IsRun(g, ks, acts) && i <= j <= |acts| < |ks| && t in ks[i].tasks && l < |ks[i].locks| && l < |ks[i].tasks[t].depth|
    requires Released(ks, acts, i, j, t, l) < Firm(ks[i].tasks[t], l)
    ensures t in ks[j].tasks && l < |ks[j].locks| && l < |ks[j].tasks[t].depth|
    ensures Firm(ks[j].tasks[t], l) >= Firm(ks[i].tasks[t], l) - Released(ks, acts, i, j, t, l)
  {
    hide KernelInv, Shape, CanStep, Defined, Apply, Firm, Initial, Counted, Releases;
    if i < j {
      FirmLasts(g, ks, acts, i, j - 1, t, l);
      var k, a := ks[j - 1], acts[j - 1];
      RunStep(g, ks, acts, j - 1);
      StepTasks(g, k, a);
      FirmStays(g, k, a, t, l);
      StepKeepsCount(g, k, a);
      StepCounts(g, k, a, t, l);
      CountedNet(k, a, t, l, k.tasks[t], ks[j].tasks[t]);
    }
  }

  lemma FirmStays(g: nat, k: Kernel, a: Action, t: TaskId, l: nat)
    requires g >= 1 && Shape(k) && CanStep(g, k, a) && t in k.tasks && l < |k.locks| && l < |k.tasks[t].depth| && Firm(k.tasks[t], l) >= 1
    ensures !(a.Exit? && t == k.current)
  {
  }

  lemma FirmOwns(g: nat, k: Kernel, t: TaskId, l: nat)
    requires g >= 1 && KernelInv(g, k) && t in k.tasks && l < |k.locks| && l < |k.tasks[t].depth| && Firm(k.tasks[t], l) >= 1
    ensures Shape(k) && TokenOwners(k, l) == {t}
  {
    hide Places, SleepersOk, WheelInv, Owned;
    ShapeOf(k);
    LocksOf(g, k);
    var o := OwnerOf(k, l);
    OwnersAre(k, l, o);
    assert t in TokenOwners(k, l);
  }

  // ---- Calls end ----

  /** The statements of task t among steps i to j, rounds of sema_down that block it apart. */
  ghost function Statements(ks: seq<Kernel>, acts: seq<Action>, i: nat, j: nat, t: TaskId): nat
    requires i <= j <= |acts| <= |ks|
  {
    if i == j then 0 else Statements(ks, acts, i, j - 1, t) + One(Moves(ks[j - 1], acts[j - 1], t))
  }

  predicate Moves(k: Kernel, a: Action, t: TaskId) { k.current == t && a == Continue && t in k.tasks && !Blocks(k) }

  /** Task t makes none of the calls, among steps i to j. */
  ghost predicate NoCalls(ks: seq<Kernel>, acts: seq<Action>, i: nat, j: nat, t: TaskId)
    requires i <= j <= |acts| <= |ks|
  {
    forall m | i <= m < j && ks[m].current == t ::
      !acts[m].CallAcquire? && !acts[m].CallRelease? && !acts[m].Sleep? && !acts[m].BlockSelf? && !acts[m].Exit?
  }

  lemma StepLeft(g: nat, k: Kernel, a: Action, t: TaskId)
    requires g >= 1 && KernelInv(g, k) && CanStep(g, k, a) && Defined(g, k, a) && t in k.tasks
    requires k.current == t ==> !a.CallAcquire? && !a.CallRelease? && !a.Sleep? && !a.BlockSelf? && !a.Exit?
    ensures t in Apply(g, k, a).tasks
    ensures Left(Apply(g, k, a).tasks[t].pc) + One(Moves(k, a, t)) <= Left(k.tasks[t].pc)
    ensures k.tasks[t].pc == Idle ==> Apply(g, k, a).tasks[t].pc == Idle
  {
    hide KernelInv, CanStep, Defined, Apply, Statement, Places, LocksOk, Left;
    PlacesOf(g, k);
    if t != k.current {
      StepOthers(g, k, a, t);
    } else if a == Continue {
      ApplyContinue(g, k);
      StatementProgress(k);
      WaitingLeft(k);
    } else {
      StepMine(g, k, a);
    }
  }

  lemma WaitingLeft(k: Kernel)
    requires Shape(k) && CanContinue(k)
    ensures Blocks(k) ==> Left(Me(k).pc) == Left(Retry(Me(k).pc.l))
    ensures Me(k).pc != Idle
  {
  }

  /** Every call ends: from any point of it on, a task executes at most Left more statements, other than rounds in
      which it has to wait, and when it has executed as many the call is over. */
  lemma {:induction false} CallsEnd(g: nat, ks: seq<Kernel>, acts: seq<Action>, i: nat, j: nat, t: TaskId)
    requires g >= 1 && IsRun(g, ks, acts) && i <= j <= |acts| < |ks| && t in ks[i].tasks && NoCalls(ks, acts, i, j, t)
    ensures t in ks[j].tasks && Statements(ks, acts, i, j, t) + Left(ks[j].tasks[t].pc) <= Left(ks[i].tasks[t].pc)
    ensures Left(ks[j].tasks[t].pc) == 0 <==> ks[j].tasks[t].pc == Idle || ks[j].tasks[t].pc == Stuck
  {
    hide KernelInv, Shape, CanStep, Defined, Apply, Initial, Moves;
    if i < j {
      assert NoCalls(ks, acts, i, j - 1, t);
      CallsEnd(g, ks, acts, i, j - 1, t);
      RunStep(g, ks, acts, j - 1);
      StepLeft(g, ks[j - 1], acts[j - 1], t);
    }
  }

  /** Task t fails the assertion at the end of sema_up at step m. */
  ghost predicate FailsAt(ks: seq<Kernel>, acts: seq<Action>, m: nat, t: TaskId)
    requires m < |acts| <= |ks|
  {
    acts[m] == Continue && ks[m].current == t && FailsCheck(ks[m])
  }

  ghost predicate FailsCheck(k: Kernel) {
    k.current in k.tasks && Me(k).pc.Check? && Me(k).pc.l < |k.locks| && k.locks[Me(k).pc.l].value != 1
  }

  lemma StatementStuck(k: Kernel)
    requires Shape(k) && CanContinue(k) && !FailsCheck(k)
    ensures k.current in Statement(k).tasks && Statement(k).tasks[k.current].pc != Stuck
  {
    hide Statement, Shape;
    DepthKnown(k);
    if LockOf(Me(k).pc).None? {
      Returns(k);
    } else if Plain(Me(k).pc) {
      PlainTurn(k);
    } else {
      SemaTurns(k, Me(k).pc.l);
    }
  }

  /** Nothing else keeps a task from coming to the end of its call. */
  lemma {:induction false} StuckMeansFailed(g: nat, ks: seq<Kernel>, acts: seq<Action>, i: nat, t: TaskId)
    requires g >= 1 && IsRun(g, ks, acts) && i <= |acts| < |ks| && t in ks[i].tasks && ks[i].tasks[t].pc == Stuck
    ensures exists m: nat :: m < i && FailsAt(ks, acts, m, t)
  {
    hide KernelInv, Shape, CanStep, Defined, Apply, Initial, FailsCheck;
    if i == 0 {
      InitialPc(ks[0], t);
    } else {
      var k, a := ks[i - 1], acts[i - 1];
      RunStep(g, ks, acts, i - 1);
      NewTask(g, k, a, t);
      if t in k.tasks && k.tasks[t].pc == Stuck {
        StuckMeansFailed(g, ks, acts, i - 1, t);
      } else if !FailsAt(ks, acts, i - 1, t) {
        NotStuck(g, k, a, t);
      }
    }
  }

  lemma InitialPc(k: Kernel, t: TaskId)
    requires Initial(k) && t in k.tasks
    ensures k.tasks[t].pc == Idle
  {
  }

  lemma NotStuck(g: nat, k: Kernel, a: Action, t: TaskId)
    requires g >= 1 && KernelInv(g, k) && CanStep(g, k, a) && Defined(g, k, a) && t in k.tasks && t in Apply(g, k, a).tasks
    requires k.tasks[t].pc != Stuck && !(a == Continue && k.current == t && FailsCheck(k))
    ensures Apply(g, k, a).tasks[t].pc != Stuck
  {
    hide KernelInv, CanStep, Defined, Apply, Statement, Places, FailsCheck;
    PlacesOf(g, k);
    if t != k.current {
      StepOthers(g, k, a, t);
    } else if a == Continue {
      ApplyContinue(g, k);
      StatementStuck(k);
    } else {
      StepMine(g, k, a);
    }
  }
}
