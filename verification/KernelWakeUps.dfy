/** Wake-ups of tasks that wait for a lock: none is lost while sema_up is not interrupted, and exactly when
    an interruption loses one. */
module KernelWakeUps {
  import opened TimerWheel
  import opened TimerRefinement
  import opened Kernel
  import opened KernelPlaces
  import opened KernelSleep
  import opened KernelLocks
  import opened KernelRuns
  import opened KernelSafety

  /** The tasks on their way to fetch the token of lock l: woken and not yet back at sema_down's test, or past
      the test. */
  ghost function Coming(k: Kernel, l: nat): set<TaskId>
    requires l < |k.locks|
  {
    set t | t in k.tasks && ((k.tasks[t].pc == Retry(l) && t !in k.locks[l].waiters) || k.tasks[t].pc == Take(l))
  }

  /** A token that is free while tasks wait for it: somebody is on the way to fetch it. */
  ghost predicate WakeUpPending(k: Kernel, l: nat)
    requires l < |k.locks|
  {
    k.locks[l].value == 1 && k.locks[l].waiters != [] ==> Coming(k, l) != {}
  }

  /** The current task is about to give the token back after a signal, others wait, and nobody is coming. */
  ghost predicate Forgets(k: Kernel, l: nat)
    requires l < |k.locks| && k.current in k.tasks
  {
    Me(k).pc == Give(l) && k.locks[l].waiters != [] && Coming(k, l) == {}
  }

  // ---- What a step changes ----

  /** Seen from the lists of waiters, nothing has changed. */
  ghost predicate SameWaiting(k: Kernel, k': Kernel) {
    k'.locks == k.locks && forall t :: WayOf(k', t) == WayOf(k, t)
  }

  /** Where a task is between the two sides of a signal's reach; Idle for any other task. */
  function WayOf(k: Kernel, t: TaskId): Pc {
    if t in k.tasks && OnTheWay(k.tasks[t].pc) then k.tasks[t].pc else Idle
  }

  predicate OnTheWay(pc: Pc) { pc.Retry? || pc.Take? || pc.Give? || pc.Check? }

  predicate Pausing(pc: Pc) { pc.Take? || pc.Give? || pc.Check? }

  lemma ControlIsWaiting(k: Kernel, k': Kernel)
    requires SameControl(k, k')
    ensures SameWaiting(k, k')
  {
    forall t ensures WayOf(k', t) == WayOf(k, t) {
      if t in k.tasks { assert SameUse(k.tasks[t], k'.tasks[t]); }
    }
  }

  /** Every step but a statement of the current task. */
  lemma OtherStepWaits(g: nat, k: Kernel, a: Action)
    requires g >= 1 && KernelInv(g, k) && CanStep(g, k, a) && Defined(g, k, a) && a != Continue
    ensures SameWaiting(k, Apply(g, k, a))
  {
    hide KernelInv, Places, Create, Delete, Removed, TimerHandler, CanHandle, TaskBlock, TaskExit;
    PlacesOf(g, k);
    match a
    case Handler(now) => HandlerWaits(g, k, now);
    case Exit => ExitWaits(k);
    case BlockSelf(s) =>
      assert k.ready[0] in k.ready;
      ParkedControl(k, s);
      ControlIsWaiting(k, TaskBlock(k, s, Parked));
    case _ =>
  }

  lemma ExitWaits(k: Kernel)
    requires k.current in k.tasks && Me(k).pc == Idle
    requires var r := Removed(k.ready, k.current); r != [] && r[0] in k.tasks && r[0] != k.current
    ensures SameWaiting(k, TaskExit(k, k.current))
  {
    hide Removed;
  }

  lemma HandlerWaits(g: nat, k: Kernel, now: nat)
    requires g >= 1 && KernelInv(g, k) && CanStep(g, k, Handler(now)) && CanHandle(g, k, now)
    ensures SameWaiting(k, TimerHandler(g, k, now))
  {
    hide KernelInv, CanStep, Run, RunLog, Woken, Shape, WakeUpAll, AfterTick, SameWaiting, SameControl;
    TimersControl(g, k, now);
    TickControl(g, AfterTimers(g, k, now));
    ControlIsWaiting(k, AfterTimers(g, k, now));
    ControlIsWaiting(AfterTimers(g, k, now), TimerHandler(g, k, now));
    WaitingTwice(k, AfterTimers(g, k, now), TimerHandler(g, k, now));
  }

  lemma WaitingTwice(a: Kernel, b: Kernel, c: Kernel)
    requires SameWaiting(a, b) && SameWaiting(b, c)
    ensures SameWaiting(a, c)
  {
  }

  lemma TimersControl(g: nat, k: Kernel, now: nat)
    requires g >= 1 && CanHandle(g, k, now)
    ensures SameControl(k, AfterTimers(g, k, now))
  {
    hide Run, RunLog, Woken, WakeUpAll;
    WakeAllControl(k.(wheel := Run(g, k.wheel, now)), Woken(RunLog(g, k.wheel, now)));
  }

  lemma TickControl(g: nat, k: Kernel)
    requires g >= 1 && Shape(k) && (Me(k).collaborative ==> k.ready != [])
    ensures SameControl(k, AfterTick(g, k))
  {
    hide Create;
  }

  /** A statement of the current task leaves the other tasks where they are, and the other locks. */
  ghost predicate OnlyMine(k: Kernel, k': Kernel, l: Option<nat>)
    requires k.current in k.tasks
  {
    && k'.tasks.Keys == k.tasks.Keys && |k'.locks| == |k.locks|
    && (forall t | t in k.tasks && t != k.current :: k'.tasks[t].pc == k.tasks[t].pc && k'.tasks[t].depth == k.tasks[t].depth)
    && (forall i: nat | i < |k.locks| && l != Some(i) :: k'.locks[i] == k.locks[i])
    && |k'.tasks[k.current].depth| == |Me(k).depth|
    && (forall i: nat | i < |Me(k).depth| && l != Some(i) :: k'.tasks[k.current].depth[i] == Me(k).depth[i])
  }

  lemma StatementElsewhere(k: Kernel)
    requires Shape(k) && CanContinue(k)
    ensures OnlyMine(k, Statement(k), LockOf(Me(k).pc))
  {
    hide SemaDown, SemaUp, OnlyMine;
    var pc := Me(k).pc;
    if LockOf(pc).Some? && (pc.Down? || pc.Retry?) {
      DownElsewhere(k, pc.l);
    } else if pc.Up? {
      UpElsewhere(k, pc.l);
    } else {
      PlainElsewhere(k);
    }
  }

  lemma DownElsewhere(k: Kernel, l: nat)
    requires Shape(k) && l < |k.locks| && (k.locks[l].value == 0 ==> k.ready != [])
    ensures OnlyMine(k, SemaDown(k, l), Some(l))
  {
  }

  lemma UpElsewhere(k: Kernel, l: nat)
    requires Shape(k) && l < |k.locks|
    ensures OnlyMine(k, SemaUp(k, l), Some(l))
  {
    hide WakeFirst, GiveToken, OnlyMine, Shape;
    WakeElsewhere(k, l);
    var k1 := WakeFirst(k, l);
    if k.nests || k.locks[l].waiters == [] {
      GiveElsewhere(k1, l, Idle);
      OnlyMineTwice(k, k1, GiveToken(k1, l, Idle), Some(l));
    } else {
      PauseElsewhere(k1, l);
      OnlyMineTwice(k, k1, SetPc(k1, Give(l)), Some(l));
    }
  }

  lemma WakeElsewhere(k: Kernel, l: nat)
    requires Shape(k) && l < |k.locks|
    ensures k.locks[l].waiters != [] ==> k.locks[l].waiters[0] in k.tasks
    ensures k.current in k.tasks && |Me(k).depth| == |k.locks|
    ensures var k1 := WakeFirst(k, l);
            k1.current == k.current && k1.current in k1.tasks && |Me(k1).depth| == |k1.locks| == |k.locks| && OnlyMine(k, k1, Some(l))
  {
  }

  lemma GiveElsewhere(k: Kernel, l: nat, pc: Pc)
    requires k.current in k.tasks && l < |k.locks| == |Me(k).depth|
    ensures OnlyMine(k, GiveToken(k, l, pc), Some(l))
  {
  }

  lemma PauseElsewhere(k: Kernel, l: nat)
    requires k.current in k.tasks && l < |k.locks| == |Me(k).depth|
    ensures OnlyMine(k, SetPc(k, Give(l)), Some(l))
  {
  }

  lemma OnlyMineTwice(a: Kernel, b: Kernel, c: Kernel, m: Option<nat>)
    requires a.current in a.tasks && b.current == a.current && b.current in b.tasks && OnlyMine(a, b, m) && OnlyMine(b, c, m)
    ensures OnlyMine(a, c, m)
  {
  }

  lemma PlainElsewhere(k: Kernel)
    requires Shape(k) && CanContinue(k)
    requires LockOf(Me(k).pc).None? || Plain(Me(k).pc) || Me(k).pc.Take? || Me(k).pc.Give?
    ensures OnlyMine(k, Statement(k), LockOf(Me(k).pc))
  {
  }

  // ---- One step, seen from one lock ----

  /** A round of sema_down by the current task. */
  lemma DownEffect(k: Kernel, l: nat)
    requires Shape(k) && CanContinue(k) && (Me(k).pc == Down(l) || Me(k).pc == Retry(l)) && l < |k.locks| && k.locks[l].value <= 1
    ensures var k' := Statement(k); var lock, lock' := k.locks[l], k'.locks[l];
            && |k'.locks| == |k.locks| && k.current in k'.tasks && (lock.value != 0 ==> k'.current == k.current)
            && if lock.value == 0 then
                 lock'.value == 0 && lock'.waiters == lock.waiters + [k.current] && k'.tasks[k.current].pc == Retry(l)
               else if Me(k).pc.Retry? && !k.nests then lock' == lock && k'.tasks[k.current].pc == Take(l)
               else lock' == lock.(value := 0) && k'.tasks[k.current].pc == SetHolder(l)
  {
  }

  lemma TakeEffect(k: Kernel, l: nat)
    requires Shape(k) && CanContinue(k) && Me(k).pc == Take(l) && l < |k.locks| && k.locks[l].value <= 1
    ensures var k' := Statement(k);
            && |k'.locks| == |k.locks| && k.locks[l].value == 1 && k'.locks[l] == k.locks[l].(value := 0)
            && k.current in k'.tasks && k'.tasks[k.current].pc == SetHolder(l)
  {
  }

  /** Any statement of another kind leaves value and waiters alone; none ends on the way to the token. */
  lemma PlainEffect(k: Kernel, l: nat)
    requires Shape(k) && CanContinue(k) && LockOf(Me(k).pc) == Some(l) && Plain(Me(k).pc) && l < |k.locks|
    ensures var k' := Statement(k);
            && |k'.locks| == |k.locks| && k'.locks[l].value == k.locks[l].value && k'.locks[l].waiters == k.locks[l].waiters
            && k.current in k'.tasks && !k'.tasks[k.current].pc.Retry? && !k'.tasks[k.current].pc.Take?
  {
  }

  lemma GiveEffect(k: Kernel, l: nat)
    requires Shape(k) && CanContinue(k) && Me(k).pc == Give(l) && l < |k.locks|
    ensures var k' := Statement(k);
            && |k'.locks| == |k.locks| && k'.locks[l].value == k.locks[l].value + 1
            && k'.locks[l].waiters == k.locks[l].waiters
            && k'.current == k.current && k.current in k'.tasks && k'.ready == k.ready
            && k'.tasks[k.current] == Returned(Me(k), l, 0).(pc := Check(l))
  {
  }

  /** sema_up takes the first waiter off the list; a task at that statement owns the lock. */
  lemma UpEffect(k: Kernel, l: nat)
    requires Places(k) && CanContinue(k) && Me(k).pc == Up(l) && l < |k.locks|
    ensures var k' := Statement(k); var ws := k.locks[l].waiters;
            && |k'.locks| == |k.locks| && k'.locks[l].waiters == (if ws == [] then [] else ws[1..])
            && k'.locks[l].value == k.locks[l].value + One(k.nests || ws == [])
            && k'.current == k.current && k.current in k'.tasks
            && k'.tasks[k.current].pc == (if k.nests || ws == [] then Idle else Give(l))
            && (ws != [] ==> ws[0] in k'.tasks && k'.tasks[ws[0]].pc == Retry(l) && ws[0] !in ws[1..] && k'.ready == [ws[0]] + k.ready)
  {
    if k.locks[l].waiters != [] { WaiterElsewhere(k, l); }
  }

  lemma LockValue(g: nat, k: Kernel, l: nat)
    requires g >= 1 && KernelInv(g, k) && l < |k.locks|
    ensures k.locks[l].value <= 1
    ensures forall t | t in k.tasks && (k.tasks[t].pc == Up(l) || k.tasks[t].pc == Give(l)) :: k.locks[l].value == 0
  {
    hide Places, SleepersOk, WheelInv;
    ShapeOf(k);
    var o := OwnerOf(k, l);
    forall t | t in k.tasks && (k.tasks[t].pc == Up(l) || k.tasks[t].pc == Give(l)) ensures k.locks[l].value == 0 {
      OwnedAt(k, l, o, t);
    }
  }

  lemma OwnedAt(k: Kernel, l: nat, o: Option<TaskId>, t: TaskId)
    requires Shape(k) && l < |k.locks| && Owned(k, l, o) && t in k.tasks
    ensures o == Some(t) || Outside(k.tasks[t], l)
  {
  }

  // ---- No wake-up is lost ----

  lemma WaitingKept(k: Kernel, k': Kernel, l: nat)
    requires SameWaiting(k, k') && l < |k.locks| && WakeUpPending(k, l)
    ensures WakeUpPending(k', l)
  {
    ComingSame(k, k', l);
  }

  lemma ComingSame(k: Kernel, k': Kernel, l: nat)
    requires SameWaiting(k, k') && l < |k.locks|
    ensures Coming(k', l) == Coming(k, l)
  {
    forall t ensures t in Coming(k', l) <==> t in Coming(k, l) {
      assert WayOf(k', t) == WayOf(k, t);
    }
  }

  /** A statement that leaves lock l's token and waiters alone. */
  lemma ElsewhereKept(k: Kernel, k': Kernel, l: nat, m: Option<nat>)
    requires k.current in k.tasks && OnlyMine(k, k', m) && l < |k.locks| && WakeUpPending(k, l) && Me(k).pc != Retry(l) && Me(k).pc != Take(l)
    requires k'.locks[l].value == k.locks[l].value && k'.locks[l].waiters == k.locks[l].waiters
    ensures WakeUpPending(k', l)
  {
    if Coming(k, l) != {} {
      var t :| t in Coming(k, l);
      assert t in Coming(k', l);
    }
  }

  /** Every step keeps wake-ups pending, except giving the token back when everybody has been forgotten. */
  lemma StepKeepsWakeUp(g: nat, k: Kernel, a: Action, l: nat)
    requires g >= 1 && KernelInv(g, k) && CanStep(g, k, a) && Defined(g, k, a) && l < |k.locks| && WakeUpPending(k, l)
    ensures l < |Apply(g, k, a).locks|
    ensures WakeUpPending(Apply(g, k, a), l) <==> !(a == Continue && Forgets(k, l))
  {
    hide KernelInv, Apply, CanStep, SameWaiting, OnlyMine, Forgets, WakeUpPending, Coming;
    PlacesOf(g, k);
    if a == Continue {
      ApplyContinue(g, k);
      StatementKeepsWakeUp(g, k, l);
    } else {
      OtherStepWaits(g, k, a);
      LocksSame(k, Apply(g, k, a));
      WaitingKept(k, Apply(g, k, a), l);
    }
  }

  lemma LocksSame(k: Kernel, k': Kernel)
    requires SameWaiting(k, k')
    ensures k'.locks == k.locks
  {
  }

  lemma ApplyContinue(g: nat, k: Kernel)
    requires g >= 1 && Shape(k) && CanStep(g, k, Continue)
    ensures CanContinue(k) && Apply(g, k, Continue) == Statement(k)
  {
  }

  lemma StatementKeepsWakeUp(g: nat, k: Kernel, l: nat)
    requires g >= 1 && KernelInv(g, k) && CanContinue(k) && l < |k.locks| && WakeUpPending(k, l)
    ensures l < |Statement(k).locks| && (WakeUpPending(Statement(k), l) <==> !Forgets(k, l))
  {
    hide KernelInv, Statement, OnlyMine, CanContinue, Places, Shape;
    PlacesOf(g, k);
    StatementElsewhere(k);
    LockValue(g, k, l);
    var k', pc := Statement(k), Me(k).pc;
    if LockOf(pc) != Some(l) {
      OnlyMineAt(k, k', LockOf(pc), l);
      ElsewhereKept(k, k', l, LockOf(pc));
    } else if Plain(pc) {
      PlainEffect(k, l);
      ElsewhereKept(k, k', l, Some(l));
    } else if pc.Down? || pc.Retry? {
      DownEffect(k, l);
      if k'.locks[l].value == 1 { assert k.current in Coming(k', l); }
    } else if pc.Take? {
      TakeEffect(k, l);
    } else if pc.Up? {
      UpEffect(k, l);
      if k.locks[l].waiters != [] { assert k.locks[l].waiters[0] in Coming(k', l); }
    } else {
      GiveEffect(k, l);
      GiveComing(k, k', l);
    }
  }

  lemma OnlyMineAt(k: Kernel, k': Kernel, m: Option<nat>, l: nat)
    requires k.current in k.tasks && OnlyMine(k, k', m) && l < |k.locks| && m != Some(l)
    ensures |k'.locks| == |k.locks| && k'.locks[l] == k.locks[l]
  {
  }

  lemma PlacesOf(g: nat, k: Kernel)
    requires g >= 1 && KernelInv(g, k)
    ensures Places(k) && Shape(k)
  {
  }

  lemma GiveComing(k: Kernel, k': Kernel, l: nat)
    requires k.current in k.tasks && OnlyMine(k, k', Some(l)) && l < |k.locks| && Me(k).pc == Give(l)
    requires k'.locks[l].waiters == k.locks[l].waiters && k'.tasks[k.current].pc == Check(l)
    ensures Coming(k', l) == Coming(k, l)
  {
    forall t ensures t in Coming(k', l) <==> t in Coming(k, l) {
    }
  }

  // ---- Runs ----

  /** The state before and after step i of a run. */
  lemma RunStep(g: nat, ks: seq<Kernel>, acts: seq<Action>, i: nat)
    requires g >= 1 && IsRun(g, ks, acts) && i < |acts|
    ensures KernelInv(g, ks[i]) && Shape(ks[i]) && CanStep(g, ks[i], acts[i]) && Defined(g, ks[i], acts[i])
    ensures KernelInv(g, ks[i + 1]) && Shape(ks[i + 1]) && ks[i + 1] == Apply(g, ks[i], acts[i])
  {
    hide KernelInv, Shape, CanStep, Defined, Apply, Initial, Asserts;
    RunKeepsInv(g, ks, acts);
    PlacesOf(g, ks[i + 1]);
  }

  lemma StepKeepsCount(g: nat, k: Kernel, a: Action)
    requires g >= 1 && KernelInv(g, k) && CanStep(g, k, a) && Defined(g, k, a)
    ensures |Apply(g, k, a).locks| == |k.locks|
  {
    hide KernelInv, Apply, CanStep, SameWaiting, OnlyMine;
    PlacesOf(g, k);
    if a == Continue {
      ApplyContinue(g, k);
      StatementElsewhere(k);
      CountSame(k, Statement(k), LockOf(Me(k).pc));
    } else {
      OtherStepWaits(g, k, a);
      LocksSame(k, Apply(g, k, a));
    }
  }

  lemma CountSame(k: Kernel, k': Kernel, m: Option<nat>)
    requires k.current in k.tasks && OnlyMine(k, k', m)
    ensures |k'.locks| == |k.locks|
  {
  }

  /** No lock comes or goes. */
  lemma {:induction false} RunKeepsCount(g: nat, ks: seq<Kernel>, acts: seq<Action>, i: nat)
    requires g >= 1 && IsRun(g, ks, acts) && i < |ks|
    ensures |ks[i].locks| == |ks[0].locks|
  {
    hide KernelInv, Shape, CanStep, Defined, Apply, Initial;
    if i > 0 {
      RunKeepsCount(g, ks, acts, i - 1);
      RunStep(g, ks, acts, i - 1);
      StepKeepsCount(g, ks[i - 1], acts[i - 1]);
    }
  }

  /** Step i gives lock l's token back although everybody who waits has been forgotten. */
  ghost predicate ForgetsAt(ks: seq<Kernel>, acts: seq<Action>, i: nat, l: nat)
    requires i < |acts| <= |ks|
  {
    l < |ks[i].locks| && ks[i].current in ks[i].tasks && acts[i] == Continue && Forgets(ks[i], l)
  }

  /** A run in which nobody is forgotten loses no wake-up. */
  lemma {:induction false} RunKeepsWakeUp(g: nat, ks: seq<Kernel>, acts: seq<Action>, i: nat, l: nat)
    requires g >= 1 && IsRun(g, ks, acts) && i < |ks| && l < |ks[i].locks|
    requires forall m: nat | m < i :: !ForgetsAt(ks, acts, m, l)
    ensures WakeUpPending(ks[i], l)
  {
    hide KernelInv, Shape, CanStep, Defined, Apply, WakeUpPending, Forgets;
    if i > 0 {
      RunStep(g, ks, acts, i - 1);
      StepKeepsCount(g, ks[i - 1], acts[i - 1]);
      RunKeepsWakeUp(g, ks, acts, i - 1, l);
      assert !ForgetsAt(ks, acts, i - 1, l);
      CurrentKnown(ks[i - 1]);
      StepKeepsWakeUp(g, ks[i - 1], acts[i - 1], l);
    } else {
      NobodyWaits(ks[0], l);
    }
  }

  lemma CurrentKnown(k: Kernel)
    requires Shape(k)
    ensures k.current in k.tasks
  {
  }

  lemma NobodyWaits(k: Kernel, l: nat)
    requires Initial(k) && l < |k.locks|
    ensures WakeUpPending(k, l)
  {
  }

  /** Exactly when a run loses no wake-up: when nobody is ever forgotten. */
  lemma NothingLostIff(g: nat, ks: seq<Kernel>, acts: seq<Action>)
    requires g >= 1 && IsRun(g, ks, acts)
    ensures (forall i: nat, l: nat | i < |ks| && l < |ks[i].locks| :: WakeUpPending(ks[i], l))
            <==> (forall i: nat, l: nat | i < |acts| :: !ForgetsAt(ks, acts, i, l))
  {
    hide KernelInv, Shape, CanStep, Defined, Apply, WakeUpPending, Forgets, Initial;
    if i: nat, l: nat :| i < |acts| && ForgetsAt(ks, acts, i, l) {
      RunStep(g, ks, acts, i);
      StepKeepsCount(g, ks[i], acts[i]);
      if WakeUpPending(ks[i], l) {
        StepKeepsWakeUp(g, ks[i], acts[i], l);
        assert !WakeUpPending(ks[i + 1], l);
      }
    } else {
      forall i: nat, l: nat | i < |ks| && l < |ks[i].locks| ensures WakeUpPending(ks[i], l) {
        RunKeepsWakeUp(g, ks, acts, i, l);
      }
    }
  }

  // ---- When interrupts nest ----

  ghost predicate NoPause(k: Kernel) { k.nests && forall t :: !Pausing(WayOf(k, t)) }

  lemma StepKeepsNoPause(g: nat, k: Kernel, a: Action)
    requires g >= 1 && KernelInv(g, k) && CanStep(g, k, a) && Defined(g, k, a) && NoPause(k)
    ensures NoPause(Apply(g, k, a))
  {
    hide KernelInv, Apply, CanStep, SameWaiting, OnlyMine, Defined;
    PlacesOf(g, k);
    StepKeepsNests(g, k, a);
    if a == Continue {
      MeNoPause(k);
      ApplyContinue(g, k);
      StatementElsewhere(k);
      StatementNoPause(k);
      OthersNoPause(k, Statement(k), LockOf(Me(k).pc));
    } else {
      OtherStepWaits(g, k, a);
      WaitingNoPause(k, Apply(g, k, a));
    }
  }

  lemma {:induction false} WakeUpAllNests(k: Kernel, ts: seq<TaskId>)
    requires forall t | t in ts :: t in k.tasks
    ensures WakeUpAll(k, ts).nests == k.nests
  {
    if ts != [] { WakeUpAllNests(k, ts[..|ts| - 1]); }
  }

  lemma StepKeepsNests(g: nat, k: Kernel, a: Action)
    requires g >= 1 && Shape(k) && CanStep(g, k, a) && Defined(g, k, a)
    ensures Apply(g, k, a).nests == k.nests
  {
    hide Run, RunLog, Woken, Create, Delete, Removed, LockStatement;
    if a.Handler? { WakeUpAllNests(k.(wheel := Run(g, k.wheel, a.now)), Woken(RunLog(g, k.wheel, a.now))); }
  }

  lemma StatementNoPause(k: Kernel)
    requires Shape(k) && CanContinue(k) && k.nests && !Pausing(Me(k).pc)
    ensures k.current in Statement(k).tasks && !Pausing(Statement(k).tasks[k.current].pc)
  {
  }

  lemma OthersNoPause(k: Kernel, k': Kernel, m: Option<nat>)
    requires k.current in k.tasks && OnlyMine(k, k', m) && NoPause(k) && k'.nests && !Pausing(k'.tasks[k.current].pc)
    ensures NoPause(k')
  {
    forall t ensures !Pausing(WayOf(k', t)) {
      if t in k.tasks && t != k.current { assert !Pausing(WayOf(k, t)); }
    }
  }

  lemma MeNoPause(k: Kernel)
    requires k.current in k.tasks && NoPause(k)
    ensures k.nests && !Pausing(Me(k).pc)
  {
    assert !Pausing(WayOf(k, k.current));
  }

  lemma WaitingNoPause(k: Kernel, k': Kernel)
    requires SameWaiting(k, k') && NoPause(k) && k'.nests
    ensures NoPause(k')
  {
    forall t ensures !Pausing(WayOf(k', t)) {
      assert WayOf(k', t) == WayOf(k, t);
    }
  }

  lemma {:induction false} RunNoPause(g: nat, ks: seq<Kernel>, acts: seq<Action>, i: nat)
    requires g >= 1 && IsRun(g, ks, acts) && i < |ks| && ks[0].nests
    ensures NoPause(ks[i])
  {
    hide KernelInv, Shape, CanStep, Defined, Apply, NoPause;
    if i > 0 {
      RunNoPause(g, ks, acts, i - 1);
      RunStep(g, ks, acts, i - 1);
      StepKeepsNoPause(g, ks[i - 1], acts[i - 1]);
    } else {
      InitialNoPause(ks[0]);
    }
  }

  lemma InitialNoPause(k: Kernel)
    requires Initial(k) && k.nests
    ensures NoPause(k)
  {
  }

  /** With interrupts that nest, sema_up is not interrupted and no wake-up is lost: while tasks wait, either
      somebody owns the token, or a task already woken - it runs or is ready - is about to retry. */
  lemma NoLostWakeUp(g: nat, ks: seq<Kernel>, acts: seq<Action>, i: nat, l: nat)
    requires g >= 1 && IsRun(g, ks, acts) && i < |ks| && l < |ks[i].locks| && ks[i].locks[l].waiters != []
    requires ks[0].nests
    ensures Shape(ks[i])
    ensures TokenOwners(ks[i], l) != {} || exists t :: t in Coming(ks[i], l) && (t == ks[i].current || t in ks[i].ready)
  {
    hide KernelInv, CanStep, Defined, Apply, Initial, Asserts, WakeUpPending;
    forall m: nat | m < i ensures !ForgetsAt(ks, acts, m, l) {
      RunNoPause(g, ks, acts, m);
      if ks[m].current in ks[m].tasks { MeNoPause(ks[m]); }
    }
    RunKeepsWakeUp(g, ks, acts, i, l);
    RunKeepsInv(g, ks, acts);
    PendingMeansComing(g, ks[i], l);
  }

  lemma PendingMeansComing(g: nat, k: Kernel, l: nat)
    requires g >= 1 && KernelInv(g, k) && l < |k.locks| && k.locks[l].waiters != [] && WakeUpPending(k, l)
    ensures Shape(k)
    ensures TokenOwners(k, l) != {} || exists t :: t in Coming(k, l) && (t == k.current || t in k.ready)
  {
    hide SleepersOk, WheelInv, Owned, TokenOwners;
    var o := OwnerOf(k, l);
    OwnersAre(k, l, o);
    OwnedValue(k, l, o);
    if o.None? {
      var t :| t in Coming(k, l);
      ComingPlaced(k, l, t);
    }
  }

  lemma ComingPlaced(k: Kernel, l: nat, t: TaskId)
    requires Places(k) && l < |k.locks| && t in Coming(k, l)
    ensures t == k.current || t in k.ready
  {
    assert Coherent(k, t);
  }
}
