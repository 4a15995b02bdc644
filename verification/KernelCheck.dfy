/** The last assertion of sema_up, and the test of sema_down: exactly when a signal behind them makes them fail. */
module KernelCheck {
  import opened TimerWheel
  import opened TimerRefinement
  import opened Kernel
  import opened KernelPlaces
  import opened KernelSleep
  import opened KernelLocks
  import opened KernelRuns
  import opened KernelSafety
  import opened KernelWakeUps
  import opened KernelPaused

  /** The current task's statement takes lock l's token. */
  ghost predicate Takes(k: Kernel, l: nat) {
    && l < |k.locks| && k.current in k.tasks && k.locks[l].value != 0
    && (Me(k).pc == Down(l) || Me(k).pc == Take(l) || (Me(k).pc == Retry(l) && k.nests))
  }

  /** The current task's statement gives it back. */
  ghost predicate Gives(k: Kernel, l: nat) {
    && l < |k.locks| && k.current in k.tasks
    && (Me(k).pc == Give(l) || (Me(k).pc == Up(l) && (k.nests || k.locks[l].waiters == [])))
  }

  predicate Holds(k: Kernel, t: TaskId, l: nat) {
    t in k.tasks && l < |k.tasks[t].depth| && HasToken(k.tasks[t], l)
  }

  /** The same tasks hold the tokens. */
  ghost predicate SameTokens(k: Kernel, k': Kernel) { forall t, l: nat :: Holds(k', t, l) <==> Holds(k, t, l) }

  lemma ControlTokens(k: Kernel, k': Kernel)
    requires SameControl(k, k')
    ensures SameTokens(k, k')
  {
    forall t, l: nat ensures Holds(k', t, l) <==> Holds(k, t, l) {
      if t in k.tasks { assert SameUse(k.tasks[t], k'.tasks[t]); }
    }
  }

  /** Every step but a statement of the current task. */
  lemma OtherStepTokens(g: nat, k: Kernel, a: Action)
    requires g >= 1 && KernelInv(g, k) && CanStep(g, k, a) && Defined(g, k, a) && a != Continue
    ensures SameTokens(k, Apply(g, k, a))
  {
    hide KernelInv, Places, Create, Delete, Removed, TimerHandler, CanHandle, TaskBlock, TaskExit;
    PlacesOf(g, k);
    match a
    case Handler(now) => HandlerTokens(g, k, now);
    case Exit => ExitTokens(k);
    case BlockSelf(s) =>
      assert k.ready[0] in k.ready;
      ParkedControl(k, s);
      ControlTokens(k, TaskBlock(k, s, Parked));
    case _ =>
  }

  lemma ExitTokens(k: Kernel)
    requires Shape(k) && Me(k).pc == Idle && forall l: nat | l < |k.locks| :: Me(k).depth[l] == 0
    requires var r := Removed(k.ready, k.current); r != [] && r[0] in k.tasks && r[0] != k.current
    ensures SameTokens(k, TaskExit(k, k.current))
  {
    hide Removed;
  }

  lemma HandlerTokens(g: nat, k: Kernel, now: nat)
    requires g >= 1 && KernelInv(g, k) && CanStep(g, k, Handler(now)) && CanHandle(g, k, now)
    ensures SameTokens(k, TimerHandler(g, k, now))
  {
    hide KernelInv, CanStep, Run, RunLog, Woken, Shape, WakeUpAll, AfterTick, SameTokens, SameControl;
    TimersControl(g, k, now);
    TickControl(g, AfterTimers(g, k, now));
    ControlTokens(k, AfterTimers(g, k, now));
    ControlTokens(AfterTimers(g, k, now), TimerHandler(g, k, now));
    TokensTwice(k, AfterTimers(g, k, now), TimerHandler(g, k, now));
  }

  lemma TokensTwice(a: Kernel, b: Kernel, c: Kernel)
    requires SameTokens(a, b) && SameTokens(b, c)
    ensures SameTokens(a, c)
  {
  }

  lemma TokenOwnersSame(k: Kernel, k': Kernel, l: nat)
    requires Shape(k) && Shape(k') && l < |k.locks| == |k'.locks|
    requires forall t :: Holds(k', t, l) <==> Holds(k, t, l)
    ensures TokenOwners(k', l) == TokenOwners(k, l)
  {
    forall t ensures t in TokenOwners(k', l) <==> t in TokenOwners(k, l) {
      assert Holds(k', t, l) <==> Holds(k, t, l);
    }
  }

  /** A statement by the current task that neither takes nor gives back a token. */
  lemma MyTokens(k: Kernel, k': Kernel, m: Option<nat>, l: nat)
    requires k.current in k.tasks && OnlyMine(k, k', m)
    requires Holds(k', k.current, l) <==> Holds(k, k.current, l)
    ensures forall t :: Holds(k', t, l) <==> Holds(k, t, l)
  {
  }

  /** What a statement does to the set of token owners of lock l. */
  lemma StatementOwners(g: nat, k: Kernel, l: nat)
    requires g >= 1 && KernelInv(g, k) && CanContinue(k) && l < |k.locks| && KernelInv(g, Statement(k))
    ensures Shape(k) && Shape(Statement(k)) && |Statement(k).locks| == |k.locks|
    ensures TokenOwners(Statement(k), l)
            == if Takes(k, l) then {k.current} else if Gives(k, l) then {} else TokenOwners(k, l)
  {
    PlacesOf(g, k);
    PlacesOf(g, Statement(k));
    hide KernelInv, Places, Shape, Statement, OnlyMine, CanContinue, TokenOwners;
    StatementElsewhere(k);
    StatementStaysOnLock(k);
    CountSame(k, Statement(k), LockOf(Me(k).pc));
    if LockOf(Me(k).pc) != Some(l) {
      ElsewhereTokens(k, Statement(k), l);
      MyTokens(k, Statement(k), LockOf(Me(k).pc), l);
      TokenOwnersSame(k, Statement(k), l);
    } else {
      LockOwners(g, k, l);
    }
  }

  lemma ElsewhereTokens(k: Kernel, k': Kernel, l: nat)
    requires k.current in k.tasks && OnlyMine(k, k', LockOf(Me(k).pc)) && LockOf(Me(k).pc) != Some(l)
    requires LockOf(k'.tasks[k.current].pc) in {None, LockOf(Me(k).pc)}
    ensures Holds(k', k.current, l) <==> Holds(k, k.current, l)
  {
  }

  /** A statement of an operation on lock l itself. */
  lemma LockOwners(g: nat, k: Kernel, l: nat)
    requires g >= 1 && KernelInv(g, k) && CanContinue(k) && l < |k.locks| && Shape(k) && Shape(Statement(k))
    requires LockOf(Me(k).pc) == Some(l) && |Statement(k).locks| == |k.locks| && OnlyMine(k, Statement(k), Some(l))
    ensures TokenOwners(Statement(k), l)
            == if Takes(k, l) then {k.current} else if Gives(k, l) then {} else TokenOwners(k, l)
  {
    hide SleepersOk, WheelInv, Owned, TokenOwners, OnlyMine;
    PlacesOf(g, k);
    LockValue(g, k, l);
    hide Places, LocksOk;
    var pc, k' := Me(k).pc, Statement(k);
    if Plain(pc) {
      PlainOwners(k, l);
    } else if Takes(k, l) {
      TakeKeepsLocks(k, l);
      OwnersAre(k', l, Some(k.current));
    } else if pc.Give? {
      GiveKeepsLocks(k, l, Check(l));
      OwnersAre(k', l, None);
    } else if Gives(k, l) {
      UpKeepsLocks(k, l);
      OwnersAre(k', l, None);
    } else {
      WayTokens(g, k, l);
      MyTokens(k, k', Some(l), l);
      TokenOwnersSame(k, k', l);
    }
  }

  lemma PlainOwners(k: Kernel, l: nat)
    requires Places(k) && LocksOk(k) && l < |k.locks| && LockOf(Me(k).pc) == Some(l) && Plain(Me(k).pc)
    requires CanContinue(k) && Shape(Statement(k)) && |Statement(k).locks| == |k.locks|
    ensures TokenOwners(Statement(k), l) == TokenOwners(k, l)
  {
    hide Places, LocksOk, Owned, TokenOwners, Statement;
    ShapeOf(k);
    var o := OwnerOf(k, l);
    StatementKeepsLocks(k, l);
    OwnersAre(k, l, o);
    OwnersAre(Statement(k), l, o);
  }

  /** Waiting, passing the test, and waking a waiter. */
  lemma WayTokens(g: nat, k: Kernel, l: nat)
    requires g >= 1 && KernelInv(g, k) && CanContinue(k) && l < |k.locks| && !Takes(k, l) && !Gives(k, l)
    requires Me(k).pc == Down(l) || Me(k).pc == Retry(l) || Me(k).pc == Take(l) || Me(k).pc == Up(l)
    ensures Holds(Statement(k), k.current, l) <==> Holds(k, k.current, l)
  {
    hide LocksOk, SleepersOk, WheelInv, ReadyOk, AllCoherent;
    if Me(k).pc.Up? { WaiterElsewhere(k, l); }
  }

  /** What a step does to the set of token owners of a lock: only taking and giving back change it. */
  lemma StepOwners(g: nat, k: Kernel, a: Action, l: nat)
    requires g >= 1 && KernelInv(g, k) && CanStep(g, k, a) && Defined(g, k, a) && l < |k.locks|
    ensures Shape(k) && Shape(Apply(g, k, a)) && |Apply(g, k, a).locks| == |k.locks|
    ensures TokenOwners(Apply(g, k, a), l)
            == if a == Continue && Takes(k, l) then {k.current} else if a == Continue && Gives(k, l) then {} else TokenOwners(k, l)
  {
    hide KernelInv, Apply, Shape, CanStep, Defined, TokenOwners, SameTokens, Takes, Gives;
    PlacesOf(g, k);
    StepKeepsInv(g, k, a);
    PlacesOf(g, Apply(g, k, a));
    StepKeepsCount(g, k, a);
    if a == Continue {
      ApplyContinue(g, k);
      StatementOwners(g, k, l);
    } else {
      OtherStepTokens(g, k, a);
      TokensOf(k, Apply(g, k, a), l);
      TokenOwnersSame(k, Apply(g, k, a), l);
    }
  }

  lemma TokensOf(k: Kernel, k': Kernel, l: nat)
    requires SameTokens(k, k')
    ensures forall t :: Holds(k', t, l) <==> Holds(k, t, l)
  {
  }

  // ---- Runs ----

  ghost predicate TakesAt(ks: seq<Kernel>, acts: seq<Action>, i: nat, l: nat)
    requires i < |acts| <= |ks|
  {
    acts[i] == Continue && Takes(ks[i], l)
  }

  ghost predicate GivesAt(ks: seq<Kernel>, acts: seq<Action>, i: nat, l: nat)
    requires i < |acts| <= |ks|
  {
    acts[i] == Continue && Gives(ks[i], l)
  }

  /** No step from i to j gives lock l's token back. */
  ghost predicate NotGiven(ks: seq<Kernel>, acts: seq<Action>, i: nat, j: nat, l: nat)
    requires j <= |acts| <= |ks|
  {
    forall m: nat | i <= m < j :: !GivesAt(ks, acts, m, l)
  }

  /** Among steps i to j somebody takes lock l's token and does not give it back. */
  ghost predicate Taken(ks: seq<Kernel>, acts: seq<Action>, i: nat, j: nat, l: nat)
    requires i <= j <= |acts| <= |ks|
  {
    exists m: nat :: i <= m < j && TakesAt(ks, acts, m, l) && NotGiven(ks, acts, m + 1, j, l)
  }

  lemma TakenStep(ks: seq<Kernel>, acts: seq<Action>, i: nat, j: nat, l: nat)
    requires i < j <= |acts| <= |ks|
    ensures Taken(ks, acts, i, j, l)
            <==> TakesAt(ks, acts, j - 1, l) || (Taken(ks, acts, i, j - 1, l) && !GivesAt(ks, acts, j - 1, l))
  {
    hide TakesAt, GivesAt;
    if TakesAt(ks, acts, j - 1, l) {
      assert NotGiven(ks, acts, j, j, l);
    }
    if Taken(ks, acts, i, j - 1, l) && !GivesAt(ks, acts, j - 1, l) {
      var m: nat :| i <= m < j - 1 && TakesAt(ks, acts, m, l) && NotGiven(ks, acts, m + 1, j - 1, l);
      assert NotGiven(ks, acts, m + 1, j, l);
    }
    if Taken(ks, acts, i, j, l) && !TakesAt(ks, acts, j - 1, l) {
      var m: nat :| i <= m < j && TakesAt(ks, acts, m, l) && NotGiven(ks, acts, m + 1, j, l);
      assert m < j - 1 && NotGiven(ks, acts, m + 1, j - 1, l);
      assert !GivesAt(ks, acts, j - 1, l);
    }
  }

  /** A lock that was free at step i is held at step j exactly if its token was taken meanwhile, and not given back. */
  lemma {:induction false} HeldIff(g: nat, ks: seq<Kernel>, acts: seq<Action>, i: nat, j: nat, l: nat)
    requires g >= 1 && IsRun(g, ks, acts) && i <= j <= |acts| && l < |ks[i].locks|
    requires Shape(ks[i]) && TokenOwners(ks[i], l) == {}
    ensures |ks| == |acts| + 1 && l < |ks[j].locks| && Shape(ks[j])
    ensures TokenOwners(ks[j], l) != {} <==> Taken(ks, acts, i, j, l)
  {
    hide KernelInv, Shape, CanStep, Defined, Apply, IsRun, TokenOwners, Takes, Gives;
    RunLength(g, ks, acts);
    if i < j {
      HeldIff(g, ks, acts, i, j - 1, l);
      RunStep(g, ks, acts, j - 1);
      StepOwners(g, ks[j - 1], acts[j - 1], l);
      TakenStep(ks, acts, i, j, l);
      hide Taken;
      assert !(Takes(ks[j - 1], l) && Gives(ks[j - 1], l)) by { NotBoth(ks[j - 1], l); }
    }
  }

  lemma NotBoth(k: Kernel, l: nat)
    ensures !(Takes(k, l) && Gives(k, l))
  {
  }

  /** A task between two statements of sema_up or sema_down stays there until it runs. */
  lemma StepRests(g: nat, k: Kernel, a: Action, r: TaskId)
    requires g >= 1 && KernelInv(g, k) && CanStep(g, k, a) && Defined(g, k, a)
    requires Pausing(WayOf(k, r)) && !(a == Continue && k.current == r)
    ensures WayOf(Apply(g, k, a), r) == WayOf(k, r)
  {
    hide KernelInv, Apply, CanStep, Defined, SameWaiting, OnlyMine;
    PlacesOf(g, k);
    if a == Continue {
      ApplyContinue(g, k);
      StatementElsewhere(k);
      OthersWay(k, Statement(k), LockOf(Me(k).pc), r);
    } else {
      OtherStepWaits(g, k, a);
      SameWay(k, Apply(g, k, a), r);
    }
  }

  lemma OthersWay(k: Kernel, k': Kernel, m: Option<nat>, r: TaskId)
    requires k.current in k.tasks && OnlyMine(k, k', m) && r != k.current
    ensures WayOf(k', r) == WayOf(k, r)
  {
  }

  lemma SameWay(k: Kernel, k': Kernel, r: TaskId)
    requires SameWaiting(k, k')
    ensures WayOf(k', r) == WayOf(k, r)
  {
  }

  lemma {:induction false} RunRests(g: nat, ks: seq<Kernel>, acts: seq<Action>, i: nat, j: nat, r: TaskId)
    requires g >= 1 && IsRun(g, ks, acts) && i <= j <= |acts| < |ks| && Pausing(WayOf(ks[i], r)) && !Ran(ks, acts, i, j, r)
    ensures WayOf(ks[j], r) == WayOf(ks[i], r)
  {
    hide KernelInv, Shape, CanStep, Defined, Apply, IsRun, WayOf;
    if i < j {
      RanStep(ks, acts, i, j);
      RunRests(g, ks, acts, i, j - 1, r);
      RunStep(g, ks, acts, j - 1);
      StepRests(g, ks[j - 1], acts[j - 1], r);
    }
  }

  /** Task r stands between two statements from step i to step j, where it is current again. */
  ghost predicate Resumes(ks: seq<Kernel>, acts: seq<Action>, i: nat, j: nat, r: TaskId)
    requires i <= j <= |acts| < |ks|
  {
    ks[j].current == r && !Ran(ks, acts, i, j, r)
  }

  lemma FreeValue(g: nat, k: Kernel, l: nat)
    requires g >= 1 && KernelInv(g, k) && l < |k.locks|
    ensures Shape(k) && (k.locks[l].value == 1 <==> TokenOwners(k, l) == {}) && k.locks[l].value <= 1
  {
    hide Places, SleepersOk, WheelInv, Owned, TokenOwners;
    ShapeOf(k);
    var o := OwnerOf(k, l);
    OwnersAre(k, l, o);
    OwnedValue(k, l, o);
  }

  /** Whoever rests between two statements while the lock is free at first finds it free exactly if nobody
      has taken the token meanwhile, without giving it back. */
  lemma FreeOnReturn(g: nat, ks: seq<Kernel>, acts: seq<Action>, i: nat, j: nat, l: nat, r: TaskId)
    requires g >= 1 && IsRun(g, ks, acts) && i <= j <= |acts| && l < |ks[i].locks| && ks[i].locks[l].value == 1
    requires |ks| == |acts| + 1 && Pausing(WayOf(ks[i], r)) && Resumes(ks, acts, i, j, r)
    ensures l < |ks[j].locks| && ks[j].current in ks[j].tasks && Me(ks[j]).pc == WayOf(ks[i], r)
    ensures ks[j].locks[l].value == 1 <==> !Taken(ks, acts, i, j, l)
  {
    hide KernelInv, Shape, TokenOwners, Taken, CanStep, Defined, Apply, Initial, Asserts;
    RunKeepsInv(g, ks, acts);
    FreeValue(g, ks[i], l);
    HeldIff(g, ks, acts, i, j, l);
    FreeValue(g, ks[j], l);
    RunRests(g, ks, acts, i, j, r);
  }

  /** The end of sema_up. A task gives the token back at step i and comes to the assertion behind it at step j:
      the assertion holds exactly if nobody has taken the token meanwhile, without giving it back. If it
      fails, the task never comes out of it. */
  lemma CheckHoldsIff(g: nat, ks: seq<Kernel>, acts: seq<Action>, i: nat, j: nat, l: nat)
    requires g >= 1 && IsRun(g, ks, acts) && i < j < |acts| && acts[i] == acts[j] == Continue && l < |ks[i].locks|
    requires ks[i].current in ks[i].tasks && Me(ks[i]).pc == Give(l) && Resumes(ks, acts, i + 1, j, ks[i].current)
    ensures l < |ks[j].locks| && ks[j].current in ks[j].tasks && Me(ks[j]).pc == Check(l)
    ensures ks[j].locks[l].value == 1 <==> !Taken(ks, acts, i + 1, j, l)
    ensures ks[j].current in ks[j + 1].tasks
    ensures ks[j + 1].tasks[ks[j].current].pc == if Taken(ks, acts, i + 1, j, l) then Stuck else Idle
  {
    hide KernelInv, Shape, CanStep, Defined, Apply, Initial, Asserts, Taken, Resumes;
    RunStep(g, ks, acts, i);
    ApplyContinue(g, ks[i]);
    LockValue(g, ks[i], l);
    GiveEffect(ks[i], l);
    FreeOnReturn(g, ks, acts, i + 1, j, l, ks[i].current);
    RunStep(g, ks, acts, j);
    ApplyContinue(g, ks[j]);
    CheckEffect(ks[j], l);
  }

  lemma CheckEffect(k: Kernel, l: nat)
    requires Shape(k) && CanContinue(k) && Me(k).pc == Check(l)
    ensures l < |k.locks| && k.current in Statement(k).tasks
    ensures Statement(k).tasks[k.current].pc == if k.locks[l].value == 1 then Idle else Stuck
  {
  }

  // ---- The signal ----

  /** A sema_up that wakes a waiter (step i) and gives the token back (step i + 1); then a signal; then, if it
      has cost the releasing task the processor, two statements of whoever runs, and no release of the lock
      before the task is back at step j. */
  ghost predicate SignalBeforeCheck(ks: seq<Kernel>, acts: seq<Action>, i: nat, j: nat, l: nat)
    requires |ks| == |acts| + 1
  {
    && i + 3 <= j < |acts|
    && acts[i] == acts[i + 1] == acts[i + 3] == acts[j] == Continue && acts[i + 2].Handler?
    && l < |ks[i].locks| && ks[i].current in ks[i].tasks && Me(ks[i]).pc == Up(l)
    && !ks[i].nests && ks[i].locks[l].waiters != []
    && Resumes(ks, acts, i + 2, j, ks[i].current)
    && (j > i + 3 ==> i + 4 < j && acts[i + 4] == Continue && NotGiven(ks, acts, i + 5, j, l))
  }

  /** The releasing task after its two statements, and the woken one. */
  lemma Released(g: nat, ks: seq<Kernel>, acts: seq<Action>, i: nat, l: nat)
    requires g >= 1 && IsRun(g, ks, acts) && i + 2 < |acts| && acts[i] == acts[i + 1] == Continue
    requires l < |ks[i].locks| && ks[i].current in ks[i].tasks && Me(ks[i]).pc == Up(l) && !ks[i].nests && ks[i].locks[l].waiters != []
    ensures var r, w, k := ks[i].current, ks[i].locks[l].waiters[0], ks[i + 2];
            && ks[i + 1].current == r && r in ks[i + 1].tasks && Me(ks[i + 1]).pc == Give(l) && l < |ks[i + 1].locks|
            && k.current == r && r in k.tasks && Me(k).ticks == Me(ks[i]).ticks && !Me(k).collaborative
            && l < |k.locks| && k.locks[l].value == 1 && k.ready != [] && k.ready[0] == w && w != r && !k.nests
            && WayOf(k, w) == Retry(l)
  {
    hide KernelInv, Shape, CanStep, Defined, Apply, Initial, Asserts, Statement, OnlyMine;
    RunStep(g, ks, acts, i);
    ApplyContinue(g, ks[i]);
    FirstHalf(g, ks[i], l);
    PlacesOf(g, ks[i]);
    UpEffect(ks[i], l);
    StepKeepsNests(g, ks[i], acts[i]);
    RunStep(g, ks, acts, i + 1);
    ApplyContinue(g, ks[i + 1]);
    StepKeepsNests(g, ks[i + 1], acts[i + 1]);
    LockValue(g, ks[i + 1], l);
    GiveEffect(ks[i + 1], l);
    StatementElsewhere(ks[i + 1]);
    OthersWay(ks[i + 1], ks[i + 2], LockOf(Me(ks[i + 1]).pc), ks[i].locks[l].waiters[0]);
  }

  /** The woken task, once it runs: it passes the test, and takes the token. */
  lemma WokenTakes(g: nat, ks: seq<Kernel>, acts: seq<Action>, i: nat, l: nat)
    requires g >= 1 && IsRun(g, ks, acts) && i + 1 < |acts| && acts[i] == acts[i + 1] == Continue
    requires l < |ks[i].locks| && ks[i].locks[l].value == 1 && !ks[i].nests && WayOf(ks[i], ks[i].current) == Retry(l)
    ensures TakesAt(ks, acts, i + 1, l)
  {
    hide KernelInv, Shape, CanStep, Defined, Apply, Initial, Asserts, Statement;
    RunStep(g, ks, acts, i);
    ApplyContinue(g, ks[i]);
    DownEffect(ks[i], l);
  }

  lemma RestsAt(ks: seq<Kernel>, acts: seq<Action>, i: nat, j: nat, m: nat, r: TaskId)
    requires i <= m <= j <= |acts| < |ks| && Resumes(ks, acts, i, j, r)
    ensures m < j ==> !(acts[m] == Continue && ks[m].current == r)
  {
  }

  /** Exactly when such a signal makes the assertion fail: when the time slice of the releasing task has ended. */
  lemma SignalFailsCheck(g: nat, ks: seq<Kernel>, acts: seq<Action>, i: nat, j: nat, l: nat)
    requires g >= 1 && IsRun(g, ks, acts) && |ks| == |acts| + 1 && SignalBeforeCheck(ks, acts, i, j, l)
    ensures l < |ks[j].locks| && ks[j].current in ks[j].tasks && Me(ks[j]).pc == Check(l)
    ensures ks[j].locks[l].value != 1 <==> Me(ks[i]).ticks == 0
  {
    hide KernelInv, Shape, CanStep, Defined, Apply, Initial, Asserts, Statement, TimerHandler, Takes, Gives, SameWaiting, WayOf;
    var r, w := ks[i].current, ks[i].locks[l].waiters[0];
    Released(g, ks, acts, i, l);
    CheckHoldsIff(g, ks, acts, i + 1, j, l);
    RunStep(g, ks, acts, i + 2);
    ApplyHandler(g, ks[i + 2], acts[i + 2].now);
    SignalBetween(g, ks[i + 2], acts[i + 2].now, w);
    OtherStepWaits(g, ks[i + 2], acts[i + 2]);
    LocksSame(ks[i + 2], ks[i + 3]);
    SameWay(ks[i + 2], ks[i + 3], w);
    StepKeepsNests(g, ks[i + 2], acts[i + 2]);
    if Me(ks[i]).ticks == 0 {
      assert ks[i + 3].current == w && j > i + 3;
      WokenTakes(g, ks, acts, i + 3, l);
      assert TakesAt(ks, acts, i + 4, l) && NotGiven(ks, acts, i + 5, j, l);
    } else {
      RestsAt(ks, acts, i + 2, j, i + 3, r);
      assert j == i + 3;
      assert !TakesAt(ks, acts, i + 2, l);
    }
  }

  /** The value of a semaphore is a uint8_t. */
  function Decremented(value: nat): nat { (value - 1) % 256 }

  /** The end of sema_down. A task passes the test of a later round at step i and comes to take the token at step j:
      the token is still there, and the assertion behind the decrement holds, exactly if nobody has taken it
      meanwhile, without giving it back. */
  lemma TokenThereIff(g: nat, ks: seq<Kernel>, acts: seq<Action>, i: nat, j: nat, l: nat)
    requires g >= 1 && IsRun(g, ks, acts) && i < j <= |acts| && acts[i] == Continue && l < |ks[i].locks|
    requires ks[i].current in ks[i].tasks && Me(ks[i]).pc == Retry(l) && ks[i].locks[l].value != 0 && !ks[i].nests
    requires |ks| == |acts| + 1 && Resumes(ks, acts, i + 1, j, ks[i].current)
    ensures l < |ks[j].locks| && ks[j].current in ks[j].tasks && Me(ks[j]).pc == Take(l)
    ensures ks[j].locks[l].value >= 1 <==> !Taken(ks, acts, i + 1, j, l)
    ensures Decremented(ks[j].locks[l].value) == 0 <==> !Taken(ks, acts, i + 1, j, l)
  {
    hide KernelInv, Shape, CanStep, Defined, Apply, Initial, Asserts, Taken, Resumes;
    RunStep(g, ks, acts, i);
    ApplyContinue(g, ks[i]);
    LockValue(g, ks[i], l);
    DownEffect(ks[i], l);
    FreeOnReturn(g, ks, acts, i + 1, j, l, ks[i].current);
    RunKeepsInv(g, ks, acts);
    FreeValue(g, ks[j], l);
  }

  /** If interrupts nest, no step ever stands before the assertion of sema_up alone, and so all assertions of the
      source hold in every run. */
  lemma NestedMeetsAsserts(g: nat, ks: seq<Kernel>, acts: seq<Action>, i: nat)
    requires g >= 1 && IsRun(g, ks, acts) && i < |acts| && ks[0].nests
    ensures Shape(ks[i]) && CanStep(g, ks[i], acts[i]) && Asserts(g, ks[i], acts[i]) && ks[i].nests
    ensures !Pausing(Me(ks[i]).pc)
  {
    hide KernelInv, Shape, CanStep, Defined, Apply, Initial, Asserts;
    RunKeepsInv(g, ks, acts);
    RunStep(g, ks, acts, i);
    RunNoPause(g, ks, acts, i);
    CurrentKnown(ks[i]);
    MeNoPause(ks[i]);
  }
}
