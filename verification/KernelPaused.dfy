/** A signal in the middle of sema_up: exactly which interruptions lose the wake-up. */
module KernelPaused {
  import opened TimerWheel
  import opened TimerRefinement
  import opened Kernel
  import opened KernelPlaces
  import opened KernelSleep
  import opened KernelLocks
  import opened KernelRuns
  import opened KernelSafety
  import opened KernelWakeUps

  /** Task r has woken a waiter of lock l and not yet given the token back. */
  ghost predicate Paused(k: Kernel, l: nat, r: TaskId) { r in k.tasks && k.tasks[r].pc == Give(l) }

  /** Task t executes a statement among steps i to j. */
  ghost predicate Ran(ks: seq<Kernel>, acts: seq<Action>, i: nat, j: nat, t: TaskId)
    requires i <= j <= |acts| <= |ks|
  {
    exists m | i <= m < j :: acts[m] == Continue && ks[m].current == t
  }

  ghost predicate AllRan(ks: seq<Kernel>, acts: seq<Action>, i: nat, j: nat, ts: set<TaskId>)
    requires i <= j <= |acts| <= |ks|
  {
    forall t | t in ts :: Ran(ks, acts, i, j, t)
  }

  lemma StatementStaysOnLock(k: Kernel)
    requires Shape(k) && CanContinue(k)
    ensures k.current in Statement(k).tasks && LockOf(Statement(k).tasks[k.current].pc) in {None, LockOf(Me(k).pc)}
  {
  }

  /** While r owns the lock, anybody else inside an operation on it is on the way in. */
  lemma OthersOutside(g: nat, k: Kernel, l: nat, r: TaskId)
    requires g >= 1 && KernelInv(g, k) && l < |k.locks| && Paused(k, l, r) && k.current != r
    ensures k.locks[l].value == 0
    ensures Shape(k) && (LockOf(Me(k).pc) == Some(l) ==>
                              Me(k).pc.AcquireTest? || Me(k).pc.Down? || Me(k).pc.Retry? || Me(k).pc.Take? || Me(k).pc.Check?)
  {
    hide Places, SleepersOk, WheelInv, OwnerPhase;
    ShapeOf(k);
    LockValue(g, k, l);
    var o := OwnerOf(k, l);
    OwnedAt(k, l, o, r);
    OwnedAt(k, l, o, k.current);
  }

  /** What a step of anybody else changes for the tasks on their way to lock l. */
  ghost predicate PausedNext(k: Kernel, k': Kernel, l: nat, retried: bool)
    requires l < |k.locks|
  {
    && l < |k'.locks|
    && (forall t :: t in Coming(k', l) <==> t in Coming(k, l) && !(retried && t == k.current))
    && (forall t | t in k.locks[l].waiters :: t in k'.locks[l].waiters)
    && (retried && k.current in Coming(k, l) ==> k.current in k'.locks[l].waiters)
  }

  lemma StatementPaused(g: nat, k: Kernel, l: nat, r: TaskId)
    requires g >= 1 && KernelInv(g, k) && CanContinue(k) && l < |k.locks| && Paused(k, l, r) && k.current != r
    ensures Paused(Statement(k), l, r) && PausedNext(k, Statement(k), l, true)
  {
    hide KernelInv, Statement, OnlyMine, CanContinue, Shape;
    PlacesOf(g, k);
    hide Places;
    TokenThere(k);
    StatementElsewhere(k);
    OthersOutside(g, k, l, r);
    StatementStaysOnLock(k);
    var k', pc := Statement(k), Me(k).pc;
    if LockOf(pc) != Some(l) {
      OnlyMineAt(k, k', LockOf(pc), l);
      OnlyMinePaused(k, k', l, LockOf(pc), r);
    } else {
      if Plain(pc) { PlainEffect(k, l); } else { DownEffect(k, l); }
      OnlyMinePaused(k, k', l, Some(l), r);
    }
  }

  lemma TokenThere(k: Kernel)
    requires Shape(k) && CanContinue(k)
    ensures Me(k).pc.Take? ==> Me(k).pc.l < |k.locks| && k.locks[Me(k).pc.l].value >= 1
  {
  }

  lemma OnlyMinePaused(k: Kernel, k': Kernel, l: nat, m: Option<nat>, r: TaskId)
    requires k.current in k.tasks && OnlyMine(k, k', m) && l < |k.locks| && Paused(k, l, r) && k.current != r
    requires k'.locks[l].waiters == k.locks[l].waiters || k'.locks[l].waiters == k.locks[l].waiters + [k.current]
    requires k'.tasks[k.current].pc == Retry(l) ==> k.current in k'.locks[l].waiters
    requires k'.tasks[k.current].pc != Take(l) && Me(k).pc != Take(l)
    requires k'.locks[l].waiters == k.locks[l].waiters ==> Me(k).pc != Retry(l)
    ensures Paused(k', l, r) && PausedNext(k, k', l, true)
  {
  }

  lemma WaitingPaused(k: Kernel, k': Kernel, l: nat, r: TaskId)
    requires SameWaiting(k, k') && l < |k.locks| && Paused(k, l, r)
    ensures Paused(k', l, r) && PausedNext(k, k', l, false)
  {
    ComingSame(k, k', l);
    assert WayOf(k', r) == WayOf(k, r);
  }

  lemma StepPaused(g: nat, k: Kernel, a: Action, l: nat, r: TaskId)
    requires g >= 1 && KernelInv(g, k) && CanStep(g, k, a) && Defined(g, k, a) && l < |k.locks| && Paused(k, l, r)
    requires !(a == Continue && k.current == r)
    ensures Paused(Apply(g, k, a), l, r) && PausedNext(k, Apply(g, k, a), l, a == Continue)
  {
    hide KernelInv, Apply, CanStep, Defined, SameWaiting, Paused, PausedNext;
    PlacesOf(g, k);
    if a == Continue {
      ApplyContinue(g, k);
      StatementPaused(g, k, l, r);
    } else {
      OtherStepWaits(g, k, a);
      WaitingPaused(k, Apply(g, k, a), l, r);
    }
  }


  /** While task r rests between the halves of sema_up, those on their way are the ones of the beginning that
      have not retried; the others wait again. */
  lemma {:induction false} PausedRun(g: nat, ks: seq<Kernel>, acts: seq<Action>, i: nat, j: nat, l: nat, r: TaskId)
    requires g >= 1 && IsRun(g, ks, acts) && i <= j <= |acts| && l < |ks[i].locks|
    requires Paused(ks[i], l, r) && !Ran(ks, acts, i, j, r)
    ensures l < |ks[j].locks| && Paused(ks[j], l, r)
    ensures forall t :: t in Coming(ks[j], l) <==> t in Coming(ks[i], l) && !Ran(ks, acts, i, j, t)
    ensures forall t | t in Coming(ks[i], l) && Ran(ks, acts, i, j, t) :: t in ks[j].locks[l].waiters
  {
    hide KernelInv, Shape, CanStep, Defined, Apply, Coming, Paused, IsRun;
    RunLength(g, ks, acts);
    if i < j {
      var k, a := ks[j - 1], acts[j - 1];
      assert forall t :: Ran(ks, acts, i, j, t) <==> Ran(ks, acts, i, j - 1, t) || (a == Continue && k.current == t) by {
        RanStep(ks, acts, i, j);
      }
      PausedRun(g, ks, acts, i, j - 1, l, r);
      hide Ran;
      RunStep(g, ks, acts, j - 1);
      StepPaused(g, k, a, l, r);
    }
  }

  lemma RunLength(g: nat, ks: seq<Kernel>, acts: seq<Action>)
    requires g >= 1 && IsRun(g, ks, acts)
    ensures |ks| == |acts| + 1
  {
  }

  lemma RanStep(ks: seq<Kernel>, acts: seq<Action>, i: nat, j: nat)
    requires i < j <= |acts| <= |ks|
    ensures forall t :: Ran(ks, acts, i, j, t) <==> Ran(ks, acts, i, j - 1, t) || (acts[j - 1] == Continue && ks[j - 1].current == t)
  {
  }

  /** Steps i to j of a run are one interrupted sema_up on lock l: the first half, then anything that contains
      no statement of the releasing task, then its second half. */
  ghost predicate InterruptedUp(ks: seq<Kernel>, acts: seq<Action>, i: nat, j: nat, l: nat)
    requires |ks| == |acts| + 1
  {
    && i < j < |acts| && acts[i] == acts[j] == Continue
    && l < |ks[i].locks| && ks[i].current in ks[i].tasks && Me(ks[i]).pc == Up(l)
    && !ks[i].nests && ks[i].locks[l].waiters != []
    && ks[j].current == ks[i].current && !Ran(ks, acts, i + 1, j, ks[i].current)
  }

  lemma FirstHalf(g: nat, k: Kernel, l: nat)
    requires g >= 1 && KernelInv(g, k) && CanContinue(k) && l < |k.locks| && Me(k).pc == Up(l)
    requires !k.nests && k.locks[l].waiters != []
    ensures var k', w := Statement(k), k.locks[l].waiters[0];
            && l < |k'.locks| && k'.current == k.current && Paused(k', l, k.current)
            && Coming(k', l) == Coming(k, l) + {w} && w != k.current
            && k'.ready == [w] + k.ready && Me(k').ticks == Me(k).ticks && !Me(k').collaborative
  {
    hide ReadyOk, WaitersOk, LocksOk, SleepersOk, WheelInv;
    assert Coherent(k, k.current);
    hide AllCoherent;
    WaiterElsewhere(k, l);
    UpEffect(k, l);
    var k', ws := Statement(k), k.locks[l].waiters;
    forall t ensures t in Coming(k', l) <==> t in Coming(k, l) || t == ws[0] {
      assert t in ws <==> t == ws[0] || t in ws[1..];
    }
  }

  /** An interrupted sema_up forgets its waiters exactly if everybody on the way to the lock - the task it has
      woken, and those woken before - has retried, in vain, before the token is given back. Then the
      wake-up is lost: the token is free, tasks wait for it, and nobody comes. */
  lemma InterruptedUpLosesWakeUp(g: nat, ks: seq<Kernel>, acts: seq<Action>, i: nat, j: nat, l: nat)
    requires g >= 1 && IsRun(g, ks, acts) && InterruptedUp(ks, acts, i, j, l)
    ensures l < |ks[j + 1].locks| && l < |ks[i + 1].locks|
    ensures Coming(ks[i + 1], l) == Coming(ks[i], l) + {ks[i].locks[l].waiters[0]}
    ensures !WakeUpPending(ks[j + 1], l) <==> AllRan(ks, acts, i + 1, j, Coming(ks[i + 1], l))
  {
    hide KernelInv, Shape, CanStep, Defined, Apply, Initial, WakeUpPending, Statement;
    var r, w := ks[i].current, ks[i].locks[l].waiters[0];
    RunStep(g, ks, acts, i);
    ApplyContinue(g, ks[i]);
    FirstHalf(g, ks[i], l);
    PausedRun(g, ks, acts, i + 1, j, l, r);
    hide Ran;
    RunStep(g, ks, acts, j);
    TokenOut(g, ks[j], l, r);
    StepKeepsWakeUp(g, ks[j], Continue, l);
    assert w in Coming(ks[i + 1], l);
    hide Coming;
    EmptyIff(Coming(ks[j], l), Coming(ks[i + 1], l));
  }

  lemma TokenOut(g: nat, k: Kernel, l: nat, r: TaskId)
    requires g >= 1 && KernelInv(g, k) && l < |k.locks| && Paused(k, l, r)
    ensures WakeUpPending(k, l)
  {
    hide KernelInv;
    LockValue(g, k, l);
  }

  lemma EmptyIff(a: set<TaskId>, b: set<TaskId>)
    requires a <= b
    ensures a == {} <==> forall t | t in b :: t !in a
  {
  }

  /** The signal handler with the woken task at the head of the ready list: it runs next exactly if the
      time slice of the releasing task has ended. */
  lemma SignalBetween(g: nat, k: Kernel, now: nat, w: TaskId)
    requires g >= 1 && KernelInv(g, k) && CanStep(g, k, Handler(now)) && CanHandle(g, k, now)
    requires k.ready != [] && k.ready[0] == w && !Me(k).collaborative
    ensures TimerHandler(g, k, now).current == if Me(k).ticks == 0 then w else k.current
  {
    hide LocksOk, Fits, Woken, RunLog, Run, WheelInv, SleepersOk;
    TimersKeep(g, k, now);
  }

  /** Exactly when a signal right after task_unblock loses the wake-up, if the next thing to happen is a
      statement and nobody else was on the way: when the time slice of the releasing task has ended. It
      does not matter who else is ready or waits, nor what happens until the task gives the token back. */
  lemma SignalLosesWakeUp(g: nat, ks: seq<Kernel>, acts: seq<Action>, i: nat, j: nat, l: nat)
    requires g >= 1 && IsRun(g, ks, acts) && InterruptedUp(ks, acts, i, j, l) && i + 2 < |acts|
    requires acts[i + 1].Handler? && acts[i + 2] == Continue && Coming(ks[i], l) == {}
    ensures l < |ks[j + 1].locks| && (!WakeUpPending(ks[j + 1], l) <==> Me(ks[i]).ticks == 0)
  {
    hide KernelInv, Shape, CanStep, Apply, Initial, WakeUpPending, Statement, TimerHandler, Coming;
    var r, w := ks[i].current, ks[i].locks[l].waiters[0];
    RunStep(g, ks, acts, i);
    ApplyContinue(g, ks[i]);
    FirstHalf(g, ks[i], l);
    RunStep(g, ks, acts, i + 1);
    ApplyHandler(g, ks[i + 1], acts[i + 1].now);
    SignalBetween(g, ks[i + 1], acts[i + 1].now, w);
    InterruptedUpLosesWakeUp(g, ks, acts, i, j, l);
    assert Coming(ks[i + 1], l) == {w};
    if Me(ks[i]).ticks == 0 {
      assert ks[i + 2].current == w && j > i + 2;
    } else {
      assert ks[i + 2].current == r && j == i + 2;
    }
  }

  lemma ApplyHandler(g: nat, k: Kernel, now: nat)
    requires g >= 1 && Shape(k) && CanStep(g, k, Handler(now)) && Defined(g, k, Handler(now))
    ensures CanHandle(g, k, now) && Apply(g, k, Handler(now)) == TimerHandler(g, k, now)
  {
    hide TimerHandler, CanHandle;
  }
}
