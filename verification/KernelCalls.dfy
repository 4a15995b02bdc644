/** Sleeping and blocking over runs, from the call to its end. */
module KernelCalls {
  import opened TimerWheel
  import opened TimerFiring
  import opened TimerRefinement
  import opened Kernel
  import opened KernelPlaces
  import opened KernelSleep
  import opened KernelLocks
  import opened KernelRuns
  import opened KernelSafety
  import opened KernelWakeUps
  import opened KernelAlarm
  import opened KernelSteps
  import opened KernelCounts
  import opened KernelSlices
  import opened Hook

  // ---- Sleep ----

  /** A task that has called for a sleep spins until the next signal, which finds its request as it was made. */
  lemma SleepIsHandled(g: nat, ks: seq<Kernel>, acts: seq<Action>, i: nat)
    requires g >= 1 && IsRun(g, ks, acts) && i + 1 < |acts| < |ks| && acts[i].Sleep?
    ensures Shape(ks[i + 1]) && ks[i].current == ks[i + 1].current && acts[i + 1].Handler?
    ensures Me(ks[i + 1]).collaborative && Me(ks[i + 1]).sleepMs == acts[i].ms
  {
    hide KernelInv, Shape, CanStep, Defined, Apply, Initial, Queue;
    RunStep(g, ks, acts, i);
    RunStep(g, ks, acts, i + 1);
    ShapeFacts(ks[i + 1]);
    StepMine(g, ks[i], acts[i]);
    StepQueue(g, ks[i], acts[i]);
    OnlySignals(g, ks[i + 1], acts[i + 1]);
  }

  lemma OnlySignals(g: nat, k: Kernel, a: Action)
    requires g >= 1 && Shape(k) && CanStep(g, k, a) && Me(k).pc == Spin && Me(k).collaborative
    ensures a.Handler?
  {
  }

  /** The task sleeps until the tick `at`, and no longer. */
  ghost predicate SleepsTo(ks: seq<Kernel>, acts: seq<Action>, i: nat, j: nat, t: TaskId, at: nat)
    requires i < j < |ks| == |acts| + 1
  {
    QuietUntil(acts, i, j, at) ==>
      && Asleep(ks[j], t)
      && (j < |acts| && acts[j].Handler? && at <= acts[j].now ==> t == ks[j + 1].current || t in ks[j + 1].ready)
  }

  /** A sleep from its call: the handler run after it finds the task at some wheel base, and the task sleeps to the
      tick that a timer of that many milliseconds, created at this base, fires at. */
  lemma SleepFromCall(g: nat, ks: seq<Kernel>, acts: seq<Action>, i: nat, j: nat)
    requires g >= 1 && IsRun(g, ks, acts) && i + 1 < j < |ks| == |acts| + 1 && acts[i].Sleep?
    ensures ks[i + 2].wheel.jiffies + acts[i].ms < WORD
    ensures SleepsTo(ks, acts, i + 1, j, ks[i].current, CreatedFireAt(g, ks[i + 2].wheel.jiffies, acts[i].ms))
  {
    hide KernelInv, Shape, CanStep, Defined, Apply, Initial, Asserts, CreatedFireAt, Asleep, CanHandle, TimerHandler;
    SleepIsHandled(g, ks, acts, i);
    HandlerStep(g, ks, acts, i + 1);
    RunStep(g, ks, acts, i + 1);
    ShapeFacts(ks[i + 1]);
    BaseIs(g, ks[i + 1], acts[i + 1].now);
    if QuietUntil(acts, i + 1, j, WakeTick(g, ks[i + 1], acts[i + 1].now)) {
      SleepLasts(g, ks, acts, i + 1, j);
    }
  }

  /** With an exact timer, usleep ends less than a millisecond of wheel time short of the request, and not after it. */
  lemma UsleepIsNear(g: nat, ks: seq<Kernel>, acts: seq<Action>, i: nat, j: nat, usec: nat) returns (at: nat)
    requires g >= 1 && IsRun(g, ks, acts) && i + 1 < j < |ks| == |acts| + 1 && acts[i] == Sleep(UsleepMs(usec)) && usec < UINT
    requires Exact(g, ks[i + 2].wheel.jiffies, UsleepMs(usec))
    ensures var base := ks[i + 2].wheel.jiffies; usec - 1000 < 1000 * (at - base) <= usec
    ensures SleepsTo(ks, acts, i + 1, j, ks[i].current, at)
  {
    hide Shape, CanStep, Defined, Apply, Initial, CreatedFireAt, Exact, SleepsTo;
    SleepFromCall(g, ks, acts, i, j);
    at := CreatedFireAt(g, ks[i + 2].wheel.jiffies, UsleepMs(usec));
    CreatedSharp(g, ks[i + 2].wheel.jiffies, UsleepMs(usec));
    UsleepIsFull(usec);
  }

  /** So does nanosleep, if the request fits. */
  lemma NanosleepIsNear(g: nat, ks: seq<Kernel>, acts: seq<Action>, i: nat, j: nat, sec: nat, nsec: nat) returns (at: nat)
    requires g >= 1 && IsRun(g, ks, acts) && i + 1 < j < |ks| == |acts| + 1 && acts[i] == Sleep(NanosleepMs(sec, nsec))
    requires nsec < 1_000_000_000 && sec * 1000 + nsec / 1_000_000 < UINT
    requires Exact(g, ks[i + 2].wheel.jiffies, NanosleepMs(sec, nsec))
    ensures var base, want := ks[i + 2].wheel.jiffies, 1_000_000_000 * sec + nsec;
            want - 1_000_000 < 1_000_000 * (at - base) <= want
    ensures SleepsTo(ks, acts, i + 1, j, ks[i].current, at)
  {
    hide Shape, CanStep, Defined, Apply, Initial, CreatedFireAt, Exact, SleepsTo;
    SleepFromCall(g, ks, acts, i, j);
    at := CreatedFireAt(g, ks[i + 2].wheel.jiffies, NanosleepMs(sec, nsec));
    CreatedSharp(g, ks[i + 2].wheel.jiffies, NanosleepMs(sec, nsec));
    NanosleepRounds(sec, nsec);
    hide NanosleepMs;
    var ms := sec * 1000 + nsec / 1_000_000;
    assert nsec == 1_000_000 * (nsec / 1_000_000) + nsec % 1_000_000;
  }

  // ---- task_block and task_unblock ----

  /** Task t is where task_block has put it, with status s. */
  ghost predicate ParkedWith(k: Kernel, t: TaskId, task: Task) {
    t in k.tasks && k.tasks[t] == task && Halted(task.status) && task.pc == Parked && !task.collaborative
  }

  lemma StepParked(g: nat, k: Kernel, a: Action, t: TaskId, task: Task)
    requires g >= 1 && KernelInv(g, k) && CanStep(g, k, a) && Defined(g, k, a) && KernelInv(g, Apply(g, k, a))
    requires ParkedWith(k, t, task) && a != Unblock(t)
    ensures ParkedWith(Apply(g, k, a), t, task)
  {
    hide KernelInv, CanStep, Defined, Apply, RunLog, Woken, Queue, Places;
    PlacesOf(g, k);
    PlacesOf(g, Apply(g, k, a));
    ParkedAway(k, t);
    StepOthers(g, k, a, t);
    StepQueue(g, k, a);
    if a.Handler? && t in Woken(RunLog(g, k.wheel, a.now)) { ParkedNotWoken(g, k, a.now, t); }
    ParkedNotQueued(g, k, a, t);
    StillParked(Apply(g, k, a), t);
  }

  lemma ParkedAway(k: Kernel, t: TaskId)
    requires Places(k) && t in k.tasks && Halted(k.tasks[t].status)
    ensures t != k.current && t !in k.ready
  {
  }

  lemma ParkedNotWoken(g: nat, k: Kernel, now: nat, t: TaskId)
    requires g >= 1 && KernelInv(g, k) && |k.wheel.cells| == SLOTS && t in k.tasks && Halted(k.tasks[t].status)
    ensures t !in Woken(RunLog(g, k.wheel, now))
  {
    hide Places, LocksOk, WheelInv, RunLog, Woken, WakesOnce, Callbacks;
    WokenAsleep(g, k, now);
  }

  lemma ParkedNotQueued(g: nat, k: Kernel, a: Action, t: TaskId)
    requires g >= 1 && KernelInv(g, k) && CanStep(g, k, a) && t in k.tasks && Halted(k.tasks[t].status) && k.tasks[t].pc == Parked
    requires a != Unblock(t) && Shape(k)
    ensures t !in Queue(g, k, a)
  {
    hide KernelInv, Fits, RunLog, Woken;
    PlacesOf(g, k);
    ParkedAway(k, t);
    hide Places;
    match a
    case Handler(now) => ParkedNotWoken(g, k, now, t);
    case Continue =>
      if Me(k).pc.Up? && k.locks[Me(k).pc.l].waiters != [] { WaiterElsewhere(k, Me(k).pc.l); }
    case _ =>
  }

  /** A task that is neither current nor ready nor asleep keeps its status. */
  lemma StillParked(k: Kernel, t: TaskId)
    requires Places(k) && t in k.tasks && t != k.current && t !in k.ready && !k.tasks[t].collaborative
    ensures k.tasks[t].status != READY && k.tasks[t].status != RUNNING
  {
    assert Coherent(k, t);
  }

  /** A task that blocks itself stays as it was when it did, with the status it asked for, until task_unblock is
      called for it. */
  lemma {:induction false} BlockLasts(g: nat, ks: seq<Kernel>, acts: seq<Action>, i: nat, j: nat)
    requires g >= 1 && IsRun(g, ks, acts) && i < j <= |acts| < |ks| && acts[i].BlockSelf? && ks[i].current in ks[i].tasks
    requires forall m | i < m < j :: acts[m] != Unblock(ks[i].current)
    ensures ParkedWith(ks[j], ks[i].current, Me(ks[i]).(status := acts[i].status, pc := Parked))
  {
    hide KernelInv, Shape, CanStep, Defined, Apply, Initial, ParkedWith;
    RunStep(g, ks, acts, j - 1);
    if i == j - 1 {
      StepMine(g, ks[i], acts[i]);
      BlockParks(g, ks[i], acts[i].status, ks[j]);
    } else {
      BlockLasts(g, ks, acts, i, j - 1);
      StepParked(g, ks[j - 1], acts[j - 1], ks[i].current, Me(ks[i]).(status := acts[i].status, pc := Parked));
    }
  }

  lemma BlockParks(g: nat, k: Kernel, s: Status, k': Kernel)
    requires g >= 1 && KernelInv(g, k) && Shape(k) && CanStep(g, k, BlockSelf(s))
    requires k.current in k'.tasks && k'.tasks[k.current] == Me(k).(status := s, pc := Parked)
    ensures ParkedWith(k', k.current, Me(k).(status := s, pc := Parked))
  {
    hide ReadyOk, WaitersOk, LocksOk, SleepersOk, WheelInv;
    assert Coherent(k, k.current);
  }

  /** Then it is the next to run, from behind its task_block. */
  lemma UnblockIsNext(g: nat, ks: seq<Kernel>, acts: seq<Action>, j: nat, task: Task)
    requires g >= 1 && IsRun(g, ks, acts) && j < |acts| < |ks| && acts[j].Unblock? && ParkedWith(ks[j], acts[j].id, task)
    ensures ks[j + 1].current == ks[j].current && ks[j + 1].ready == [acts[j].id] + ks[j].ready
    ensures acts[j].id in ks[j + 1].tasks && ks[j + 1].tasks[acts[j].id] == task.(status := READY)
  {
    hide KernelInv, Shape, CanStep, Defined, Apply, Initial;
    RunStep(g, ks, acts, j);
    Unblocked(g, ks[j], acts[j].id);
  }

  lemma Unblocked(g: nat, k: Kernel, t: TaskId)
    requires g >= 1 && Shape(k) && CanStep(g, k, Unblock(t)) && Defined(g, k, Unblock(t))
    ensures var k' := Apply(g, k, Unblock(t));
            && k'.current == k.current && k'.ready == [t] + k.ready && t in k.tasks && t in k'.tasks
            && k'.tasks[t] == k.tasks[t].(status := READY)
  {
  }

  // ---- Waiting for a lock ----

  /** The tasks that join the waiters of lock l among steps i to j, in order. */
  function AllJoined(ks: seq<Kernel>, acts: seq<Action>, i: nat, j: nat, l: nat): seq<TaskId>
    requires i <= j <= |acts| <= |ks|
  {
    if i == j then []
    else AllJoined(ks, acts, i, j - 1, l) + if ks[j - 1].current in ks[j - 1].tasks then Joins(ks[j - 1], acts[j - 1], l) else []
  }

  /** The tasks that sema_up wakes. */
  function AllCalled(ks: seq<Kernel>, acts: seq<Action>, i: nat, j: nat, l: nat): seq<TaskId>
    requires i <= j <= |acts| <= |ks|
  {
    if i == j then []
    else AllCalled(ks, acts, i, j - 1, l)
         + if ks[j - 1].current in ks[j - 1].tasks && l < |ks[j - 1].locks| then Called(ks[j - 1], acts[j - 1], l) else []
  }

  lemma QueueStep(a: seq<TaskId>, joined: seq<TaskId>, called: seq<TaskId>, b: seq<TaskId>, x: seq<TaskId>, y: seq<TaskId>, c: seq<TaskId>)
    requires a + joined == called + b && b + x == y + c
    ensures a + (joined + x) == called + y + c
  {
    assert a + (joined + x) == a + joined + x;
    assert called + b + x == called + (b + x);
  }

  /** First come, first woken: over any steps of a run, the waiters of a lock are a queue. */
  lemma {:induction false} WokenInOrder(g: nat, ks: seq<Kernel>, acts: seq<Action>, i: nat, j: nat, l: nat)
    requires g >= 1 && IsRun(g, ks, acts) && i <= j <= |acts| < |ks| && l < |ks[i].locks|
    ensures l < |ks[j].locks|
    ensures ks[i].locks[l].waiters + AllJoined(ks, acts, i, j, l) == AllCalled(ks, acts, i, j, l) + ks[j].locks[l].waiters
  {
    hide KernelInv, Shape, CanStep, Defined, Apply, Initial, Joins, Called;
    if i < j {
      WokenInOrder(g, ks, acts, i, j - 1, l);
      RunStep(g, ks, acts, j - 1);
      StepWaiters(g, ks[j - 1], acts[j - 1], l);
      QueueStep(ks[i].locks[l].waiters, AllJoined(ks, acts, i, j - 1, l), AllCalled(ks, acts, i, j - 1, l), ks[j - 1].locks[l].waiters,
                Joins(ks[j - 1], acts[j - 1], l), Called(ks[j - 1], acts[j - 1], l), ks[j].locks[l].waiters);
    } else {
      assert ks[i].locks[l].waiters + [] == [] + ks[j].locks[l].waiters;
    }
  }
}
