/** Time slices and priorities over whole runs: who keeps the processor, how long exactly, and what a task gets
    when it is started, preempted or woken. */
module KernelSlices {
  import opened TimerWheel
  import opened TimerRefinement
  import opened Kernel
  import opened KernelPlaces
  import opened KernelSleep
  import opened KernelLocks
  import opened KernelRuns
  import opened KernelSafety
  import opened KernelWakeUps
  import opened KernelWaiting
  import opened KernelSteps
  import opened KernelCounts

  /** The current task gives nothing up of its own accord, among steps i to j. */
  ghost predicate Keeps(ks: seq<Kernel>, acts: seq<Action>, i: nat, j: nat)
    requires i <= j <= |acts| <= |ks|
  {
    forall m | i <= m < j :: ks[m].current in ks[m].tasks && !GivesUp(ks[m], acts[m])
  }

  /** A step inside the time slice of the current task. */
  lemma StepInSlice(g: nat, k: Kernel, a: Action)
    requires g >= 1 && KernelInv(g, k) && CanStep(g, k, a) && Defined(g, k, a)
    requires k.current in k.tasks && !GivesUp(k, a) && !Me(k).collaborative && (a.Handler? ==> Me(k).ticks >= 1)
    ensures var k' := Apply(g, k, a);
            && k'.current == k.current && k'.current in k'.tasks && !Me(k').collaborative
            && Me(k').ticks == Me(k).ticks - One(a.Handler?) && Me(k').priority == Me(k).priority
  {
    hide KernelInv, CanStep, Defined, Apply, Queue;
    StepMine(g, k, a);
    StepQueue(g, k, a);
  }

  /** A time slice of n ticks: for the next n handler runs exactly, the task keeps the processor, if it does not
      give it up itself. */
  lemma {:induction false} SliceLasts(g: nat, ks: seq<Kernel>, acts: seq<Action>, i: nat, j: nat)
    requires g >= 1 && IsRun(g, ks, acts) && i <= j <= |acts| < |ks| && Keeps(ks, acts, i, j)
    requires ks[i].current in ks[i].tasks && !Me(ks[i]).collaborative && Handlers(acts, i, j) <= Me(ks[i]).ticks
    ensures ks[j].current == ks[i].current && ks[j].current in ks[j].tasks && !Me(ks[j]).collaborative
    ensures Me(ks[j]).ticks == Me(ks[i]).ticks - Handlers(acts, i, j) && Me(ks[j]).priority == Me(ks[i]).priority
  {
    hide KernelInv, Shape, CanStep, Defined, Apply, Initial, GivesUp;
    if i < j {
      assert Keeps(ks, acts, i, j - 1);
      SliceLasts(g, ks, acts, i, j - 1);
      RunStep(g, ks, acts, j - 1);
      StepInSlice(g, ks[j - 1], acts[j - 1]);
    }
  }

  /** The end of a time slice: a handler run that finds no tick left puts the task behind all others that are ready,
      with a full slice, and the first of them runs, or the same task again if there is none. */
  lemma StepEndsSlice(g: nat, k: Kernel, now: nat)
    requires g >= 1 && KernelInv(g, k) && CanStep(g, k, Handler(now)) && Defined(g, k, Handler(now))
    requires k.current in k.tasks && !Me(k).collaborative && Me(k).ticks == 0
    ensures Shape(k)
    ensures var k', q := Apply(g, k, Handler(now)), k.ready + Woken(RunLog(g, k.wheel, now)) + [k.current];
            && k'.current == q[0] && k'.ready == q[1..] && k.current in k'.tasks
            && k'.tasks[k.current].ticks == k'.tasks[k.current].priority == Me(k).priority
  {
    hide KernelInv, CanStep, Defined, Apply, RunLog, Woken;
    StepMine(g, k, Handler(now));
    StepQueue(g, k, Handler(now));
  }

  /** Over runs: a task that does not give the processor up loses it at the handler run after the last of its
      ticks, not before, and gets its full slice back. */
  lemma SliceIsExact(g: nat, ks: seq<Kernel>, acts: seq<Action>, i: nat, j: nat)
    requires g >= 1 && IsRun(g, ks, acts) && i <= j < |acts| < |ks| && Keeps(ks, acts, i, j) && acts[j].Handler?
    requires ks[i].current in ks[i].tasks && !Me(ks[i]).collaborative && Handlers(acts, i, j) == Me(ks[i]).ticks
    ensures Shape(ks[j]) && ks[j].current == ks[i].current
    ensures var t, q := ks[i].current, ks[j].ready + Woken(RunLog(g, ks[j].wheel, acts[j].now)) + [ks[i].current];
            && ks[j + 1].current == q[0] && ks[j + 1].ready == q[1..] && t in ks[j + 1].tasks
            && ks[j + 1].tasks[t].ticks == ks[j + 1].tasks[t].priority == Me(ks[i]).priority
  {
    hide KernelInv, Shape, CanStep, Defined, Apply, Initial, GivesUp, RunLog, Woken;
    SliceLasts(g, ks, acts, i, j);
    RunStep(g, ks, acts, j);
    StepEndsSlice(g, ks[j], acts[j].now);
  }

  /** Over runs: a task woken by its timer gets its full slice, and is awake. */
  lemma WokenIsFresh(g: nat, ks: seq<Kernel>, acts: seq<Action>, i: nat, t: TaskId)
    requires g >= 1 && IsRun(g, ks, acts) && i < |acts| < |ks| && acts[i].Handler? && Shape(ks[i])
    requires t in Woken(RunLog(g, ks[i].wheel, acts[i].now))
    ensures t in ks[i].tasks && t != ks[i].current && t in ks[i + 1].tasks
    ensures SameButStatus(Refilled(ks[i].tasks[t]), ks[i + 1].tasks[t])
    ensures t in ks[i + 1].ready || t == ks[i + 1].current
  {
    hide KernelInv, Shape, CanStep, Defined, Apply, Initial, RunLog, Woken, Refilled, SameButStatus, Queue;
    RunStep(g, ks, acts, i);
    ShapeFacts(ks[i]);
    WokenAway(g, ks[i], acts[i].now, t);
    StepOthers(g, ks[i], acts[i], t);
    StepQueue(g, ks[i], acts[i]);
    InQueue(g, ks[i], acts[i], t);
  }

  lemma ShapeFacts(k: Kernel)
    requires Shape(k)
    ensures k.current in k.tasks && |k.wheel.cells| == SLOTS
  {
  }

  lemma WokenAway(g: nat, k: Kernel, now: nat, t: TaskId)
    requires g >= 1 && KernelInv(g, k) && |k.wheel.cells| == SLOTS && t in Woken(RunLog(g, k.wheel, now))
    ensures t in k.tasks && t != k.current
  {
    hide Places, LocksOk, WheelInv, RunLog, Woken, WakesOnce, Callbacks;
    WokenAsleep(g, k, now);
  }

  lemma InQueue(g: nat, k: Kernel, a: Action, t: TaskId)
    requires g >= 1 && k.current in k.tasks && |k.wheel.cells| == SLOTS && a.Handler? && t in Woken(RunLog(g, k.wheel, a.now))
    ensures t in Queue(g, k, a) && (Queue(g, k, a) != [] ==> t == Queue(g, k, a)[0] || t in Queue(g, k, a)[1..])
  {
    hide RunLog, Woken;
    var q := Queue(g, k, a);
    assert q == [q[0]] + q[1..];
  }

  // ---- Priorities ----

  /** Task t does not end, among steps i to j. */
  ghost predicate LivesOn(ks: seq<Kernel>, acts: seq<Action>, i: nat, j: nat, t: TaskId)
    requires i <= j <= |acts| <= |ks|
  {
    forall m | i <= m < j :: !(acts[m].Exit? && ks[m].current == t)
  }

  /** No step changes a priority. */
  lemma StepPriority(g: nat, k: Kernel, a: Action, t: TaskId)
    requires g >= 1 && KernelInv(g, k) && CanStep(g, k, a) && Defined(g, k, a) && t in k.tasks && !(a.Exit? && k.current == t)
    ensures t in Apply(g, k, a).tasks && Apply(g, k, a).tasks[t].priority == k.tasks[t].priority
  {
    hide KernelInv, CanStep, Defined, Apply, RunLog, Woken;
    if t == k.current { StepMine(g, k, a); } else { StepOthers(g, k, a, t); }
  }

  lemma {:induction false} PriorityLasts(g: nat, ks: seq<Kernel>, acts: seq<Action>, i: nat, j: nat, t: TaskId)
    requires g >= 1 && IsRun(g, ks, acts) && i <= j <= |acts| < |ks| && t in ks[i].tasks && LivesOn(ks, acts, i, j, t)
    ensures t in ks[j].tasks && ks[j].tasks[t].priority == ks[i].tasks[t].priority
  {
    hide KernelInv, Shape, CanStep, Defined, Apply, Initial;
    if i < j {
      assert LivesOn(ks, acts, i, j - 1, t);
      PriorityLasts(g, ks, acts, i, j - 1, t);
      RunStep(g, ks, acts, j - 1);
      StepPriority(g, ks[j - 1], acts[j - 1], t);
    }
  }

  /** A task started with a priority that fits a byte keeps it until it ends. */
  lemma StartedPriority(g: nat, ks: seq<Kernel>, acts: seq<Action>, i: nat, j: nat)
    requires g >= 1 && IsRun(g, ks, acts) && i < j <= |acts| < |ks| && acts[i].Start? && LivesOn(ks, acts, i + 1, j, acts[i].id)
    ensures acts[i].id in ks[j].tasks && ks[j].tasks[acts[i].id].priority == acts[i].priority % 256
    ensures 0 <= acts[i].priority < 256 ==> ks[j].tasks[acts[i].id].priority == acts[i].priority
  {
    hide KernelInv, Shape, CanStep, Defined, Apply, Initial;
    RunStep(g, ks, acts, i);
    NewTask(g, ks[i], acts[i], acts[i].id);
    PriorityLasts(g, ks, acts, i + 1, j, acts[i].id);
  }

  // ---- The first slice ----

  /** Task x has not run yet: as task_start made it. */
  ghost predicate Waiting(k: Kernel, x: TaskId, task: Task) {
    x in k.tasks && SameButStatus(task, k.tasks[x]) && (x in k.ready || x == k.current)
  }

  lemma StepWaiting(g: nat, k: Kernel, a: Action, x: TaskId, task: Task)
    requires g >= 1 && KernelInv(g, k) && CanStep(g, k, a) && Defined(g, k, a) && Waiting(k, x, task) && x != k.current
    ensures Waiting(Apply(g, k, a), x, task)
  {
    hide KernelInv, CanStep, Defined, Apply, RunLog, Woken, Queue;
    PlacesOf(g, k);
    StepOthers(g, k, a, x);
    StepQueue(g, k, a);
    ReadyInQueue(g, k, a, x);
    if a.Handler? && x in Woken(RunLog(g, k.wheel, a.now)) {
      WokenNotReady(g, k, a.now, x);
    }
  }

  lemma ReadyInQueue(g: nat, k: Kernel, a: Action, x: TaskId)
    requires g >= 1 && k.current in k.tasks && |k.wheel.cells| == SLOTS && x in k.ready
    ensures var q := Queue(g, k, a); x in q && q != [] && (x == q[0] || x in q[1..])
  {
    hide RunLog, Woken;
    var q := Queue(g, k, a);
    assert x in q;
    assert q == [q[0]] + q[1..];
  }

  lemma WokenNotReady(g: nat, k: Kernel, now: nat, x: TaskId)
    requires g >= 1 && KernelInv(g, k) && CanStep(g, k, Handler(now)) && |k.wheel.cells| == SLOTS && x in k.ready
    ensures x !in Woken(RunLog(g, k.wheel, now))
  {
    hide WaitersOk, AllCoherent, LocksOk, WheelInv, RunLog, Woken, WakesOnce, Callbacks;
    WokenAsleep(g, k, now);
  }

  /** A started task waits its turn untouched; when it first runs it has the slice of its priority, is outside all
      calls, and holds no lock. */
  lemma {:induction false} FirstSlice(g: nat, ks: seq<Kernel>, acts: seq<Action>, i: nat, j: nat)
    requires g >= 1 && IsRun(g, ks, acts) && i < j <= |acts| < |ks| && acts[i].Start?
    requires forall m | i < m < j :: ks[m].current != acts[i].id
    ensures Waiting(ks[j], acts[i].id, Task(READY, acts[i].priority % 256, acts[i].priority % 256, false, 0, Idle, seq(|ks[i].locks|, _ => 0)))
  {
    hide KernelInv, Shape, CanStep, Defined, Apply, Initial, Queue;
    RunStep(g, ks, acts, j - 1);
    if i == j - 1 {
      NewTask(g, ks[i], acts[i], acts[i].id);
      ShapeFacts(ks[i]);
      StepQueue(g, ks[i], acts[i]);
      StartedLast(g, ks[i], acts[i]);
    } else {
      FirstSlice(g, ks, acts, i, j - 1);
      StepWaiting(g, ks[j - 1], acts[j - 1], acts[i].id,
                  Task(READY, acts[i].priority % 256, acts[i].priority % 256, false, 0, Idle, seq(|ks[i].locks|, _ => 0)));
    }
  }

  lemma StartedLast(g: nat, k: Kernel, a: Action)
    requires g >= 1 && k.current in k.tasks && |k.wheel.cells| == SLOTS && a.Start?
    ensures Queue(g, k, a) == k.ready + [a.id] && !Dispatches(k, a)
  {
  }
}
