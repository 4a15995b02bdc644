/** When a sleeping task wakes up. */
module KernelAlarm {
  import opened TimerWheel
  import opened TimerFiring
  import opened TimerRefinement
  import opened TimerConservation
  import TimerRuns
  import opened CellSums
  import opened Kernel
  import opened KernelPlaces
  import opened KernelSleep
  import opened KernelLocks
  import opened KernelRuns
  import opened KernelSafety
  import opened Hook

  lemma PendingBounds(g: nat, w: Wheel, d: Due)
    requires g >= 1 && WheelInv(g, w) && d in Pending(g, w)
    ensures w.jiffies <= d.at <= d.timer.expires
  {
    hide Sum, Sits, FireAt;
    var c, t := SumWitness(DueFn(g, w.jiffies, 1), w.cells, d);
    FireBounds(g, LevelOf(c), w.jiffies, t.expires);
  }

  lemma {:induction false} WokenHas(j: nat, ts: seq<Timer>, x: Timer, t: TaskId)
    requires x in ts && x.callback == Wake(t)
    ensures t in Woken(Firings(j, ts))
  {
    var n := |ts| - 1;
    assert ts == ts[..n] + [ts[n]];
    WokenPush(j, ts[..n], ts[n]);
    if x != ts[n] { WokenHas(j, ts[..n], x, t); }
  }

  /** A pending wake-up fires at its tick and stays pending at any other. */
  lemma TickAlarm(g: nat, w: Wheel, d: Due, t: TaskId)
    requires g >= 1 && WheelInv(g, w) && Fits(w, w.jiffies) && d in Pending(g, w) && d.timer.callback == Wake(t)
    ensures if d.at == w.jiffies then t in Woken(Firings(w.jiffies, Fired(g, w))) else d in Pending(g, Tick(g, w))
  {
    assert |w.cells| == SLOTS;
    hide WheelInv, Fits, Pending, Fired, Tick, Woken, Firings, RearmDues, CellSum;
    TickRefines(g, w);
    var f := FiredDues(w.jiffies, Fired(g, w));
    if d.at == w.jiffies {
      assert d in f;
      var x := CellSumWitness(FiredFn(w.jiffies), 0, Fired(g, w), d);
      WokenHas(w.jiffies, Fired(g, w), x, t);
    } else {
      assert f[d] == 0;
    }
  }

  lemma {:induction false} RunAlarm(g: nat, w: Wheel, now: int, d: Due, t: TaskId)
    requires g >= 1 && WheelInv(g, w) && (w.jiffies <= now ==> Fits(w, now))
    requires d in Pending(g, w) && d.timer.callback == Wake(t)
    ensures if d.at <= now then t in Woken(RunLog(g, w, now)) else d in Pending(g, Run(g, w, now))
    decreases now - w.jiffies
  {
    PendingBounds(g, w, d);
    hide WheelInv, Pending, Fired, Tick, Woken, Firings;
    if w.jiffies <= now {
      assert Fits(w, w.jiffies);
      TimerRuns.TickKeepsFits(g, w, now);
      hide Fits;
      TickRefines(g, w);
      TickAlarm(g, w, d, t);
      WokenConcat(Firings(w.jiffies, Fired(g, w)), RunLog(g, Tick(g, w), now));
      if d.at != w.jiffies { RunAlarm(g, Tick(g, w), now, d, t); }
    }
  }

  /** A run of the wheel wakes a sleeping task if and only if it reaches the tick its wake-up is pending for;
      otherwise the wake-up stays pending. */
  lemma RunWakesExactly(g: nat, k: Kernel, now: nat, d: Due, t: TaskId)
    requires g >= 1 && KernelInv(g, k) && Fits(k.wheel, now) && d in Pending(g, k.wheel) && d.timer.callback == Wake(t)
    ensures Shape(k) && (t in Woken(RunLog(g, k.wheel, now)) <==> d.at <= now)
    ensures d.at > now ==> d in Pending(g, Run(g, k.wheel, now))
  {
    hide Places, LocksOk, WheelInv, Fits, Pending, Run, RunLog, Woken, Callbacks, WakesOnce, Asleep;
    ShapeOf(k);
    RunAlarm(g, k.wheel, now, d, t);
    RunWakes(g, k.wheel, now);
    if d.at > now { PendingCounts(g, Run(g, k.wheel, now), d, t); }
    assert Callbacks(k.wheel)[Wake(t)] <= 1;
  }

  lemma PendingCounts(g: nat, w: Wheel, d: Due, t: TaskId)
    requires g >= 1 && d in Pending(g, w) && d.timer.callback == Wake(t)
    ensures Callbacks(w)[Wake(t)] >= 1
  {
    hide Sum, FireAt;
    var c, x := SumWitness(DueFn(g, w.jiffies, 1), w.cells, d);
    SumHas(Anywhere(ByCallback()), w.cells, c, x);
    assert Anywhere(ByCallback())(c, x) == Wake(t);
  }

  /** Who has a wake-up pending is asleep. */
  lemma AlarmMeansAsleep(g: nat, k: Kernel, d: Due, t: TaskId)
    requires g >= 1 && KernelInv(g, k) && d in Pending(g, k.wheel) && d.timer.callback == Wake(t)
    ensures Asleep(k, t)
  {
    hide Places, LocksOk, WakesOnce, WheelInv, Asleep, Pending, Callbacks;
    PendingCounts(g, k.wheel, d, t);
  }

  /** The tick at which the task put to sleep by this handler run is going to be woken. */
  function WakeTick(g: nat, k: Kernel, now: nat): nat
    requires g >= 1 && Shape(k)
  {
    CreatedFireAt(g, Run(g, k.wheel, now).jiffies, Me(k).sleepMs)
  }

  /** A handler run that finds its task in a sleep call arms the task's timer: for the requested number of
      milliseconds, never late, early by whole turns of level 1 at most. */
  lemma SleepArms(g: nat, k: Kernel, now: nat) returns (d: Due)
    requires g >= 1 && KernelInv(g, k) && CanStep(g, k, Handler(now)) && Me(k).collaborative
    ensures CanHandle(g, k, now)
    ensures var k' := TimerHandler(g, k, now); var e := k'.wheel.jiffies + Me(k).sleepMs;
            && d in Pending(g, k'.wheel) && d.timer.callback == Wake(k.current) && d.timer.expires == e
            && d.at == WakeTick(g, k, now)
            && k'.wheel.jiffies <= d.at <= e && (e - d.at) % 256 == 0 && e - d.at <= 256 * (g - 1)
  {
    hide Places, LocksOk, SleepersOk, WheelInv, FireAt, Sits, Fits, Pending, CreatedFireAt, Run, Create, TimerHandler, AfterTimers, CanHandle;
    ShapeOf(k);
    var id := SleepTimer(g, k, now);
    var w, due := Run(g, k.wheel, now), Me(k).sleepMs;
    CreatePending(g, w, id, due, 0, Wake(k.current));
    d := Due(Timer(id, w.jiffies + due, 0, Wake(k.current)), WakeTick(g, k, now));
    CreatedBounds(g, w.jiffies, due);
    CreateJiffies(g, w, id, due, Wake(k.current));
  }

  lemma SleepTimer(g: nat, k: Kernel, now: nat) returns (id: nat)
    requires g >= 1 && KernelInv(g, k) && CanStep(g, k, Handler(now)) && Me(k).collaborative
    ensures CanHandle(g, k, now)
    ensures var w := Run(g, k.wheel, now);
            && |w.cells| == SLOTS && w.jiffies + Me(k).sleepMs < WORD
            && TimerHandler(g, k, now).wheel == Create(g, w, id, Me(k).sleepMs, 0, Wake(k.current))
  {
    hide Places, LocksOk, SleepersOk, WheelInv, Run, Create, TimerHandler, CanHandle;
    ShapeOf(k);
    HandlerKeepsInv(g, k, now);
    id := HandlerWheel(g, k, now);
  }

  lemma CreateJiffies(g: nat, w: Wheel, id: nat, due: nat, cb: Callback)
    requires g >= 1 && |w.cells| == SLOTS
    ensures Create(g, w, id, due, 0, cb).jiffies == w.jiffies
  {
  }

  lemma CreatedBounds(g: nat, j: nat, due: nat)
    requires g >= 1 && j + due < WORD
    ensures var at, e := CreatedFireAt(g, j, due), j + due; j <= at <= e && (e - at) % 256 == 0 && e - at <= 256 * (g - 1)
  {
    hide LevelFor, Sits, FireAt;
    ArmedSits(g, j, j + due);
    FireBounds(g, LevelFor(g, due), j, j + due);
  }

  /** Every step keeps a pending wake-up pending, except a handler run that reaches its tick. */
  lemma StepAlarm(g: nat, k: Kernel, a: Action, d: Due, t: TaskId)
    requires g >= 1 && KernelInv(g, k) && CanStep(g, k, a) && Defined(g, k, a)
    requires d in Pending(g, k.wheel) && d.timer.callback == Wake(t)
    ensures a.Handler? && d.at <= a.now ==> t in Woken(RunLog(g, k.wheel, a.now))
    ensures !(a.Handler? && d.at <= a.now) ==> d in Pending(g, Apply(g, k, a).wheel)
  {
    hide LocksOk, SleepersOk, FireAt, Sits, Pending, CreatedFireAt, Woken, RunLog, Create, Delete, Places, WheelInv;
    assert Shape(k) by { ShapeOf(k); }
    match a
    case Handler(now) => HandlerAlarm(g, k, now, d, t);
    case CreateTimer(due, period, tag) => CreatePending(g, k.wheel, k.nextTimer, due, period, Other(tag));
    case DeleteTimer(c, pos) => DeletePending(g, k.wheel, c, pos, d);
    case _ => SameWheel(g, k, a);
  }

  lemma SameWheel(g: nat, k: Kernel, a: Action)
    requires g >= 1 && Shape(k) && CanStep(g, k, a) && Defined(g, k, a)
    requires !a.Handler? && !a.CreateTimer? && !a.DeleteTimer?
    ensures Apply(g, k, a).wheel == k.wheel
  {
    hide LockStatement;
  }

  /** A handler run catches the wheel up, and arms a timer if it finds its task in a sleep call. */
  lemma HandlerWheel(g: nat, k: Kernel, now: nat) returns (id: nat)
    requires g >= 1 && KernelInv(g, k) && CanStep(g, k, Handler(now)) && CanHandle(g, k, now)
    ensures var w := Run(g, k.wheel, now);
            && |w.cells| == SLOTS && (Me(k).collaborative ==> w.jiffies + Me(k).sleepMs < WORD)
            && TimerHandler(g, k, now).wheel
               == if Me(k).collaborative then Create(g, w, id, Me(k).sleepMs, 0, Wake(k.current)) else w
  {
    hide LocksOk, Woken, RunLog, WheelInv, Create, Fits;
    TimersKeep(g, k, now);
    RunKeepsWheelInv(g, k.wheel, now);
    hide Places, SleepersOk, Run;
    id := AfterTimers(g, k, now).nextTimer;
  }

  lemma HandlerAlarm(g: nat, k: Kernel, now: nat, d: Due, t: TaskId)
    requires g >= 1 && KernelInv(g, k) && CanStep(g, k, Handler(now)) && CanHandle(g, k, now)
    requires d in Pending(g, k.wheel) && d.timer.callback == Wake(t)
    ensures if d.at <= now then t in Woken(RunLog(g, k.wheel, now)) else d in Pending(g, TimerHandler(g, k, now).wheel)
  {
    hide Places, LocksOk, SleepersOk, WheelInv, Pending, Woken, RunLog, Create, Fits, Run, TimerHandler, CanHandle;
    ShapeOf(k);
    var id := HandlerWheel(g, k, now);
    RunAlarm(g, k.wheel, now, d, t);
    if Me(k).collaborative {
      CreatePending(g, Run(g, k.wheel, now), id, Me(k).sleepMs, 0, Wake(k.current));
    }
  }

  /** A woken task is on the ready list, or already current, when the handler returns. */
  lemma WokenRuns(g: nat, k: Kernel, now: nat, t: TaskId)
    requires g >= 1 && KernelInv(g, k) && CanStep(g, k, Handler(now)) && t in Woken(RunLog(g, k.wheel, now))
    ensures CanHandle(g, k, now)
    ensures var k' := TimerHandler(g, k, now); t == k'.current || t in k'.ready
  {
    HandlerKeepsInv(g, k, now);
    hide LocksOk, WheelInv, Fits, Woken, RunLog, Run;
    TimersKeep(g, k, now);
    hide Places, SleepersOk;
    var k1 := AfterTimers(g, k, now);
    assert t in k1.ready;
    QueueKept(g, k1, t);
  }

  lemma QueueKept(g: nat, k: Kernel, t: TaskId)
    requires g >= 1 && Shape(k) && (Me(k).collaborative ==> k.ready != []) && t in k.ready
    ensures t == AfterTick(g, k).current || t in AfterTick(g, k).ready
  {
    hide Create;
    assert k.ready == [k.ready[0]] + k.ready[1..];
    assert (k.ready + [k.current])[1..] == k.ready[1..] + [k.current];
  }

  ghost predicate QuietUntil(acts: seq<Action>, i: nat, j: nat, at: nat) {
    forall m | i < m < j && m < |acts| :: acts[m].Handler? ==> acts[m].now < at
  }

  /** Whatever happens meanwhile, a pending wake-up stays pending until a handler run reaches its tick. */
  lemma {:induction false} AlarmLasts(g: nat, ks: seq<Kernel>, acts: seq<Action>, i: nat, j: nat, d: Due, t: TaskId)
    requires g >= 1 && IsRun(g, ks, acts) && i < j < |ks| && QuietUntil(acts, i, j, d.at)
    requires d in Pending(g, ks[i + 1].wheel) && d.timer.callback == Wake(t)
    ensures d in Pending(g, ks[j].wheel)
  {
    hide KernelInv, CanStep, Defined, Apply, Initial, Shape, Pending, Asserts;
    RunKeepsInv(g, ks, acts);
    if i + 1 < j {
      AlarmLasts(g, ks, acts, i, j - 1, d, t);
      assert KernelInv(g, ks[j - 1]) && ks[j] == Apply(g, ks[j - 1], acts[j - 1]);
      StepAlarm(g, ks[j - 1], acts[j - 1], d, t);
    }
  }

  /** A sleep from beginning to end. The handler run at step i finds its task in a sleep call of `ms`
      milliseconds and arms it at wheel base `base` for the tick `at`. The task then sleeps until the first
      handler run at or after `at`, and that run makes it ready. `at` is never later than base + ms, early by
      whole turns of level 1 at most, and with granularity 1 it is base + ms. */
  lemma SleepLasts(g: nat, ks: seq<Kernel>, acts: seq<Action>, i: nat, j: nat)
    requires g >= 1 && IsRun(g, ks, acts) && i < j < |ks| && acts[i].Handler?
    requires ks[i].current in ks[i].tasks && Me(ks[i]).collaborative && Shape(ks[i])
    requires QuietUntil(acts, i, j, WakeTick(g, ks[i], acts[i].now))
    ensures var t := ks[i].current; var at := WakeTick(g, ks[i], acts[i].now); var e := ks[i + 1].wheel.jiffies + Me(ks[i]).sleepMs;
            && at <= e && (e - at) % 256 == 0 && e - at <= 256 * (g - 1)
            && Asleep(ks[j], t)
            && (j < |acts| && acts[j].Handler? && at <= acts[j].now ==> t == ks[j + 1].current || t in ks[j + 1].ready)
  {
    hide KernelInv, CanStep, Defined, Apply, Initial, Shape, Pending, Asserts, WakeTick, TimerHandler;
    RunKeepsInv(g, ks, acts);
    var k, t := ks[i], ks[i].current;
    assert KernelInv(g, k) && KernelInv(g, ks[j]);
    HandlerStep(g, ks, acts, i);
    var d := SleepArms(g, k, acts[i].now);
    AlarmLasts(g, ks, acts, i, j, d, t);
    AlarmMeansAsleep(g, ks[j], d, t);
    if j < |acts| && acts[j].Handler? && d.at <= acts[j].now {
      HandlerStep(g, ks, acts, j);
      StepAlarm(g, ks[j], acts[j], d, t);
      WokenRuns(g, ks[j], acts[j].now, t);
    }
  }

  /** A sleep lasts at least `want` milliseconds exactly if its timer fires that late. If so, the task is asleep
      for as long as no handler run reaches that many milliseconds after the wheel base; if not, the first
      handler run from a certain earlier tick on wakes it. */
  ghost predicate LastsIff(g: nat, ks: seq<Kernel>, acts: seq<Action>, i: nat, j: nat, want: nat, enough: bool)
    requires g >= 1 && i < j < |ks| == |acts| + 1 && acts[i].Handler? && ks[i].current in ks[i].tasks && Shape(ks[i])
  {
    var t, base, at := ks[i].current, ks[i + 1].wheel.jiffies, WakeTick(g, ks[i], acts[i].now);
    if enough then QuietUntil(acts, i, j, base + want) ==> Asleep(ks[j], t)
    else
      && base <= at < base + want
      && (QuietUntil(acts, i, j, at) && j < |acts| && acts[j].Handler? && at <= acts[j].now ==>
            t == ks[j + 1].current || t in ks[j + 1].ready)
  }

  lemma SleepAsLong(g: nat, ks: seq<Kernel>, acts: seq<Action>, i: nat, j: nat, want: nat)
    requires g >= 1 && IsRun(g, ks, acts) && |ks| == |acts| + 1 && i < j < |ks| && acts[i].Handler?
    requires ks[i].current in ks[i].tasks && Me(ks[i]).collaborative && Shape(ks[i])
    ensures var base, ms := ks[i + 1].wheel.jiffies, Me(ks[i]).sleepMs;
            base + ms < WORD && LastsIff(g, ks, acts, i, j, want, CreatedFireAt(g, base, ms) >= base + want)
  {
    hide KernelInv, CanStep, Defined, Apply, Initial, Shape, Asserts, TimerHandler, CanHandle, CreatedFireAt, Run, Pending;
    var k, now := ks[i], acts[i].now;
    RunKeepsInv(g, ks, acts);
    HandlerStep(g, ks, acts, i);
    BaseIs(g, k, now);
    var base, at := ks[i + 1].wheel.jiffies, WakeTick(g, k, now);
    CreatedNotLate(g, base, Me(k).sleepMs);
    if QuietUntil(acts, i, j, at) {
      SleepLasts(g, ks, acts, i, j);
    }
    if QuietUntil(acts, i, j, base + want) && at >= base + want {
      assert QuietUntil(acts, i, j, at);
    }
  }

  /** The promise of sleep, exactly: the task has called sleep for `seconds`. */
  lemma SleepKeepsPromise(g: nat, ks: seq<Kernel>, acts: seq<Action>, i: nat, j: nat, seconds: nat)
    requires g >= 1 && IsRun(g, ks, acts) && |ks| == |acts| + 1 && i < j < |ks| && acts[i].Handler? && seconds < UINT
    requires ks[i].current in ks[i].tasks && Me(ks[i]).collaborative && Shape(ks[i]) && Me(ks[i]).sleepMs == SleepMs(seconds)
    ensures LastsIff(g, ks, acts, i, j, 1000 * seconds, seconds <= 4294967 && Exact(g, ks[i + 1].wheel.jiffies, 1000 * seconds))
  {
    hide IsRun, Shape, LastsIff, CreatedFireAt, Exact;
    SleepAsLong(g, ks, acts, i, j, 1000 * seconds);
    SleepPromise(g, ks[i + 1].wheel.jiffies, seconds);
  }

  /** The promise of usleep. */
  lemma UsleepKeepsPromise(g: nat, ks: seq<Kernel>, acts: seq<Action>, i: nat, j: nat, usec: nat)
    requires g >= 1 && IsRun(g, ks, acts) && |ks| == |acts| + 1 && i < j < |ks| && acts[i].Handler? && usec < UINT
    requires ks[i].current in ks[i].tasks && Me(ks[i]).collaborative && Shape(ks[i]) && Me(ks[i]).sleepMs == UsleepMs(usec)
    ensures LastsIff(g, ks, acts, i, j, UsleepWant(usec), usec % 1000 == 0 && Exact(g, ks[i + 1].wheel.jiffies, UsleepMs(usec)))
  {
    hide IsRun, Shape, LastsIff, CreatedFireAt, Exact;
    SleepAsLong(g, ks, acts, i, j, UsleepWant(usec));
    UsleepPromise(g, ks[i + 1].wheel.jiffies, usec);
  }

  /** The promise of nanosleep. */
  lemma NanosleepKeepsPromise(g: nat, ks: seq<Kernel>, acts: seq<Action>, i: nat, j: nat, sec: nat, nsec: nat)
    requires g >= 1 && IsRun(g, ks, acts) && |ks| == |acts| + 1 && i < j < |ks| && acts[i].Handler? && nsec < 1_000_000_000
    requires ks[i].current in ks[i].tasks && Me(ks[i]).collaborative && Shape(ks[i]) && Me(ks[i]).sleepMs == NanosleepMs(sec, nsec)
    ensures LastsIff(g, ks, acts, i, j, NanosleepWant(sec, nsec),
                     nsec % 1_000_000 == 0 && sec * 1000 + nsec / 1_000_000 < UINT
                     && Exact(g, ks[i + 1].wheel.jiffies, NanosleepMs(sec, nsec)))
  {
    hide IsRun, Shape, LastsIff, CreatedFireAt, Exact, NanosleepMs, NanosleepWant;
    SleepAsLong(g, ks, acts, i, j, NanosleepWant(sec, nsec));
    NanosleepPromise(g, ks[i + 1].wheel.jiffies, sec, nsec);
  }

  lemma BaseIs(g: nat, k: Kernel, now: nat)
    requires g >= 1 && KernelInv(g, k) && CanStep(g, k, Handler(now)) && Me(k).collaborative
    ensures CanHandle(g, k, now)
    ensures var base := TimerHandler(g, k, now).wheel.jiffies;
            WakeTick(g, k, now) == CreatedFireAt(g, base, Me(k).sleepMs) && base + Me(k).sleepMs < WORD
  {
    hide Places, LocksOk, SleepersOk, WheelInv, Fits, Run, Create, TimerHandler, AfterTimers, CanHandle, CreatedFireAt;
    ShapeOf(k);
    var id := SleepTimer(g, k, now);
    CreateJiffies(g, Run(g, k.wheel, now), id, Me(k).sleepMs, Wake(k.current));
  }

  lemma HandlerStep(g: nat, ks: seq<Kernel>, acts: seq<Action>, i: nat)
    requires g >= 1 && IsRun(g, ks, acts) && i < |acts| && acts[i].Handler?
    ensures Shape(ks[i]) && CanStep(g, ks[i], acts[i]) && CanHandle(g, ks[i], acts[i].now) && Defined(g, ks[i], acts[i])
    ensures ks[i + 1] == TimerHandler(g, ks[i], acts[i].now)
  {
    hide Shape, CanStep, Initial, TimerHandler, CanHandle;
  }
}
