/** Sleeping tasks and the timers that wake them. */
module KernelSleep {
  import opened TimerWheel
  import opened TimerRefinement
  import opened TimerConservation
  import opened TimerRuns
  import opened CellSums
  import opened Kernel
  import opened KernelPlaces

  function ByCallback(): Timer -> Callback { (t: Timer) => t.callback }

  /** The callbacks of all pending timers. */
  ghost function Callbacks(w: Wheel): multiset<Callback> { Bag(ByCallback(), w.cells) }

  /** A timer that wakes a task is a one-shot. */
  ghost predicate WakesOnce(w: Wheel) {
    forall c: nat, t | c < |w.cells| && t in w.cells[c] :: t.callback.Wake? ==> t.period == 0
  }

  /** Exactly the sleeping tasks have a wake-up timer pending, and each has one. */
  ghost predicate SleepersOk(k: Kernel) {
    && WakesOnce(k.wheel)
    && forall t: TaskId :: Callbacks(k.wheel)[Wake(t)] == if Asleep(k, t) then 1 else 0
  }

  // ---- The wheel's side ----

  lemma {:induction false} WokenConcat(a: seq<Firing>, b: seq<Firing>)
    ensures Woken(a + b) == Woken(a) + Woken(b)
  {
    if b == [] {
      assert a + b == a;
    } else {
      var n := |b| - 1;
      WokenConcat(a, b[..n]);
      assert (a + b)[..|a| + n] == a + b[..n];
    }
  }

  function WokenBy(t: Timer): seq<TaskId> {
    match t.callback
    case Wake(id) => [id]
    case Other(_) => []
  }

  lemma WokenPush(j: nat, ts: seq<Timer>, t: Timer)
    ensures Woken(Firings(j, ts + [t])) == Woken(Firings(j, ts)) + WokenBy(t)
  {
    var log := Firings(j, ts + [t]);
    assert log[..|ts|] == Firings(j, ts) && log[|ts|] == Firing(j, t);
  }

  /** Among fired timers, the wake-ups are counted by the one-shots. */
  lemma {:induction false} WokenCount(j: nat, ts: seq<Timer>, id: TaskId)
    requires forall t | t in ts :: t.callback.Wake? ==> t.period == 0
    ensures multiset(Woken(Firings(j, ts)))[id] == ListBag(ByCallback(), OneShots(ts))[Wake(id)]
  {
    if ts == [] {
      CellSumEmpty(Anywhere(ByCallback()), 0);
    } else {
      var n := |ts| - 1;
      var init, t := ts[..n], ts[n];
      assert ts == init + [t];
      WokenCount(j, init, id);
      WokenPush(j, init, t);
      OneShotsPush(ByCallback(), init, t);
    }
  }

  lemma FiredWakesOnce(g: nat, w: Wheel)
    requires g >= 1 && |w.cells| == SLOTS && WakesOnce(w)
    ensures forall t | t in Fired(g, w) :: t.callback.Wake? ==> t.period == 0
  {
    forall t | t in Fired(g, w) ensures t.callback.Wake? ==> t.period == 0 {
      var c := CascadesFrom(g, w.jiffies, w.cells, Slot(1, w.jiffies), t);
    }
  }

  lemma TickKeepsWakesOnce(g: nat, w: Wheel)
    requires g >= 1 && |w.cells| == SLOTS && WakesOnce(w)
    ensures WakesOnce(Tick(g, w))
  {
    hide Cascades, Rearm, Slot;
    var j := w.jiffies;
    var rest := Cascades(g, j, w.cells)[Slot(1, j) := []];
    var w' := Tick(g, w);
    FiredWakesOnce(g, w);
    forall c: nat, t | c < |w'.cells| && t in w'.cells[c] ensures t.callback.Wake? ==> t.period == 0 {
      RearmFrom(g, j, rest, Fired(g, w), c, t);
      if t in rest[c] {
        var c' := CascadesFrom(g, j, w.cells, c, t);
      } else {
        var i :| 0 <= i < |Fired(g, w)| && Fired(g, w)[i].period != 0 && t == Rearmed(j, Fired(g, w)[i]);
        assert Fired(g, w)[i] in Fired(g, w);
      }
    }
  }

  /** Catching up turns pending wake-ups into woken tasks, one for one. */
  lemma {:induction false} RunWakes(g: nat, w: Wheel, now: int)
    requires g >= 1 && |w.cells| == SLOTS && WakesOnce(w)
    ensures WakesOnce(Run(g, w, now))
    ensures forall t: TaskId ::
              Callbacks(Run(g, w, now))[Wake(t)] + multiset(Woken(RunLog(g, w, now)))[t] == Callbacks(w)[Wake(t)]
    decreases now - w.jiffies
  {
    hide Tick, Fired, Firings, Woken, Callbacks, WakesOnce;
    if w.jiffies <= now {
      var j, ts := w.jiffies, Fired(g, w);
      TickKeepsWakesOnce(g, w);
      RunWakes(g, Tick(g, w), now);
      WokenConcat(Firings(j, ts), RunLog(g, Tick(g, w), now));
      forall t: TaskId ensures Callbacks(Tick(g, w))[Wake(t)] + multiset(Woken(Firings(j, ts)))[t] == Callbacks(w)[Wake(t)] {
        TickWakes(g, w, t);
      }
    } else {
      WokenNone();
    }
  }

  lemma WokenNone()
    ensures Woken([]) == []
  {
  }

  lemma TickWakes(g: nat, w: Wheel, t: TaskId)
    requires g >= 1 && |w.cells| == SLOTS && WakesOnce(w)
    ensures Callbacks(Tick(g, w))[Wake(t)] + multiset(Woken(Firings(w.jiffies, Fired(g, w))))[t] == Callbacks(w)[Wake(t)]
  {
    hide Tick, Fired, Firings, Woken, Bag, ListBag;
    TickBag(ByCallback(), g, w);
    FiredWakesOnce(g, w);
    WokenCount(w.jiffies, Fired(g, w), t);
  }

  lemma {:induction false} RunKeepsWheelInv(g: nat, w: Wheel, now: int)
    requires g >= 1 && WheelInv(g, w) && (w.jiffies <= now ==> Fits(w, now))
    ensures WheelInv(g, Run(g, w, now))
    ensures Run(g, w, now).jiffies == if w.jiffies <= now then now + 1 else w.jiffies
    decreases now - w.jiffies
  {
    hide Tick, Ok;
    if w.jiffies <= now {
      assert Fits(w, w.jiffies);
      TickRefines(g, w);
      TickKeepsFits(g, w, now);
      RunKeepsWheelInv(g, Tick(g, w), now);
    }
  }

  // ---- The handler ----

  lemma {:induction false} CountedOnce(ts: seq<TaskId>)
    requires forall t :: multiset(ts)[t] <= 1
    ensures NoDup(ts)
  {
    if ts != [] {
      var n := |ts| - 1;
      assert ts == ts[..n] + [ts[n]];
      assert forall t :: multiset(ts[..n])[t] <= multiset(ts)[t];
      CountedOnce(ts[..n]);
      forall i, j | 0 <= i < j < |ts| ensures ts[i] != ts[j] {
        if j < n {
          assert ts[..n][i] != ts[..n][j];
        } else {
          assert ts[i] in multiset(ts[..n]);
        }
      }
    }
  }

  lemma NoDupLast(ts: seq<TaskId>)
    requires NoDup(ts) && ts != []
    ensures NoDup(ts[..|ts| - 1]) && ts[|ts| - 1] !in ts[..|ts| - 1] && ts == ts[..|ts| - 1] + [ts[|ts| - 1]]
  {
  }

  lemma WakeUpAsleep(k: Kernel, t: TaskId)
    requires t in k.tasks && t != k.current && k.current in k.tasks
    ensures var r := WakeUp(k, t);
            && (forall u :: Asleep(r, u) <==> Asleep(k, u) && u != t)
            && Me(r) == Me(k) && r == k.(ready := k.ready + [t], tasks := r.tasks)
  {
  }

  /** Waking sleeping tasks appends them to the ready list, which never holds them before. */
  lemma {:induction false} WakeAllKeepsPlaces(k: Kernel, ts: seq<TaskId>)
    requires Places(k) && NoDup(ts) && (forall t | t in ts :: t in k.tasks && Asleep(k, t))
    ensures var r := WakeUpAll(k, ts);
            && Places(r) && r.ready == k.ready + ts
            && r == k.(ready := r.ready, tasks := r.tasks) && Me(r) == Me(k)
            && (forall t :: Asleep(r, t) <==> Asleep(k, t) && t !in ts)
  {
    hide ReadyOk, WaitersOk, AllCoherent, Shape, NoDup, WakeUp;
    ShapeOf(k);
    if ts != [] {
      NoDupLast(ts);
      var init, t := ts[..|ts| - 1], ts[|ts| - 1];
      WakeAllKeepsPlaces(k, init);
      var r := WakeUpAll(k, init);
      WakeUpKeepsPlaces(r, t);
      WakeUpAsleep(r, t);
      assert r.ready + [t] == k.ready + ts;
    } else {
      assert k.ready + [] == k.ready;
    }
  }

  /** The tasks woken by a run of the wheel are asleep, and each is woken once. */
  lemma WokenAsleep(g: nat, k: Kernel, now: nat)
    requires g >= 1 && Places(k) && SleepersOk(k)
    ensures var ts := Woken(RunLog(g, k.wheel, now));
            && NoDup(ts) && (forall t | t in ts :: Asleep(k, t))
            && WakesOnce(Run(g, k.wheel, now))
            && (forall t: TaskId :: Callbacks(Run(g, k.wheel, now))[Wake(t)] == if Asleep(k, t) && t !in ts then 1 else 0)
  {
    hide Places, Asleep, WakesOnce, Callbacks, Run, RunLog, Woken;
    assert Shape(k) by { ShapeOf(k); }
    RunWakes(g, k.wheel, now);
    var ts := Woken(RunLog(g, k.wheel, now));
    forall t ensures multiset(ts)[t] <= 1 {
      assert Callbacks(k.wheel)[Wake(t)] <= 1;
    }
    CountedOnce(ts);
    forall t | t in ts ensures Asleep(k, t) {
      assert multiset(ts)[t] >= 1;
      assert Callbacks(k.wheel)[Wake(t)] >= 1;
    }
  }

  lemma ShapeOf(k: Kernel)
    requires Places(k)
    ensures Shape(k) && k.current in k.tasks
  {
  }

  lemma TimersKeep(g: nat, k: Kernel, now: nat)
    requires g >= 1 && Places(k) && SleepersOk(k) && WheelInv(g, k.wheel) && now < WORD && Fits(k.wheel, now)
    ensures var ts := Woken(RunLog(g, k.wheel, now));
            && (forall t | t in ts :: t in k.tasks)
            && var k1 := AfterTimers(g, k, now);
               && Places(k1) && SleepersOk(k1) && WheelInv(g, k1.wheel)
               && k1.wheel == Run(g, k.wheel, now)
               && k1.ready == k.ready + ts && k1.locks == k.locks && k1.current == k.current && Me(k1) == Me(k)
  {
    hide Places, WheelInv, Fits, Run, RunLog, Woken, Callbacks, WakesOnce, Shape;
    ShapeOf(k);
    WokenAsleep(g, k, now);
    var w := Run(g, k.wheel, now);
    var ts := Woken(RunLog(g, k.wheel, now));
    RunKeepsWheelInv(g, k.wheel, now);
    var k0 := k.(wheel := w);
    WheelKeepsPlaces(k, w, k.nextTimer);
    assert k0 == k.(wheel := w, nextTimer := k.nextTimer);
    assert forall t :: Asleep(k0, t) <==> Asleep(k, t);
    WakeAllKeepsPlaces(k0, ts);
  }
}
