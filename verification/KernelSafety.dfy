/** What holds in every state of every run. */
module KernelSafety {
  import opened TimerWheel
  import opened TimerRefinement
  import opened TimerConservation
  import opened CellSums
  import opened Kernel
  import opened KernelPlaces
  import opened KernelSleep
  import opened KernelLocks
  import opened KernelRuns

  const MAIN_PRIORITY := 3

  /** The state after initialisation: the main task runs, nothing else exists, all locks are free. */
  ghost predicate Initial(k: Kernel) {
    && k.tasks == map[k.current := Task(RUNNING, MAIN_PRIORITY, MAIN_PRIORITY, false, 0, Idle, seq(|k.locks|, _ => 0))]
    && k.ready == [] && (forall l: nat | l < |k.locks| :: k.locks[l] == Lock(None, 0, 1, []))
    && k.wheel == Wheel(k.wheel.jiffies, EmptyCells(SLOTS)) && k.wheel.jiffies < WORD && k.nextTimer == 0
  }

  ghost predicate IsRun(g: nat, ks: seq<Kernel>, acts: seq<Action>)
    requires g >= 1
  {
    && |ks| == |acts| + 1 && Initial(ks[0])
    && forall i | 0 <= i < |acts| ::
         && Shape(ks[i]) && CanStep(g, ks[i], acts[i]) && Defined(g, ks[i], acts[i])
         && ks[i + 1] == Apply(g, ks[i], acts[i])
  }

  lemma {:induction false} EmptyCallbacks(n: nat)
    ensures Bag(ByCallback(), EmptyCells(n)) == multiset{}
  {
    if n > 0 {
      EmptyCallbacks(n - 1);
      assert EmptyCells(n)[..n - 1] == EmptyCells(n - 1);
    }
  }

  lemma InitialInv(g: nat, k: Kernel)
    requires g >= 1 && Initial(k)
    ensures KernelInv(g, k)
  {
    EmptyCallbacks(SLOTS);
    hide Bag, EmptyCells, Outside, OwnerPhase;
    assert Places(k);
    forall l: nat | l < |k.locks| ensures LockOk(k, l) {
      assert Outside(Me(k), l) by { Newcomer(Me(k), l); }
      assert Owned(k, l, None);
    }
  }

  lemma Newcomer(t: Task, l: nat)
    requires l < |t.depth| && t.depth[l] == 0 && t.pc == Idle
    ensures Outside(t, l)
  {
  }

  /** The invariant holds throughout every run, and no assertion of the source ever fails. */
  lemma {:induction false} RunKeepsInv(g: nat, ks: seq<Kernel>, acts: seq<Action>)
    requires g >= 1 && IsRun(g, ks, acts)
    ensures forall i | 0 <= i < |ks| :: KernelInv(g, ks[i])
    ensures forall i | 0 <= i < |acts| :: Asserts(g, ks[i], acts[i])
  {
    hide KernelInv, CanStep, Defined, Apply, Asserts, Initial, Shape;
    var n := |acts|;
    if n == 0 {
      InitialInv(g, ks[0]);
    } else {
      RunKeepsInv(g, ks[..n], acts[..n - 1]);
      assert ks[n - 1] == ks[..n][n - 1];
      StepKeepsInv(g, ks[n - 1], acts[n - 1]);
      forall i | 0 <= i < |ks| ensures KernelInv(g, ks[i]) {
        if i < n { assert ks[i] == ks[..n][i]; }
      }
      forall i | 0 <= i < |acts| ensures Asserts(g, ks[i], acts[i]) {
        if i < n - 1 { assert ks[i] == ks[..n][i] && acts[i] == acts[..n - 1][i]; }
      }
    }
  }

  /** No step that the callers' obligations allow is ever undefined. */
  lemma NeverStuck(g: nat, ks: seq<Kernel>, acts: seq<Action>, a: Action)
    requires g >= 1 && IsRun(g, ks, acts)
    ensures var k := ks[|acts|]; Shape(k) && (CanStep(g, k, a) ==> Defined(g, k, a))
  {
    RunKeepsInv(g, ks, acts);
    var k := ks[|acts|];
    assert KernelInv(g, k);
    if CanStep(g, k, a) { StepKeepsInv(g, k, a); }
  }

  // ---- Locks ----

  /** Mutual exclusion: at any time a lock's token is either in the semaphore or with exactly one task
      between its sema_down and its sema_up; the holder field, when set, names that task, and then the
      repeat count is the number of acquisitions that task has to match, except at the
      statement that sets it. */
  lemma MutualExclusion(g: nat, ks: seq<Kernel>, acts: seq<Action>, i: nat, l: nat)
    requires g >= 1 && IsRun(g, ks, acts) && i < |ks| && l < |ks[i].locks|
    ensures Shape(ks[i])
    ensures var k := ks[i]; var lock := k.locks[l];
            && lock.value + |TokenOwners(k, l)| == 1
            && (lock.holder.Some? ==>
                  && TokenOwners(k, l) == {lock.holder.value}
                  && var me := k.tasks[lock.holder.value];
                     me.pc != SetCount(l) ==> lock.repeat == me.depth[l])
  {
    RunKeepsInv(g, ks, acts);
    var k := ks[i];
    assert KernelInv(g, k) && LockOk(k, l);
    var o := OwnerOf(k, l);
    OwnersAre(k, l, o);
    if k.locks[l].holder.Some? {
      HolderOwns(k, l, o, k.locks[l].holder.value);
    }
  }

  // ---- Places ----

  ghost function WaitsFor(k: Kernel, t: TaskId): set<nat> {
    set l: nat | l < |k.locks| && t in k.locks[l].waiters
  }

  predicate BlockedAlone(k: Kernel, t: TaskId) {
    t in k.tasks && Halted(k.tasks[t].status) && k.tasks[t].pc == Parked
  }

  function One(b: bool): nat { if b then 1 else 0 }

  /** In how many places a task is. */
  ghost function Count(k: Kernel, t: TaskId): nat {
    One(t == k.current) + One(t in k.ready) + |WaitsFor(k, t)| + One(BlockedAlone(k, t)) + One(Asleep(k, t))
  }

  lemma WaitsForIs(k: Kernel, t: TaskId)
    requires Places(k) && t in k.tasks
    ensures WaitsFor(k, t) == if k.tasks[t].status == BLOCKED && k.tasks[t].pc.Retry? then {k.tasks[t].pc.l} else {}
  {
    assert Coherent(k, t);
    hide ReadyOk, AllCoherent;
    forall l: nat ensures l in WaitsFor(k, t) <==> k.tasks[t].status == BLOCKED && k.tasks[t].pc == Retry(l) {
    }
  }

  lemma PlacedOnce(k: Kernel, t: TaskId)
    requires Places(k)
    ensures Count(k, t) == One(t in k.tasks)
    ensures t in k.tasks ==>
              && (k.tasks[t].status == READY <==> t in k.ready)
              && (k.tasks[t].status == RUNNING <==> t == k.current || Asleep(k, t))
  {
    hide NoDup;
    if t in k.tasks {
      WaitsForIs(k, t);
      assert Coherent(k, t);
    } else {
      assert t != k.current && t !in k.ready;
      assert WaitsFor(k, t) == {};
    }
  }

  /** Every live task is in exactly one place - running, ready, waiting for one lock, parked by task_block,
      or asleep - and on no list twice; dead tasks are nowhere. READY is exactly the ready list, RUNNING
      exactly the current task and the sleepers. */
  lemma Placement(g: nat, ks: seq<Kernel>, acts: seq<Action>, i: nat, t: TaskId)
    requires g >= 1 && IsRun(g, ks, acts) && i < |ks|
    ensures var k := ks[i];
            && Count(k, t) == One(t in k.tasks)
            && NoDup(k.ready) && (forall l: nat | l < |k.locks| :: NoDup(k.locks[l].waiters))
            && (t in k.tasks ==>
                  && (k.tasks[t].status == READY <==> t in k.ready)
                  && (k.tasks[t].status == RUNNING <==> t == k.current || Asleep(k, t))
                  && k.tasks[t].ticks <= k.tasks[t].priority)
  {
    RunKeepsInv(g, ks, acts);
    var k := ks[i];
    assert KernelInv(g, k);
    PlacedOnce(k, t);
    if t in k.tasks { assert Coherent(k, t); }
  }

  // ---- Sleepers ----

  /** Sleeping tasks and pending wake-up timers correspond one to one, and wake-up timers are one-shots. */
  lemma SleepersHaveTimers(g: nat, ks: seq<Kernel>, acts: seq<Action>, i: nat)
    requires g >= 1 && IsRun(g, ks, acts) && i < |ks|
    ensures var k := ks[i];
            && (forall t: TaskId :: Callbacks(k.wheel)[Wake(t)] == One(Asleep(k, t)))
            && (forall c: nat, t | c < |k.wheel.cells| && t in k.wheel.cells[c] :: t.callback.Wake? ==> t.period == 0)
  {
    RunKeepsInv(g, ks, acts);
    assert KernelInv(g, ks[i]);
  }
}
