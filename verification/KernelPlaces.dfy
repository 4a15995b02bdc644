/** Where every task is: exactly one of current, ready, waiting for a lock, parked, or asleep. */
module KernelPlaces {
  import opened TimerWheel
  import opened TimerRefinement
  import opened TimerConservation
  import opened CellSums
  import opened Kernel

  ghost predicate NoDup(s: seq<TaskId>) { forall i, j :: 0 <= i < j < |s| ==> s[i] != s[j] }

  /** A task that gave up the processor by sleeping keeps the status RUNNING. */
  predicate Asleep(k: Kernel, t: TaskId) {
    t in k.tasks && k.tasks[t].status == RUNNING && t != k.current
  }

  /** Status, program counter and flags of a single task agree. */
  predicate Coherent(k: Kernel, t: TaskId)
    requires t in k.tasks
  {
    var task := k.tasks[t];
    && (Halted(task.status) ==> task.pc == Parked || (task.pc.Retry? && task.status == BLOCKED))
    && (task.collaborative ==> task.pc == Spin && task.status == RUNNING)
    && (task.status == RUNNING && t != k.current ==> task.collaborative)
    && (LockOf(task.pc).Some? ==> task.pc.l < |k.locks|)
    && task.ticks <= task.priority < 256
  }

  /** The ready list holds exactly the READY tasks, each once. */
  ghost predicate ReadyOk(k: Kernel) {
    NoDup(k.ready) && forall t | t in k.tasks :: t in k.ready <==> k.tasks[t].status == READY
  }

  /** A lock's list of waiters holds exactly the tasks blocked in its sema_down, each once. */
  ghost predicate WaitersOk(k: Kernel) {
    forall l: nat | l < |k.locks| ::
      && NoDup(k.locks[l].waiters)
      && forall t | t in k.tasks :: t in k.locks[l].waiters <==> k.tasks[t].status == BLOCKED && k.tasks[t].pc == Retry(l)
  }

  ghost predicate AllCoherent(k: Kernel) { forall t | t in k.tasks :: Coherent(k, t) }

  ghost predicate Places(k: Kernel) {
    Shape(k) && Me(k).status == RUNNING && ReadyOk(k) && WaitersOk(k) && AllCoherent(k)
  }

  /** Everything is in place for a dispatch: the current task may be left where it is now. */
  ghost predicate Leaving(k: Kernel) {
    && Shape(k) && k.ready != [] && ReadyOk(k) && WaitersOk(k) && AllCoherent(k)
    && (Me(k).status == RUNNING ==> Me(k).collaborative)
  }

  lemma DispatchReady(k: Kernel)
    requires k.ready != [] && k.ready[0] in k.tasks && ReadyOk(k)
    ensures ReadyOk(Dispatch(k))
  {
    var k' := Dispatch(k);
    assert k.ready == [k.ready[0]] + k.ready[1..];
    forall t | t in k'.tasks ensures t in k'.ready <==> k'.tasks[t].status == READY {
      assert t in k.ready <==> t == k.ready[0] || t in k.ready[1..];
    }
  }

  lemma DispatchWaiters(k: Kernel)
    requires k.ready != [] && k.ready[0] in k.tasks && k.tasks[k.ready[0]].status == READY && WaitersOk(k)
    ensures WaitersOk(Dispatch(k))
  {
  }

  lemma DispatchKeepsPlaces(k: Kernel)
    requires Leaving(k)
    ensures Places(Dispatch(k))
  {
    hide ReadyOk, WaitersOk;
    ReadyFirst(k);
    DispatchReady(k);
    DispatchWaiters(k);
  }

  lemma ReadyFirst(k: Kernel)
    requires Shape(k) && ReadyOk(k) && k.ready != []
    ensures k.ready[0] in k.tasks && k.tasks[k.ready[0]].status == READY
  {
    assert k.ready[0] in k.ready;
  }

  /** A step of the current task that is not a dispatch. */
  lemma MeKeepsPlaces(k: Kernel, me: Task)
    requires Places(k) && me.status == RUNNING && |me.depth| == |k.locks| && me.ticks <= me.priority < 256
    requires me.collaborative ==> me.pc == Spin
    requires LockOf(me.pc).Some? ==> me.pc.l < |k.locks|
    ensures Places(SetMe(k, me))
  {
  }

  /** A change to a lock that leaves its waiters alone. */
  lemma LockKeepsPlaces(k: Kernel, l: nat, lock: Lock)
    requires Places(k) && l < |k.locks| && lock.waiters == k.locks[l].waiters
    ensures Places(SetLock(k, l, lock))
  {
  }

  /** A change to the wheel. */
  lemma WheelKeepsPlaces(k: Kernel, w: Wheel, n: nat)
    requires Places(k) && |w.cells| == SLOTS
    ensures Places(k.(wheel := w, nextTimer := n))
  {
  }

  /** The current task joins the end of the ready list. */
  function Requeued(k: Kernel): Kernel
    requires k.current in k.tasks
  {
    SetMe(k, Me(k).(status := READY, ticks := Me(k).priority)).(ready := k.ready + [k.current])
  }

  lemma RequeuedReady(k: Kernel)
    requires ReadyOk(k) && k.current in k.tasks && Me(k).status == RUNNING
    ensures ReadyOk(Requeued(k))
  {
    assert forall t :: t in Requeued(k).ready <==> t in k.ready || t == k.current;
  }

  lemma RequeuedWaiters(k: Kernel)
    requires WaitersOk(k) && k.current in k.tasks && Me(k).status == RUNNING
    ensures WaitersOk(Requeued(k))
  {
  }

  lemma ScheduleKeepsPlaces(k: Kernel)
    requires Places(k) && !Me(k).collaborative
    ensures Places(Schedule(k))
  {
    hide ReadyOk, WaitersOk;
    RequeuedReady(k);
    RequeuedWaiters(k);
    DispatchKeepsPlaces(Requeued(k));
  }

  /** task_block called by a task of its own accord. */
  lemma ParkKeepsPlaces(k: Kernel, s: Status)
    requires Places(k) && Halted(s) && !Me(k).collaborative && k.ready != []
    ensures Places(TaskBlock(k, s, Parked))
  {
    DispatchKeepsPlaces(SetMe(k, Me(k).(status := s, pc := Parked)));
  }

  /** The current task joins the waiters of lock l and blocks. */
  function Joined(k: Kernel, l: nat): Kernel
    requires k.current in k.tasks && l < |k.locks|
  {
    var lock := k.locks[l];
    SetMe(SetLock(k, l, lock.(waiters := lock.waiters + [k.current])), Me(k).(status := BLOCKED, pc := Retry(l)))
  }

  lemma JoinedReady(k: Kernel, l: nat)
    requires ReadyOk(k) && k.current in k.tasks && l < |k.locks| && Me(k).status == RUNNING
    ensures ReadyOk(Joined(k, l))
  {
  }

  lemma JoinedWaiters(k: Kernel, l: nat)
    requires WaitersOk(k) && k.current in k.tasks && l < |k.locks| && Me(k).status == RUNNING
    ensures WaitersOk(Joined(k, l))
  {
    var ws := k.locks[l].waiters;
    assert k.current !in ws;
    assert forall t :: t in ws + [k.current] <==> t in ws || t == k.current;
  }

  /** sema_down without a token. */
  lemma WaitKeepsPlaces(k: Kernel, l: nat)
    requires Places(k) && l < |k.locks| && k.locks[l].value == 0 && !Me(k).collaborative && k.ready != []
    ensures Places(SemaDown(k, l))
  {
    hide ReadyOk, WaitersOk;
    JoinedReady(k, l);
    JoinedWaiters(k, l);
    DispatchKeepsPlaces(Joined(k, l));
  }

  lemma UnblockReady(k: Kernel, t: TaskId)
    requires ReadyOk(k) && t in k.tasks && Halted(k.tasks[t].status)
    ensures ReadyOk(TaskUnblock(k, t))
  {
    var k' := TaskUnblock(k, t);
    assert forall u :: u in k'.ready <==> u == t || u in k.ready;
  }

  /** task_unblock puts a halted task where it belongs exactly if task_block parked it: one that waits for a
      lock would be on two lists. */
  lemma UnblockKeepsPlaces(k: Kernel, t: TaskId)
    requires Places(k) && t in k.tasks && Halted(k.tasks[t].status)
    ensures Places(TaskUnblock(k, t)) <==> k.tasks[t].pc == Parked
  {
    UnblockReady(k, t);
    assert Coherent(k, t);
    if k.tasks[t].pc != Parked {
      var l := k.tasks[t].pc.l;
      assert t in k.locks[l].waiters;
      assert !WaitersOk(TaskUnblock(k, t));
    }
  }

  /** The first half of sema_up: the woken waiter moves from the lock's list to the front of the ready list. */
  lemma WakeFirstKeepsPlaces(k: Kernel, l: nat)
    requires Places(k) && l < |k.locks| && k.locks[l].waiters != []
    ensures k.locks[l].waiters[0] in k.tasks && Places(WakeFirst(k, l))
  {
    hide ReadyOk;
    var t := k.locks[l].waiters[0];
    assert t in k.locks[l].waiters;
    WakeFirstWaiters(k, l);
    hide WaitersOk;
    UnblockReady(k, t);
    LocksKeepReady(TaskUnblock(k, t), WakeFirst(k, l).locks);
  }

  lemma WakeFirstWaiters(k: Kernel, l: nat)
    requires WaitersOk(k) && l < |k.locks| && k.locks[l].waiters != []
    requires k.locks[l].waiters[0] in k.tasks
    ensures WaitersOk(WakeFirst(k, l))
  {
    var ws := k.locks[l].waiters;
    var t, rest := ws[0], ws[1..];
    assert t !in rest && forall u :: u in ws <==> u == t || u in rest;
    assert t in ws;
    var k' := WakeFirst(k, l);
    forall i: nat | i < |k'.locks|
      ensures NoDup(k'.locks[i].waiters)
      ensures forall u | u in k'.tasks :: u in k'.locks[i].waiters <==> k'.tasks[u].status == BLOCKED && k'.tasks[u].pc == Retry(i)
    {
      assert NoDup(k.locks[i].waiters);
    }
  }

  lemma LocksKeepReady(k: Kernel, locks: seq<Lock>)
    requires ReadyOk(k)
    ensures ReadyOk(k.(locks := locks))
  {
  }

  lemma StartKeepsPlaces(k: Kernel, id: TaskId, priority: int)
    requires Places(k) && id !in k.tasks
    ensures Places(TaskStart(k, id, priority))
  {
    var k' := TaskStart(k, id, priority);
    assert forall t :: t in k'.ready <==> t in k.ready || t == id;
  }

  /** Without task t the head of the ready list is another task. */
  lemma ExitReady(k: Kernel, t: TaskId)
    requires Places(k) && Removed(k.ready, t) != []
    ensures var r := Removed(k.ready, t); r[0] in k.tasks && r[0] != t && r[0] in k.ready && k.tasks[r[0]].status == READY
    ensures k.current !in k.ready && Removed(k.ready, k.current) == k.ready
  {
    hide WaitersOk, AllCoherent, Removed;
    assert Removed(k.ready, t)[0] in Removed(k.ready, t);
    if t in k.ready { RemovedOnce(k.ready, t); }
  }

  lemma NoDupTail(s: seq<TaskId>)
    requires NoDup(s) && s != []
    ensures NoDup(s[1..]) && s[0] !in s[1..] && s == [s[0]] + s[1..]
  {
    assert forall i | 0 <= i < |s| - 1 :: s[1..][i] == s[i + 1];
  }

  lemma NoDupCons(x: TaskId, s: seq<TaskId>)
    requires NoDup(s) && x !in s
    ensures NoDup([x] + s)
  {
  }

  lemma {:induction false} RemovedOnce(s: seq<TaskId>, x: TaskId)
    requires NoDup(s) && x in s
    ensures var r := Removed(s, x); NoDup(r) && |r| == |s| - 1 && forall y :: y in r <==> y in s && y != x
  {
    NoDupTail(s);
    hide NoDup;
    if s[0] != x {
      RemovedOnce(s[1..], x);
      NoDupCons(s[0], Removed(s[1..], x));
    }
  }

  lemma ExitKeepsPlaces(k: Kernel)
    requires Places(k) && k.ready != []
    ensures Removed(k.ready, k.current) == k.ready && k.ready[0] != k.current && k.ready[0] in k.tasks
    ensures Places(TaskExit(k, k.current))
  {
    hide TaskExit, Removed, ReadyOk;
    ReadyFirst(k);
    ExitIsDispatch(k);
    var k1 := k.(tasks := k.tasks - {k.current});
    assert ReadyOk(k1) && WaitersOk(k1) by { FewerTasks(k, {k.current}); }
    assert Shape(Dispatch(k1)) && AllCoherent(Dispatch(k1)) && Me(Dispatch(k1)).status == RUNNING;
    hide Shape, AllCoherent, WaitersOk;
    DispatchReady(k1);
    DispatchWaiters(k1);
  }

  lemma ExitIsDispatch(k: Kernel)
    requires Places(k) && k.ready != []
    ensures k.current !in k.ready && Removed(k.ready, k.current) == k.ready && k.ready[0] != k.current
    ensures k.ready[0] in k.tasks && TaskExit(k, k.current) == Dispatch(k.(tasks := k.tasks - {k.current}))
  {
    hide WaitersOk, AllCoherent;
    assert k.current !in k.ready;
    assert k.ready[0] in k.ready;
  }

  /** task_exit of another task switches away from the current one, which is then nowhere. */
  lemma ExitOfOther(k: Kernel, t: TaskId)
    requires Places(k) && Removed(k.ready, t) != [] && t != k.current && !Me(k).collaborative
    ensures var r := Removed(k.ready, t); r[0] in k.tasks && r[0] != t
    ensures !Places(TaskExit(k, t))
  {
    hide ReadyOk, WaitersOk, Removed;
    ExitReady(k, t);
    var k' := TaskExit(k, t);
    assert k.current in k'.tasks && k'.tasks[k.current] == Me(k);
    assert !Coherent(k', k.current);
  }

  lemma FewerTasks(k: Kernel, gone: set<TaskId>)
    requires ReadyOk(k) && WaitersOk(k)
    ensures ReadyOk(k.(tasks := k.tasks - gone)) && WaitersOk(k.(tasks := k.tasks - gone))
  {
  }

  lemma WakeUpKeepsPlaces(k: Kernel, t: TaskId)
    requires Places(k) && Asleep(k, t)
    ensures Places(WakeUp(k, t)) && t !in k.ready
  {
    var k' := WakeUp(k, t);
    assert t !in k.ready;
    assert forall u :: u in k'.ready <==> u in k.ready || u == t;
  }
}
