/** Mutual exclusion and re-entrancy of the locks. */
module KernelLocks {
  import opened Kernel
  import opened KernelPlaces

  /** Between a successful sema_down on lock l and the matching sema_up. */
  predicate HasToken(t: Task, l: nat)
    requires l < |t.depth|
  {
    t.pc == SetHolder(l) || t.pc == SetCount(l) || t.depth[l] >= 1
  }

  ghost function TokenOwners(k: Kernel, l: nat): set<TaskId>
    requires Shape(k) && l < |k.locks|
  {
    set t | t in k.tasks && HasToken(k.tasks[t], l)
  }

  /** What the fields of lock l look like from inside its owner, statement by statement. */
  predicate OwnerPhase(task: Task, t: TaskId, lock: Lock, l: nat)
    requires l < |task.depth|
  {
    var d := task.depth[l];
    if task.pc == SetHolder(l) then d == 0 && lock.holder == None && lock.repeat == 0
    else if task.pc == SetCount(l) then d == 0 && lock.holder == Some(t) && lock.repeat == 0
    else if task.pc == ClearCount(l) then d == 1 && lock.holder == None && lock.repeat == 1
    else if task.pc == Up(l) || task.pc == Give(l) then d == 1 && lock.holder == None && lock.repeat == 0
    else
      && d >= 1 && lock.holder == Some(t) && lock.repeat == d
      && task.pc != Down(l) && task.pc != Retry(l) && task.pc != Take(l) && task.pc != Check(l)
      && (task.pc == Drop(l) ==> d >= 2) && (task.pc == ClearHolder(l) ==> d == 1)
  }

  /** A task that does not own lock l is at most on its way in, or all but out. */
  predicate Outside(task: Task, l: nat)
    requires l < |task.depth|
  {
    && task.depth[l] == 0
    && (LockOf(task.pc) == Some(l) ==> task.pc.AcquireTest? || task.pc.Down? || task.pc.Retry? || task.pc.Take? || task.pc.Check?)
  }

  /** `o` is the one owner of lock l, if it has one. */
  ghost predicate Owned(k: Kernel, l: nat, o: Option<TaskId>)
    requires Shape(k) && l < |k.locks|
  {
    var lock := k.locks[l];
    && (forall t | t in k.tasks ::
          if o == Some(t) then OwnerPhase(k.tasks[t], t, lock, l) else Outside(k.tasks[t], l))
    && (o.None? ==> lock.value == 1 && lock.holder == None && lock.repeat == 0)
    && (o.Some? ==> lock.value == 0 && o.value in k.tasks)
  }

  /** Lock l has one owner or none. */
  ghost predicate LockOk(k: Kernel, l: nat)
    requires Shape(k) && l < |k.locks|
  {
    exists o :: Owned(k, l, o)
  }

  ghost predicate LocksOk(k: Kernel)
    requires Shape(k)
  {
    forall l: nat | l < |k.locks| :: LockOk(k, l)
  }

  /** Seen from lock l, the two states are alike. */
  ghost predicate SameFor(a: Kernel, b: Kernel, l: nat)
    requires Shape(a) && Shape(b) && l < |a.locks|
  {
    && a.tasks.Keys == b.tasks.Keys && |b.locks| == |a.locks| && b.locks[l] == a.locks[l]
    && forall t | t in a.tasks :: SameTask(a.tasks[t], b.tasks[t], l)
  }

  predicate SameTask(a: Task, b: Task, l: nat)
    requires l < |a.depth| && l < |b.depth|
  {
    && a.depth[l] == b.depth[l]
    && (a.pc == b.pc || (LockOf(a.pc) != Some(l) && LockOf(b.pc) != Some(l)))
  }

  lemma SameTaskKeepsPhase(a: Task, b: Task, t: TaskId, lock: Lock, l: nat)
    requires l < |a.depth| && l < |b.depth| && SameTask(a, b, l)
    ensures OwnerPhase(a, t, lock, l) == OwnerPhase(b, t, lock, l) && Outside(a, l) == Outside(b, l)
  {
  }

  lemma SameForKeepsOwned(a: Kernel, b: Kernel, l: nat, o: Option<TaskId>)
    requires Shape(a) && Shape(b) && l < |a.locks| && SameFor(a, b, l) && Owned(a, l, o)
    ensures Owned(b, l, o)
  {
    hide OwnerPhase, Outside, SameTask;
    forall t | t in b.tasks
      ensures if o == Some(t) then OwnerPhase(b.tasks[t], t, b.locks[l], l) else Outside(b.tasks[t], l)
    {
      SameTaskKeepsPhase(a.tasks[t], b.tasks[t], t, a.locks[l], l);
    }
  }

  lemma SameForKeepsLock(a: Kernel, b: Kernel, l: nat)
    requires Shape(a) && Shape(b) && l < |a.locks| && SameFor(a, b, l) && LockOk(a, l)
    ensures LockOk(b, l)
  {
    hide Shape, SameFor, Owned;
    var o :| Owned(a, l, o);
    SameForKeepsOwned(a, b, l, o);
  }

  /** The two states are alike in their locks and in what every task does with them. */
  ghost predicate SameControl(a: Kernel, b: Kernel) {
    && a.tasks.Keys == b.tasks.Keys && a.locks == b.locks
    && forall t | t in a.tasks :: SameUse(a.tasks[t], b.tasks[t])
  }

  predicate SameUse(a: Task, b: Task) {
    a.depth == b.depth && (a.pc == b.pc || LockOf(a.pc) == LockOf(b.pc) == None)
  }

  lemma SameControlKeepsLocks(a: Kernel, b: Kernel)
    requires Shape(a) && Shape(b) && SameControl(a, b) && LocksOk(a)
    ensures LocksOk(b)
  {
    hide LockOk;
    forall l: nat | l < |b.locks| ensures LockOk(b, l) {
      SameForKeepsLock(a, b, l);
    }
  }

  /** A step of the current task inside an operation on lock l leaves every other lock's owner alone. */
  lemma OtherLocksKept(k: Kernel, k': Kernel, l: nat, me: Task)
    requires Shape(k) && Shape(k') && LocksOk(k) && l < |k.locks|
    requires k' == SetMe(k, me).(locks := k'.locks) && |k'.locks| == |k.locks|
    requires forall i: nat | i < |k.locks| && i != l :: k'.locks[i] == k.locks[i] && me.depth[i] == Me(k).depth[i]
    requires LockOf(Me(k).pc) in {None, Some(l)} && LockOf(me.pc) in {None, Some(l)}
    ensures forall i: nat | i < |k.locks| && i != l :: LockOk(k', i)
  {
    hide LockOk;
    forall i: nat | i < |k.locks| && i != l ensures LockOk(k', i) {
      SameForKeepsLock(k, k', i);
    }
  }

  // ---- The statements ----

  /** A statement other than sema_down and sema_up. */
  predicate Plain(pc: Pc) { !pc.Down? && !pc.Retry? && !pc.Take? && !pc.Up? && !pc.Give? }

  /** How a single statement of the current task looks from its lock. */
  lemma StatementPhase(id: TaskId, me: Task, lock: Lock, l: nat, owner: bool)
    requires l < |me.depth| && LockOf(me.pc) == Some(l) && Plain(me.pc)
    requires if owner then OwnerPhase(me, id, lock, l) else Outside(me, l) && lock.holder != Some(id)
    ensures me.pc.Drop? ==> lock.repeat >= 1 && me.depth[l] >= 1
    ensures var (me', lock') := LockStatement(id, me, lock);
            && |me'.depth| == |me.depth|
            && (if owner then OwnerPhase(me', id, lock', l) else Outside(me', l) && lock' == lock)
            && lock'.value == lock.value && lock'.waiters == lock.waiters
            && LockOf(me'.pc) in {None, Some(l)} && me' == me.(pc := me'.pc, depth := me'.depth)
            && (forall i: nat | i < |me.depth| && i != l :: me'.depth[i] == me.depth[i])
            && !me'.pc.Retry?
  {
  }

  /** The holder field names the owner, if anyone. */
  lemma HolderOwns(k: Kernel, l: nat, o: Option<TaskId>, t: TaskId)
    requires Shape(k) && l < |k.locks| && Owned(k, l, o) && k.locks[l].holder == Some(t)
    ensures o == Some(t)
  {
    if o.Some? { assert OwnerPhase(k.tasks[o.value], o.value, k.locks[l], l); }
  }

  /** The current task's view of a lock it is inside of. */
  lemma MyPhase(k: Kernel, l: nat, o: Option<TaskId>)
    requires Shape(k) && l < |k.locks| && Owned(k, l, o)
    ensures if o == Some(k.current) then OwnerPhase(Me(k), k.current, k.locks[l], l)
            else Outside(Me(k), l) && k.locks[l].holder != Some(k.current)
  {
    if k.locks[l].holder == Some(k.current) { HolderOwns(k, l, o, k.current); }
  }

  /** The current task and lock l after one step inside an operation on l. */
  function Moved(k: Kernel, l: nat, lock: Lock, me: Task): Kernel
    requires l < |k.locks|
  {
    SetMe(SetLock(k, l, lock), me)
  }

  /** A step of the current task from one phase to another, seen from lock l: it keeps, takes or gives up the token. */
  ghost predicate Handover(k: Kernel, l: nat, lock: Lock, me: Task, o: Option<TaskId>, o': Option<TaskId>)
    requires Shape(k) && l < |k.locks|
  {
    && |me.depth| == |k.locks|
    && (forall t | t != k.current :: o == Some(t) <==> o' == Some(t))
    && (if o' == Some(k.current) then OwnerPhase(me, k.current, lock, l) else Outside(me, l))
    && (o'.Some? && o' != Some(k.current) ==> lock.holder == k.locks[l].holder && lock.repeat == k.locks[l].repeat)
    && (o'.None? ==> lock.value == 1 && lock.holder == None && lock.repeat == 0)
    && (o'.Some? ==> lock.value == 0)
    && (forall t | t in lock.waiters :: t in k.tasks)
  }

  lemma MovedOwned(k: Kernel, l: nat, lock: Lock, me: Task, o: Option<TaskId>, o': Option<TaskId>)
    requires Shape(k) && l < |k.locks| && Owned(k, l, o) && Handover(k, l, lock, me, o, o')
    ensures Shape(Moved(k, l, lock, me)) && Owned(Moved(k, l, lock, me), l, o')
  {
    hide Outside;
    var k' := Moved(k, l, lock, me);
    assert Shape(k');
    assert k'.locks[l] == lock;
    forall t | t in k'.tasks
      ensures if o' == Some(t) then OwnerPhase(k'.tasks[t], t, lock, l) else Outside(k'.tasks[t], l)
    {
      if t != k.current { assert k'.tasks[t] == k.tasks[t]; }
    }
  }

  lemma MovedKeepsLocks(k: Kernel, l: nat, lock: Lock, me: Task, o: Option<TaskId>, o': Option<TaskId>)
    requires Shape(k) && LocksOk(k) && l < |k.locks| && Owned(k, l, o) && Handover(k, l, lock, me, o, o')
    requires forall i: nat | i < |k.locks| && i != l :: me.depth[i] == Me(k).depth[i]
    requires LockOf(Me(k).pc) in {None, Some(l)} && LockOf(me.pc) in {None, Some(l)}
    ensures Shape(Moved(k, l, lock, me)) && LocksOk(Moved(k, l, lock, me)) && Owned(Moved(k, l, lock, me), l, o')
  {
    hide Owned, LockOk;
    MovedOwned(k, l, lock, me, o, o');
    hide Handover;
    var k' := Moved(k, l, lock, me);
    LockOkFrom(k', l, o');
    OtherLocksKept(k, k', l, me);
  }

  lemma LockOkFrom(k: Kernel, l: nat, o: Option<TaskId>)
    requires Shape(k) && l < |k.locks| && Owned(k, l, o)
    ensures LockOk(k, l)
  {
  }

  lemma OwnerOf(k: Kernel, l: nat) returns (o: Option<TaskId>)
    requires Shape(k) && LocksOk(k) && l < |k.locks|
    ensures Owned(k, l, o)
  {
    hide Owned;
    assert LockOk(k, l);
    o :| Owned(k, l, o);
  }

  lemma OwnedValue(k: Kernel, l: nat, o: Option<TaskId>)
    requires Shape(k) && l < |k.locks| && Owned(k, l, o)
    ensures k.locks[l].value == if o.Some? then 0 else 1
    ensures o.None? ==> k.locks[l].holder == None && k.locks[l].repeat == 0
  {
  }

  lemma StatementKeepsLocks(k: Kernel, l: nat)
    requires Places(k) && LocksOk(k) && l < |k.locks|
    requires LockOf(Me(k).pc) == Some(l) && Plain(Me(k).pc)
    ensures CanContinue(k) && Places(Statement(k)) && LocksOk(Statement(k))
    ensures |Statement(k).locks| == |k.locks| && forall o | Owned(k, l, o) :: Owned(Statement(k), l, o)
  {
    hide Owned, ReadyOk, WaitersOk, LockStatement, OwnerPhase, Outside, LockOk;
    var o := OwnerOf(k, l);
    MyPhase(k, l, o);
    OwnedValue(k, l, o);
    StatementPhase(k.current, Me(k), k.locks[l], l, o == Some(k.current));
    assert Coherent(k, k.current);
    var (me', lock') := LockStatement(k.current, Me(k), k.locks[l]);
    assert Statement(k) == Moved(k, l, lock', me');
    LockKeepsPlaces(k, l, lock');
    MeKeepsPlaces(SetLock(k, l, lock'), me');
    assert Handover(k, l, lock', me', o, o);
    hide AllCoherent, Handover, Shape;
    MovedKeepsLocks(k, l, lock', me', o, o);
    forall p | Owned(k, l, p) ensures Owned(Statement(k), l, p) {
      OneOwner(k, l, o, p);
    }
  }

  // ---- sema_down ----

  /** Taking the token makes the current task the owner. */
  lemma TakeKeepsLocks(k: Kernel, l: nat)
    requires Places(k) && LocksOk(k) && l < |k.locks| && k.locks[l].value != 0
    requires Me(k).pc == Down(l) || Me(k).pc == Retry(l) || Me(k).pc == Take(l)
    ensures k.locks[l].value == 1 && Places(TakeToken(k, l)) && LocksOk(TakeToken(k, l))
    ensures Owned(TakeToken(k, l), l, Some(k.current))
  {
    hide Owned, ReadyOk, WaitersOk, LockOk;
    var o := OwnerOf(k, l);
    MyPhase(k, l, o);
    OwnedValue(k, l, o);
    assert Coherent(k, k.current);
    var lock' := k.locks[l].(value := k.locks[l].value - 1);
    var me' := Me(k).(pc := SetHolder(l));
    assert TakeToken(k, l) == Moved(k, l, lock', me');
    LockKeepsPlaces(k, l, lock');
    MeKeepsPlaces(SetLock(k, l, lock'), me');
    assert Handover(k, l, lock', me', o, Some(k.current));
    hide AllCoherent, Handover, Shape;
    MovedKeepsLocks(k, l, lock', me', o, Some(k.current));
  }

  /** A task that has passed the test of sema_down is still on its way. */
  lemma PassKeepsLocks(k: Kernel, l: nat)
    requires Places(k) && LocksOk(k) && l < |k.locks| && Me(k).pc == Retry(l)
    ensures Places(SetPc(k, Take(l))) && LocksOk(SetPc(k, Take(l)))
    ensures forall o | Owned(k, l, o) :: Owned(SetPc(k, Take(l)), l, o)
  {
    hide Owned, ReadyOk, WaitersOk, LockOk;
    var o := OwnerOf(k, l);
    MyPhase(k, l, o);
    OwnedValue(k, l, o);
    assert Coherent(k, k.current);
    var me' := Me(k).(pc := Take(l));
    assert SetPc(k, Take(l)) == Moved(k, l, k.locks[l], me');
    MeKeepsPlaces(k, me');
    assert Handover(k, l, k.locks[l], me', o, o);
    hide AllCoherent, Handover, Shape;
    MovedKeepsLocks(k, l, k.locks[l], me', o, o);
    forall p | Owned(k, l, p) ensures Owned(SetPc(k, Take(l)), l, p) {
      OneOwner(k, l, o, p);
    }
  }

  lemma OneOwner(k: Kernel, l: nat, o: Option<TaskId>, p: Option<TaskId>)
    requires Shape(k) && l < |k.locks| && Owned(k, l, o) && Owned(k, l, p)
    ensures o == p
  {
    OwnersAre(k, l, o);
    OwnersAre(k, l, p);
    if o.Some? && p.Some? { assert o.value in TokenOwners(k, l); }
    if o.Some? { assert o.value in TokenOwners(k, l); }
    if p.Some? { assert p.value in TokenOwners(k, l); }
  }

  lemma OwnersAre(k: Kernel, l: nat, o: Option<TaskId>)
    requires Shape(k) && l < |k.locks| && Owned(k, l, o)
    ensures TokenOwners(k, l) == if o.Some? then {o.value} else {}
  {
    forall t | t in k.tasks ensures HasToken(k.tasks[t], l) <==> o == Some(t) {
    }
  }

  /** A round of sema_down that finds the token. */
  lemma DownKeepsLocks(k: Kernel, l: nat)
    requires Places(k) && LocksOk(k) && l < |k.locks| && k.locks[l].value != 0
    requires Me(k).pc == Down(l) || Me(k).pc == Retry(l)
    ensures k.locks[l].value == 1 && Places(SemaDown(k, l)) && LocksOk(SemaDown(k, l))
  {
    assert Shape(k);
    hide Places, LocksOk, TakeToken, Shape;
    TakeKeepsLocks(k, l);
    if Me(k).pc.Retry? { PassKeepsLocks(k, l); }
  }

  lemma JoinedKeepsLocks(k: Kernel, l: nat)
    requires Places(k) && LocksOk(k) && l < |k.locks| && k.locks[l].value == 0
    requires Me(k).pc == Down(l) || Me(k).pc == Retry(l)
    ensures Shape(Joined(k, l)) && LocksOk(Joined(k, l))
  {
    hide Owned, ReadyOk, WaitersOk, LockOk, AllCoherent;
    var o := OwnerOf(k, l);
    MyPhase(k, l, o);
    OwnedValue(k, l, o);
    var lock' := k.locks[l].(waiters := k.locks[l].waiters + [k.current]);
    var me' := Me(k).(status := BLOCKED, pc := Retry(l));
    assert Joined(k, l) == Moved(k, l, lock', me');
    assert Handover(k, l, lock', me', o, o);
    hide Handover, Shape;
    MovedKeepsLocks(k, l, lock', me', o, o);
  }

  /** Joining the waiters: the owner stays the same. */
  lemma WaitKeepsLocks(k: Kernel, l: nat)
    requires Places(k) && LocksOk(k) && l < |k.locks| && k.locks[l].value == 0 && k.ready != []
    requires Me(k).pc == Down(l) || Me(k).pc == Retry(l)
    ensures Places(SemaDown(k, l)) && LocksOk(SemaDown(k, l))
  {
    hide ReadyOk, WaitersOk, LocksOk;
    assert Coherent(k, k.current);
    hide AllCoherent;
    WaitKeepsPlaces(k, l);
    hide Coherent;
    ReadyFirst(k);
    JoinedKeepsLocks(k, l);
    assert SemaDown(k, l) == Dispatch(Joined(k, l));
    SameControlKeepsLocks(Joined(k, l), Dispatch(Joined(k, l)));
  }

  // ---- sema_up ----

  lemma WaiterElsewhere(k: Kernel, l: nat)
    requires Places(k) && l < |k.locks| && k.locks[l].waiters != []
    ensures var t := k.locks[l].waiters[0];
            t in k.tasks && t != k.current && k.tasks[t].pc == Retry(l) && k.tasks[t].status == BLOCKED && t !in k.ready
    ensures k.locks[l].waiters[0] !in k.locks[l].waiters[1..]
  {
    assert k.locks[l].waiters[0] in k.locks[l].waiters;
  }

  /** Waking a waiter leaves the owners of all locks as they are. */
  lemma WakeFirstKeepsLocks(k: Kernel, l: nat)
    requires Places(k) && LocksOk(k) && l < |k.locks| && k.locks[l].waiters != []
    ensures k.locks[l].waiters[0] in k.tasks && Places(WakeFirst(k, l)) && LocksOk(WakeFirst(k, l))
    ensures Me(WakeFirst(k, l)) == Me(k)
  {
    hide ReadyOk, WaitersOk, AllCoherent, LockOk, Owned;
    WaiterElsewhere(k, l);
    WakeFirstKeepsPlaces(k, l);
    var k1, k' := TaskUnblock(k, k.locks[l].waiters[0]), WakeFirst(k, l);
    SameControlKeepsLocks(k, k1);
    forall i: nat | i < |k'.locks| ensures LockOk(k', i) {
      var o := OwnerOf(k1, i);
      FewerWaiters(k1, k', i, o);
      LockOkFrom(k', i, o);
    }
  }

  lemma FewerWaiters(a: Kernel, b: Kernel, l: nat, o: Option<TaskId>)
    requires Shape(a) && Shape(b) && l < |a.locks| == |b.locks| && Owned(a, l, o)
    requires a.tasks == b.tasks && b.locks[l] == a.locks[l].(waiters := b.locks[l].waiters)
    ensures Owned(b, l, o)
  {
    hide Outside;
    forall t | t in b.tasks
      ensures if o == Some(t) then OwnerPhase(b.tasks[t], t, b.locks[l], l) else Outside(b.tasks[t], l)
    {
    }
  }

  /** Giving the token back leaves the lock free. */
  lemma GiveKeepsLocks(k: Kernel, l: nat, pc: Pc)
    requires Places(k) && LocksOk(k) && l < |k.locks| && (Me(k).pc == Up(l) || Me(k).pc == Give(l))
    requires pc == Idle || pc == Check(l)
    ensures k.locks[l].value == 0 && Places(GiveToken(k, l, pc)) && LocksOk(GiveToken(k, l, pc))
    ensures Owned(GiveToken(k, l, pc), l, None)
  {
    hide Owned, ReadyOk, WaitersOk, LockOk;
    var o := OwnerOf(k, l);
    MyPhase(k, l, o);
    OwnedValue(k, l, o);
    assert Coherent(k, k.current);
    var lock' := k.locks[l].(value := 1);
    var me' := Returned(Me(k), l, 0).(pc := pc);
    assert GiveToken(k, l, pc) == Moved(k, l, lock', me');
    LockKeepsPlaces(k, l, lock');
    MeKeepsPlaces(SetLock(k, l, lock'), me');
    assert Handover(k, l, lock', me', o, None);
    hide AllCoherent, Handover, Shape;
    MovedKeepsLocks(k, l, lock', me', o, None);
  }

  /** A signal between the halves of sema_up finds the releasing task still the owner. */
  lemma PauseKeepsLocks(k: Kernel, l: nat)
    requires Places(k) && LocksOk(k) && l < |k.locks| && Me(k).pc == Up(l)
    ensures Places(SetPc(k, Give(l))) && LocksOk(SetPc(k, Give(l)))
  {
    hide Owned, ReadyOk, WaitersOk, LockOk;
    var o := OwnerOf(k, l);
    MyPhase(k, l, o);
    OwnedValue(k, l, o);
    assert Coherent(k, k.current);
    var me' := Me(k).(pc := Give(l));
    assert SetPc(k, Give(l)) == Moved(k, l, k.locks[l], me');
    MeKeepsPlaces(k, me');
    assert Handover(k, l, k.locks[l], me', o, o);
    hide AllCoherent, Handover, Shape;
    MovedKeepsLocks(k, l, k.locks[l], me', o, o);
  }

  /** sema_up, as far as it runs without a signal. */
  lemma UpKeepsLocks(k: Kernel, l: nat)
    requires Places(k) && LocksOk(k) && l < |k.locks| && Me(k).pc == Up(l)
    ensures k.locks[l].waiters != [] ==> k.locks[l].waiters[0] in k.tasks
    ensures l < |Me(k).depth| && Places(SemaUp(k, l)) && LocksOk(SemaUp(k, l))
    ensures k.locks[l].value == 0 && |SemaUp(k, l).locks| == |k.locks|
    ensures k.nests || k.locks[l].waiters == [] ==> Owned(SemaUp(k, l), l, None)
  {
    UpCount(k, l);
    hide ReadyOk, WaitersOk, AllCoherent, LockOk, GiveToken;
    GiveKeepsLocks(k, l, Idle);
    if k.locks[l].waiters != [] {
      WakeFirstKeepsLocks(k, l);
      var k1 := WakeFirst(k, l);
      hide WakeFirst;
      if k.nests { GiveKeepsLocks(k1, l, Idle); } else { PauseKeepsLocks(k1, l); }
    }
  }

  lemma UpCount(k: Kernel, l: nat)
    requires Shape(k) && l < |k.locks|
    ensures k.locks[l].waiters != [] ==> k.locks[l].waiters[0] in k.tasks
    ensures |SemaUp(k, l).locks| == |k.locks|
  {
    assert k.locks[l].waiters != [] ==> k.locks[l].waiters[0] in k.locks[l].waiters;
  }
}
