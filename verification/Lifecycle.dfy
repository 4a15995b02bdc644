/** Task identifiers and the lists of live and pooled tasks (src/task/task.c). */
module Lifecycle {
  import opened Bitmap
  import opened Kernel
  import opened KernelPlaces

  const TID_BYTES := 125100
  const TID_START := 1
  const MAX_TID := 32767

  /** Conversion to int16_t, the type of a tid. */
  function Int16(x: int): int {
    var m := x % 0x1_0000;
    if m < 0x8000 then m else m - 0x1_0000
  }

  /** The bit that release_tid clears: the difference, taken as a uint32_t. */
  function ReleaseIndex(tid: int): nat { (tid - TID_START) % 0x1_0000_0000 }

  /** A tid is bit index plus one, and releasing it clears that same bit, exactly for the first 32767 bits
      of the map - although the map has room for a million. */
  lemma TidRoundTrip(idx: nat)
    requires idx < 8 * TID_BYTES
    ensures Int16(idx + TID_START) == idx + TID_START <==> idx < MAX_TID
    ensures ReleaseIndex(Int16(idx + TID_START)) == idx <==> idx < MAX_TID
  {
  }

  class TidPool {
    const bitmap: BitMap

    ghost predicate Valid()
      reads this, bitmap, bitmap.bits
    {
      bitmap.Valid() && bitmap.len == TID_BYTES
    }

    ghost function Used(): seq<bool>
      reads this, bitmap, bitmap.bits
      requires Valid()
    {
      bitmap.Bits()
    }

    constructor ()
      ensures Valid() && fresh(bitmap) && fresh(bitmap.bits)
      ensures forall k: nat | k < |Used()| :: !Used()[k]
    {
      bitmap := new BitMap(TID_BYTES);
    }

    /** allocate_tid: with fewer than 32767 tids in use, a positive one that is not. */
    method Allocate() returns (tid: int)
      requires Valid() && SetBits(Used()) < MAX_TID
      modifies bitmap.bits
      ensures Valid() && 1 <= tid <= MAX_TID
      ensures !old(Used())[tid - 1] && Used() == old(Used())[tid - 1 := true]
      ensures forall k: nat | k < tid - 1 :: old(Used())[k]
    {
      var idx := bitmap.Scan(1);
      FewBitsSet(Used(), idx);
      bitmap.Set(idx, true);
      tid := Int16(idx + TID_START);
    }

    /** release_tid */
    method Release(tid: int)
      requires Valid() && 1 <= tid <= MAX_TID
      modifies bitmap.bits
      ensures Valid() && Used() == old(Used())[tid - 1 := false]
    {
      bitmap.Set(ReleaseIndex(tid), false);
    }
  }

  /** Where bitmap_scan ends when few bits are set. */
  lemma FewBitsSet(s: seq<bool>, idx: int)
    requires |s| == 8 * TID_BYTES && IsFirstRun(s, 1, idx) && SetBits(s) < MAX_TID
    ensures 0 <= idx < MAX_TID && !s[idx] && forall k: nat | k < idx :: s[k]
  {
    if idx == -1 {
      forall k: nat | k < |s| ensures s[k] { assert !RunAt(s, 1, k); }
      LowestClearBound(s, |s|);
      assert false;
    }
    assert RunAt(s, 1, idx);
    forall k: nat | k < idx ensures s[k] { assert !RunAt(s, 1, k); }
    LowestClearBound(s, idx);
  }

  lemma {:induction false} SetBitsUpdate(s: seq<bool>, i: nat, v: bool)
    requires i < |s|
    ensures SetBits(s[i := v]) == SetBits(s) + (if v then 1 else 0) - (if s[i] then 1 else 0)
  {
    var n := |s| - 1;
    if i < n {
      SetBitsUpdate(s[..n], i, v);
      assert s[i := v][..n] == s[..n][i := v];
    } else {
      assert s[i := v][..n] == s[..n];
    }
  }

  lemma {:induction false} NoneSet(s: seq<bool>)
    requires forall k: nat | k < |s| :: !s[k]
    ensures SetBits(s) == 0
  {
    if s != [] { NoneSet(s[..|s| - 1]); }
  }

  lemma NoTids(used: seq<bool>)
    requires |used| == 8 * TID_BYTES && forall k: nat | k < |used| :: !used[k]
    ensures TidsOk([], map[], used) && SetBits(used) == 0
  {
    NoneSet(used);
  }

  /** Live tasks have a tid whose bit is set, and no two have the same. */
  ghost predicate Sound(all: seq<TaskId>, tid: map<TaskId, int>, used: seq<bool>) {
    && (forall t | t in all :: t in tid && 1 <= tid[t] <= MAX_TID && tid[t] <= |used| && used[tid[t] - 1])
    && (forall t, u | t in all && u in all && t != u :: tid[t] != tid[u])
  }

  predicate Owned(all: seq<TaskId>, tid: map<TaskId, int>, x: int) {
    exists t :: t in all && t in tid && tid[t] == x
  }

  /** Every set bit belongs to a live task. */
  ghost predicate Complete(all: seq<TaskId>, tid: map<TaskId, int>, used: seq<bool>) {
    forall k: nat | k < |used| && used[k] :: Owned(all, tid, k + 1)
  }

  /** The tids of the live tasks are exactly the bits in use, one each. */
  ghost predicate TidsOk(all: seq<TaskId>, tid: map<TaskId, int>, used: seq<bool>) {
    && |used| == 8 * TID_BYTES && SetBits(used) == |all| && Sound(all, tid, used) && Complete(all, tid, used)
  }

  lemma TidsAdd(all: seq<TaskId>, tid: map<TaskId, int>, used: seq<bool>, t: TaskId, x: int)
    requires TidsOk(all, tid, used) && t !in all && 1 <= x <= MAX_TID && !used[x - 1]
    ensures TidsOk(all + [t], tid[t := x], used[x - 1 := true])
  {
    SetBitsUpdate(used, x - 1, true);
    hide SetBits;
    AddSound(all, tid, used, t, x);
    AddComplete(all, tid, used, t, x);
  }

  lemma AddSound(all: seq<TaskId>, tid: map<TaskId, int>, used: seq<bool>, t: TaskId, x: int)
    requires Sound(all, tid, used) && t !in all && 1 <= x <= MAX_TID && x <= |used| && !used[x - 1]
    ensures Sound(all + [t], tid[t := x], used[x - 1 := true])
  {
  }

  lemma AddComplete(all: seq<TaskId>, tid: map<TaskId, int>, used: seq<bool>, t: TaskId, x: int)
    requires Complete(all, tid, used) && t !in all && 1 <= x <= |used|
    ensures Complete(all + [t], tid[t := x], used[x - 1 := true])
  {
    forall k: nat | k < |used| && (k == x - 1 || used[k]) ensures Owned(all + [t], tid[t := x], k + 1) {
      var u: TaskId;
      if k == x - 1 {
        u := t;
      } else {
        assert Owned(all, tid, k + 1);
        u :| u in all && u in tid && tid[u] == k + 1;
      }
      assert u in all + [t] && tid[t := x][u] == k + 1;
    }
  }

  lemma TidsDrop(all: seq<TaskId>, tid: map<TaskId, int>, used: seq<bool>, t: TaskId)
    requires TidsOk(all, tid, used) && t in all && NoDup(all)
    ensures TidsOk(Removed(all, t), tid, used[tid[t] - 1 := false])
  {
    RemovedOnce(all, t);
    hide Removed, NoDup;
    SetBitsUpdate(used, tid[t] - 1, false);
    hide SetBits;
    var all' := Removed(all, t);
    DropSound(all, all', tid, used, t);
    DropComplete(all, all', tid, used, t);
  }

  lemma DropSound(all: seq<TaskId>, all': seq<TaskId>, tid: map<TaskId, int>, used: seq<bool>, t: TaskId)
    requires Sound(all, tid, used) && t in all && forall y :: y in all' <==> y in all && y != t
    ensures Sound(all', tid, used[tid[t] - 1 := false])
  {
  }

  lemma DropComplete(all: seq<TaskId>, all': seq<TaskId>, tid: map<TaskId, int>, used: seq<bool>, t: TaskId)
    requires Complete(all, tid, used) && t in all && t in tid && 1 <= tid[t] <= |used|
    requires forall y :: y in all' <==> y in all && y != t
    ensures Complete(all', tid, used[tid[t] - 1 := false])
  {
    forall k: nat | k < |used| && k != tid[t] - 1 && used[k] ensures Owned(all', tid, k + 1) {
      assert Owned(all, tid, k + 1);
      var u :| u in all && u in tid && tid[u] == k + 1;
      assert u in all';
    }
  }

  lemma {:induction false} ClearTail(s: seq<bool>, m: nat)
    requires m <= |s| && forall k: nat | m <= k < |s| :: !s[k]
    ensures SetBits(s) == SetBits(s[..m])
  {
    if m < |s| {
      ClearTail(s[..|s| - 1], m);
      assert s[..|s| - 1][..m] == s[..m];
    } else {
      assert s[..m] == s;
    }
  }

  lemma {:induction false} FullOrFewer(s: seq<bool>)
    ensures SetBits(s) == |s| ==> Full(s)
  {
    if s != [] { FullOrFewer(s[..|s| - 1]); }
  }

  /** The tids of live tasks only reach as far as bit 32766, so there are at most 32767, and with that many
      the first free bit is the next one. */
  lemma ManyLive(all: seq<TaskId>, tid: map<TaskId, int>, used: seq<bool>, r: int)
    requires TidsOk(all, tid, used) && IsFirstRun(used, 1, r) && |all| >= MAX_TID
    ensures |all| == MAX_TID && r == MAX_TID
  {
    forall k: nat | MAX_TID <= k < |used| ensures !used[k] {
      OwnerBit(all, tid, used, k + 1);
    }
    hide TidsOk, Sound, Complete;
    CountOf(all, tid, used);
    ClearTail(used, MAX_TID);
    FullOrFewer(used[..MAX_TID]);
    hide SetBits;
    assert RunAt(used, 1, MAX_TID);
    forall k: nat | k < MAX_TID ensures !RunAt(used, 1, k) {
      assert used[..MAX_TID][k];
    }
  }

  lemma {:induction false} AllSet(s: seq<bool>)
    requires Full(s)
    ensures SetBits(s) == |s|
  {
    if s != [] { AllSet(s[..|s| - 1]); }
  }

  /** Tasks 0 to 32766 with the first 32767 tids. */
  ghost predicate FirstTids(all: seq<TaskId>, tid: map<TaskId, int>, used: seq<bool>) {
    && |all| == MAX_TID && |used| == 8 * TID_BYTES
    && (forall k: nat | k < MAX_TID :: all[k] == k)
    && (forall t | t in all :: t in tid && tid[t] == t + 1)
    && (forall k: nat | k < |used| :: used[k] <==> k < MAX_TID)
  }

  lemma FirstSound(all: seq<TaskId>, tid: map<TaskId, int>, used: seq<bool>)
    requires FirstTids(all, tid, used)
    ensures Sound(all, tid, used) && ListsOk(all, [], {}, 0)
  {
  }

  lemma FirstComplete(all: seq<TaskId>, tid: map<TaskId, int>, used: seq<bool>)
    requires FirstTids(all, tid, used)
    ensures Complete(all, tid, used)
  {
    forall k: nat | k < |used| && used[k] ensures Owned(all, tid, k + 1) {
      var t := all[k];
      assert t == k && t in all && tid[t] == k + 1;
    }
  }

  lemma FirstBits(all: seq<TaskId>, tid: map<TaskId, int>, used: seq<bool>)
    requires FirstTids(all, tid, used)
    ensures SetBits(used) == MAX_TID
  {
    hide SetBits;
    ClearTail(used, MAX_TID);
    AllSet(used[..MAX_TID]);
  }

  /** There are tables with 32767 live tasks. */
  lemma FullTable() returns (all: seq<TaskId>, tid: map<TaskId, int>, used: seq<bool>)
    ensures |all| == MAX_TID && TidsOk(all, tid, used) && ListsOk(all, [], {}, 0)
  {
    hide SetBits, Sound, Complete, ListsOk;
    all := seq(MAX_TID, i requires 0 <= i < MAX_TID => i);
    tid := map t | t in all :: t + 1;
    used := seq(8 * TID_BYTES, k requires 0 <= k < 8 * TID_BYTES => k < MAX_TID);
    FirstSound(all, tid, used);
    FirstComplete(all, tid, used);
    FirstBits(all, tid, used);
  }

  /** What allocate_tid returns next is a positive tid, and release_tid would clear its bit, exactly if fewer
      than 32767 tasks live. With 32767 it is -32768, and its release addresses a bit beyond the map, although
      the map has room for a million. */
  lemma NextTid(all: seq<TaskId>, tid: map<TaskId, int>, used: seq<bool>, r: int)
    requires TidsOk(all, tid, used) && IsFirstRun(used, 1, r)
    ensures var x := Int16(r + TID_START);
            && r >= 0
            && (1 <= x <==> |all| < MAX_TID)
            && (ReleaseIndex(x) == r <==> |all| < MAX_TID)
            && (|all| >= MAX_TID ==> |all| == MAX_TID && x == -32768 && ReleaseIndex(x) > |used|)
  {
    SoundTids(all, tid, used);
    CountOf(all, tid, used);
    if |all| < MAX_TID {
      FewBitsSet(used, r);
      TidRoundTrip(r);
    } else {
      ManyLive(all, tid, used, r);
      TidRoundTrip(MAX_TID);
    }
  }

  /** Live and pooled tasks are disjoint, each listed once; pooled tasks are dead, and never the main task. */
  ghost predicate ListsOk(all: seq<TaskId>, pool: seq<TaskId>, died: set<TaskId>, main: TaskId) {
    && NoDup(all) && NoDup(pool)
    && (forall t | t in all :: t !in pool && t !in died)
    && (forall t | t in pool :: t in died && t != main)
  }

  lemma ListsReuse(all: seq<TaskId>, pool: seq<TaskId>, died: set<TaskId>, main: TaskId)
    requires ListsOk(all, pool, died, main) && pool != []
    ensures pool[0] !in all && pool[0] in died && ListsOk(all + [pool[0]], pool[1..], died - {pool[0]}, main)
  {
    assert pool[0] in pool;
  }

  lemma ListsAdd(all: seq<TaskId>, pool: seq<TaskId>, died: set<TaskId>, main: TaskId, t: TaskId)
    requires ListsOk(all, pool, died, main) && t !in all && t !in pool
    ensures ListsOk(all + [t], pool, died - {t}, main)
  {
  }

  lemma ListsDrop(all: seq<TaskId>, pool: seq<TaskId>, died: set<TaskId>, main: TaskId, t: TaskId)
    requires ListsOk(all, pool, died, main) && t in all
    ensures ListsOk(Removed(all, t), if t == main then pool else pool + [t], died + {t}, main)
    ensures |Removed(all, t)| == |all| - 1
  {
    RemovedOnce(all, t);
    hide Removed;
  }

  lemma CountOf(all: seq<TaskId>, tid: map<TaskId, int>, used: seq<bool>)
    requires TidsOk(all, tid, used)
    ensures SetBits(used) == |all|
  {
  }

  lemma SoundTids(all: seq<TaskId>, tid: map<TaskId, int>, used: seq<bool>)
    requires TidsOk(all, tid, used)
    ensures Sound(all, tid, used) && |used| == 8 * TID_BYTES
  {
  }

  lemma FreshTid(all: seq<TaskId>, tid: map<TaskId, int>, used: seq<bool>, x: int)
    requires Sound(all, tid, used) && 1 <= x <= |used| && !used[x - 1]
    ensures forall t | t in all :: t in tid && tid[t] != x
  {
  }

  lemma ListsNoDup(all: seq<TaskId>, pool: seq<TaskId>, died: set<TaskId>, main: TaskId)
    requires ListsOk(all, pool, died, main)
    ensures NoDup(all)
  {
  }

  /** The set bits are exactly the tids of the live tasks. */
  lemma OwnerBit(all: seq<TaskId>, tid: map<TaskId, int>, used: seq<bool>, x: int)
    requires TidsOk(all, tid, used)
    ensures Owned(all, tid, x) <==> 1 <= x <= |used| && used[x - 1]
  {
    hide SetBits;
    if 1 <= x <= |used| && used[x - 1] {
      var k: nat := x - 1;
      assert Owned(all, tid, k + 1);
    }
  }

  /** task_all_list, task_pool_list, task_all_nums and the tids. */
  class TaskTable {
    const tids: TidPool
    const main: TaskId
    var all: seq<TaskId>
    var pool: seq<TaskId>
    var tid: map<TaskId, int>
    var died: set<TaskId>
    var nums: int

    ghost predicate Valid()
      reads this, tids, tids.bitmap, tids.bitmap.bits
    {
      tids.Valid() && TidsOk(all, tid, tids.Used()) && ListsOk(all, pool, died, main) && nums == |all|
    }

    /** task_init and make_main_task */
    constructor (main: TaskId)
      ensures Valid() && this.main == main && all == [main] && pool == [] && tid == map[main := 1]
      ensures fresh(tids) && fresh(tids.bitmap) && fresh(tids.bitmap.bits)
    {
      var t := new TidPool();
      ghost var unused := t.Used();
      NoTids(unused);
      var x := t.Allocate();
      assert !unused[0];
      TidsAdd([], map[], unused, main, 1);
      hide TidsOk, SetBits;
      assert [] + [main] == [main];
      this.main := main;
      tids := t;
      all, pool, tid, died, nums := [main], [], map[main := 1], {}, 1;
    }

    /** task_start: a pooled structure if there is one, a new one otherwise. */
    method Start(unused: TaskId) returns (task: TaskId)
      requires Valid() && |all| < MAX_TID && unused !in all && unused !in pool
      modifies this, tids.bitmap.bits
      ensures Valid()
      ensures if old(pool) == [] then task == unused && pool == [] else [task] + pool == old(pool) && task in old(died)
      ensures task !in old(all) && all == old(all) + [task] && nums == old(nums) + 1
      ensures tid == old(tid)[task := tid[task]] && 1 <= tid[task] <= MAX_TID
      ensures forall t | t in old(all) :: tid[t] == old(tid)[t] != tid[task]
      ensures tids.Used() == old(tids.Used())[tid[task] - 1 := true]
    {
      hide TidsOk, ListsOk;
      ghost var used := tids.Used();
      CountOf(all, tid, used);
      SoundTids(all, tid, used);
      if pool != [] {
        ListsReuse(all, pool, died, main);
        task := pool[0];
        pool := pool[1..];
      } else {
        ListsAdd(all, pool, died, main, unused);
        task := unused;
      }
      died := died - {task};
      var x := tids.Allocate();
      TidsAdd(all, tid, used, task, x);
      FreshTid(all, tid, used, x);
      hide Sound;
      tid := tid[task := x];
      all := all + [task];
      nums := nums + 1;
    }

    /** The next tid of this table, while and once there are 32767 live tasks; r is where bitmap_scan ends. */
    lemma NextTidIs(r: int)
      requires Valid() && IsFirstRun(tids.Used(), 1, r)
      ensures 1 <= Int16(r + TID_START) <==> nums < MAX_TID
      ensures nums == MAX_TID ==> Int16(r + TID_START) == -32768 && ReleaseIndex(Int16(r + TID_START)) > |tids.Used()|
    {
      NextTid(all, tid, tids.Used(), r);
    }

    /** task_exit */
    method Exit(task: TaskId)
      requires Valid() && task in all
      modifies this, tids.bitmap.bits
      ensures Valid()
      ensures all == Removed(old(all), task) && nums == old(nums) - 1 && tid == old(tid)
      ensures pool == (if task == main then old(pool) else old(pool) + [task]) && task in died
      ensures tids.Used() == old(tids.Used())[tid[task] - 1 := false]
    {
      hide ListsOk, Removed, SetBits;
      ghost var used := tids.Used();
      SoundTids(all, tid, used);
      ListsNoDup(all, pool, died, main);
      ListsDrop(all, pool, died, main, task);
      TidsDrop(all, tid, used, task);
      assert task in tid && 1 <= tid[task] <= MAX_TID;
      hide TidsOk, Sound, NoDup;
      died := died + {task};
      all := Removed(all, task);
      nums := nums - 1;
      if task != main {
        pool := pool + [task];
      }
      tids.Release(tid[task]);
    }

    /** list_traversal with tid_check */
    method Traverse(x: int) returns (r: Option<TaskId>)
      requires forall t | t in all :: t in tid
      ensures r.Some? ==> r.value in all && tid[r.value] == x
      ensures r.None? ==> forall t | t in all :: tid[t] != x
    {
      var i := 0;
      while i < |all|
        invariant 0 <= i <= |all|
        invariant forall t | t in all[..i] :: tid[t] != x
      {
        if tid[all[i]] == x {
          return Some(all[i]);
        }
        i := i + 1;
      }
      return None;
    }

    /** tid2task: the one live task with that tid, if its bit is set, and nothing otherwise. */
    method Find(x: int) returns (r: Option<TaskId>)
      requires Valid()
      ensures r.Some? ==> r.value in all && tid[r.value] == x && forall t | t in all && tid[t] == x :: t == r.value
      ensures r.None? ==> forall t | t in all :: tid[t] != x
      ensures r.Some? <==> 1 <= x <= |tids.Used()| && tids.Used()[x - 1]
    {
      SoundTids(all, tid, tids.Used());
      OwnerBit(all, tid, tids.Used(), x);
      hide TidsOk, ListsOk;
      r := Traverse(x);
      assert r.Some? <==> Owned(all, tid, x);
    }
  }
}
