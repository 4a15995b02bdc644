/** The timer manager at heap level: intrusive circular lists, drained while their nodes are being linked
    into other lists. Every method is proved to do what the wheel of TimerWheel does. */
module TimerManager {
  import opened TimerWheel
  import opened TimerList

  /** The `home` of a node that is in no slot: taken off a list that is being walked, or freed. */
  const LOOSE: int := SLOTS
  /** The `home` of a freed node. */
  const FREED: int := SLOTS + 1

  class Manager {
    const clockGranularity: nat
    /** The list heads of the five arrays, one after the other. */
    const heads: seq<TimerNode>
    var uJiffies: nat
    ghost var lists: seq<seq<TimerNode>>
    ghost var cells: seq<seq<Timer>>
    ghost var nodes: set<TimerNode>

    /** timer_init up to its first create_timer: every list head alone with itself. */
    constructor (clockGranularity: nat, uJiffies: nat)
      requires clockGranularity >= 1
      ensures Valid() && fresh(heads) && nodes == {}
      ensures this.clockGranularity == clockGranularity && Model() == Wheel(uJiffies, EmptyCells(SLOTS))
    {
      this.clockGranularity := clockGranularity;
      this.uJiffies := uJiffies;
      var hs: seq<TimerNode> := [];
      for i := 0 to SLOTS
        invariant |hs| == i && fresh(hs)
        invariant forall k: nat | k < i :: hs[k].home == -1 - k && Ring(hs[k], [])
      {
        var head := new TimerNode(0, 0, Other(0), -1 - i);
        hs := hs + [head];
      }
      this.heads := hs;
      this.lists := seq(SLOTS, _ => []);
      this.cells := EmptyCells(SLOTS);
      this.nodes := {};
      new;
      assert forall i: nat | i < SLOTS :: SlotValid(i);
    }

    /** Slot i: its cycle, and the timer values along it. */
    ghost predicate SlotValid(i: nat)
      requires i < |heads| && i < |lists| && i < |cells|
      reads this`lists, this`cells, this`nodes, heads[i], lists[i]
    {
      && heads[i].home == -1 - i
      && Ring(heads[i], lists[i])
      && |cells[i]| == |lists[i]|
      && forall k :: 0 <= k < |lists[i]| ==>
           lists[i][k] in nodes && lists[i][k].home == i && lists[i][k].AsTimer() == cells[i][k]
    }

    ghost predicate Valid()
      reads this`lists, this`cells, this`nodes, heads, nodes
    {
      && clockGranularity >= 1
      && |heads| == SLOTS && |lists| == SLOTS && |cells| == SLOTS
      && (forall i: nat, n | i < SLOTS && n in lists[i] :: n in nodes)
      && forall i: nat | i < SLOTS :: SlotValid(i)
    }

    ghost function Model(): Wheel
      reads this
    {
      Wheel(uJiffies, cells)
    }

    /** Nodes off the lists, other than `but`, are left as they were. */
    twostate predicate LooseUnchanged(but: set<TimerNode>)
      reads this`nodes, nodes
    {
      nodes == old(nodes) && forall n | n in nodes && n !in but && old(n.home) == LOOSE :: unchanged(n)
    }

    twostate lemma SlotKept(k: nat)
      requires k < |heads| && k < |old(lists)| && k < |old(cells)| && old(SlotValid(k))
      requires k < |lists| && lists[k] == old(lists[k]) && k < |cells| && cells[k] == old(cells[k])
      requires nodes >= old(nodes)
      requires unchanged(heads[k]) && forall n | n in lists[k] :: unchanged(n)
      ensures SlotValid(k)
    {
      var s := lists[k];
      forall i: nat | i < |s|
        ensures s[i] in nodes && s[i].home == k && s[i].AsTimer() == cells[k][i]
        ensures s[i].pNext == old(s[i].pNext) && s[i].pPrev == old(s[i].pPrev)
      {
        assert s[i] in s && unchanged(s[i]);
        assert s[i].home == old(s[i].home) && s[i].uExpires == old(s[i].uExpires);
        assert s[i].AsTimer() == old(s[i].AsTimer());
      }
      assert old(Ring(heads[k], s));
      assert Ring(heads[k], s);
    }

    /** The objects of all slots but i are as they were. */
    twostate predicate OthersUntouched(i: nat)
      requires |heads| == SLOTS
      reads this`nodes, heads, nodes
    {
      && nodes >= old(nodes)
      && (forall k: nat | k < SLOTS && k != i :: unchanged(heads[k]))
      && forall n | n in old(nodes) && 0 <= old(n.home) < SLOTS && old(n.home) != i :: unchanged(n)
    }

    /** Whatever touches only slot i and nodes off the lists keeps every other slot. */
    twostate lemma OthersKept(i: nat)
      requires old(Valid())
      requires |lists| == SLOTS && forall k: nat | k < SLOTS && k != i :: lists[k] == old(lists)[k]
      requires |cells| == SLOTS && forall k: nat | k < SLOTS && k != i :: cells[k] == old(cells)[k]
      requires OthersUntouched(i)
      ensures forall k: nat | k < SLOTS && k != i :: SlotValid(k)
    {
      forall k: nat | k < SLOTS && k != i ensures SlotValid(k) {
        assert old(SlotValid(k));
        forall n | n in lists[k] ensures unchanged(n) {
          var x :| 0 <= x < |lists[k]| && lists[k][x] == n;
        }
        SlotKept(k);
      }
    }

    lemma HeadsApart(i: nat)
      requires Valid() && i < SLOTS
      ensures forall k: nat | k < SLOTS && k != i :: heads[k].home < 0 && heads[k] != heads[i] && heads[k] !in lists[i]
      ensures heads[i].home < 0 && forall n | n in lists[i] :: n.home == i
    {
      assert SlotValid(i);
      forall k: nat | k < SLOTS && k != i
        ensures heads[k].home < 0 && heads[k] != heads[i] && heads[k] !in lists[i]
      {
        assert SlotValid(k);
      }
    }

    /** Link a node that is off the lists to the tail of slot i. */
    method LinkTail(pTmr: TimerNode, i: nat)
      requires Valid() && pTmr in nodes && pTmr.home == LOOSE && i < SLOTS
      modifies this`lists, this`cells, pTmr, heads[i], lists[i]
      ensures Valid()
      ensures lists == old(lists)[i := old(lists)[i] + [pTmr]]
      ensures cells == old(cells)[i := old(cells)[i] + [old(pTmr.AsTimer())]]
      ensures pTmr.home == i
    {
      hide Ring;
      ghost var s, vs, t := lists[i], cells[i], pTmr.AsTimer();
      assert SlotValid(i);
      HeadsApart(i);
      RingEnds(heads[i], s);
      pTmr.home := i;
      ListTimerInsertTail(pTmr, heads[i], s);
      lists := lists[i := s + [pTmr]];
      cells := cells[i := vs + [t]];
      OthersKept(i);
      assert SlotValid(i) by {
        assert forall x :: 0 <= x < |s| ==> s[x].AsTimer() == vs[x] && s[x].home == i;
      }
    }

    /** add_timer. */
    method AddTimer(pTmr: TimerNode)
      requires Valid() && pTmr in nodes && pTmr.home == LOOSE
      modifies this`lists, this`cells, heads, nodes
      ensures Valid() && LooseUnchanged({pTmr})
      ensures cells == Insert(clockGranularity, uJiffies, old(cells), old(pTmr.AsTimer()))
      ensures 0 <= pTmr.home < SLOTS && pTmr in lists[pTmr.home]
    {
      var i := SlotIndex(pTmr.uExpires);
      HeadsApart(i);
      assert SlotValid(i);
      LinkTail(pTmr, i);
    }

    /** add_timer's choice of a list head. */
    method SlotIndex(uExpires: nat) returns (i: nat)
      requires clockGranularity >= 1
      ensures i == SlotFor(clockGranularity, uJiffies, uExpires)
    {
      var uDueTime := (uExpires - uJiffies) % WORD;
      uDueTime := uDueTime / clockGranularity;
      if uDueTime < 0x100 {
        i := Base(1) + uExpires % 256;
      } else if uDueTime < 0x4000 {
        i := Base(2) + uExpires / 0x100 % 64;
      } else if uDueTime < 0x10_0000 {
        i := Base(3) + uExpires / 0x4000 % 64;
      } else if uDueTime < 0x400_0000 {
        i := Base(4) + uExpires / 0x10_0000 % 64;
      } else {
        i := Base(5) + uExpires / 0x400_0000 % 64;
      }
    }

    /** The rest of a detached list, from position k on: linked forward to its end, its nodes still carrying
        the timers ts. Backward links are stale and not used. */
    ghost predicate Walk(h: TimerNode, s: seq<TimerNode>, ts: seq<Timer>, k: nat)
      reads this`nodes, s
    {
      && |s| == |ts| && k <= |s| && Distinct(s) && h !in s
      && forall i :: k <= i < |s| ==>
           s[i] in nodes && s[i].home == LOOSE && s[i].AsTimer() == ts[i] && s[i].pNext == At(h, s, i + 1)
    }

    lemma WalkAt(h: TimerNode, s: seq<TimerNode>, ts: seq<Timer>, k: nat)
      requires Walk(h, s, ts, k) && At(h, s, k) != h
      ensures k < |s| == |ts| && s[k] in nodes && s[k] in s && s[k].home == LOOSE
      ensures s[k].AsTimer() == ts[k] && s[k].pNext == At(h, s, k + 1) && Walk(h, s, ts, k + 1)
    {
    }

    lemma Shape()
      requires Valid()
      ensures clockGranularity >= 1 && |heads| == SLOTS && |lists| == SLOTS && |cells| == SLOTS
      ensures forall c: nat | c < SLOTS :: |lists[c]| == |cells[c]| && forall n | n in lists[c] :: n in nodes
    {
      forall c: nat | c < SLOTS ensures |lists[c]| == |cells[c]| { assert SlotValid(c); }
    }

    lemma SlotFacts(i: nat)
      requires Valid() && i < SLOTS
      ensures heads[i].home == -1 - i && Ring(heads[i], lists[i]) && |cells[i]| == |lists[i]|
      ensures forall k :: 0 <= k < |lists[i]| ==> lists[i][k] in nodes && lists[i][k].AsTimer() == cells[i][k]
    {
      assert SlotValid(i);
    }

    /** list_timer_replace_init of slot c onto a head on the stack. */
    method Take(c: nat, listTmr: TimerNode)
      requires Valid() && c < SLOTS && listTmr !in nodes && listTmr !in heads
      modifies listTmr, heads[c], lists[c]
      ensures Walk(listTmr, lists[c], cells[c], 0) && listTmr.pNext == At(listTmr, lists[c], 0)
      ensures heads[c].home == -1 - c && Ring(heads[c], []) && OthersUntouched(c)
    {
      hide Ring, Valid, SlotValid;
      Shape();
      SlotFacts(c);
      HeadsApart(c);
      ghost var s := lists[c];
      ListTimerTake(heads[c], listTmr, s, LOOSE);
      assert OthersUntouched(c);
      hide OthersUntouched;
      assert Walk(listTmr, s, cells[c], 0);
    }

    /** Move the whole list of slot c over to a head on the stack. */
    method Detach(c: nat, listTmr: TimerNode)
      requires Valid() && c < SLOTS && listTmr !in nodes && listTmr !in heads
      modifies this`lists, this`cells, listTmr, heads[c], lists[c]
      ensures Valid() && lists == old(lists)[c := []] && cells == old(cells)[c := []]
      ensures Walk(listTmr, old(lists)[c], old(cells)[c], 0) && listTmr.pNext == At(listTmr, old(lists)[c], 0)
    {
      hide Ring, OthersUntouched, Walk, At;
      Shape();
      Take(c, listTmr);
      lists := lists[c := []];
      cells := cells[c := []];
      OthersKept(c);
      assert SlotValid(c);
    }

    /** add_timer on the node that a walk has just passed: the rest of the walk stays intact. */
    method AddWalked(pTmr: TimerNode, ghost h: TimerNode, ghost s: seq<TimerNode>, ghost ts: seq<Timer>, ghost k: nat)
      requires Valid() && Walk(h, s, ts, k + 1) && k < |s| && s[k] == pTmr && pTmr in nodes && pTmr.home == LOOSE
      modifies this`lists, this`cells, heads, nodes
      ensures Valid() && nodes == old(nodes) && Walk(h, s, ts, k + 1)
      ensures cells == Insert(clockGranularity, uJiffies, old(cells), old(pTmr.AsTimer()))
    {
      hide Insert, Ring;
      AddTimer(pTmr);
    }

    /** cascade_timer: the list of the slot is walked by its forward links while add_timer relinks the nodes
        already passed - possibly to the very slot being drained. */
    method CascadeTimer(l: Level, idx: nat) returns (r: nat)
      requires Valid() && idx < Size(l)
      modifies this`lists, this`cells, heads, nodes
      ensures Valid() && nodes == old(nodes) && r == idx
      ensures var c := Base(l) + idx;
              cells == InsertAll(clockGranularity, uJiffies, old(cells)[c := []], old(cells)[c])
    {
      hide Valid, Walk, LooseUnchanged, Insert, InsertAll;
      Shape();
      var c := Base(l) + idx;
      var listTmr := new TimerNode(0, 0, Other(0), LOOSE);
      ghost var s, ts, drained := lists[c], cells[c], cells[c := []];
      assert |s| == |ts| && forall n | n in s :: n in nodes;
      Detach(c, listTmr);
      var pListTimer := listTmr.pNext;
      ghost var k := 0;
      InsertAllNone(clockGranularity, uJiffies, drained);
      while pListTimer != listTmr
        invariant Valid() && |cells| == SLOTS && nodes == old(nodes)
        invariant k <= |s| == |ts| && Walk(listTmr, s, ts, k) && pListTimer == At(listTmr, s, k)
        invariant cells == InsertAll(clockGranularity, uJiffies, drained, ts[..k])
        decreases |s| - k
      {
        var pTmr := pListTimer;
        WalkAt(listTmr, s, ts, k);
        pListTimer := pListTimer.pNext;
        AddWalked(pTmr, listTmr, s, ts, k);
        assert ts[..k + 1] == ts[..k] + [ts[k]];
        InsertAllPush(clockGranularity, uJiffies, drained, ts[..k], ts[k]);
        k := k + 1;
      }
      assert ts[..k] == ts;
      r := idx;
    }

    method CascadeLevel(l: Level) returns (r: nat)
      requires Valid() && l >= 2
      modifies this`lists, this`cells, heads, nodes
      ensures Valid() && nodes == old(nodes) && r == Index(l, uJiffies)
      ensures cells == Cascade(clockGranularity, uJiffies, old(cells), l)
    {
      hide Valid, Index, InsertAll;
      Shape();
      r := CascadeTimer(l, Index(l, uJiffies));
    }

    /** The chained cascades at the start of a tick. */
    method CascadeAll()
      requires Valid()
      modifies this`lists, this`cells, heads, nodes
      ensures Valid() && nodes == old(nodes)
      ensures cells == Cascades(clockGranularity, uJiffies, old(cells))
    {
      hide Valid, Cascade;
      Shape();
      var idx := uJiffies % 256;
      if idx == 0 {
        var i2 := CascadeLevel(2);
        if i2 == 0 {
          var i3 := CascadeLevel(3);
          if i3 == 0 {
            var i4 := CascadeLevel(4);
            if i4 == 0 {
              var i5 := CascadeLevel(5);
            }
          }
        }
      }
    }

    /** One iteration of run_timer's loop: the callbacks are reported in the order they are made. */
    method OneTick() returns (fired: seq<Timer>)
      requires Valid() && uJiffies < WORD - 1
      modifies this`uJiffies, this`lists, this`cells, heads, nodes
      ensures Valid() && nodes == old(nodes)
      ensures Model() == Tick(clockGranularity, old(Model())) && fired == Fired(clockGranularity, old(Model()))
    {
      hide Valid, Walk, LooseUnchanged, Insert, Cascades, Rearm;
      Shape();
      CascadeAll();
      Shape();
      var idx := uJiffies % 256;
      var listTmrExpire := new TimerNode(0, 0, Other(0), LOOSE);
      ghost var s, ts, rest := lists[idx], cells[idx], cells[idx := []];
      Detach(idx, listTmrExpire);
      var pListTmrExpire := listTmrExpire.pNext;
      ghost var k := 0;
      fired := [];
      RearmNone(clockGranularity, uJiffies, rest);
      while pListTmrExpire != listTmrExpire
        invariant Valid() && |cells| == SLOTS && nodes == old(nodes) && uJiffies == old(uJiffies)
        invariant k <= |s| == |ts| && Walk(listTmrExpire, s, ts, k) && pListTmrExpire == At(listTmrExpire, s, k)
        invariant fired == ts[..k] && cells == Rearm(clockGranularity, uJiffies, rest, ts[..k])
        decreases |s| - k
      {
        var pTmr := pListTmrExpire;
        WalkAt(listTmrExpire, s, ts, k);
        pListTmrExpire := pListTmrExpire.pNext;
        fired := fired + [Timer(pTmr.id, pTmr.uExpires, pTmr.uPeriod, pTmr.callback)];
        AfterCallback(pTmr, listTmrExpire, s, ts, k);
        assert ts[..k + 1] == ts[..k] + [ts[k]];
        RearmPush(clockGranularity, uJiffies, rest, ts[..k], ts[k]);
        k := k + 1;
      }
      assert ts[..k] == ts;
      uJiffies := uJiffies + 1;
    }

    /** What happens to a node that is off the lists does not concern the lists. */
    twostate lemma LooseKeepsValid(n: TimerNode)
      requires old(Valid()) && lists == old(lists) && cells == old(cells) && nodes == old(nodes)
      requires n in nodes && old(n.home) == LOOSE
      requires forall m | m in nodes && m != n :: unchanged(m)
      requires forall k: nat | k < SLOTS :: unchanged(heads[k])
      ensures Valid()
    {
      OthersKept(SLOTS);
    }

    lemma HeadHomes()
      requires Valid()
      ensures forall k: nat | k < SLOTS :: heads[k].home < 0
    {
      forall k: nat | k < SLOTS ensures heads[k].home < 0 { assert SlotValid(k); }
    }

    /** Write to a node that is off the lists. */
    method SetLoose(pTmr: TimerNode, uExpires: nat, ghost home: int)
      requires Valid() && pTmr in nodes && pTmr.home == LOOSE
      modifies pTmr`uExpires, pTmr`home
      ensures Valid() && pTmr.uExpires == uExpires && pTmr.home == home
    {
      hide Valid;
      Shape();
      HeadHomes();
      pTmr.uExpires := uExpires;
      pTmr.home := home;
      LooseKeepsValid(pTmr);
    }

    /** After its callback a periodic timer is armed again, a one-shot is freed. */
    method AfterCallback(pTmr: TimerNode, ghost h: TimerNode, ghost s: seq<TimerNode>, ghost ts: seq<Timer>, ghost k: nat)
      requires Valid() && Walk(h, s, ts, k) && k < |s| && s[k] == pTmr
      modifies this`lists, this`cells, heads, nodes
      ensures Valid() && nodes == old(nodes) && Walk(h, s, ts, k + 1)
      ensures cells == if ts[k].period != 0
                       then Insert(clockGranularity, uJiffies, old(cells), Rearmed(uJiffies, ts[k]))
                       else old(cells)
    {
      hide Valid, Insert;
      Shape();
      SetAfterCallback(pTmr, h, s, ts, k);
      if pTmr.uPeriod != 0 {
        AddWalked(pTmr, h, s, ts, k);
      }
    }

    method SetAfterCallback(pTmr: TimerNode, ghost h: TimerNode, ghost s: seq<TimerNode>, ghost ts: seq<Timer>, ghost k: nat)
      requires Valid() && Walk(h, s, ts, k) && k < |s| && s[k] == pTmr
      modifies pTmr`uExpires, pTmr`home
      ensures Valid() && Walk(h, s, ts, k + 1) && pTmr in nodes
      ensures pTmr.uPeriod == ts[k].period
      ensures pTmr.uPeriod != 0 ==> pTmr.home == LOOSE && pTmr.AsTimer() == Rearmed(uJiffies, ts[k])
    {
      hide Valid;
      if pTmr.uPeriod != 0 {
        SetLoose(pTmr, (uJiffies + pTmr.uPeriod) % WORD, LOOSE);
      } else {
        SetLoose(pTmr, pTmr.uExpires, FREED);
      }
    }

    /** run_timer. */
    method RunTimer(now: nat) returns (log: seq<Firing>)
      requires Valid() && now < WORD - 1
      modifies this`uJiffies, this`lists, this`cells, heads, nodes
      ensures Valid() && nodes == old(nodes)
      ensures Model() == Run(clockGranularity, old(Model()), now) && log == RunLog(clockGranularity, old(Model()), now)
    {
      hide Valid, Tick, Fired, Firings;
      Shape();
      log := [];
      ghost var g, w := clockGranularity, Model();
      assert log + RunLog(g, w, now) == RunLog(g, w, now);
      while uJiffies <= now
        invariant Valid() && |cells| == SLOTS && nodes == old(nodes)
        invariant Run(g, Model(), now) == Run(g, w, now)
        invariant log + RunLog(g, Model(), now) == RunLog(g, w, now)
        decreases now + 1 - uJiffies
      {
        ghost var before, done := Model(), log;
        var fired := OneTick();
        Shape();
        log := log + Firings(uJiffies - 1, fired);
        assert log + RunLog(g, Model(), now) == done + (Firings(before.jiffies, fired) + RunLog(g, Model(), now));
      }
      assert log + [] == log;
    }

    /** create_timer: the node's `id` numbers the creations. */
    method CreateTimer(id: nat, timerFn: Callback, uDueTime: nat, uPeriod: nat) returns (pTmr: TimerNode)
      requires Valid()
      modifies this`lists, this`cells, this`nodes, heads, nodes
      ensures Valid() && fresh(pTmr) && nodes == old(nodes) + {pTmr} && Linked(pTmr)
      ensures Model() == Create(clockGranularity, old(Model()), id, uDueTime, uPeriod, timerFn)
    {
      hide Valid, Insert;
      Shape();
      pTmr := new TimerNode(id, uPeriod, timerFn, LOOSE);
      pTmr.uExpires := (uJiffies + uDueTime) % WORD;
      Adopt(pTmr);
      AddTimer(pTmr);
    }

    /** A node that is on one of the lists: what delete_timer may be called with. */
    ghost predicate Linked(n: TimerNode)
      reads this`lists, n
    {
      |lists| == SLOTS && 0 <= n.home < SLOTS && n in lists[n.home]
    }

    /** Bookkeeping of the proof: a new node joins the manager. */
    ghost method Adopt(n: TimerNode)
      requires Valid() && n !in nodes && n !in heads
      modifies this`nodes
      ensures Valid() && nodes == old(nodes) + {n}
    {
      nodes := nodes + {n};
      OthersKept(SLOTS);
    }

    /** delete_timer: unlink a node without knowing its slot, leaving every other list as it is. */
    method DeleteTimer(lpTimer: TimerNode?) returns (r: int, ghost c: nat, ghost k: nat)
      requires Valid() && (lpTimer != null ==> lpTimer in nodes && Linked(lpTimer))
      modifies this`lists, this`cells, heads, nodes
      ensures Valid() && nodes == old(nodes)
      ensures lpTimer == null ==> r == -1 && lists == old(lists) && Model() == old(Model())
      ensures lpTimer != null ==>
                && r == 0 && c < SLOTS && k < |old(lists)[c]| && old(lists)[c][k] == lpTimer && !Linked(lpTimer)
                && lists == old(lists)[c := Without(old(lists)[c], k)]
                && |old(cells)| == SLOTS && k < |old(cells)[c]| && Model() == Delete(old(Model()), c, k)
    {
      c, k := 0, 0;
      if lpTimer == null {
        return -1, c, k;
      }
      c := lpTimer.home;
      k :| k < |lists[c]| && lists[c][k] == lpTimer;
      UnlinkFrom(lpTimer, c, k);
      r := 0;
    }

    method UnlinkFrom(pTmr: TimerNode, ghost c: nat, ghost k: nat)
      requires Valid() && c < SLOTS && k < |lists[c]| && lists[c][k] == pTmr
      modifies this`lists, this`cells, heads[c], lists[c]
      ensures Valid() && pTmr.home == FREED
      ensures lists == old(lists)[c := Without(old(lists)[c], k)]
      ensures k < |old(cells)[c]| && cells == old(cells)[c := Without(old(cells)[c], k)]
    {
      hide Ring, OthersUntouched, Without;
      SlotFacts(c);
      UnlinkNode(pTmr, c, k);
      lists := lists[c := Without(lists[c], k)];
      cells := cells[c := Without(cells[c], k)];
      OthersKept(c);
      assert SlotValid(c);
    }

    /** delete_timer's pointer surgery, seen from the slot that holds the node. */
    method UnlinkNode(pTmr: TimerNode, ghost c: nat, ghost k: nat)
      requires Valid() && c < SLOTS && k < |lists[c]| && lists[c][k] == pTmr
      modifies heads[c], lists[c]
      ensures pTmr.home == FREED && heads[c].home == -1 - c && OthersUntouched(c)
      ensures var s := lists[c]; var rest := Without(s, k);
              && Ring(heads[c], rest)
              && forall i :: 0 <= i < |s| && i != k ==> s[i] in nodes && s[i].home == c && s[i].uExpires == old(s[i].uExpires)
    {
      hide Ring, Valid, SlotValid, Without;
      Shape();
      SlotFacts(c);
      HeadsApart(c);
      ghost var s := lists[c];
      RingNeighbours(heads[c], s, k);
      Unlink(pTmr, heads[c], s, k);
      SetHomeOf(pTmr, heads[c], Without(s, k), FREED);
    }
  }
}
