/** Whole runs of the timer module: creations, deletions and catch-ups in any order. */
module TimerRuns {
  import opened TimerWheel
  import opened TimerFiring
  import opened TimerRefinement
  import opened TimerConservation
  import opened CellSums

  /** A run so far. `next` numbers the timers in order of creation, `born` keeps each as it was created,
      `log` the callbacks made and `deleted` the timers deleted. */
  datatype History = History(wheel: Wheel, next: nat, born: map<nat, Timer>, log: seq<Firing>, deleted: multiset<nat>)

  datatype Event =
    | NewTimer(due: nat, period: nat, callback: Callback)
    | DropTimer(slot: nat, pos: nat)
    | Advance(now: nat)

  /** The clock does not wrap round 32 bits, and only live timers are deleted. */
  ghost predicate Enabled(h: History, e: Event) {
    |h.wheel.cells| == SLOTS &&
    match e
    case NewTimer(due, period, _) => h.wheel.jiffies + due < WORD
    case DropTimer(slot, pos) => slot < SLOTS && pos < |h.wheel.cells[slot]|
    case Advance(now) => now < WORD - 1 && Fits(h.wheel, now)
  }

  function HistoryTick(g: nat, h: History): (r: History)
    requires g >= 1 && |h.wheel.cells| == SLOTS
    ensures |r.wheel.cells| == SLOTS && r.wheel.jiffies == h.wheel.jiffies + 1
  {
    h.(wheel := Tick(g, h.wheel), log := h.log + Firings(h.wheel.jiffies, Fired(g, h.wheel)))
  }

  function Apply(g: nat, h: History, e: Event): (r: History)
    requires g >= 1 && Enabled(h, e)
  {
    match e
    case NewTimer(due, period, cb) =>
      var t := Timer(h.next, (h.wheel.jiffies + due) % WORD, period, cb);
      h.(wheel := Create(g, h.wheel, h.next, due, period, cb), next := h.next + 1, born := h.born[h.next := t])
    case DropTimer(slot, pos) =>
      var t := h.wheel.cells[slot][pos];
      h.(wheel := Delete(h.wheel, slot, pos), deleted := h.deleted + multiset{t.id})
    case Advance(now) => Advanced(g, h, now)
  }

  function Advanced(g: nat, h: History, now: int): (r: History)
    requires g >= 1 && |h.wheel.cells| == SLOTS
  {
    h.(wheel := Run(g, h.wheel, now), log := h.log + RunLog(g, h.wheel, now))
  }

  ghost predicate Start(h: History) {
    && h == History(Wheel(h.wheel.jiffies, EmptyCells(SLOTS)), 0, map[], [], multiset{})
    && h.wheel.jiffies < WORD
  }

  /** `hs` is a run of the module with granularity g. */
  ghost predicate IsRun(g: nat, hs: seq<History>, es: seq<Event>)
    requires g >= 1
  {
    && |hs| == |es| + 1 && Start(hs[0])
    && forall i | 0 <= i < |es| :: Enabled(hs[i], es[i]) && hs[i + 1] == Apply(g, hs[i], es[i])
  }

  /** The observation of a timer's number. */
  function Id(): Timer -> nat { (t: Timer) => t.id }

  /** How many live timers bear each number. */
  ghost function LiveIds(w: Wheel): multiset<nat> { Bag(Id(), w.cells) }

  /** The numbers of the one-shot timers that fired. */
  ghost function OneShotsFired(log: seq<Firing>): multiset<nat> {
    if log == [] then multiset{} else
    var t := log[|log| - 1].timer;
    OneShotsFired(log[..|log| - 1]) + if t.period == 0 then multiset{t.id} else multiset{}
  }

  /** The next expiry of timer b according to the log: as created, then one period after each firing. */
  function NextExpiry(log: seq<Firing>, b: Timer): nat {
    if log == [] then b.expires else
    var f := log[|log| - 1];
    if f.timer.id == b.id then f.tick + b.period else NextExpiry(log[..|log| - 1], b)
  }

  /** How often timer `id` fired. */
  function FireCount(log: seq<Firing>, id: nat): nat {
    if log == [] then 0 else
    FireCount(log[..|log| - 1], id) + if log[|log| - 1].timer.id == id then 1 else 0
  }

  ghost predicate Born(h: History, t: Timer) {
    t.id in h.born && h.born[t.id] == t.(expires := h.born[t.id].expires)
  }

  /** Each number ever given out is live, fired as a one-shot, or deleted - once and for all. */
  ghost predicate Conserved(h: History) {
    forall id: nat :: LiveIds(h.wheel)[id] + OneShotsFired(h.log)[id] + h.deleted[id] == if id < h.next then 1 else 0
  }

  /** Every live timer waits for the expiry its history prescribes. */
  ghost predicate OnSchedule(h: History) {
    forall c: nat, t | c < |h.wheel.cells| && t in h.wheel.cells[c] ::
      Born(h, t) && t.expires == NextExpiry(h.log, h.born[t.id])
  }

  /** A callback was made for the prescribed expiry: not late, and early only by whole turns of level 1. */
  ghost predicate WellTimed(g: nat, h: History, k: nat)
    requires g >= 1 && k < |h.log|
  {
    var t, tick := h.log[k].timer, h.log[k].tick;
    && Born(h, t) && t.expires == NextExpiry(h.log[..k], h.born[t.id])
    && tick <= t.expires && (t.expires - tick) % 256 == 0 && t.expires - tick <= 256 * (g - 1)
  }

  ghost predicate HistoryInv(g: nat, h: History)
    requires g >= 1
  {
    && WheelInv(g, h.wheel) && Conserved(h) && OnSchedule(h)
    && (forall id: nat :: id in h.born <==> id < h.next)
    && forall k: nat | k < |h.log| :: WellTimed(g, h, k)
  }

  // ---- One tick ----

  lemma FiredBounds(g: nat, w: Wheel, t: Timer)
    requires g >= 1 && WheelInv(g, w) && t in Fired(g, w)
    ensures w.jiffies <= t.expires && (t.expires - w.jiffies) % 256 == 0 && t.expires - w.jiffies <= 256 * (g - 1)
  {
    hide Sits, LevelFor, Visit, Slot, Cascades, Sum;
    var j := w.jiffies;
    CascadesDues(g, j, w.cells);
    DueNowOrLater(g, j, Slot(1, j), t);
    FireBounds(g, 1, j, t.expires);
  }

  lemma {:induction false} ListBagCount(ts: seq<Timer>, i: nat)
    requires i < |ts|
    ensures ListBag(Id(), ts)[ts[i].id] >= 1
    ensures forall k: nat | k < i && ts[k].id == ts[i].id :: ListBag(Id(), ts)[ts[i].id] >= 2
  {
    var n := |ts| - 1;
    assert ts == ts[..n] + [ts[n]];
    ListBagPush(Id(), ts[..n], ts[n]);
    assert Id()(ts[n]) == ts[n].id;
    if i < n {
      ListBagCount(ts[..n], i);
    } else {
      forall k: nat | k < i && ts[k].id == ts[i].id ensures ListBag(Id(), ts)[ts[i].id] >= 2 {
        ListBagCount(ts[..n], k);
      }
    }
  }

  /** When every number is live at most once, the timers fired and those left have different numbers. */
  lemma FiredApart(g: nat, w: Wheel)
    requires g >= 1 && |w.cells| == SLOTS && forall id: nat :: LiveIds(w)[id] <= 1
    ensures var j := w.jiffies; var ts := Fired(g, w); var rest := Cascades(g, j, w.cells)[Slot(1, j) := []];
            && (forall i: nat, k: nat | k < i < |ts| :: ts[i].id != ts[k].id)
            && (forall c: nat, t: Timer, i: nat | c < SLOTS && t in rest[c] && i < |ts| :: t.id != ts[i].id)
  {
    var j, ts := w.jiffies, Fired(g, w);
    var cells := Cascades(g, j, w.cells);
    var rest := cells[Slot(1, j) := []];
    CascadesBag(Id(), g, j, w.cells);
    DrainBag(Id(), cells, Slot(1, j));
    assert forall id: nat :: Bag(Id(), rest)[id] + ListBag(Id(), ts)[id] == LiveIds(w)[id];
    forall i: nat, k: nat | k < i < |ts| ensures ts[i].id != ts[k].id {
      ListBagCount(ts, i);
    }
    forall c: nat, t: Timer, i: nat | c < SLOTS && t in rest[c] && i < |ts| ensures t.id != ts[i].id {
      ListBagCount(ts, i);
      SumHas(Anywhere(Id()), rest, c, t);
      assert Anywhere(Id())(c, t) == t.id;
    }
  }

  lemma LogPush(log: seq<Firing>, j: nat, ts: seq<Timer>)
    requires ts != []
    ensures var n := |ts| - 1; log + Firings(j, ts) == (log + Firings(j, ts[..n])) + [Firing(j, ts[n])]
  {
  }

  lemma OneShotsFiredPush(log: seq<Firing>, f: Firing)
    ensures OneShotsFired(log + [f])
            == OneShotsFired(log) + if f.timer.period == 0 then multiset{f.timer.id} else multiset{}
  {
    assert (log + [f])[..|log|] == log;
  }

  lemma {:induction false} OneShotsFiredAppend(log: seq<Firing>, j: nat, ts: seq<Timer>)
    ensures OneShotsFired(log + Firings(j, ts)) == OneShotsFired(log) + ListBag(Id(), OneShots(ts))
  {
    if ts == [] {
      assert log + Firings(j, ts) == log;
    } else {
      var n := |ts| - 1;
      var init, t := ts[..n], ts[n];
      var x := if t.period == 0 then multiset{t.id} else multiset{};
      OneShotsFiredAppend(log, j, init);
      assert OneShotsFired(log + Firings(j, ts)) == OneShotsFired(log + Firings(j, init)) + x by {
        LogPush(log, j, ts);
        OneShotsFiredPush(log + Firings(j, init), Firing(j, t));
      }
      assert ListBag(Id(), OneShots(ts)) == ListBag(Id(), OneShots(init)) + x by {
        assert ts == init + [t];
        OneShotsPush(Id(), init, t);
      }
    }
  }

  /** Firings of other timers leave a timer's schedule alone. */
  lemma {:induction false} NextExpiryOthers(log: seq<Firing>, j: nat, ts: seq<Timer>, b: Timer)
    requires forall i: nat | i < |ts| :: ts[i].id != b.id
    ensures NextExpiry(log + Firings(j, ts), b) == NextExpiry(log, b)
  {
    if ts == [] {
      assert log + Firings(j, ts) == log;
    } else {
      var n := |ts| - 1;
      NextExpiryOthers(log, j, ts[..n], b);
      assert (log + Firings(j, ts))[..|log| + n] == log + Firings(j, ts[..n]);
    }
  }

  lemma {:induction false} NextExpiryFired(log: seq<Firing>, j: nat, ts: seq<Timer>, i: nat, b: Timer)
    requires i < |ts| && ts[i].id == b.id && forall k: nat | k < |ts| && k != i :: ts[k].id != b.id
    ensures NextExpiry(log + Firings(j, ts), b) == j + b.period
  {
    var n := |ts| - 1;
    assert (log + Firings(j, ts))[..|log| + n] == log + Firings(j, ts[..n]);
    if i < n {
      NextExpiryFired(log, j, ts[..n], i, b);
    }
  }

  lemma TickKeepsSchedule(g: nat, h: History, c: nat, t: Timer)
    requires g >= 1 && HistoryInv(g, h) && Fits(h.wheel, h.wheel.jiffies)
    requires c < SLOTS && t in Tick(g, h.wheel).cells[c]
    ensures Born(h, t) && t.expires == NextExpiry(HistoryTick(g, h).log, h.born[t.id])
  {
    hide Ok, Sits, Slot, Cascades, NextExpiry;
    var w, j, ts := h.wheel, h.wheel.jiffies, Fired(g, h.wheel);
    var rest := Cascades(g, j, w.cells)[Slot(1, j) := []];
    RearmFrom(g, j, rest, ts, c, t);
    if t in rest[c] {
      LeftOnSchedule(g, h, c, t);
    } else {
      var i :| 0 <= i < |ts| && ts[i].period != 0 && t == Rearmed(j, ts[i]);
      RearmedOnSchedule(g, h, i);
    }
  }

  lemma RearmedOnSchedule(g: nat, h: History, i: nat)
    requires g >= 1 && HistoryInv(g, h) && Fits(h.wheel, h.wheel.jiffies) && i < |Fired(g, h.wheel)|
    ensures var t := Rearmed(h.wheel.jiffies, Fired(g, h.wheel)[i]);
            Born(h, t) && t.expires == NextExpiry(HistoryTick(g, h).log, h.born[t.id])
  {
    hide Ok, Sits, Slot, Cascades, Rearm, NextExpiry, LiveIds;
    var w, j, ts := h.wheel, h.wheel.jiffies, Fired(g, h.wheel);
    FiredOnSchedule(g, h, i);
    FiredFits(g, w);
    assert ts[i] in ts;
    FiredApart(g, w);
    NextExpiryFired(h.log, j, ts, i, h.born[ts[i].id]);
  }

  lemma LeftOnSchedule(g: nat, h: History, c: nat, t: Timer)
    requires g >= 1 && HistoryInv(g, h) && c < SLOTS
    requires t in Cascades(g, h.wheel.jiffies, h.wheel.cells)[Slot(1, h.wheel.jiffies) := []][c]
    ensures Born(h, t) && t.expires == NextExpiry(HistoryTick(g, h).log, h.born[t.id])
  {
    hide Ok, Sits, Slot, Cascades, Rearm, NextExpiry, Sum;
    var w, j, ts := h.wheel, h.wheel.jiffies, Fired(g, h.wheel);
    FiredApart(g, w);
    var c' := CascadesFrom(g, j, w.cells, c, t);
    assert Born(h, t);
    NextExpiryOthers(h.log, j, ts, h.born[t.id]);
  }

  lemma FiredOnSchedule(g: nat, h: History, i: nat)
    requires g >= 1 && HistoryInv(g, h) && i < |Fired(g, h.wheel)|
    ensures var t := Fired(g, h.wheel)[i]; Born(h, t) && t.expires == NextExpiry(h.log, h.born[t.id])
  {
    hide Ok, Sits, Slot, Rearm, NextExpiry, Sum;
    var w := h.wheel;
    var c := CascadesFrom(g, w.jiffies, w.cells, Slot(1, w.jiffies), Fired(g, w)[i]);
  }

  lemma TickTimesWell(g: nat, h: History, k: nat)
    requires g >= 1 && HistoryInv(g, h) && k < |HistoryTick(g, h).log|
    ensures WellTimed(g, HistoryTick(g, h), k)
  {
    hide Ok, Sits, Slot, Cascades, Rearm, NextExpiry, LiveIds;
    var w, j, ts, h' := h.wheel, h.wheel.jiffies, Fired(g, h.wheel), HistoryTick(g, h);
    if k < |h.log| {
      assert WellTimed(g, h, k);
      assert h'.log[..k] == h.log[..k];
    } else {
      var i := k - |h.log|;
      FiredApart(g, w);
      FiredBounds(g, w, ts[i]);
      FiredOnSchedule(g, h, i);
      NextExpiryOthers(h.log, j, ts[..i], h.born[ts[i].id]);
      assert h'.log[..k] == h.log + Firings(j, ts[..i]);
    }
  }

  lemma TickKeepsHistoryInv(g: nat, h: History)
    requires g >= 1 && HistoryInv(g, h) && Fits(h.wheel, h.wheel.jiffies)
    ensures HistoryInv(g, HistoryTick(g, h))
  {
    hide Ok, Sits, Slot, Cascades, Rearm, NextExpiry, Sum;
    var h' := HistoryTick(g, h);
    TickRefines(g, h.wheel);
    TickBag(Id(), g, h.wheel);
    OneShotsFiredAppend(h.log, h.wheel.jiffies, Fired(g, h.wheel));
    forall c: nat, t | c < |h'.wheel.cells| && t in h'.wheel.cells[c]
      ensures Born(h', t) && t.expires == NextExpiry(h'.log, h'.born[t.id])
    {
      TickKeepsSchedule(g, h, c, t);
    }
    forall k: nat | k < |h'.log| ensures WellTimed(g, h', k) {
      TickTimesWell(g, h, k);
    }
  }

  // ---- Whole runs ----

  lemma AdvancedStep(g: nat, h: History, now: int)
    requires g >= 1 && |h.wheel.cells| == SLOTS
    ensures Advanced(g, h, now) == if h.wheel.jiffies <= now then Advanced(g, HistoryTick(g, h), now) else h
  {
    hide Tick, Fired, Firings;
    if h.wheel.jiffies <= now {
      var h1 := HistoryTick(g, h);
      assert h.log + RunLog(g, h.wheel, now) == h1.log + RunLog(g, h1.wheel, now);
    } else {
      assert h.log + [] == h.log;
    }
  }

  /** Catching up is ticking, once for each millisecond up to `now`. */
  lemma {:induction false} AdvanceKeepsHistoryInv(g: nat, h: History, now: int)
    requires g >= 1 && HistoryInv(g, h) && now < WORD && (h.wheel.jiffies <= now ==> Fits(h.wheel, now))
    ensures HistoryInv(g, Advanced(g, h, now))
    decreases now - h.wheel.jiffies
  {
    AdvancedStep(g, h, now);
    if h.wheel.jiffies <= now {
      assert Fits(h.wheel, h.wheel.jiffies);
      TickKeepsHistoryInv(g, h);
      TickKeepsFits(g, h.wheel, now);
      AdvanceKeepsHistoryInv(g, HistoryTick(g, h), now);
    }
  }

  lemma TickKeepsFits(g: nat, w: Wheel, now: nat)
    requires g >= 1 && |w.cells| == SLOTS && Fits(w, now)
    ensures Fits(Tick(g, w), now)
  {
    var j := w.jiffies;
    var cells := Cascades(g, j, w.cells);
    var w' := Tick(g, w);
    forall c: nat, t | c < |w'.cells| && t in w'.cells[c] ensures now + t.period < WORD {
      RearmFrom(g, j, cells[Slot(1, j) := []], Fired(g, w), c, t);
      if t in cells[Slot(1, j) := []][c] {
        var c' := CascadesFrom(g, j, w.cells, c, t);
      } else {
        var i :| 0 <= i < |Fired(g, w)| && Fired(g, w)[i].period != 0 && t == Rearmed(j, Fired(g, w)[i]);
        var c' := CascadesFrom(g, j, w.cells, Slot(1, j), Fired(g, w)[i]);
      }
    }
  }

  lemma NewTimerKeepsHistoryInv(g: nat, h: History, due: nat, period: nat, cb: Callback)
    requires g >= 1 && HistoryInv(g, h) && Enabled(h, NewTimer(due, period, cb))
    ensures HistoryInv(g, Apply(g, h, NewTimer(due, period, cb)))
  {
    hide Sits, Slot, LevelFor, Sum, NextExpiry;
    var h' := Apply(g, h, NewTimer(due, period, cb));
    var t := h'.born[h.next];
    InsertKeepsInv(g, h.wheel.jiffies, 1, h.wheel.cells, t);
    CreateBag(Id(), g, h.wheel, h.next, due, period, cb);
    forall c: nat, u | c < |h'.wheel.cells| && u in h'.wheel.cells[c]
      ensures Born(h', u) && u.expires == NextExpiry(h'.log, h'.born[u.id])
    {
      if u == t {
        forall k: nat | k < |h.log| ensures h.log[k].timer.id != t.id {
          assert WellTimed(g, h, k);
        }
        NextExpiryUnfired(h.log, t);
      } else {
        assert u in h.wheel.cells[c] && Born(h, u);
      }
    }
    forall k: nat | k < |h'.log| ensures WellTimed(g, h', k) {
      assert WellTimed(g, h, k);
    }
  }

  lemma {:induction false} NextExpiryUnfired(log: seq<Firing>, b: Timer)
    requires forall k: nat | k < |log| :: log[k].timer.id != b.id
    ensures NextExpiry(log, b) == b.expires
  {
    if log != [] { NextExpiryUnfired(log[..|log| - 1], b); }
  }

  lemma DropTimerKeepsHistoryInv(g: nat, h: History, c: nat, k: nat)
    requires g >= 1 && HistoryInv(g, h) && Enabled(h, DropTimer(c, k))
    ensures HistoryInv(g, Apply(g, h, DropTimer(c, k)))
  {
    hide Sits, Slot, LevelFor, Sum, NextExpiry;
    var h' := Apply(g, h, DropTimer(c, k));
    DeleteBag(Id(), h.wheel, c, k);
    assert Id()(h.wheel.cells[c][k]) == h.wheel.cells[c][k].id;
    forall i: nat, t | i < SLOTS && t in h'.wheel.cells[i] ensures t in h.wheel.cells[i] {
    }
    forall i: nat | i < |h'.log| ensures WellTimed(g, h', i) {
      assert WellTimed(g, h, i);
    }
  }

  lemma {:induction false} EmptyBag(n: nat)
    ensures Bag(Id(), EmptyCells(n)) == multiset{}
  {
    if n > 0 {
      EmptyBag(n - 1);
      assert EmptyCells(n)[..n - 1] == EmptyCells(n - 1);
    }
  }

  lemma StartInv(g: nat, h: History)
    requires g >= 1 && Start(h)
    ensures HistoryInv(g, h)
  {
    EmptyBag(SLOTS);
  }

  /** The invariant holds throughout every run, for every granularity. */
  lemma {:induction false} RunKeepsHistoryInv(g: nat, hs: seq<History>, es: seq<Event>)
    requires g >= 1 && IsRun(g, hs, es)
    ensures forall i | 0 <= i < |hs| :: HistoryInv(g, hs[i])
  {
    hide HistoryInv;
    var n := |es|;
    if n == 0 {
      StartInv(g, hs[0]);
    } else {
      RunKeepsHistoryInv(g, hs[..n], es[..n - 1]);
      var h, e := hs[n - 1], es[n - 1];
      assert h == hs[..n][n - 1];
      match e
      case NewTimer(due, period, cb) => NewTimerKeepsHistoryInv(g, h, due, period, cb);
      case DropTimer(c, k) => DropTimerKeepsHistoryInv(g, h, c, k);
      case Advance(now) => AdvanceKeepsHistoryInv(g, h, now);
      forall i | 0 <= i < |hs| ensures HistoryInv(g, hs[i]) {
        if i < n { assert hs[i] == hs[..n][i]; }
      }
    }
  }

  /** Every callback of every run: never late, early by whole turns of level 1 only, and by less than
      256 ms per unit of granularity. */
  lemma FiringsWellTimed(g: nat, hs: seq<History>, es: seq<Event>, i: nat, k: nat)
    requires g >= 1 && IsRun(g, hs, es) && i < |hs| && k < |hs[i].log|
    ensures var f := hs[i].log[k];
            && f.tick <= f.timer.expires
            && (f.timer.expires - f.tick) % 256 == 0
            && f.timer.expires - f.tick <= 256 * (g - 1)
  {
    RunKeepsHistoryInv(g, hs, es);
    assert WellTimed(g, hs[i], k);
  }

  /** None is missed: a live timer's expiry is never behind the wheel base, in any run, for any granularity. */
  lemma NoneMissed(g: nat, hs: seq<History>, es: seq<Event>, i: nat, c: nat, t: Timer)
    requires g >= 1 && IsRun(g, hs, es) && i < |hs| && c < |hs[i].wheel.cells| && t in hs[i].wheel.cells[c]
    ensures hs[i].wheel.jiffies <= t.expires
  {
    RunKeepsHistoryInv(g, hs, es);
  }

  /** The wheel base after n turns of run_timer's loop: a 32-bit counter. */
  function BaseAfter(j: nat, n: nat): nat { (j + n) % WORD }

  /** n turns of the loop. */
  function Turns(g: nat, w: Wheel, n: nat): (r: Wheel)
    requires g >= 1 && |w.cells| == SLOTS
    ensures |r.cells| == SLOTS
    decreases n
  {
    if n == 0 then w else Turns(g, Tick(g, w), n - 1)
  }

  lemma {:induction false} TurnsAdvance(g: nat, w: Wheel, n: nat)
    requires g >= 1 && |w.cells| == SLOTS
    ensures Turns(g, w, n).jiffies == w.jiffies + n
    decreases n
  {
    hide Tick;
    if n > 0 { TurnsAdvance(g, Tick(g, w), n - 1); }
  }

  lemma {:induction false} RunIsTurns(g: nat, w: Wheel, now: int)
    requires g >= 1 && |w.cells| == SLOTS && w.jiffies <= now
    ensures Run(g, w, now) == Turns(g, w, now + 1 - w.jiffies)
    decreases now - w.jiffies
  {
    hide Tick;
    assert Turns(g, w, now + 1 - w.jiffies) == Turns(g, Tick(g, w), now - w.jiffies);
    if w.jiffies < now {
      RunIsTurns(g, Tick(g, w), now);
    }
  }

  /** The loop of run_timer goes on while the base is not after `now`, compared without wrapping. It ends exactly
      if the clock does not read 2^32 - 1; then it makes now + 1 - jiffies turns, during which the base does
      not wrap round, and their result is Run. */
  lemma CatchUpEnds(g: nat, w: Wheel, now: nat)
    requires g >= 1 && |w.cells| == SLOTS && w.jiffies < WORD && now < WORD
    ensures (exists n: nat :: BaseAfter(w.jiffies, n) > now) <==> now < WORD - 1
    ensures w.jiffies > now ==> Run(g, w, now) == w && BaseAfter(w.jiffies, 0) > now
    ensures w.jiffies <= now ==>
              var n := now + 1 - w.jiffies;
              && Run(g, w, now) == Turns(g, w, n)
              && (forall m: nat | m < n :: BaseAfter(w.jiffies, m) == Turns(g, w, m).jiffies <= now)
              && (now < WORD - 1 ==> BaseAfter(w.jiffies, n) == Turns(g, w, n).jiffies > now)
  {
    if w.jiffies <= now {
      CatchUpTurns(g, w, now);
      if now < WORD - 1 { assert BaseAfter(w.jiffies, now + 1 - w.jiffies) > now; }
    } else {
      assert BaseAfter(w.jiffies, 0) > now;
    }
  }

  lemma CatchUpTurns(g: nat, w: Wheel, now: nat)
    requires g >= 1 && |w.cells| == SLOTS && w.jiffies <= now < WORD
    ensures var n := now + 1 - w.jiffies;
            && Run(g, w, now) == Turns(g, w, n)
            && (forall m: nat | m < n :: BaseAfter(w.jiffies, m) == Turns(g, w, m).jiffies <= now)
            && (now < WORD - 1 ==> BaseAfter(w.jiffies, n) == Turns(g, w, n).jiffies > now)
  {
    hide Turns, Run;
    RunIsTurns(g, w, now);
    var n := now + 1 - w.jiffies;
    TurnsAdvance(g, w, n);
    forall m: nat | m < n ensures BaseAfter(w.jiffies, m) == Turns(g, w, m).jiffies <= now {
      TurnsAdvance(g, w, m);
    }
  }

  /** Every timer number of every run is accounted for exactly once: as live, as deleted, or as a one-shot
      that fired. So a one-shot fires at most once, and never after its deletion. */
  lemma TimersConserved(g: nat, hs: seq<History>, es: seq<Event>, i: nat, id: nat)
    requires g >= 1 && IsRun(g, hs, es) && i < |hs| && id < hs[i].next
    ensures LiveIds(hs[i].wheel)[id] + OneShotsFired(hs[i].log)[id] + hs[i].deleted[id] == 1
  {
    RunKeepsHistoryInv(g, hs, es);
  }

  lemma {:induction false} SteadySchedule(g: nat, h: History, m: nat, b: Timer)
    requires g == 1 && HistoryInv(g, h) && m <= |h.log| && b.id in h.born && b == h.born[b.id]
    ensures NextExpiry(h.log[..m], b) == b.expires + b.period * FireCount(h.log[..m], b.id)
  {
    hide Ok, Conserved, OnSchedule;
    if m > 0 {
      SteadySchedule(g, h, m - 1, b);
      assert h.log[..m][..m - 1] == h.log[..m - 1];
      assert WellTimed(g, h, m - 1);
      var q := FireCount(h.log[..m - 1], b.id);
      assert b.period * (q + 1) == b.period * q + b.period;
    }
  }

  /** With granularity 1 there is no drift: the firing number q of a timer created to expire at E with
      period P, counting from 0, is at E + P * q. */
  lemma FiringsWithoutDrift(hs: seq<History>, es: seq<Event>, i: nat, k: nat)
    requires IsRun(1, hs, es) && i < |hs| && k < |hs[i].log|
    ensures var h := hs[i]; var f := h.log[k]; var id := f.timer.id;
            && id in h.born
            && f.tick == h.born[id].expires + h.born[id].period * FireCount(h.log[..k], id)
  {
    RunKeepsHistoryInv(1, hs, es);
    assert WellTimed(1, hs[i], k);
    SteadySchedule(1, hs[i], k, hs[i].born[hs[i].log[k].timer.id]);
  }

  // ---- The plain map of granularity 1 ----

  /** The live timers, with their expiries. */
  ghost function Live(w: Wheel): multiset<Timer> { Bag((t: Timer) => t, w.cells) }

  /** With granularity 1 the wheel is a plain table of expiries: tick j fires the live timers expiring
      at j, each as often as it is live, and no other. */
  lemma FiresWhatExpires(w: Wheel)
    requires WheelInv(1, w)
    ensures forall t: Timer :: multiset(Fired(1, w))[t] == if t.expires == w.jiffies then Live(w)[t] else 0
  {
    hide Sits, LevelFor, Visit, Slot, Cascades, Sum, CellSum;
    var j, h := w.jiffies, (t: Timer) => t;
    var cells := Cascades(1, j, w.cells);
    var c := Slot(1, j);
    CascadesDues(1, j, w.cells);
    CascadesBag(h, 1, j, w.cells);
    DrainBag(h, cells, c);
    ListBagIsMultiset(cells[c]);
    forall t: Timer ensures multiset(Fired(1, w))[t] == if t.expires == j then Live(w)[t] else 0 {
      if t in cells[c] {
        FiredBounds(1, w, t);
      }
      if t in Bag(h, cells[c := []]) {
        var c', t' := SumWitness(Anywhere(h), cells[c := []], t);
        DueNowOrLater(1, j, c', t);
        FireBounds(1, LevelOf(c'), j + 1, t.expires);
      }
    }
  }

  lemma {:induction false} ListBagIsMultiset(ts: seq<Timer>)
    ensures ListBag((t: Timer) => t, ts) == multiset(ts)
  {
    if ts != [] {
      ListBagIsMultiset(ts[..|ts| - 1]);
      assert ts == ts[..|ts| - 1] + [ts[|ts| - 1]];
    }
  }

  /** With granularity 1 the agenda entry of every live timer is its own expiry. */
  lemma PendingIsExpiry(w: Wheel, d: Due)
    requires WheelInv(1, w) && d in Pending(1, w)
    ensures d.at == d.timer.expires
  {
    var c, t := SumWitness(DueFn(1, w.jiffies, 1), w.cells, d);
    FireBounds(1, LevelOf(c), w.jiffies, t.expires);
  }
}
