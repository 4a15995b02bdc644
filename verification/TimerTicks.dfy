/** The tick of every callback, exactly, for every granularity and every run. */
module TimerTicks {
  import opened TimerWheel
  import opened TimerFiring
  import opened TimerRefinement
  import opened TimerConservation
  import opened TimerRuns
  import opened CellSums

  /** A run together with the wheel base at which each timer was created. */
  datatype Based = Based(h: History, base: map<nat, nat>)

  /** The tick of the next callback of timer b, created at wheel base `base`, according to the log. */
  function NextTick(g: nat, log: seq<Firing>, b: Timer, base: nat): nat
    requires g >= 1 && base <= b.expires
  {
    if log == [] then CreatedFireAt(g, base, b.expires - base) else
    var f := log[|log| - 1];
    if f.timer.id == b.id then RearmedFireAt(g, f.tick, b.period) else NextTick(g, log[..|log| - 1], b, base)
  }

  function BasedApply(g: nat, x: Based, e: Event): (r: Based)
    requires g >= 1 && Enabled(x.h, e)
    ensures r.h == Apply(g, x.h, e)
  {
    var base := if e.NewTimer? then x.base[x.h.next := x.h.wheel.jiffies] else x.base;
    Based(Apply(g, x.h, e), base)
  }

  ghost predicate IsBasedRun(g: nat, xs: seq<Based>, es: seq<Event>)
    requires g >= 1
  {
    && |xs| == |es| + 1 && Start(xs[0].h) && xs[0].base == map[]
    && forall i | 0 <= i < |es| :: Enabled(xs[i].h, es[i]) && xs[i + 1] == BasedApply(g, xs[i], es[i])
  }

  ghost predicate Known(x: Based) {
    forall id | id in x.h.born :: id in x.base && x.h.born[id].id == id && x.base[id] <= x.h.born[id].expires
  }

  /** The agenda entry d says what the history prescribes. */
  ghost predicate Prescribed(g: nat, x: Based, d: Due)
    requires g >= 1
  {
    var id := d.timer.id;
    && id in x.h.born && id in x.base && x.base[id] <= x.h.born[id].expires
    && d.timer.period == x.h.born[id].period
    && d.at == NextTick(g, x.h.log, x.h.born[id], x.base[id])
  }

  /** And so did every callback made. */
  ghost predicate Kept(g: nat, x: Based, k: nat)
    requires g >= 1 && k < |x.h.log|
  {
    var f := x.h.log[k];
    var id := f.timer.id;
    && id in x.h.born && id in x.base && x.base[id] <= x.h.born[id].expires
    && f.tick == NextTick(g, x.h.log[..k], x.h.born[id], x.base[id])
  }

  ghost predicate TickInv(g: nat, x: Based)
    requires g >= 1
  {
    && HistoryInv(g, x.h) && Known(x)
    && (forall d | d in Pending(g, x.h.wheel) :: Prescribed(g, x, d))
    && forall k: nat | k < |x.h.log| :: Kept(g, x, k)
  }

  // ---- One timer in one place ----

  lemma {:induction false} TwoInList(ts: seq<Timer>, a: Timer, b: Timer)
    requires a in ts && b in ts && a != b && a.id == b.id
    ensures ListBag(Id(), ts)[a.id] >= 2
  {
    var i :| 0 <= i < |ts| && ts[i] == a;
    var k :| 0 <= k < |ts| && ts[k] == b;
    if i < k { ListBagCount(ts, k); } else { ListBagCount(ts, i); }
  }

  /** A live number stands for one timer in one slot. */
  lemma OnePlace(w: Wheel, c: nat, a: Timer, d: nat, b: Timer)
    requires |w.cells| == SLOTS && c < SLOTS && d < SLOTS && a in w.cells[c] && b in w.cells[d] && a.id == b.id
    requires LiveIds(w)[a.id] <= 1
    ensures c == d && a == b
  {
    hide Sum, CellSum;
    var f := Anywhere(Id());
    var rest := w.cells[c := []];
    SumUpdate(f, w.cells, c, []);
    CellSumEmpty(f, c);
    assert LiveIds(w) == Sum(f, w.cells);
    assert Sum(f, w.cells) + multiset{} == Sum(f, w.cells);
    assert Sum(f, w.cells) == Sum(f, rest) + CellSum(f, c, w.cells[c]);
    CellSumHas(f, c, w.cells[c], a);
    assert Anywhere(Id())(c, a) == a.id;
    assert Anywhere(Id())(d, b) == b.id;
    assert LiveIds(w)[a.id] == Sum(f, rest)[a.id] + CellSum(f, c, w.cells[c])[a.id];
    if c != d {
      SumHas(f, rest, d, b);
      assert false;
    }
    ListBagAt(Id(), c, w.cells[c]);
    if a != b {
      TwoInList(w.cells[c], a, b);
      assert false;
    }
  }

  // ---- The schedule of ticks ----

  lemma {:induction false} NextTickOthers(g: nat, log: seq<Firing>, j: nat, ts: seq<Timer>, b: Timer, base: nat)
    requires g >= 1 && base <= b.expires && forall i: nat | i < |ts| :: ts[i].id != b.id
    ensures NextTick(g, log + Firings(j, ts), b, base) == NextTick(g, log, b, base)
  {
    if ts == [] {
      assert log + Firings(j, ts) == log;
    } else {
      var n := |ts| - 1;
      NextTickOthers(g, log, j, ts[..n], b, base);
      assert (log + Firings(j, ts))[..|log| + n] == log + Firings(j, ts[..n]);
    }
  }

  lemma {:induction false} NextTickFired(g: nat, log: seq<Firing>, j: nat, ts: seq<Timer>, i: nat, b: Timer, base: nat)
    requires g >= 1 && base <= b.expires && i < |ts| && ts[i].id == b.id && forall k: nat | k < |ts| && k != i :: ts[k].id != b.id
    ensures NextTick(g, log + Firings(j, ts), b, base) == RearmedFireAt(g, j, b.period)
  {
    hide RearmedFireAt, CreatedFireAt;
    var n := |ts| - 1;
    assert (log + Firings(j, ts))[..|log| + n] == log + Firings(j, ts[..n]);
    if i < n { NextTickFired(g, log, j, ts[..n], i, b, base); }
  }

  lemma {:induction false} NextTickUnfired(g: nat, log: seq<Firing>, b: Timer, base: nat)
    requires g >= 1 && base <= b.expires && forall k: nat | k < |log| :: log[k].timer.id != b.id
    ensures NextTick(g, log, b, base) == CreatedFireAt(g, base, b.expires - base)
  {
    if log != [] { NextTickUnfired(g, log[..|log| - 1], b, base); }
  }

  // ---- A tick ----

  function BasedTick(g: nat, x: Based): (r: Based)
    requires g >= 1 && |x.h.wheel.cells| == SLOTS
    ensures r.h == HistoryTick(g, x.h)
  {
    Based(HistoryTick(g, x.h), x.base)
  }

  lemma CellsOf(g: nat, h: History)
    requires g >= 1 && HistoryInv(g, h)
    ensures |h.wheel.cells| == SLOTS && WheelInv(g, h.wheel) && forall id: nat :: LiveIds(h.wheel)[id] <= 1
  {
  }

  /** What a tick fires is on the agenda for that tick. */
  lemma FiredIsPending(g: nat, w: Wheel, i: nat)
    requires g >= 1 && WheelInv(g, w) && Fits(w, w.jiffies) && i < |Fired(g, w)|
    ensures Due(Fired(g, w)[i], w.jiffies) in Pending(g, w)
  {
    assert |w.cells| == SLOTS;
    hide WheelInv, Fits, Pending, Fired, RearmDues, CellSum, Tick;
    TickRefines(g, w);
    CellSumHas(FiredFn(w.jiffies), 0, Fired(g, w), Fired(g, w)[i]);
    assert Due(Fired(g, w)[i], w.jiffies) in FiredDues(w.jiffies, Fired(g, w));
  }

  /** What a tick leaves in its slot stays on the agenda for the same tick. */
  lemma StayingIsPending(g: nat, w: Wheel, c: nat, u: Timer)
    requires g >= 1 && WheelInv(g, w) && c < SLOTS && u in Cascades(g, w.jiffies, w.cells)[Slot(1, w.jiffies) := []][c]
    ensures DueFn(g, w.jiffies + 1, 1)(c, u) in Pending(g, w)
  {
    hide Sum, DueFn, Slot, Sits, Cascades;
    var j := w.jiffies;
    var cells := Cascades(g, j, w.cells);
    CascadesDues(g, j, w.cells);
    assert c != Slot(1, j) && u in cells[c];
    DueNowOrLater(g, j, c, u);
    SumHas(DueFn(g, j, 5), cells, c, u);
  }

  lemma {:induction false} RearmDuesHas(g: nat, j: nat, ts: seq<Timer>, i: nat)
    requires g >= 1 && i < |ts| && ts[i].period != 0
    ensures Due(Rearmed(j, ts[i]), RearmedFireAt(g, j, ts[i].period)) in RearmDues(g, j, ts)
  {
    hide RearmedFireAt;
    var n := |ts| - 1;
    if i < n { RearmDuesHas(g, j, ts[..n], i); }
  }

  /** A timer armed again is on the agenda for the tick that re-arming makes. */
  lemma RearmedIsPending(g: nat, w: Wheel, i: nat)
    requires g >= 1 && WheelInv(g, w) && Fits(w, w.jiffies) && i < |Fired(g, w)| && Fired(g, w)[i].period != 0
    ensures Due(Rearmed(w.jiffies, Fired(g, w)[i]), RearmedFireAt(g, w.jiffies, Fired(g, w)[i].period)) in Pending(g, Tick(g, w))
  {
    assert |w.cells| == SLOTS;
    hide WheelInv, Fits, Pending, Fired, FiredDues, RearmDues, Tick, RearmedFireAt;
    TickRefines(g, w);
    RearmDuesHas(g, w.jiffies, Fired(g, w), i);
  }

  /** A live timer has one entry on the agenda. */
  lemma OneEntry(g: nat, w: Wheel, d: Due, e: Due)
    requires g >= 1 && |w.cells| == SLOTS && d in Pending(g, w) && e in Pending(g, w) && d.timer.id == e.timer.id
    requires LiveIds(w)[d.timer.id] <= 1
    ensures d == e
  {
    hide Sum, FireAt, LiveIds;
    var f := DueFn(g, w.jiffies, 1);
    var c, a := SumWitness(f, w.cells, d);
    var c', b := SumWitness(f, w.cells, e);
    OnePlace(w, c, a, c', b);
  }

  lemma KnownAt(x: Based, id: nat)
    requires Known(x) && id in x.h.born
    ensures id in x.base && x.h.born[id].id == id && x.base[id] <= x.h.born[id].expires
  {
  }

  /** A fired timer was due by its own schedule. */
  lemma FiredPrescribed(g: nat, x: Based, i: nat)
    requires g >= 1 && TickInv(g, x) && Fits(x.h.wheel, x.h.wheel.jiffies) && |x.h.wheel.cells| == SLOTS && i < |Fired(g, x.h.wheel)|
    ensures Prescribed(g, x, Due(Fired(g, x.h.wheel)[i], x.h.wheel.jiffies))
  {
    hide HistoryInv, Pending, Fired, Prescribed, Fits;
    CellsOf(g, x.h);
    FiredIsPending(g, x.h.wheel, i);
  }

  lemma NumbersApart(g: nat, h: History)
    requires g >= 1 && HistoryInv(g, h) && |h.wheel.cells| == SLOTS
    ensures forall i: nat, k: nat | k < |Fired(g, h.wheel)| && i < |Fired(g, h.wheel)| && i != k ::
              Fired(g, h.wheel)[i].id != Fired(g, h.wheel)[k].id
    ensures var w := h.wheel; var rest := Cascades(g, w.jiffies, w.cells)[Slot(1, w.jiffies) := []];
            forall c: nat, t: Timer, i: nat | c < SLOTS && t in rest[c] && i < |Fired(g, w)| :: t.id != Fired(g, w)[i].id
  {
    CellsOf(g, h);
    hide HistoryInv, Cascades, Slot;
    FiredApart(g, h.wheel);
  }

  lemma TickKeepsCallback(g: nat, x: Based, k: nat)
    requires g >= 1 && TickInv(g, x) && Fits(x.h.wheel, x.h.wheel.jiffies) && |x.h.wheel.cells| == SLOTS
    requires k < |BasedTick(g, x).h.log|
    ensures Kept(g, BasedTick(g, x), k)
  {
    hide HistoryInv, Pending, Fired, Fits, Tick, Known, NextTick;
    var j, ts := x.h.wheel.jiffies, Fired(g, x.h.wheel);
    var log' := x.h.log + Firings(j, ts);
    if k < |x.h.log| {
      assert Kept(g, x, k) && log'[..k] == x.h.log[..k];
    } else {
      var i := k - |x.h.log|;
      FiredPrescribed(g, x, i);
      NumbersApart(g, x.h);
      assert log'[k] == Firing(j, ts[i]) && log'[..k] == x.h.log + Firings(j, ts[..i]);
      KnownAt(x, ts[i].id);
      NextTickOthers(g, x.h.log, j, ts[..i], x.h.born[ts[i].id], x.base[ts[i].id]);
    }
  }

  /** An entry of the agenda after a tick: for a timer just armed again. */
  lemma RearmedPrescribed(g: nat, x: Based, d: Due, i: nat)
    requires g >= 1 && TickInv(g, x) && Fits(x.h.wheel, x.h.wheel.jiffies) && |x.h.wheel.cells| == SLOTS
    requires d in Pending(g, Tick(g, x.h.wheel)) && i < |Fired(g, x.h.wheel)| && Fired(g, x.h.wheel)[i].id == d.timer.id
    requires Fired(g, x.h.wheel)[i].period != 0 && forall id: nat :: LiveIds(Tick(g, x.h.wheel))[id] <= 1
    ensures Prescribed(g, BasedTick(g, x), d)
  {
    hide HistoryInv, Pending, Fired, Fits, Tick, Known, NextTick, LiveIds, RearmedFireAt;
    var j, ts := x.h.wheel.jiffies, Fired(g, x.h.wheel);
    FiredPrescribed(g, x, i);
    CellsOf(g, x.h);
    RearmedIsPending(g, x.h.wheel, i);
    TickCells(g, x.h.wheel);
    OneEntry(g, Tick(g, x.h.wheel), d, Due(Rearmed(j, ts[i]), RearmedFireAt(g, j, ts[i].period)));
    NumbersApart(g, x.h);
    KnownAt(x, ts[i].id);
    NextTickFired(g, x.h.log, j, ts, i, x.h.born[ts[i].id], x.base[ts[i].id]);
  }

  lemma TickCells(g: nat, w: Wheel)
    requires g >= 1 && |w.cells| == SLOTS
    ensures |Tick(g, w).cells| == SLOTS && Tick(g, w).jiffies == w.jiffies + 1
  {
  }

  /** And for a timer that did not fire. */
  lemma StayingPrescribed(g: nat, x: Based, d: Due, c: nat, u: Timer)
    requires g >= 1 && TickInv(g, x) && |x.h.wheel.cells| == SLOTS && c < SLOTS
    requires u in Cascades(g, x.h.wheel.jiffies, x.h.wheel.cells)[Slot(1, x.h.wheel.jiffies) := []][c]
    requires d == DueFn(g, x.h.wheel.jiffies + 1, 1)(c, u) && d.timer == u
    ensures Prescribed(g, BasedTick(g, x), d)
  {
    hide HistoryInv, Pending, Fired, Tick, Known, NextTick, Cascades, Slot, DueFn;
    var j, ts := x.h.wheel.jiffies, Fired(g, x.h.wheel);
    CellsOf(g, x.h);
    StayingIsPending(g, x.h.wheel, c, u);
    assert Prescribed(g, x, d);
    NumbersApart(g, x.h);
    KnownAt(x, u.id);
    NextTickOthers(g, x.h.log, j, ts, x.h.born[u.id], x.base[u.id]);
  }

  lemma TickKeepsAgenda(g: nat, x: Based, d: Due)
    requires g >= 1 && TickInv(g, x) && Fits(x.h.wheel, x.h.wheel.jiffies) && |x.h.wheel.cells| == SLOTS
    requires HistoryInv(g, BasedTick(g, x).h) && d in Pending(g, Tick(g, x.h.wheel))
    ensures Prescribed(g, BasedTick(g, x), d)
  {
    hide HistoryInv, TickInv, Fits, Cascades, Slot, Prescribed, FireAt, Sum, LiveIds;
    var w, j, ts := x.h.wheel, x.h.wheel.jiffies, Fired(g, x.h.wheel);
    var rest := Cascades(g, j, w.cells)[Slot(1, j) := []];
    CellsOf(g, BasedTick(g, x).h);
    var c, u := SumWitness(DueFn(g, j + 1, 1), Tick(g, w).cells, d);
    RearmFrom(g, j, rest, ts, c, u);
    if u in rest[c] {
      StayingPrescribed(g, x, d, c, u);
    } else {
      var i :| 0 <= i < |ts| && ts[i].period != 0 && u == Rearmed(j, ts[i]);
      RearmedPrescribed(g, x, d, i);
    }
  }

  lemma TickKeepsTickInv(g: nat, x: Based)
    requires g >= 1 && TickInv(g, x) && Fits(x.h.wheel, x.h.wheel.jiffies) && |x.h.wheel.cells| == SLOTS
    ensures TickInv(g, BasedTick(g, x))
  {
    hide HistoryInv, Fits, Tick, Fired, Pending, Prescribed, Kept;
    TickKeepsHistoryInv(g, x.h);
    var r := BasedTick(g, x);
    forall d | d in Pending(g, r.h.wheel) ensures Prescribed(g, r, d) {
      TickKeepsAgenda(g, x, d);
    }
    forall k: nat | k < |r.h.log| ensures Kept(g, r, k) {
      TickKeepsCallback(g, x, k);
    }
  }

  // ---- Runs ----

  lemma {:induction false} AdvanceKeepsTickInv(g: nat, x: Based, now: int)
    requires g >= 1 && TickInv(g, x) && now < WORD && (x.h.wheel.jiffies <= now ==> Fits(x.h.wheel, now))
    ensures |x.h.wheel.cells| == SLOTS && TickInv(g, Based(Advanced(g, x.h, now), x.base))
    decreases now - x.h.wheel.jiffies
  {
    CountOf(g, x);
    hide TickInv, Tick;
    AdvancedStep(g, x.h, now);
    if x.h.wheel.jiffies <= now {
      assert Fits(x.h.wheel, x.h.wheel.jiffies);
      TickKeepsTickInv(g, x);
      TickKeepsFits(g, x.h.wheel, now);
      AdvanceKeepsTickInv(g, BasedTick(g, x), now);
    }
  }

  lemma CountOf(g: nat, x: Based)
    requires g >= 1 && TickInv(g, x)
    ensures |x.h.wheel.cells| == SLOTS
  {
  }

  lemma NewTimerKeepsTickInv(g: nat, x: Based, e: Event)
    requires g >= 1 && TickInv(g, x) && e.NewTimer? && Enabled(x.h, e)
    ensures TickInv(g, BasedApply(g, x, e))
  {
    CountOf(g, x);
    NextIsNew(g, x.h);
    hide HistoryInv, Pending, Prescribed, Kept, Create, Known;
    var r := BasedApply(g, x, e);
    NewTimerKeepsHistoryInv(g, x.h, e.due, e.period, e.callback);
    NewTimerKnown(x, r);
    forall d | d in Pending(g, r.h.wheel) ensures Prescribed(g, r, d) {
      NewTimerPrescribed(g, x, e, d);
    }
    forall k: nat | k < |r.h.log| ensures Kept(g, r, k) {
      assert Kept(g, x, k);
      OldKept(g, x, r, k);
    }
  }

  /** A timer with the next number changes nothing for the others. */
  ghost predicate Extends(x: Based, r: Based) {
    && x.h.next !in x.h.born && r.h.log == x.h.log && r.h.born.Keys == x.h.born.Keys + {x.h.next}
    && r.base == x.base[x.h.next := x.h.wheel.jiffies]
    && (forall id | id in x.h.born :: r.h.born[id] == x.h.born[id])
    && r.h.born[x.h.next].id == x.h.next && x.h.wheel.jiffies <= r.h.born[x.h.next].expires
  }

  lemma NewTimerKnown(x: Based, r: Based)
    requires Known(x) && Extends(x, r)
    ensures Known(r)
  {
  }

  lemma OldKept(g: nat, x: Based, r: Based, k: nat)
    requires g >= 1 && Known(x) && Extends(x, r) && k < |x.h.log| && Kept(g, x, k)
    ensures Kept(g, r, k)
  {
    hide NextTick;
  }

  lemma OldPrescribed(g: nat, x: Based, r: Based, d: Due)
    requires g >= 1 && Known(x) && Extends(x, r) && Prescribed(g, x, d)
    ensures Prescribed(g, r, d)
  {
    hide NextTick;
  }

  lemma NewTimerPrescribed(g: nat, x: Based, e: Event, d: Due)
    requires g >= 1 && TickInv(g, x) && e.NewTimer? && Enabled(x.h, e) && d in Pending(g, BasedApply(g, x, e).h.wheel)
    requires x.h.next !in x.h.born && forall k: nat | k < |x.h.log| :: x.h.log[k].timer.id != x.h.next
    ensures Prescribed(g, BasedApply(g, x, e), d)
  {
    hide HistoryInv, Pending, NextTick, Create, CreatedFireAt, Prescribed;
    var r, j := BasedApply(g, x, e), x.h.wheel.jiffies;
    CreatePending(g, x.h.wheel, x.h.next, e.due, e.period, e.callback);
    var t := Timer(x.h.next, j + e.due, e.period, e.callback);
    if d == Due(t, CreatedFireAt(g, j, e.due)) {
      NewPrescribed(g, x, r, t, e.due);
    } else {
      assert Prescribed(g, x, d);
      OldPrescribed(g, x, r, d);
    }
  }

  lemma NewPrescribed(g: nat, x: Based, r: Based, t: Timer, due: nat)
    requires g >= 1 && Extends(x, r) && t == r.h.born[x.h.next] && t.expires == x.h.wheel.jiffies + due
    requires forall k: nat | k < |x.h.log| :: x.h.log[k].timer.id != x.h.next
    ensures Prescribed(g, r, Due(t, CreatedFireAt(g, x.h.wheel.jiffies, due)))
  {
    hide NextTick, CreatedFireAt;
    NextTickUnfired(g, x.h.log, t, x.h.wheel.jiffies);
  }

  lemma NextIsNew(g: nat, h: History)
    requires g >= 1 && HistoryInv(g, h)
    ensures h.next !in h.born && forall k: nat | k < |h.log| :: h.log[k].timer.id != h.next
  {
    forall k: nat | k < |h.log| ensures h.log[k].timer.id != h.next {
      assert WellTimed(g, h, k);
    }
  }

  lemma DropTimerKeepsTickInv(g: nat, x: Based, e: Event)
    requires g >= 1 && TickInv(g, x) && e.DropTimer? && Enabled(x.h, e)
    ensures TickInv(g, BasedApply(g, x, e))
  {
    CountOf(g, x);
    hide HistoryInv, NextTick, FireAt, Sum;
    var r, w := BasedApply(g, x, e), x.h.wheel;
    DropTimerKeepsHistoryInv(g, x.h, e.slot, e.pos);
    forall d | d in Pending(g, r.h.wheel) ensures Prescribed(g, r, d) {
      var f := DueFn(g, w.jiffies, 1);
      var c, t := SumWitness(f, r.h.wheel.cells, d);
      assert t in w.cells[c];
      SumHas(f, w.cells, c, t);
      assert Prescribed(g, x, d);
    }
    forall k: nat | k < |r.h.log| ensures Kept(g, r, k) {
      assert Kept(g, x, k);
    }
  }

  lemma {:induction false} EmptyAgenda(f: (nat, Timer) -> Due, n: nat)
    ensures Sum(f, EmptyCells(n)) == multiset{}
  {
    if n > 0 {
      EmptyAgenda(f, n - 1);
      assert EmptyCells(n)[..n - 1] == EmptyCells(n - 1);
    }
  }

  lemma StartTickInv(g: nat, x: Based)
    requires g >= 1 && Start(x.h) && x.base == map[]
    ensures TickInv(g, x)
  {
    StartInv(g, x.h);
    hide HistoryInv, Sum;
    EmptyAgenda(DueFn(g, x.h.wheel.jiffies, 1), SLOTS);
  }

  lemma ApplyKeepsTickInv(g: nat, x: Based, e: Event)
    requires g >= 1 && TickInv(g, x) && Enabled(x.h, e)
    ensures TickInv(g, BasedApply(g, x, e))
  {
    hide TickInv, Fits;
    match e
    case NewTimer(_, _, _) => NewTimerKeepsTickInv(g, x, e);
    case DropTimer(_, _) => DropTimerKeepsTickInv(g, x, e);
    case Advance(now) =>
      FitsBound(x.h.wheel, now);
      AdvanceKeepsTickInv(g, x, now);
  }

  lemma FitsBound(w: Wheel, now: nat)
    requires Fits(w, now)
    ensures now < WORD
  {
  }

  lemma {:induction false} RunKeepsTickInv(g: nat, xs: seq<Based>, es: seq<Event>)
    requires g >= 1 && IsBasedRun(g, xs, es)
    ensures forall i | 0 <= i < |xs| :: TickInv(g, xs[i])
  {
    hide TickInv, BasedApply;
    var n := |es|;
    if n == 0 {
      StartTickInv(g, xs[0]);
    } else {
      RunKeepsTickInv(g, xs[..n], es[..n - 1]);
      assert xs[n - 1] == xs[..n][n - 1];
      ApplyKeepsTickInv(g, xs[n - 1], es[n - 1]);
      forall i | 0 <= i < |xs| ensures TickInv(g, xs[i]) {
        if i < n { assert xs[i] == xs[..n][i]; }
      }
    }
  }

  /** The last callback of timer `id` in the log. */
  ghost predicate LastFired(log: seq<Firing>, id: nat, m: nat) {
    m < |log| && log[m].timer.id == id && forall n: nat | m < n < |log| :: log[n].timer.id != id
  }

  lemma {:induction false} NextTickAfter(g: nat, log: seq<Firing>, b: Timer, base: nat, m: nat)
    requires g >= 1 && base <= b.expires && LastFired(log, b.id, m)
    ensures NextTick(g, log, b, base) == RearmedFireAt(g, log[m].tick, b.period)
  {
    hide RearmedFireAt, CreatedFireAt;
    if m < |log| - 1 { NextTickAfter(g, log[..|log| - 1], b, base, m); }
  }

  /** Every callback of every run, for every granularity: the first one of a timer is made at the tick that
      creating it at its wheel base makes, and each later one at the tick that re-arming it at the one before
      makes. */
  lemma FiringsExact(g: nat, xs: seq<Based>, es: seq<Event>, i: nat, k: nat)
    requires g >= 1 && IsBasedRun(g, xs, es) && i < |xs| && k < |xs[i].h.log|
    ensures var x, f := xs[i], xs[i].h.log[k]; var id := f.timer.id;
            && id in x.h.born && id in x.base && x.base[id] <= x.h.born[id].expires
            && ((forall m: nat | m < k :: x.h.log[m].timer.id != id) ==>
                  f.tick == CreatedFireAt(g, x.base[id], x.h.born[id].expires - x.base[id]))
            && (forall m: nat | m < k && LastFired(x.h.log[..k], id, m) ::
                  f.tick == RearmedFireAt(g, x.h.log[m].tick, x.h.born[id].period))
  {
    hide HistoryInv, Pending, NextTick, CreatedFireAt, RearmedFireAt, IsBasedRun, LastFired;
    RunKeepsTickInv(g, xs, es);
    var x, f := xs[i], xs[i].h.log[k];
    assert TickInv(g, x) && Kept(g, x, k) && Known(x);
    var b, base := x.h.born[f.timer.id], x.base[f.timer.id];
    if forall m: nat | m < k :: x.h.log[m].timer.id != f.timer.id {
      NextTickUnfired(g, x.h.log[..k], b, base);
    }
    forall m: nat | m < k && LastFired(x.h.log[..k], f.timer.id, m)
      ensures f.tick == RearmedFireAt(g, x.h.log[m].tick, b.period)
    {
      NextTickAfter(g, x.h.log[..k], b, base, m);
    }
  }

  /** These are the runs of the timer module. */
  lemma TimedRun(g: nat, xs: seq<Based>, es: seq<Event>)
    requires g >= 1 && IsBasedRun(g, xs, es)
    ensures IsRun(g, seq(|xs|, i requires 0 <= i < |xs| => xs[i].h), es)
  {
    hide BasedApply, Apply;
  }
}
