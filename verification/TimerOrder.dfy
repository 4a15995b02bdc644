/** Timers created at the same wheel base for the same time fire in the order of their creation. */
module TimerOrder {
  import opened TimerWheel
  import opened TimerFiring
  import opened TimerRefinement
  import opened TimerConservation
  import opened TimerRuns
  import opened TimerTicks
  import opened CellSums

  // ---- In the slots ----

  /** Timer a is at i and timer b behind it at k, with the same expiry. */
  predicate Pair(ts: seq<Timer>, i: nat, k: nat, a: nat, b: nat) {
    i < k < |ts| && ts[i].id == a && ts[k].id == b && ts[i].expires == ts[k].expires
  }

  ghost predicate ListOrder(ts: seq<Timer>, a: nat, b: nat) { exists i: nat, k: nat :: Pair(ts, i, k, a, b) }

  /** Timers a and b are in one slot, a in front. */
  ghost predicate InOrder(cells: seq<seq<Timer>>, a: nat, b: nat) {
    exists c: nat :: c < |cells| && ListOrder(cells[c], a, b)
  }

  lemma ListOrderAppend(ts: seq<Timer>, more: seq<Timer>, a: nat, b: nat)
    requires ListOrder(ts, a, b)
    ensures ListOrder(ts + more, a, b)
  {
    var i: nat, k: nat :| Pair(ts, i, k, a, b);
    assert Pair(ts + more, i, k, a, b);
  }

  /** A slot's list may grow at the end. */
  lemma GrownOrder(cells: seq<seq<Timer>>, c: nat, more: seq<Timer>, a: nat, b: nat)
    requires c < |cells| && InOrder(cells, a, b)
    ensures InOrder(cells[c := cells[c] + more], a, b)
  {
    hide ListOrder;
    var d: nat :| d < |cells| && ListOrder(cells[d], a, b);
    if d == c { ListOrderAppend(cells[c], more, a, b); }
    assert ListOrder(cells[c := cells[c] + more][d], a, b);
  }

  lemma InsertOrder(g: nat, j: nat, cells: seq<seq<Timer>>, t: Timer, a: nat, b: nat)
    requires g >= 1 && |cells| == SLOTS && InOrder(cells, a, b)
    ensures InOrder(Insert(g, j, cells, t), a, b)
  {
    hide InOrder, SlotFor;
    GrownOrder(cells, SlotFor(g, j, t.expires), [t], a, b);
  }

  lemma {:induction false} InsertAllOrder(g: nat, j: nat, cells: seq<seq<Timer>>, ts: seq<Timer>, a: nat, b: nat)
    requires g >= 1 && |cells| == SLOTS && InOrder(cells, a, b)
    ensures InOrder(InsertAll(g, j, cells, ts), a, b)
  {
    hide InOrder, Insert;
    if ts != [] {
      InsertAllOrder(g, j, cells, ts[..|ts| - 1], a, b);
      InsertOrder(g, j, InsertAll(g, j, cells, ts[..|ts| - 1]), ts[|ts| - 1], a, b);
    }
  }

  lemma {:induction false} InsertAllHas(g: nat, j: nat, cells: seq<seq<Timer>>, ts: seq<Timer>, t: Timer)
    requires g >= 1 && |cells| == SLOTS && t in ts
    ensures t in InsertAll(g, j, cells, ts)[SlotFor(g, j, t.expires)]
  {
    hide SlotFor;
    var n := |ts| - 1;
    assert ts == ts[..n] + [ts[n]];
    if t != ts[n] { InsertAllHas(g, j, cells, ts[..n], t); }
  }

  /** Inserting t behind an equal timer. */
  lemma BehindOrder(g: nat, j: nat, cells: seq<seq<Timer>>, s: Timer, t: Timer)
    requires g >= 1 && |cells| == SLOTS && s.expires == t.expires && s in cells[SlotFor(g, j, s.expires)]
    ensures InOrder(Insert(g, j, cells, t), s.id, t.id)
  {
    hide SlotFor;
    var c := SlotFor(g, j, t.expires);
    var i: nat :| i < |cells[c]| && cells[c][i] == s;
    assert Pair(cells[c] + [t], i, |cells[c]|, s.id, t.id);
    assert ListOrder(Insert(g, j, cells, t)[c], s.id, t.id);
  }

  /** A list is inserted in order. */
  lemma {:induction false} InsertAllBrings(g: nat, j: nat, cells: seq<seq<Timer>>, ts: seq<Timer>, a: nat, b: nat)
    requires g >= 1 && |cells| == SLOTS && ListOrder(ts, a, b)
    ensures InOrder(InsertAll(g, j, cells, ts), a, b)
  {
    var i: nat, k: nat :| Pair(ts, i, k, a, b);
    hide InOrder, Insert;
    var n := |ts| - 1;
    if k < n {
      assert Pair(ts[..n], i, k, a, b);
      InsertAllBrings(g, j, cells, ts[..n], a, b);
      InsertOrder(g, j, InsertAll(g, j, cells, ts[..n]), ts[n], a, b);
    } else {
      assert ts[..n][i] == ts[i];
      InsertAllHas(g, j, cells, ts[..n], ts[i]);
      BehindOrder(g, j, InsertAll(g, j, cells, ts[..n]), ts[i], ts[n]);
    }
  }

  lemma CascadeOrder(g: nat, j: nat, cells: seq<seq<Timer>>, l: Level, a: nat, b: nat)
    requires g >= 1 && |cells| == SLOTS && InOrder(cells, a, b)
    ensures InOrder(Cascade(g, j, cells, l), a, b)
  {
    hide ListOrder, Slot, InsertAll;
    var c: nat :| c < |cells| && ListOrder(cells[c], a, b);
    var d := Slot(l, j);
    if c == d {
      InsertAllBrings(g, j, cells[d := []], cells[d], a, b);
    } else {
      assert ListOrder(cells[d := []][c], a, b);
      InsertAllOrder(g, j, cells[d := []], cells[d], a, b);
    }
  }

  lemma CascadesOrder(g: nat, j: nat, cells: seq<seq<Timer>>, a: nat, b: nat)
    requires g >= 1 && |cells| == SLOTS && InOrder(cells, a, b)
    ensures InOrder(Cascades(g, j, cells), a, b)
  {
    hide InOrder, Cascade, Index;
    CascadeOrder(g, j, cells, 2, a, b);
    var c2 := Cascade(g, j, cells, 2);
    CascadeOrder(g, j, c2, 3, a, b);
    var c3 := Cascade(g, j, c2, 3);
    CascadeOrder(g, j, c3, 4, a, b);
    var c4 := Cascade(g, j, c3, 4);
    CascadeOrder(g, j, c4, 5, a, b);
  }

  lemma {:induction false} RearmOrder(g: nat, j: nat, cells: seq<seq<Timer>>, ts: seq<Timer>, a: nat, b: nat)
    requires g >= 1 && |cells| == SLOTS && InOrder(cells, a, b)
    ensures InOrder(Rearm(g, j, cells, ts), a, b)
  {
    hide InOrder, Insert;
    if ts != [] {
      var n := |ts| - 1;
      RearmOrder(g, j, cells, ts[..n], a, b);
      InsertOrder(g, j, Rearm(g, j, cells, ts[..n]), Rearmed(j, ts[n]), a, b);
    }
  }

  lemma {:induction false} RearmHas(g: nat, j: nat, cells: seq<seq<Timer>>, ts: seq<Timer>, t: Timer)
    requires g >= 1 && |cells| == SLOTS && t in ts && t.period != 0
    ensures Rearmed(j, t) in Rearm(g, j, cells, ts)[SlotFor(g, j, Rearmed(j, t).expires)]
  {
    hide SlotFor;
    var n := |ts| - 1;
    assert ts == ts[..n] + [ts[n]];
    if t != ts[n] { RearmHas(g, j, cells, ts[..n], t); }
  }

  lemma RearmedAlike(j: nat, s: Timer, t: Timer)
    requires s.period == t.period
    ensures Rearmed(j, s).expires == Rearmed(j, t).expires && Rearmed(j, s).id == s.id && Rearmed(j, t).id == t.id
  {
  }

  /** Timers with the same period are armed again in order. */
  lemma {:induction false} RearmBrings(g: nat, j: nat, cells: seq<seq<Timer>>, ts: seq<Timer>, i: nat, k: nat)
    requires g >= 1 && |cells| == SLOTS && i < k < |ts| && ts[i].period == ts[k].period != 0
    ensures InOrder(Rearm(g, j, cells, ts), ts[i].id, ts[k].id)
  {
    RearmedAlike(j, ts[i], ts[k]);
    hide InOrder, Insert, Rearmed;
    var n := |ts| - 1;
    var a, b := ts[i].id, ts[k].id;
    if k < n {
      RearmBrings(g, j, cells, ts[..n], i, k);
      InsertOrder(g, j, Rearm(g, j, cells, ts[..n]), Rearmed(j, ts[n]), a, b);
    } else {
      assert ts[..n][i] == ts[i];
      RearmHas(g, j, cells, ts[..n], ts[i]);
      BehindOrder(g, j, Rearm(g, j, cells, ts[..n]), Rearmed(j, ts[i]), Rearmed(j, ts[n]));
    }
  }

  /** What a tick leaves before it arms timers again. */
  function Rest(g: nat, w: Wheel): seq<seq<Timer>>
    requires g >= 1 && |w.cells| == SLOTS
  {
    Cascades(g, w.jiffies, w.cells)[Slot(1, w.jiffies) := []]
  }

  /** A tick: two timers in order either fire in order, or stay in order. */
  lemma TickOrder(g: nat, w: Wheel, a: nat, b: nat)
    requires g >= 1 && |w.cells| == SLOTS && InOrder(w.cells, a, b)
    ensures ListOrder(Fired(g, w), a, b) || (InOrder(Rest(g, w), a, b) && InOrder(Tick(g, w).cells, a, b))
  {
    hide ListOrder, Slot, Cascades, Rearm;
    var j := w.jiffies;
    CascadesOrder(g, j, w.cells, a, b);
    var cells := Cascades(g, j, w.cells);
    var c: nat :| c < |cells| && ListOrder(cells[c], a, b);
    var d := Slot(1, j);
    if c != d {
      assert ListOrder(cells[d := []][c], a, b);
      RearmOrder(g, j, cells[d := []], Fired(g, w), a, b);
    }
  }

  // ---- The invariant ----

  ghost predicate LiveId(cells: seq<seq<Timer>>, id: nat) {
    exists c: nat, t :: c < |cells| && t in cells[c] && t.id == id
  }

  ghost predicate Unfired(log: seq<Firing>, id: nat) { forall k: nat | k < |log| :: log[k].timer.id != id }

  /** Timer b was created after timer a, at the same base and for the same time. */
  ghost predicate Peers(x: Based, a: nat, b: nat) {
    && a < b && a in x.h.born && b in x.h.born && a in x.base && b in x.base
    && x.base[a] == x.base[b] && x.h.born[a].expires == x.h.born[b].expires
  }

  ghost predicate SamePeriod(x: Based, a: nat, b: nat)
    requires Peers(x, a, b)
  {
    x.h.born[a].period == x.h.born[b].period
  }

  /** Callback k is the first of its timer. */
  ghost predicate First(log: seq<Firing>, k: nat)
    requires k < |log|
  {
    Unfired(log[..k], log[k].timer.id)
  }

  ghost predicate Past(x: Based) {
    && (forall id | id in x.base :: x.base[id] <= x.h.wheel.jiffies)
    && forall k: nat | k < |x.h.log| ::
         x.h.log[k].timer.id in x.base && x.base[x.h.log[k].timer.id] <= x.h.log[k].tick < x.h.wheel.jiffies
  }

  /** A timer created since the last tick is where add_timer put it. */
  ghost predicate NewInPlace(g: nat, x: Based)
    requires g >= 1
  {
    forall c: nat, t | c < |x.h.wheel.cells| && t in x.h.wheel.cells[c] && t.id in x.base && x.base[t.id] == x.h.wheel.jiffies ::
      c == SlotFor(g, x.h.wheel.jiffies, t.expires)
  }

  ghost predicate LivePeers(x: Based, a: nat, b: nat) {
    && Peers(x, a, b) && LiveId(x.h.wheel.cells, a) && LiveId(x.h.wheel.cells, b)
    && (SamePeriod(x, a, b) || (Unfired(x.h.log, a) && Unfired(x.h.log, b)))
  }

  ghost predicate FiredPeers(x: Based, p: nat, q: nat) {
    && p < |x.h.log| && q < |x.h.log| && x.h.log[p].tick == x.h.log[q].tick
    && Peers(x, x.h.log[p].timer.id, x.h.log[q].timer.id)
    && (SamePeriod(x, x.h.log[p].timer.id, x.h.log[q].timer.id) || (First(x.h.log, p) && First(x.h.log, q)))
  }

  ghost predicate SlotsInOrder(x: Based) { forall a, b | LivePeers(x, a, b) :: InOrder(x.h.wheel.cells, a, b) }

  ghost predicate LogInOrder(x: Based) { forall p, q | FiredPeers(x, p, q) :: p < q }

  ghost predicate OrderInv(g: nat, x: Based)
    requires g >= 1
  {
    TickInv(g, x) && Past(x) && NewInPlace(g, x) && SlotsInOrder(x) && LogInOrder(x)
  }

  // ---- A tick ----

  lemma LiveBefore(g: nat, w: Wheel, id: nat)
    requires g >= 1 && |w.cells| == SLOTS && LiveId(Tick(g, w).cells, id)
    ensures LiveId(w.cells, id)
    ensures LiveId(Rest(g, w), id) || exists i: nat :: i < |Fired(g, w)| && Fired(g, w)[i].id == id && Fired(g, w)[i].period != 0
  {
    hide Slot, Cascades, Rearm;
    var j, ts := w.jiffies, Fired(g, w);
    var c: nat, t :| c < SLOTS && t in Tick(g, w).cells[c] && t.id == id;
    RearmFrom(g, j, Rest(g, w), ts, c, t);
    if t in Rest(g, w)[c] {
      var c' := CascadesFrom(g, j, w.cells, c, t);
    } else {
      var i :| 0 <= i < |ts| && ts[i].period != 0 && t == Rearmed(j, ts[i]);
      FiredWasLive(g, w, i);
    }
  }

  lemma FiredWasLive(g: nat, w: Wheel, i: nat)
    requires g >= 1 && |w.cells| == SLOTS && i < |Fired(g, w)|
    ensures LiveId(w.cells, Fired(g, w)[i].id)
  {
    hide Slot, Cascades;
    var c' := CascadesFrom(g, w.jiffies, w.cells, Slot(1, w.jiffies), Fired(g, w)[i]);
  }

  lemma OrderHas(cells: seq<seq<Timer>>, a: nat, b: nat)
    requires InOrder(cells, a, b)
    ensures LiveId(cells, a) && LiveId(cells, b)
  {
    var c: nat :| c < |cells| && ListOrder(cells[c], a, b);
    var i: nat, k: nat :| Pair(cells[c], i, k, a, b);
    assert cells[c][i] in cells[c] && cells[c][k] in cells[c];
  }

  /** No timer that fires stays in the slots. */
  lemma FiredLeaves(g: nat, h: History, i: nat)
    requires g >= 1 && HistoryInv(g, h) && |h.wheel.cells| == SLOTS && i < |Fired(g, h.wheel)|
    ensures !LiveId(Rest(g, h.wheel), Fired(g, h.wheel)[i].id)
  {
    NumbersApart(g, h);
    hide HistoryInv, Slot, Cascades, Fired;
  }

  lemma FiredPeriod(g: nat, x: Based, i: nat)
    requires g >= 1 && TickInv(g, x) && Fits(x.h.wheel, x.h.wheel.jiffies) && |x.h.wheel.cells| == SLOTS && i < |Fired(g, x.h.wheel)|
    ensures var t := Fired(g, x.h.wheel)[i]; t.id in x.h.born && t.id in x.base && t.period == x.h.born[t.id].period
  {
    hide TickInv, Fits, Fired;
    FiredPrescribed(g, x, i);
  }

  lemma TickKeepsSlots(g: nat, x: Based, a: nat, b: nat)
    requires g >= 1 && OrderInv(g, x) && Fits(x.h.wheel, x.h.wheel.jiffies) && |x.h.wheel.cells| == SLOTS
    requires LivePeers(BasedTick(g, x), a, b)
    ensures InOrder(Tick(g, x.h.wheel).cells, a, b)
  {
    hide TickInv, Past, NewInPlace, LogInOrder, HistoryInv, Fits, InOrder, LiveId, Tick, Fired, Rest;
    var w, r := x.h.wheel, BasedTick(g, x);
    LiveBefore(g, w, a);
    LiveBefore(g, w, b);
    UnfiredBefore(x.h.log, Firings(w.jiffies, Fired(g, w)), a);
    UnfiredBefore(x.h.log, Firings(w.jiffies, Fired(g, w)), b);
    assert LivePeers(x, a, b);
    TickOrder(g, w, a, b);
    if !InOrder(Tick(g, w).cells, a, b) {
      var i: nat, k: nat :| Pair(Fired(g, w), i, k, a, b);
      FiredAgain(g, x, i, k);
    }
  }

  lemma UnfiredBefore(log: seq<Firing>, more: seq<Firing>, id: nat)
    ensures Unfired(log + more, id) <==> Unfired(log, id) && Unfired(more, id)
  {
    forall k: nat | k < |log| ensures (log + more)[k] == log[k] { }
    forall k: nat | k < |more| ensures (log + more)[|log| + k] == more[k] { }
  }

  /** Peers that fire together, and are live afterwards, are armed again in order. */
  lemma FiredAgain(g: nat, x: Based, i: nat, k: nat)
    requires g >= 1 && TickInv(g, x) && Fits(x.h.wheel, x.h.wheel.jiffies) && |x.h.wheel.cells| == SLOTS
    requires i < k < |Fired(g, x.h.wheel)|
    requires LivePeers(BasedTick(g, x), Fired(g, x.h.wheel)[i].id, Fired(g, x.h.wheel)[k].id)
    ensures InOrder(Tick(g, x.h.wheel).cells, Fired(g, x.h.wheel)[i].id, Fired(g, x.h.wheel)[k].id)
  {
    HistoryOf(g, x);
    hide TickInv, HistoryInv, Fits, InOrder, LiveId, Cascades, Slot, Rearm, Unfired;
    var w, ts := x.h.wheel, Fired(g, x.h.wheel);
    FiredPeriod(g, x, i);
    FiredPeriod(g, x, k);
    FiredLeaves(g, x.h, i);
    LiveBefore(g, w, ts[i].id);
    FiredOnce(g, x.h);
    NowFired(x.h.log, w.jiffies, ts, i);
    RearmBrings(g, w.jiffies, Rest(g, w), ts, i, k);
  }

  lemma NowFired(log: seq<Firing>, j: nat, ts: seq<Timer>, i: nat)
    requires i < |ts|
    ensures !Unfired(log + Firings(j, ts), ts[i].id)
  {
    assert (log + Firings(j, ts))[|log| + i].timer == ts[i];
  }

  lemma HistoryOf(g: nat, x: Based)
    requires g >= 1 && TickInv(g, x)
    ensures HistoryInv(g, x.h) && Known(x)
  {
  }

  lemma FiredOnce(g: nat, h: History)
    requires g >= 1 && HistoryInv(g, h) && |h.wheel.cells| == SLOTS
    ensures forall i: nat, k: nat | i < |Fired(g, h.wheel)| && k < |Fired(g, h.wheel)| && Fired(g, h.wheel)[i].id == Fired(g, h.wheel)[k].id :: i == k
  {
    NumbersApart(g, h);
    hide HistoryInv, Fired;
  }

  lemma TickKeepsLog(g: nat, x: Based, p: nat, q: nat)
    requires g >= 1 && OrderInv(g, x) && Fits(x.h.wheel, x.h.wheel.jiffies) && |x.h.wheel.cells| == SLOTS
    requires FiredPeers(BasedTick(g, x), p, q)
    ensures p < q
  {
    hide TickInv, NewInPlace, SlotsInOrder, HistoryInv, Fits, Tick, Fired, Peers, First;
    var n, log' := |x.h.log|, BasedTick(g, x).h.log;
    assert forall m: nat | m < n :: log'[m] == x.h.log[m];
    assert forall m: nat | n <= m < |log'| :: log'[m] == Firing(x.h.wheel.jiffies, Fired(g, x.h.wheel)[m - n]);
    if p < n && q < n {
      SameFirst(x.h.log, log', p);
      SameFirst(x.h.log, log', q);
      SamePeers(x, BasedTick(g, x), x.h.log[p].timer.id, x.h.log[q].timer.id);
      assert FiredPeers(x, p, q);
    } else if p >= n && q >= n {
      NewInOrder(g, x, p - n, q - n);
    }
  }

  lemma SamePeers(x: Based, y: Based, a: nat, b: nat)
    requires x.h.born == y.h.born && x.base == y.base
    ensures Peers(x, a, b) <==> Peers(y, a, b)
  {
  }

  lemma SameFirst(log: seq<Firing>, log': seq<Firing>, k: nat)
    requires k < |log| <= |log'| && forall m: nat | m < |log| :: log'[m] == log[m]
    ensures First(log, k) <==> First(log', k)
  {
    assert log[..k] == log'[..k];
  }

  lemma BothLive(g: nat, x: Based, i: nat, k: nat)
    requires g >= 1 && |x.h.wheel.cells| == SLOTS && i < |Fired(g, x.h.wheel)| && k < |Fired(g, x.h.wheel)|
    requires FiredPeers(BasedTick(g, x), |x.h.log| + i, |x.h.log| + k)
    ensures LivePeers(x, Fired(g, x.h.wheel)[i].id, Fired(g, x.h.wheel)[k].id)
  {
    hide Tick, Fired, LiveId, Unfired, First;
    var w, ts, n := x.h.wheel, Fired(g, x.h.wheel), |x.h.log|;
    var log' := BasedTick(g, x).h.log;
    assert log'[n + i].timer == ts[i] && log'[n + k].timer == ts[k] && log'[..n] == x.h.log;
    FiredWasLive(g, w, i);
    FiredWasLive(g, w, k);
    if First(log', n + i) { FirstMeansUnfired(x.h.log, log', n + i); }
    if First(log', n + k) { FirstMeansUnfired(x.h.log, log', n + k); }
  }

  /** Peers that fire in the same tick fire in order. */
  lemma NewInOrder(g: nat, x: Based, i: nat, k: nat)
    requires g >= 1 && OrderInv(g, x) && |x.h.wheel.cells| == SLOTS
    requires i < |Fired(g, x.h.wheel)| && k < |Fired(g, x.h.wheel)| && FiredPeers(BasedTick(g, x), |x.h.log| + i, |x.h.log| + k)
    ensures i < k
  {
    hide OrderInv, LivePeers, FiredPeers, TickInv, HistoryInv, InOrder, Tick, Rest, Fired, LiveId;
    BothLive(g, x, i, k);
    var w, ts := x.h.wheel, Fired(g, x.h.wheel);
    var a, b := ts[i].id, ts[k].id;
    SlotsOf(g, x, a, b);
    HistoryOf(g, x);
    TickOrder(g, w, a, b);
    FiredLeaves(g, x.h, i);
    if InOrder(Rest(g, w), a, b) { OrderHas(Rest(g, w), a, b); }
    var i': nat, k': nat :| Pair(ts, i', k', a, b);
    FiredOnce(g, x.h);
  }

  lemma SlotsOf(g: nat, x: Based, a: nat, b: nat)
    requires g >= 1 && OrderInv(g, x) && LivePeers(x, a, b)
    ensures TickInv(g, x) && InOrder(x.h.wheel.cells, a, b)
  {
    hide TickInv, Past, NewInPlace, LogInOrder, LivePeers, InOrder;
  }

  lemma FirstMeansUnfired(log: seq<Firing>, log': seq<Firing>, k: nat)
    requires |log| <= k < |log'| && log'[..|log|] == log && First(log', k)
    ensures Unfired(log, log'[k].timer.id)
  {
    forall m: nat | m < |log| ensures log[m].timer.id != log'[k].timer.id {
      assert log[m] == log'[..k][m];
    }
  }

  lemma TickKeepsPast(g: nat, x: Based)
    requires g >= 1 && TickInv(g, x) && Past(x) && Fits(x.h.wheel, x.h.wheel.jiffies) && |x.h.wheel.cells| == SLOTS
    ensures Past(BasedTick(g, x))
  {
    hide TickInv, Fits, Tick, Fired;
    var r, n := BasedTick(g, x), |x.h.log|;
    forall k: nat | k < |r.h.log|
      ensures r.h.log[k].timer.id in r.base && r.base[r.h.log[k].timer.id] <= r.h.log[k].tick < r.h.wheel.jiffies
    {
      if k < n {
        assert r.h.log[k] == x.h.log[k];
      } else {
        assert r.h.log[k] == Firing(x.h.wheel.jiffies, Fired(g, x.h.wheel)[k - n]);
        FiredPeriod(g, x, k - n);
      }
    }
  }

  lemma TickKeepsOrderInv(g: nat, x: Based)
    requires g >= 1 && OrderInv(g, x) && Fits(x.h.wheel, x.h.wheel.jiffies) && |x.h.wheel.cells| == SLOTS
    ensures OrderInv(g, BasedTick(g, x))
  {
    hide TickInv, HistoryInv, Fits, Tick, Fired, LivePeers, FiredPeers, InOrder;
    TickKeepsTickInv(g, x);
    TickKeepsPast(g, x);
    var r := BasedTick(g, x);
    forall a, b | LivePeers(r, a, b) ensures InOrder(r.h.wheel.cells, a, b) { TickKeepsSlots(g, x, a, b); }
    forall p, q | FiredPeers(r, p, q) ensures p < q { TickKeepsLog(g, x, p, q); }
  }

  // ---- The calls ----

  /** A timer made at this base has not fired, and sits where a timer with the same expiry goes now. */
  lemma NewPeer(g: nat, x: Based, c: nat, t: Timer)
    requires g >= 1 && OrderInv(g, x) && c < SLOTS == |x.h.wheel.cells| && t in x.h.wheel.cells[c]
    requires t.id in x.base && x.base[t.id] == x.h.wheel.jiffies
    ensures Unfired(x.h.log, t.id) && t.id in x.h.born && t.expires == x.h.born[t.id].expires
    ensures c == SlotFor(g, x.h.wheel.jiffies, t.expires)
  {
    hide SlotsInOrder, LogInOrder, SlotFor, NextExpiry, NextTick;
    HistoryOf(g, x);
    hide TickInv;
    KnownBorn(g, x, c, t);
    NextExpiryUnfired(x.h.log, x.h.born[t.id]);
  }

  lemma KnownBorn(g: nat, x: Based, c: nat, t: Timer)
    requires g >= 1 && HistoryInv(g, x.h) && Known(x) && c < SLOTS == |x.h.wheel.cells| && t in x.h.wheel.cells[c]
    ensures t.id in x.h.born && x.h.born[t.id].id == t.id && t.expires == NextExpiry(x.h.log, x.h.born[t.id])
  {
    hide NextExpiry;
  }

  lemma CreatedIn(g: nat, w: Wheel, id: nat, due: nat, period: nat, cb: Callback, c: nat, t: Timer)
    requires g >= 1 && |w.cells| == SLOTS && w.jiffies + due < WORD && c < SLOTS && t in Create(g, w, id, due, period, cb).cells[c]
    ensures t in w.cells[c] || (t == Timer(id, w.jiffies + due, period, cb) && c == SlotFor(g, w.jiffies, t.expires))
  {
    hide SlotFor;
  }

  lemma CreateKeepsOrder(g: nat, x: Based, e: Event, a: nat, b: nat)
    requires g >= 1 && OrderInv(g, x) && e.NewTimer? && Enabled(x.h, e) && LivePeers(BasedApply(g, x, e), a, b)
    requires x.h.next !in x.h.born && forall id | id in x.h.born :: id < x.h.next
    ensures InOrder(BasedApply(g, x, e).h.wheel.cells, a, b)
  {
    hide TickInv, Past, NewInPlace, LogInOrder, InOrder, SlotFor, Unfired;
    var w := x.h.wheel;
    var t := Timer(x.h.next, w.jiffies + e.due, e.period, e.callback);
    if b == x.h.next {
      var c: nat, s :| c < SLOTS && s in BasedApply(g, x, e).h.wheel.cells[c] && s.id == a;
      CreatedIn(g, w, x.h.next, e.due, e.period, e.callback, c, s);
      NewPeer(g, x, c, s);
      BehindOrder(g, w.jiffies, w.cells, s, t);
    } else {
      StillLive(g, x, e, a);
      StillLive(g, x, e, b);
      assert LivePeers(x, a, b);
      InsertOrder(g, w.jiffies, w.cells, t, a, b);
    }
  }

  lemma StillLive(g: nat, x: Based, e: Event, id: nat)
    requires g >= 1 && e.NewTimer? && Enabled(x.h, e) && LiveId(BasedApply(g, x, e).h.wheel.cells, id) && id != x.h.next
    ensures LiveId(x.h.wheel.cells, id)
  {
    hide SlotFor;
    var c: nat, t :| c < SLOTS && t in BasedApply(g, x, e).h.wheel.cells[c] && t.id == id;
    CreatedIn(g, x.h.wheel, x.h.next, e.due, e.period, e.callback, c, t);
  }

  lemma NumbersBelow(g: nat, x: Based)
    requires g >= 1 && TickInv(g, x)
    ensures |x.h.wheel.cells| == SLOTS && x.h.next !in x.h.born && forall id | id in x.h.born :: id < x.h.next
    ensures forall k: nat | k < |x.h.log| :: x.h.log[k].timer.id in x.h.born
  {
    forall k: nat | k < |x.h.log| ensures x.h.log[k].timer.id in x.h.born {
      assert WellTimed(g, x.h, k);
    }
  }

  lemma CreateKeepsPlace(g: nat, x: Based, e: Event)
    requires g >= 1 && e.NewTimer? && Enabled(x.h, e) && NewInPlace(g, x) && OnSchedule(x.h) && x.h.next !in x.h.born
    ensures NewInPlace(g, BasedApply(g, x, e))
  {
    hide SlotFor, NextExpiry;
    var r := BasedApply(g, x, e);
    forall c: nat, t | c < |r.h.wheel.cells| && t in r.h.wheel.cells[c] && t.id in r.base && r.base[t.id] == r.h.wheel.jiffies
      ensures c == SlotFor(g, r.h.wheel.jiffies, t.expires)
    {
      CreatedIn(g, x.h.wheel, x.h.next, e.due, e.period, e.callback, c, t);
    }
  }

  lemma NewTimerKeepsOrderInv(g: nat, x: Based, e: Event)
    requires g >= 1 && OrderInv(g, x) && e.NewTimer? && Enabled(x.h, e)
    ensures OrderInv(g, BasedApply(g, x, e))
  {
    NewTimerKeepsTickInv(g, x, e);
    NumbersBelow(g, x);
    HistoryOf(g, x);
    ScheduleOf(g, x.h);
    CreateKeepsPlace(g, x, e);
    hide TickInv, HistoryInv, NewInPlace, LivePeers, InOrder, Create, OnSchedule;
    var r := BasedApply(g, x, e);
    forall a, b | LivePeers(r, a, b) ensures InOrder(r.h.wheel.cells, a, b) { CreateKeepsOrder(g, x, e, a, b); }
    forall p, q | FiredPeers(r, p, q) ensures p < q { assert FiredPeers(x, p, q); }
  }

  lemma ScheduleOf(g: nat, h: History)
    requires g >= 1 && HistoryInv(g, h)
    ensures OnSchedule(h)
  {
  }

  lemma LiveCounts(w: Wheel, id: nat)
    requires LiveId(w.cells, id)
    ensures LiveIds(w)[id] >= 1
  {
    hide Sum;
    var c: nat, t :| c < |w.cells| && t in w.cells[c] && t.id == id;
    SumHas(Anywhere(Id()), w.cells, c, t);
    assert Anywhere(Id())(c, t) == id;
  }

  /** A deleted number is not live. */
  lemma DropEnds(g: nat, x: Based, e: Event)
    requires g >= 1 && e.DropTimer? && Enabled(x.h, e) && TickInv(g, BasedApply(g, x, e))
    ensures !LiveId(BasedApply(g, x, e).h.wheel.cells, x.h.wheel.cells[e.slot][e.pos].id)
  {
    hide WheelInv, OnSchedule, Delete, LiveIds, WellTimed, Known, Prescribed, Kept, LiveId;
    var r, id := BasedApply(g, x, e), x.h.wheel.cells[e.slot][e.pos].id;
    assert LiveIds(r.h.wheel)[id] + OneShotsFired(r.h.log)[id] + r.h.deleted[id] <= 1 && r.h.deleted[id] >= 1;
    if LiveId(r.h.wheel.cells, id) { LiveCounts(r.h.wheel, id); }
  }

  lemma PairWithout(ts: seq<Timer>, pos: nat, a: nat, b: nat)
    requires pos < |ts| && ListOrder(ts, a, b) && ts[pos].id != a && ts[pos].id != b
    ensures ListOrder(Without(ts, pos), a, b)
  {
    var i: nat, k: nat :| Pair(ts, i, k, a, b);
    assert Pair(Without(ts, pos), if i < pos then i else i - 1, if k < pos then k else k - 1, a, b);
  }

  lemma DropKeepsOrder(g: nat, x: Based, e: Event, a: nat, b: nat)
    requires g >= 1 && OrderInv(g, x) && e.DropTimer? && Enabled(x.h, e) && TickInv(g, BasedApply(g, x, e))
    requires LivePeers(BasedApply(g, x, e), a, b)
    ensures InOrder(BasedApply(g, x, e).h.wheel.cells, a, b)
  {
    DropEnds(g, x, e);
    DroppedLive(x.h.wheel, e.slot, e.pos, a);
    DroppedLive(x.h.wheel, e.slot, e.pos, b);
    hide TickInv, Past, NewInPlace, LogInOrder, ListOrder, LiveId, Without;
    assert LivePeers(x, a, b);
    var cells := x.h.wheel.cells;
    var c: nat :| c < |cells| && ListOrder(cells[c], a, b);
    if c == e.slot { PairWithout(cells[c], e.pos, a, b); }
    assert ListOrder(BasedApply(g, x, e).h.wheel.cells[c], a, b);
  }

  lemma DroppedLive(w: Wheel, slot: nat, pos: nat, id: nat)
    requires |w.cells| == SLOTS && slot < SLOTS && pos < |w.cells[slot]| && LiveId(Delete(w, slot, pos).cells, id)
    ensures LiveId(w.cells, id)
  {
    var c: nat, t :| c < SLOTS && t in Delete(w, slot, pos).cells[c] && t.id == id;
    assert t in w.cells[c];
  }

  lemma DropKeepsPlace(g: nat, x: Based, e: Event)
    requires g >= 1 && e.DropTimer? && Enabled(x.h, e) && NewInPlace(g, x)
    ensures NewInPlace(g, BasedApply(g, x, e))
  {
    hide SlotFor;
    var r := BasedApply(g, x, e);
    forall c: nat, t | c < |r.h.wheel.cells| && t in r.h.wheel.cells[c] ensures t in x.h.wheel.cells[c] { }
  }

  lemma DropTimerKeepsOrderInv(g: nat, x: Based, e: Event)
    requires g >= 1 && OrderInv(g, x) && e.DropTimer? && Enabled(x.h, e)
    ensures OrderInv(g, BasedApply(g, x, e))
  {
    DropTimerKeepsTickInv(g, x, e);
    DropKeepsPlace(g, x, e);
    hide TickInv, NewInPlace, LivePeers, InOrder, Delete;
    var r := BasedApply(g, x, e);
    forall a, b | LivePeers(r, a, b) ensures InOrder(r.h.wheel.cells, a, b) { DropKeepsOrder(g, x, e, a, b); }
    forall p, q | FiredPeers(r, p, q) ensures p < q { assert FiredPeers(x, p, q); }
  }

  // ---- Runs ----

  lemma {:induction false} AdvanceKeepsOrderInv(g: nat, x: Based, now: int)
    requires g >= 1 && OrderInv(g, x) && now < WORD && (x.h.wheel.jiffies <= now ==> Fits(x.h.wheel, now))
    ensures |x.h.wheel.cells| == SLOTS && OrderInv(g, Based(Advanced(g, x.h, now), x.base))
    decreases now - x.h.wheel.jiffies
  {
    CellsKnown(g, x);
    hide OrderInv, Tick;
    AdvancedStep(g, x.h, now);
    if x.h.wheel.jiffies <= now {
      assert Fits(x.h.wheel, x.h.wheel.jiffies);
      TickKeepsOrderInv(g, x);
      TickKeepsFits(g, x.h.wheel, now);
      AdvanceKeepsOrderInv(g, BasedTick(g, x), now);
    }
  }

  lemma CellsKnown(g: nat, x: Based)
    requires g >= 1 && OrderInv(g, x)
    ensures |x.h.wheel.cells| == SLOTS && TickInv(g, x)
  {
    CountOf(g, x);
  }

  lemma ApplyKeepsOrderInv(g: nat, x: Based, e: Event)
    requires g >= 1 && OrderInv(g, x) && Enabled(x.h, e)
    ensures OrderInv(g, BasedApply(g, x, e))
  {
    hide OrderInv, Fits;
    match e
    case NewTimer(_, _, _) => NewTimerKeepsOrderInv(g, x, e);
    case DropTimer(_, _) => DropTimerKeepsOrderInv(g, x, e);
    case Advance(now) =>
      FitsBound(x.h.wheel, now);
      AdvanceKeepsOrderInv(g, x, now);
  }

  lemma StartOrderInv(g: nat, x: Based)
    requires g >= 1 && Start(x.h) && x.base == map[]
    ensures OrderInv(g, x)
  {
    StartTickInv(g, x);
    hide TickInv;
  }

  lemma {:induction false} RunKeepsOrderInv(g: nat, xs: seq<Based>, es: seq<Event>, i: nat)
    requires g >= 1 && IsBasedRun(g, xs, es) && i < |xs|
    ensures OrderInv(g, xs[i])
  {
    hide OrderInv, BasedApply;
    if i == 0 {
      StartOrderInv(g, xs[0]);
    } else {
      RunKeepsOrderInv(g, xs, es, i - 1);
      ApplyKeepsOrderInv(g, xs[i - 1], es[i - 1]);
    }
  }

  /** Two timers created at the same base for the same time: their first callbacks are made in the same tick, in the
      order of creation, for every granularity and in every run. */
  lemma FirstInOrder(g: nat, xs: seq<Based>, es: seq<Event>, i: nat, p: nat, q: nat)
    requires g >= 1 && IsBasedRun(g, xs, es) && i < |xs| && p < |xs[i].h.log| && q < |xs[i].h.log|
    requires Peers(xs[i], xs[i].h.log[p].timer.id, xs[i].h.log[q].timer.id) && First(xs[i].h.log, p) && First(xs[i].h.log, q)
    ensures p < q && xs[i].h.log[p].tick == xs[i].h.log[q].tick
  {
    hide IsBasedRun, TickInv, Past, NewInPlace, SlotsInOrder, CreatedFireAt, RearmedFireAt, LastFired;
    var x := xs[i];
    RunKeepsOrderInv(g, xs, es, i);
    FiringsExact(g, xs, es, i, p);
    FiringsExact(g, xs, es, i, q);
    FirstHas(x.h.log, p);
    FirstHas(x.h.log, q);
    assert FiredPeers(x, p, q);
  }

  lemma FirstHas(log: seq<Firing>, k: nat)
    requires k < |log| && First(log, k)
    ensures forall m: nat | m < k :: log[m].timer.id != log[k].timer.id
  {
    forall m: nat | m < k ensures log[m].timer.id != log[k].timer.id {
      assert log[..k][m] == log[m];
    }
  }

  /** The callback of timer `id` before the one at k. */
  lemma {:induction false} Previous(log: seq<Firing>, id: nat) returns (m: nat)
    requires FireCount(log, id) > 0
    ensures LastFired(log, id, m) && FireCount(log[..m], id) == FireCount(log, id) - 1
  {
    var n := |log| - 1;
    if log[n].timer.id == id {
      m := n;
    } else {
      m := Previous(log[..n], id);
      assert log[..n][..m] == log[..m];
    }
  }

  lemma {:induction false} NoneBefore(log: seq<Firing>, id: nat)
    requires FireCount(log, id) == 0
    ensures Unfired(log, id)
  {
    if log != [] { NoneBefore(log[..|log| - 1], id); }
  }

  /** If they have the same period too, their n-th callbacks are made in the same tick and in the order of creation,
      for every n. */
  lemma {:induction false} TwinsInOrder(g: nat, xs: seq<Based>, es: seq<Event>, i: nat, p: nat, q: nat)
    requires g >= 1 && IsBasedRun(g, xs, es) && i < |xs| && p < |xs[i].h.log| && q < |xs[i].h.log|
    requires var x, a, b := xs[i], xs[i].h.log[p].timer.id, xs[i].h.log[q].timer.id;
             Peers(x, a, b) && SamePeriod(x, a, b) && FireCount(x.h.log[..p], a) == FireCount(x.h.log[..q], b)
    ensures p < q && xs[i].h.log[p].tick == xs[i].h.log[q].tick
    decreases p
  {
    hide IsBasedRun, OrderInv, CreatedFireAt, RearmedFireAt, LastFired, Peers, FireCount;
    var x, a, b := xs[i], xs[i].h.log[p].timer.id, xs[i].h.log[q].timer.id;
    if FireCount(x.h.log[..p], a) == 0 {
      NoneBefore(x.h.log[..p], a);
      NoneBefore(x.h.log[..q], b);
      FirstInOrder(g, xs, es, i, p, q);
    } else {
      var m := Previous(x.h.log[..p], a);
      var n := Previous(x.h.log[..q], b);
      LastIs(x.h.log, p, a, m);
      LastIs(x.h.log, q, b, n);
      TwinsInOrder(g, xs, es, i, m, n);
      FiringsExact(g, xs, es, i, p);
      FiringsExact(g, xs, es, i, q);
      PeerPeriods(x, a, b);
      RunKeepsOrderInv(g, xs, es, i);
      LogOrder(g, x, p, q);
    }
  }

  lemma LastIs(log: seq<Firing>, k: nat, id: nat, m: nat)
    requires k <= |log| && LastFired(log[..k], id, m)
    ensures m < k && log[m].timer.id == id && log[..k][..m] == log[..m]
  {
  }

  lemma PeerPeriods(x: Based, a: nat, b: nat)
    requires Peers(x, a, b) && SamePeriod(x, a, b)
    ensures a in x.h.born && b in x.h.born && x.h.born[a].period == x.h.born[b].period
  {
  }

  lemma LogOrder(g: nat, x: Based, p: nat, q: nat)
    requires g >= 1 && OrderInv(g, x) && p < |x.h.log| && q < |x.h.log| && x.h.log[p].tick == x.h.log[q].tick
    requires Peers(x, x.h.log[p].timer.id, x.h.log[q].timer.id) && SamePeriod(x, x.h.log[p].timer.id, x.h.log[q].timer.id)
    ensures p < q
  {
    hide TickInv, Past, NewInPlace, SlotsInOrder;
    assert FiredPeers(x, p, q);
  }
}
