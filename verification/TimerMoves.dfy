/** What cascading costs: how often timers are moved from one slot to another. */
module TimerMoves {
  import opened TimerWheel
  import opened TimerFiring
  import opened TimerRefinement
  import opened TimerConservation
  import opened TimerRuns
  import CellSums

  // ---- Moves ahead, timer by timer ----

  function Times(t: Timer, n: nat): multiset<Timer> { multiset{}[t := n] }

  ghost function CellLoad(f: (nat, Timer) -> nat, c: nat, s: seq<Timer>): multiset<Timer> {
    if s == [] then multiset{} else CellLoad(f, c, s[..|s| - 1]) + Times(s[|s| - 1], f(c, s[|s| - 1]))
  }

  /** Each timer of the slots, as often as f says. */
  ghost function Load(f: (nat, Timer) -> nat, cells: seq<seq<Timer>>): multiset<Timer> {
    if cells == [] then multiset{}
    else Load(f, cells[..|cells| - 1]) + CellLoad(f, |cells| - 1, cells[|cells| - 1])
  }

  lemma LoadPush(f: (nat, Timer) -> nat, cells: seq<seq<Timer>>, s: seq<Timer>)
    ensures Load(f, cells + [s]) == Load(f, cells) + CellLoad(f, |cells|, s)
  {
    assert (cells + [s])[..|cells|] == cells;
  }

  lemma CellLoadPush(f: (nat, Timer) -> nat, c: nat, s: seq<Timer>, t: Timer)
    ensures CellLoad(f, c, s + [t]) == CellLoad(f, c, s) + Times(t, f(c, t))
  {
    assert (s + [t])[..|s|] == s;
  }

  lemma {:induction false} LoadUpdate(f: (nat, Timer) -> nat, cells: seq<seq<Timer>>, c: nat, s: seq<Timer>)
    requires c < |cells|
    ensures Load(f, cells[c := s]) + CellLoad(f, c, cells[c]) == Load(f, cells) + CellLoad(f, c, s)
  {
    hide Load, CellLoad;
    var n := |cells| - 1;
    var init, last := cells[..n], cells[n];
    assert cells == init + [last];
    LoadPush(f, init, last);
    if c == n {
      assert cells[c := s] == init + [s];
      LoadPush(f, init, s);
    } else {
      LoadUpdate(f, init, c, s);
      assert cells[c := s] == init[c := s] + [last];
      LoadPush(f, init[c := s], last);
      CellSums.AddBoth(Load(f, init[c := s]), CellLoad(f, c, cells[c]), Load(f, init), CellLoad(f, c, s), CellLoad(f, n, last));
    }
  }

  lemma {:induction false} CellLoadCong(f: (nat, Timer) -> nat, f': (nat, Timer) -> nat, c: nat, s: seq<Timer>)
    requires forall t | t in s :: f(c, t) == f'(c, t)
    ensures CellLoad(f, c, s) == CellLoad(f', c, s)
  {
    if s != [] { CellLoadCong(f, f', c, s[..|s| - 1]); }
  }

  lemma {:induction false} LoadCong(f: (nat, Timer) -> nat, f': (nat, Timer) -> nat, cells: seq<seq<Timer>>)
    requires forall c: nat, t | c < |cells| && t in cells[c] :: f(c, t) == f'(c, t)
    ensures Load(f, cells) == Load(f', cells)
  {
    if cells != [] {
      var n := |cells| - 1;
      LoadCong(f, f', cells[..n]);
      CellLoadCong(f, f', n, cells[n]);
    }
  }

  lemma InsertLoad(g: nat, f: (nat, Timer) -> nat, j: nat, cells: seq<seq<Timer>>, t: Timer)
    requires g >= 1 && |cells| == SLOTS
    ensures Load(f, Insert(g, j, cells, t)) == Load(f, cells) + Times(t, f(SlotFor(g, j, t.expires), t))
  {
    hide Load, CellLoad, SlotFor;
    var c := SlotFor(g, j, t.expires);
    LoadUpdate(f, cells, c, cells[c] + [t]);
    CellLoadPush(f, c, cells[c], t);
    var r, x := Load(f, Insert(g, j, cells, t)), CellLoad(f, c, cells[c]);
    assert r + x == (Load(f, cells) + Times(t, f(c, t))) + x;
    CellSums.Cancel(r, Load(f, cells) + Times(t, f(c, t)), x);
  }

  lemma {:induction false} NoLoad(f: (nat, Timer) -> nat, c: nat, s: seq<Timer>)
    requires forall t | t in s :: f(c, t) == 0
    ensures CellLoad(f, c, s) == multiset{}
  {
    if s != [] { NoLoad(f, c, s[..|s| - 1]); }
  }

  lemma Spread(a: multiset<Timer>, b: multiset<Timer>, c: multiset<Timer>, d: multiset<Timer>, x: multiset<Timer>, y: multiset<Timer>)
    requires a + b == c + d
    ensures (a + y) + (b + x) == c + (d + (x + y))
  {
    assert (a + y) + (b + x) == (a + b) + (x + y) && c + (d + (x + y)) == (c + d) + (x + y);
  }

  // ---- Cascades ----

  /** The moves ahead of a timer while tick j runs and the levels 2..p have cascaded. */
  ghost function MovesFn(g: nat, j: nat, p: nat): (nat, Timer) -> nat
    requires g >= 1
  {
    (c: nat, t: Timer) => Moves(g, LevelOf(c), Next(j, p, LevelOf(c)), t.expires)
  }

  /** The moves ahead of all timers between two ticks, timer by timer. */
  ghost function Ahead(g: nat, w: Wheel): multiset<Timer>
    requires g >= 1
  {
    Load(MovesFn(g, w.jiffies, 1), w.cells)
  }

  lemma UntouchedMoves(g: nat, j: nat, p: Level, c: nat, t: Timer)
    requires g >= 1 && p >= 2 && c < SLOTS && Ok(g, c, Next(j, p - 1, LevelOf(c)), t)
    requires c != Slot(p, j) || !StartsSlot(p, j)
    ensures MovesFn(g, j, p - 1)(c, t) == MovesFn(g, j, p)(c, t)
  {
    hide Visit, LevelFor, Slot, Moves, Sits, StartsSlot;
    if LevelOf(c) == p {
      VisitNow(p, j, t.expires);
      MovesLater(g, p, j, t.expires);
    }
  }

  lemma CascadedMoves(g: nat, j: nat, p: Level, c: nat, t: Timer)
    requires g >= 1 && p >= 2 && c == Slot(p, j) && StartsSlot(p, j) && Ok(g, c, j, t)
    ensures MovesFn(g, j, p - 1)(c, t) == 1 + MovesFn(g, j, p)(SlotFor(g, j, t.expires), t)
    ensures g == 1 ==> LevelOf(SlotFor(g, j, t.expires)) < p
  {
    hide Visit, LevelFor, Slot, Moves, Sits, StartsSlot;
    var e := t.expires;
    assert LevelOf(c) == p && Next(j, p - 1, p) == j;
    VisitNow(p, j, e);
    SitsBounds(g, p, j, e);
    MovesNow(g, p, j, e);
    ArmedSits(g, j, e);
    if g == 1 { CascadeLowers(p, j, e); }
    FireNow(g, p, j, e);
    var l' := LevelFor(g, e - j);
    assert LevelOf(SlotFor(g, j, e)) == l' && Next(j, p, l') == if l' == 1 then j else j + 1;
  }

  lemma {:induction false} InsertAllLoad(g: nat, j: nat, p: Level, c: nat, cells: seq<seq<Timer>>, ts: seq<Timer>)
    requires g >= 1 && p >= 2 && |cells| == SLOTS && c == Slot(p, j) && StartsSlot(p, j)
    requires forall t | t in ts :: Ok(g, c, j, t)
    ensures Load(MovesFn(g, j, p), InsertAll(g, j, cells, ts)) + multiset(ts)
            == Load(MovesFn(g, j, p), cells) + CellLoad(MovesFn(g, j, p - 1), c, ts)
  {
    hide Load, Slot, StartsSlot, SlotFor, Ok, MovesFn;
    if ts != [] {
      var n := |ts| - 1;
      var init, t := ts[..n], ts[n];
      var f, f' := MovesFn(g, j, p - 1), MovesFn(g, j, p);
      InsertAllLoad(g, j, p, c, cells, init);
      InsertLoad(g, f', j, InsertAll(g, j, cells, init), t);
      CascadedMoves(g, j, p, c, t);
      assert multiset(ts) == multiset(init) + multiset{t} by { assert ts == init + [t]; }
      assert Times(t, f(c, t)) == multiset{t} + Times(t, f'(SlotFor(g, j, t.expires), t));
      Spread(Load(f', InsertAll(g, j, cells, init)), multiset(init), Load(f', cells), CellLoad(f, c, init),
             multiset{t}, Times(t, f'(SlotFor(g, j, t.expires), t)));
    } else {
      InsertAllNone(g, j, cells);
    }
  }

  /** A cascade uses up one of the moves ahead of each timer it drains, and none of the others'. */
  lemma CascadeSpends(g: nat, j: nat, p: Level, cells: seq<seq<Timer>>)
    requires g >= 1 && p >= 2 && Inv(g, j, p - 1, cells) && StartsSlot(p, j)
    ensures Load(MovesFn(g, j, p), Cascade(g, j, cells, p)) + multiset(cells[Slot(p, j)]) == Load(MovesFn(g, j, p - 1), cells)
  {
    hide Load, CellLoad, Slot, StartsSlot, Ok, Moves;
    var c := Slot(p, j);
    var rest := cells[c := []];
    assert LevelOf(c) == p && Next(j, p - 1, p) == j;
    forall c': nat, t | c' < SLOTS && t in rest[c'] ensures MovesFn(g, j, p)(c', t) == MovesFn(g, j, p - 1)(c', t) {
      UntouchedMoves(g, j, p, c', t);
    }
    LoadCong(MovesFn(g, j, p), MovesFn(g, j, p - 1), rest);
    LoadUpdate(MovesFn(g, j, p - 1), cells, c, []);
    NoLoad(MovesFn(g, j, p - 1), c, []);
    InsertAllLoad(g, j, p, c, rest, cells[c]);
  }

  /** So the total of moves ahead drops by the number of timers drained. */
  lemma CascadeTotal(g: nat, j: nat, p: Level, cells: seq<seq<Timer>>)
    requires g >= 1 && p >= 2 && Inv(g, j, p - 1, cells) && StartsSlot(p, j)
    ensures |Load(MovesFn(g, j, p), Cascade(g, j, cells, p))| == |Load(MovesFn(g, j, p - 1), cells)| - |cells[Slot(p, j)]|
  {
    hide Load, Slot, StartsSlot, Inv, MovesFn, Cascade;
    CascadeSpends(g, j, p, cells);
  }

  lemma {:induction false} InsertAllHas(g: nat, j: nat, cells: seq<seq<Timer>>, ts: seq<Timer>)
    requires g >= 1 && |cells| == SLOTS
    ensures forall t | t in ts :: t in InsertAll(g, j, cells, ts)[SlotFor(g, j, t.expires)]
    ensures forall c: nat | c < SLOTS && (forall t | t in ts :: SlotFor(g, j, t.expires) != c) :: InsertAll(g, j, cells, ts)[c] == cells[c]
  {
    hide SlotFor;
    if ts != [] {
      var n := |ts| - 1;
      assert ts == ts[..n] + [ts[n]];
      InsertAllHas(g, j, cells, ts[..n]);
      forall t | t in ts ensures t in InsertAll(g, j, cells, ts)[SlotFor(g, j, t.expires)] {
        assert t in ts[..n] || t == ts[n];
      }
    }
  }

  /** With granularity 1 a cascade leaves the slot empty and every timer that was in it on a lower level. */
  lemma CascadeLowersAll(j: nat, p: Level, cells: seq<seq<Timer>>)
    requires p >= 2 && Inv(1, j, p - 1, cells) && StartsSlot(p, j)
    ensures var c := Slot(p, j); var r := Cascade(1, j, cells, p);
            && r[c] == []
            && forall t | t in cells[c] :: var c' := SlotFor(1, j, t.expires); LevelOf(c') < p && t in r[c']
  {
    hide Slot, StartsSlot, SlotFor, Ok, MovesFn, InsertAll;
    var c := Slot(p, j);
    assert LevelOf(c) == p && Next(j, p - 1, p) == j;
    forall t | t in cells[c] ensures LevelOf(SlotFor(1, j, t.expires)) < p {
      CascadedMoves(1, j, p, c, t);
    }
    InsertAllHas(1, j, cells[c := []], cells[c]);
  }

  // ---- A tick ----

  function MaybeDrained(j: nat, cells: seq<seq<Timer>>, p: Level): seq<Timer>
    requires |cells| == SLOTS
  {
    if StartsSlot(p, j) then cells[Slot(p, j)] else []
  }

  /** The timers that the cascades of tick j take out of their slots, one entry for each time. */
  function Drained(g: nat, j: nat, cells: seq<seq<Timer>>): seq<Timer>
    requires g >= 1 && |cells| == SLOTS
  {
    var c2 := MaybeCascade(g, j, cells, 2);
    var c3 := MaybeCascade(g, j, c2, 3);
    var c4 := MaybeCascade(g, j, c3, 4);
    MaybeDrained(j, cells, 2) + MaybeDrained(j, c2, 3) + MaybeDrained(j, c3, 4) + MaybeDrained(j, c4, 5)
  }

  lemma MaybeSpends(g: nat, j: nat, p: Level, cells: seq<seq<Timer>>)
    requires g >= 1 && p >= 2 && Inv(g, j, p - 1, cells)
    ensures Inv(g, j, p, MaybeCascade(g, j, cells, p))
    ensures Load(MovesFn(g, j, p), MaybeCascade(g, j, cells, p)) + multiset(MaybeDrained(j, cells, p))
            == Load(MovesFn(g, j, p - 1), cells)
  {
    hide Load, Slot, StartsSlot, Ok, MovesFn, Cascade;
    MaybeCascadeDues(g, j, p, cells);
    if StartsSlot(p, j) {
      CascadeSpends(g, j, p, cells);
    } else {
      forall c: nat, t | c < |cells| && t in cells[c] ensures MovesFn(g, j, p)(c, t) == MovesFn(g, j, p - 1)(c, t) {
        UntouchedMoves(g, j, p, c, t);
      }
      LoadCong(MovesFn(g, j, p), MovesFn(g, j, p - 1), cells);
    }
  }

  /** The cascades of a tick use up one move of a timer for each time they take it out of a slot. */
  lemma CascadesSpend(g: nat, j: nat, cells: seq<seq<Timer>>)
    requires g >= 1 && Inv(g, j, 1, cells)
    ensures Load(MovesFn(g, j, 5), Cascades(g, j, cells)) + multiset(Drained(g, j, cells)) == Load(MovesFn(g, j, 1), cells)
  {
    assert |cells| == SLOTS;
    hide Load, MaybeCascade, MaybeDrained, MovesFn, Cascades, Inv;
    CascadesIs(g, j, cells);
    var c2 := MaybeCascade(g, j, cells, 2);
    var c3 := MaybeCascade(g, j, c2, 3);
    var c4 := MaybeCascade(g, j, c3, 4);
    MaybeSpends(g, j, 2, cells);
    MaybeSpends(g, j, 3, c2);
    MaybeSpends(g, j, 4, c3);
    MaybeSpends(g, j, 5, c4);
  }

  /** The moves ahead of the timers that are armed again after firing at tick j. */
  ghost function RearmLoad(g: nat, j: nat, ts: seq<Timer>): multiset<Timer>
    requires g >= 1
  {
    if ts == [] then multiset{} else
    var t := ts[|ts| - 1];
    RearmLoad(g, j, ts[..|ts| - 1]) +
    if t.period != 0 then Times(Rearmed(j, t), Moves(g, LevelFor(g, t.period), j + 1, j + t.period)) else multiset{}
  }

  lemma RearmedMoves(g: nat, j: nat, t: Timer)
    requires g >= 1 && t.period != 0 && j + t.period < WORD
    ensures var t' := Rearmed(j, t);
            MovesFn(g, j + 1, 1)(SlotFor(g, j, t'.expires), t') == Moves(g, LevelFor(g, t.period), j + 1, j + t.period)
  {
    hide Visit, LevelFor, Slot, Moves, Sits;
    var e := j + t.period;
    assert Rearmed(j, t).expires == e;
    ArmedSits(g, j, e);
    assert LevelOf(SlotFor(g, j, e)) == LevelFor(g, t.period);
  }

  lemma MovesOne(g: nat, j: nat, e: nat)
    requires g >= 1
    ensures Moves(g, 1, j, e) == 0
  {
  }

  lemma {:induction false} RearmAddsLoad(g: nat, j: nat, cells: seq<seq<Timer>>, ts: seq<Timer>)
    requires g >= 1 && |cells| == SLOTS && forall t | t in ts :: j + t.period < WORD
    ensures Load(MovesFn(g, j + 1, 1), Rearm(g, j, cells, ts)) == Load(MovesFn(g, j + 1, 1), cells) + RearmLoad(g, j, ts)
  {
    hide Load, CellLoad, MovesFn, SlotFor, Moves, LevelFor, Rearmed, Times, Insert;
    if ts != [] {
      var init, t := ts[..|ts| - 1], ts[|ts| - 1];
      var f, m := MovesFn(g, j + 1, 1), Moves(g, LevelFor(g, t.period), j + 1, j + t.period);
      RearmAddsLoad(g, j, cells, init);
      if t.period != 0 {
        InsertLoad(g, f, j, Rearm(g, j, cells, init), Rearmed(j, t));
        RearmedMoves(g, j, t);
        Assoc(Load(f, cells), RearmLoad(g, j, init), Times(Rearmed(j, t), m));
      }
    }
  }

  lemma FiringLoad(g: nat, j: nat, cells: seq<seq<Timer>>)
    requires g >= 1 && |cells| == SLOTS
    ensures Load(MovesFn(g, j + 1, 1), cells[Slot(1, j) := []]) == Load(MovesFn(g, j, 5), cells)
  {
    hide Load, CellLoad, Slot, Moves;
    var c, f, f' := Slot(1, j), MovesFn(g, j, 5), MovesFn(g, j + 1, 1);
    LoadUpdate(f, cells, c, []);
    NoLoad(f, c, []);
    forall t | t in cells[c] ensures f(c, t) == 0 {
      MovesOne(g, j, t.expires);
    }
    NoLoad(f, c, cells[c]);
    var rest := cells[c := []];
    CellSums.Cancel(Load(f, rest), Load(f, cells), multiset{});
    forall i: nat, t | i < |rest| && t in rest[i] ensures f'(i, t) == f(i, t) {
      MovesOne(g, j, t.expires);
      MovesOne(g, j + 1, t.expires);
      var l := LevelOf(i);
      assert l >= 2 ==> Next(j, 5, l) == j + 1 == Next(j + 1, 1, l);
    }
    LoadCong(f', f, rest);
  }

  /** What a tick does to the moves ahead: each drained timer has one fewer, and the timers armed again bring
      new ones. */
  lemma TickSpends(g: nat, w: Wheel)
    requires g >= 1 && WheelInv(g, w) && Fits(w, w.jiffies)
    ensures Ahead(g, Tick(g, w)) + multiset(Drained(g, w.jiffies, w.cells)) == Ahead(g, w) + RearmLoad(g, w.jiffies, Fired(g, w))
  {
    hide Load, MovesFn, Slot, Cascades, Drained, RearmLoad, Rearm, Ok;
    var j := w.jiffies;
    CascadesSpend(g, j, w.cells);
    FiringLoad(g, j, Cascades(g, j, w.cells));
    FiredFits(g, w);
    RearmAddsLoad(g, j, Cascades(g, j, w.cells)[Slot(1, j) := []], Fired(g, w));
    Around(Load(MovesFn(g, j, 5), Cascades(g, j, w.cells)), RearmLoad(g, j, Fired(g, w)),
           multiset(Drained(g, j, w.cells)), Load(MovesFn(g, j, 1), w.cells));
  }

  lemma Assoc(a: multiset<Timer>, b: multiset<Timer>, c: multiset<Timer>)
    ensures (a + b) + c == a + (b + c)
  {
  }

  lemma Around(a: multiset<Timer>, b: multiset<Timer>, c: multiset<Timer>, d: multiset<Timer>)
    requires a + c == d
    ensures (a + b) + c == d + b
  {
    assert (a + b) + c == (a + c) + b;
  }

  // ---- Runs, with granularity 1 ----

  /** A run with its cost. Every arming of a timer - by create_timer or after a firing - makes a different
      value, since the expiry is part of it; `armed` counts the armings and `moves` the moves, arming by arming. */
  datatype Moved = Moved(h: History, armed: multiset<Timer>, moves: multiset<Timer>)

  function Rearmings(j: nat, ts: seq<Timer>): multiset<Timer> {
    if ts == [] then multiset{} else
    var t := ts[|ts| - 1];
    Rearmings(j, ts[..|ts| - 1]) + if t.period != 0 then multiset{Rearmed(j, t)} else multiset{}
  }

  function MovedTick(g: nat, x: Moved): (r: Moved)
    requires g >= 1 && |x.h.wheel.cells| == SLOTS
    ensures r.h == HistoryTick(g, x.h)
  {
    var j := x.h.wheel.jiffies;
    Moved(HistoryTick(g, x.h), x.armed + Rearmings(j, Fired(g, x.h.wheel)), x.moves + multiset(Drained(g, j, x.h.wheel.cells)))
  }

  function MovedAdvanced(g: nat, x: Moved, now: int): (r: Moved)
    requires g >= 1 && |x.h.wheel.cells| == SLOTS
    ensures r.h == Advanced(g, x.h, now)
    decreases now - x.h.wheel.jiffies
  {
    AdvancedStep(g, x.h, now);
    if x.h.wheel.jiffies <= now then MovedAdvanced(g, MovedTick(g, x), now) else x
  }

  function MovedApply(g: nat, x: Moved, e: Event): (r: Moved)
    requires g >= 1 && Enabled(x.h, e)
    ensures r.h == Apply(g, x.h, e)
  {
    match e
    case NewTimer(due, period, cb) =>
      var h' := Apply(g, x.h, e);
      Moved(h', x.armed + multiset{h'.born[x.h.next]}, x.moves)
    case DropTimer(slot, pos) => x.(h := Apply(g, x.h, e))
    case Advance(now) => MovedAdvanced(g, x, now)
  }

  /** Moves made and moves ahead together are at most four for each arming, no arming is repeated, and a live
      timer's expiry is the latest of its armings. */
  ghost predicate MoveInv(x: Moved) {
    && HistoryInv(1, x.h)
    && (forall t :: x.moves[t] + Ahead(1, x.h.wheel)[t] <= 4 * x.armed[t])
    && (forall t :: x.armed[t] <= 1)
    && (forall t | t in x.armed :: t.id < x.h.next)
    && Latest(x.armed, x.h.wheel)
  }

  ghost predicate Latest(armed: multiset<Timer>, w: Wheel) {
    forall t, c: nat, u | t in armed && c < |w.cells| && u in w.cells[c] && u.id == t.id :: t.expires <= u.expires
  }

  lemma MovesAtMostFour(due: nat, n: nat, e: nat)
    requires n <= e < WORD && Sits(1, LevelFor(1, due), n, e)
    ensures Moves(1, LevelFor(1, due), n, e) <= 4
  {
    hide Moves, Sits, LevelFor;
    FewMoves(LevelFor(1, due), n, e);
  }

  lemma RearmedAtMostFour(j: nat, t: Timer)
    requires t.period != 0 && j + t.period < WORD
    ensures Moves(1, LevelFor(1, t.period), j + 1, j + t.period) <= 4
  {
    hide Moves, Sits, LevelFor;
    ArmedSits(1, j, j + t.period);
    MovesAtMostFour(t.period, j + 1, j + t.period);
  }

  lemma {:induction false} RearmLoadBound(j: nat, ts: seq<Timer>)
    requires forall t | t in ts :: j + t.period < WORD
    ensures forall t :: RearmLoad(1, j, ts)[t] <= 4 * Rearmings(j, ts)[t]
  {
    hide Moves, LevelFor, Rearmed, Times;
    if ts != [] {
      var init, t := ts[..|ts| - 1], ts[|ts| - 1];
      RearmLoadBound(j, init);
      if t.period != 0 {
        RearmedAtMostFour(j, t);
        BoundPush(RearmLoad(1, j, init), Rearmings(j, init), Rearmed(j, t), Moves(1, LevelFor(1, t.period), j + 1, j + t.period));
      }
    }
  }

  lemma BoundPush(a: multiset<Timer>, b: multiset<Timer>, x: Timer, m: nat)
    requires m <= 4 && forall t :: a[t] <= 4 * b[t]
    ensures forall t :: (a + Times(x, m))[t] <= 4 * (b + multiset{x})[t]
  {
  }

  lemma {:induction false} RearmingsFrom(j: nat, ts: seq<Timer>, t: Timer)
    requires t in Rearmings(j, ts)
    ensures exists i :: 0 <= i < |ts| && ts[i].period != 0 && t == Rearmed(j, ts[i])
  {
    var n := |ts| - 1;
    if ts[n].period != 0 && t == Rearmed(j, ts[n]) {
    } else {
      RearmingsFrom(j, ts[..n], t);
      var i :| 0 <= i < n && ts[..n][i].period != 0 && t == Rearmed(j, ts[..n][i]);
      assert ts[i] == ts[..n][i];
    }
  }

  lemma {:induction false} RearmingsNumbers(j: nat, ts: seq<Timer>, id: nat)
    requires forall i: nat | i < |ts| :: ts[i].id != id
    ensures forall t | t in Rearmings(j, ts) :: t.id != id
  {
    if ts != [] { RearmingsNumbers(j, ts[..|ts| - 1], id); }
  }

  /** Timers of different numbers are armed again as different values. */
  lemma {:induction false} RearmingsOnce(j: nat, ts: seq<Timer>)
    requires forall i: nat, k: nat | k < i < |ts| :: ts[i].id != ts[k].id
    ensures forall t :: Rearmings(j, ts)[t] <= 1
  {
    if ts != [] {
      var n := |ts| - 1;
      assert forall i: nat, k: nat | k < i < n :: ts[..n][i].id != ts[..n][k].id;
      RearmingsOnce(j, ts[..n]);
      RearmingsNumbers(j, ts[..n], ts[n].id);
      assert Rearmed(j, ts[n]) !in Rearmings(j, ts[..n]);
    }
  }

  /** With granularity 1 a timer fires at its expiry. */
  lemma FiredNow(h: History, i: nat) returns (c: nat)
    requires HistoryInv(1, h) && Fits(h.wheel, h.wheel.jiffies) && i < |Fired(1, h.wheel)|
    ensures var j, t := h.wheel.jiffies, Fired(1, h.wheel)[i];
            t.expires == j && t.id < h.next && j + t.period < WORD && c < SLOTS && t in h.wheel.cells[c]
  {
    hide Ok, Slot, Cascades, Conserved, OnSchedule, WellTimed, NextExpiry, Fired, Fits;
    var w, t := h.wheel, Fired(1, h.wheel)[i];
    FiredBounds(1, w, t);
    FiredFits(1, w);
    FiredOnSchedule(1, h, i);
    c := FiredFrom(1, w, t);
  }

  lemma FiredFrom(g: nat, w: Wheel, t: Timer) returns (c: nat)
    requires g >= 1 && |w.cells| == SLOTS && t in Fired(g, w)
    ensures c < SLOTS && t in w.cells[c]
  {
    hide Slot, Cascades;
    c := CascadesFrom(g, w.jiffies, w.cells, Slot(1, w.jiffies), t);
  }

  lemma CellCount(h: History)
    requires HistoryInv(1, h)
    ensures |h.wheel.cells| == SLOTS
  {
  }

  lemma RearmingNumber(j: nat, ts: seq<Timer>, t: Timer) returns (i: nat)
    requires t in Rearmings(j, ts)
    ensures i < |ts| && ts[i].period != 0 && t == Rearmed(j, ts[i])
  {
    RearmingsFrom(j, ts, t);
    i :| 0 <= i < |ts| && ts[i].period != 0 && t == Rearmed(j, ts[i]);
  }

  /** A timer armed again at its tick has a later expiry than any arming before. */
  lemma RearmedIsNew(h: History, armed: multiset<Timer>, i: nat)
    requires HistoryInv(1, h) && Fits(h.wheel, h.wheel.jiffies) && Latest(armed, h.wheel)
    requires |h.wheel.cells| == SLOTS && i < |Fired(1, h.wheel)| && Fired(1, h.wheel)[i].period != 0
    ensures var j, f := h.wheel.jiffies, Fired(1, h.wheel)[i]; var t := Rearmed(j, f);
            && t !in armed && t.id == f.id < h.next && t.expires > j
            && (forall u | u in armed && u.id == t.id :: u.expires <= j)
  {
    hide HistoryInv, Fired, Fits, Latest;
    var w, j, f := h.wheel, h.wheel.jiffies, Fired(1, h.wheel)[i];
    var c := FiredNow(h, i);
    forall u | u in armed && u.id == f.id ensures u.expires <= j {
      LatestAt(armed, w, u, c, f);
    }
  }

  lemma LatestAt(armed: multiset<Timer>, w: Wheel, t: Timer, c: nat, u: Timer)
    requires Latest(armed, w) && c < |w.cells| && u in w.cells[c] && u.id == t.id
    ensures t in armed ==> t.expires <= u.expires
  {
  }

  // ---- The invariant ----

  /** Timers that fire together have different numbers, and so have those that stay. */
  ghost predicate Apart(ts: seq<Timer>, rest: seq<seq<Timer>>) {
    && (forall i: nat, k: nat | k < i < |ts| :: ts[i].id != ts[k].id)
    && (forall c: nat, t: Timer, i: nat | c < |rest| && t in rest[c] && i < |ts| :: t.id != ts[i].id)
  }

  /** What a tick leaves in the slots before it arms timers again. */
  function Staying(w: Wheel): seq<seq<Timer>>
    requires |w.cells| == SLOTS
  {
    Cascades(1, w.jiffies, w.cells)[Slot(1, w.jiffies) := []]
  }

  lemma NumbersApart(h: History)
    requires HistoryInv(1, h) && |h.wheel.cells| == SLOTS
    ensures Apart(Fired(1, h.wheel), Staying(h.wheel))
  {
    hide Ok, Cascades, Slot, LiveIds, OnSchedule, WellTimed;
    FiredApart(1, h.wheel);
  }

  lemma TickKeepsArmed(h: History, armed: multiset<Timer>)
    requires HistoryInv(1, h) && Fits(h.wheel, h.wheel.jiffies) && Latest(armed, h.wheel) && |h.wheel.cells| == SLOTS
    requires (forall t :: armed[t] <= 1) && forall t | t in armed :: t.id < h.next
    ensures var r := armed + Rearmings(h.wheel.jiffies, Fired(1, h.wheel));
            (forall t :: r[t] <= 1) && forall t | t in r :: t.id < h.next
  {
    hide HistoryInv, Latest, Fits, Fired, Rearmings;
    var j, ts := h.wheel.jiffies, Fired(1, h.wheel);
    NumbersApart(h);
    RearmingsOnce(j, ts);
    hide Apart;
    forall t | t in Rearmings(j, ts) ensures t !in armed && t.id < h.next {
      var i := RearmingNumber(j, ts, t);
      RearmedIsNew(h, armed, i);
    }
  }

  lemma StayedLatest(h: History, armed: multiset<Timer>, c: nat, u: Timer, t: Timer)
    requires |h.wheel.cells| == SLOTS && Latest(armed, h.wheel) && Apart(Fired(1, h.wheel), Staying(h.wheel))
    requires c < SLOTS && u in Staying(h.wheel)[c] && u.id == t.id
    ensures t in armed + Rearmings(h.wheel.jiffies, Fired(1, h.wheel)) ==> t.expires <= u.expires
  {
    hide Latest, Cascades, Slot;
    var c' := CascadesFrom(1, h.wheel.jiffies, h.wheel.cells, c, u);
    LatestAt(armed, h.wheel, t, c', u);
    RearmingsNumbers(h.wheel.jiffies, Fired(1, h.wheel), u.id);
  }

  lemma RearmedLatest(h: History, armed: multiset<Timer>, i: nat, t: Timer)
    requires HistoryInv(1, h) && Fits(h.wheel, h.wheel.jiffies) && Latest(armed, h.wheel)
    requires |h.wheel.cells| == SLOTS && i < |Fired(1, h.wheel)| && Fired(1, h.wheel)[i].period != 0
    requires Apart(Fired(1, h.wheel), Staying(h.wheel)) && t.id == Fired(1, h.wheel)[i].id
    requires t in armed + Rearmings(h.wheel.jiffies, Fired(1, h.wheel))
    ensures t.expires <= Rearmed(h.wheel.jiffies, Fired(1, h.wheel)[i]).expires
  {
    hide HistoryInv, Latest, Fits, Fired, Staying, Rearmings;
    RearmedIsNew(h, armed, i);
    if t in Rearmings(h.wheel.jiffies, Fired(1, h.wheel)) {
      var k := RearmingNumber(h.wheel.jiffies, Fired(1, h.wheel), t);
      SameNumber(Fired(1, h.wheel), Staying(h.wheel), i, k);
    }
  }

  lemma SameNumber(ts: seq<Timer>, rest: seq<seq<Timer>>, i: nat, k: nat)
    requires Apart(ts, rest) && i < |ts| && k < |ts| && ts[i].id == ts[k].id
    ensures i == k
  {
  }

  lemma TickKeepsLatest(h: History, armed: multiset<Timer>)
    requires HistoryInv(1, h) && Fits(h.wheel, h.wheel.jiffies) && Latest(armed, h.wheel) && |h.wheel.cells| == SLOTS
    ensures Latest(armed + Rearmings(h.wheel.jiffies, Fired(1, h.wheel)), Tick(1, h.wheel))
  {
    hide HistoryInv, Cascades, Slot, Fits, Latest, Rearmings, Apart;
    NumbersApart(h);
    var w, j, ts := h.wheel, h.wheel.jiffies, Fired(1, h.wheel);
    forall t, c: nat, u | t in armed + Rearmings(j, ts) && c < SLOTS && u in Tick(1, w).cells[c] && u.id == t.id
      ensures t.expires <= u.expires
    {
      RearmFrom(1, j, Staying(w), ts, c, u);
      if u in Staying(w)[c] {
        StayedLatest(h, armed, c, u, t);
      } else {
        var i :| 0 <= i < |ts| && ts[i].period != 0 && u == Rearmed(j, ts[i]);
        RearmedLatest(h, armed, i, t);
      }
    }
    LatestFrom(armed + Rearmings(j, ts), Tick(1, w));
  }

  lemma LatestFrom(armed: multiset<Timer>, w: Wheel)
    requires forall t, c: nat, u | t in armed && c < |w.cells| && u in w.cells[c] && u.id == t.id :: t.expires <= u.expires
    ensures Latest(armed, w)
  {
  }

  lemma TickKeepsMoveInv(x: Moved)
    requires MoveInv(x) && Fits(x.h.wheel, x.h.wheel.jiffies)
    ensures |x.h.wheel.cells| == SLOTS && MoveInv(MovedTick(1, x))
  {
    CellCount(x.h);
    hide HistoryInv, Ahead, Latest, Fits, Fired, Drained, Rearmings, RearmLoad, Tick;
    var w, j, ts, r := x.h.wheel, x.h.wheel.jiffies, Fired(1, x.h.wheel), MovedTick(1, x);
    TickKeepsHistoryInv(1, x.h);
    TickKeepsArmed(x.h, x.armed);
    TickKeepsLatest(x.h, x.armed);
    WheelOf(x.h);
    TickSpends(1, w);
    FiredFits(1, w);
    RearmLoadBound(j, ts);
    assert r.h.wheel == Tick(1, w);
    forall t ensures r.moves[t] + Ahead(1, r.h.wheel)[t] <= 4 * r.armed[t] {
      assert (Ahead(1, Tick(1, w)) + multiset(Drained(1, j, w.cells)))[t] == (Ahead(1, w) + RearmLoad(1, j, ts))[t];
    }
  }

  lemma WheelOf(h: History)
    requires HistoryInv(1, h)
    ensures WheelInv(1, h.wheel)
  {
  }

  lemma {:induction false} AdvanceKeepsMoveInv(x: Moved, now: int)
    requires MoveInv(x) && now < WORD && (x.h.wheel.jiffies <= now ==> Fits(x.h.wheel, now))
    ensures |x.h.wheel.cells| == SLOTS && MoveInv(MovedAdvanced(1, x, now))
    decreases now - x.h.wheel.jiffies
  {
    CellCount(x.h);
    hide MoveInv, Tick;
    if x.h.wheel.jiffies <= now {
      assert Fits(x.h.wheel, x.h.wheel.jiffies);
      TickKeepsMoveInv(x);
      TickKeepsFits(1, x.h.wheel, now);
      AdvanceKeepsMoveInv(MovedTick(1, x), now);
    }
  }

  lemma NewTimerLoad(w: Wheel, id: nat, due: nat, period: nat, cb: Callback)
    requires |w.cells| == SLOTS && w.jiffies + due < WORD
    ensures forall t :: Ahead(1, Create(1, w, id, due, period, cb))[t]
              <= Ahead(1, w)[t] + if t == Timer(id, w.jiffies + due, period, cb) then 4 else 0
  {
    hide Load, MovesFn, LevelFor, Sits, Moves, Insert, SlotFor;
    var t, f := Timer(id, w.jiffies + due, period, cb), MovesFn(1, w.jiffies, 1);
    InsertLoad(1, f, w.jiffies, w.cells, t);
    NewTimerMoves(w.jiffies, t, due);
  }

  lemma NewTimerMoves(j: nat, t: Timer, due: nat)
    requires t.expires == j + due < WORD
    ensures MovesFn(1, j, 1)(SlotFor(1, j, t.expires), t) <= 4
  {
    hide LevelFor, Sits, Moves, Slot;
    ArmedSits(1, j, t.expires);
    assert t.expires - j == due && LevelOf(SlotFor(1, j, t.expires)) == LevelFor(1, due);
    assert Next(j, 1, LevelFor(1, due)) == j;
    MovesAtMostFour(due, j, t.expires);
  }

  lemma NewTimerKeepsMoveInv(x: Moved, e: Event)
    requires MoveInv(x) && e.NewTimer? && Enabled(x.h, e)
    ensures MoveInv(MovedApply(1, x, e))
  {
    hide HistoryInv, Ahead, Latest, Create;
    CellCount(x.h);
    var r := MovedApply(1, x, e);
    var t := r.h.born[x.h.next];
    NewTimerKeepsHistoryInv(1, x.h, e.due, e.period, e.callback);
    NewTimerLoad(x.h.wheel, x.h.next, e.due, e.period, e.callback);
    assert r.armed == x.armed + multiset{t};
    NewTimerLatest(x, e);
  }

  lemma NewTimerLatest(x: Moved, e: Event)
    requires MoveInv(x) && e.NewTimer? && Enabled(x.h, e)
    ensures Latest(x.armed + multiset{Apply(1, x.h, e).born[x.h.next]}, Apply(1, x.h, e).wheel)
  {
    hide WheelInv, Conserved, WellTimed, NextExpiry, Ahead, SlotFor;
    var h' := Apply(1, x.h, e);
    var t' := h'.born[x.h.next];
    forall c: nat, u | c < SLOTS && u in h'.wheel.cells[c] ensures u == t' || (u in x.h.wheel.cells[c] && u.id < x.h.next) {
      if u in x.h.wheel.cells[c] { assert Born(x.h, u); }
    }
  }

  lemma DropLoad(w: Wheel, c: nat, k: nat)
    requires |w.cells| == SLOTS && c < SLOTS && k < |w.cells[c]|
    ensures forall t :: Ahead(1, Delete(w, c, k))[t] <= Ahead(1, w)[t]
  {
    hide Load, CellLoad, MovesFn;
    var f, s := MovesFn(1, w.jiffies, 1), w.cells[c];
    LoadUpdate(f, w.cells, c, Without(s, k));
    WithoutLoad(f, c, s, k);
    forall t ensures Ahead(1, Delete(w, c, k))[t] <= Ahead(1, w)[t] {
      assert (Load(f, w.cells[c := Without(s, k)]) + CellLoad(f, c, s))[t] == (Load(f, w.cells) + CellLoad(f, c, Without(s, k)))[t];
    }
  }

  lemma {:induction false} WithoutLoad(f: (nat, Timer) -> nat, c: nat, s: seq<Timer>, k: nat)
    requires k < |s|
    ensures forall t :: CellLoad(f, c, Without(s, k))[t] <= CellLoad(f, c, s)[t]
  {
    hide CellLoad, Times, Without;
    var n := |s| - 1;
    var init, x := s[..n], Times(s[n], f(c, s[n]));
    CellLoadPush(f, c, init, s[n]);
    assert s == init + [s[n]];
    WithoutSplit(s, k);
    if k < n {
      WithoutLoad(f, c, init, k);
      CellLoadPush(f, c, Without(init, k), s[n]);
      MorePush(CellLoad(f, c, Without(init, k)), CellLoad(f, c, init), x);
    } else {
      assert forall t :: (CellLoad(f, c, init) + x)[t] >= CellLoad(f, c, init)[t];
    }
  }

  lemma WithoutSplit(s: seq<Timer>, k: nat)
    requires k < |s|
    ensures var n := |s| - 1; Without(s, k) == if k == n then s[..n] else Without(s[..n], k) + [s[n]]
  {
  }

  lemma MorePush(a: multiset<Timer>, b: multiset<Timer>, x: multiset<Timer>)
    requires forall t :: a[t] <= b[t]
    ensures forall t :: (a + x)[t] <= (b + x)[t]
  {
  }

  lemma DropTimerKeepsMoveInv(x: Moved, e: Event)
    requires MoveInv(x) && e.DropTimer? && Enabled(x.h, e)
    ensures MoveInv(MovedApply(1, x, e))
  {
    hide HistoryInv, Ahead;
    CellCount(x.h);
    DropTimerKeepsHistoryInv(1, x.h, e.slot, e.pos);
    DropLoad(x.h.wheel, e.slot, e.pos);
    var w' := Delete(x.h.wheel, e.slot, e.pos);
    forall c: nat, u | c < SLOTS && u in w'.cells[c] ensures u in x.h.wheel.cells[c] {
    }
  }

  ghost predicate IsMovedRun(xs: seq<Moved>, es: seq<Event>) {
    && |xs| == |es| + 1 && Start(xs[0].h) && xs[0].armed == xs[0].moves == multiset{}
    && forall i | 0 <= i < |es| :: Enabled(xs[i].h, es[i]) && xs[i + 1] == MovedApply(1, xs[i], es[i])
  }

  lemma {:induction false} EmptyLoad(f: (nat, Timer) -> nat, n: nat)
    ensures Load(f, EmptyCells(n)) == multiset{}
  {
    if n > 0 {
      EmptyLoad(f, n - 1);
      assert EmptyCells(n)[..n - 1] == EmptyCells(n - 1);
    }
  }

  lemma StartMoveInv(x: Moved)
    requires Start(x.h) && x.armed == x.moves == multiset{}
    ensures MoveInv(x)
  {
    StartInv(1, x.h);
    EmptyLoad(MovesFn(1, x.h.wheel.jiffies, 1), SLOTS);
  }

  lemma {:induction false} RunKeepsMoveInv(xs: seq<Moved>, es: seq<Event>)
    requires IsMovedRun(xs, es)
    ensures forall i | 0 <= i < |xs| :: MoveInv(xs[i])
  {
    hide MoveInv, MovedApply;
    var n := |es|;
    if n == 0 {
      StartMoveInv(xs[0]);
    } else {
      RunKeepsMoveInv(xs[..n], es[..n - 1]);
      assert xs[n - 1] == xs[..n][n - 1];
      ApplyKeepsMoveInv(xs[n - 1], es[n - 1]);
      forall i | 0 <= i < |xs| ensures MoveInv(xs[i]) {
        if i < n { assert xs[i] == xs[..n][i]; }
      }
    }
  }

  lemma ApplyKeepsMoveInv(x: Moved, e: Event)
    requires MoveInv(x) && Enabled(x.h, e)
    ensures MoveInv(MovedApply(1, x, e))
  {
    hide MoveInv, Fits;
    match e
    case NewTimer(_, _, _) => NewTimerKeepsMoveInv(x, e);
    case DropTimer(_, _) => DropTimerKeepsMoveInv(x, e);
    case Advance(now) =>
      AdvanceFits(x.h.wheel, now);
      AdvanceKeepsMoveInv(x, now);
  }

  lemma AdvanceFits(w: Wheel, now: nat)
    requires Fits(w, now)
    ensures now < WORD
  {
  }

  /** The cost of a timer: in every run with granularity 1, an arming - from create_timer, or from a firing, to
      the next firing or the deletion - is moved at most four times, and is made once. */
  lemma FewMovesPerArming(xs: seq<Moved>, es: seq<Event>, i: nat, t: Timer)
    requires IsMovedRun(xs, es) && i < |xs|
    ensures xs[i].moves[t] <= 4 * xs[i].armed[t] && xs[i].armed[t] <= 1
  {
    hide HistoryInv, Latest, Ahead;
    RunKeepsMoveInv(xs, es);
    assert MoveInv(xs[i]);
  }

  /** The total: moves made and moves ahead together never exceed four for each arming. */
  lemma MovesMadeAndAhead(xs: seq<Moved>, es: seq<Event>, i: nat, t: Timer)
    requires IsMovedRun(xs, es) && i < |xs|
    ensures xs[i].moves[t] + Ahead(1, xs[i].h.wheel)[t] <= 4
  {
    hide HistoryInv, Latest, Ahead;
    RunKeepsMoveInv(xs, es);
    assert MoveInv(xs[i]);
  }

  /** The runs with their cost are the runs of the timer module. */
  lemma CostedRun(xs: seq<Moved>, es: seq<Event>)
    requires IsMovedRun(xs, es)
    ensures IsRun(1, seq(|xs|, i requires 0 <= i < |xs| => xs[i].h), es)
  {
    hide MovedApply, Apply;
  }
}
