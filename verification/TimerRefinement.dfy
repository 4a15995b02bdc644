/** The wheel refines a plain agenda of timers, each with the one tick at which it is going to fire. */
module TimerRefinement {
  import opened Arith
  import opened TimerWheel
  import opened TimerFiring
  import opened CellSums

  /** An entry of the agenda: `timer` fires at tick `at`. */
  datatype Due = Due(timer: Timer, at: nat)

  /** While tick j runs and the levels 2..p have cascaded: the first tick yet to visit level l. */
  function Next(j: nat, p: nat, l: Level): nat { if 2 <= l <= p then j + 1 else j }

  predicate Ok(g: nat, c: nat, n: nat, t: Timer)
    requires g >= 1
  {
    Slot(LevelOf(c), t.expires) == c && Sits(g, LevelOf(c), n, t.expires)
  }

  ghost predicate Inv(g: nat, j: nat, p: nat, cells: seq<seq<Timer>>)
    requires g >= 1
  {
    && |cells| == SLOTS
    && forall c: nat, t | c < SLOTS && t in cells[c] :: Ok(g, c, Next(j, p, LevelOf(c)), t)
  }

  /** The wheel invariant, between two ticks. */
  ghost predicate WheelInv(g: nat, w: Wheel)
    requires g >= 1
  {
    Inv(g, w.jiffies, 1, w.cells)
  }

  ghost function DueFn(g: nat, j: nat, p: nat): (nat, Timer) -> Due
    requires g >= 1
  {
    (c: nat, t: Timer) => Due(t, FireAt(g, LevelOf(c), Next(j, p, LevelOf(c)), t.expires))
  }

  /** The agenda a wheel stands for. */
  ghost function Pending(g: nat, w: Wheel): multiset<Due>
    requires g >= 1
  {
    Sum(DueFn(g, w.jiffies, 1), w.cells)
  }

  lemma InsertKeepsInv(g: nat, j: nat, p: nat, cells: seq<seq<Timer>>, t: Timer)
    requires g >= 1 && Inv(g, j, p, cells) && j <= t.expires < WORD
    ensures Inv(g, j, p, Insert(g, j, cells, t))
  {
    hide Visit, Block, LevelFor, Slot, FireAt, Sits, StartsSlot;
    ArmedSits(g, j, t.expires);
  }

  /** Placing a timer again during the cascade of level p keeps the tick at which it fires. */
  lemma CascadedDue(g: nat, j: nat, p: Level, c: nat, t: Timer)
    requires g >= 1 && p >= 2 && c == Slot(p, j) && StartsSlot(p, j) && Ok(g, c, j, t)
    ensures DueFn(g, j, p - 1)(c, t) == DueFn(g, j, p)(SlotFor(g, j, t.expires), t)
  {
    hide Visit, Block, LevelFor, Slot, FireAt, Sits, StartsSlot;
    var e := t.expires;
    assert LevelOf(c) == p && Next(j, p - 1, p) == j;
    VisitNow(p, j, e);
    FireNow(g, p, j, e);
    SitsBounds(g, p, j, e);
    ArmedSits(g, j, e);
    var l' := LevelFor(g, e - j);
    assert LevelOf(SlotFor(g, j, e)) == l';
    assert Next(j, p, l') == if l' == 1 then j else j + 1;
  }

  /** A timer that the cascade of level p leaves alone: it may stay, and fires at the same tick. */
  lemma UntouchedDue(g: nat, j: nat, p: Level, c: nat, t: Timer)
    requires g >= 1 && p >= 2 && c < SLOTS && Ok(g, c, Next(j, p - 1, LevelOf(c)), t)
    requires c != Slot(p, j) || !StartsSlot(p, j)
    ensures Ok(g, c, Next(j, p, LevelOf(c)), t) && DueFn(g, j, p - 1)(c, t) == DueFn(g, j, p)(c, t)
  {
    hide Visit, Block, LevelFor, Slot, FireAt, Sits, StartsSlot;
    if LevelOf(c) == p {
      VisitNow(p, j, t.expires);
      FireLater(g, p, j, t.expires);
    }
  }

  /** Level p does not cascade at a tick inside one of its slots. */
  lemma NoCascade(g: nat, j: nat, p: Level, cells: seq<seq<Timer>>)
    requires g >= 1 && p >= 2 && Inv(g, j, p - 1, cells) && !StartsSlot(p, j)
    ensures Inv(g, j, p, cells) && Sum(DueFn(g, j, p), cells) == Sum(DueFn(g, j, p - 1), cells)
  {
    hide Visit, Block, LevelFor, Slot, FireAt, Sits, StartsSlot;
    forall c: nat, t | c < SLOTS && t in cells[c]
      ensures Ok(g, c, Next(j, p, LevelOf(c)), t) && DueFn(g, j, p - 1)(c, t) == DueFn(g, j, p)(c, t)
    {
      UntouchedDue(g, j, p, c, t);
    }
    SumCong(DueFn(g, j, p), DueFn(g, j, p - 1), cells);
  }

  /** Emptying the slot that level p cascades. */
  lemma Drained(g: nat, j: nat, p: Level, cells: seq<seq<Timer>>)
    requires g >= 1 && p >= 2 && Inv(g, j, p - 1, cells)
    ensures var c := Slot(p, j); var rest := cells[c := []];
            Inv(g, j, p, rest) &&
            Sum(DueFn(g, j, p), rest) + CellSum(DueFn(g, j, p - 1), c, cells[c]) == Sum(DueFn(g, j, p - 1), cells)
  {
    hide Visit, Block, LevelFor, Slot, FireAt, Sits, StartsSlot;
    var c := Slot(p, j);
    var rest := cells[c := []];
    forall c': nat, t | c' < SLOTS && t in rest[c']
      ensures Ok(g, c', Next(j, p, LevelOf(c')), t) && DueFn(g, j, p - 1)(c', t) == DueFn(g, j, p)(c', t)
    {
      UntouchedDue(g, j, p, c', t);
    }
    SumCong(DueFn(g, j, p), DueFn(g, j, p - 1), rest);
    SumUpdate(DueFn(g, j, p - 1), cells, c, []);
  }

  lemma {:induction false} InsertAllDues(g: nat, j: nat, p: Level, c: nat, cells: seq<seq<Timer>>, ts: seq<Timer>)
    requires g >= 1 && p >= 2 && Inv(g, j, p, cells) && c == Slot(p, j) && StartsSlot(p, j)
    requires forall t | t in ts :: Ok(g, c, j, t)
    ensures Inv(g, j, p, InsertAll(g, j, cells, ts))
    ensures Sum(DueFn(g, j, p), InsertAll(g, j, cells, ts))
            == Sum(DueFn(g, j, p), cells) + CellSum(DueFn(g, j, p - 1), c, ts)
  {
    hide Visit, Block, LevelFor, Slot, FireAt, Sits, StartsSlot;
    if ts != [] {
      var n := |ts| - 1;
      InsertAllDues(g, j, p, c, cells, ts[..n]);
      var mid := InsertAll(g, j, cells, ts[..n]);
      CascadedDue(g, j, p, c, ts[n]);
      SitsBounds(g, p, j, ts[n].expires);
      InsertKeepsInv(g, j, p, mid, ts[n]);
      InsertSum(g, DueFn(g, j, p), j, mid, ts[n]);
    }
  }

  /** Cascading a level changes no timer's firing tick. */
  lemma CascadeDues(g: nat, j: nat, p: Level, cells: seq<seq<Timer>>)
    requires g >= 1 && p >= 2 && Inv(g, j, p - 1, cells) && StartsSlot(p, j)
    ensures Inv(g, j, p, Cascade(g, j, cells, p))
    ensures Sum(DueFn(g, j, p), Cascade(g, j, cells, p)) == Sum(DueFn(g, j, p - 1), cells)
  {
    hide Visit, Block, LevelFor, Slot, FireAt, Sits, StartsSlot;
    var c := Slot(p, j);
    Drained(g, j, p, cells);
    InsertAllDues(g, j, p, c, cells[c := []], cells[c]);
  }

  /** A level starts a new slot exactly when the level below it does and is back at index 0. */
  lemma Aligned(l: Level, j: nat)
    requires l <= 4
    ensures StartsSlot(l + 1, j) <==> StartsSlot(l, j) && Index(l, j) == 0
  {
    hide Size, Unit;
    Digits(Unit(l), Size(l), j);
    UnitNext(l);
  }

  lemma UnitNext(l: Level)
    requires l <= 4
    ensures Unit(l + 1) == Unit(l) * Size(l)
  {
  }

  /** Level p's part of a tick: cascade if a new slot of that level starts. */
  function MaybeCascade(g: nat, j: nat, cells: seq<seq<Timer>>, p: Level): (r: seq<seq<Timer>>)
    requires g >= 1 && |cells| == SLOTS
    ensures |r| == SLOTS
  {
    if StartsSlot(p, j) then Cascade(g, j, cells, p) else cells
  }

  lemma MaybeCascadeDues(g: nat, j: nat, p: Level, cells: seq<seq<Timer>>)
    requires g >= 1 && p >= 2 && Inv(g, j, p - 1, cells)
    ensures var r := MaybeCascade(g, j, cells, p);
            Inv(g, j, p, r) && Sum(DueFn(g, j, p), r) == Sum(DueFn(g, j, p - 1), cells)
  {
    hide Cascade, Sum, DueFn, StartsSlot;
    if StartsSlot(p, j) { CascadeDues(g, j, p, cells); } else { NoCascade(g, j, p, cells); }
  }

  lemma CascadesIs(g: nat, j: nat, cells: seq<seq<Timer>>)
    requires g >= 1 && |cells| == SLOTS
    ensures Cascades(g, j, cells)
            == MaybeCascade(g, j, MaybeCascade(g, j, MaybeCascade(g, j, MaybeCascade(g, j, cells, 2), 3), 4), 5)
  {
    hide Cascade, Index, StartsSlot;
    StartsEverySlot(j);
    Aligned(1, j);
    Aligned(2, j);
    Aligned(3, j);
    Aligned(4, j);
  }

  lemma StartsEverySlot(j: nat)
    ensures StartsSlot(1, j)
  {
  }

  /** The whole cascade of a tick, however many levels it reaches, changes no timer's firing tick. */
  lemma CascadesDues(g: nat, j: nat, cells: seq<seq<Timer>>)
    requires g >= 1 && Inv(g, j, 1, cells)
    ensures Inv(g, j, 5, Cascades(g, j, cells))
    ensures Sum(DueFn(g, j, 5), Cascades(g, j, cells)) == Sum(DueFn(g, j, 1), cells)
  {
    hide MaybeCascade, Cascades, Sum, DueFn, Slot, Sits;
    CascadesIs(g, j, cells);
    var c2 := MaybeCascade(g, j, cells, 2);
    var c3 := MaybeCascade(g, j, c2, 3);
    MaybeCascadeDues(g, j, 2, cells);
    MaybeCascadeDues(g, j, 3, c2);
    MaybeCascadeDues(g, j, 4, c3);
    MaybeCascadeDues(g, j, 5, MaybeCascade(g, j, c3, 4));
  }

  /** No expiry armed up to tick `now` wraps round 32 bits. */
  ghost predicate Fits(w: Wheel, now: nat) {
    now < WORD && forall c: nat, t | c < |w.cells| && t in w.cells[c] :: now + t.period < WORD
  }

  ghost function FiredFn(j: nat): (nat, Timer) -> Due {
    (c: nat, t: Timer) => Due(t, j)
  }

  ghost function FiredDues(j: nat, ts: seq<Timer>): multiset<Due> { CellSum(FiredFn(j), 0, ts) }

  /** The agenda entries that re-arming the fired timers `ts` makes. */
  ghost function RearmDues(g: nat, j: nat, ts: seq<Timer>): multiset<Due>
    requires g >= 1
  {
    if ts == [] then multiset{} else
    var t := ts[|ts| - 1];
    RearmDues(g, j, ts[..|ts| - 1]) +
    if t.period != 0 then multiset{Due(Rearmed(j, t), RearmedFireAt(g, j, t.period))} else multiset{}
  }

  /** `f` holds exactly the entries of agenda `a` whose tick is j. */
  ghost predicate ExactlyDue(a: multiset<Due>, j: nat, f: multiset<Due>) {
    forall d: Due :: f[d] == if d.at == j then a[d] else 0
  }

  /** Once the cascades are done: the selected level-1 slot is due now, everything else later. */
  lemma DueNowOrLater(g: nat, j: nat, c: nat, t: Timer)
    requires g >= 1 && c < SLOTS && Ok(g, c, Next(j, 5, LevelOf(c)), t)
    ensures c == Slot(1, j) ==> DueFn(g, j, 5)(c, t) == Due(t, j)
    ensures c != Slot(1, j) ==>
              && Ok(g, c, Next(j + 1, 1, LevelOf(c)), t)
              && DueFn(g, j, 5)(c, t) == DueFn(g, j + 1, 1)(c, t)
              && DueFn(g, j + 1, 1)(c, t).at > j
  {
    hide Visit, Block, LevelFor, Slot, FireAt, Sits, StartsSlot;
    var l, e := LevelOf(c), t.expires;
    VisitNow(l, j, e);
    StartsEverySlot(j);
    FireAtOne(g, j, e);
    if l == 1 && c != Slot(1, j) {
      FireLater(g, 1, j, e);
    }
    if c != Slot(1, j) {
      FireBounds(g, l, j + 1, e);
    }
  }

  lemma FiringSplit(g: nat, j: nat, cells: seq<seq<Timer>>)
    requires g >= 1 && Inv(g, j, 5, cells)
    ensures var c := Slot(1, j); var rest := cells[c := []];
            && Inv(g, j + 1, 1, rest)
            && Sum(DueFn(g, j + 1, 1), rest) + FiredDues(j, cells[c]) == Sum(DueFn(g, j, 5), cells)
  {
    hide Sum, CellSum, DueFn, Slot, Sits;
    var c, f, f' := Slot(1, j), DueFn(g, j, 5), DueFn(g, j + 1, 1);
    var rest := cells[c := []];
    forall c': nat, t | c' < SLOTS && t in rest[c']
      ensures Ok(g, c', Next(j + 1, 1, LevelOf(c')), t) && f(c', t) == f'(c', t)
    {
      DueNowOrLater(g, j, c', t);
    }
    SumCong(f, f', rest);
    SumUpdate(f, cells, c, []);
    CellSumEmpty(f, c);
    forall t | t in cells[c] ensures f(c, t) == FiredFn(j)(c, t) {
      DueNowOrLater(g, j, c, t);
    }
    CellSumCong(f, FiredFn(j), c, cells[c]);
    CellSumSlot(j, c, cells[c]);
  }

  lemma FiringExact(g: nat, j: nat, cells: seq<seq<Timer>>)
    requires g >= 1 && Inv(g, j, 5, cells)
    ensures ExactlyDue(Sum(DueFn(g, j, 5), cells), j, FiredDues(j, cells[Slot(1, j)]))
  {
    hide Sum, CellSum, DueFn, Slot, Sits;
    var c, f' := Slot(1, j), DueFn(g, j + 1, 1);
    var rest := cells[c := []];
    FiringSplit(g, j, cells);
    forall d: Due ensures FiredDues(j, cells[c])[d] == if d.at == j then Sum(DueFn(g, j, 5), cells)[d] else 0 {
      if d in FiredDues(j, cells[c]) { var t := CellSumWitness(FiredFn(j), 0, cells[c], d); }
      if d in Sum(f', rest) {
        var c', t := SumWitness(f', rest, d);
        DueNowOrLater(g, j, c', t);
      }
    }
  }

  lemma {:induction false} CellSumSlot(j: nat, c: nat, ts: seq<Timer>)
    ensures CellSum(FiredFn(j), c, ts) == FiredDues(j, ts)
  {
    hide Visit, Block, LevelFor, Slot, FireAt, Sits, StartsSlot;
    if ts != [] { CellSumSlot(j, c, ts[..|ts| - 1]); }
  }

  lemma {:induction false} RearmAddsDues(g: nat, j: nat, cells: seq<seq<Timer>>, ts: seq<Timer>)
    requires g >= 1 && Inv(g, j + 1, 1, cells) && forall t | t in ts :: j + t.period < WORD
    ensures Inv(g, j + 1, 1, Rearm(g, j, cells, ts))
    ensures Sum(DueFn(g, j + 1, 1), Rearm(g, j, cells, ts)) == Sum(DueFn(g, j + 1, 1), cells) + RearmDues(g, j, ts)
  {
    hide Visit, Block, LevelFor, Slot, FireAt, Sits, StartsSlot;
    if ts != [] {
      var n := |ts| - 1;
      RearmAddsDues(g, j, cells, ts[..n]);
      var rest, t := Rearm(g, j, cells, ts[..n]), ts[n];
      if t.period != 0 {
        RearmOne(g, j, rest, t);
      }
    }
  }

  lemma RearmedDue(g: nat, j: nat, t: Timer)
    requires g >= 1 && t.period != 0 && j + t.period < WORD
    ensures var t' := Rearmed(j, t); var c := SlotFor(g, j, t'.expires);
            && t'.expires == j + t.period
            && Ok(g, c, j + 1, t')
            && DueFn(g, j + 1, 1)(c, t') == Due(t', RearmedFireAt(g, j, t.period))
  {
    hide Visit, Block, LevelFor, Slot, FireAt, Sits, StartsSlot;
    var e := Rearmed(j, t).expires;
    assert e == j + t.period;
    ArmedSits(g, j, e);
    var l := LevelFor(g, t.period);
    assert SlotFor(g, j, e) == Slot(l, e);
    assert LevelOf(Slot(l, e)) == l;
  }

  lemma RearmOne(g: nat, j: nat, cells: seq<seq<Timer>>, t: Timer)
    requires g >= 1 && Inv(g, j + 1, 1, cells) && t.period != 0 && j + t.period < WORD
    ensures var r := Insert(g, j, cells, Rearmed(j, t));
            Inv(g, j + 1, 1, r) && Sum(DueFn(g, j + 1, 1), r)
              == Sum(DueFn(g, j + 1, 1), cells) + multiset{Due(Rearmed(j, t), RearmedFireAt(g, j, t.period))}
  {
    hide DueFn, RearmedFireAt, SlotFor, Slot, Sits, Sum;
    RearmedDue(g, j, t);
    InsertSum(g, DueFn(g, j + 1, 1), j, cells, Rearmed(j, t));
  }

  /** One tick of the wheel is one tick of the agenda: exactly the entries for this tick fire, and the
      only other change is that the periodic timers among them are entered again. */
  lemma TickRefines(g: nat, w: Wheel)
    requires g >= 1 && WheelInv(g, w) && Fits(w, w.jiffies)
    ensures WheelInv(g, Tick(g, w))
    ensures ExactlyDue(Pending(g, w), w.jiffies, FiredDues(w.jiffies, Fired(g, w)))
    ensures Pending(g, Tick(g, w)) == Pending(g, w) - FiredDues(w.jiffies, Fired(g, w)) + RearmDues(g, w.jiffies, Fired(g, w))
  {
    hide Slot, Sits, Cascades, Sum, DueFn, Rearm, ExactlyDue, FiredDues, RearmDues;
    var j := w.jiffies;
    var cells := Cascades(g, j, w.cells);
    CascadesDues(g, j, w.cells);
    FiringSplit(g, j, cells);
    FiringExact(g, j, cells);
    FiredFits(g, w);
    RearmAddsDues(g, j, cells[Slot(1, j) := []], Fired(g, w));
  }

  lemma FiredFits(g: nat, w: Wheel)
    requires g >= 1 && WheelInv(g, w) && Fits(w, w.jiffies)
    ensures forall t | t in Fired(g, w) :: w.jiffies + t.period < WORD
  {
    hide Visit, Block, LevelFor, Slot, FireAt, Sits, StartsSlot;
    var j := w.jiffies;
    var cells := Cascades(g, j, w.cells);
    CascadesDues(g, j, w.cells);
    forall t | t in Fired(g, w) ensures j + t.period < WORD {
      SumHas(DueFn(g, j, 5), cells, Slot(1, j), t);
      var c, t' := SumWitness(DueFn(g, j, 1), w.cells, DueFn(g, j, 5)(Slot(1, j), t));
    }
  }

  lemma CreatePending(g: nat, w: Wheel, id: nat, due: nat, period: nat, cb: Callback)
    requires g >= 1 && |w.cells| == SLOTS && w.jiffies + due < WORD
    ensures Pending(g, Create(g, w, id, due, period, cb))
            == Pending(g, w) + multiset{Due(Timer(id, w.jiffies + due, period, cb), CreatedFireAt(g, w.jiffies, due))}
  {
    hide Sum, FireAt, Insert, SlotFor, LevelOf, LevelFor;
    var x := Timer(id, w.jiffies + due, period, cb);
    var f := DueFn(g, w.jiffies, 1);
    InsertSum(g, f, w.jiffies, w.cells, x);
    ArmedLevel(g, w.jiffies, x.expires);
    assert f(SlotFor(g, w.jiffies, x.expires), x) == Due(x, CreatedFireAt(g, w.jiffies, due));
  }

  lemma ArmedLevel(g: nat, j: nat, e: nat)
    requires g >= 1 && j <= e < WORD
    ensures LevelOf(SlotFor(g, j, e)) == LevelFor(g, e - j)
  {
    hide LevelFor, Sits;
    ArmedSits(g, j, e);
  }

  lemma DeletePending(g: nat, w: Wheel, c: nat, k: nat, d: Due)
    requires g >= 1 && |w.cells| == SLOTS && c < SLOTS && k < |w.cells[c]|
    requires d in Pending(g, w) && d.timer != w.cells[c][k]
    ensures d in Pending(g, Delete(w, c, k))
  {
    hide Sum, FireAt;
    var f, w' := DueFn(g, w.jiffies, 1), Delete(w, c, k);
    var c', t := SumWitness(f, w.cells, d);
    assert t in w'.cells[c'] by {
      if c' == c {
        var i :| 0 <= i < |w.cells[c]| && w.cells[c][i] == t;
        assert Without(w.cells[c], k)[if i < k then i else i - 1] == t;
      }
    }
    SumHas(f, w'.cells, c', t);
  }
}
