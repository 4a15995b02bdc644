/** When a timer placed in the wheel fires: a prediction computed from the timer alone, its bounds,
    and when it equals the requested expiry. */
module TimerFiring {
  import opened Arith
  import opened TimerWheel

  /** The first millisecond of the level-`l` slot that holds time `e`. */
  function Block(l: Level, e: nat): (b: nat)
    ensures b <= e < b + Unit(l)
  {
    e - e % Unit(l)
  }

  /** The first tick >= j at which the level-`l` slot of `e` is emptied. */
  function Visit(l: Level, j: nat, e: nat): (v: nat)
    ensures v >= j
  {
    j + (Block(l, e) - j) % Cycle(l)
  }

  /** The tick at which a timer expiring at `e` and sitting at level `l` fires, when `j` is the first tick
      that has not yet visited it: it waits for its slot, and if that is not at level 1 it is placed again
      according to the time then left. */
  function FireAt(g: nat, l: Level, j: nat, e: nat): (t: nat)
    requires g >= 1
    decreases if e >= j then e + 1 - j else 0
  {
    var v := Visit(l, j, e);
    if l == 1 || v > e then v else
    var l' := LevelFor(g, e - v);
    if l' == 1 then Visit(1, v, e) else FireAt(g, l', v + 1, e)
  }

  /** A timer expiring at `e` may sit at level `l` when `j` is the first tick that has not visited it. */
  predicate Sits(g: nat, l: Level, j: nat, e: nat)
    requires g >= 1
  {
    && Block(l, e) >= j
    && e < WORD
    && (l <= 4 ==> e - j < Cycle(l) * g)
  }

  lemma LevelForBounds(g: nat, due: nat)
    requires g >= 1
    ensures var l := LevelFor(g, due); (l >= 2 ==> Unit(l) <= due) && (l <= 4 ==> due < Cycle(l) * g)
  {
    var d, l := due / g, LevelFor(g, due);
    assert due == d * g + due % g < (d + 1) * g;
    MulMono(1, g, d);
    if l <= 4 { MulMono(d + 1, Cycle(l), g); }
  }

  /** The level is the lowest one that g turns of reach as far as the timer; the highest takes all others. */
  lemma LevelIsLowest(g: nat, due: nat)
    requires g >= 1
    ensures var l := LevelFor(g, due); (l <= 4 ==> due < Cycle(l) * g) && (l >= 2 ==> due >= Cycle(l - 1) * g)
  {
    LevelForBounds(g, due);
    var l := LevelFor(g, due);
    if l >= 2 { QuotientBounds(due, Cycle(l - 1), g); }
  }

  lemma BlockOne(e: nat)
    ensures Block(1, e) == e
  {
  }

  /** Where add_timer puts a timer, it may sit: for tick j itself at level 1, from tick j + 1 above. */
  lemma ArmedSits(g: nat, j: nat, e: nat)
    requires g >= 1 && j <= e < WORD
    ensures var l := LevelFor(g, e - j);
            SlotFor(g, j, e) == Slot(l, e) && Sits(g, l, j, e) && (l >= 2 || e > j ==> Sits(g, l, j + 1, e))
  {
    hide Block, LevelFor, Unit, Cycle, Index;
    LevelForBounds(g, e - j);
    BlockOne(e);
  }

  lemma CycleIs(l: Level)
    ensures Cycle(l) == Unit(l) * Size(l)
  {
  }

  /** Tick j is the first millisecond of a slot of level `l`. */
  predicate StartsSlot(l: Level, j: nat) { j % Unit(l) == 0 }

  /** The slot of `e` is emptied at tick j exactly when j starts a slot of that level and selects it. */
  lemma VisitNow(l: Level, j: nat, e: nat)
    ensures Visit(l, j, e) == j <==> StartsSlot(l, j) && Slot(l, j) == Slot(l, e)
  {
    hide Unit, Cycle, Size;
    CycleIs(l);
    SlotsMeet(Unit(l), Size(l), j, e);
  }

  lemma VisitBounds(l: Level, j: nat, e: nat)
    requires j <= Block(l, e)
    ensures j <= Visit(l, j, e) <= Block(l, e) && (Block(l, e) - Visit(l, j, e)) % Cycle(l) == 0
  {
    RoundDown(Block(l, e) - j, Cycle(l));
  }

  /** A slot not emptied at tick j waits for the same visit after it. */
  lemma VisitLater(l: Level, j: nat, e: nat)
    requires j <= Block(l, e) && Visit(l, j, e) != j
    ensures j + 1 <= Block(l, e) && Visit(l, j + 1, e) == Visit(l, j, e)
  {
    Previous(Block(l, e) - j, Cycle(l));
  }

  lemma FireLater(g: nat, l: Level, j: nat, e: nat)
    requires g >= 1 && Sits(g, l, j, e) && Visit(l, j, e) != j
    ensures Sits(g, l, j + 1, e) && FireAt(g, l, j + 1, e) == FireAt(g, l, j, e)
  {
    hide Visit, Block, LevelFor, Unit, Cycle;
    VisitLater(l, j, e);
  }

  lemma FireNow(g: nat, l: Level, j: nat, e: nat)
    requires g >= 1 && l >= 2 && Sits(g, l, j, e) && Visit(l, j, e) == j
    ensures var l' := LevelFor(g, e - j);
            l' <= l && FireAt(g, l, j, e) == FireAt(g, l', if l' == 1 then j else j + 1, e)
  {
    hide Visit, Block, Unit;
    if l <= 4 { QuotientBounds(e - j, Cycle(l), g); }
  }

  /** Never late, early by a multiple of 256 ms, and by less than 256 ms per unit of granularity. */
  lemma {:induction false} FireBounds(g: nat, l: Level, j: nat, e: nat)
    requires g >= 1 && Sits(g, l, j, e)
    ensures var t := FireAt(g, l, j, e); j <= t <= e && (e - t) % 256 == 0 && e - t <= 256 * (g - 1)
    decreases e - j
  {
    hide Visit, Block, LevelFor, Sits;
    if l == 1 {
      FireBounds1(g, j, e);
    } else {
      SitsBounds(g, l, j, e);
      var v := Visit(l, j, e);
      var l' := LevelFor(g, e - v);
      ArmedSits(g, v, e);
      if l' == 1 {
        FireBounds1(g, v, e);
      } else {
        FireBounds(g, l', v + 1, e);
      }
    }
  }

  lemma FireAtOne(g: nat, j: nat, e: nat)
    requires g >= 1
    ensures FireAt(g, 1, j, e) == Visit(1, j, e)
  {
    hide Visit;
  }

  lemma SitsBounds(g: nat, l: Level, j: nat, e: nat)
    requires g >= 1 && Sits(g, l, j, e)
    ensures j <= Visit(l, j, e) <= Block(l, e) <= e < WORD
  {
    hide Visit, Block;
    VisitBounds(l, j, e);
  }

  lemma FireBounds1(g: nat, j: nat, e: nat)
    requires g >= 1 && Sits(g, 1, j, e)
    ensures var t := Visit(1, j, e); j <= t <= e && (e - t) % 256 == 0 && e - t <= 256 * (g - 1)
  {
    hide Visit, Block;
    VisitBounds(1, j, e);
    BlockOne(e);
  }

  /** Whether a timer at level l, not yet visited before tick n, is taken down at the start of its block at
      each level, and reaches level 1 with less than one turn of it to go. Up to granularity 64 a visit
      before the start of the block does no harm: the timer stays where it is. */
  predicate Sharp(g: nat, l: Level, n: nat, e: nat)
    requires g >= 1 && n <= Block(l, e)
    decreases e - n, l
  {
    if l == 1 then e - n < 256 else
    var b := Block(l, e);
    BlockBelow(g, l, e);
    (g <= 64 || b - n < Cycle(l)) && Sharp(g, LevelFor(g, e - b), if LevelFor(g, e - b) == 1 then b else b + 1, e)
  }

  lemma BlockBelow(g: nat, l: Level, e: nat)
    requires g >= 1
    ensures var b := Block(l, e); var l' := LevelFor(g, e - b);
            b <= e && (if l' == 1 then b else b + 1) <= Block(l', e) && (l >= 2 ==> l' < l)
  {
    hide LevelFor;
    var b := Block(l, e);
    LevelForBounds(g, e - b);
    BlockOne(e);
    if l >= 2 { LevelForLess(g, l, e - b); }
  }

  lemma LevelForLess(g: nat, l: Level, r: nat)
    requires g >= 1 && l >= 2 && r < Unit(l)
    ensures LevelFor(g, r) < l
  {
    QuotientBounds(r, Unit(l), 1);
    MulMono(1, g, r / g);
    assert r / g <= r by { assert r == r / g * g + r % g; }
  }

  lemma BlocksApart(x: nat, c: nat)
    requires c >= 1 && x > 0 && x % c == 0
    ensures x >= c
  {
  }

  /** Up to granularity 64 a timer above level 1 is only moved down at the start of its block. */
  lemma StaysUp(g: nat, l: Level, j: nat, e: nat)
    requires 1 <= g <= 64 && l >= 2 && Sits(g, l, j, e) && Visit(l, j, e) < Block(l, e)
    ensures LevelFor(g, e - Visit(l, j, e)) == l
  {
    VisitBounds(l, j, e);
    var d := e - Visit(l, j, e);
    LevelForBounds(g, d);
    BlocksApart(Block(l, e) - Visit(l, j, e), Cycle(l));
    MulMono(g, 64, Unit(l));
    QuotientBounds(d, Unit(l), g);
    if l <= 4 { QuotientBounds(d, Cycle(l), g); }
  }

  lemma VisitOne(j: nat, e: nat)
    requires j <= e
    ensures Visit(1, j, e) == e <==> e - j < 256
  {
    assert Block(1, e) == e;
  }

  lemma FireStep(g: nat, l: Level, j: nat, e: nat)
    requires g >= 1 && l >= 2 && Sits(g, l, j, e)
    ensures var v := Visit(l, j, e);
            j <= v <= Block(l, e) <= e &&
            var l' := LevelFor(g, e - v);
            if l' == 1 then FireAt(g, l, j, e) == e <==> e - v < 256
            else Sits(g, l', v + 1, e) && FireAt(g, l, j, e) == FireAt(g, l', v + 1, e)
  {
    hide Visit, Block, LevelFor, Sits;
    SitsBounds(g, l, j, e);
    var v := Visit(l, j, e);
    if LevelFor(g, e - v) == 1 {
      VisitOne(v, e);
    } else {
      ArmedSits(g, v, e);
    }
  }

  /** Above granularity 64 a timer that is visited before the start of its block fires early. */
  lemma {:induction false} Early(g: nat, l: Level, n: nat, e: nat)
    requires g > 64 && l >= 2 && Sits(g, l, n, e) && Visit(l, n, e) < Block(l, e)
    ensures FireAt(g, l, n, e) != e
    decreases e - n
  {
    hide Visit, LevelFor, Sits, FireAt, Cycle;
    FireStep(g, l, n, e);
    VisitBounds(l, n, e);
    SitsBounds(g, l, n, e);
    var v := Visit(l, n, e);
    BlocksApart(Block(l, e) - v, Cycle(l));
    var l' := LevelFor(g, e - v);
    if l' > 1 {
      SitsBounds(g, l', v + 1, e);
      StillEarly(g, l, n, v, e);
      Early(g, l', v + 1, e);
    }
  }

  lemma VisitIsBlock(l: Level, n: nat, e: nat)
    requires n <= Block(l, e)
    ensures Visit(l, n, e) < Block(l, e) <==> Block(l, e) - n >= Cycle(l)
  {
    hide Block, Cycle;
  }

  lemma LevelForMost(g: nat, l: Level, r: nat)
    requires g >= 1 && (l <= 4 ==> r < Cycle(l) * g)
    ensures LevelFor(g, r) <= l
  {
    if l <= 4 { QuotientBounds(r, Cycle(l), g); }
  }

  lemma LevelForDown(g: nat, l: Level, r: nat)
    requires g >= 65 && 2 <= l <= 4 && r < Cycle(l) + Unit(l)
    ensures LevelFor(g, r) < l
  {
    MulMono(65, g, Unit(l));
    QuotientBounds(r, Unit(l), g);
  }

  /** Moved before the start of its block, it is before the start of its block again. */
  lemma StillEarly(g: nat, l: Level, n: nat, v: nat, e: nat)
    requires g > 64 && l >= 2 && Sits(g, l, n, e) && n <= v
    requires v + Cycle(l) <= Block(l, e) && (Block(l, e) - v) % Cycle(l) == 0
    ensures var l' := LevelFor(g, e - v); l' > 1 && v + 1 <= Block(l', e) ==> Visit(l', v + 1, e) < Block(l', e)
  {
    hide Visit, LevelFor, Block;
    var l' := LevelFor(g, e - v);
    LevelForMost(g, l, e - v);
    if l' > 1 && v + 1 <= Block(l', e) {
      VisitIsBlock(l', v + 1, e);
      if l' == l && Block(l, e) - v < 2 * Cycle(l) {
        assert Block(l, e) - v == Cycle(l);
        LevelForDown(g, l, e - v);
        assert false;
      }
    }
  }

  /** Exactly when a timer fires on the requested millisecond. */
  lemma {:induction false} SharpIff(g: nat, l: Level, n: nat, e: nat)
    requires g >= 1 && Sits(g, l, n, e)
    ensures n <= Block(l, e) && (FireAt(g, l, n, e) == e <==> Sharp(g, l, n, e))
    decreases e - n, l
  {
    hide Visit, LevelFor, FireAt, Cycle, Unit, Block;
    SitsBounds(g, l, n, e);
    BlockOne(e);
    if l == 1 {
      FireAtOne(g, n, e);
      VisitOne(n, e);
    } else {
      FireStep(g, l, n, e);
      VisitIsBlock(l, n, e);
      BlockBelow(g, l, e);
      var v := Visit(l, n, e);
      hide Sits;
      if v < Block(l, e) && g > 64 {
        Early(g, l, n, e);
      } else if v < Block(l, e) {
        StaysUp(g, l, n, e);
        SharpIff(g, l, v + 1, e);
      } else if LevelFor(g, e - v) > 1 {
        SharpIff(g, LevelFor(g, e - v), v + 1, e);
      }
    }
  }

  /** The firing tick of a timer that create_timer arms at base j. */
  function CreatedFireAt(g: nat, j: nat, due: nat): nat
    requires g >= 1
  {
    FireAt(g, LevelFor(g, due), j, j + due)
  }

  /** The firing tick of a periodic timer re-armed while tick j is firing. */
  function RearmedFireAt(g: nat, j: nat, period: nat): nat
    requires g >= 1
  {
    FireAt(g, LevelFor(g, period), j + 1, j + period)
  }

  /** Whether a timer created at base j, due in `due` milliseconds, is sharp. */
  predicate Exact(g: nat, j: nat, due: nat)
    requires g >= 1
  {
    var l := LevelFor(g, due);
    j <= Block(l, j + due) && Sharp(g, l, j, j + due)
  }

  /** Exactly when a created timer fires on the requested millisecond. */
  lemma CreatedSharp(g: nat, j: nat, due: nat)
    requires g >= 1 && j + due < WORD
    ensures CreatedFireAt(g, j, due) == j + due <==> Exact(g, j, due)
  {
    hide Sits, Sharp, LevelFor, FireAt;
    ArmedSits(g, j, j + due);
    SharpIff(g, LevelFor(g, due), j, j + due);
  }

  /** The same for a timer re-armed while tick j is firing. */
  lemma RearmedSharp(g: nat, j: nat, period: nat)
    requires g >= 1 && period >= 1 && j + period < WORD
    ensures var l, e := LevelFor(g, period), j + period;
            j + 1 <= Block(l, e) && (RearmedFireAt(g, j, period) == e <==> Sharp(g, l, j + 1, e))
  {
    hide Sits, Sharp, LevelFor, FireAt;
    ArmedSits(g, j, j + period);
    SharpIff(g, LevelFor(g, period), j + 1, j + period);
  }

  /** With a granularity above 1, a timer due in one turn of level 1 goes into the slot being visited. */
  lemma OneTurnFiresAtOnce(g: nat, j: nat)
    requires g >= 2
    ensures CreatedFireAt(g, j, 256) == j
  {
    QuotientBounds(256, 256, g);
    BlockOne(j + 256);
    assert LevelFor(g, 256) == 1;
  }

  /** With granularity 1, and no other, every timer fires on the requested millisecond. */
  lemma ExactIffGranularityOne(g: nat, j: nat)
    requires g >= 1 && j + 256 < WORD
    ensures (forall due: nat | j + due < WORD :: CreatedFireAt(g, j, due) == j + due) <==> g == 1
  {
    hide FireAt, LevelFor, Sits;
    if g == 1 {
      forall due: nat | j + due < WORD ensures CreatedFireAt(g, j, due) == j + due {
        ArmedSits(g, j, j + due);
        FireBounds(g, LevelFor(g, due), j, j + due);
      }
    } else {
      OneTurnFiresAtOnce(g, j);
    }
  }

  /** With the shipped granularity of 10, a timer created for one second fires after 232 ms. */
  lemma OneSecondFiresEarly(j: nat)
    requires j + 1000 < WORD
    ensures CreatedFireAt(10, j, 1000) == j + 232
  {
  }

  // ---- How often a timer is moved ----

  /** How many cascades move the timer before it fires; cf. FireAt. */
  function Moves(g: nat, l: Level, j: nat, e: nat): nat
    requires g >= 1
    decreases if e >= j then e + 1 - j else 0
  {
    var v := Visit(l, j, e);
    if l == 1 || v > e then 0 else
    var l' := LevelFor(g, e - v);
    if l' == 1 then 1 else 1 + Moves(g, l', v + 1, e)
  }

  /** A tick that does not visit the timer leaves its moves ahead of it. */
  lemma MovesLater(g: nat, l: Level, j: nat, e: nat)
    requires g >= 1 && Sits(g, l, j, e) && Visit(l, j, e) != j
    ensures Moves(g, l, j + 1, e) == Moves(g, l, j, e)
  {
    hide Visit, Block, LevelFor, Unit, Cycle;
    VisitLater(l, j, e);
  }

  /** A cascade uses up one of them. */
  lemma MovesNow(g: nat, l: Level, j: nat, e: nat)
    requires g >= 1 && l >= 2 && Sits(g, l, j, e) && Visit(l, j, e) == j
    ensures var l' := LevelFor(g, e - j); Moves(g, l, j, e) == 1 + Moves(g, l', if l' == 1 then j else j + 1, e)
  {
    hide Visit, LevelFor;
    SitsBounds(g, l, j, e);
    if LevelFor(g, e - j) == 1 { assert Moves(g, 1, j, e) == 0; }
  }

  lemma LevelBelow(l: Level, due: nat)
    requires l >= 2 && due < Unit(l)
    ensures LevelFor(1, due) < l
  {
  }

  /** With granularity 1 a cascade always puts a timer on a lower level. */
  lemma CascadeLowers(l: Level, j: nat, e: nat)
    requires l >= 2 && Sits(1, l, j, e)
    ensures var v := Visit(l, j, e); v <= e && LevelFor(1, e - v) < l
  {
    hide LevelFor, Visit;
    SitsBounds(1, l, j, e);
    VisitBounds(l, j, e);
    var x := Block(l, e) - Visit(l, j, e);
    if x > 0 {
      BlocksApart(x, Cycle(l));
      assert false;
    }
    LevelBelow(l, e - Visit(l, j, e));
  }

  /** So it is moved at most four times. */
  lemma {:induction false} FewMoves(l: Level, j: nat, e: nat)
    requires Sits(1, l, j, e)
    ensures Moves(1, l, j, e) <= l - 1
    decreases l
  {
    hide Visit, LevelFor, Sits;
    if l > 1 {
      CascadeLowers(l, j, e);
      var v := Visit(l, j, e);
      var l' := LevelFor(1, e - v);
      SitsBounds(1, l, j, e);
      ArmedSits(1, v, e);
      if l' > 1 {
        FewMoves(l', v + 1, e);
      }
    }
  }

  lemma TurnOfLevelTwo(m: nat)
    ensures Block(2, 0x4000 * m) == 0x4000 * m && Index(2, 0x4000 * m) == 0 && StartsSlot(2, 0x4000 * m)
  {
    Arith.Division(0x4000 * m, 64 * m, 0, 0x100);
    Arith.Division(64 * m, m, 0, 64);
  }

  lemma StaysAtLevelTwo(g: nat)
    requires g >= 2
    ensures LevelFor(g, 0x4000 * (g - 1)) == 2
  {
    QuotientBounds(0x4000 * (g - 1), 0x100, g);
    QuotientBounds(0x4000 * (g - 1), 0x4000, g);
  }

  /** With a granularity above 1 a cascade may put a timer back into the very slot it is draining. */
  lemma PutBack(g: nat, m: nat)
    requires g >= 2 && 0x4000 * (m + g - 1) < WORD
    ensures var j, e := 0x4000 * m, 0x4000 * (m + g - 1);
            Sits(g, 2, j, e) && Visit(2, j, e) == j && SlotFor(g, j, e) == Slot(2, j)
  {
    hide Block, Index, StartsSlot, Visit, LevelFor;
    var j, e := 0x4000 * m, 0x4000 * (m + g - 1);
    TurnOfLevelTwo(m);
    TurnOfLevelTwo(m + g - 1);
    VisitNow(2, j, e);
    StaysAtLevelTwo(g);
    assert e - j == 0x4000 * (g - 1);
  }
}
