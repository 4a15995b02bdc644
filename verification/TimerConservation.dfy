/** Nothing the wheel does loses or duplicates a timer. */
module TimerConservation {
  import opened TimerWheel
  import opened CellSums

  /** An observation of a timer, whatever slot it sits in. */
  ghost function Anywhere<D>(h: Timer -> D): (nat, Timer) -> D { (c: nat, t: Timer) => h(t) }

  /** The observations of all timers in the slots. */
  ghost function Bag<D>(h: Timer -> D, cells: seq<seq<Timer>>): multiset<D> { Sum(Anywhere(h), cells) }

  ghost function ListBag<D>(h: Timer -> D, ts: seq<Timer>): multiset<D> { CellSum(Anywhere(h), 0, ts) }

  /** An observation that re-arming leaves alone. */
  ghost predicate IgnoresExpiry<D(!new)>(h: Timer -> D) {
    forall t: Timer, j: nat {:trigger Rearmed(j, t)} :: h(Rearmed(j, t)) == h(t)
  }

  function OneShots(ts: seq<Timer>): (r: seq<Timer>)
    ensures forall t | t in r :: t in ts && t.period == 0
  {
    if ts == [] then [] else
    var t := ts[|ts| - 1];
    OneShots(ts[..|ts| - 1]) + if t.period == 0 then [t] else []
  }

  lemma {:induction false} ListBagAt<D>(h: Timer -> D, c: nat, ts: seq<Timer>)
    ensures CellSum(Anywhere(h), c, ts) == ListBag(h, ts)
  {
    if ts != [] { ListBagAt(h, c, ts[..|ts| - 1]); }
  }

  /** Emptying a slot takes out exactly its list. */
  lemma DrainBag<D>(h: Timer -> D, cells: seq<seq<Timer>>, c: nat)
    requires c < |cells|
    ensures Bag(h, cells[c := []]) + ListBag(h, cells[c]) == Bag(h, cells)
  {
    hide CellSum, Sum;
    SumUpdate(Anywhere(h), cells, c, []);
    CellSumEmpty(Anywhere(h), c);
    ListBagAt(h, c, cells[c]);
  }

  lemma InsertBag<D>(h: Timer -> D, g: nat, j: nat, cells: seq<seq<Timer>>, t: Timer)
    requires g >= 1 && |cells| == SLOTS
    ensures Bag(h, Insert(g, j, cells, t)) == Bag(h, cells) + multiset{h(t)}
  {
    hide Sum, Insert;
    InsertSum(g, Anywhere(h), j, cells, t);
  }

  lemma {:induction false} InsertAllBag<D>(h: Timer -> D, g: nat, j: nat, cells: seq<seq<Timer>>, ts: seq<Timer>)
    requires g >= 1 && |cells| == SLOTS
    ensures Bag(h, InsertAll(g, j, cells, ts)) == Bag(h, cells) + ListBag(h, ts)
  {
    hide Bag, Insert, CellSum;
    if ts == [] {
      CellSumEmpty(Anywhere(h), 0);
    } else {
      var n := |ts| - 1;
      InsertAllBag(h, g, j, cells, ts[..n]);
      InsertBag(h, g, j, InsertAll(g, j, cells, ts[..n]), ts[n]);
      ListBagPush(h, ts[..n], ts[n]);
      assert ts == ts[..n] + [ts[n]];
    }
  }

  /** A cascade, of any level at any tick, keeps every timer exactly as it is. */
  lemma CascadeBag<D>(h: Timer -> D, g: nat, j: nat, cells: seq<seq<Timer>>, l: Level)
    requires g >= 1 && |cells| == SLOTS
    ensures Bag(h, Cascade(g, j, cells, l)) == Bag(h, cells)
  {
    hide Bag, ListBag, InsertAll, Slot;
    DrainBag(h, cells, Slot(l, j));
    InsertAllBag(h, g, j, cells[Slot(l, j) := []], cells[Slot(l, j)]);
  }

  lemma CascadesBag<D>(h: Timer -> D, g: nat, j: nat, cells: seq<seq<Timer>>)
    requires g >= 1 && |cells| == SLOTS
    ensures Bag(h, Cascades(g, j, cells)) == Bag(h, cells)
  {
    hide Bag, Cascade, Index;
    var c2 := Cascade(g, j, cells, 2);
    var c3 := Cascade(g, j, c2, 3);
    CascadeBag(h, g, j, cells, 2);
    CascadeBag(h, g, j, c2, 3);
    CascadeBag(h, g, j, c3, 4);
    CascadeBag(h, g, j, Cascade(g, j, c3, 4), 5);
  }

  lemma ListBagPush<D>(h: Timer -> D, ts: seq<Timer>, t: Timer)
    ensures ListBag(h, ts + [t]) == ListBag(h, ts) + multiset{h(t)}
  {
    hide CellSum;
    CellSumPush(Anywhere(h), 0, ts, t);
  }

  lemma OneShotsPush<D>(h: Timer -> D, ts: seq<Timer>, t: Timer)
    ensures ListBag(h, OneShots(ts + [t])) == ListBag(h, OneShots(ts)) + if t.period == 0 then multiset{h(t)} else multiset{}
  {
    hide ListBag;
    assert (ts + [t])[..|ts|] == ts && (ts + [t])[|ts|] == t;
    if t.period == 0 {
      ListBagPush(h, OneShots(ts), t);
    } else {
      assert OneShots(ts) + [] == OneShots(ts);
    }
  }

  lemma RearmStep<D(!new)>(h: Timer -> D, g: nat, j: nat, cells: seq<seq<Timer>>, ts: seq<Timer>, t: Timer)
    requires g >= 1 && |cells| == SLOTS && IgnoresExpiry(h)
    ensures var x: multiset<D> := multiset{h(t)};
            && Bag(h, Rearm(g, j, cells, ts + [t]))
               == Bag(h, Rearm(g, j, cells, ts)) + (if t.period != 0 then x else multiset{})
            && ListBag(h, OneShots(ts + [t])) == ListBag(h, OneShots(ts)) + (if t.period != 0 then multiset{} else x)
  {
    hide Bag, ListBag, Rearm, OneShots, Insert;
    RearmPush(g, j, cells, ts, t);
    OneShotsPush(h, ts, t);
    if t.period != 0 {
      assert h(Rearmed(j, t)) == h(t);
      InsertBag(h, g, j, Rearm(g, j, cells, ts), Rearmed(j, t));
    }
  }

  lemma {:induction false} RearmBag<D(!new)>(h: Timer -> D, g: nat, j: nat, cells: seq<seq<Timer>>, ts: seq<Timer>)
    requires g >= 1 && |cells| == SLOTS && IgnoresExpiry(h)
    ensures Bag(h, Rearm(g, j, cells, ts)) + ListBag(h, OneShots(ts)) == Bag(h, cells) + ListBag(h, ts)
  {
    hide Bag, CellSum, Insert;
    if ts == [] {
      CellSumEmpty(Anywhere(h), 0);
    } else {
      var n := |ts| - 1;
      var init, t := ts[..n], ts[n];
      RearmBag(h, g, j, cells, init);
      RearmStep(h, g, j, cells, init, t);
      ListBagPush(h, init, t);
      assert ts == init + [t];
      AddSplit(Bag(h, Rearm(g, j, cells, init)), ListBag(h, OneShots(init)), Bag(h, cells), ListBag(h, init),
               multiset{h(t)}, t.period != 0);
    }
  }

  /** A tick takes out exactly the one-shot timers it fires. */
  lemma TickBag<D(!new)>(h: Timer -> D, g: nat, w: Wheel)
    requires g >= 1 && |w.cells| == SLOTS && IgnoresExpiry(h)
    ensures Bag(h, Tick(g, w).cells) + ListBag(h, OneShots(Fired(g, w))) == Bag(h, w.cells)
  {
    hide Bag, ListBag, Rearm, OneShots, Cascades, Slot;
    var j := w.jiffies;
    var cells := Cascades(g, j, w.cells);
    CascadesBag(h, g, j, w.cells);
    DrainBag(h, cells, Slot(1, j));
    RearmBag(h, g, j, cells[Slot(1, j) := []], Fired(g, w));
  }

  /** Creation adds its one timer. */
  lemma CreateBag<D>(h: Timer -> D, g: nat, w: Wheel, id: nat, due: nat, period: nat, cb: Callback)
    requires g >= 1 && |w.cells| == SLOTS
    ensures Bag(h, Create(g, w, id, due, period, cb).cells)
            == Bag(h, w.cells) + multiset{h(Timer(id, (w.jiffies + due) % WORD, period, cb))}
  {
    hide Bag, Insert;
    var t := Timer(id, (w.jiffies + due) % WORD, period, cb);
    assert Create(g, w, id, due, period, cb).cells == Insert(g, w.jiffies, w.cells, t);
    InsertBag(h, g, w.jiffies, w.cells, t);
  }

  /** Deletion takes out its one timer. */
  lemma DeleteBag<D>(h: Timer -> D, w: Wheel, c: nat, k: nat)
    requires |w.cells| == SLOTS && c < SLOTS && k < |w.cells[c]|
    ensures Bag(h, Delete(w, c, k).cells) + multiset{h(w.cells[c][k])} == Bag(h, w.cells)
  {
    hide Sum, CellSum;
    var s, f := w.cells[c], Anywhere(h);
    var x := multiset{h(s[k])};
    var left := Without(s, k);
    assert CellSum(f, c, s) == CellSum(f, c, left) + x by {
      CellSumPush(f, c, [], s[k]);
      CellSumEmpty(f, c);
      assert [] + [s[k]] == [s[k]];
      assert s == s[..k] + [s[k]] + s[k + 1..];
      CellSumConcat(f, c, s[..k] + [s[k]], s[k + 1..]);
      CellSumConcat(f, c, s[..k], [s[k]]);
      CellSumConcat(f, c, s[..k], s[k + 1..]);
    }
    SumUpdate(f, w.cells, c, left);
    var r := Bag(h, Delete(w, c, k).cells);
    assert (r + x) + CellSum(f, c, left) == r + CellSum(f, c, s);
    Cancel(r + x, Bag(h, w.cells), CellSum(f, c, left));
  }

  /** Every timer after the cascades was there before. */
  lemma CascadesFrom(g: nat, j: nat, cells: seq<seq<Timer>>, c: nat, t: Timer) returns (c': nat)
    requires g >= 1 && |cells| == SLOTS && c < SLOTS && t in Cascades(g, j, cells)[c]
    ensures c' < SLOTS && t in cells[c']
  {
    hide Cascades, Sum, CellSum, Slot;
    var h := (t: Timer) => t;
    CascadesBag(h, g, j, cells);
    SumHas(Anywhere(h), Cascades(g, j, cells), c, t);
    var t';
    c', t' := SumWitness(Anywhere(h), cells, t);
  }

  /** Every timer after re-arming was there before, or is a re-armed one. */
  lemma {:induction false} RearmFrom(g: nat, j: nat, cells: seq<seq<Timer>>, ts: seq<Timer>, c: nat, t: Timer)
    requires g >= 1 && |cells| == SLOTS && c < SLOTS && t in Rearm(g, j, cells, ts)[c]
    ensures t in cells[c] || exists i :: 0 <= i < |ts| && ts[i].period != 0 && t == Rearmed(j, ts[i])
  {
    hide Slot, LevelFor;
    if ts != [] {
      var n := |ts| - 1;
      var rest := Rearm(g, j, cells, ts[..n]);
      if t in rest[c] {
        RearmFrom(g, j, cells, ts[..n], c, t);
      } else {
        assert t == Rearmed(j, ts[n]);
      }
    }
  }
}
