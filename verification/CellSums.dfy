/** Multisets collected over every timer of a wheel. */
module CellSums {
  import opened TimerWheel

  ghost function CellSum<D>(f: (nat, Timer) -> D, c: nat, s: seq<Timer>): multiset<D> {
    if s == [] then multiset{} else CellSum(f, c, s[..|s| - 1]) + multiset{f(c, s[|s| - 1])}
  }

  ghost function Sum<D>(f: (nat, Timer) -> D, cells: seq<seq<Timer>>): multiset<D> {
    if cells == [] then multiset{}
    else Sum(f, cells[..|cells| - 1]) + CellSum(f, |cells| - 1, cells[|cells| - 1])
  }

  lemma SumPush<D>(f: (nat, Timer) -> D, cells: seq<seq<Timer>>, s: seq<Timer>)
    ensures Sum(f, cells + [s]) == Sum(f, cells) + CellSum(f, |cells|, s)
  {
    assert (cells + [s])[..|cells|] == cells;
  }

  lemma CellSumPush<D>(f: (nat, Timer) -> D, c: nat, s: seq<Timer>, t: Timer)
    ensures CellSum(f, c, s + [t]) == CellSum(f, c, s) + multiset{f(c, t)}
  {
    assert (s + [t])[..|s|] == s;
  }

  lemma CellSumEmpty<D>(f: (nat, Timer) -> D, c: nat)
    ensures CellSum(f, c, []) == multiset{}
  {
  }

  lemma AddBoth<D>(a: multiset<D>, b: multiset<D>, c: multiset<D>, d: multiset<D>, x: multiset<D>)
    requires a + b == c + d
    ensures (a + x) + b == (c + x) + d
  {
    assert (a + x) + b == (a + b) + x && (c + x) + d == (c + d) + x;
  }

  lemma AddSplit<D>(a: multiset<D>, b: multiset<D>, c: multiset<D>, d: multiset<D>, x: multiset<D>, left: bool)
    requires a + b == c + d
    ensures (a + if left then x else multiset{}) + (b + if left then multiset{} else x) == c + (d + x)
  {
    assert (a + b) + x == (a + x) + b == a + (b + x);
    assert (c + d) + x == c + (d + x);
  }

  lemma Cancel<D>(a: multiset<D>, b: multiset<D>, x: multiset<D>)
    requires a + x == b + x
    ensures a == b
  {
    assert a == (a + x) - x && b == (b + x) - x;
  }

  /** Replacing the list of one slot replaces its share of the sum. */
  lemma {:induction false} SumUpdate<D>(f: (nat, Timer) -> D, cells: seq<seq<Timer>>, c: nat, s: seq<Timer>)
    requires c < |cells|
    ensures Sum(f, cells[c := s]) + CellSum(f, c, cells[c]) == Sum(f, cells) + CellSum(f, c, s)
  {
    hide Sum, CellSum;
    var n := |cells| - 1;
    var init, last := cells[..n], cells[n];
    assert cells == init + [last];
    SumPush(f, init, last);
    if c == n {
      assert cells[c := s] == init + [s];
      SumPush(f, init, s);
    } else {
      SumUpdate(f, init, c, s);
      assert cells[c := s] == init[c := s] + [last];
      SumPush(f, init[c := s], last);
      AddBoth(Sum(f, init[c := s]), CellSum(f, c, cells[c]), Sum(f, init), CellSum(f, c, s), CellSum(f, n, last));
    }
  }

  lemma {:induction false} CellSumCong<D>(f: (nat, Timer) -> D, f': (nat, Timer) -> D, c: nat, s: seq<Timer>)
    requires forall t | t in s :: f(c, t) == f'(c, t)
    ensures CellSum(f, c, s) == CellSum(f', c, s)
  {
    if s != [] {
      CellSumCong(f, f', c, s[..|s| - 1]);
    }
  }

  lemma {:induction false} SumCong<D>(f: (nat, Timer) -> D, f': (nat, Timer) -> D, cells: seq<seq<Timer>>)
    requires forall c: nat, t | c < |cells| && t in cells[c] :: f(c, t) == f'(c, t)
    ensures Sum(f, cells) == Sum(f', cells)
  {
    if cells != [] {
      var n := |cells| - 1;
      SumCong(f, f', cells[..n]);
      CellSumCong(f, f', n, cells[n]);
    }
  }

  lemma {:induction false} CellSumConcat<D>(f: (nat, Timer) -> D, c: nat, a: seq<Timer>, b: seq<Timer>)
    ensures CellSum(f, c, a + b) == CellSum(f, c, a) + CellSum(f, c, b)
  {
    hide CellSum;
    if b == [] {
      assert a + b == a;
      CellSumEmpty(f, c);
    } else {
      var n := |b| - 1;
      var init, t := b[..n], b[n];
      CellSumConcat(f, c, a, init);
      assert b == init + [t] && a + b == (a + init) + [t];
      CellSumPush(f, c, init, t);
      CellSumPush(f, c, a + init, t);
    }
  }

  /** Every collected element comes from a timer of some slot. */
  lemma {:induction false} SumWitness<D>(f: (nat, Timer) -> D, cells: seq<seq<Timer>>, d: D)
    returns (c: nat, t: Timer)
    requires d in Sum(f, cells)
    ensures c < |cells| && t in cells[c] && f(c, t) == d
  {
    var n := |cells| - 1;
    if d in CellSum(f, n, cells[n]) {
      c := n;
      t := CellSumWitness(f, n, cells[n], d);
    } else {
      c, t := SumWitness(f, cells[..n], d);
    }
  }

  lemma {:induction false} CellSumWitness<D>(f: (nat, Timer) -> D, c: nat, s: seq<Timer>, d: D)
    returns (t: Timer)
    requires d in CellSum(f, c, s)
    ensures t in s && f(c, t) == d
  {
    var n := |s| - 1;
    if d == f(c, s[n]) {
      t := s[n];
    } else {
      t := CellSumWitness(f, c, s[..n], d);
    }
  }

  lemma {:induction false} SumHas<D>(f: (nat, Timer) -> D, cells: seq<seq<Timer>>, c: nat, t: Timer)
    requires c < |cells| && t in cells[c]
    ensures f(c, t) in Sum(f, cells)
  {
    var n := |cells| - 1;
    if c == n {
      CellSumHas(f, n, cells[n], t);
    } else {
      SumHas(f, cells[..n], c, t);
    }
  }

  lemma {:induction false} CellSumHas<D>(f: (nat, Timer) -> D, c: nat, s: seq<Timer>, t: Timer)
    requires t in s
    ensures f(c, t) in CellSum(f, c, s)
  {
    var n := |s| - 1;
    if t != s[n] {
      CellSumHas(f, c, s[..n], t);
    }
  }

  lemma InsertSum<D>(g: nat, f: (nat, Timer) -> D, j: nat, cells: seq<seq<Timer>>, t: Timer)
    requires g >= 1 && |cells| == SLOTS
    ensures Sum(f, Insert(g, j, cells, t)) == Sum(f, cells) + multiset{f(SlotFor(g, j, t.expires), t)}
  {
    var c := SlotFor(g, j, t.expires);
    var s := cells[c];
    SumUpdate(f, cells, c, s + [t]);
    hide Sum, CellSum;
    CellSumPush(f, c, s, t);
    var x := multiset{f(c, t)};
    assert Sum(f, cells) + (CellSum(f, c, s) + x) == (Sum(f, cells) + x) + CellSum(f, c, s);
    Cancel(Sum(f, cells[c := s + [t]]), Sum(f, cells) + x, CellSum(f, c, s));
  }
}
