/** Facts about division by a variable divisor that the solver does not find alone. */
module Arith {

  lemma MulMono(a: int, b: int, c: int)
    requires a <= b && c >= 0
    ensures a * c <= b * c
  {
  }

  lemma SmallMultiple(a: int, c: int)
    requires c >= 1 && -c < a * c < c
    ensures a == 0
  {
    if a != 0 {
      MulMono(1, a, if a >= 1 then c else 0);
      MulMono(a, -1, if a <= -1 then c else 0);
      assert false;
    }
  }

  /** Quotient and remainder are the only ones. */
  lemma Division(x: int, q: int, r: int, c: int)
    requires c >= 1 && 0 <= r < c && x == q * c + r
    ensures x / c == q && x % c == r
  {
    assert x == x / c * c + x % c;
    assert (q - x / c) * c == x % c - r;
    SmallMultiple(q - x / c, c);
  }

  lemma Previous(x: int, c: int)
    requires c >= 1 && x % c > 0
    ensures (x - 1) % c == x % c - 1
  {
    Division(x - 1, x / c, x % c - 1, c);
  }

  lemma MulLess(u: int, r: int, n: int)
    requires u >= 1 && 0 <= r < n
    ensures 0 <= u * r < u * n
  {
  }

  lemma Expand(q: int, n: int, r: int, u: int)
    ensures (q * n + r) * u == q * (u * n) + u * r
  {
    assert (q * n + r) * u == (q * n) * u + r * u;
    assert (q * n) * u == q * (n * u);
  }

  lemma ScaledMod(x: int, u: int, n: int)
    requires u >= 1 && n >= 1
    ensures u * n >= 1 && (x * u) % (u * n) == u * (x % n)
  {
    var q, r, c := x / n, x % n, u * n;
    MulLess(u, r, n);
    Expand(q, n, r, u);
    assert x == q * n + r;
    var y := x * u;
    assert y == q * c + u * r;
    Division(y, q, u * r, c);
  }

  lemma SameResidue(a: int, b: int, n: int)
    requires n >= 1
    ensures (b - a) % n == 0 <==> a % n == b % n
  {
    assert a == a / n * n + a % n && b == b / n * n + b % n;
    if (b - a) % n == 0 {
      var q := (b - a) / n;
      assert b - a == q * n;
      assert b == (a / n + q) * n + a % n;
      Division(b, a / n + q, a % n, n);
    } else if a % n == b % n {
      assert b - a == (b / n - a / n) * n;
      Division(b - a, b / n - a / n, 0, n);
    }
  }

  /** Rounded down to a multiple of u, e is a multiple of u * n ahead of j exactly when j is itself
      such a multiple and the next digit, of base n, agrees. */
  lemma SlotsMeet(u: nat, n: nat, j: nat, e: nat)
    requires u >= 1 && n >= 1
    ensures u * n >= 1
    ensures (e - e % u - j) % (u * n) == 0 <==> j % u == 0 && j / u % n == e / u % n
  {
    var a, b, c := j / u, e / u, u * n;
    MulLess(u, 0, n);
    var m := b * u;
    assert e - e % u == m;
    var x := m - j;
    if j % u == 0 {
      assert x == (b - a) * u;
      ScaledMod(b - a, u, n);
      SameResidue(a, b, n);
    } else if x % c == 0 {
      var q := x / c;
      assert x == q * c;
      Expand(q, n, 0, u);
      assert j == (b - q * n) * u;
      Division(j, b - q * n, 0, u);
    }
  }

  lemma RoundDown(x: nat, c: nat)
    requires c >= 1
    ensures 0 <= x - x % c && (x - x % c) % c == 0
  {
    Division(x - x % c, x / c, 0, c);
  }

  lemma QuotientBounds(d: nat, q: nat, g: nat)
    requires g >= 1
    ensures d >= q * g <==> d / g >= q
  {
    assert d == d / g * g + d % g;
    if d / g >= q {
      MulMono(q, d / g, g);
    } else {
      MulMono(d / g + 1, q, g);
    }
  }

  /** A multiple of u * n is a multiple of u whose next digit, of base n, is 0. */
  lemma Digits(u: nat, n: nat, j: nat)
    requires u >= 1 && n >= 1
    ensures u * n >= 1 && (j % (u * n) == 0 <==> j % u == 0 && j / u % n == 0)
  {
    var a, c := j / u, u * n;
    MulLess(u, 0, n);
    if j % u == 0 {
      assert j == a * u;
      ScaledMod(a, u, n);
    } else if j % c == 0 {
      assert j == j / c * c;
      Expand(j / c, n, 0, u);
      Division(j, j / c * n, 0, u);
    }
  }
}
