/** Products and quotients of naturals, each step small enough to need no search. */
module Arithmetic {
  lemma Distribute(x: int, y: int, m: int)
    ensures (x + y) * m == x * m + y * m
  {
  }

  lemma ProductNonNegative(x: nat, m: nat)
    ensures x * m >= 0
  {
  }

  lemma MulStep(a: nat, b: nat, m: nat)
    requires a < b
    ensures a * m + m <= b * m
  {
    var d: nat := b - a - 1;
    assert b == (a + 1) + d;
    Distribute(a + 1, d, m);
    Distribute(a, 1, m);
    ProductNonNegative(d, m);
  }

  lemma QuotientIs(n: nat, m: nat, q: nat, r: nat)
    requires r < m && n == q * m + r
    ensures n / m == q && n % m == r
  {
    var d := n / m;
    if d < q {
      MulStep(d, q, m);
    } else if d > q {
      MulStep(q, d, m);
    }
  }

  /** floor(n * up / down). */
  function Scaled(n: nat, up: nat, down: nat): nat
    requires down > 0
  {
    n * up / down
  }

  lemma Substitute(a: int, x: int, y: int)
    requires x == y
    ensures a * x == a * y
  {
  }

  lemma CutIdentity(w: nat, k: nat, l: nat, pd: nat, pl: nat)
    ensures (w * (pd * pl) + (k * pl + l)) * pd == (w * pd + k) * (pd * pl) + l * pd
  {
  }

  // A digit string split in kept and lost digits: dropping the lost ones is a floor.
  lemma FloorOfCut(n: nat, pf: nat, w: nat, k: nat, l: nat, pd: nat, pl: nat)
    requires l < pl && pd > 0 && pf == pd * pl && n == w * pf + (k * pl + l)
    ensures pf > 0 && Scaled(n, pd, pf) == w * pd + k
  {
    MulStep(0, pl, pd);
    assert 0 * pd == 0;
    assert pd * pl > 0;
    Substitute(w, pf, pd * pl);
    Substitute(w * pd + k, pf, pd * pl);
    CutIdentity(w, k, l, pd, pl);
    MulStep(l, pl, pd);
    QuotientIs(n * pd, pf, w * pd + k, l * pd);
  }

  lemma ShortIdentity(w: nat, k: nat, pf: nat, pr: nat)
    ensures (w * pf + k) * (pf * pr) == (w * (pf * pr) + k * pr) * pf
  {
  }

  // A digit string that is short of digits: scaling it up is exact.
  lemma FloorOfShort(n: nat, pd: nat, w: nat, k: nat, pf: nat, pr: nat)
    requires pf > 0 && pd == pf * pr && n == w * pf + k
    ensures Scaled(n, pd, pf) == w * pd + k * pr
  {
    Substitute(w, pd, pf * pr);
    Substitute(n, pd, pf * pr);
    ShortIdentity(w, k, pf, pr);
    QuotientIs(n * pd, pf, w * pd + k * pr, 0);
  }

  lemma TenTimes(a: nat, b: nat, c: nat)
    ensures 10 * (a * b + c) == a * (10 * b) + 10 * c
  {
  }

  lemma Associate(a: nat, b: nat, c: nat)
    ensures a * b * c == a * (b * c)
  {
  }

  /** The part of an amount that is whole units. */
  function WholePortion(v: nat, unit: nat): nat
    requires unit > 0
  {
    v - v % unit
  }

  lemma PortionBounds(v: nat, unit: nat)
    requires unit > 0
    ensures 0 <= WholePortion(v, unit) <= v < WholePortion(v, unit) + unit
  {
  }

  // An amount cut to whole units: what is lost is the remainder.
  lemma WholeUnits(v: nat, x: nat, w: nat, k: nat, l: nat, pd: nat, pl: nat, unit: nat)
    requires l < unit && v == x * unit + l && x == w * pl + k && pd == pl * unit
    ensures w * pd + k * unit == WholePortion(v, unit)
  {
    QuotientIs(v, unit, x, l);
    Distribute(w * pl, k, unit);
    Associate(w, pl, unit);
    Substitute(unit, x, w * pl + k);
    Substitute(w, pd, pl * unit);
  }
}
