/**
 Masking a free-running 32-bit counter: for a power of two, `counter & (size - 1)` is the
 remainder, also after the counter has wrapped around.
 */
module Masks {
  const WORD := 0x1_0000_0000

  function Pow2(k: nat): (p: nat)
    ensures 0 < p
  {
    if k == 0 then 1 else 2 * Pow2(k - 1)
  }

  /** Bitwise and. */
  function And(x: nat, y: nat): nat {
    if x == 0 || y == 0 then 0 else (x % 2) * (y % 2) + 2 * And(x / 2, y / 2)
  }

  // ---------------------------------------------------------------- division

  lemma Spread(q: nat, e: nat, d: nat)
    ensures (q + 1 + e) * d == q * d + d + e * d && 0 <= e * d
  {
  }

  lemma Divide(x: nat, d: nat)
    requires 0 < d
    ensures x == (x / d) * d + x % d && 0 <= x % d < d
  {
  }

  lemma Unique(d: nat, q: nat, r: nat, p: nat, t: nat)
    requires q * d + r == p * d + t && r < d && t < d
    ensures q == p && r == t
  {
    if q < p {
      Spread(q, p - q - 1, d);
    } else if p < q {
      Spread(p, q - p - 1, d);
    }
  }

  lemma Remainder(x: nat, d: nat, q: nat, r: nat)
    requires x == q * d + r && r < d
    ensures x % d == r && x / d == q
  {
    Divide(x, d);
    Unique(d, q, r, x / d, x % d);
  }

  // ---------------------------------------------------------------- masks

  lemma AndOdd(x: nat, m: nat)
    requires 0 < m
    ensures And(x, 2 * m - 1) == x % 2 + 2 * And(x / 2, m - 1)
  {
    assert (2 * m - 1) / 2 == m - 1 && (2 * m - 1) % 2 == 1;
  }

  lemma Double(q: nat, m: nat)
    ensures q * (2 * m) == 2 * (q * m)
  {
  }

  lemma EvenDivisor(x: nat, m: nat)
    requires 0 < m
    ensures x % (2 * m) == x % 2 + 2 * ((x / 2) % m)
  {
    var q, r := (x / 2) / m, (x / 2) % m;
    Divide(x / 2, m);
    Double(q, m);
    Remainder(x, 2 * m, q, x % 2 + 2 * r);
  }

  lemma {:induction false} MaskIsRemainder(x: nat, k: nat)
    ensures And(x, Pow2(k) - 1) == x % Pow2(k)
  {
    if k > 0 {
      MaskIsRemainder(x / 2, k - 1);
      AndOdd(x, Pow2(k - 1));
      EvenDivisor(x, Pow2(k - 1));
    }
  }

  // ---------------------------------------------------------------- wrap-around

  lemma Twice(x: nat, y: nat)
    ensures 2 * (x * y) == (2 * x) * y
  {
  }

  lemma {:induction false} Pow2Product(a: nat, b: nat)
    ensures Pow2(a + b) == Pow2(a) * Pow2(b)
  {
    if a > 0 {
      Pow2Product(a - 1, b);
      Twice(Pow2(a - 1), Pow2(b));
    }
  }

  lemma WordIsPow2()
    ensures Pow2(32) == WORD
  {
    assert Pow2(2) == 4 && Pow2(4) == 16;
    Pow2Product(4, 4);
    Pow2Product(8, 8);
    Pow2Product(16, 16);
  }

  lemma Nest(q: nat, m: nat, d: nat, c: nat)
    ensures q * (m * d) + c * d == (q * m + c) * d
  {
    assert q * (m * d) == (q * m) * d;
  }

  lemma NestedRemainder(x: nat, m: nat, d: nat)
    requires 0 < m && 0 < d && 0 < m * d
    ensures (x % (m * d)) % d == x % d
  {
    var q, y := x / (m * d), x % (m * d);
    Divide(x, m * d);
    Divide(y, d);
    Nest(q, m, d, y / d);
    Remainder(x, d, q * m + y / d, y % d);
  }

  /** Wrapping a counter does not change its place in a ring of a power-of-two size. */
  lemma WrapKeepsPlace(x: nat, k: nat)
    requires k <= 32
    ensures (x % WORD) % Pow2(k) == x % Pow2(k)
  {
    WordIsPow2();
    hide Pow2;
    Pow2Product(32 - k, k);
    NestedRemainder(x, Pow2(32 - k), Pow2(k));
  }

  /** Positions less than a ring apart have different places. */
  lemma PlacesApart(a: nat, b: nat, d: nat)
    requires a < b < a + d
    ensures a % d != b % d
  {
    var q, r := a / d, a % d;
    Divide(a, d);
    Spread(q, 0, d);
    if b - a + r < d {
      Remainder(b, d, q, r + (b - a));
    } else {
      Remainder(b, d, q + 1, r + (b - a) - d);
    }
  }

  /** Two counters less than a word apart are equal after wrapping only if they are equal. */
  lemma WrapsApart(a: nat, b: nat)
    requires a <= b < a + WORD
    ensures a % WORD == b % WORD <==> a == b
  {
    if a < b { PlacesApart(a, b, WORD); }
  }

  lemma Larger(a: nat, b: nat)
    requires 2 <= a && 0 < b
    ensures b < a * b
  {
  }

  lemma SmallerThanWord(k: nat)
    requires k <= 31
    ensures Pow2(k) < WORD
  {
    WordIsPow2();
    Pow2Product(32 - k, k);
    assert Pow2(32 - k) == 2 * Pow2(31 - k);
    hide Pow2;
    Larger(Pow2(32 - k), Pow2(k));
  }
}
