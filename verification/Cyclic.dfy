/** Positions on a ring of `n` places. */
module Cyclic {

  /** The place `i` steps after `c`. */
  function Slot(c: nat, i: nat, n: nat): (k: nat)
    requires n > 0
    ensures k < n
  {
    (c + i) % n
  }

  lemma MulAtLeast(a: int, n: nat)
    requires a >= 1
    ensures a * n >= n
  {
    assert (a - 1) * n >= 0;
  }

  lemma SmallMultiple(d: int, n: int)
    requires n > 0 && -n < d * n < n
    ensures d == 0
  {
    assert (-d) * n == -(d * n);
    if d > 0 { MulAtLeast(d, n); }
    if d < 0 { MulAtLeast(-d, n); }
  }

  lemma PlusRing(x: nat, n: nat)
    requires n > 0
    ensures (x + n) % n == x % n
  {
    var d := (x + n) / n - x / n - 1;
    assert d * n == (x + n) / n * n - x / n * n - n;
    SmallMultiple(d, n);
  }

  lemma {:induction false} ModIsRemainder(x: nat, n: nat)
    requires n > 0
    ensures x < n ==> x % n == x
    ensures n <= x < 2 * n ==> x % n == x - n
  {
    if x >= n { PlusRing(x - n, n); }
  }

  lemma {:induction false} PlusRings(q: nat, x: nat, n: nat)
    requires n > 0
    ensures (q * n + x) % n == x % n
  {
    if q > 0 {
      PlusRings(q - 1, x, n);
      assert q * n + x == ((q - 1) * n + x) + n;
      assert (q - 1) * n >= 0;
      PlusRing((q - 1) * n + x, n);
    }
  }

  /** Only the start's place on the ring matters. */
  lemma SlotFromPlace(c: nat, i: nat, n: nat)
    requires n > 0
    ensures Slot(c % n, i, n) == Slot(c, i, n)
  {
    assert c + i == c / n * n + (c % n + i);
    PlusRings(c / n, c % n + i, n);
  }

  lemma SlotCases(c: nat, i: nat, n: nat)
    requires i < n
    ensures Slot(c, i, n) == if c % n + i < n then c % n + i else c % n + i - n
  {
    SlotFromPlace(c, i, n);
    ModIsRemainder(c % n + i, n);
  }

  lemma SlotsDiffer(c: nat, i: nat, j: nat, n: nat)
    requires i < j < n
    ensures Slot(c, i, n) != Slot(c, j, n)
  {
    SlotCases(c, i, n);
    SlotCases(c, j, n);
  }

  /** Every place is reached within one turn. */
  lemma SlotReached(c: nat, k: nat, n: nat) returns (i: nat)
    requires k < n
    ensures i < n && Slot(c, i, n) == k
  {
    i := if k >= c % n then k - c % n else k + n - c % n;
    SlotCases(c, i, n);
  }

  /** Moving the start by `w` steps brings a place `w` steps nearer. */
  lemma SlotMoves(c: nat, moved: nat, w: nat, d: nat, n: nat)
    requires n > 0 && moved % n == (c + w) % n && w <= d
    ensures Slot(moved, d - w, n) == Slot(c, d, n)
  {
    SlotFromPlace(moved, d - w, n);
    SlotFromPlace(c + w, d - w, n);
  }

  // ---- Remainders of products ---------------------------------------------------------

  /** Folding first onto a multiple of `m` changes nothing. */
  lemma FoldTwice(x: nat, big: nat, m: nat)
    requires 0 < m < big && big % m == 0
    ensures x % big % m == x % m
  {
    FoldSum(x / big, big / m, x % big, m, big);
    assert x == (x / big) * big + x % big;
  }

  lemma FoldSum(q: nat, t: nat, r: nat, m: nat, big: nat)
    requires 0 < m && big == t * m
    ensures (q * big + r) % m == r % m
  {
    Associates(q, t, m);
    PlusRings(q * t, r, m);
  }

  lemma Associates(a: nat, b: nat, c: nat)
    ensures a * (b * c) == (a * b) * c && a * b >= 0
  {}

  /** Only the factor's remainder matters. */
  lemma TurnOff(h1: nat, h2: nat, i: nat, m: nat)
    requires 0 < m
    ensures (h1 + i * h2) % m == (h1 + (i % m) * h2) % m
  {
    TurnSum(h1, h2, i / m, i % m, m);
    assert i == (i / m) * m + i % m;
  }

  lemma TurnSum(h1: nat, h2: nat, q: nat, r: nat, m: nat)
    requires 0 < m
    ensures (h1 + (q * m + r) * h2) % m == (h1 + r * h2) % m
  {
    Distributes(q, m, r, h2);
    PlusRings(q * h2, h1 + r * h2, m);
  }

  lemma Distributes(q: nat, m: nat, r: nat, h: nat)
    ensures (q * m + r) * h == (q * h) * m + r * h && q * h >= 0 && r * h >= 0
  {
    assert (q * m + r) * h == (q * m) * h + r * h;
    assert (q * m) * h == (q * h) * m;
  }
}
