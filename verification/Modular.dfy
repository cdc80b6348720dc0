/** Index arithmetic shared by the ring buffers: which position a slot stands for. */
module Modular {

  /** A quotient and remainder that fit are the quotient and the remainder. */
  lemma DivisionIsUnique(n: int, a: int, b: int, x: int, y: int)
    requires 0 <= x < n && 0 <= y < n
    requires n * a + x == n * b + y
    ensures a == b && x == y
  {
    var d := a - b;
    assert n * d == y - x by {
      assert n * d == n * a - n * b;
    }
  }

  lemma Remainder(n: int, p: int, quotient: int, remainder: int)
    requires 0 <= remainder < n
    requires p == n * quotient + remainder
    ensures p % n == remainder && p / n == quotient
  {
    DivisionIsUnique(n, p / n, quotient, p % n, remainder);
  }

  /** Two positions less than n apart that fall on the same slot are the same position. */
  lemma SameSlot(n: int, p: int, q: int)
    requires n > 0
    requires p % n == q % n
    requires q <= p < q + n
    ensures p == q
  {
    var x := p - q;
    var b := q / n;
    if q % n + x < n {
      Remainder(n, p, b, q % n + x);
    } else {
      assert n * (b + 1) == n * b + n;
      Remainder(n, p, b + 1, q % n + x - n);
    }
  }

  /** Going once round the ring comes back to the same slot. */
  lemma OnceRound(n: int, p: int)
    requires n > 0
    ensures (p + n) % n == p % n
  {
    assert n * (p / n + 1) == n * (p / n) + n;
    Remainder(n, p + n, p / n + 1, p % n);
  }

  /** Every slot stands for exactly one position of the window [base, base + n). */
  lemma WindowPosition(n: int, base: int, p: int) returns (q: int)
    requires n > 0
    ensures base <= q < base + n && q % n == p % n
  {
    var offset := (p % n) - (base % n);
    if offset < 0 {
      q := base + offset + n;
      assert n * (base / n + 1) == n * (base / n) + n;
      Remainder(n, q, base / n + 1, p % n);
    } else {
      q := base + offset;
      Remainder(n, q, base / n, p % n);
    }
  }

  /** Reducing a position first does not change the slot reached from it. */
  lemma SlotAfter(n: int, p: int, i: int)
    requires n > 0
    ensures (p % n + i) % n == (p + i) % n
  {
    var q, r := (p % n + i) / n, (p % n + i) % n;
    assert n * (p / n + q) == n * (p / n) + n * q;
    Remainder(n, p + i, p / n + q, r);
  }
}
