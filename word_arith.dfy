/**
 * Arithmetic on unsigned machine words. A right shift of an unsigned value by
 * k bits is division by 2^k, and masking with 2^n - 1 is the remainder modulo
 * 2^n; these lemmas relate the quotients and remainders that arise.
 */
module WordArith {
  /** 2^k. */
  function Pow2(k: nat): (p: nat)
    ensures p >= 1
  {
    if k == 0 then 1 else 2 * Pow2(k - 1)
  }

  lemma {:induction false} Pow2Add(a: nat, b: nat)
    ensures Pow2(a + b) == Pow2(a) * Pow2(b)
  {
    if a > 0 {
      Pow2Add(a - 1, b);
      assert Pow2(a + b) == 2 * Pow2(a - 1 + b);
    }
  }

  lemma {:induction false} Pow2Monotone(a: nat, b: nat)
    requires a <= b
    ensures Pow2(a) <= Pow2(b)
  {
    if a < b {
      Pow2Monotone(a, b - 1);
    }
  }

  lemma MulMonotone(p: int, a: int, b: int)
    requires p >= 0 && a <= b
    ensures p * a <= p * b
  {
  }

  /** Quotient and remainder are the only pair that reassembles `w`. */
  lemma DivModUnique(w: int, d: int, q: int, r: int)
    requires d > 0 && 0 <= r < d && w == d * q + r
    ensures w / d == q && w % d == r
  {
    var q', r' := w / d, w % d;
    if q < q' {
      MulMonotone(d, q + 1, q');
      assert false;
    } else if q > q' {
      MulMonotone(d, q' + 1, q);
      assert false;
    }
  }

  /** Shifting down then masking reads the same field as masking then shifting down. */
  lemma FieldOfQuotient(w: nat, p: nat, m: nat)
    requires p >= 1 && m >= 1
    ensures (w / p) % m == (w % (p * m)) / p
  {
    MulMonotone(p, 1, m);
    var q, r := w / (p * m), w % (p * m);
    var s, t := r / p, r % p;
    if s >= m {
      MulMonotone(p, m, s);
      assert false;
    }
    assert w == p * (m * q + s) + t;
    DivModUnique(w, p, m * q + s, t);
    DivModUnique(w / p, m, q, s);
  }

  /** Two shifts in a row are one shift by the sum of the amounts. */
  lemma QuotientOfQuotient(w: nat, p: nat, d: nat)
    requires p >= 1 && d >= 1
    ensures w / (p * d) == (w / p) / d
  {
    MulMonotone(p, 1, d);
    var q, r := w / p, w % p;
    var q2, r2 := q / d, q % d;
    MulMonotone(p, r2 + 1, d);
    assert w == (p * d) * q2 + (p * r2 + r);
    DivModUnique(w, p * d, q2, p * r2 + r);
  }

  /** Dropping the lowest base-`b` digit and then shifting by `p` is one shift by `b * p`. */
  lemma ShiftPastLowDigit(w: nat, b: nat, rest: nat, low: nat, p: nat)
    requires b >= 1 && low < b && p >= 1 && w == b * rest + low
    ensures w / (b * p) == rest / p
  {
    DivModUnique(w, b, rest, low);
    QuotientOfQuotient(w, b, p);
  }
}
