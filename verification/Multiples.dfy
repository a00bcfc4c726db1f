/** Multiples of a positive step, in a form that keeps the ring's invariants linear. */
module Multiples {

  /** x is one of 0, n, 2n, ... */
  ghost predicate Multiple(n: nat, x: int)
    decreases if x < 0 then 0 else x
  {
    n > 0 && (x == 0 || (x >= n && Multiple(n, x - n)))
  }

  /** Two different multiples of n are at least n apart. */
  lemma {:induction false} Gap(n: nat, x: int, y: int)
    requires Multiple(n, x) && Multiple(n, y) && x < y
    ensures x + n <= y
    decreases if x < 0 then 0 else x
  {
    if x != 0 {
      Gap(n, x - n, y - n);
    }
  }

  lemma {:induction false} Sum(n: nat, x: int, y: int)
    requires Multiple(n, x) && Multiple(n, y)
    ensures Multiple(n, x + y)
    decreases if x < 0 then 0 else x
  {
    if x != 0 {
      Sum(n, x - n, y);
    }
  }

  lemma {:induction false} Difference(n: nat, x: int, y: int)
    requires Multiple(n, x) && Multiple(n, y) && x <= y
    ensures Multiple(n, y - x)
    decreases if x < 0 then 0 else x
  {
    if x != 0 {
      Gap(n, 0, y);
      Difference(n, x - n, y - n);
    }
  }

  lemma {:induction false} Product(n: nat, k: nat)
    requires n > 0
    ensures Multiple(n, k * n)
  {
    if k != 0 {
      Product(n, k - 1);
      assert k * n == (k - 1) * n + n;
    }
  }

  /** The recursive form agrees with the remainder operator. */
  lemma {:induction false} AgreesWithRemainder(n: nat, x: nat)
    requires n > 0
    ensures Multiple(n, x) <==> x % n == 0
    decreases x
  {
    if x < n {
      if x != 0 {
        assert !Multiple(n, x);
        assert x / n == 0;
      }
    } else {
      AgreesWithRemainder(n, x - n);
      RemainderStep(n, x);
    }
  }

  lemma RemainderStep(n: nat, x: nat)
    requires 0 < n <= x
    ensures x % n == (x - n) % n && x / n == (x - n) / n + 1
  {
    var q, r := (x - n) / n, (x - n) % n;
    assert x == (q + 1) * n + r;
    QuotientIsUnique(n, x, q + 1, r);
  }

  lemma QuotientIsUnique(n: nat, x: nat, q: int, r: int)
    requires n > 0 && x == q * n + r && 0 <= r < n
    ensures x / n == q && x % n == r
  {
    var q', r' := x / n, x % n;
    var d := q - q';
    assert d * n == r' - r by {
      Distribute(q, q', n);
    }
    AtLeastOneStep(d, n);
    AtLeastOneStep(-d, n);
  }

  lemma Distribute(p: int, q: int, n: int)
    ensures (p - q) * n == p * n - q * n
  {
  }

  lemma AtLeastOneStep(d: int, n: nat)
    ensures d >= 1 ==> d * n >= n
    ensures d >= 0 ==> d * n >= 0
    ensures (-d) * n == -(d * n)
  {
    if d >= 1 {
      Distribute(d, 1, n);
      assert (d - 1) * n >= 0;
    }
  }

  /** Multiples of a multiple. */
  lemma {:induction false} Transitive(m: nat, n: nat, x: int)
    requires Multiple(m, n) && Multiple(n, x)
    ensures Multiple(m, x)
    decreases if x < 0 then 0 else x
  {
    if x != 0 {
      Transitive(m, n, x - n);
      Sum(m, x - n, n);
    }
  }
}
