/** The machine words of the ring's counters: wrapping arithmetic and bit masks on 64 bits. */
module Words64 {
  import opened Multiples

  const WORD: int := 0x1_0000_0000_0000_0000

  /** HALF_RANGE: usize::MAX / 2. */
  const HALF: int := (WORD - 1) / 2

  type Word = x: int | 0 <= x < WORD

  function Wrap(x: int): (w: Word) {
    x % WORD
  }

  function WrappingAdd(x: Word, y: Word): (w: Word) {
    Wrap(x + y)
  }

  function WrappingSub(x: Word, y: Word): (w: Word) {
    Wrap(x - y)
  }

  function Pow2(k: nat): (n: nat)
    ensures n >= 1
  {
    if k == 0 then 1 else 2 * Pow2(k - 1)
  }

  /** Bitwise and. */
  function And(x: nat, y: nat): (z: nat)
    ensures z <= x && z <= y
    decreases x
  {
    if x == 0 || y == 0 then 0
    else 2 * And(x / 2, y / 2) + (if x % 2 == 1 && y % 2 == 1 then 1 else 0)
  }

  /** Masking with 2^k - 1 is the remainder by 2^k. */
  lemma {:induction false} MaskIsRemainder(x: nat, k: nat)
    ensures And(x, Pow2(k) - 1) == x % Pow2(k)
    decreases k
  {
    if k == 0 {
    } else if x == 0 {
    } else {
      var m := Pow2(k - 1);
      MaskIsRemainder(x / 2, k - 1);
      assert (2 * m - 1) / 2 == m - 1 && (2 * m - 1) % 2 == 1;
      HalvedRemainder(x, m);
    }
  }

  lemma HalvedRemainder(x: nat, m: nat)
    requires m >= 1
    ensures x % (2 * m) == 2 * ((x / 2) % m) + x % 2
  {
    var q, r := (x / 2) / m, (x / 2) % m;
    assert x / 2 == q * m + r;
    assert x == q * (2 * m) + (2 * r + x % 2);
    QuotientIsUnique(2 * m, x, q, 2 * r + x % 2);
  }

  /** The test that the ring's constructor makes on capacity and batch size. */
  predicate IsPowerOfTwo(n: Word) {
    n != 0 && And(n, n - 1) == 0
  }

  lemma IsPowerOfTwoExactly(n: Word)
    ensures IsPowerOfTwo(n) <==> exists k: nat :: n == Pow2(k)
  {
    if IsPowerOfTwo(n) {
      var k := ExponentOf(n);
    }
    if k: nat :| n == Pow2(k) {
      PowerPasses(n, k);
    }
  }

  lemma PowerPasses(n: Word, k: nat)
    requires n == Pow2(k)
    ensures IsPowerOfTwo(n)
  {
    hide Pow2;
    MaskIsRemainder(n, k);
    QuotientIsUnique(n, n, 1, 0);
  }

  lemma {:induction false} ExponentOf(n: nat) returns (k: nat)
    requires n != 0 && And(n, n - 1) == 0
    ensures n == Pow2(k)
    decreases n
  {
    if n == 1 {
      k := 0;
    } else {
      OddFails(n);
      assert (n - 1) / 2 == n / 2 - 1;
      var j := ExponentOf(n / 2);
      k := j + 1;
    }
  }

  lemma OddFails(n: nat)
    requires n > 1
    ensures n % 2 == 1 ==> And(n, n - 1) != 0
  {
    if n % 2 == 1 {
      AndItself(n / 2);
      assert (n - 1) / 2 == n / 2;
    }
  }

  lemma {:induction false} AndItself(n: nat)
    ensures And(n, n) == n
    decreases n
  {
    if n != 0 {
      AndItself(n / 2);
    }
  }

  lemma {:induction false} PowersMultiply(j: nat, k: nat)
    ensures Pow2(j) * Pow2(k) == Pow2(j + k)
    decreases j
  {
    if j != 0 {
      PowersMultiply(j - 1, k);
      assert Pow2(j) * Pow2(k) == 2 * (Pow2(j - 1) * Pow2(k));
    }
  }

  lemma {:induction false} PowersGrow(j: nat, k: nat)
    requires j <= k
    ensures Pow2(j) <= Pow2(k)
    decreases k
  {
    if j < k {
      PowersGrow(j, k - 1);
    }
  }

  lemma WordIsPower()
    ensures Pow2(64) == WORD
  {
    assert Pow2(2) == 4;
    PowersMultiply(2, 2);
    PowersMultiply(4, 4);
    PowersMultiply(8, 8);
    PowersMultiply(16, 16);
    PowersMultiply(32, 32);
  }

  /** A power of two below 2^64 divides it. */
  lemma DividesWord(n: nat, k: nat)
    requires n == Pow2(k) && n < WORD
    ensures Multiple(n, WORD)
  {
    WordIsPower();
    if k > 64 {
      PowersGrow(64, k);
    }
    PowersMultiply(64 - k, k);
    Product(n, Pow2(64 - k));
  }

  /** Reducing first modulo a multiple of n changes nothing modulo n. */
  lemma RemainderOfWrap(x: nat, n: nat)
    requires n > 0 && Multiple(n, WORD)
    ensures Wrap(x) % n == x % n
  {
    AgreesWithRemainder(n, WORD);
    var q := WORD / n;
    var p := x / WORD;
    assert x == p * WORD + Wrap(x);
    assert p * WORD == (p * q) * n by {
      assert WORD == q * n;
      Associate(p, q, n);
    }
    var y := Wrap(x);
    assert y == (y / n) * n + y % n;
    assert x == (p * q + y / n) * n + y % n by {
      Distribute(p * q + y / n, p * q, n);
    }
    QuotientIsUnique(n, x, p * q + y / n, y % n);
  }

  lemma Associate(p: int, q: int, n: int)
    ensures p * (q * n) == (p * q) * n
  {
  }

  /** Wrapping is the identity below 2^64 and congruent everywhere. */
  lemma WrapFacts(x: int)
    ensures 0 <= x < WORD ==> Wrap(x) == x
    ensures 0 - WORD <= x < 0 ==> Wrap(x) == x + WORD
  {
  }

  lemma WrapShifts(x: int, p: int)
    ensures Wrap(x + p * WORD) == Wrap(x)
  {
  }

  lemma WrapParts(x: int)
    ensures Wrap(x) == x + (-(x / WORD)) * WORD
  {
  }

  lemma WrapAddsUp(x: int, y: int)
    ensures Wrap(Wrap(x) + y) == Wrap(x + y)
    ensures Wrap(Wrap(x) - y) == Wrap(x - y) && Wrap(y - Wrap(x)) == Wrap(y - x)
  {
    var p := x / WORD;
    WrapParts(x);
    WrapShifts(x + y, -p);
    WrapShifts(x - y, -p);
    WrapShifts(y - x, p);
  }

  /** The wrapped difference of two wrapped counters is the difference, wrapped. */
  lemma WrappedDifference(x: nat, y: nat)
    ensures WrappingSub(Wrap(x), Wrap(y)) == Wrap(x - y)
  {
    WrapAddsUp(x, Wrap(y));
    WrapAddsUp(y, x);
  }

  /** Two counters less than a full cycle apart are equal exactly when their words are. */
  lemma SameWord(x: nat, y: nat)
    requires x <= y < x + WORD
    ensures Wrap(x) == Wrap(y) <==> x == y
  {
    WrappedDifference(y, x);
    WrapFacts(y - x);
    WrapFacts(0);
  }
}
