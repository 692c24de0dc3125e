/** Powers of two. */
module Powers {

  function Pow2(n: nat): (r: nat)
    ensures r >= 1
  {
    if n == 0 then 1 else 2 * Pow2(n - 1)
  }

  /** `m << n`. */
  function Shift(m: nat, n: nat): (r: nat)
    ensures r == m * Pow2(n)
  {
    if n == 0 then m else
      assert 2 * (m * Pow2(n - 1)) == m * (2 * Pow2(n - 1));
      2 * Shift(m, n - 1)
  }

  lemma {:induction false} Pow2Add(m: nat, n: nat)
    ensures Pow2(m + n) == Pow2(m) * Pow2(n)
    decreases m
  {
    if m > 0 {
      Pow2Add(m - 1, n);
      assert m + n - 1 == (m - 1) + n;
      assert 2 * (Pow2(m - 1) * Pow2(n)) == (2 * Pow2(m - 1)) * Pow2(n);
    }
  }

  lemma {:induction false} Pow2Grows(m: nat, n: nat)
    ensures m < n ==> 2 * Pow2(m) <= Pow2(n)
    ensures m <= n ==> Pow2(m) <= Pow2(n)
    decreases n
  {
    if m < n {
      Pow2Grows(m, n - 1);
    }
  }

  /** The exponent of the largest power of two that is at most n. */
  function Log2(n: nat): (k: nat)
    requires n > 0
    ensures Pow2(k) <= n < 2 * Pow2(k)
  {
    if n == 1 then 0 else 1 + Log2(n / 2)
  }

  lemma Log2Is(n: nat, k: nat)
    requires Pow2(k) <= n < 2 * Pow2(k)
    ensures Log2(n) == k
  {
    Pow2Grows(k, Log2(n));
    Pow2Grows(Log2(n), k);
  }

  /** Different multiples are at least one apart. */
  lemma MultiplesApart(k: int, q: int, b: nat)
    ensures k < q ==> k * b + b <= q * b
    ensures k <= q ==> k * b <= q * b
  {
    if k < q {
      assert (k + 1) * b <= q * b;
    }
  }

  /** A number is its quotient and remainder in one way. */
  lemma Divides(q: int, r: nat, d: nat)
    requires r < d
    ensures (q * d + r) / d == q && (q * d + r) % d == r
  {
    var n := q * d + r;
    var q', r' := n / d, n % d;
    assert n == q' * d + r' && 0 <= r' < d;
    MultiplesApart(q', q, d);
    MultiplesApart(q, q', d);
  }

  lemma QuotientAndRemainder(n: nat, d: nat)
    requires d > 0
    ensures n == (n / d) * d + n % d && 0 <= n % d < d && 0 <= n / d
  {
  }

  /** Below twice a number, the quotient by it is one bit. */
  lemma TopBit(n: nat, d: nat)
    requires n < 2 * d
    ensures n == n % d + (if n / d == 1 then d else 0) && n / d <= 1
  {
    QuotientAndRemainder(n, d);
    MultiplesApart(1, n / d, d);
  }
}
