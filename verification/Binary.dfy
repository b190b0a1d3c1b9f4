/** Powers of two, bits of unbounded integers, and the reals that they scale. */
module Binary {

  function Pow2(n: nat): (r: nat)
    ensures r > 0
  {
    if n == 0 then 1 else 2 * Pow2(n - 1)
  }

  lemma {:induction false} Pow2Sum(a: nat, b: nat)
    ensures Pow2(a + b) == Pow2(a) * Pow2(b)
  {
    if a > 0 { Pow2Sum(a - 1, b); }
  }

  lemma {:induction false} Pow2Monotone(a: nat, b: nat)
    requires a <= b
    ensures Pow2(a) <= Pow2(b)
  {
    if a < b { Pow2Monotone(a, b - 1); }
  }

  /** The number of binary digits, as `mpz_sizeinbase(n, 2)` gives it for positive n. */
  function BitLength(n: nat): (bits: nat)
    ensures n > 0 ==> bits > 0
  {
    if n == 0 then 0 else 1 + BitLength(n / 2)
  }

  lemma {:induction false} BitLengthBounds(n: nat)
    requires n > 0
    ensures Pow2(BitLength(n) - 1) <= n < Pow2(BitLength(n))
  {
    if n > 1 { BitLengthBounds(n / 2); }
  }

  /** As `mpz_fdiv_q_2exp` for nonnegative n. */
  function Quotient(n: nat, i: nat): (q: nat) {
    Whole(n, Pow2(i))
  }

  function Whole(n: nat, d: nat): (q: nat)
    requires d > 0
  {
    n / d
  }

  /** As `mpz_tstbit`. */
  predicate Bit(n: nat, i: nat) {
    Quotient(n, i) % 2 == 1
  }

  /** The index of the lowest set bit, as `mpz_scan1(n, 0)`. */
  function LowestBit(n: nat): (i: nat)
    requires n > 0
  {
    if n % 2 == 1 then 0 else 1 + LowestBit(n / 2)
  }

  lemma {:induction false} LowestBitDivides(n: nat, k: nat)
    requires n > 0
    ensures k <= LowestBit(n) <==> n % Pow2(k) == 0
  {
    if k > 0 {
      HalfRemainder(n, Pow2(k - 1));
      if n % 2 == 0 { LowestBitDivides(n / 2, k - 1); }
    }
  }

  /** Dividing by 2d is halving and dividing by d. */
  lemma HalfRemainder(n: nat, d: nat)
    requires d > 0
    ensures n % (2 * d) == 2 * (n / 2 % d) + n % 2
    ensures n / (2 * d) == n / 2 / d
  {
    var h := n / 2;
    var q, r := h / d, h % d;
    assert n == (2 * d) * q + (2 * r + n % 2);
    DivisionUnique(n, 2 * d, q, 2 * r + n % 2);
  }

  lemma OnlyZeroIsSmall(d: int, k: int)
    requires d > 0
    ensures k == 0 || d * k >= d || d * k <= -d
  {
  }

  lemma DivisionUnique(n: int, d: int, q: int, r: int)
    requires d > 0 && n == d * q + r && 0 <= r < d
    ensures n / d == q && n % d == r
  {
    var q', r' := n / d, n % d;
    assert d * q' + r' == d * q + r;
    assert d * (q' - q) == d * q' - d * q;
    OnlyZeroIsSmall(d, q' - q);
  }

  // ------------------------------------------------ integers times powers of two

  /** m times 2^e, counted in units of 2^unit. */
  function At(m: nat, e: int, unit: int): (r: nat)
    requires unit <= e
  {
    m * Pow2(e - unit)
  }

  function Distance(a: int, b: int): (d: nat)
  {
    if a <= b then b - a else a - b
  }

  /** A finer unit multiplies every count by the same power of two. */
  lemma AtFiner(m: nat, e: int, coarse: int, fine: int)
    requires fine <= coarse <= e
    ensures At(m, e, fine) == At(m, e, coarse) * Pow2(coarse - fine)
  {
    Pow2Sum(e - coarse, coarse - fine);
    Associate(m, Pow2(e - coarse), Pow2(coarse - fine));
  }

  lemma Associate(a: int, b: int, c: int)
    ensures a * (b * c) == a * b * c
  {
  }

  lemma TimesMonotone(a: int, b: int, k: nat)
    requires a <= b
    ensures a * k <= b * k
  {
  }

  lemma TimesStrict(a: int, b: int, k: nat)
    requires a < b && k > 0
    ensures a * k < b * k
  {
  }

  /** The two pairs stand for one number. */
  ghost predicate SameValue(m: nat, e: int, m': nat, e': int) {
    forall unit :: unit <= e && unit <= e' ==> At(m, e, unit) == At(m', e', unit)
  }
}
