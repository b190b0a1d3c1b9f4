/**
Rounding of an exact integer times a power of two to a binary floating-point format,
once, to nearest with ties to even (section 4.3.1 of IEEE 754).
*/
module Rounding {
  import opened Binary

  /** Digits of the significand, exponent of the smallest subnormal, exponent of the largest binade. */
  datatype Format = Format(precision: nat, minSubnormal: int, maxExponent: int)

  const BINARY16 := Format(11, -24, 15)
  const BINARY32 := Format(24, -149, 127)
  const BINARY64 := Format(53, -1074, 1023)

  /** The least that a descriptor must satisfy: one digit, and a normal binade below the overflow threshold. */
  predicate Sound(f: Format) {
    f.precision >= 1 && f.minSubnormal + f.precision - 1 <= f.maxExponent
  }

  /** A significand at its quantum; zero is (0, q). */
  datatype Scaled = Scaled(m: nat, e: int)

  // ------------------------------------------------------------- the algorithm

  /** The quotient by 2^shift, rounded up on guard and (sticky or odd). */
  function Significand(n: nat, shift: nat): (r: nat)
    requires n > 0
  {
    var quotient := Quotient(n, shift);
    if shift > 0 && Bit(n, shift - 1) && (LowestBit(n) < shift - 1 || quotient % 2 == 1) then quotient + 1 else quotient
  }

  function Shift(n: nat, scale: int, f: Format): (shift: nat) {
    var bits := BitLength(n);
    var needed := if bits > f.precision then bits - f.precision else 0;
    if needed < f.minSubnormal - scale then f.minSubnormal - scale else needed
  }

  /** What rounding would give if there were no largest exponent. */
  function Unbounded(n: nat, scale: int, f: Format): (r: Scaled)
    requires n > 0
  {
    var shift := Shift(n, scale, f);
    Scaled(Significand(n, shift), shift + scale)
  }

  datatype Rounded = Overflow | Exactly(value: Scaled)

  /** `bigint_round_binary_format` on a positive magnitude. */
  function RoundMagnitude(n: nat, scale: int, f: Format): (r: Rounded)
    requires n > 0
  {
    var overflow := f.maxExponent + 1;
    if scale >= overflow || BitLength(n) > overflow - scale then Overflow
    else
      var u := Unbounded(n, scale, f);
      if u.m > 0 && BitLength(u.m) - 1 + u.e > f.maxExponent then Overflow else Exactly(u)
  }

  // --------------------------------------------------------- the specification

  /** c times 2^e has at most `precision` digits and is a multiple of the smallest subnormal. */
  ghost predicate OnGrid(f: Format, c: nat, e: int) {
    c < Pow2(f.precision) && e >= f.minSubnormal
  }

  ghost predicate Closest(n: nat, s: int, v: Scaled, c: nat, e: int, unit: int)
    requires unit <= s && unit <= v.e && unit <= e
  {
    Distance(At(n, s, unit), At(v.m, v.e, unit)) <= Distance(At(n, s, unit), At(c, e, unit))
  }

  /** If the grid point c times 2^e is as close as v, then v is an even multiple of the gap between them. */
  ghost predicate EvenInTie(n: nat, s: int, v: Scaled, c: nat, e: int, unit: int)
    requires unit <= s && unit <= v.e && unit <= e
  {
    var x, y, z := At(n, s, unit), At(v.m, v.e, unit), At(c, e, unit);
    y != z && Distance(x, y) == Distance(x, z) ==> EvenMultiple(y, Distance(y, z))
  }

  ghost predicate EvenMultiple(y: nat, gap: nat) {
    exists j: nat :: y == 2 * j * gap
  }

  /** v is a grid point, no grid point is closer to n times 2^s, and a tie went to the even one. */
  ghost predicate NearestEven(f: Format, n: nat, s: int, v: Scaled) {
    && (exists c: nat, e: int :: OnGrid(f, c, e) && SameValue(c, e, v.m, v.e))
    && (forall c: nat, e: int, unit: int :: OnGrid(f, c, e) && unit <= s && unit <= v.e && unit <= e ==>
          Closest(n, s, v, c, e, unit) && EvenInTie(n, s, v, c, e, unit))
  }

  // ------------------------------------------------------------ one quotient

  /** Rounding up on guard and (sticky or odd) is rounding to the nearest multiple, a tie going to the even one. */
  lemma SignificandIsNearest(n: nat, shift: nat)
    requires n > 0
    ensures IsNearestMultiple(n, Pow2(shift), Significand(n, shift))
  {
    if shift == 0 {
      assert Pow2(0) == 1 && Quotient(n, 0) == n;
    } else {
      GuardAndSticky(n, shift);
      NearestFromRemainder(n, Pow2(shift - 1), Significand(n, shift) != Quotient(n, shift));
    }
  }

  ghost predicate IsNearestMultiple(n: nat, d: nat, r: nat) {
    && 2 * Distance(n, r * d) <= d
    && (2 * Distance(n, r * d) == d ==> r % 2 == 0)
  }

  /** Guard, sticky and parity decide as the remainder does. */
  lemma GuardAndSticky(n: nat, shift: nat)
    requires n > 0 && shift > 0
    ensures var half := Pow2(shift - 1);
      Significand(n, shift) == n / (2 * half) +
        if n % (2 * half) > half || (n % (2 * half) == half && n / (2 * half) % 2 == 1) then 1 else 0
  {
    var half := Pow2(shift - 1);
    assert Pow2(shift) == 2 * half;
    GuardBit(n, half);
    LowestBitDivides(n, shift - 1);
  }

  lemma NearestFromRemainder(n: nat, half: nat, up: bool)
    requires half > 0
    requires up <==> n % (2 * half) > half || (n % (2 * half) == half && n / (2 * half) % 2 == 1)
    ensures IsNearestMultiple(n, 2 * half, n / (2 * half) + if up then 1 else 0)
  {
    var d, q, rem := 2 * half, n / (2 * half), n % (2 * half);
    var t := q * d;
    assert n == t + rem;
    assert (q + 1) * d == t + d;
  }

  lemma GuardBit(n: nat, half: nat)
    requires half > 0
    ensures n / half % 2 == 1 <==> n % (2 * half) >= half
    ensures n % (2 * half) >= half ==> (n % half == 0 <==> n % (2 * half) == half)
  {
    var a, b := n / half, n % half;
    assert n == half * a + b;
    assert half * a == (2 * half) * (a / 2) + half * (a % 2);
    DivisionUnique(n, 2 * half, a / 2, half * (a % 2) + b);
  }

  // ---------------------------------------------------- one multiple among many

  lemma DistanceScales(a: nat, b: nat, scale: nat)
    ensures Distance(a * scale, b * scale) == Distance(a, b) * scale
  {
  }

  lemma NearestScales(n: nat, d: nat, r: nat, scale: nat)
    requires IsNearestMultiple(n, d, r) && scale > 0
    ensures IsNearestMultiple(n * scale, d * scale, r)
  {
  }

  /** The nearest multiple of d beats every other one, and a tie is between neighbours. */
  lemma BeatsMultiples(x: nat, d: nat, r: nat, j: nat)
    requires IsNearestMultiple(x, d, r) && d > 0
    ensures Distance(x, r * d) <= Distance(x, j * d)
    ensures r != j && Distance(x, r * d) == Distance(x, j * d) ==> Distance(r * d, j * d) == d && r % 2 == 0
  {
    if r != j {
      DistanceScales(r, j, d);
      var gap := Distance(r, j);
      assert gap >= 1;
      TimesMonotone(1, gap, d);
      if gap >= 2 { TimesMonotone(2, gap, d); }
    }
  }

  /** Every grid point that is not a multiple of the quantum lies below the whole binade. */
  lemma BelowBinade(p: nat, c: nat, e: int, q: int, unit: int)
    requires p >= 1 && c < Pow2(p) && unit <= e < q
    ensures At(c, e, unit) < Pow2(p - 1) * Pow2(q - unit)
  {
    var fine, below := Pow2(e - unit), Pow2(q - unit - 1);
    TimesStrict(c, Pow2(p), fine);
    Pow2Monotone(e - unit, q - unit - 1);
    TimesMonotone(fine, below, Pow2(p));
    MoveTwo(Pow2(p - 1), below);
  }

  lemma MoveTwo(a: int, b: int)
    ensures (2 * a) * b == b * (2 * a) == a * (2 * b)
  {
  }

  // ------------------------------------------------------------- the theorem

  /** The rounded significand at its quantum, in a finer unit. */
  lemma UnboundedInUnits(n: nat, s: int, f: Format, unit: int)
    requires n > 0 && unit <= s
    ensures var v := Unbounded(n, s, f); unit <= v.e && IsNearestMultiple(At(n, s, unit), Pow2(v.e - unit), v.m)
  {
    var shift, v := Shift(n, s, f), Unbounded(n, s, f);
    SignificandIsNearest(n, shift);
    NearestScales(n, Pow2(shift), v.m, Pow2(s - unit));
    Pow2Sum(shift, s - unit);
    assert shift + (s - unit) == v.e - unit;
  }

  lemma EvenSignificand(m: nat, d: nat)
    requires m % 2 == 0
    ensures EvenMultiple(m * d, d)
  {
    var j := m / 2;
    assert m * d == 2 * j * d;
  }

  lemma CoarseGridPoint(n: nat, s: int, f: Format, c: nat, e: int, unit: int)
    requires n > 0 && unit <= s && Unbounded(n, s, f).e <= e
    ensures unit <= Unbounded(n, s, f).e
    ensures Closest(n, s, Unbounded(n, s, f), c, e, unit) && EvenInTie(n, s, Unbounded(n, s, f), c, e, unit)
  {
    var v := Unbounded(n, s, f);
    UnboundedInUnits(n, s, f, unit);
    var d := Pow2(v.e - unit);
    AtFiner(c, e, v.e, unit);
    var j := At(c, e, v.e);
    BeatsMultiples(At(n, s, unit), d, v.m, j);
    if v.m % 2 == 0 { EvenSignificand(v.m, d); }
  }

  lemma FineGridPoint(n: nat, s: int, f: Format, c: nat, e: int, unit: int)
    requires n > 0 && f.precision >= 1 && OnGrid(f, c, e) && unit <= s && unit <= e < Unbounded(n, s, f).e
    ensures unit <= Unbounded(n, s, f).e
    ensures Closest(n, s, Unbounded(n, s, f), c, e, unit) && EvenInTie(n, s, Unbounded(n, s, f), c, e, unit)
  {
    var v, p := Unbounded(n, s, f), f.precision;
    UnboundedInUnits(n, s, f, unit);
    var x, d := At(n, s, unit), Pow2(v.e - unit);
    if v.e == s {
      SignificandIsNearest(n, 0);
      assert Pow2(0) == 1 && v.m * 1 == v.m;
      assert At(v.m, v.e, unit) == x;
    } else {
      BelowBinade(p, c, e, v.e, unit);
      BinadeBelow(n, s, f, unit);
      BeatsMultiples(x, d, v.m, Pow2(p - 1));
    }
  }

  /** A rounded number with dropped digits lies in the binade of its quantum. */
  lemma BinadeBelow(n: nat, s: int, f: Format, unit: int)
    requires n > 0 && f.precision >= 1 && unit <= s && Unbounded(n, s, f).e > s && Unbounded(n, s, f).e > f.minSubnormal
    ensures Pow2(f.precision - 1) * Pow2(Unbounded(n, s, f).e - unit) <= At(n, s, unit)
  {
    var v, p, bits := Unbounded(n, s, f), f.precision, BitLength(n);
    var shift := Shift(n, s, f);
    assert shift == bits - p > 0;
    BitLengthBounds(n);
    Pow2Sum(p - 1, shift);
    assert p - 1 + shift == bits - 1;
    Pow2Sum(shift, s - unit);
    assert shift + (s - unit) == v.e - unit;
    TimesMonotone(Pow2(bits - 1), n, Pow2(s - unit));
    Associate(Pow2(p - 1), Pow2(shift), Pow2(s - unit));
  }

  lemma CarryAtMost(n: nat, d: nat, r: nat, top: nat)
    requires IsNearestMultiple(n, d, r) && n < top * d && d > 0
    ensures r <= top
  {
    assert (top + 1) * d == top * d + d;
    if r >= top + 1 { TimesMonotone(top + 1, r, d); }
  }

  /** A carry out of all digits gives the next power of two. */
  lemma SignificandFits(n: nat, s: int, f: Format)
    requires n > 0 && f.precision >= 1
    ensures Unbounded(n, s, f).m <= Pow2(f.precision) && Unbounded(n, s, f).e >= f.minSubnormal
  {
    var shift, bits, p := Shift(n, s, f), BitLength(n), f.precision;
    BitLengthBounds(n);
    Pow2Monotone(bits, p + shift);
    Pow2Sum(p, shift);
    SignificandIsNearest(n, shift);
    CarryAtMost(n, Pow2(shift), Significand(n, shift), Pow2(p));
  }

  lemma DoublesAgree(m: nat, e: int)
    ensures SameValue(m, e + 1, 2 * m, e)
  {
  }

  lemma ResultOnGrid(n: nat, s: int, f: Format)
    requires n > 0 && f.precision >= 1
    ensures var v := Unbounded(n, s, f); exists c: nat, e: int :: OnGrid(f, c, e) && SameValue(c, e, v.m, v.e)
  {
    var v, p := Unbounded(n, s, f), f.precision;
    SignificandFits(n, s, f);
    if v.m < Pow2(p) {
      assert OnGrid(f, v.m, v.e) && SameValue(v.m, v.e, v.m, v.e);
    } else {
      DoublesAgree(Pow2(p - 1), v.e);
      assert Pow2(p) == 2 * Pow2(p - 1);
      assert OnGrid(f, Pow2(p - 1), v.e + 1) && SameValue(Pow2(p - 1), v.e + 1, v.m, v.e);
    }
  }

  /** With no largest exponent, the algorithm rounds every integer at every scale to nearest, ties to even. */
  lemma UnboundedIsNearestEven(n: nat, s: int, f: Format)
    requires n > 0 && f.precision >= 1
    ensures NearestEven(f, n, s, Unbounded(n, s, f))
  {
    var v := Unbounded(n, s, f);
    ResultOnGrid(n, s, f);
    forall c: nat, e: int, unit: int | OnGrid(f, c, e) && unit <= s && unit <= v.e && unit <= e
      ensures Closest(n, s, v, c, e, unit) && EvenInTie(n, s, v, c, e, unit)
    {
      if v.e <= e { CoarseGridPoint(n, s, f, c, e, unit); } else { FineGridPoint(n, s, f, c, e, unit); }
    }
  }

  /** There is only one such value, so the specification determines the result. */
  lemma NearestEvenUnique(f: Format, n: nat, s: int, v: Scaled, w: Scaled)
    requires NearestEven(f, n, s, v) && NearestEven(f, n, s, w)
    ensures SameValue(v.m, v.e, w.m, w.e)
  {
    var vc: nat, ve: int :| OnGrid(f, vc, ve) && SameValue(vc, ve, v.m, v.e);
    var wc: nat, we: int :| OnGrid(f, wc, we) && SameValue(wc, we, w.m, w.e);
    var fine := Least(Least(s, ve), Least(we, Least(v.e, w.e)));
    assert Closest(n, s, v, wc, we, fine) && EvenInTie(n, s, v, wc, we, fine);
    assert Closest(n, s, w, vc, ve, fine) && EvenInTie(n, s, w, vc, ve, fine);
    var y, z := At(v.m, v.e, fine), At(w.m, w.e, fine);
    assert At(vc, ve, fine) == y && At(wc, we, fine) == z;
    if y != z { BothEven(y, z); }
    forall unit | unit <= v.e && unit <= w.e ensures At(v.m, v.e, unit) == At(w.m, w.e, unit) {
      if unit <= fine {
        AtFiner(v.m, v.e, fine, unit);
        AtFiner(w.m, w.e, fine, unit);
      } else {
        AtFiner(v.m, v.e, unit, fine);
        AtFiner(w.m, w.e, unit, fine);
        Cancel(At(v.m, v.e, unit), At(w.m, w.e, unit), Pow2(unit - fine));
      }
    }
  }

  function Least(a: int, b: int): (r: int) {
    if a <= b then a else b
  }

  lemma Cancel(a: int, b: int, k: nat)
    requires a * k == b * k && k > 0
    ensures a == b
  {
    if a < b { TimesStrict(a, b, k); } else if b < a { TimesStrict(b, a, k); }
  }

  /** Two numbers cannot both be even multiples of the gap between them. */
  lemma BothEven(y: nat, z: nat)
    requires y != z && EvenMultiple(y, Distance(y, z))
    ensures !EvenMultiple(z, Distance(y, z)) && Distance(z, y) == Distance(y, z)
  {
    var gap := Distance(y, z);
    var i: nat :| y == 2 * i * gap;
    forall j: nat ensures z != 2 * j * gap {
      assert 2 * i * gap - 2 * j * gap == 2 * (i - j) * gap;
      assert 2 * (i - j) * gap == gap * (2 * (i - j));
      OnlyZeroIsSmall(gap, i - j);
      assert gap * (2 * (i - j)) == 2 * (gap * (i - j));
    }
  }

  // ------------------------------------------------------------------ overflow

  /** Half way from the largest finite number to the next power of two, (2 - 2^-precision) times 2^maxExponent. */
  function Midpoint(f: Format, unit: int): (r: nat)
    requires f.precision >= 1 && unit <= f.maxExponent - f.precision
  {
    At(2 * Pow2(f.precision) - 1, f.maxExponent - f.precision, unit)
  }

  function Largest(f: Format, unit: int): (r: nat)
    requires f.precision >= 1 && unit <= f.maxExponent - f.precision
  {
    At(Pow2(f.precision) - 1, f.maxExponent - f.precision + 1, unit)
  }

  function Threshold(f: Format, unit: int): (r: nat)
    requires unit <= f.maxExponent + 1
  {
    At(1, f.maxExponent + 1, unit)
  }

  lemma GapArithmetic(a: int, h: int)
    ensures (2 * a - 1) * h == 2 * a * h - h
    ensures (a - 1) * (2 * h) == 2 * a * h - 2 * h
    ensures a * (2 * h) == 2 * a * h
    ensures (a - 1) * (2 * h) == 2 * ((a - 1) * h)
  {
  }

  /** Largest, midpoint and threshold are half a gap apart. */
  lemma Landmarks(f: Format, unit: int)
    requires f.precision >= 1 && unit <= f.maxExponent - f.precision
    ensures var h := Pow2(f.maxExponent - f.precision - unit);
      && Threshold(f, unit) == 2 * Pow2(f.precision) * h
      && Midpoint(f, unit) == Threshold(f, unit) - h
      && Largest(f, unit) == Threshold(f, unit) - 2 * h
      && Largest(f, unit) == (Pow2(f.precision) - 1) * (2 * h)
  {
    var p, a, h := f.precision, Pow2(f.precision), Pow2(f.maxExponent - f.precision - unit);
    Pow2Sum(p + 1, f.maxExponent - p - unit);
    assert Pow2(p + 1) == 2 * a;
    assert Threshold(f, unit) == 2 * a * h by {
      assert p + 1 + (f.maxExponent - p - unit) == f.maxExponent + 1 - unit;
    }
    assert Pow2(f.maxExponent - p + 1 - unit) == 2 * h;
    GapArithmetic(a, h);
  }

  /** A grid point below the threshold is at most the largest finite number. */
  lemma FiniteGrid(f: Format, c: nat, e: int, unit: int)
    requires f.precision >= 1 && c < Pow2(f.precision) && unit <= e && unit <= f.maxExponent - f.precision
    requires At(c, e, unit) < Threshold(f, unit)
    ensures At(c, e, unit) <= Largest(f, unit)
  {
    var a, h := Pow2(f.precision), Pow2(f.maxExponent - f.precision - unit);
    Landmarks(f, unit);
    GapArithmetic(a, h);
    var q := f.maxExponent - f.precision + 1;
    if e >= q {
      AtFiner(c, e, q, unit);
      assert Pow2(q - unit) == 2 * h;
      WholeGaps(At(c, e, q), a, 2 * h);
    } else {
      Pow2Monotone(e - unit, q - 1 - unit);
      FewerDigits(c, a - 1, Pow2(e - unit), h);
    }
  }

  lemma WholeGaps(j: nat, a: nat, g: nat)
    requires j * g < a * g
    ensures j * g <= (a - 1) * g
  {
    if j >= a { TimesMonotone(a, j, g); } else { TimesMonotone(j, a - 1, g); }
  }

  lemma FewerDigits(c: nat, a: nat, fine: nat, h: nat)
    requires c <= a && fine <= h
    ensures c * fine <= 2 * (a * h)
  {
  }

  /** A number reaches a power of two exactly when the exponent test of the code says so. */
  lemma ExponentTest(m: nat, e: int, top: int, unit: int)
    requires m > 0 && unit <= e && unit <= top
    ensures BitLength(m) - 1 + e >= top <==> At(m, e, unit) >= At(1, top, unit)
  {
    if BitLength(m) - 1 + e >= top { ReachesPower(m, e, top, unit); } else { StaysBelowPower(m, e, top, unit); }
  }

  lemma ReachesPower(m: nat, e: int, top: int, unit: int)
    requires m > 0 && unit <= e && unit <= top && BitLength(m) - 1 + e >= top
    ensures At(m, e, unit) >= At(1, top, unit)
  {
    var lead := BitLength(m) - 1;
    BitLengthBounds(m);
    Pow2Sum(lead, e - unit);
    TimesMonotone(Pow2(lead), m, Pow2(e - unit));
    Pow2Monotone(top - unit, lead + (e - unit));
  }

  lemma StaysBelowPower(m: nat, e: int, top: int, unit: int)
    requires m > 0 && unit <= e && unit <= top && BitLength(m) - 1 + e < top
    ensures At(m, e, unit) < At(1, top, unit)
  {
    var bits := BitLength(m);
    BitLengthBounds(m);
    Pow2Sum(bits, e - unit);
    TimesStrict(m, Pow2(bits), Pow2(e - unit));
    Pow2Monotone(bits + (e - unit), top - unit);
  }

  /**
  Unbounded rounding reaches the threshold exactly from the midpoint on: the tie there goes to the even threshold.
  */
  lemma ThresholdFromMidpoint(n: nat, s: int, f: Format, v: Scaled, unit: int)
    requires n > 0 && Sound(f) && NearestEven(f, n, s, v) && unit <= s && unit <= v.e
             && unit <= f.maxExponent - f.precision
    requires unit <= f.minSubnormal
    ensures At(v.m, v.e, unit) >= Threshold(f, unit) <==> At(n, s, unit) >= Midpoint(f, unit)
  {
    var x, y, h, p := At(n, s, unit), At(v.m, v.e, unit), Pow2(f.maxExponent - f.precision - unit), f.precision;
    Landmarks(f, unit);
    var c: nat, e: int :| OnGrid(f, c, e) && SameValue(c, e, v.m, v.e);
    assert At(c, e, unit) == y;
    // the two neighbours are grid points
    assert OnGrid(f, Pow2(p) - 1, f.maxExponent - p + 1);
    assert Closest(n, s, v, Pow2(p) - 1, f.maxExponent - p + 1, unit);
    OneFits(f);
    assert OnGrid(f, 1, f.maxExponent + 1) || f.precision == 0;
    assert Closest(n, s, v, Pow2(p - 1), f.maxExponent - p + 2, unit)
           && EvenInTie(n, s, v, Pow2(p - 1), f.maxExponent - p + 2, unit);
    HalfThreshold(f, unit);
    if y < Threshold(f, unit) {
      FiniteGrid(f, c, e, unit);
      if x == Midpoint(f, unit) && y == Largest(f, unit) { OddLargest(f, unit); }
    }
  }

  lemma OneFits(f: Format)
    requires f.precision >= 1
    ensures 1 < Pow2(f.precision)
  {
  }

  lemma HalfThreshold(f: Format, unit: int)
    requires f.precision >= 1 && unit <= f.maxExponent - f.precision
    ensures At(Pow2(f.precision - 1), f.maxExponent - f.precision + 2, unit) == Threshold(f, unit)
  {
    Pow2Sum(f.precision - 1, f.maxExponent - f.precision + 2 - unit);
    assert f.precision - 1 + (f.maxExponent - f.precision + 2 - unit) == f.maxExponent + 1 - unit;
  }

  lemma OddLargest(f: Format, unit: int)
    requires f.precision >= 1 && unit <= f.maxExponent - f.precision
    ensures !EvenMultiple(Largest(f, unit), Distance(Largest(f, unit), Threshold(f, unit)))
  {
    Landmarks(f, unit);
    var h, a := Pow2(f.maxExponent - f.precision - unit), Pow2(f.precision);
    assert a % 2 == 0;
    forall j: nat ensures Largest(f, unit) != 2 * j * (2 * h) {
      if Largest(f, unit) == 2 * j * (2 * h) {
        Cancel(a - 1, 2 * j, 2 * h);
        assert false;
      }
    }
  }

  /** The code's two tests together ask whether unbounded rounding reaches the threshold. */
  lemma OverflowTest(n: nat, s: int, f: Format, unit: int)
    requires n > 0 && unit <= s && unit <= f.maxExponent + 1
    requires unit <= Unbounded(n, s, f).e
             && (At(n, s, unit) >= Threshold(f, unit) ==>
                   At(Unbounded(n, s, f).m, Unbounded(n, s, f).e, unit) >= Threshold(f, unit))
    ensures RoundMagnitude(n, s, f).Overflow? <==>
      At(Unbounded(n, s, f).m, Unbounded(n, s, f).e, unit) >= Threshold(f, unit)
  {
    var v, top := Unbounded(n, s, f), f.maxExponent + 1;
    ExponentTest(n, s, top, unit);
    if v.m > 0 {
      ExponentTest(v.m, v.e, top, unit);
    } else {
      assert At(v.m, v.e, unit) == 0 < Threshold(f, unit);
    }
  }

  /** The overflow rule: exactly the numbers from the midpoint on become infinite. */
  lemma OverflowsFromMidpoint(n: nat, s: int, f: Format, unit: int)
    requires n > 0 && Sound(f) && unit <= s && unit <= f.maxExponent - f.precision && unit <= f.minSubnormal
    ensures RoundMagnitude(n, s, f).Overflow? <==> At(n, s, unit) >= Midpoint(f, unit)
  {
    UnboundedIsNearestEven(n, s, f);
    SignificandFits(n, s, f);
    ThresholdFromMidpoint(n, s, f, Unbounded(n, s, f), unit);
    assert Midpoint(f, unit) <= Threshold(f, unit) by { Landmarks(f, unit); }
    OverflowTest(n, s, f, unit);
  }

  /** And every other number becomes the nearest representable one, ties to even. */
  lemma FiniteIsNearestEven(n: nat, s: int, f: Format)
    requires n > 0 && Sound(f) && RoundMagnitude(n, s, f).Exactly?
    ensures NearestEven(f, n, s, RoundMagnitude(n, s, f).value)
  {
    UnboundedIsNearestEven(n, s, f);
  }
}
