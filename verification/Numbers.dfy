/** Number values: binary64 bit fields, exact values, and the two independent ways to a binary16 value. */
module Numbers {
  import opened Binary
  import opened Rounding

  /** The three bit fields of a binary64 value. */
  datatype Double = Double(negative: bool, exponent: nat, fraction: nat)

  predicate ValidDouble(d: Double) {
    d.exponent < 0x800 && d.fraction < 0x10_0000_0000_0000
  }

  /** A floating-point value by what it denotes: sign and exact magnitude m times 2^e. */
  datatype Number = NaN | Infinite(negative: bool) | Finite(negative: bool, m: nat, e: int)

  /** One pair for each magnitude: odd m, or zero. */
  function Canonical(m: nat, e: int): (r: Scaled)
    ensures r.m == 0 <==> m == 0
    ensures r.m == 0 ==> r.e == 0
    ensures r.m != 0 ==> r.m % 2 == 1
    decreases m
  {
    if m == 0 then Scaled(0, 0) else if m % 2 == 1 then Scaled(m, e) else Canonical(m / 2, e + 1)
  }

  /** As `ldexp` on a signed magnitude. */
  function Ldexp(negative: bool, m: nat, e: int): (r: Number) {
    Finite(negative, Canonical(m, e).m, Canonical(m, e).e)
  }

  /** The canonical pair stands for the same number in every unit fine enough for the given one. */
  lemma {:induction false} CanonicalValue(m: nat, e: int, unit: int)
    requires unit <= e && m > 0
    ensures unit <= Canonical(m, e).e && At(m, e, unit) == At(Canonical(m, e).m, Canonical(m, e).e, unit)
    decreases m
  {
    if m % 2 == 0 {
      CanonicalValue(m / 2, e + 1, unit);
      assert Pow2(e + 1 - unit) == 2 * Pow2(e - unit);
      MoveTwo(m / 2, Pow2(e - unit));
    }
  }

  /** So values are equal exactly when the magnitudes they were made from are. */
  lemma LdexpInjective(m: nat, e: int, m': nat, e': int, unit: int)
    requires unit <= e && unit <= e'
    ensures Ldexp(false, m, e) == Ldexp(false, m', e') <==> At(m, e, unit) == At(m', e', unit)
  {
    if m > 0 && m' > 0 {
      CanonicalValue(m, e, unit);
      CanonicalValue(m', e', unit);
      OddPairs(Canonical(m, e), Canonical(m', e'), unit);
    } else {
      assert m > 0 ==> At(m, e, unit) > 0 by { if m > 0 { TimesStrict(0, m, Pow2(e - unit)); } }
      assert m' > 0 ==> At(m', e', unit) > 0 by { if m' > 0 { TimesStrict(0, m', Pow2(e' - unit)); } }
    }
  }

  lemma OddPairs(a: Scaled, b: Scaled, unit: int)
    requires a.m % 2 == 1 && b.m % 2 == 1 && unit <= a.e && unit <= b.e
    ensures At(a.m, a.e, unit) == At(b.m, b.e, unit) ==> a == b
  {
    if a.e < b.e {
      OddIsNotShifted(a, b, unit);
    } else if b.e < a.e {
      OddIsNotShifted(b, a, unit);
    } else if At(a.m, a.e, unit) == At(b.m, b.e, unit) {
      Cancel(a.m, b.m, Pow2(a.e - unit));
    }
  }

  lemma OddIsNotShifted(a: Scaled, b: Scaled, unit: int)
    requires a.m % 2 == 1 && unit <= a.e < b.e
    ensures At(a.m, a.e, unit) != At(b.m, b.e, unit)
  {
    AtFiner(b.m, b.e, a.e, unit);
    var j := At(b.m, b.e, a.e);
    assert Pow2(b.e - a.e) == 2 * Pow2(b.e - a.e - 1);
    MoveTwo(b.m, Pow2(b.e - a.e - 1));
    assert j == 2 * (b.m * Pow2(b.e - a.e - 1));
    if a.m * Pow2(a.e - unit) == j * Pow2(a.e - unit) { Cancel(a.m, j, Pow2(a.e - unit)); }
  }

  lemma CarryValue(negative: bool, m: nat, e: int)
    ensures Ldexp(negative, 2 * m, e) == Ldexp(negative, m, e + 1)
  {
  }

  // ------------------------------------------------------------------- binary64

  function DecodeDouble(d: Double): (r: Number) {
    if d.exponent == 0x7ff then (if d.fraction != 0 then NaN else Infinite(d.negative))
    else var (n, scale) := Magnitude(d); Ldexp(d.negative, n, scale)
  }

  /** The integer significand and scale of `number_exact_integer`, without the sign. */
  function Magnitude(d: Double): (r: (nat, int)) {
    if d.exponent != 0 then (0x10_0000_0000_0000 + d.fraction, d.exponent - 1075) else (d.fraction, -1074)
  }

  function Signed(negative: bool, n: nat): (r: int) {
    if negative then 0 - n else n
  }

  predicate IsFinite(d: Double) { d.exponent != 0x7ff }

  predicate IsZero(d: Double) { d.exponent == 0 && d.fraction == 0 }

  /** `bigint_round_binary_format` with its sign. */
  function RoundInteger(value: int, scale: int, f: Format): (r: Number) {
    if value == 0 then Ldexp(false, 0, 0)
    else
      var negative := value < 0;
      match RoundMagnitude(if negative then -value else value, scale, f)
      case Overflow => Infinite(negative)
      case Exactly(v) => Ldexp(negative, v.m, v.e)
  }

  /** `number_round_binary_format`. */
  function RoundNumber(d: Double, f: Format): (r: Number) {
    if !IsFinite(d) || IsZero(d) then DecodeDouble(d)
    else
      var (n, scale) := Magnitude(d);
      RoundInteger(Signed(d.negative, n), scale, f)
  }

  /** The sign of a rounded value is carried through. */
  function WithSign(negative: bool, r: Rounded): (n: Number) {
    match r
    case Overflow => Infinite(negative)
    case Exactly(v) => Ldexp(negative, v.m, v.e)
  }

  lemma RoundsBySign(d: Double, f: Format)
    requires IsFinite(d) && !IsZero(d)
    ensures RoundNumber(d, f) == WithSign(d.negative, RoundMagnitude(Magnitude(d).0, Magnitude(d).1, f))
  {
  }

  // ----------------------------------------------------- the direct binary16 path

  function RoundShift(significand: nat, shift: nat): (r: nat)
    requires shift > 0
  {
    var result, half := Quotient(significand, shift), Pow2(shift - 1);
    var remainder := significand % Pow2(shift);
    result + if remainder > half || (remainder == half && result % 2 == 1) then 1 else 0
  }

  /** `number_to_float16`: the 16 bits, by direct shifts of the binary64 fields. */
  function Float16Bits(d: Double): (raw: nat)
    requires ValidDouble(d)
  {
    var sign := if d.negative then 0x8000 else 0;
    if d.exponent == 0x7ff then sign + (if d.fraction != 0 then 0x7e00 else 0x7c00)
    else if d.exponent == 0 then sign
    else
      var power := d.exponent - 1023;
      var significand := d.fraction + 0x10_0000_0000_0000;
      if power > 15 then sign + 0x7c00
      else if power < -25 then sign
      else if power < -14 then sign + RoundShift(significand, 28 - power)
      else
        NormalRounds(significand);
        Assemble(sign, power, RoundShift(significand, 42))
  }

  /** The last lines of `number_to_float16`: a carry into the next binade, overflow, or the two fields. */
  function Assemble(sign: nat, power: int, first: nat): (raw: nat)
    requires -14 <= power <= 15 && 1024 <= first <= 2048
  {
    var (rounded, power') := if first == 2048 then (1024, power + 1) else (first, power);
    if power' > 15 then sign + 0x7c00
    else sign + (power' + 15) * 1024 + (rounded - 1024)
  }

  /** `float16_to_number`. */
  function DecodeHalf(raw: nat): (r: Number) {
    var negative, exponent, fraction := raw / 0x8000 % 2 == 1, raw / 1024 % 32, raw % 1024;
    if exponent == 31 then (if fraction != 0 then NaN else Infinite(negative))
    else if exponent != 0 then Ldexp(negative, 1024 + fraction, exponent - 25)
    else Ldexp(negative, fraction, -24)
  }

  lemma RoundShiftIsSignificand(n: nat, shift: nat)
    requires n > 0 && shift > 0
    ensures RoundShift(n, shift) == Significand(n, shift)
  {
    GuardAndSticky(n, shift);
    assert Pow2(shift) == 2 * Pow2(shift - 1);
  }

  lemma BracketUnique(n: nat, a: nat, b: nat)
    requires a > 0 && b > 0 && Pow2(a - 1) <= n < Pow2(a) && Pow2(b - 1) <= n < Pow2(b)
    ensures a == b
  {
    if a < b { Pow2Monotone(a, b - 1); } else if a > b { Pow2Monotone(b, a - 1); }
  }

  lemma BitLengthIs(n: nat, bits: nat)
    requires n > 0 && bits > 0 && Pow2(bits - 1) <= n < Pow2(bits)
    ensures BitLength(n) == bits
  {
    BitLengthBounds(n);
    BracketUnique(n, BitLength(n), bits);
  }

  lemma Powers()
    ensures Pow2(10) == 1024 && Pow2(11) == 2048 && Pow2(12) == 4096 && Pow2(42) == 0x400_0000_0000
    ensures Pow2(52) == 0x10_0000_0000_0000 && Pow2(53) == 0x20_0000_0000_0000
  {
    assert Pow2(10) == 1024;
    Pow2Sum(10, 10);
    Pow2Sum(20, 20);
    Pow2Sum(40, 10);
    assert Pow2(42) == 4 * Pow2(40);
    assert Pow2(52) == 4 * Pow2(50);
  }

  /** A quantum more than twice the number leaves nothing. */
  lemma RoundsAway(n: nat, s: int, f: Format)
    requires n > 0 && 2 * n < Pow2(Shift(n, s, f))
    ensures Unbounded(n, s, f).m == 0
  {
    var d, r := Pow2(Shift(n, s, f)), Unbounded(n, s, f).m;
    SignificandIsNearest(n, Shift(n, s, f));
    if r >= 1 { TimesMonotone(1, r, d); }
  }

  lemma WholeBounds(n: nat, d: nat, lo: nat, hi: nat)
    requires d > 0 && lo * d <= n < hi * d
    ensures lo <= n / d < hi
  {
    var q, r := n / d, n % d;
    assert n == q * d + r;
    assert (q + 1) * d == q * d + d;
    if q < lo { TimesMonotone(q + 1, lo, d); }
    if q >= hi { TimesMonotone(hi, q, d); }
  }

  lemma NormalRounds(n: nat)
    requires 0x10_0000_0000_0000 <= n < 0x20_0000_0000_0000
    ensures 1024 <= RoundShift(n, 42) <= 2048
  {
    Powers();
    WholeBounds(n, 0x400_0000_0000, 1024, 2048);
  }

  lemma SubnormalRounds(n: nat, shift: nat)
    requires 0 < n < 0x20_0000_0000_0000 && shift >= 43
    ensures Significand(n, shift) <= 1024
  {
    Powers();
    SignificandIsNearest(n, shift);
    Pow2Monotone(53, 10 + shift);
    Pow2Sum(10, shift);
    CarryAtMost(n, Pow2(shift), Significand(n, shift), 1024);
  }

  /** Half fields put together and taken apart. */
  lemma HalfFields(negative: bool, exponent: nat, fraction: nat)
    requires exponent < 32 && fraction < 1024
    ensures var raw := (if negative then 0x8000 else 0) + exponent * 1024 + fraction;
      (raw / 0x8000 % 2 == 1 <==> negative) && raw / 1024 % 32 == exponent && raw % 1024 == fraction
  {
  }

  lemma DecodeFields(negative: bool, exponent: nat, fraction: nat)
    requires exponent < 32 && fraction < 1024
    ensures DecodeHalf((if negative then 0x8000 else 0) + exponent * 1024 + fraction) ==
      if exponent == 31 then (if fraction != 0 then NaN else Infinite(negative))
      else if exponent != 0 then Ldexp(negative, 1024 + fraction, exponent - 25)
      else Ldexp(negative, fraction, -24)
  {
    HalfFields(negative, exponent, fraction);
  }

  /** The generic path on a number whose leading bit is in the normal binary16 range. */
  lemma NormalGeneric(n: nat, power: int)
    requires 0x10_0000_0000_0000 <= n < 0x20_0000_0000_0000 && -14 <= power <= 15
    ensures var first := RoundShift(n, 42);
      RoundMagnitude(n, power - 52, BINARY16) ==
        if first == 2048 && power == 15 then Overflow else Exactly(Scaled(first, power - 10))
  {
    Powers();
    BitLengthIs(n, 53);
    RoundShiftIsSignificand(n, 42);
    NormalRounds(n);
    var first := RoundShift(n, 42);
    if first == 2048 { BitLengthIs(2048, 12); } else { BitLengthIs(first, 11); }
  }

  lemma AssembleDecodes(negative: bool, power: int, first: nat)
    requires -14 <= power <= 15 && 1024 <= first <= 2048
    ensures DecodeHalf(Assemble(if negative then 0x8000 else 0, power, first)) ==
      if first == 2048 && power == 15 then Infinite(negative) else Ldexp(negative, first, power - 10)
  {
    if first == 2048 {
      CarryValue(negative, 1024, power - 10);
      DecodeFields(negative, power + 16, 0);
    } else {
      DecodeFields(negative, power + 15, first - 1024);
    }
  }

  lemma NormalHalf(d: Double)
    requires ValidDouble(d) && -14 <= d.exponent - 1023 <= 15
    ensures DecodeHalf(Float16Bits(d)) == RoundNumber(d, BINARY16)
  {
    var n, power := 0x10_0000_0000_0000 + d.fraction, d.exponent - 1023;
    RoundsBySign(d, BINARY16);
    NormalGeneric(n, power);
    DirectNormal(d);
  }

  lemma DirectNormal(d: Double)
    requires ValidDouble(d) && -14 <= d.exponent - 1023 <= 15
    ensures var first := RoundShift(0x10_0000_0000_0000 + d.fraction, 42);
      DecodeHalf(Float16Bits(d)) ==
        if first == 2048 && d.exponent == 1038 then Infinite(d.negative)
        else Ldexp(d.negative, first, d.exponent - 1033)
  {
    var n := 0x10_0000_0000_0000 + d.fraction;
    NormalRounds(n);
    AssembleDecodes(d.negative, d.exponent - 1023, RoundShift(n, 42));
  }

  lemma SubnormalDecodes(negative: bool, k: nat)
    requires k <= 1024
    ensures DecodeHalf((if negative then 0x8000 else 0) + k) == Ldexp(negative, k, -24)
  {
    if k == 1024 { DecodeFields(negative, 1, 0); } else { DecodeFields(negative, 0, k); }
  }

  lemma AtMostElevenBits(k: nat)
    requires 0 < k <= 1024
    ensures BitLength(k) <= 11
  {
    BitLengthBounds(k);
    Powers();
    if BitLength(k) > 11 { Pow2Monotone(11, BitLength(k) - 1); }
  }

  /** The generic path below the normal binary16 range. */
  lemma SubnormalGeneric(n: nat, power: int)
    requires 0x10_0000_0000_0000 <= n < 0x20_0000_0000_0000 && power < -14
    ensures RoundMagnitude(n, power - 52, BINARY16) == Exactly(Scaled(Significand(n, 28 - power), -24))
    ensures Significand(n, 28 - power) <= 1024
  {
    Powers();
    BitLengthIs(n, 53);
    SubnormalRounds(n, 28 - power);
    var k := Significand(n, 28 - power);
    if k > 0 { AtMostElevenBits(k); }
  }

  lemma DirectSubnormal(d: Double)
    requires ValidDouble(d) && -25 <= d.exponent - 1023 < -14
    ensures Float16Bits(d) == (if d.negative then 0x8000 else 0) +
      Significand(0x10_0000_0000_0000 + d.fraction, 1051 - d.exponent)
  {
    RoundShiftIsSignificand(0x10_0000_0000_0000 + d.fraction, 1051 - d.exponent);
  }

  lemma SubnormalHalf(d: Double)
    requires ValidDouble(d) && -25 <= d.exponent - 1023 < -14
    ensures DecodeHalf(Float16Bits(d)) == RoundNumber(d, BINARY16)
  {
    var n, power := 0x10_0000_0000_0000 + d.fraction, d.exponent - 1023;
    RoundsBySign(d, BINARY16);
    SubnormalGeneric(n, power);
    DirectSubnormal(d);
    SubnormalDecodes(d.negative, Significand(n, 28 - power));
  }

  lemma TinyGeneric(d: Double)
    requires ValidDouble(d) && d.exponent - 1023 < -25 && !IsZero(d)
    ensures RoundMagnitude(Magnitude(d).0, Magnitude(d).1, BINARY16).Exactly?
    ensures RoundMagnitude(Magnitude(d).0, Magnitude(d).1, BINARY16).value.m == 0
  {
    var (n, scale) := Magnitude(d);
    var shift := Shift(n, scale, BINARY16);
    TinyShift(d);
    Pow2Monotone(54, shift);
    assert 2 * n < Pow2(54) by { Powers(); assert Pow2(54) == 2 * Pow2(53); }
    RoundsAway(n, scale, BINARY16);
  }

  /** Below half the smallest binary16 subnormal nothing is left. */
  lemma TinyHalf(d: Double)
    requires ValidDouble(d) && d.exponent - 1023 < -25 && !IsZero(d)
    ensures DecodeHalf(Float16Bits(d)) == RoundNumber(d, BINARY16)
  {
    RoundsBySign(d, BINARY16);
    TinyGeneric(d);
    SubnormalDecodes(d.negative, 0);
  }

  lemma TinyShift(d: Double)
    requires ValidDouble(d) && d.exponent - 1023 < -25 && !IsZero(d)
    ensures var (n, scale) := Magnitude(d); Shift(n, scale, BINARY16) >= 54 && BitLength(n) <= 53
  {
    var (n, scale) := Magnitude(d);
    Powers();
    BitLengthBounds(n);
    if BitLength(n) > 53 { Pow2Monotone(53, BitLength(n) - 1); }
  }

  /** Both ways to a binary16 value agree on every binary64 value: subnormals, carries, overflow, infinities and NaN. */
  lemma DirectEqualsGeneric(d: Double)
    requires ValidDouble(d)
    ensures DecodeHalf(Float16Bits(d)) == RoundNumber(d, BINARY16)
  {
    var power := d.exponent - 1023;
    if !IsFinite(d) {
      DecodeFields(d.negative, 31, if d.fraction != 0 then 512 else 0);
    } else if IsZero(d) {
      DecodeFields(d.negative, 0, 0);
    } else if power < -25 {
      TinyHalf(d);
    } else if power < -14 {
      SubnormalHalf(d);
    } else if power <= 15 {
      NormalHalf(d);
    } else {
      Powers();
      BitLengthIs(0x10_0000_0000_0000 + d.fraction, 53);
      DecodeFields(d.negative, 31, 0);
    }
  }

  /** The result has 16 bits, with the sign in front, and there is one NaN for each sign. */
  lemma HalfIsSixteenBits(d: Double)
    requires ValidDouble(d)
    ensures var raw := Float16Bits(d); if d.negative then 0x8000 <= raw <= 0xffff else raw < 0x8000
    ensures d.exponent == 0x7ff && d.fraction != 0 ==> Float16Bits(d) == if d.negative then 0xfe00 else 0x7e00
  {
    var power, n := d.exponent - 1023, 0x10_0000_0000_0000 + d.fraction;
    if -25 <= power < -14 {
      RoundShiftIsSignificand(n, 28 - power);
      SubnormalRounds(n, 28 - power);
    } else if -14 <= power <= 15 {
      NormalRounds(n);
    }
  }

  /** A number that fits the format is not changed by rounding: rounding is done once. */
  lemma ExactStaysExact(n: nat, s: int, f: Format, v: Scaled)
    requires n > 0 && f.precision >= 1 && OnGrid(f, n, s) && v == Unbounded(n, s, f)
    ensures SameValue(n, s, v.m, v.e)
  {
    UnboundedIsNearestEven(n, s, f);
    var unit := Least(s, v.e);
    assert Closest(n, s, v, n, s, unit);
    forall u | u <= s && u <= v.e ensures At(n, s, u) == At(v.m, v.e, u) {
      assert Closest(n, s, v, n, s, u);
    }
  }

  /** r is the correct rounding of n times 2^s with the given sign. */
  ghost predicate CorrectlyRounded(n: nat, s: int, f: Format, unit: int, negative: bool, r: Number)
    requires Sound(f) && unit <= s && unit <= f.maxExponent - f.precision
  {
    if At(n, s, unit) >= Midpoint(f, unit) then r == Infinite(negative)
    else exists v: Scaled :: NearestEven(f, n, s, v) && r == Ldexp(negative, v.m, v.e)
  }

  /** Every integer, at every binary scale, to every sound format. */
  lemma RoundsCorrectly(n: nat, s: int, f: Format, unit: int, negative: bool)
    requires n > 0 && Sound(f) && unit <= s && unit <= f.maxExponent - f.precision && unit <= f.minSubnormal
    ensures CorrectlyRounded(n, s, f, unit, negative, RoundInteger(Signed(negative, n), s, f))
  {
    OverflowsFromMidpoint(n, s, f, unit);
    if RoundMagnitude(n, s, f).Exactly? { FiniteIsNearestEven(n, s, f); }
  }

  /** `tsc_math_fround` and `tsc_math_f16round`: the correct rounding of every finite number other than zero. */
  lemma NumberRoundsCorrectly(d: Double, f: Format, unit: int)
    requires IsFinite(d) && !IsZero(d) && f in {BINARY16, BINARY32} && unit <= -1074
    ensures CorrectlyRounded(Magnitude(d).0, Magnitude(d).1, f, unit, d.negative, RoundNumber(d, f))
  {
    RoundsCorrectly(Magnitude(d).0, Magnitude(d).1, f, unit, d.negative);
  }

  // ------------------------------------------------- what a format keeps as it is

  /** A grid point below the overflow threshold is kept, whatever integer and scale it is given by, and no other. */
  lemma KeepsGridPoints(n: nat, s: int, f: Format, unit: int, negative: bool)
    requires n > 0 && Sound(f) && unit <= s && unit <= f.maxExponent - f.precision && unit <= f.minSubnormal
    ensures RoundInteger(Signed(negative, n), s, f) == Ldexp(negative, n, s) <==>
      At(n, s, unit) < Threshold(f, unit)
      && exists c: nat, e: int :: OnGrid(f, c, e) && Ldexp(negative, c, e) == Ldexp(negative, n, s)
  {
    var v := Unbounded(n, s, f);
    OverflowsFromMidpoint(n, s, f, unit);
    Landmarks(f, unit);
    forall c: nat, e: int | OnGrid(f, c, e) && Ldexp(negative, c, e) == Ldexp(negative, n, s)
      ensures Ldexp(negative, v.m, v.e) == Ldexp(negative, n, s)
      ensures At(n, s, unit) < Threshold(f, unit) ==> At(n, s, unit) < Midpoint(f, unit)
    {
      GridPointStays(n, s, f, c, e);
      LdexpInjective(c, e, n, s, unit);
      if At(n, s, unit) < Threshold(f, unit) { FiniteGrid(f, c, e, unit); }
    }
    if Ldexp(negative, v.m, v.e) == Ldexp(negative, n, s) {
      ResultOnGrid(n, s, f);
      var c: nat, e: int :| OnGrid(f, c, e) && SameValue(c, e, v.m, v.e);
      LdexpInjective(c, e, v.m, v.e, Least(e, v.e));
      assert OnGrid(f, c, e) && Ldexp(negative, c, e) == Ldexp(negative, n, s);
    }
  }

  /** Nothing is closer to a grid point than itself. */
  lemma GridPointStays(n: nat, s: int, f: Format, c: nat, e: int)
    requires n > 0 && f.precision >= 1 && OnGrid(f, c, e) && Ldexp(false, c, e) == Ldexp(false, n, s)
    ensures Ldexp(false, Unbounded(n, s, f).m, Unbounded(n, s, f).e) == Ldexp(false, n, s)
  {
    var v := Unbounded(n, s, f);
    var unit := Least(e, Least(s, v.e));
    UnboundedIsNearestEven(n, s, f);
    assert Closest(n, s, v, c, e, unit);
    LdexpInjective(c, e, n, s, unit);
    LdexpInjective(v.m, v.e, n, s, unit);
  }

  /** `Math.fround` keeps exactly the numbers below 2^128 with 24 binary digits, none of them below 2^-149. */
  lemma Binary32Keeps(d: Double)
    requires ValidDouble(d) && IsFinite(d) && !IsZero(d)
    ensures RoundNumber(d, BINARY32) == DecodeDouble(d) <==>
      d.exponent < 1151
      && exists c: nat, e: int :: c < 0x100_0000 && e >= -149 && Ldexp(d.negative, c, e) == DecodeDouble(d)
  {
    var (n, s) := Magnitude(d);
    KeepsGridPoints(n, s, BINARY32, -1074, d.negative);
    Powers();
    assert Pow2(24) == 0x100_0000 by { Pow2Sum(12, 12); }
    assert forall c: nat, e: int :: OnGrid(BINARY32, c, e) <==> c < 0x100_0000 && e >= -149;
    ExponentTest(n, s, 128, -1074);
    LeadingDigit(d);
  }

  lemma LeadingDigit(d: Double)
    requires ValidDouble(d) && IsFinite(d) && !IsZero(d)
    ensures BitLength(Magnitude(d).0) - 1 + Magnitude(d).1 ==
      if d.exponent != 0 then d.exponent - 1023 else BitLength(d.fraction) - 1075
    ensures d.exponent == 0 ==> BitLength(d.fraction) <= 52
  {
    Powers();
    if d.exponent != 0 {
      BitLengthIs(Magnitude(d).0, 53);
    } else {
      BitLengthBounds(d.fraction);
      if BitLength(d.fraction) > 52 { Pow2Monotone(52, BitLength(d.fraction) - 1); }
    }
  }

  /** A sum is kept exactly if it has 53 binary digits, none of them below 2^-1074 and none from 2^1024 on. */
  lemma Binary64Keeps(n: nat, s: int, negative: bool)
    requires n > 0
    ensures RoundInteger(Signed(negative, n), s, BINARY64) == Ldexp(negative, n, s) <==>
      BitLength(n) + s <= 1024
      && exists c: nat, e: int ::
           c < 0x20_0000_0000_0000 && e >= -1074 && Ldexp(negative, c, e) == Ldexp(negative, n, s)
  {
    var unit := Least(s, -1074);
    KeepsGridPoints(n, s, BINARY64, unit, negative);
    Powers();
    assert forall c: nat, e: int :: OnGrid(BINARY64, c, e) <==> c < 0x20_0000_0000_0000 && e >= -1074;
    ExponentTest(n, s, 1024, unit);
  }
}
