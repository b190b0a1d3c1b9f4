/** `Math.sumPrecise`: one exact accumulator, one rounding at the end. */
module SumPrecise {
  import opened Binary
  import opened Rounding
  import opened Numbers

  /** What the iterator yields: a Number or something else. */
  datatype Item = Num(d: Double) | Other

  datatype Outcome = Total(value: Number) | TooMany | NotANumberItem

  datatype State = MinusZero | Sum | PlusInfinity | MinusInfinity | Undefined

  const MAX_ITEMS: nat := 9007199254740991

  // --------------------------------------------------------- the specification

  /** A finite number in units of 2^-1074; every finite binary64 value is a whole number of them. */
  function Units(d: Double): (r: int)
    requires IsFinite(d)
  {
    Signed(d.negative, At(Magnitude(d).0, Magnitude(d).1, -1074))
  }

  /** The exact sum of the finite numbers in the list. */
  function ExactSum(nums: seq<Double>): (r: int) {
    if nums == [] then 0
    else
      var d := nums[|nums| - 1];
      ExactSum(nums[..|nums| - 1]) + if IsFinite(d) then Units(d) else 0
  }

  predicate IsNaN(d: Double) { d.exponent == 0x7ff && d.fraction != 0 }

  predicate IsInfinity(d: Double, negative: bool) { d.exponent == 0x7ff && d.fraction == 0 && d.negative == negative }

  predicate IsMinusZero(d: Double) { IsZero(d) && d.negative }

  ghost predicate HasNaN(nums: seq<Double>) { exists d :: d in nums && IsNaN(d) }

  ghost predicate HasInfinity(nums: seq<Double>, negative: bool) { exists d :: d in nums && IsInfinity(d, negative) }

  ghost predicate OnlyMinusZero(nums: seq<Double>) { forall d :: d in nums ==> IsMinusZero(d) }

  /**
  The sum by what is in the list: NaN, infinities, minus zero when there is nothing else, or one rounding of the exact
  sum.
  */
  ghost function Expected(nums: seq<Double>): Number {
    var plus, minus := HasInfinity(nums, false), HasInfinity(nums, true);
    if HasNaN(nums) || (plus && minus) then NaN
    else if plus then Infinite(false)
    else if minus then Infinite(true)
    else if OnlyMinusZero(nums) then Ldexp(true, 0, 0)
    else RoundInteger(ExactSum(nums), -1074, BINARY64)
  }

  ghost function NumbersOf(items: seq<Item>): seq<Double>
    requires forall i :: 0 <= i < |items| ==> items[i].Num?
  {
    seq(|items|, i requires 0 <= i < |items| => items[i].d)
  }

  // ------------------------------------------------------------- the algorithm

  function NextState(state: State, d: Double): (r: State) {
    if state == Undefined || IsNaN(d) then Undefined
    else if IsInfinity(d, false) then (if state == MinusInfinity then Undefined else PlusInfinity)
    else if IsInfinity(d, true) then (if state == PlusInfinity then Undefined else MinusInfinity)
    else if !IsMinusZero(d) && (state == MinusZero || state == Sum) then Sum
    else state
  }

  /** The loop's state says what the list holds so far. */
  ghost predicate Tracks(state: State, sum: int, nums: seq<Double>) {
    var plus, minus, nan := HasInfinity(nums, false), HasInfinity(nums, true), HasNaN(nums);
    && (state == Undefined <==> nan || (plus && minus))
    && (state == PlusInfinity <==> !nan && plus && !minus)
    && (state == MinusInfinity <==> !nan && minus && !plus)
    && (state == MinusZero <==> OnlyMinusZero(nums))
    && (state == MinusZero || state == Sum ==> sum == ExactSum(nums))
  }

  lemma Appended(nums: seq<Double>, d: Double)
    ensures HasNaN(nums + [d]) <==> HasNaN(nums) || IsNaN(d)
    ensures forall negative :: HasInfinity(nums + [d], negative) <==>
      HasInfinity(nums, negative) || IsInfinity(d, negative)
    ensures OnlyMinusZero(nums + [d]) <==> OnlyMinusZero(nums) && IsMinusZero(d)
    ensures ExactSum(nums + [d]) == ExactSum(nums) + if IsFinite(d) then Units(d) else 0
  {
  }

  lemma Tracked(state: State, sum: int, nums: seq<Double>, d: Double)
    requires Tracks(state, sum, nums)
    ensures var next := NextState(state, d);
      Tracks(next, if next == Sum && !IsMinusZero(d) then sum + Units(d) else sum, nums + [d])
  {
  }

  /** `tsc_math_sum_precise` on the items its iterator yields. */
  method SumItems(items: seq<Item>) returns (r: Outcome)
    ensures r.NotANumberItem? <==> exists i :: 0 <= i < |items| && i < 9007199254740991 && items[i].Other?
    ensures r.TooMany? <==> |items| > 9007199254740991 && forall i :: 0 <= i < 9007199254740991 ==> items[i].Num?
    ensures r.Total? ==> (forall i :: 0 <= i < |items| ==> items[i].Num?) && r.value == Expected(NumbersOf(items))
  {
    var state, sum: int, count := MinusZero, 0, 0;
    ghost var nums: seq<Double> := [];
    while count < |items|
      invariant count <= |items| && count <= MAX_ITEMS
      invariant forall i :: 0 <= i < count ==> items[i].Num?
      invariant nums == NumbersOf(items[..count])
      invariant Tracks(state, sum, nums)
    {
      var next := items[count];
      if count >= MAX_ITEMS { return TooMany; }
      if next.Other? { return NotANumberItem; }
      var d := next.d;
      Tracked(state, sum, nums, d);
      state := NextState(state, d);
      if state == Sum && !IsMinusZero(d) {
        var (n, scale) := Magnitude(d);
        sum := sum + Signed(d.negative, n * Pow2(scale + 1074));
      }
      nums := nums + [d];
      assert items[..count + 1] == items[..count] + [next];
      count := count + 1;
    }
    assert items[..count] == items;
    match state
    case Undefined => r := Total(NaN);
    case PlusInfinity => r := Total(Infinite(false));
    case MinusInfinity => r := Total(Infinite(true));
    case MinusZero => r := Total(Ldexp(true, 0, 0));
    case Sum => r := Total(RoundInteger(sum, -1074, BINARY64));
  }

  // --------------------------------------------------------------- consequences

  lemma {:induction false} SumInsert(nums: seq<Double>, i: nat)
    requires i < |nums|
    ensures ExactSum(nums) == ExactSum(nums[..i] + nums[i + 1..]) + if IsFinite(nums[i]) then Units(nums[i]) else 0
  {
    var n := |nums| - 1;
    if i == n {
      assert nums[..i] + nums[i + 1..] == nums[..n];
    } else {
      var shorter := nums[..n];
      SumInsert(shorter, i);
      var rest := nums[..i] + nums[i + 1..];
      assert rest[..|rest| - 1] == shorter[..i] + shorter[i + 1..];
      assert rest[|rest| - 1] == nums[n];
    }
  }

  lemma RemoveOne(nums: seq<Double>, i: nat)
    requires i < |nums|
    ensures multiset(nums) == multiset(nums[..i] + nums[i + 1..]) + multiset{nums[i]}
  {
    assert nums == nums[..i] + ([nums[i]] + nums[i + 1..]);
  }

  lemma SameRest(a: seq<Double>, b: seq<Double>, n: nat, i: nat)
    requires multiset(a) == multiset(b) && n < |a| && i < |b| && a[n] == b[i]
    ensures multiset(a[..n] + a[n + 1..]) == multiset(b[..i] + b[i + 1..])
  {
    RemoveOne(a, n);
    RemoveOne(b, i);
    assert multiset(a[..n] + a[n + 1..]) == multiset(a) - multiset{a[n]};
  }

  lemma {:induction false} SumOfPermutation(a: seq<Double>, b: seq<Double>)
    requires multiset(a) == multiset(b)
    ensures ExactSum(a) == ExactSum(b)
    decreases |a|
  {
    if a == [] {
      assert |multiset(b)| == 0;
    } else {
      var n := |a| - 1;
      var d := a[n];
      assert d in multiset(b);
      var i :| 0 <= i < |b| && b[i] == d;
      SumInsert(b, i);
      SameRest(a, b, n, i);
      assert a[..n] + a[n + 1..] == a[..n];
      SumOfPermutation(a[..n], b[..i] + b[i + 1..]);
    }
  }

  /** The order of the list does not matter. */
  lemma OrderIsIrrelevant(a: seq<Double>, b: seq<Double>)
    requires multiset(a) == multiset(b)
    ensures Expected(a) == Expected(b)
  {
    SumOfPermutation(a, b);
    forall d ensures d in a <==> d in b {
      assert d in a <==> d in multiset(a);
      assert d in b <==> d in multiset(b);
    }
  }

  /**
  The sum of finite numbers is the correct rounding of the exact sum; an exact zero is negative only if all items are
  minus zeros.
  */
  lemma SumIsRoundedOnce(nums: seq<Double>)
    requires !HasNaN(nums) && !HasInfinity(nums, false) && !HasInfinity(nums, true)
    ensures var s := ExactSum(nums);
            if s == 0 then Expected(nums) == Ldexp(OnlyMinusZero(nums), 0, 0)
            else CorrectlyRounded(Absolute(s), -1074, BINARY64, -1074, s < 0, Expected(nums))
  {
    ZeroSum(nums);
    if ExactSum(nums) != 0 { RoundedCorrectly(ExactSum(nums)); }
  }

  ghost function Absolute(s: int): (n: nat) { if s < 0 then -s else s }

  lemma RoundedCorrectly(s: int)
    requires s != 0
    ensures CorrectlyRounded(Absolute(s), -1074, BINARY64, -1074, s < 0, RoundInteger(s, -1074, BINARY64))
  {
    RoundsCorrectly(Absolute(s), -1074, BINARY64, -1074, s < 0);
    assert Signed(s < 0, Absolute(s)) == s;
  }

  lemma {:induction false} ZeroSum(nums: seq<Double>)
    ensures OnlyMinusZero(nums) ==> ExactSum(nums) == 0
  {
    if nums != [] {
      var n := |nums| - 1;
      assert nums == nums[..n] + [nums[n]];
      Appended(nums[..n], nums[n]);
      ZeroSum(nums[..n]);
      if IsMinusZero(nums[n]) { assert Units(nums[n]) == 0; }
    }
  }

  /** The next greater magnitude: one more in the fraction, or the first number of the next binade. */
  function Above(d: Double): (r: Double) {
    if d.fraction + 1 < 0x10_0000_0000_0000 then d.(fraction := d.fraction + 1)
    else Double(d.negative, d.exponent + 1, 0)
  }

  /**
  What the bit fields stand for: zero is 0, the sign turns the value round, and neighbours are one unit apart up to the
  end of the first normal binade, and twice as far in each binade after that.
  */
  lemma NeighboursApart(d: Double)
    requires ValidDouble(d) && IsFinite(d) && !d.negative
    ensures Units(Double(false, 0, 0)) == 0
    ensures Units(d.(negative := true)) == -Units(d) <= 0
    ensures IsFinite(Above(d)) ==> Units(Above(d)) - Units(d) == if d.exponent == 0 then 1 else Pow2(d.exponent - 1)
  {
    UnitsOf(d);
    if IsFinite(Above(d)) { UnitsOf(Above(d)); }
    if d.exponent > 0 { NextInBinade(d.fraction, Pow2(d.exponent - 1)); } else { assert Pow2(0) == 1; }
  }

  lemma NextInBinade(fraction: nat, gap: nat)
    ensures (0x10_0000_0000_0000 + (fraction + 1)) * gap == (0x10_0000_0000_0000 + fraction) * gap + gap
    ensures 0x10_0000_0000_0000 * (2 * gap) == (0x10_0000_0000_0000 + 0xf_ffff_ffff_ffff) * gap + gap
  {
  }

  lemma UnitsOf(d: Double)
    requires ValidDouble(d) && IsFinite(d) && !d.negative
    ensures Units(d) ==
      if d.exponent == 0 then d.fraction else (0x10_0000_0000_0000 + d.fraction) * Pow2(d.exponent - 1)
  {
    var (n, scale) := Magnitude(d);
    assert Units(d) == n * Pow2(scale - -1074);
    if d.exponent == 0 {
      assert Pow2(0) == 1;
    } else {
      assert scale - -1074 == d.exponent - 1;
    }
  }

  /** The sum of one number is that number: NaN, an infinity with its sign, minus zero, or the exact value. */
  lemma SumOfOne(d: Double)
    requires ValidDouble(d)
    ensures Expected([d]) ==
      if d.exponent == 0x7ff then (if d.fraction != 0 then NaN else Infinite(d.negative))
      else if d.exponent == 0 && d.fraction == 0 then Finite(d.negative, 0, 0)
      else Ldexp(d.negative, Absolute(Units(d)), -1074)
  {
    OneInList(d);
    if IsFinite(d) && !IsZero(d) { OneUnrounded(d); }
  }

  lemma OneInList(d: Double)
    ensures (HasNaN([d]) <==> IsNaN(d)) && (OnlyMinusZero([d]) <==> IsMinusZero(d))
    ensures forall negative :: HasInfinity([d], negative) <==> IsInfinity(d, negative)
    ensures ExactSum([d]) == if IsFinite(d) then Units(d) else 0
  {
    assert [] + [d] == [d];
    Appended([], d);
  }

  /** A number is on the grid of its own format. */
  lemma OneUnrounded(d: Double)
    requires ValidDouble(d) && IsFinite(d) && !IsZero(d)
    ensures RoundInteger(Units(d), -1074, BINARY64) == Ldexp(d.negative, Absolute(Units(d)), -1074)
  {
    var (n, scale) := Magnitude(d);
    var m := At(n, scale, -1074);
    UnitsArePositive(d);
    assert At(m, -1074, -1074) == m by { assert Pow2(0) == 1; }
    LdexpInjective(n, scale, m, -1074, -1074);
    KeepsGridPoints(m, -1074, BINARY64, -1074, d.negative);
    Powers();
    assert OnGrid(BINARY64, n, scale);
    BelowTop(d);
  }

  lemma UnitsArePositive(d: Double)
    requires IsFinite(d) && !IsZero(d)
    ensures At(Magnitude(d).0, Magnitude(d).1, -1074) > 0
  {
    var (n, scale) := Magnitude(d);
    TimesStrict(0, n, Pow2(scale + 1074));
  }

  lemma BelowTop(d: Double)
    requires ValidDouble(d) && IsFinite(d) && !IsZero(d)
    ensures At(Magnitude(d).0, Magnitude(d).1, -1074) < Threshold(BINARY64, -1074)
  {
    LeadingDigit(d);
    ExponentTest(Magnitude(d).0, Magnitude(d).1, 1024, -1074);
  }
}
