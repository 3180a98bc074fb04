/** `Money` (domain/common/value/Money.java): a non-negative `BigDecimal`.
    A decimal is an unscaled integer and a scale, `unscaled / 10^scale`, as in
    `java.math.BigDecimal`; `equals` compares both parts, `compareTo` only the
    numeric value. */
module Money {
  import opened Wrappers

  datatype Decimal = Decimal(unscaled: int, scale: nat)

  /** A `Money` holds a non-negative amount. */
  type Money = d: Decimal | d.unscaled >= 0 witness Decimal(0, 0)

  const NegativeAmountMessage := "금액은 음수가 될 수 없습니다"

  function Pow10(n: nat): (r: nat)
    ensures r >= 1
  {
    if n == 0 then 1 else 10 * Pow10(n - 1)
  }

  lemma {:induction false} Pow10Add(a: nat, b: nat)
    ensures Pow10(a + b) == Pow10(a) * Pow10(b)
  {
    if a > 0 {
      Pow10Add(a - 1, b);
    }
  }

  function Max(a: nat, b: nat): nat
  {
    if a < b then b else a
  }

  /** The unscaled value of `d` written at the larger scale `s`. */
  function Aligned(d: Decimal, s: nat): int
    requires s >= d.scale
  {
    d.unscaled * Pow10(s - d.scale)
  }

  lemma AlignedUp(d: Decimal, s: nat, t: nat)
    requires d.scale <= s <= t
    ensures Aligned(d, t) == Aligned(d, s) * Pow10(t - s)
  {
    Pow10Add(s - d.scale, t - s);
  }

  /** `BigDecimal.compareTo`: -1, 0 or 1 by numeric value. */
  function CompareTo(a: Decimal, b: Decimal): int
  {
    var s := Max(a.scale, b.scale);
    if Aligned(a, s) < Aligned(b, s) then -1
    else if Aligned(a, s) == Aligned(b, s) then 0
    else 1
  }

  /** `compareTo` does not depend on the common scale the two are read at. */
  lemma CompareAtScale(a: Decimal, b: Decimal, s: nat)
    requires a.scale <= s && b.scale <= s
    ensures CompareTo(a, b) < 0 <==> Aligned(a, s) < Aligned(b, s)
    ensures CompareTo(a, b) == 0 <==> Aligned(a, s) == Aligned(b, s)
  {
    var m := Max(a.scale, b.scale);
    AlignedUp(a, m, s);
    AlignedUp(b, m, s);
    ScalePreservesOrder(Aligned(a, m), Aligned(b, m), Pow10(s - m));
  }

  lemma ScalePreservesOrder(x: int, y: int, p: int)
    requires p >= 1
    ensures x < y <==> x * p < y * p
    ensures x == y <==> x * p == y * p
  {
    if x < y {
      assert y * p - x * p == (y - x) * p;
    } else if y < x {
      assert x * p - y * p == (x - y) * p;
    }
  }

  /** Equal by `compareTo`, whatever the scales. */
  predicate SameValue(a: Decimal, b: Decimal)
  {
    CompareTo(a, b) == 0
  }

  /** `new Money(amount)`: `null` is refused by `requireNonNull`, a
      negative amount by an `IllegalArgumentException`. */
  function New(amount: Option<Decimal>): (r: Result<Money>)
    ensures amount == None ==> r == Fail(NullPointer)
    ensures amount.Some? ==> (r.Ok? <==> amount.value.unscaled >= 0)
    ensures r.Ok? ==> r.value == amount.value
    ensures amount.Some? && r.Fail? ==> r.error == IllegalArgument(NegativeAmountMessage)
  {
    match amount
    case None => Fail(NullPointer)
    case Some(d) =>
      if CompareTo(d, Decimal(0, 0)) < 0 then Fail(IllegalArgument(NegativeAmountMessage))
      else Ok(d)
  }

  /** `Money.zero()`: `BigDecimal.ZERO`, scale 0. */
  function Zero(): (r: Money)
    ensures r.scale == 0 && SameValue(r, Decimal(0, 7))
  {
    Decimal(0, 0)
  }

  /** `isZero`: numerically zero, at any scale. */
  function IsZero(m: Money): (r: bool)
    ensures r <==> m.unscaled == 0
  {
    CompareTo(m, Decimal(0, 0)) == 0
  }

  /** `isLessThanOrEqual`: numeric `<=`. */
  function IsLessThanOrEqual(a: Money, b: Money): bool
  {
    CompareTo(a, b) <= 0
  }

  /** `isLessThan`: numeric `<`. */
  function IsLessThan(a: Money, b: Money): bool
  {
    CompareTo(a, b) < 0
  }

  /** The two comparisons are the strict and non-strict forms of one total
      order on values. */
  lemma ComparisonsAgree(a: Money, b: Money)
    ensures IsLessThanOrEqual(a, b) <==> IsLessThan(a, b) || SameValue(a, b)
    ensures IsLessThan(a, b) <==> !IsLessThanOrEqual(b, a)
    ensures SameValue(a, b) <==> SameValue(b, a)
  {
  }

  /** `add`: the exact sum, at the larger of the two scales. */
  function Add(a: Money, b: Money): (r: Money)
    ensures r.scale == Max(a.scale, b.scale)
  {
    var s := Max(a.scale, b.scale);
    Decimal(Aligned(a, s) + Aligned(b, s), s)
  }

  /** The sum is exact at every scale at least the result's. */
  lemma AddExact(a: Money, b: Money, s: nat)
    requires s >= Max(a.scale, b.scale)
    ensures Aligned(Add(a, b), s) == Aligned(a, s) + Aligned(b, s)
  {
    var m := Max(a.scale, b.scale);
    AlignedUp(a, m, s);
    AlignedUp(b, m, s);
    AlignedUp(Add(a, b), m, s);
  }

  /** `add` respects numeric equality: adding numerically equal amounts gives
      numerically equal sums. */
  lemma AddSameValue(a: Money, a': Money, b: Money)
    requires SameValue(a, a')
    ensures SameValue(Add(a, b), Add(a', b))
  {
    var s := Max(Max(a.scale, a'.scale), b.scale);
    CompareAtScale(a, a', s);
    AddExact(a, b, s);
    AddExact(a', b, s);
    CompareAtScale(Add(a, b), Add(a', b), s);
  }

  /** `subtract`: the exact difference at the larger scale; a negative
      difference is refused by the constructor. */
  function Subtract(a: Money, b: Money): (r: Result<Money>)
    ensures r.Ok? <==> !IsLessThan(a, b)
    ensures r.Ok? ==> (r.value.scale == Max(a.scale, b.scale)
      && Aligned(r.value, r.value.scale) == Aligned(a, r.value.scale) - Aligned(b, r.value.scale))
    ensures r.Fail? ==> r.error == IllegalArgument(NegativeAmountMessage)
  {
    var s := Max(a.scale, b.scale);
    New(Some(Decimal(Aligned(a, s) - Aligned(b, s), s)))
  }

  /** Subtracting what was added gives back the same value. */
  lemma {:induction false} SubtractAfterAdd(a: Money, b: Money)
    ensures Subtract(Add(a, b), b).Ok?
    ensures SameValue(Subtract(Add(a, b), b).value, a)
  {
    var s := Max(a.scale, b.scale);
    AddExact(a, b, s);
    var sum := Add(a, b);
    assert Max(sum.scale, b.scale) == s;
    CompareAtScale(sum, b, s);
    var d := Subtract(sum, b).value;
    CompareAtScale(d, a, s);
  }

  /** Adding back what was subtracted gives back the same value. */
  lemma {:induction false} AddAfterSubtract(a: Money, b: Money)
    requires !IsLessThan(a, b)
    ensures SameValue(Add(Subtract(a, b).value, b), a)
  {
    var s := Max(a.scale, b.scale);
    var d := Subtract(a, b).value;
    AddExact(d, b, s);
    CompareAtScale(Add(d, b), a, s);
  }

  function Abs(x: int): nat
  {
    if x < 0 then -x else x
  }

  /** `n / p` rounded to the nearest integer, halves away from zero
      (`RoundingMode.HALF_UP`). */
  function DivHalfUp(n: int, p: nat): (q: int)
    requires p >= 1
    ensures n >= 0 ==> q >= 0
    ensures n <= 0 ==> q <= 0
    ensures 2 * Abs(n - q * p) <= p
    ensures 2 * Abs(n - q * p) == p ==> Abs(q * p) > Abs(n)
  {
    var k: int := HalfUpMagnitude(Abs(n), p);
    if n >= 0 then k
    else
      assert (-k) * p == -(k * p);
      -k
  }

  /** Rounding half-up of a non-negative quotient. */
  function HalfUpMagnitude(m: nat, p: nat): (k: nat)
    requires p >= 1
    ensures 2 * Abs(m - k * p) <= p
    ensures 2 * Abs(m - k * p) == p ==> k * p > m
  {
    var d, r := m / p, m % p;
    assert m == d * p + r;
    if 2 * r >= p then
      assert (d + 1) * p == d * p + p;
      d + 1
    else d
  }

  /** `setScale(2, RoundingMode.HALF_UP)`. */
  function SetScale2HalfUp(d: Decimal): (r: Decimal)
    ensures r.scale == 2
    ensures d.scale <= 2 ==> r.unscaled == Aligned(d, 2)
    ensures d.unscaled >= 0 ==> r.unscaled >= 0
  {
    if d.scale <= 2 then Decimal(Aligned(d, 2), 2)
    else Decimal(DivHalfUp(d.unscaled, Pow10(d.scale - 2)), 2)
  }

  /** A value with at most two decimals keeps its value. */
  lemma SetScaleKeepsValue(d: Decimal)
    requires d.scale <= 2
    ensures SameValue(SetScale2HalfUp(d), d)
  {
    CompareAtScale(SetScale2HalfUp(d), d, 2);
  }

  /** `multiply(BigDecimal)`: the exact product rounded half-up to two
      decimals; a negative rounded product is refused. */
  function Multiply(a: Money, multiplier: Decimal): (r: Result<Money>)
    ensures r.Ok? ==> r.value.scale == 2
    ensures multiplier.unscaled >= 0 ==> r.Ok?
  {
    New(Some(SetScale2HalfUp(Decimal(a.unscaled * multiplier.unscaled, a.scale + multiplier.scale))))
  }

  /** `multiply(int)`: `BigDecimal.valueOf(multiplier)` has scale 0. */
  function MultiplyInt(a: Money, multiplier: int): Result<Money>
  {
    Multiply(a, Decimal(multiplier, 0))
  }

  /** With at most two decimals, multiplying by a non-negative count is exact
      and always has scale 2. */
  lemma MultiplyIntExact(a: Money, k: nat)
    requires a.scale <= 2
    ensures MultiplyInt(a, k).Ok?
    ensures MultiplyInt(a, k).value.scale == 2
    ensures Aligned(MultiplyInt(a, k).value, 2) == Aligned(a, 2) * k
  {
    var p := Pow10(2 - a.scale);
    assert a.unscaled * k * p == a.unscaled * p * k;
  }

  /** `equals` is `BigDecimal.equals`: value and scale must both agree, so
      1000 and 1000.00 are different amounts although `compareTo` says equal. */
  lemma EqualsIsScaleSensitive()
    ensures SameValue(Decimal(1000, 0), Decimal(100000, 2))
    ensures Decimal(1000, 0) != Decimal(100000, 2)
  {
    CompareAtScale(Decimal(1000, 0), Decimal(100000, 2), 2);
  }

  /** A negative multiplier is refused unless the rounded product is zero:
      0.001 x (-1) rounds to 0.00 and is accepted. */
  lemma NegativeMultiplier()
    ensures Multiply(Decimal(100, 0), Decimal(-1, 0)) == Fail(IllegalArgument(NegativeAmountMessage))
    ensures Multiply(Decimal(1, 3), Decimal(-1, 0)) == Ok(Decimal(0, 2))
  {
    assert Pow10(1) == 10 && Pow10(2) == 100;
    assert SetScale2HalfUp(Decimal(-100, 0)) == Decimal(-10000, 2);
    assert DivHalfUp(-1, 10) == 0;
  }

  /** `BigDecimal.divide(divisor, 0, RoundingMode.FLOOR)` for a positive
      divisor: the largest integer `q` with `q * b <= a`. */
  function DivideFloor(a: Decimal, b: Decimal): (q: int)
    requires b.unscaled > 0
    ensures var s := Max(a.scale, b.scale);
      q * Aligned(b, s) <= Aligned(a, s) < (q + 1) * Aligned(b, s)
  {
    var s := Max(a.scale, b.scale);
    Aligned(a, s) / Aligned(b, s)
  }
}
