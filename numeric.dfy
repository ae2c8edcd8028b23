/** Integer and exact-real helpers shared by the collectors and the chart:
    Rust's saturating subtraction, the guarded percentage both collectors
    compute, `f64::ceil` and the saturating float-to-`i32` cast. */
module Numeric {

  const U64_MAX: nat := 0xFFFF_FFFF_FFFF_FFFF
  const I32_MAX: int := 0x7FFF_FFFF
  const I32_MIN: int := -0x8000_0000

  /** `u64::saturating_sub`: the difference, clamped at zero. */
  function SaturatingSub(a: nat, b: nat): (r: nat)
    ensures r == 0 <==> a <= b
    ensures b <= a ==> r + b == a
    ensures r <= a
  {
    if a >= b then a - b else 0
  }

  /** `r` is `part` as a percentage of `whole`, or zero when `whole` is zero. */
  predicate IsPercent(r: real, part: nat, whole: nat) {
    && (whole == 0 ==> r == 0.0)
    && (whole > 0 ==> r * whole as real == part as real * 100.0)
  }

  /** `(part as f64 / whole as f64) * 100.0` when `whole > 0`, else `0.0`,
      computed over exact reals. */
  function Percent(part: nat, whole: nat): (r: real)
    ensures IsPercent(r, part, whole)
    ensures 0.0 <= r
    ensures part <= whole ==> r <= 100.0
  {
    if whole > 0 then (part as real / whole as real) * 100.0 else 0.0
  }

  /** Percentages of one whole add up like their parts. */
  lemma PercentAdditive(a: nat, b: nat, whole: nat)
    ensures Percent(a, whole) + Percent(b, whole) == Percent(a + b, whole)
  {
    if whole > 0 {
      var w := whole as real;
      var pa, pb, pab := Percent(a, whole), Percent(b, whole), Percent(a + b, whole);
      var x, y := a as real * 100.0, b as real * 100.0;
      assert (a + b) as real * 100.0 == x + y;
      CommonFactor(pa, pb, pab, w, x, y);
    }
  }

  /** Numbers that one non-zero factor takes to `x`, `y` and `x + y` add up. */
  lemma CommonFactor(p: real, q: real, r: real, w: real, x: real, y: real)
    requires w != 0.0
    requires p * w == x && q * w == y && r * w == x + y
    ensures p + q == r
  {
    assert (p + q - r) * w == 0.0;
    ZeroProduct(p + q - r, w);
  }

  /** A product with a non-zero factor is zero only when the other factor is. */
  lemma ZeroProduct(x: real, w: real)
    requires w != 0.0 && x * w == 0.0
    ensures x == 0.0
  {
  }

  /** A larger part never gives a smaller percentage. */
  lemma PercentMonotone(a: nat, b: nat, whole: nat)
    requires a <= b
    ensures Percent(a, whole) <= Percent(b, whole)
  {
    PercentAdditive(a, b - a, whole);
  }

  /** `f64::ceil`: the least integer not below `x`. */
  function Ceil(x: real): (r: int)
    ensures x <= r as real < x + 1.0
  {
    -((-x).Floor)
  }

  /** Rust's `as i32` on a float whose value is already integral: it saturates
      at the bounds of `i32`. */
  function SaturatingToI32(x: int): (r: int)
    ensures I32_MIN <= r <= I32_MAX
    ensures I32_MIN <= x <= I32_MAX ==> r == x
    ensures x > I32_MAX ==> r == I32_MAX
    ensures x < I32_MIN ==> r == I32_MIN
  {
    if x > I32_MAX then I32_MAX else if x < I32_MIN then I32_MIN else x
  }
}
