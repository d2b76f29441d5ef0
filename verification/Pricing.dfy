/** Percentages, powers of ten and the oracle-based amounts that bound the slippage of a swap. */
module Pricing {
  import opened Evm

  const PERCENTAGE_FACTOR: uint256 := 10000
  const HALF_PERCENT: uint256 := 5000
  const MAX_SLIPPAGE_PERCENT: uint256 := 3000

  /** `PercentageMath.percentMul`: rounds half up. */
  function PercentMul(value: uint256, percentage: uint256): Checked
  {
    if value == 0 || percentage == 0 then Ok(0)
    else if value > (MAX_UINT256 - HALF_PERCENT) / percentage then Err(Overflow)
    else
      PercentMulFits(value, percentage);
      Ok(RoundedShare(value, percentage))
  }

  function RoundedShare(value: nat, percentage: nat): nat {
    (value * percentage + HALF_PERCENT) / PERCENTAGE_FACTOR
  }

  /** The result is the nearest whole number, and the larger one of two that are as near. */
  lemma RoundsHalfUp(value: nat, percentage: nat)
    ensures
      var share := RoundedShare(value, percentage);
      10000 * share <= value * percentage + 5000 < 10000 * share + 10000
  {
  }

  lemma PercentMulFits(value: uint256, percentage: uint256)
    requires percentage > 0 && value <= (MAX_UINT256 - HALF_PERCENT) / percentage
    ensures 0 <= RoundedShare(value, percentage) < TWO_256
  {
  }

  /** The guard of `percentMul` rejects exactly the products that would leave 256 bits. */
  lemma PercentMulOverflows(value: uint256, percentage: uint256)
    ensures PercentMul(value, percentage).Ok? <==> value * percentage + HALF_PERCENT < TWO_256
  {
    if percentage > 0 {
      var bound := (MAX_UINT256 - HALF_PERCENT) / percentage;
      DivBounds(MAX_UINT256 - HALF_PERCENT, percentage);
      if value <= bound {
        ScaleLe(value, bound, percentage);
      } else {
        ScaleLe(bound + 1, value, percentage);
        assert (bound + 1) * percentage == bound * percentage + percentage;
      }
    }
  }

  lemma ScaleLe(a: int, b: int, c: nat)
    requires a <= b
    ensures a * c <= b * c
  {
  }

  // ---- powers of ten

  function Pow10(d: nat): nat {
    if d == 0 then 1 else 10 * Pow10(d - 1)
  }

  /** `10**d` in 256-bit arithmetic, where it wraps around silently. */
  function Exp10(d: nat): uint256 {
    Pow10(d) % TWO_256
  }

  lemma {:induction false} Pow10Monotone(d: nat, e: nat)
    requires d <= e
    ensures 0 < Pow10(d) <= Pow10(e)
    decreases e
  {
    if e == 0 {
    } else if d < e {
      Pow10Monotone(d, e - 1);
    } else {
      Pow10Monotone(d - 1, e - 1);
    }
  }

  lemma Pow10Shift11(d: nat, c: nat)
    requires Pow10(d) == c
    ensures Pow10(d + 11) == 100_000_000_000 * c
  {
    assert Pow10(d + 2) == 100 * Pow10(d);
    assert Pow10(d + 4) == 100 * Pow10(d + 2);
    assert Pow10(d + 6) == 100 * Pow10(d + 4);
    assert Pow10(d + 8) == 100 * Pow10(d + 6);
    assert Pow10(d + 10) == 100 * Pow10(d + 8);
  }

  lemma Pow10Of77()
    ensures Pow10(77) < TWO_256 <= Pow10(78)
  {
    Pow10Shift11(0, 1);
    Pow10Shift11(11, 1_00000000000);
    Pow10Shift11(22, 1_00000000000_00000000000);
    Pow10Shift11(33, 1_00000000000_00000000000_00000000000);
    Pow10Shift11(44, 1_00000000000_00000000000_00000000000_00000000000);
    Pow10Shift11(55, 1_00000000000_00000000000_00000000000_00000000000_00000000000);
    Pow10Shift11(66, 1_00000000000_00000000000_00000000000_00000000000_00000000000_00000000000);
    assert Pow10(78) == 10 * Pow10(77);
  }

  lemma Units()
    ensures Exp10(0) == 1 && Exp10(6) == 1_000_000 && Exp10(18) == 1_000_000_000_000_000_000
  {
    assert Pow10(2) == 100;
    assert Pow10(4) == 100 * Pow10(2);
    assert Pow10(6) == 100 * Pow10(4);
    assert Pow10(7) == 10 * Pow10(6);
    Pow10Shift11(7, 1_00000_00);
  }

  /** 77 is exactly the largest number of decimals whose unit fits in 256 bits. */
  lemma DecimalsFit(d: nat)
    ensures Pow10(d) < TWO_256 <==> d <= 77
    ensures d <= 77 ==> Exp10(d) == Pow10(d)
  {
    Pow10Of77();
    hide Pow10;
    if d <= 77 {
      Pow10Monotone(d, 77);
    } else {
      Pow10Monotone(78, d);
    }
  }

  // ---- slippage

  /**
   The share `percentage` of what `amount` units are worth on the other side of a swap:
   the oracle-fair amount is N / D with N = amount * (price * unit), D = otherPrice * otherUnit.
   */
  method ExpectedAmount(amount: uint256, price: uint256, unit: uint256, otherPrice: uint256, otherUnit: uint256,
                        percentage: uint256)
    returns (o: Outcome, expected: uint256)
    ensures o.Pass? <==> ExpectedFits(amount, price, unit, otherPrice, otherUnit, percentage)
    ensures o.Pass? ==> expected == RoundedShare(Fair(amount, price, unit, otherPrice, otherUnit), percentage)
  {
    expected := 0;
    var unitPrice :- Mul(price, unit);
    var numerator :- Mul(amount, unitPrice);
    var denominator :- Mul(otherPrice, otherUnit);
    var fair :- Div(numerator, denominator);
    PercentMulOverflows(fair, percentage);
    expected :- PercentMul(fair, percentage);
    o := Pass;
  }

  /** No intermediate result leaves 256 bits and the denominator is not zero. */
  ghost predicate ExpectedFits(amount: nat, price: nat, unit: nat, otherPrice: nat, otherUnit: nat, percentage: nat) {
    && price * unit < TWO_256
    && amount * (price * unit) < TWO_256
    && 0 < otherPrice * otherUnit < TWO_256
    && Fair(amount, price, unit, otherPrice, otherUnit) * percentage + HALF_PERCENT < TWO_256
  }

  function Fair(amount: nat, price: nat, unit: nat, otherPrice: nat, otherUnit: nat): nat
    requires otherPrice * otherUnit > 0
  {
    DivBounds(amount * (price * unit), otherPrice * otherUnit);
    amount * (price * unit) / (otherPrice * otherUnit)
  }

  /** Selling: receiving more than the expected minimum loses at most 30% and one rounding. */
  lemma ExactInBound(n: nat, d: nat, received: nat)
    requires d > 0
    requires RoundedShare(n / d, 7000) < received
    ensures 10000 * received * d > 7000 * n - 1999 * d
  {
    var q := n / d;
    DivBounds(n, d);
    ScaleLe(7000 * q + 5001, 10000 * received, d);
    assert (7000 * q + 5001) * d == 7000 * (q * d) + 5001 * d;
  }

  /** Buying: paying less than the expected maximum pays at most 30% more than the fair amount. */
  lemma ExactOutBound(n: nat, d: nat, maximum: nat, paid: nat)
    requires d > 0
    requires paid <= maximum < RoundedShare(n / d, 13000)
    ensures 10000 * paid * d < 13000 * n
  {
    var q := n / d;
    DivBounds(n, d);
    ScaleLe(10000 * paid, 13000 * q - 5000, d);
    assert (13000 * q - 5000) * d == 13000 * (q * d) - 5000 * d;
  }

  /** The ParaSwap form accepts equality twice, and loses one more unit to rounding. */
  lemma ParaSwapBound(n: nat, d: nat, received: nat)
    requires d > 0
    requires RoundedShare(n / d, 7000) <= received
    ensures 10000 * received * d > 7000 * n - 11999 * d
  {
    var q := n / d;
    DivBounds(n, d);
    ScaleLe(7000 * q - 4999, 10000 * received, d);
    assert (7000 * q - 4999) * d == 7000 * (q * d) - 4999 * d;
  }

  // ---- the flash loan fee in quotes

  const FEE: uint256 := 9

  function FeeOf(amount: nat): nat {
    amount * FEE / 10000
  }

  /** What a same-asset quote says comes out of `amount`. */
  function NetOut(amount: nat): nat {
    amount - FeeOf(amount)
  }

  /** What a same-asset quote says must go in for `amount`. */
  function GrossIn(amount: nat): nat {
    amount + FeeOf(amount)
  }

  lemma NineTenThousandths()
    ensures FeeOf(10000) == 9 && FeeOf(9999) == 8 && NetOut(10000) == 9991 && GrossIn(10000) == 10009
  {
  }

  lemma FeesMonotone(x: nat, y: nat)
    requires x <= y
    ensures NetOut(x) <= NetOut(y)
    ensures GrossIn(x) <= GrossIn(y)
  {
  }

  /** The two quotes nearly invert each other: neither overshoots, and both fall short by the fee on the fee. */
  lemma FeesInvert(x: nat)
    ensures 0 <= x - NetOut(GrossIn(x)) <= FeeOf(FeeOf(x)) + 1
    ensures 0 <= x - GrossIn(NetOut(x)) <= FeeOf(FeeOf(x)) + 1
  {
  }
}
