/** Fee arithmetic: basis points of a notional, exact while the product fits a u128. */
module Fees {
  import opened Types
  import opened Arith

  const BPS_DENOMINATOR: nat := 10_000
  const I128_MAX: nat := 0x7FFF_FFFF_FFFF_FFFF_FFFF_FFFF_FFFF_FFFF
  const CLAMP: nat := U128_MAX / BPS_DENOMINATOR

  datatype Schedule = Schedule(maker: int, taker: int)

  datatype FeeOverflow = FeeOverflow(notional: nat, bps: int, limit: nat)

  datatype Charge = Exactly(fee: int) | Overflows(error: FeeOverflow)

  function Abs(bps: int): nat {
    if bps < 0 then -bps else bps
  }

  function Signed(bps: int, magnitude: nat): int {
    if bps < 0 then 0 - magnitude else magnitude
  }

  function Rate(s: Schedule, maker: bool): int {
    if maker then s.maker else s.taker
  }

  /** The largest notional whose product with the rate fits. */
  function ExactLimit(bps: int): nat {
    if bps == 0 then U128_MAX else U128_MAX / Abs(bps)
  }

  function ScheduleLimit(s: Schedule): nat {
    Min(ExactLimit(s.maker), ExactLimit(s.taker))
  }

  function Overflow(notional: nat, bps: int): Charge {
    Overflows(FeeOverflow(notional, bps, ExactLimit(bps)))
  }

  function TryCalculate(s: Schedule, notional: nat, maker: bool): Charge {
    var bps := Rate(s, maker);
    var product := notional * Abs(bps);
    if product > U128_MAX then Overflow(notional, bps)
    else if product / BPS_DENOMINATOR > I128_MAX then Overflow(notional, bps)
    else Exactly(Signed(bps, product / BPS_DENOMINATOR))
  }

  function Calculate(s: Schedule, notional: nat, maker: bool): int {
    match TryCalculate(s, notional, maker)
    case Exactly(fee) => fee
    case Overflows(e) => Signed(e.bps, if CLAMP <= I128_MAX then CLAMP else I128_MAX)
  }

  /** The mathematical fee: the magnitude rounds down, then takes the sign of the rate. */
  function TrueFee(notional: nat, bps: int): int {
    Signed(bps, notional * Abs(bps) / BPS_DENOMINATOR)
  }

  // ---- Exactness ----

  /** The fallible fee succeeds if and only if the notional is at most the limit of the rate,
      and then it is the mathematical fee; the saturating fee agrees there. */
  lemma ExactWithinLimit(s: Schedule, notional: nat, maker: bool)
    requires notional <= U128_MAX
    ensures TryCalculate(s, notional, maker).Exactly? <==> notional <= ExactLimit(Rate(s, maker))
    ensures TryCalculate(s, notional, maker).Exactly? ==>
              && TryCalculate(s, notional, maker).fee == TrueFee(notional, Rate(s, maker))
              && Calculate(s, notional, maker) == TrueFee(notional, Rate(s, maker))
    ensures TryCalculate(s, notional, maker).Overflows? ==>
              TryCalculate(s, notional, maker).error == FeeOverflow(notional, Rate(s, maker), ExactLimit(Rate(s, maker)))
  {
    var bps := Rate(s, maker);
    if bps == 0 {
      assert notional * Abs(bps) == 0;
    } else {
      QuotientBound(notional, Abs(bps), U128_MAX);
      if notional * Abs(bps) <= U128_MAX {
        DivideMonotone(notional * Abs(bps), U128_MAX, BPS_DENOMINATOR);
      }
    }
  }

  /** The saturating fee is the mathematical one cut off at a fixed magnitude, so the
      conversion to a signed integer never bites, a clamped fee is exact only when the
      mathematical fee reaches exactly the cut-off, and no fee exceeds it. */
  lemma SaturatingFee(s: Schedule, notional: nat, maker: bool)
    requires notional <= U128_MAX
    ensures Calculate(s, notional, maker) == Signed(Rate(s, maker), Min(notional * Abs(Rate(s, maker)) / BPS_DENOMINATOR, CLAMP))
    ensures Abs(Calculate(s, notional, maker)) <= CLAMP < I128_MAX
    ensures Calculate(s, notional, maker) == TrueFee(notional, Rate(s, maker))
            <==> notional * Abs(Rate(s, maker)) / BPS_DENOMINATOR <= CLAMP
  {
    var bps := Rate(s, maker);
    var product := notional * Abs(bps);
    if product > U128_MAX {
      DivideMonotone(U128_MAX, product, BPS_DENOMINATOR);
    } else {
      DivideMonotone(product, U128_MAX, BPS_DENOMINATOR);
    }
  }

  /** The magnitude of the fee never falls as the notional grows, across the cut-off too. */
  lemma FeeMonotone(s: Schedule, n: nat, m: nat, maker: bool)
    requires n <= m <= U128_MAX
    ensures Abs(Calculate(s, n, maker)) <= Abs(Calculate(s, m, maker))
  {
    hide Calculate;
    var b := Abs(Rate(s, maker));
    SaturatingFee(s, n, maker);
    SaturatingFee(s, m, maker);
    TimesMonotone(b, n, m);
    assert n * b == b * n && m * b == b * m;
    DivideMonotone(n * b, m * b, BPS_DENOMINATOR);
  }

  /** Below the limit of the schedule both legs are exact, and it is the largest such bound. */
  lemma ScheduleLimitExact(s: Schedule, notional: nat)
    requires notional <= U128_MAX
    ensures notional <= ScheduleLimit(s) <==> TryCalculate(s, notional, true).Exactly? && TryCalculate(s, notional, false).Exactly?
  {
    ExactWithinLimit(s, notional, true);
    ExactWithinLimit(s, notional, false);
  }

  /** A clamped fee can still be the mathematical one. */
  lemma ClampCanBeExact()
    ensures var s, n := Schedule(0, 2), 0x8000_0000_0000_0000_0000_0000_0000_0000;
            n <= U128_MAX && TryCalculate(s, n, false).Overflows? && Calculate(s, n, false) == TrueFee(n, 2)
  {
  }
}
