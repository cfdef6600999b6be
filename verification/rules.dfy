/**
 * The calculators the modular program's instructions share: the lateness and
 * fine of an installment payment, the credit-score rules, and the risk-tier
 * lending multiplier. All of them are pure functions of record fields.
 */
module Rules {
  import opened Numeric
  import opened Outcomes
  import opened State

  const SECONDS_PER_DAY: int := 24 * 60 * 60
  /** Installments fall due every 30 days; calendar months play no part. */
  const SECONDS_PER_MONTH: int := 30 * 24 * 60 * 60
  const GRACE_PERIOD: int := 2 * 24 * 60 * 60
  /** The fine per day late, in basis points of the installment (0.5%). */
  const DAILY_FINE_RATE: int := 50
  const BASIS_POINTS: int := 10000

  const INITIAL_CREDIT_SCORE: int := 500
  const CREDIT_FLOOR: int := 300
  const CREDIT_CEILING: int := 850
  const ON_TIME_BONUS: int := 2
  const LATE_PENALTY: int := 5
  const COMPLETION_BONUS: int := 20
  const DEFAULT_PENALTY: int := 100

  /** How late a payment is: `days_late` has the width of the field that stores it. */
  datatype Lateness = Lateness(on_time: bool, days_late: U16)

  /** What paying installment `n` costs at a given time. */
  datatype Charge = Charge(lateness: Lateness, fine: U64, total_due: U64)

  /** When installment `n` of a loan that started at `start` falls due. */
  function DueDate(start: int, n: int): int
  {
    start + n * SECONDS_PER_MONTH
  }

  /** The last instant at which installment `n` still counts as paid on time. */
  function GraceEnd(start: int, n: int): int
  {
    DueDate(start, n) + GRACE_PERIOD
  }

  /**
   * On time up to and including the end of the grace period; after it, the
   * whole days elapsed since that end, narrowed to 16 bits as the `as u16`
   * cast does. The i64 sums abort the instruction when they overflow.
   */
  function AssessLateness(start: I64, n: U8, now: I64): (r: Result<Lateness>)
    ensures r.Err? <==>
              I64Overflows(GraceEnd(start, n))
              || (now > GraceEnd(start, n) && I64Overflows(now - GraceEnd(start, n)))
    ensures r.Err? ==> r.failure == ArithmeticPanic
    ensures r.Ok? ==> (r.value.on_time <==> now <= GraceEnd(start, n))
    ensures r.Ok? && r.value.on_time ==> r.value.days_late == 0
    ensures r.Ok? && !r.value.on_time ==>
              r.value.days_late == (now - GraceEnd(start, n)) / SECONDS_PER_DAY % 0x1_0000
  {
    var due_date := start + n * SECONDS_PER_MONTH;
    if I64Overflows(due_date) then Err(ArithmeticPanic)
    else
      var grace_end := due_date + GRACE_PERIOD;
      if I64Overflows(grace_end) then Err(ArithmeticPanic)
      else if now <= grace_end then Ok(Lateness(true, 0))
      else if I64Overflows(now - grace_end) then Err(ArithmeticPanic)
      else Ok(Lateness(false, WrapU16((now - grace_end) / SECONDS_PER_DAY)))
  }

  /** `days_late` counts whole days after the grace period, as long as it fits 16 bits. */
  lemma DaysLateAreWholeDaysPastGrace(start: I64, n: U8, now: I64)
    requires AssessLateness(start, n, now).Ok?
    requires GraceEnd(start, n) < now < GraceEnd(start, n) + 0x1_0000 * SECONDS_PER_DAY
    ensures var d := AssessLateness(start, n, now).value.days_late;
            !AssessLateness(start, n, now).value.on_time
            && d * SECONDS_PER_DAY <= now - GraceEnd(start, n) < (d + 1) * SECONDS_PER_DAY
  {
    var late := now - GraceEnd(start, n);
    var d := late / SECONDS_PER_DAY;
    assert 0 <= d < 0x1_0000;
    assert AssessLateness(start, n, now).value.days_late == d;
  }

  /** 65536 days past the grace period the 16-bit count wraps back to zero. */
  lemma DaysLateWrapAt65536Days(start: I64, n: U8)
    requires !I64Overflows(GraceEnd(start, n) + 0x1_0000 * SECONDS_PER_DAY)
    ensures var now := GraceEnd(start, n) + 0x1_0000 * SECONDS_PER_DAY;
            AssessLateness(start, n, now) == Ok(Lateness(false, 0))
  {
    var now := GraceEnd(start, n) + 0x1_0000 * SECONDS_PER_DAY;
    assert (now - GraceEnd(start, n)) / SECONDS_PER_DAY == 0x1_0000;
  }

  lemma MulMonotone(a: int, b: int, c: int, d: int)
    requires 0 <= a <= b && 0 <= c <= d
    ensures a * c <= b * d
  {
    assert a * c <= b * c;
    assert b * c <= b * d;
  }

  /** The u128 products behind a fine can never overflow. */
  lemma FineProductFitsU128(installment: U64, days_late: U16)
    ensures installment * DAILY_FINE_RATE <= U128_MAX
    ensures installment * DAILY_FINE_RATE * days_late <= U128_MAX
  {
    MulMonotone(installment * DAILY_FINE_RATE, U64_MAX * DAILY_FINE_RATE, days_late, U16_MAX);
  }

  /**
   * 0.5% of the installment per day late, computed in u128 and narrowed back
   * to u64 by `as u64`; no cap. The u128 `checked_mul`s cannot fail.
   */
  function LateFine(installment: U64, days_late: U16): (fine: Result<U64>)
    ensures fine.Ok?
    ensures days_late == 0 ==> fine.value == 0
    ensures fine.value == installment * DAILY_FINE_RATE * days_late / BASIS_POINTS % 0x1_0000_0000_0000_0000
  {
    if days_late > 0 then
      FineProductFitsU128(installment, days_late);
      match CheckedMul(installment, DAILY_FINE_RATE, U128_MAX)
      case None => Err(Raised(MathOverflow))
      case Some(rated) =>
        match CheckedMul(rated, days_late, U128_MAX)
        case None => Err(Raised(MathOverflow))
        case Some(product) => Ok(WrapU64(product / BASIS_POINTS))
    else
      Ok(0)
  }

  /** For any installment up to 10^16 the narrowing never changes the fine. */
  lemma FineIsExactBelowBound(installment: U64, days_late: U16)
    requires installment <= 10_000_000_000_000_000
    ensures LateFine(installment, days_late).value * BASIS_POINTS
              <= installment * DAILY_FINE_RATE * days_late
              < (LateFine(installment, days_late).value + 1) * BASIS_POINTS
  {
    var product := installment * DAILY_FINE_RATE * days_late;
    MulMonotone(installment * DAILY_FINE_RATE, 10_000_000_000_000_000 * DAILY_FINE_RATE, days_late, U16_MAX);
    assert product / BASIS_POINTS <= U64_MAX;
    assert LateFine(installment, days_late).value == product / BASIS_POINTS;
  }

  /** Uncapped: from 200 days late on, the fine alone is at least the whole installment. */
  lemma FineReachesInstallmentAt200Days(installment: U64, days_late: U16)
    requires 200 <= days_late
    requires installment <= 10_000_000_000_000_000
    ensures LateFine(installment, days_late).value >= installment
  {
    FineIsExactBelowBound(installment, days_late);
    MulMonotone(installment * DAILY_FINE_RATE, installment * DAILY_FINE_RATE, 200, days_late);
    assert installment * DAILY_FINE_RATE * 200 == installment * BASIS_POINTS;
    var fine := LateFine(installment, days_late).value;
    assert installment * BASIS_POINTS < (fine + 1) * BASIS_POINTS;
  }

  /**
   * What paying installment `n` costs: the lateness, the fine, and
   * `installment + fine`, whose unchecked u64 sum aborts on overflow.
   */
  function InstallmentCharge(installment: U64, start: I64, n: U8, now: I64): (r: Result<Charge>)
    ensures r.Err? <==>
              AssessLateness(start, n, now).Err?
              || installment + LateFine(installment, AssessLateness(start, n, now).value.days_late).value > U64_MAX
    ensures r.Err? ==> r.failure == ArithmeticPanic
    ensures r.Ok? ==>
              && r.value.lateness == AssessLateness(start, n, now).value
              && r.value.fine == LateFine(installment, r.value.lateness.days_late).value
              && r.value.total_due == installment + r.value.fine
              && (r.value.lateness.on_time ==> r.value.fine == 0 && r.value.total_due == installment)
  {
    match AssessLateness(start, n, now)
    case Err(f) => Err(f)
    case Ok(lateness) =>
      var fine := LateFine(installment, lateness.days_late).value;
      if installment + fine > U64_MAX then Err(ArithmeticPanic)
      else Ok(Charge(lateness, fine, installment + fine))
  }

  /** A score inside [`CREDIT_FLOOR`, `CREDIT_CEILING`]. */
  predicate InCreditBand(score: int)
  {
    CREDIT_FLOOR <= score <= CREDIT_CEILING
  }

  /**
   * +2 (saturating, capped at 850) for an on-time payment, -5 (saturating,
   * floored at 300) for a late one. The clamps also pull a score that an
   * assessment left outside the band back to its edge.
   */
  function CreditAfterPayment(score: U16, on_time: bool): (r: U16)
    ensures on_time ==> r == Min(score + ON_TIME_BONUS, CREDIT_CEILING)
    ensures !on_time ==> r == Max(score - LATE_PENALTY, CREDIT_FLOOR)
    ensures InCreditBand(score) ==> InCreditBand(r)
    ensures score <= 1000 ==> r <= 1000
  {
    if on_time then Min(SaturatingAdd(score, ON_TIME_BONUS, U16_MAX), CREDIT_CEILING)
    else Max(SaturatingSub(score, LATE_PENALTY), CREDIT_FLOOR)
  }

  /** +20 on completion, saturating and capped at 850. */
  function CreditAfterCompletion(score: U16): (r: U16)
    ensures r == Min(score + COMPLETION_BONUS, CREDIT_CEILING)
    ensures r <= CREDIT_CEILING
    ensures InCreditBand(score) ==> InCreditBand(r) && score <= r
  {
    Min(SaturatingAdd(score, COMPLETION_BONUS, U16_MAX), CREDIT_CEILING)
  }

  /** -100 on default, saturating and floored at 300. */
  function CreditAfterDefault(score: U16): (r: U16)
    ensures r == Max(score - DEFAULT_PENALTY, CREDIT_FLOOR)
    ensures r >= CREDIT_FLOOR
    ensures InCreditBand(score) ==> InCreditBand(r) && r <= score
    ensures score <= 1000 ==> r <= 1000
  {
    Max(SaturatingSub(score, DEFAULT_PENALTY), CREDIT_FLOOR)
  }

  /** How many months of income a borrower of each tier is recommended to borrow. */
  function IncomeMultiplier(level: RiskLevel): (m: nat)
    ensures 1 <= m <= 10
    ensures level == Low ==> m == 10
    ensures level == Medium ==> m == 6
    ensures level == High ==> m == 3
    ensures level == Critical ==> m == 1
  {
    match level
    case Low => 10
    case Medium => 6
    case High => 3
    case Critical => 1
  }

  /** The multiplier falls strictly as the tier gets riskier. */
  lemma MultiplierStrictlyDecreasing(a: RiskLevel, b: RiskLevel)
    requires RiskRank(a) < RiskRank(b)
    ensures IncomeMultiplier(a) > IncomeMultiplier(b)
  {
  }

  /** Income times the tier multiplier, failing with `MathOverflow` when it exceeds u64. */
  function RecommendedMaxLoan(income: U64, level: RiskLevel): (r: Result<U64>)
    ensures r.Ok? <==> income * IncomeMultiplier(level) <= U64_MAX
    ensures r.Err? ==> r.failure == Raised(MathOverflow)
    ensures r.Ok? ==> r.value == income * IncomeMultiplier(level) && income <= r.value
  {
    match CheckedMul(income, IncomeMultiplier(level), U64_MAX)
    case None => Err(Raised(MathOverflow))
    case Some(v) => Ok(v)
  }

  /** For a positive income, a riskier tier is always recommended strictly less. */
  lemma RecommendationFallsWithRisk(income: U64, a: RiskLevel, b: RiskLevel)
    requires 0 < income
    requires RiskRank(a) < RiskRank(b)
    requires RecommendedMaxLoan(income, a).Ok?
    ensures RecommendedMaxLoan(income, b).Ok?
    ensures RecommendedMaxLoan(income, b).value < RecommendedMaxLoan(income, a).value
  {
    MultiplierStrictlyDecreasing(a, b);
    var ma, mb := IncomeMultiplier(a), IncomeMultiplier(b);
    assert income * mb < income * ma by {
      assert income * (ma - mb) > 0;
    }
  }
}
