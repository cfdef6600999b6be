/**
 * The calculators of the single-file deployment of the program, where they
 * differ from the modular one: no grace period, a 1%-per-day fine capped at
 * 10% of the installment, different credit deltas, and a fixed lending
 * multiplier with an absolute ceiling.
 */
module SingleFileRules {
  import opened Numeric
  import opened Outcomes
  import opened State
  import Rules

  /** The fine per day late, in percent of the installment. */
  const DAILY_FINE_PERCENT: int := 1
  /** The fine never exceeds a tenth of the installment. */
  const FINE_CAP_DIVISOR: int := 10
  const CREDIT_CEILING: int := 1000
  const COMPLETION_BONUS: int := 50
  const DEFAULT_PENALTY: int := 200
  const INCOME_MULTIPLIER: int := 10
  const MAX_RECOMMENDED_LOAN: int := 500_000_000_000

  /**
   * No grace period: whole days elapsed since the due date, narrowed to 16
   * bits; the payment is on time exactly when that count is zero.
   */
  function AssessLateness(start: I64, n: U8, now: I64): (r: Result<Rules.Lateness>)
    ensures r.Err? <==>
              I64Overflows(Rules.DueDate(start, n))
              || (now > Rules.DueDate(start, n) && I64Overflows(now - Rules.DueDate(start, n)))
    ensures r.Err? ==> r.failure == ArithmeticPanic
    ensures r.Ok? ==> (r.value.on_time <==> r.value.days_late == 0)
    ensures r.Ok? && now <= Rules.DueDate(start, n) ==> r.value.days_late == 0
    ensures r.Ok? && now > Rules.DueDate(start, n) ==>
              r.value.days_late == (now - Rules.DueDate(start, n)) / Rules.SECONDS_PER_DAY % 0x1_0000
  {
    var due_date := start + n * Rules.SECONDS_PER_MONTH;
    if I64Overflows(due_date) then Err(ArithmeticPanic)
    else if now > due_date then
      if I64Overflows(now - due_date) then Err(ArithmeticPanic)
      else
        var days_late := WrapU16((now - due_date) / Rules.SECONDS_PER_DAY);
        Ok(Rules.Lateness(days_late == 0, days_late))
    else
      Ok(Rules.Lateness(true, 0))
  }

  /**
   * Rounding the elapsed time down to whole days gives almost a day of
   * tolerance after all: a payment counts as on time exactly when it comes
   * less than one day after the due date (short of the 16-bit wrap).
   */
  lemma OnTimeMeansWithinOneDayOfDue(start: I64, n: U8, now: I64)
    requires AssessLateness(start, n, now).Ok?
    requires now < Rules.DueDate(start, n) + 0x1_0000 * Rules.SECONDS_PER_DAY
    ensures AssessLateness(start, n, now).value.on_time <==> now < Rules.DueDate(start, n) + Rules.SECONDS_PER_DAY
  {
    var due := Rules.DueDate(start, n);
    if now > due {
      var d := (now - due) / Rules.SECONDS_PER_DAY;
      assert 0 <= d < 0x1_0000;
      assert d == 0 <==> now - due < Rules.SECONDS_PER_DAY;
    }
  }

  /**
   * 1% of the installment per day late, capped at 10% of it. The product
   * `installment * days_late` is an unchecked u64 multiplication.
   */
  function CappedFine(installment: U64, days_late: U16): (fine: Result<U64>)
    ensures fine.Err? <==> days_late > 0 && installment * days_late > U64_MAX
    ensures fine.Err? ==> fine.failure == ArithmeticPanic
    ensures fine.Ok? ==> fine.value <= installment / FINE_CAP_DIVISOR
    ensures fine.Ok? ==> fine.value == Min(installment * days_late / 100, installment / FINE_CAP_DIVISOR)
  {
    if days_late > 0 then
      if installment * days_late > U64_MAX then Err(ArithmeticPanic)
      else Ok(Min(installment * days_late / 100, installment / FINE_CAP_DIVISOR))
    else
      Ok(0)
  }

  /** The cap binds from day 10 on: any later payment pays exactly a tenth of the installment. */
  lemma FineCappedFromDayTen(installment: U64, days_late: U16)
    requires 10 <= days_late
    requires CappedFine(installment, days_late).Ok?
    ensures CappedFine(installment, days_late).value == installment / FINE_CAP_DIVISOR
  {
    Rules.MulMonotone(installment, installment, 10, days_late);
    assert installment * 10 / 100 == installment / FINE_CAP_DIVISOR;
    assert installment * 10 / 100 <= installment * days_late / 100;
  }

  /** `(score + 50).min(1000)`: the unchecked u16 sum aborts on overflow. */
  function CreditAfterCompletion(score: U16): (r: Result<U16>)
    ensures r.Err? <==> score + COMPLETION_BONUS > U16_MAX
    ensures r.Err? ==> r.failure == ArithmeticPanic
    ensures r.Ok? ==> r.value == Min(score + COMPLETION_BONUS, CREDIT_CEILING) && r.value <= CREDIT_CEILING
    ensures score <= CREDIT_CEILING ==> r.Ok? && score <= r.value
  {
    if score + COMPLETION_BONUS > U16_MAX then Err(ArithmeticPanic)
    else Ok(Min(score + COMPLETION_BONUS, CREDIT_CEILING))
  }

  /** -200 on default, saturating at zero; there is no floor at 300 here. */
  function CreditAfterDefault(score: U16): (r: U16)
    ensures r == Max(score - DEFAULT_PENALTY, 0)
    ensures r <= score
  {
    SaturatingSub(score, DEFAULT_PENALTY)
  }

  /**
   * `(income * 10).min(500_000_000_000)`, whatever the risk tier; the
   * product is an unchecked u64 multiplication.
   */
  function RecommendedMaxLoan(income: U64): (r: Result<U64>)
    ensures r.Err? <==> income * INCOME_MULTIPLIER > U64_MAX
    ensures r.Err? ==> r.failure == ArithmeticPanic
    ensures r.Ok? ==> r.value == Min(income * INCOME_MULTIPLIER, MAX_RECOMMENDED_LOAN)
    ensures r.Ok? ==> r.value <= MAX_RECOMMENDED_LOAN
  {
    if income * INCOME_MULTIPLIER > U64_MAX then Err(ArithmeticPanic)
    else Ok(Min(income * INCOME_MULTIPLIER, MAX_RECOMMENDED_LOAN))
  }
}
