/**
 * The instruction handlers of the single-file deployment that differ from the
 * modular program: payments, defaults, completions, fine waivers and risk
 * assessments. Initialization, registration, profile updates and loan
 * creation are the same and live in `Instructions`.
 */
module SingleFile {
  import opened Numeric
  import opened Outcomes
  import opened State
  import opened Instructions
  import SingleFileRules

  /** One of the sums, differences or counters a payment computes would leave its width. */
  predicate PaymentOverflows(loan: Loan, profile: UserProfile, amount: int, fine: int, on_time: bool)
  {
    || amount + fine > U64_MAX
    || amount > loan.outstanding_balance
    || loan.total_repaid + amount + fine > U64_MAX
    || loan.total_fines + fine > U64_MAX
    || profile.total_repaid + amount + fine > U64_MAX
    || (if on_time then profile.on_time_payments == U16_MAX else profile.late_payments == U16_MAX)
  }

  /**
   * The single-file payment checks all pass: an Active loan, an installment
   * in range, at least the installment paid, a lateness and a fine that
   * compute, and no total that overflows. The payment hash is not among them.
   */
  predicate PaymentAccepted(loan: Loan, profile: UserProfile, installment_number: U8, amount: U64, now: I64)
  {
    && loan.status == Active && 0 < installment_number <= loan.tenure_months
    && amount >= loan.monthly_installment
    && var lateness := SingleFileRules.AssessLateness(loan.start_timestamp, installment_number, now);
    && lateness.Ok?
    && var fine := SingleFileRules.CappedFine(loan.monthly_installment, lateness.value.days_late);
    && fine.Ok?
    && !PaymentOverflows(loan, profile, amount, fine.value, lateness.value.on_time)
  }

  /**
   * What the single-file `RecordPayment` returns: the first failing check's
   * error, or the updated loan, profile and payment record.
   */
  predicate RecordPaymentOutcome(loan: Loan, profile: UserProfile, loan_key: Pubkey, installment_number: U8,
                                 amount: U64, payment_hash: Str, now: I64, bump: U8, r: Result<Payment>)
  {
    && (loan.status != Active ==> r == Err(Raised(LoanNotActive)))
    && (loan.status == Active && !(0 < installment_number <= loan.tenure_months) ==>
        r == Err(Raised(InvalidInstallmentNumber)))
    && ((loan.status == Active && 0 < installment_number <= loan.tenure_months
        && amount < loan.monthly_installment) ==> r == Err(Raised(InsufficientPayment)))
    && ((loan.status == Active && 0 < installment_number <= loan.tenure_months
        && amount >= loan.monthly_installment) ==>
        var lateness := SingleFileRules.AssessLateness(loan.start_timestamp, installment_number, now);
        && (lateness.Err? ==> r == Err(ArithmeticPanic))
        && (lateness.Ok? ==>
              var fine := SingleFileRules.CappedFine(loan.monthly_installment, lateness.value.days_late);
              && (fine.Err? ==> r == Err(ArithmeticPanic))
              && (fine.Ok? && PaymentOverflows(loan, profile, amount, fine.value, lateness.value.on_time) ==>
                    r == Err(Raised(MathOverflow)))))
    && (r == Err(Raised(InsufficientPayment)) <==>
        loan.status == Active && 0 < installment_number <= loan.tenure_months && amount < loan.monthly_installment)
    && (r.Ok? <==> PaymentAccepted(loan, profile, installment_number, amount, now))
    && (r.Ok? ==>
        && loan.status == Active && 0 < installment_number <= loan.tenure_months
        && amount >= loan.monthly_installment
        && var lateness := SingleFileRules.AssessLateness(loan.start_timestamp, installment_number, now);
        && lateness.Ok?
        && var on_time := lateness.value.on_time;
        && var days_late := lateness.value.days_late;
        && SingleFileRules.CappedFine(loan.monthly_installment, days_late).Ok?
        && var fine := SingleFileRules.CappedFine(loan.monthly_installment, days_late).value;
        && !PaymentOverflows(loan, profile, amount, fine, on_time)
        && r.value.loan == loan.(
             outstanding_balance := loan.outstanding_balance - amount,
             total_repaid := loan.total_repaid + amount + fine,
             total_fines := loan.total_fines + fine)
        && r.value.profile == profile.(
             total_repaid := profile.total_repaid + amount + fine,
             on_time_payments := profile.on_time_payments + (if on_time then 1 else 0),
             late_payments := profile.late_payments + (if on_time then 0 else 1),
             last_updated := now)
        && r.value.record == PaymentRecord(
             loan_key, loan.user, installment_number, amount, fine, now, payment_hash,
             on_time, days_late, bump)
        && r.value.event == PaymentRecorded(
             loan_key, loan.user, installment_number, amount, fine, now, on_time, days_late))
    && (r.Ok? ==> r.value.profile.credit_score == profile.credit_score)
  }

  /**
   * Records the payment of installment `installment_number`. Only the
   * installment itself must be covered; the fine is charged on top of
   * `amount`, and both totals grow by `amount + fine`. The balance falls by
   * `amount` and may not go below zero. The credit score is left alone. The
   * payment hash is not validated here; whether the record fits its account
   * is the runtime's concern.
   */
  method RecordPayment(loan: Loan, profile: UserProfile, loan_key: Pubkey, installment_number: U8,
                       amount: U64, payment_hash: Str, now: I64, bump: U8)
    returns (r: Result<Payment>)
    ensures RecordPaymentOutcome(loan, profile, loan_key, installment_number, amount, payment_hash, now,
                                 bump, r)
  {
    if loan.status != Active {
      return Err(Raised(LoanNotActive));
    }
    if !(0 < installment_number <= loan.tenure_months) {
      return Err(Raised(InvalidInstallmentNumber));
    }
    if amount < loan.monthly_installment {
      return Err(Raised(InsufficientPayment));
    }

    var lateness := SingleFileRules.AssessLateness(loan.start_timestamp, installment_number, now);
    if lateness.Err? {
      return Err(lateness.failure);
    }
    var days_late := lateness.value.days_late;
    var fine_amount := SingleFileRules.CappedFine(loan.monthly_installment, days_late);
    if fine_amount.Err? {
      return Err(fine_amount.failure);
    }
    var fine := fine_amount.value;
    var on_time := days_late == 0;

    var record := PaymentRecord(loan_key, loan.user, installment_number, amount, fine, now,
                                payment_hash, on_time, days_late, bump);

    var total_payment := CheckedAdd(amount, fine, U64_MAX);
    if total_payment.None? {
      return Err(Raised(MathOverflow));
    }

    var l := loan;
    var balance := CheckedSub(l.outstanding_balance, amount);
    if balance.None? {
      return Err(Raised(MathOverflow));
    }
    l := l.(outstanding_balance := balance.value);
    var loan_repaid := CheckedAdd(l.total_repaid, total_payment.value, U64_MAX);
    if loan_repaid.None? {
      return Err(Raised(MathOverflow));
    }
    l := l.(total_repaid := loan_repaid.value);
    var fines := CheckedAdd(l.total_fines, fine, U64_MAX);
    if fines.None? {
      return Err(Raised(MathOverflow));
    }
    l := l.(total_fines := fines.value);

    var p := profile;
    var user_repaid := CheckedAdd(p.total_repaid, total_payment.value, U64_MAX);
    if user_repaid.None? {
      return Err(Raised(MathOverflow));
    }
    p := p.(total_repaid := user_repaid.value);
    if on_time {
      var count := CheckedAdd(p.on_time_payments, 1, U16_MAX);
      if count.None? {
        return Err(Raised(MathOverflow));
      }
      p := p.(on_time_payments := count.value);
    } else {
      var count := CheckedAdd(p.late_payments, 1, U16_MAX);
      if count.None? {
        return Err(Raised(MathOverflow));
      }
      p := p.(late_payments := count.value);
    }
    p := p.(last_updated := now);

    var event := PaymentRecorded(loan_key, loan.user, installment_number, amount, fine, now,
                                 on_time, days_late);
    return Ok(Payment(l, p, record, event));
  }

  /**
   * What the single-file `MarkLoanDefaulted` returns: an error unless the loan
   * is Active and the counters allow it; otherwise the defaulted loan and the
   * penalised profile.
   */
  predicate MarkLoanDefaultedOutcome(loan: Loan, profile: UserProfile, now: I64, r: Result<Closure>)
  {
    && (loan.status != Active ==> r == Err(Raised(LoanNotActive)))
    && (loan.status == Active && profile.active_loans == 0 ==> r == Err(Raised(MathOverflow)))
    && (loan.status == Active && profile.defaulted_loans == U8_MAX ==> r == Err(Raised(MathOverflow)))
    && (r.Ok? <==> loan.status == Active && profile.active_loans > 0 && profile.defaulted_loans < U8_MAX)
    && (r.Ok? ==> r.value.loan == loan.(status := Defaulted, defaulted_timestamp := Some(now)))
    && (r.Ok? ==>
        r.value.profile == profile.(
          active_loans := profile.active_loans - 1,
          defaulted_loans := profile.defaulted_loans + 1,
          credit_score := SingleFileRules.CreditAfterDefault(profile.credit_score),
          risk_level := Critical,
          last_updated := now))
    && (r.Ok? ==>
        r.value.event == LoanDefaulted(loan.loan_id, loan.user, loan.outstanding_balance, loan.total_fines, now))
  }

  /** Defaults an Active loan whatever its balance; the borrower's active count must be positive. */
  method MarkLoanDefaulted(loan: Loan, profile: UserProfile, now: I64) returns (r: Result<Closure>)
    ensures MarkLoanDefaultedOutcome(loan, profile, now, r)
  {
    if loan.status != Active {
      return Err(Raised(LoanNotActive));
    }
    var l := loan;
    l := l.(status := Defaulted);
    l := l.(defaulted_timestamp := Some(now));

    var p := profile;
    var active := CheckedSub(p.active_loans, 1);
    if active.None? {
      return Err(Raised(MathOverflow));
    }
    p := p.(active_loans := active.value);
    var defaulted := CheckedAdd(p.defaulted_loans, 1, U8_MAX);
    if defaulted.None? {
      return Err(Raised(MathOverflow));
    }
    p := p.(defaulted_loans := defaulted.value);
    p := p.(credit_score := SaturatingSub(p.credit_score, SingleFileRules.DEFAULT_PENALTY));
    p := p.(risk_level := Critical);
    p := p.(last_updated := now);

    return Ok(Closure(l, p, LoanDefaulted(l.loan_id, l.user, l.outstanding_balance, l.total_fines, now)));
  }

  /**
   * What the single-file `MarkLoanCompleted` returns: an error unless the loan
   * is Active and fully repaid and the counters allow it; otherwise the closed
   * loan and rewarded profile.
   */
  predicate MarkLoanCompletedOutcome(loan: Loan, profile: UserProfile, now: I64, r: Result<Closure>)
  {
    && (loan.status != Active ==> r == Err(Raised(LoanNotActive)))
    && (loan.status == Active && loan.outstanding_balance != 0 ==> r == Err(Raised(InsufficientPayment)))
    && ((loan.status == Active && loan.outstanding_balance == 0
        && (profile.active_loans == 0 || profile.completed_loans == U16_MAX)) ==>
        r == Err(Raised(MathOverflow)))
    && ((loan.status == Active && loan.outstanding_balance == 0
        && profile.active_loans > 0 && profile.completed_loans < U16_MAX
        && SingleFileRules.CreditAfterCompletion(profile.credit_score).Err?) ==> r == Err(ArithmeticPanic))
    && (r.Ok? <==>
        && loan.status == Active && loan.outstanding_balance == 0
        && profile.active_loans > 0 && profile.completed_loans < U16_MAX
        && SingleFileRules.CreditAfterCompletion(profile.credit_score).Ok?)
    && (r.Ok? ==> r.value.loan == loan.(status := Completed, completed_timestamp := Some(now)))
    && (r.Ok? ==>
        r.value.profile == profile.(
          active_loans := profile.active_loans - 1,
          completed_loans := profile.completed_loans + 1,
          credit_score := SingleFileRules.CreditAfterCompletion(profile.credit_score).value,
          last_updated := now))
    && (r.Ok? ==> r.value.event == LoanCompleted(loan.loan_id, loan.user, loan.total_repaid, now))
  }

  method MarkLoanCompleted(loan: Loan, profile: UserProfile, now: I64) returns (r: Result<Closure>)
    ensures MarkLoanCompletedOutcome(loan, profile, now, r)
  {
    if loan.status != Active {
      return Err(Raised(LoanNotActive));
    }
    if loan.outstanding_balance != 0 {
      return Err(Raised(InsufficientPayment));
    }
    var l := loan;
    l := l.(status := Completed);
    l := l.(completed_timestamp := Some(now));

    var p := profile;
    var active := CheckedSub(p.active_loans, 1);
    if active.None? {
      return Err(Raised(MathOverflow));
    }
    p := p.(active_loans := active.value);
    var completed := CheckedAdd(p.completed_loans, 1, U16_MAX);
    if completed.None? {
      return Err(Raised(MathOverflow));
    }
    p := p.(completed_loans := completed.value);
    var credit := SingleFileRules.CreditAfterCompletion(p.credit_score);
    if credit.Err? {
      return Err(credit.failure);
    }
    p := p.(credit_score := credit.value);
    p := p.(last_updated := now);

    return Ok(Closure(l, p, LoanCompleted(l.loan_id, l.user, l.total_repaid, now)));
  }

  /**
   * What the single-file `WaiveFine` returns: a waiver above the loan's fines
   * is refused; otherwise only `total_fines` falls.
   */
  predicate WaiveFineOutcome(loan: Loan, loan_key: Pubkey, installment_number: U8, waived_amount: U64,
                             admin: Pubkey, now: I64, r: Result<Waiver>)
  {
    && (r.Err? <==> waived_amount > loan.total_fines)
    && (r.Err? ==> r.failure == Raised(InvalidPaymentAmount))
    && (r.Ok? ==> r.value.loan == loan.(total_fines := loan.total_fines - waived_amount))
    && (r.Ok? ==> r.value.loan.outstanding_balance == loan.outstanding_balance)
    && (r.Ok? ==>
        r.value.event == FineWaived(loan_key, loan.user, installment_number, waived_amount, admin, now))
  }

  /**
   * Waives up to the loan's accumulated fines. No payment record is consulted;
   * only `total_fines` falls, and the outstanding balance is left alone.
   */
  method WaiveFine(loan: Loan, loan_key: Pubkey, installment_number: U8, waived_amount: U64,
                   admin: Pubkey, now: I64)
    returns (r: Result<Waiver>)
    ensures WaiveFineOutcome(loan, loan_key, installment_number, waived_amount, admin, now, r)
  {
    if waived_amount > loan.total_fines {
      return Err(Raised(InvalidPaymentAmount));
    }
    var l := loan;
    var fines := CheckedSub(l.total_fines, waived_amount);
    if fines.None? {
      return Err(Raised(MathOverflow));
    }
    l := l.(total_fines := fines.value);
    return Ok(Waiver(l, FineWaived(loan_key, l.user, installment_number, waived_amount, admin, now)));
  }

  /**
   * What the single-file `UpdateRiskScore` returns: the first failing
   * check's error, or the overwritten profile and the new risk profile with
   * the capped recommendation.
   */
  predicate UpdateRiskScoreOutcome(profile: UserProfile, user: Pubkey, risk_score: U16,
                                   risk_level: RiskLevel, default_probability: U16, now: I64, bump: U8,
                                   r: Result<Assessment>)
  {
    && (risk_score > MAX_RISK_SCORE ==> r == Err(Raised(InvalidRiskScore)))
    && (risk_score <= MAX_RISK_SCORE && default_probability > MAX_DEFAULT_PROBABILITY ==>
        r == Err(Raised(InvalidDefaultProbability)))
    && ((risk_score <= MAX_RISK_SCORE && default_probability <= MAX_DEFAULT_PROBABILITY
        && SingleFileRules.RecommendedMaxLoan(profile.monthly_income).Err?) ==> r == Err(ArithmeticPanic))
    && (r.Ok? <==>
        risk_score <= MAX_RISK_SCORE && default_probability <= MAX_DEFAULT_PROBABILITY
        && SingleFileRules.RecommendedMaxLoan(profile.monthly_income).Ok?)
    && (r.Ok? ==>
        r.value.profile == profile.(credit_score := risk_score, risk_level := risk_level, last_updated := now))
    && (r.Ok? ==>
        r.value.risk == RiskProfile(
          user, risk_score, risk_level, default_probability,
          SingleFileRules.RecommendedMaxLoan(profile.monthly_income).value, now, FACTORS_COUNT, bump))
    && (r.Ok? ==>
        r.value.event == RiskScoreUpdated(user, profile.credit_score, risk_score, risk_level,
                                          default_probability, now))
  }

  /** As in the modular program, except for the fixed, capped lending recommendation. */
  method UpdateRiskScore(profile: UserProfile, user: Pubkey, risk_score: U16, risk_level: RiskLevel,
                         default_probability: U16, now: I64, bump: U8)
    returns (r: Result<Assessment>)
    ensures UpdateRiskScoreOutcome(profile, user, risk_score, risk_level, default_probability, now, bump, r)
  {
    if risk_score > MAX_RISK_SCORE {
      return Err(Raised(InvalidRiskScore));
    }
    if default_probability > MAX_DEFAULT_PROBABILITY {
      return Err(Raised(InvalidDefaultProbability));
    }
    var old_score := profile.credit_score;

    var p := profile;
    p := p.(credit_score := risk_score);
    p := p.(risk_level := risk_level);
    p := p.(last_updated := now);

    var recommended := SingleFileRules.RecommendedMaxLoan(p.monthly_income);
    if recommended.Err? {
      return Err(recommended.failure);
    }
    var risk := RiskProfile(user, risk_score, risk_level, default_probability, recommended.value,
                            now, FACTORS_COUNT, bump);
    return Ok(Assessment(p, risk,
                         RiskScoreUpdated(user, old_score, risk_score, risk_level, default_probability, now)));
  }
}
