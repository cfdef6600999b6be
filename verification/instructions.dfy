/**
 * The instruction handlers of the modular program.
 *
 * Each handler receives the records its accounts hold, checks its inputs in
 * the program's order, and updates its copies of the records step by step.
 * It returns the updated copies (and the event it emits) or the first failure;
 * on a failure the runtime writes nothing back, so a handler that has already
 * updated some fields when a later `checked_add` fails leaves no trace.
 *
 * Initialization, registration, profile updates and loan creation are the same
 * in the single-file deployment, which reuses them from here.
 */
module Instructions {
  import opened Numeric
  import opened Outcomes
  import opened State
  import opened Rules

  const MAX_FEE_PERCENTAGE: int := 1000
  const MIN_PRINCIPAL: int := 5_000_000_000
  const MAX_PRINCIPAL: int := 500_000_000_000
  const MAX_INTEREST_RATE: int := 3000
  const MIN_TENURE: int := 3
  const MAX_TENURE: int := 60
  const MAX_RISK_SCORE: int := 1000
  const MAX_DEFAULT_PROBABILITY: int := 10000
  /** Number of factors a risk assessment reports (a fixed placeholder). */
  const FACTORS_COUNT: int := 5

  /** What each successful instruction announces to off-chain indexers. */
  datatype Event =
    | UserRegistered(user: Pubkey, full_name: Str, monthly_income: U64,
                     employment_type: EmploymentType, timestamp: I64)
    | LoanCreated(loan_id: U64, user: Pubkey, principal_amount: U64, interest_rate: U16,
                  tenure_months: U8, monthly_installment: U64, total_amount: U64,
                  start_timestamp: I64, end_timestamp: I64)
    | PaymentRecorded(loan: Pubkey, user: Pubkey, installment_number: U8, amount: U64,
                      fine_amount: U64, payment_timestamp: I64, on_time: bool, days_late: U16)
    | RiskScoreUpdated(user: Pubkey, old_score: U16, new_score: U16, risk_level: RiskLevel,
                       default_probability: U16, timestamp: I64)
    | LoanDefaulted(loan_id: U64, user: Pubkey, outstanding_balance: U64, total_fines: U64,
                    defaulted_timestamp: I64)
    | LoanCompleted(loan_id: U64, user: Pubkey, total_repaid: U64, completed_timestamp: I64)
    | FineWaived(loan: Pubkey, user: Pubkey, installment_number: U8, waived_amount: U64,
                 waived_by: Pubkey, timestamp: I64)

  datatype Registration = Registration(state: ProgramState, profile: UserProfile, event: Event)
  datatype Origination = Origination(state: ProgramState, profile: UserProfile, loan: Loan, event: Event)
  datatype Payment = Payment(loan: Loan, profile: UserProfile, record: PaymentRecord, event: Event)
  datatype Closure = Closure(loan: Loan, profile: UserProfile, event: Event)
  datatype Waiver = Waiver(loan: Loan, event: Event)
  datatype Assessment = Assessment(profile: UserProfile, risk: RiskProfile, event: Event)

  // ---------------------------------------------------------------- initialize

  /**
   * What `Initialize` returns: a fee above 10% is refused; otherwise a state
   * holding the caller, the fee and zero counters.
   */
  predicate InitializeOutcome(authority: Pubkey, fee_percentage: U16, bump: U8, r: Result<ProgramState>)
  {
    && (r.Err? <==> fee_percentage > MAX_FEE_PERCENTAGE)
    && (r.Err? ==> r.failure == Raised(InvalidInterestRate))
    && (r.Ok? ==> r.value.authority == authority && r.value.fee_percentage == fee_percentage)
    && (r.Ok? ==> r.value.total_users == 0 && r.value.total_loans == 0 && r.value.total_volume == 0)
    && (r.Ok? ==> !r.value.paused && r.value.bump == bump)
  }

  method Initialize(authority: Pubkey, fee_percentage: U16, bump: U8) returns (r: Result<ProgramState>)
    ensures InitializeOutcome(authority, fee_percentage, bump, r)
  {
    if fee_percentage > MAX_FEE_PERCENTAGE {
      return Err(Raised(InvalidInterestRate));
    }
    var state := ProgramState(authority, 0, 0, 0, fee_percentage, false, bump);
    return Ok(state);
  }

  // ------------------------------------------------------------- register_user

  /** A freshly registered profile: score 500, Medium risk, every counter and total zero. */
  predicate IsNewProfile(p: UserProfile, authority: Pubkey, full_name: Str, monthly_income: U64,
                         employment_type: EmploymentType, now: I64, bump: U8)
  {
    && p.authority == authority && p.full_name == full_name
    && p.monthly_income == monthly_income && p.employment_type == employment_type
    && p.total_loans == 0 && p.active_loans == 0 && p.completed_loans == 0 && p.defaulted_loans == 0
    && p.total_borrowed == 0 && p.total_repaid == 0
    && p.on_time_payments == 0 && p.late_payments == 0 && p.missed_payments == 0
    && p.credit_score == INITIAL_CREDIT_SCORE && p.risk_level == Medium
    && p.registration_timestamp == now && p.last_updated == now && p.bump == bump
  }

  /**
   * What `RegisterUser` returns: the first failing check's error, or the state
   * with one more user and a fresh profile.
   */
  predicate RegisterUserOutcome(state: ProgramState, authority: Pubkey, full_name: Str, monthly_income: U64,
                                employment_type: EmploymentType, now: I64, bump: U8,
                                r: Result<Registration>)
  {
    && (state.paused ==> r == Err(Raised(ProgramPaused)))
    && (!state.paused && |full_name| > MAX_NAME_LEN ==> r == Err(Raised(NameTooLong)))
    && (!state.paused && |full_name| <= MAX_NAME_LEN && monthly_income == 0 ==>
        r == Err(Raised(IncomeTooLow)))
    && ((!state.paused && |full_name| <= MAX_NAME_LEN && monthly_income > 0
        && state.total_users == U64_MAX) ==> r == Err(Raised(MathOverflow)))
    && (r.Ok? <==>
        !state.paused && |full_name| <= MAX_NAME_LEN && monthly_income > 0 && state.total_users < U64_MAX)
    && (r.Ok? ==> r.value.state == state.(total_users := state.total_users + 1))
    && (r.Ok? ==>
        IsNewProfile(r.value.profile, authority, full_name, monthly_income, employment_type, now, bump))
    && (r.Ok? ==>
        r.value.event == UserRegistered(authority, full_name, monthly_income, employment_type, now))
  }

  method RegisterUser(state: ProgramState, authority: Pubkey, full_name: Str, monthly_income: U64,
                      employment_type: EmploymentType, now: I64, bump: U8)
    returns (r: Result<Registration>)
    ensures RegisterUserOutcome(state, authority, full_name, monthly_income, employment_type, now, bump, r)
  {
    if state.paused {
      return Err(Raised(ProgramPaused));
    }
    if |full_name| > MAX_NAME_LEN {
      return Err(Raised(NameTooLong));
    }
    if monthly_income == 0 {
      return Err(Raised(IncomeTooLow));
    }
    var profile := UserProfile(
      authority, full_name, monthly_income, employment_type,
      0, 0, 0, 0, 0, 0, 0, 0, 0,
      INITIAL_CREDIT_SCORE, Medium, now, now, bump);
    var total_users := CheckedAdd(state.total_users, 1, U64_MAX);
    if total_users.None? {
      return Err(Raised(MathOverflow));
    }
    var new_state := state.(total_users := total_users.value);
    return Ok(Registration(new_state, profile,
                           UserRegistered(authority, full_name, monthly_income, employment_type, now)));
  }

  // ------------------------------------------------------- update_user_profile

  /**
   * What `UpdateUserProfile` returns: a zero income is refused; otherwise only
   * the given fields and `last_updated` change.
   */
  predicate UpdateUserProfileOutcome(profile: UserProfile, monthly_income: Option<U64>,
                                     employment_type: Option<EmploymentType>, now: I64,
                                     r: Result<UserProfile>)
  {
    && (r.Err? <==> monthly_income == Some(0))
    && (r.Err? ==> r.failure == Raised(IncomeTooLow))
    && (r.Ok? ==>
        r.value == profile.(
          monthly_income := if monthly_income.Some? then monthly_income.value else profile.monthly_income,
          employment_type := if employment_type.Some? then employment_type.value else profile.employment_type,
          last_updated := now))
  }

  method UpdateUserProfile(profile: UserProfile, monthly_income: Option<U64>,
                           employment_type: Option<EmploymentType>, now: I64)
    returns (r: Result<UserProfile>)
    ensures UpdateUserProfileOutcome(profile, monthly_income, employment_type, now, r)
  {
    var p := profile;
    if monthly_income.Some? {
      if monthly_income.value == 0 {
        return Err(Raised(IncomeTooLow));
      }
      p := p.(monthly_income := monthly_income.value);
    }
    if employment_type.Some? {
      p := p.(employment_type := employment_type.value);
    }
    p := p.(last_updated := now);
    return Ok(p);
  }

  // --------------------------------------------------------------- create_loan

  predicate LoanTermsValid(principal_amount: int, interest_rate: int, tenure_months: int)
  {
    && MIN_PRINCIPAL <= principal_amount <= MAX_PRINCIPAL
    && 0 < interest_rate <= MAX_INTEREST_RATE
    && MIN_TENURE <= tenure_months <= MAX_TENURE
  }

  /** One of the counters a new loan bumps would leave its width. */
  predicate OriginationOverflows(state: ProgramState, profile: UserProfile, principal_amount: int)
  {
    || profile.total_loans == U16_MAX
    || profile.total_borrowed + principal_amount > U64_MAX
    || state.total_loans == U64_MAX
    || state.total_volume + principal_amount > U64_MAX
  }

  /**
   * The loan a successful creation writes: it takes the program's next loan
   * id, owes `installment * tenure`, and ends `tenure` 30-day months after
   * its start.
   */
  predicate IsNewLoan(loan: Loan, state: ProgramState, user: Pubkey, principal_amount: U64,
                      interest_rate: U16, tenure_months: U8, start_timestamp: I64,
                      monthly_installment: U64, now: I64, bump: U8)
  {
    && loan.user == user && loan.loan_id == state.total_loans
    && loan.principal_amount == principal_amount && loan.interest_rate == interest_rate
    && loan.tenure_months == tenure_months && loan.monthly_installment == monthly_installment
    && loan.total_amount == monthly_installment * tenure_months
    && loan.outstanding_balance == loan.total_amount
    && loan.total_repaid == 0 && loan.total_fines == 0
    && loan.start_timestamp == start_timestamp
    && loan.end_timestamp == start_timestamp + tenure_months * SECONDS_PER_MONTH
    && loan.status == Active && loan.created_timestamp == now
    && loan.completed_timestamp.None? && loan.defaulted_timestamp.None?
    && loan.bump == bump
  }

  /**
   * What `CreateLoan` returns: the first failing check's error, or the new
   * Active loan with the counters that count it.
   */
  predicate CreateLoanOutcome(state: ProgramState, profile: UserProfile, user: Pubkey,
                              principal_amount: U64, interest_rate: U16, tenure_months: U8,
                              start_timestamp: I64, monthly_installment: U64, now: I64, bump: U8,
                              r: Result<Origination>)
  {
    && (state.paused ==> r == Err(Raised(ProgramPaused)))
    && (!state.paused && !(MIN_PRINCIPAL <= principal_amount <= MAX_PRINCIPAL) ==>
        r == Err(Raised(InvalidLoanAmount)))
    && ((!state.paused && MIN_PRINCIPAL <= principal_amount <= MAX_PRINCIPAL
        && !(0 < interest_rate <= MAX_INTEREST_RATE)) ==> r == Err(Raised(InvalidInterestRate)))
    && ((!state.paused && MIN_PRINCIPAL <= principal_amount <= MAX_PRINCIPAL
        && 0 < interest_rate <= MAX_INTEREST_RATE
        && !(MIN_TENURE <= tenure_months <= MAX_TENURE)) ==> r == Err(Raised(InvalidTenure)))
    && ((!state.paused && LoanTermsValid(principal_amount, interest_rate, tenure_months)
        && profile.active_loans != 0) ==> r == Err(Raised(ActiveLoanExists)))
    && ((!state.paused && LoanTermsValid(principal_amount, interest_rate, tenure_months)
        && profile.active_loans == 0) ==>
        && (monthly_installment * tenure_months > U64_MAX ==> r == Err(Raised(MathOverflow)))
        && (monthly_installment * tenure_months <= U64_MAX
            && I64Overflows(start_timestamp + tenure_months * SECONDS_PER_MONTH) ==>
              r == Err(ArithmeticPanic))
        && (monthly_installment * tenure_months <= U64_MAX
            && !I64Overflows(start_timestamp + tenure_months * SECONDS_PER_MONTH)
            && OriginationOverflows(state, profile, principal_amount) ==>
              r == Err(Raised(MathOverflow))))
    && (r.Ok? <==>
        && !state.paused && LoanTermsValid(principal_amount, interest_rate, tenure_months)
        && profile.active_loans == 0
        && monthly_installment * tenure_months <= U64_MAX
        && !I64Overflows(start_timestamp + tenure_months * SECONDS_PER_MONTH)
        && !OriginationOverflows(state, profile, principal_amount))
    && (r.Ok? ==>
        IsNewLoan(r.value.loan, state, user, principal_amount, interest_rate, tenure_months,
                  start_timestamp, monthly_installment, now, bump))
    && (r.Ok? ==>
        r.value.profile == profile.(
          total_loans := profile.total_loans + 1,
          active_loans := 1,
          total_borrowed := profile.total_borrowed + principal_amount,
          last_updated := now))
    && (r.Ok? ==>
        r.value.state == state.(
          total_loans := state.total_loans + 1,
          total_volume := state.total_volume + principal_amount))
    && (r.Ok? ==>
        r.value.event == LoanCreated(
          state.total_loans, user, principal_amount, interest_rate, tenure_months,
          monthly_installment, r.value.loan.total_amount, start_timestamp, r.value.loan.end_timestamp))
  }

  /**
   * `monthly_installment` is what the floating-point amortization formula
   * produced for these terms; this model takes it as given.
   */
  method CreateLoan(state: ProgramState, profile: UserProfile, user: Pubkey, principal_amount: U64,
                    interest_rate: U16, tenure_months: U8, start_timestamp: I64,
                    monthly_installment: U64, now: I64, bump: U8)
    returns (r: Result<Origination>)
    ensures CreateLoanOutcome(state, profile, user, principal_amount, interest_rate, tenure_months,
                              start_timestamp, monthly_installment, now, bump, r)
  {
    if state.paused {
      return Err(Raised(ProgramPaused));
    }
    if !(MIN_PRINCIPAL <= principal_amount <= MAX_PRINCIPAL) {
      return Err(Raised(InvalidLoanAmount));
    }
    if !(0 < interest_rate <= MAX_INTEREST_RATE) {
      return Err(Raised(InvalidInterestRate));
    }
    if !(MIN_TENURE <= tenure_months <= MAX_TENURE) {
      return Err(Raised(InvalidTenure));
    }
    if profile.active_loans != 0 {
      return Err(Raised(ActiveLoanExists));
    }

    var total_amount := CheckedMul(monthly_installment, tenure_months, U64_MAX);
    if total_amount.None? {
      return Err(Raised(MathOverflow));
    }
    var end_timestamp := start_timestamp + tenure_months * SECONDS_PER_MONTH;
    if I64Overflows(end_timestamp) {
      return Err(ArithmeticPanic);
    }

    var loan := Loan(
      user, state.total_loans, principal_amount, interest_rate, tenure_months,
      monthly_installment, total_amount.value, total_amount.value, 0, 0,
      start_timestamp, end_timestamp, Active, now, None, None, bump);

    var p := profile;
    var user_loans := CheckedAdd(p.total_loans, 1, U16_MAX);
    if user_loans.None? {
      return Err(Raised(MathOverflow));
    }
    p := p.(total_loans := user_loans.value);
    var active_loans := CheckedAdd(p.active_loans, 1, U8_MAX);
    if active_loans.None? {
      return Err(Raised(MathOverflow));
    }
    p := p.(active_loans := active_loans.value);
    var borrowed := CheckedAdd(p.total_borrowed, principal_amount, U64_MAX);
    if borrowed.None? {
      return Err(Raised(MathOverflow));
    }
    p := p.(total_borrowed := borrowed.value);
    p := p.(last_updated := now);

    var s := state;
    var program_loans := CheckedAdd(s.total_loans, 1, U64_MAX);
    if program_loans.None? {
      return Err(Raised(MathOverflow));
    }
    s := s.(total_loans := program_loans.value);
    var volume := CheckedAdd(s.total_volume, principal_amount, U64_MAX);
    if volume.None? {
      return Err(Raised(MathOverflow));
    }
    s := s.(total_volume := volume.value);

    var event := LoanCreated(loan.loan_id, user, principal_amount, interest_rate, tenure_months,
                             monthly_installment, loan.total_amount, start_timestamp, end_timestamp);
    return Ok(Origination(s, p, loan, event));
  }

  // ------------------------------------------------------------ record_payment

  /** The checks a payment request passes before any amount is computed. */
  predicate PaymentRequestValid(loan: Loan, installment_number: int, amount: int, payment_hash: Str)
  {
    && loan.status == Active
    && 0 < installment_number <= loan.tenure_months
    && amount > 0
    && |payment_hash| <= MAX_HASH_LEN
  }

  /** One of the totals or counters a payment bumps would leave its width. */
  predicate PaymentOverflows(loan: Loan, profile: UserProfile, amount: int, fine: int, on_time: bool)
  {
    || loan.total_repaid + amount > U64_MAX
    || loan.total_fines + fine > U64_MAX
    || profile.total_repaid + amount > U64_MAX
    || (if on_time then profile.on_time_payments == U16_MAX else profile.late_payments == U16_MAX)
  }

  /**
   * What `RecordPayment` returns: the first failing check's error, or the
   * updated loan, profile and payment record.
   */
  predicate RecordPaymentOutcome(loan: Loan, profile: UserProfile, loan_key: Pubkey, installment_number: U8,
                                 amount: U64, payment_hash: Str, now: I64, bump: U8, r: Result<Payment>)
  {
    && (loan.status != Active ==> r == Err(Raised(LoanNotActive)))
    && (loan.status == Active && !(0 < installment_number <= loan.tenure_months) ==>
        r == Err(Raised(InvalidInstallmentNumber)))
    && (loan.status == Active && 0 < installment_number <= loan.tenure_months && amount == 0 ==>
        r == Err(Raised(InvalidPaymentAmount)))
    && ((loan.status == Active && 0 < installment_number <= loan.tenure_months && amount > 0
        && |payment_hash| > MAX_HASH_LEN) ==> r == Err(Raised(InvalidStringFormat)))
    && (PaymentRequestValid(loan, installment_number, amount, payment_hash) ==>
        var charge := InstallmentCharge(loan.monthly_installment, loan.start_timestamp, installment_number, now);
        && (charge.Err? ==> r == Err(ArithmeticPanic))
        && (charge.Ok? && amount < charge.value.total_due ==> r == Err(Raised(InsufficientPayment)))
        && (charge.Ok? && amount >= charge.value.total_due
            && PaymentOverflows(loan, profile, amount, charge.value.fine, charge.value.lateness.on_time) ==>
              r == Err(Raised(MathOverflow))))
    && (r == Err(Raised(InsufficientPayment)) <==>
        && PaymentRequestValid(loan, installment_number, amount, payment_hash)
        && var charge := InstallmentCharge(loan.monthly_installment, loan.start_timestamp, installment_number, now);
        && charge.Ok? && amount < charge.value.total_due)
    && (r.Ok? <==>
        && PaymentRequestValid(loan, installment_number, amount, payment_hash)
        && var charge := InstallmentCharge(loan.monthly_installment, loan.start_timestamp, installment_number, now);
        && charge.Ok? && amount >= charge.value.total_due
        && !PaymentOverflows(loan, profile, amount, charge.value.fine, charge.value.lateness.on_time))
    && (r.Ok? ==>
        && PaymentRequestValid(loan, installment_number, amount, payment_hash)
        && var charge := InstallmentCharge(loan.monthly_installment, loan.start_timestamp, installment_number, now);
        && charge.Ok?
        && var fine := charge.value.fine;
        && var on_time := charge.value.lateness.on_time;
        && amount >= charge.value.total_due
        && !PaymentOverflows(loan, profile, amount, fine, on_time)
        && r.value.loan == loan.(
             total_repaid := loan.total_repaid + amount,
             outstanding_balance := Max(loan.outstanding_balance - amount, 0),
             total_fines := loan.total_fines + fine)
        && r.value.profile == profile.(
             total_repaid := profile.total_repaid + amount,
             on_time_payments := profile.on_time_payments + (if on_time then 1 else 0),
             late_payments := profile.late_payments + (if on_time then 0 else 1),
             credit_score := CreditAfterPayment(profile.credit_score, on_time),
             last_updated := now)
        && r.value.record == PaymentRecord(
             loan_key, loan.user, installment_number, amount, fine, now, payment_hash,
             on_time, charge.value.lateness.days_late, bump)
        && r.value.event == PaymentRecorded(
             loan_key, loan.user, installment_number, amount, fine, now,
             on_time, charge.value.lateness.days_late))
    && (r.Ok? ==> r.value.loan.outstanding_balance <= loan.outstanding_balance)
  }

  /**
   * Records the payment of installment `installment_number`. The whole
   * `amount` paid, fine included, comes off the outstanding balance
   * (saturating at zero), and the credit score moves by the payment's
   * timeliness. `loan_key` is the address of the loan's account.
   */
  method RecordPayment(loan: Loan, profile: UserProfile, loan_key: Pubkey, installment_number: U8,
                       amount: U64, payment_hash: Str, now: I64, bump: U8)
    returns (r: Result<Payment>)
    ensures RecordPaymentOutcome(loan, profile, loan_key, installment_number, amount, payment_hash, now,
                                 bump, r)
  {
    if loan.status != Active {
      return Err(Raised(LoanNotActive));
    }
    if !(0 < installment_number <= loan.tenure_months) {
      return Err(Raised(InvalidInstallmentNumber));
    }
    if amount == 0 {
      return Err(Raised(InvalidPaymentAmount));
    }
    if |payment_hash| > MAX_HASH_LEN {
      return Err(Raised(InvalidStringFormat));
    }

    var lateness := AssessLateness(loan.start_timestamp, installment_number, now);
    if lateness.Err? {
      return Err(lateness.failure);
    }
    var on_time := lateness.value.on_time;
    var days_late := lateness.value.days_late;
    // The u128 fine computation cannot overflow, so its MathOverflow exits are dead.
    var fine := LateFine(loan.monthly_installment, days_late).value;
    if loan.monthly_installment + fine > U64_MAX {
      return Err(ArithmeticPanic);
    }
    var total_due := loan.monthly_installment + fine;
    if amount < total_due {
      return Err(Raised(InsufficientPayment));
    }

    var record := PaymentRecord(loan_key, loan.user, installment_number, amount, fine, now,
                                payment_hash, on_time, days_late, bump);

    var l := loan;
    var loan_repaid := CheckedAdd(l.total_repaid, amount, U64_MAX);
    if loan_repaid.None? {
      return Err(Raised(MathOverflow));
    }
    l := l.(total_repaid := loan_repaid.value);
    l := l.(outstanding_balance := SaturatingSub(l.outstanding_balance, amount));
    var fines := CheckedAdd(l.total_fines, fine, U64_MAX);
    if fines.None? {
      return Err(Raised(MathOverflow));
    }
    l := l.(total_fines := fines.value);

    var p := profile;
    var user_repaid := CheckedAdd(p.total_repaid, amount, U64_MAX);
    if user_repaid.None? {
      return Err(Raised(MathOverflow));
    }
    p := p.(total_repaid := user_repaid.value);
    if on_time {
      var count := CheckedAdd(p.on_time_payments, 1, U16_MAX);
      if count.None? {
        return Err(Raised(MathOverflow));
      }
      p := p.(on_time_payments := count.value);
      p := p.(credit_score := Min(SaturatingAdd(p.credit_score, ON_TIME_BONUS, U16_MAX), CREDIT_CEILING));
    } else {
      var count := CheckedAdd(p.late_payments, 1, U16_MAX);
      if count.None? {
        return Err(Raised(MathOverflow));
      }
      p := p.(late_payments := count.value);
      p := p.(credit_score := Max(SaturatingSub(p.credit_score, LATE_PENALTY), CREDIT_FLOOR));
    }
    p := p.(last_updated := now);

    var event := PaymentRecorded(loan_key, loan.user, installment_number, amount, fine, now,
                                 on_time, days_late);
    return Ok(Payment(l, p, record, event));
  }

  // ------------------------------------------------------- mark_loan_completed

  /**
   * What `MarkLoanCompleted` returns: an error unless the loan is Active and
   * fully repaid; otherwise the closed loan and rewarded profile.
   */
  predicate MarkLoanCompletedOutcome(loan: Loan, profile: UserProfile, now: I64, r: Result<Closure>)
  {
    && (loan.status != Active ==> r == Err(Raised(LoanNotActive)))
    && (loan.status == Active && loan.outstanding_balance != 0 ==> r == Err(Raised(InsufficientPayment)))
    && (loan.status == Active && loan.outstanding_balance == 0 && profile.completed_loans == U16_MAX ==>
        r == Err(Raised(MathOverflow)))
    && (r.Ok? <==>
        loan.status == Active && loan.outstanding_balance == 0 && profile.completed_loans < U16_MAX)
    && (r.Ok? ==> r.value.loan == loan.(status := Completed, completed_timestamp := Some(now)))
    && (r.Ok? ==>
        r.value.profile == profile.(
          active_loans := Max(profile.active_loans - 1, 0),
          completed_loans := profile.completed_loans + 1,
          credit_score := CreditAfterCompletion(profile.credit_score),
          last_updated := now))
    && (r.Ok? ==> r.value.event == LoanCompleted(loan.loan_id, loan.user, loan.total_repaid, now))
  }

  method MarkLoanCompleted(loan: Loan, profile: UserProfile, now: I64) returns (r: Result<Closure>)
    ensures MarkLoanCompletedOutcome(loan, profile, now, r)
  {
    if loan.status != Active {
      return Err(Raised(LoanNotActive));
    }
    if loan.outstanding_balance != 0 {
      return Err(Raised(InsufficientPayment));
    }
    var l := loan;
    l := l.(status := Completed);
    l := l.(completed_timestamp := Some(now));

    var p := profile;
    p := p.(active_loans := SaturatingSub(p.active_loans, 1));
    var completed := CheckedAdd(p.completed_loans, 1, U16_MAX);
    if completed.None? {
      return Err(Raised(MathOverflow));
    }
    p := p.(completed_loans := completed.value);
    p := p.(credit_score := Min(SaturatingAdd(p.credit_score, COMPLETION_BONUS, U16_MAX), CREDIT_CEILING));
    p := p.(last_updated := now);

    return Ok(Closure(l, p, LoanCompleted(l.loan_id, l.user, l.total_repaid, now)));
  }

  // ------------------------------------------------------- mark_loan_defaulted

  /**
   * What `MarkLoanDefaulted` returns: an error unless the loan is Active with
   * a balance; otherwise the defaulted loan and penalised profile.
   */
  predicate MarkLoanDefaultedOutcome(loan: Loan, profile: UserProfile, now: I64, r: Result<Closure>)
  {
    && (loan.status != Active ==> r == Err(Raised(LoanNotActive)))
    && (loan.status == Active && loan.outstanding_balance == 0 ==> r == Err(Raised(LoanAlreadyCompleted)))
    && (loan.status == Active && loan.outstanding_balance > 0 && profile.defaulted_loans == U8_MAX ==>
        r == Err(Raised(MathOverflow)))
    && (r.Ok? <==>
        loan.status == Active && loan.outstanding_balance > 0 && profile.defaulted_loans < U8_MAX)
    && (r.Ok? ==> r.value.loan == loan.(status := Defaulted, defaulted_timestamp := Some(now)))
    && (r.Ok? ==>
        r.value.profile == profile.(
          active_loans := Max(profile.active_loans - 1, 0),
          defaulted_loans := profile.defaulted_loans + 1,
          credit_score := CreditAfterDefault(profile.credit_score),
          risk_level := Critical,
          last_updated := now))
    && (r.Ok? ==>
        r.value.event == LoanDefaulted(loan.loan_id, loan.user, loan.outstanding_balance, loan.total_fines, now))
  }

  method MarkLoanDefaulted(loan: Loan, profile: UserProfile, now: I64) returns (r: Result<Closure>)
    ensures MarkLoanDefaultedOutcome(loan, profile, now, r)
  {
    if loan.status != Active {
      return Err(Raised(LoanNotActive));
    }
    if loan.outstanding_balance == 0 {
      return Err(Raised(LoanAlreadyCompleted));
    }
    var l := loan;
    l := l.(status := Defaulted);
    l := l.(defaulted_timestamp := Some(now));

    var p := profile;
    p := p.(active_loans := SaturatingSub(p.active_loans, 1));
    var defaulted := CheckedAdd(p.defaulted_loans, 1, U8_MAX);
    if defaulted.None? {
      return Err(Raised(MathOverflow));
    }
    p := p.(defaulted_loans := defaulted.value);
    p := p.(credit_score := Max(SaturatingSub(p.credit_score, DEFAULT_PENALTY), CREDIT_FLOOR));
    p := p.(risk_level := Critical);
    p := p.(last_updated := now);

    return Ok(Closure(l, p, LoanDefaulted(l.loan_id, l.user, l.outstanding_balance, l.total_fines, now)));
  }

  // ---------------------------------------------------------------- waive_fine

  /**
   * What `WaiveFine` returns: a waiver above the installment's fine is
   * refused; otherwise the loan with both balances lowered.
   */
  predicate WaiveFineOutcome(loan: Loan, record: PaymentRecord, loan_key: Pubkey, installment_number: U8,
                             waived_amount: U64, admin: Pubkey, now: I64, r: Result<Waiver>)
  {
    && (r.Err? <==> waived_amount > record.fine_amount)
    && (r.Err? ==> r.failure == Raised(InvalidPaymentAmount))
    && (r.Ok? ==>
        r.value.loan == loan.(
          outstanding_balance := Max(loan.outstanding_balance - waived_amount, 0),
          total_fines := Max(loan.total_fines - waived_amount, 0)))
    && (r.Ok? ==>
        r.value.event == FineWaived(loan_key, loan.user, installment_number, waived_amount, admin, now))
  }

  /**
   * Waives up to the fine charged on one installment. The payment record is
   * only read, so the same installment can be waived again; the loan's status
   * is neither checked nor changed, and the borrower's profile is untouched.
   */
  method WaiveFine(loan: Loan, record: PaymentRecord, loan_key: Pubkey, installment_number: U8,
                   waived_amount: U64, admin: Pubkey, now: I64)
    returns (r: Result<Waiver>)
    ensures WaiveFineOutcome(loan, record, loan_key, installment_number, waived_amount, admin, now, r)
  {
    if waived_amount > record.fine_amount {
      return Err(Raised(InvalidPaymentAmount));
    }
    var l := loan;
    l := l.(outstanding_balance := SaturatingSub(l.outstanding_balance, waived_amount));
    l := l.(total_fines := SaturatingSub(l.total_fines, waived_amount));
    return Ok(Waiver(l, FineWaived(loan_key, l.user, installment_number, waived_amount, admin, now)));
  }

  // --------------------------------------------------------- update_risk_score

  /**
   * What `UpdateRiskScore` returns: the first failing check's error, or the
   * overwritten profile and the new risk profile.
   */
  predicate UpdateRiskScoreOutcome(profile: UserProfile, user: Pubkey, risk_score: U16,
                                   risk_level: RiskLevel, default_probability: U16, now: I64, bump: U8,
                                   r: Result<Assessment>)
  {
    && (risk_score > MAX_RISK_SCORE ==> r == Err(Raised(InvalidRiskScore)))
    && (risk_score <= MAX_RISK_SCORE && default_probability > MAX_DEFAULT_PROBABILITY ==>
        r == Err(Raised(InvalidDefaultProbability)))
    && ((risk_score <= MAX_RISK_SCORE && default_probability <= MAX_DEFAULT_PROBABILITY
        && RecommendedMaxLoan(profile.monthly_income, risk_level).Err?) ==> r == Err(Raised(MathOverflow)))
    && (r.Ok? <==>
        risk_score <= MAX_RISK_SCORE && default_probability <= MAX_DEFAULT_PROBABILITY
        && RecommendedMaxLoan(profile.monthly_income, risk_level).Ok?)
    && (r.Ok? ==>
        r.value.profile == profile.(credit_score := risk_score, risk_level := risk_level, last_updated := now))
    && (r.Ok? ==>
        r.value.risk == RiskProfile(
          user, risk_score, risk_level, default_probability,
          RecommendedMaxLoan(profile.monthly_income, risk_level).value, now, FACTORS_COUNT, bump))
    && (r.Ok? ==>
        r.value.event == RiskScoreUpdated(user, profile.credit_score, risk_score, risk_level,
                                          default_probability, now))
  }

  /**
   * Overwrites the borrower's score and tier with the assessment, without the
   * 300..850 clamp, and rewrites the whole risk profile.
   */
  method UpdateRiskScore(profile: UserProfile, user: Pubkey, risk_score: U16, risk_level: RiskLevel,
                         default_probability: U16, now: I64, bump: U8)
    returns (r: Result<Assessment>)
    ensures UpdateRiskScoreOutcome(profile, user, risk_score, risk_level, default_probability, now, bump, r)
  {
    if risk_score > MAX_RISK_SCORE {
      return Err(Raised(InvalidRiskScore));
    }
    if default_probability > MAX_DEFAULT_PROBABILITY {
      return Err(Raised(InvalidDefaultProbability));
    }
    var old_score := profile.credit_score;

    var p := profile;
    p := p.(credit_score := risk_score);
    p := p.(risk_level := risk_level);
    p := p.(last_updated := now);

    var recommended := RecommendedMaxLoan(p.monthly_income, risk_level);
    if recommended.Err? {
      return Err(recommended.failure);
    }
    var risk := RiskProfile(user, risk_score, risk_level, default_probability, recommended.value,
                            now, FACTORS_COUNT, bump);
    return Ok(Assessment(p, risk,
                         RiskScoreUpdated(user, old_score, risk_score, risk_level, default_probability, now)));
  }
}
