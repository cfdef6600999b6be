/**
 * The program's accounts, as one store keyed by the seeds each account's
 * address is derived from, together with the instructions over them.
 *
 * Before a handler runs, the runtime loads the accounts its instruction
 * names: an `init` account must not hold a record yet, every other account
 * must, and `has_one` constraints compare a record's field with another
 * account's key. After a successful handler every record is written back,
 * and a record that no longer fits its allocated space fails the whole
 * instruction. Any failure leaves every account as it was.
 *
 * `Valid` collects what every sequence of instructions keeps true, starting
 * from a store with no accounts.
 */
module Ledger {
  import opened Numeric
  import opened Outcomes
  import opened State
  import opened Instructions
  import opened Invariant
  import SingleFile
  import Layout

  /** Which of the two deployments of the program the store runs. */
  datatype Deployment = ModularProgram | SingleFileProgram


  /** Every account the program owns, keyed by the seeds of its address. */
  datatype Accounts = Accounts(
    state: Option<ProgramState>,
    users: map<Pubkey, UserProfile>,
    loans: map<LoanKey, Loan>,
    payments: map<PaymentKey, PaymentRecord>,
    risks: map<Pubkey, RiskProfile>)

  class Ledger {
    const program: Deployment
    /** The address the runtime derives for each loan account. */
    const loan_address: LoanKey -> Pubkey
    var accounts: Accounts

    ghost predicate Valid()
      reads this
    {
      Inv(accounts.state, accounts.users, accounts.loans, accounts.payments, accounts.risks, loan_address)
    }

    constructor (program: Deployment, loan_address: LoanKey -> Pubkey)
      ensures Valid()
      ensures this.program == program && this.loan_address == loan_address
      ensures accounts == Accounts(None, map[], map[], map[], map[])
    {
      this.program := program;
      this.loan_address := loan_address;
      accounts := Accounts(None, map[], map[], map[], map[]);
    }

    /** The program state lives at one fixed address, so only the first initialization succeeds. */
    method Initialize(authority: Pubkey, fee_percentage: U16, bump: U8) returns (r: Result<ProgramState>)
      requires Valid()
      modifies this
      ensures Valid()
      ensures old(accounts).state.Some? ==> r == Err(AccountInUse)
      ensures old(accounts).state.None? ==> Instructions.InitializeOutcome(authority, fee_percentage, bump, r)
      ensures r.Err? ==> unchanged(this)
      ensures r.Ok? ==> old(accounts).state.None? && accounts == old(accounts).(state := Some(r.value))
    {
      var a := accounts;
      if a.state.Some? {
        return Err(AccountInUse);
      }
      r := Instructions.Initialize(authority, fee_percentage, bump);
      if r.Ok? {
        accounts := a.(state := Some(r.value));
      }
    }

    /** A profile's address is derived from its owner, so each owner registers at most once. */
    method RegisterUser(authority: Pubkey, full_name: Str, monthly_income: U64,
                        employment_type: EmploymentType, now: I64, bump: U8)
      returns (r: Result<Registration>)
      requires Valid()
      modifies this
      ensures Valid()
      ensures authority in old(accounts).users ==> r == Err(AccountInUse)
      ensures authority !in old(accounts).users && old(accounts).state.None? ==> r == Err(AccountNotInitialized)
      ensures authority !in old(accounts).users && old(accounts).state.Some? ==>
                Instructions.RegisterUserOutcome(old(accounts).state.value, authority, full_name, monthly_income,
                                                 employment_type, now, bump, r)
      ensures r.Err? ==> unchanged(this)
      ensures r.Ok? ==>
                && authority !in old(accounts).users && old(accounts).state.Some?
                && accounts == old(accounts).(state := Some(r.value.state),
                                              users := old(accounts).users[authority := r.value.profile])
                && |accounts.users| == |old(accounts).users| + 1
    {
      var a := accounts;
      if authority in a.users {
        return Err(AccountInUse);
      }
      if a.state.None? {
        return Err(AccountNotInitialized);
      }
      r := Instructions.RegisterUser(a.state.value, authority, full_name, monthly_income, employment_type, now, bump);
      if r.Err? {
        return;
      }
      if DISCRIMINATOR_LEN + |Layout.SerializeUserProfile(r.value.profile)| > USER_PROFILE_LEN {
        return Err(AccountDidNotSerialize);
      }
      RegistrationPreserves(a.state.value, a.users, a.loans, a.payments, a.risks, loan_address,
                            authority, r.value.state, r.value.profile);
      accounts := a.(state := Some(r.value.state), users := a.users[authority := r.value.profile]);
    }

    /**
     * The profile is looked up at the address derived from the signer, so the
     * ownership check on it never fails.
     */
    method UpdateUserProfile(authority: Pubkey, monthly_income: Option<U64>,
                             employment_type: Option<EmploymentType>, now: I64)
      returns (r: Result<UserProfile>)
      requires Valid()
      modifies this
      ensures Valid()
      ensures authority !in old(accounts).users ==> r == Err(AccountNotInitialized)
      ensures authority in old(accounts).users ==>
                Instructions.UpdateUserProfileOutcome(old(accounts).users[authority], monthly_income, employment_type, now, r)
      ensures r != Err(Raised(Unauthorized)) && r != Err(ConstraintHasOne)
      ensures r.Err? ==> unchanged(this)
      ensures r.Ok? ==> accounts == old(accounts).(users := old(accounts).users[authority := r.value])
    {
      var a := accounts;
      if authority !in a.users {
        return Err(AccountNotInitialized);
      }
      var profile := a.users[authority];
      if profile.authority != authority {
        return Err(if program == ModularProgram then Raised(Unauthorized) else ConstraintHasOne);
      }
      r := Instructions.UpdateUserProfile(profile, monthly_income, employment_type, now);
      if r.Ok? {
        ProfileRewritePreserves(a.state, a.users, a.loans, a.payments, a.risks, loan_address, authority, r.value);
        accounts := a.(users := a.users[authority := r.value]);
      }
    }

    /**
     * The new loan's address is derived from the borrower and the program's
     * loan count, so every loan gets a fresh id and a fresh account.
     */
    method CreateLoan(user: Pubkey, principal_amount: U64, interest_rate: U16, tenure_months: U8,
                      start_timestamp: I64, monthly_installment: U64, now: I64, bump: U8)
      returns (r: Result<Origination>)
      requires Valid()
      modifies this
      ensures Valid()
      ensures old(accounts).state.None? ==> r == Err(AccountNotInitialized)
      ensures old(accounts).state.Some? && user !in old(accounts).users ==> r == Err(AccountNotInitialized)
      ensures old(accounts).state.Some? && user in old(accounts).users ==>
                Instructions.CreateLoanOutcome(old(accounts).state.value, old(accounts).users[user], user,
                                               principal_amount, interest_rate, tenure_months, start_timestamp,
                                               monthly_installment, now, bump, r)
      ensures r != Err(AccountInUse)
      ensures r.Err? ==> unchanged(this)
      ensures r.Ok? ==>
                && old(accounts).state.Some? && user in old(accounts).users
                && LoanKey(user, old(accounts).state.value.total_loans) !in old(accounts).loans
                && accounts == old(accounts).(
                     state := Some(r.value.state),
                     loans := old(accounts).loans[LoanKey(user, old(accounts).state.value.total_loans) := r.value.loan],
                     users := old(accounts).users[user := r.value.profile])
      ensures Persists(old(accounts).users, old(accounts).loans, old(accounts).payments,
                       accounts.users, accounts.loans, accounts.payments)
    {
      var a := accounts;
      if a.state.None? {
        return Err(AccountNotInitialized);
      }
      if user !in a.users {
        return Err(AccountNotInitialized);
      }
      var k := LoanKey(user, a.state.value.total_loans);
      if k in a.loans {
        return Err(AccountInUse);
      }
      r := Instructions.CreateLoan(a.state.value, a.users[user], user, principal_amount, interest_rate, tenure_months,
                                   start_timestamp, monthly_installment, now, bump);
      if r.Err? {
        return;
      }
      OriginationPreserves(a.state.value, a.users, a.loans, a.payments, a.risks, loan_address,
                           user, r.value.state, r.value.profile, r.value.loan);
      accounts := a.(state := Some(r.value.state), loans := a.loans[k := r.value.loan],
                     users := a.users[user := r.value.profile]);
    }

    /**
     * Records the payment of one installment of the borrower's loan
     * `loan_id`. The payment record's address is derived from the loan and
     * the installment number, so an installment can be paid only once,
     * whoever signs. In the single-file deployment the borrower must sign.
     */
    method RecordPayment(user: Pubkey, loan_id: U64, installment_number: U8, amount: U64,
                         payment_hash: Str, signer: Pubkey, now: I64, bump: U8)
      returns (r: Result<Payment>)
      requires Valid()
      modifies this
      ensures Valid()
      ensures LoanKey(user, loan_id) !in old(accounts).loans ==> r == Err(AccountNotInitialized)
      ensures (LoanKey(user, loan_id) in old(accounts).loans
               && PaymentKey(LoanKey(user, loan_id), installment_number) in old(accounts).payments) ==>
                r == Err(AccountInUse)
      ensures (LoanKey(user, loan_id) in old(accounts).loans && program == SingleFileProgram && signer != user
               && PaymentKey(LoanKey(user, loan_id), installment_number) !in old(accounts).payments) ==>
                r == Err(ConstraintHasOne)
      ensures (LoanKey(user, loan_id) in old(accounts).loans && program == ModularProgram
               && PaymentKey(LoanKey(user, loan_id), installment_number) !in old(accounts).payments) ==>
                Instructions.RecordPaymentOutcome(old(accounts).loans[LoanKey(user, loan_id)], old(accounts).users[user],
                                                  loan_address(LoanKey(user, loan_id)), installment_number, amount,
                                                  payment_hash, now, bump, r)
      ensures (LoanKey(user, loan_id) in old(accounts).loans && program == SingleFileProgram && signer == user
               && PaymentKey(LoanKey(user, loan_id), installment_number) !in old(accounts).payments) ==>
                var accepted := SingleFile.PaymentAccepted(old(accounts).loans[LoanKey(user, loan_id)],
                                                           old(accounts).users[user], installment_number, amount, now);
                && (|payment_hash| > MAX_HASH_LEN && accepted ==> r == Err(AccountDidNotSerialize))
                && (|payment_hash| <= MAX_HASH_LEN || !accepted ==>
                      SingleFile.RecordPaymentOutcome(old(accounts).loans[LoanKey(user, loan_id)], old(accounts).users[user],
                                                      loan_address(LoanKey(user, loan_id)), installment_number, amount,
                                                      payment_hash, now, bump, r))
      ensures r.Err? ==> unchanged(this)
      ensures r.Ok? ==>
                && LoanKey(user, loan_id) in old(accounts).loans
                && old(accounts).loans[LoanKey(user, loan_id)].status == Active
                && PaymentKey(LoanKey(user, loan_id), installment_number) !in old(accounts).payments
                && |payment_hash| <= MAX_HASH_LEN
                && accounts == old(accounts).(
                     loans := old(accounts).loans[LoanKey(user, loan_id) := r.value.loan],
                     users := old(accounts).users[user := r.value.profile],
                     payments := old(accounts).payments[PaymentKey(LoanKey(user, loan_id), installment_number) := r.value.record])
      ensures r.Ok? ==> accounts.loans[LoanKey(user, loan_id)].status == Active
      ensures Persists(old(accounts).users, old(accounts).loans, old(accounts).payments,
                       accounts.users, accounts.loans, accounts.payments)
    {
      var a := accounts;
      var k := LoanKey(user, loan_id);
      if k !in a.loans {
        return Err(AccountNotInitialized);
      }
      var loan := a.loans[k];
      if user !in a.users {
        return Err(AccountNotInitialized);
      }
      // The runtime creates `init` accounts before it checks the other accounts' constraints.
      var pk := PaymentKey(k, installment_number);
      if pk in a.payments {
        return Err(AccountInUse);
      }
      if program == SingleFileProgram && signer != loan.user {
        return Err(ConstraintHasOne);
      }
      if program == ModularProgram {
        r := Instructions.RecordPayment(loan, a.users[user], loan_address(k), installment_number, amount,
                                        payment_hash, now, bump);
      } else {
        r := SingleFile.RecordPayment(loan, a.users[user], loan_address(k), installment_number, amount,
                                      payment_hash, now, bump);
      }
      if r.Err? {
        return;
      }
      if DISCRIMINATOR_LEN + |Layout.SerializePaymentRecord(r.value.record)| > PAYMENT_RECORD_LEN {
        return Err(AccountDidNotSerialize);
      }
      PaymentPreserves(a.state, a.users, a.loans, a.payments, a.risks, loan_address,
                       k, installment_number, r.value.loan, r.value.profile, r.value.record);
      accounts := a.(loans := a.loans[k := r.value.loan], users := a.users[user := r.value.profile],
                     payments := a.payments[pk := r.value.record]);
    }

    /** Closes the borrower's Active loan `loan_id` once nothing is outstanding. */
    method MarkLoanCompleted(user: Pubkey, loan_id: U64, signer: Pubkey, now: I64) returns (r: Result<Closure>)
      requires Valid()
      modifies this
      ensures Valid()
      ensures LoanKey(user, loan_id) !in old(accounts).loans ==> r == Err(AccountNotInitialized)
      ensures (LoanKey(user, loan_id) in old(accounts).loans && program == SingleFileProgram && signer != user) ==>
                r == Err(ConstraintHasOne)
      ensures LoanKey(user, loan_id) in old(accounts).loans && program == ModularProgram ==>
                Instructions.MarkLoanCompletedOutcome(old(accounts).loans[LoanKey(user, loan_id)], old(accounts).users[user], now, r)
      ensures LoanKey(user, loan_id) in old(accounts).loans && program == SingleFileProgram && signer == user ==>
                SingleFile.MarkLoanCompletedOutcome(old(accounts).loans[LoanKey(user, loan_id)], old(accounts).users[user], now, r)
      ensures r != Err(ArithmeticPanic)
      ensures r.Err? ==> unchanged(this)
      ensures r.Ok? ==>
                && LoanKey(user, loan_id) in old(accounts).loans
                && old(accounts).loans[LoanKey(user, loan_id)].status == Active
                && old(accounts).loans[LoanKey(user, loan_id)].outstanding_balance == 0
                && accounts == old(accounts).(
                     loans := old(accounts).loans[LoanKey(user, loan_id) := r.value.loan],
                     users := old(accounts).users[user := r.value.profile])
      ensures r.Ok? ==> accounts.loans[LoanKey(user, loan_id)].status == Completed && accounts.users[user].active_loans == 0
      ensures Persists(old(accounts).users, old(accounts).loans, old(accounts).payments,
                       accounts.users, accounts.loans, accounts.payments)
    {
      var a := accounts;
      var k := LoanKey(user, loan_id);
      if k !in a.loans {
        return Err(AccountNotInitialized);
      }
      var loan := a.loans[k];
      if program == SingleFileProgram && signer != loan.user {
        return Err(ConstraintHasOne);
      }
      if user !in a.users {
        return Err(AccountNotInitialized);
      }
      if program == ModularProgram {
        r := Instructions.MarkLoanCompleted(loan, a.users[user], now);
      } else {
        r := SingleFile.MarkLoanCompleted(loan, a.users[user], now);
      }
      if r.Err? {
        return;
      }
      ClosurePreserves(a.state, a.users, a.loans, a.payments, a.risks, loan_address, k, r.value.loan, r.value.profile);
      accounts := a.(loans := a.loans[k := r.value.loan], users := a.users[user := r.value.profile]);
    }

    /** Moves the borrower's Active loan `loan_id` to Defaulted. */
    method MarkLoanDefaulted(user: Pubkey, loan_id: U64, signer: Pubkey, now: I64) returns (r: Result<Closure>)
      requires Valid()
      modifies this
      ensures Valid()
      ensures LoanKey(user, loan_id) !in old(accounts).loans ==> r == Err(AccountNotInitialized)
      ensures (LoanKey(user, loan_id) in old(accounts).loans && program == SingleFileProgram && signer != user) ==>
                r == Err(ConstraintHasOne)
      ensures LoanKey(user, loan_id) in old(accounts).loans && program == ModularProgram ==>
                Instructions.MarkLoanDefaultedOutcome(old(accounts).loans[LoanKey(user, loan_id)], old(accounts).users[user], now, r)
      ensures LoanKey(user, loan_id) in old(accounts).loans && program == SingleFileProgram && signer == user ==>
                SingleFile.MarkLoanDefaultedOutcome(old(accounts).loans[LoanKey(user, loan_id)], old(accounts).users[user], now, r)
      ensures r.Err? ==> unchanged(this)
      ensures r.Ok? ==>
                && LoanKey(user, loan_id) in old(accounts).loans
                && old(accounts).loans[LoanKey(user, loan_id)].status == Active
                && accounts == old(accounts).(
                     loans := old(accounts).loans[LoanKey(user, loan_id) := r.value.loan],
                     users := old(accounts).users[user := r.value.profile])
      ensures r.Ok? ==>
                && accounts.loans[LoanKey(user, loan_id)].status == Defaulted
                && accounts.users[user].active_loans == 0 && accounts.users[user].risk_level == Critical
      ensures Persists(old(accounts).users, old(accounts).loans, old(accounts).payments,
                       accounts.users, accounts.loans, accounts.payments)
    {
      var a := accounts;
      var k := LoanKey(user, loan_id);
      if k !in a.loans {
        return Err(AccountNotInitialized);
      }
      var loan := a.loans[k];
      if program == SingleFileProgram && signer != loan.user {
        return Err(ConstraintHasOne);
      }
      if user !in a.users {
        return Err(AccountNotInitialized);
      }
      if program == ModularProgram {
        r := Instructions.MarkLoanDefaulted(loan, a.users[user], now);
      } else {
        r := SingleFile.MarkLoanDefaulted(loan, a.users[user], now);
      }
      if r.Err? {
        return;
      }
      ClosurePreserves(a.state, a.users, a.loans, a.payments, a.risks, loan_address, k, r.value.loan, r.value.profile);
      accounts := a.(loans := a.loans[k := r.value.loan], users := a.users[user := r.value.profile]);
    }

    /**
     * Waives part of a fine on the borrower's loan `loan_id`, whatever its
     * status. In the modular program the installment's payment record must
     * exist and bounds the waiver; it is read, never changed.
     */
    method WaiveFine(user: Pubkey, loan_id: U64, installment_number: U8, waived_amount: U64,
                     admin: Pubkey, now: I64)
      returns (r: Result<Waiver>)
      requires Valid()
      modifies this
      ensures Valid()
      ensures LoanKey(user, loan_id) !in old(accounts).loans ==> r == Err(AccountNotInitialized)
      ensures (program == ModularProgram
               && PaymentKey(LoanKey(user, loan_id), installment_number) !in old(accounts).payments) ==>
                r == Err(AccountNotInitialized)
      ensures (LoanKey(user, loan_id) in old(accounts).loans && program == ModularProgram
               && PaymentKey(LoanKey(user, loan_id), installment_number) in old(accounts).payments) ==>
                Instructions.WaiveFineOutcome(old(accounts).loans[LoanKey(user, loan_id)],
                                              old(accounts).payments[PaymentKey(LoanKey(user, loan_id), installment_number)],
                                              loan_address(LoanKey(user, loan_id)), installment_number, waived_amount,
                                              admin, now, r)
      ensures LoanKey(user, loan_id) in old(accounts).loans && program == SingleFileProgram ==>
                SingleFile.WaiveFineOutcome(old(accounts).loans[LoanKey(user, loan_id)],
                                            loan_address(LoanKey(user, loan_id)), installment_number, waived_amount,
                                            admin, now, r)
      ensures r.Err? ==> unchanged(this)
      ensures r.Ok? ==>
                && LoanKey(user, loan_id) in old(accounts).loans
                && accounts == old(accounts).(loans := old(accounts).loans[LoanKey(user, loan_id) := r.value.loan])
                && accounts.loans[LoanKey(user, loan_id)].status == old(accounts).loans[LoanKey(user, loan_id)].status
      ensures Persists(old(accounts).users, old(accounts).loans, old(accounts).payments,
                       accounts.users, accounts.loans, accounts.payments)
    {
      var a := accounts;
      var k := LoanKey(user, loan_id);
      if k !in a.loans {
        return Err(AccountNotInitialized);
      }
      var loan := a.loans[k];
      if program == ModularProgram {
        if user !in a.users {
          return Err(AccountNotInitialized);
        }
        var pk := PaymentKey(k, installment_number);
        if pk !in a.payments {
          return Err(AccountNotInitialized);
        }
        r := Instructions.WaiveFine(loan, a.payments[pk], loan_address(k), installment_number, waived_amount, admin, now);
      } else {
        r := SingleFile.WaiveFine(loan, loan_address(k), installment_number, waived_amount, admin, now);
      }
      if r.Err? {
        return;
      }
      WaiverPreserves(a.state, a.users, a.loans, a.payments, a.risks, loan_address, k, r.value.loan);
      accounts := a.(loans := a.loans[k := r.value.loan]);
    }

    /** The risk profile is created on first use and overwritten afterwards. */
    method UpdateRiskScore(user: Pubkey, risk_score: U16, risk_level: RiskLevel, default_probability: U16,
                           now: I64, bump: U8)
      returns (r: Result<Assessment>)
      requires Valid()
      modifies this
      ensures Valid()
      ensures user !in old(accounts).users ==> r == Err(AccountNotInitialized)
      ensures user in old(accounts).users && program == ModularProgram ==>
                Instructions.UpdateRiskScoreOutcome(old(accounts).users[user], user, risk_score, risk_level,
                                                    default_probability, now, bump, r)
      ensures user in old(accounts).users && program == SingleFileProgram ==>
                SingleFile.UpdateRiskScoreOutcome(old(accounts).users[user], user, risk_score, risk_level,
                                                  default_probability, now, bump, r)
      ensures r.Err? ==> unchanged(this)
      ensures r.Ok? ==>
                accounts == old(accounts).(users := old(accounts).users[user := r.value.profile],
                                           risks := old(accounts).risks[user := r.value.risk])
    {
      var a := accounts;
      if user !in a.users {
        return Err(AccountNotInitialized);
      }
      if program == ModularProgram {
        r := Instructions.UpdateRiskScore(a.users[user], user, risk_score, risk_level, default_probability, now, bump);
      } else {
        r := SingleFile.UpdateRiskScore(a.users[user], user, risk_score, risk_level, default_probability, now, bump);
      }
      if r.Err? {
        return;
      }
      AssessmentPreserves(a.state, a.users, a.loans, a.payments, a.risks, loan_address, user, r.value.profile, r.value.risk);
      accounts := a.(users := a.users[user := r.value.profile], risks := a.risks[user := r.value.risk]);
    }
  }
}
