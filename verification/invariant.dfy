/**
 * The addresses of the program's accounts, what every reachable set of
 * accounts satisfies, and why each kind of transition keeps it.
 *
 * Each transition's preservation lemma is assembled from one lemma per part
 * of the invariant, so that each proof reasons about one part at a time.
 */
module Invariant {
  import opened Numeric
  import opened State
  import opened Instructions

  /** A loan account's address is derived from its borrower and its id. */
  datatype LoanKey = LoanKey(user: Pubkey, loan_id: U64)

  /** A payment record's address is derived from its loan's address and its installment number. */
  datatype PaymentKey = PaymentKey(loan: LoanKey, installment_number: U8)

  /** The highest credit score any instruction can leave behind. */
  const SCORE_LIMIT: int := 1000

  /** The profile at address `u` belongs to `u`, and its fields stay within what registration admits. */
  ghost predicate ProfileValid(u: Pubkey, p: UserProfile)
  {
    && p.authority == u
    && |p.full_name| <= MAX_NAME_LEN
    && p.monthly_income > 0
    && p.active_loans <= 1
    && p.credit_score <= SCORE_LIMIT
  }

  ghost predicate ProfilesValid(users: map<Pubkey, UserProfile>)
  {
    forall u :: u in users ==> ProfileValid(u, users[u])
  }

  /** A loan's timestamps and balance agree with its status. */
  ghost predicate LoanValid(loan: Loan)
  {
    && MIN_TENURE <= loan.tenure_months <= MAX_TENURE
    && loan.outstanding_balance <= loan.total_amount
    && loan.status != Cancelled
    && (loan.status == Active ==> loan.completed_timestamp.None? && loan.defaulted_timestamp.None?)
    && (loan.status == Completed ==> loan.completed_timestamp.Some? && loan.outstanding_balance == 0)
    && (loan.status == Defaulted ==> loan.defaulted_timestamp.Some?)
  }

  /** Every loan sits at its own address, belongs to a registered borrower and has an id already issued. */
  ghost predicate LoansValid(total_loans: int, users: map<Pubkey, UserProfile>, loans: map<LoanKey, Loan>)
  {
    && (forall k :: k in loans ==>
          && loans[k].user == k.user && loans[k].loan_id == k.loan_id
          && k.user in users && k.loan_id < total_loans
          && LoanValid(loans[k]))
    && (forall k, k' :: k in loans && k' in loans && k.loan_id == k'.loan_id ==> k == k')
  }

  ghost predicate HasActiveLoan(loans: map<LoanKey, Loan>, u: Pubkey)
  {
    exists k :: k in loans && k.user == u && loans[k].status == Active
  }

  /** A borrower counts one active loan exactly when one of their loans is Active, and never has two. */
  ghost predicate ActiveLoansCounted(users: map<Pubkey, UserProfile>, loans: map<LoanKey, Loan>)
  {
    && (forall k :: k in loans && loans[k].status == Active ==> k.user in users && users[k.user].active_loans == 1)
    && (forall k, k' :: (k in loans && k' in loans && k.user == k'.user
                         && loans[k].status == Active && loans[k'].status == Active) ==> k == k')
    && (forall u :: u in users && users[u].active_loans == 1 ==> HasActiveLoan(loans, u))
  }

  /** Every payment record belongs to an existing loan and one of its installments. */
  ghost predicate PaymentsValid(loans: map<LoanKey, Loan>, payments: map<PaymentKey, PaymentRecord>,
                                loan_address: LoanKey -> Pubkey)
  {
    forall pk :: pk in payments ==>
      && pk.loan in loans
      && 0 < pk.installment_number <= loans[pk.loan].tenure_months
      && payments[pk].installment_number == pk.installment_number
      && payments[pk].loan == loan_address(pk.loan)
      && payments[pk].user == pk.loan.user
      && |payments[pk].payment_hash| <= MAX_HASH_LEN
  }

  ghost predicate RisksValid(users: map<Pubkey, UserProfile>, risks: map<Pubkey, RiskProfile>)
  {
    forall u :: u in risks ==>
      && u in users
      && risks[u].user == u
      && risks[u].risk_score <= MAX_RISK_SCORE
      && risks[u].default_probability <= MAX_DEFAULT_PROBABILITY
  }

  /** What every reachable set of accounts satisfies. */
  ghost predicate Inv(state: Option<ProgramState>, users: map<Pubkey, UserProfile>, loans: map<LoanKey, Loan>,
                      payments: map<PaymentKey, PaymentRecord>, risks: map<Pubkey, RiskProfile>,
                      loan_address: LoanKey -> Pubkey)
  {
    && (state.None? ==> users == map[] && loans == map[] && payments == map[] && risks == map[])
    && (state.Some? ==> state.value.total_users == |users| && state.value.total_loans == |loans|)
    && ProfilesValid(users)
    && LoansValid(if state.Some? then state.value.total_loans else 0, users, loans)
    && ActiveLoansCounted(users, loans)
    && PaymentsValid(loans, payments, loan_address)
    && RisksValid(users, risks)
  }

  /**
   * What an instruction may do to a loan: keep its terms, never raise its
   * outstanding balance, and move it out of Active at most once.
   */
  ghost predicate LoanStep(before: Loan, after: Loan)
  {
    && after.outstanding_balance <= before.outstanding_balance
    && after.user == before.user && after.loan_id == before.loan_id
    && after.principal_amount == before.principal_amount && after.interest_rate == before.interest_rate
    && after.tenure_months == before.tenure_months && after.monthly_installment == before.monthly_installment
    && after.total_amount == before.total_amount
    && after.start_timestamp == before.start_timestamp && after.end_timestamp == before.end_timestamp
    && after.created_timestamp == before.created_timestamp
    && (after.status == before.status
        || (before.status == Active && (after.status == Completed || after.status == Defaulted)))
  }

  /**
   * Records are never deleted: profiles and loans stay, loans only take
   * `LoanStep`s, and payment records are never rewritten.
   */
  ghost predicate Persists(users: map<Pubkey, UserProfile>, loans: map<LoanKey, Loan>,
                           payments: map<PaymentKey, PaymentRecord>,
                           users': map<Pubkey, UserProfile>, loans': map<LoanKey, Loan>,
                           payments': map<PaymentKey, PaymentRecord>)
  {
    && (forall u :: u in users ==> u in users')
    && (forall k :: k in loans ==> k in loans' && LoanStep(loans[k], loans'[k]))
    && (forall pk :: pk in payments ==> pk in payments' && payments'[pk] == payments[pk])
  }

  /** A profile rewrite that keeps the owner, the name and the active-loan count. */
  ghost predicate SameStanding(before: UserProfile, after: UserProfile)
  {
    && after.authority == before.authority && after.full_name == before.full_name
    && after.monthly_income > 0 && after.active_loans == before.active_loans
    && after.credit_score <= SCORE_LIMIT
  }

  // ------------------------------------------------------------ building blocks

  lemma ProfileStored(users: map<Pubkey, UserProfile>, u: Pubkey, p: UserProfile)
    requires ProfilesValid(users) && ProfileValid(u, p)
    ensures ProfilesValid(users[u := p])
  {
  }

  lemma RisksSurviveProfileStore(users: map<Pubkey, UserProfile>, risks: map<Pubkey, RiskProfile>,
                                 u: Pubkey, p: UserProfile)
    requires RisksValid(users, risks)
    ensures RisksValid(users[u := p], risks)
  {
  }

  /**
   * Borrowers other than `u` keep the profiles and the loans they had, so the
   * Active loan each of them is counted for is still there.
   */
  lemma ActiveWitnessesSurvive(users: map<Pubkey, UserProfile>, loans: map<LoanKey, Loan>,
                               users': map<Pubkey, UserProfile>, loans': map<LoanKey, Loan>, u: Pubkey)
    requires forall v :: v in users && users[v].active_loans == 1 ==> HasActiveLoan(loans, v)
    requires forall v :: v in users' && v != u ==> v in users && users'[v] == users[v]
    requires forall k :: k in loans && k.user != u ==> k in loans' && loans'[k].status == loans[k].status
    requires u in users' && users'[u].active_loans == 1 ==> HasActiveLoan(loans', u)
    ensures forall v :: v in users' && users'[v].active_loans == 1 ==> HasActiveLoan(loans', v)
  {
    forall v | v in users' && users'[v].active_loans == 1
      ensures HasActiveLoan(loans', v)
    {
      if v != u {
        var k :| k in loans && k.user == v && loans[k].status == Active;
        assert k in loans' && k.user == v && loans'[k].status == Active;
      }
    }
  }

  // ------------------------------------------------- rewriting one profile only

  lemma ProfileRewriteKeepsLoans(total: int, users: map<Pubkey, UserProfile>, loans: map<LoanKey, Loan>,
                                 u: Pubkey, p: UserProfile)
    requires LoansValid(total, users, loans) && ActiveLoansCounted(users, loans)
    requires u in users && p.active_loans == users[u].active_loans
    ensures LoansValid(total, users[u := p], loans) && ActiveLoansCounted(users[u := p], loans)
  {
    ActiveWitnessesSurvive(users, loans, users[u := p], loans, u);
  }

  lemma ProfileRewritePreserves(state: Option<ProgramState>, users: map<Pubkey, UserProfile>,
                                loans: map<LoanKey, Loan>, payments: map<PaymentKey, PaymentRecord>,
                                risks: map<Pubkey, RiskProfile>, loan_address: LoanKey -> Pubkey,
                                u: Pubkey, p: UserProfile)
    requires Inv(state, users, loans, payments, risks, loan_address)
    requires u in users && SameStanding(users[u], p)
    ensures Inv(state, users[u := p], loans, payments, risks, loan_address)
  {
    ProfileStored(users, u, p);
    ProfileRewriteKeepsLoans(if state.Some? then state.value.total_loans else 0, users, loans, u, p);
    RisksSurviveProfileStore(users, risks, u, p);
  }

  lemma AssessmentPreserves(state: Option<ProgramState>, users: map<Pubkey, UserProfile>,
                            loans: map<LoanKey, Loan>, payments: map<PaymentKey, PaymentRecord>,
                            risks: map<Pubkey, RiskProfile>, loan_address: LoanKey -> Pubkey,
                            u: Pubkey, p: UserProfile, risk: RiskProfile)
    requires Inv(state, users, loans, payments, risks, loan_address)
    requires u in users && SameStanding(users[u], p)
    requires risk.user == u && risk.risk_score <= MAX_RISK_SCORE && risk.default_probability <= MAX_DEFAULT_PROBABILITY
    ensures Inv(state, users[u := p], loans, payments, risks[u := risk], loan_address)
  {
    ProfileRewritePreserves(state, users, loans, payments, risks, loan_address, u, p);
  }

  // --------------------------------------------------------------- registration

  lemma RegistrationKeepsLoans(total: int, users: map<Pubkey, UserProfile>, loans: map<LoanKey, Loan>,
                               u: Pubkey, p: UserProfile)
    requires LoansValid(total, users, loans) && ActiveLoansCounted(users, loans)
    requires u !in users && p.active_loans == 0
    ensures LoansValid(total, users[u := p], loans) && ActiveLoansCounted(users[u := p], loans)
  {
    ActiveWitnessesSurvive(users, loans, users[u := p], loans, u);
  }

  lemma RegistrationPreserves(s: ProgramState, users: map<Pubkey, UserProfile>,
                              loans: map<LoanKey, Loan>, payments: map<PaymentKey, PaymentRecord>,
                              risks: map<Pubkey, RiskProfile>, loan_address: LoanKey -> Pubkey,
                              u: Pubkey, s': ProgramState, p: UserProfile)
    requires Inv(Some(s), users, loans, payments, risks, loan_address)
    requires u !in users
    requires s'.total_users == s.total_users + 1 && s'.total_loans == s.total_loans
    requires ProfileValid(u, p) && p.active_loans == 0
    ensures Inv(Some(s'), users[u := p], loans, payments, risks, loan_address)
  {
    ProfileStored(users, u, p);
    RegistrationKeepsLoans(s.total_loans, users, loans, u, p);
    RisksSurviveProfileStore(users, risks, u, p);
  }

  // ---------------------------------------------------------------- origination

  lemma OriginationKeepsLoansValid(total: int, users: map<Pubkey, UserProfile>, loans: map<LoanKey, Loan>,
                                   u: Pubkey, p: UserProfile, loan: Loan)
    requires LoansValid(total, users, loans)
    requires u in users
    requires loan.user == u && loan.loan_id == total && LoanValid(loan)
    ensures LoanKey(u, total) !in loans
    ensures LoansValid(total + 1, users[u := p], loans[LoanKey(u, total) := loan])
  {
  }

  lemma OriginationKeepsActiveCount(users: map<Pubkey, UserProfile>, loans: map<LoanKey, Loan>,
                                    u: Pubkey, p: UserProfile, k: LoanKey, loan: Loan)
    requires ActiveLoansCounted(users, loans)
    requires u in users && users[u].active_loans == 0 && p.active_loans == 1
    requires k !in loans && k.user == u && loan.status == Active
    ensures ActiveLoansCounted(users[u := p], loans[k := loan])
  {
    var users', loans' := users[u := p], loans[k := loan];
    assert HasActiveLoan(loans', u) by {
      assert k in loans' && k.user == u && loans'[k].status == Active;
    }
    ActiveWitnessesSurvive(users, loans, users', loans', u);
  }

  lemma OriginationKeepsPayments(loans: map<LoanKey, Loan>, payments: map<PaymentKey, PaymentRecord>,
                                 loan_address: LoanKey -> Pubkey, k: LoanKey, loan: Loan)
    requires PaymentsValid(loans, payments, loan_address)
    requires k !in loans
    ensures PaymentsValid(loans[k := loan], payments, loan_address)
  {
  }

  lemma OriginationPreserves(s: ProgramState, users: map<Pubkey, UserProfile>,
                             loans: map<LoanKey, Loan>, payments: map<PaymentKey, PaymentRecord>,
                             risks: map<Pubkey, RiskProfile>, loan_address: LoanKey -> Pubkey,
                             u: Pubkey, s': ProgramState, p: UserProfile, loan: Loan)
    requires Inv(Some(s), users, loans, payments, risks, loan_address)
    requires u in users && users[u].active_loans == 0
    requires s'.total_users == s.total_users && s'.total_loans == s.total_loans + 1
    requires SameStanding(users[u], p.(active_loans := 0)) && p.active_loans == 1
    requires loan.user == u && loan.loan_id == s.total_loans && loan.status == Active && LoanValid(loan)
    ensures LoanKey(u, s.total_loans) !in loans
    ensures Inv(Some(s'), users[u := p], loans[LoanKey(u, s.total_loans) := loan], payments, risks, loan_address)
    ensures Persists(users, loans, payments, users[u := p], loans[LoanKey(u, s.total_loans) := loan], payments)
  {
    StepPersists(users, loans, payments, u, p, LoanKey(u, s.total_loans), loan, payments);
    var k := LoanKey(u, s.total_loans);
    ProfileStored(users, u, p);
    OriginationKeepsLoansValid(s.total_loans, users, loans, u, p, loan);
    OriginationKeepsActiveCount(users, loans, u, p, k, loan);
    OriginationKeepsPayments(loans, payments, loan_address, k, loan);
    RisksSurviveProfileStore(users, risks, u, p);
  }

  // ------------------------------------------- rewriting one loan (and its owner)

  /** Rewriting one loan by a `LoanStep`, and adding records under fresh keys, deletes nothing. */
  lemma StepPersists(users: map<Pubkey, UserProfile>, loans: map<LoanKey, Loan>,
                     payments: map<PaymentKey, PaymentRecord>, u: Pubkey, p: UserProfile, k: LoanKey, loan: Loan,
                     payments': map<PaymentKey, PaymentRecord>)
    requires k in loans ==> LoanStep(loans[k], loan)
    requires forall pk :: pk in payments ==> pk in payments' && payments'[pk] == payments[pk]
    ensures Persists(users, loans, payments, users[u := p], loans[k := loan], payments')
  {
  }

  lemma LoanRewriteKeepsLoansValid(total: int, users: map<Pubkey, UserProfile>, loans: map<LoanKey, Loan>,
                                   u: Pubkey, p: UserProfile, k: LoanKey, loan: Loan)
    requires LoansValid(total, users, loans)
    requires u in users && k in loans && LoanStep(loans[k], loan) && LoanValid(loan)
    ensures LoansValid(total, users[u := p], loans[k := loan])
  {
  }

  lemma LoanRewriteKeepsPayments(loans: map<LoanKey, Loan>, payments: map<PaymentKey, PaymentRecord>,
                                 loan_address: LoanKey -> Pubkey, k: LoanKey, loan: Loan)
    requires PaymentsValid(loans, payments, loan_address)
    requires k in loans && LoanStep(loans[k], loan)
    ensures PaymentsValid(loans[k := loan], payments, loan_address)
  {
  }

  /** The borrower's only Active loan leaves Active, and their active count drops to zero. */
  lemma ClosureKeepsActiveCount(users: map<Pubkey, UserProfile>, loans: map<LoanKey, Loan>,
                                k: LoanKey, loan: Loan, p: UserProfile)
    requires ActiveLoansCounted(users, loans)
    requires k in loans && loans[k].status == Active && loan.status != Active && p.active_loans == 0
    ensures ActiveLoansCounted(users[k.user := p], loans[k := loan])
  {
    ActiveWitnessesSurvive(users, loans, users[k.user := p], loans[k := loan], k.user);
  }

  lemma ClosurePreserves(state: Option<ProgramState>, users: map<Pubkey, UserProfile>,
                         loans: map<LoanKey, Loan>, payments: map<PaymentKey, PaymentRecord>,
                         risks: map<Pubkey, RiskProfile>, loan_address: LoanKey -> Pubkey,
                         k: LoanKey, loan: Loan, p: UserProfile)
    requires Inv(state, users, loans, payments, risks, loan_address)
    requires k in loans && loans[k].status == Active
    requires LoanStep(loans[k], loan) && loan.status != Active && LoanValid(loan)
    requires SameStanding(users[k.user].(active_loans := 0), p) && p.active_loans == 0
    ensures Inv(state, users[k.user := p], loans[k := loan], payments, risks, loan_address)
    ensures Persists(users, loans, payments, users[k.user := p], loans[k := loan], payments)
  {
    StepPersists(users, loans, payments, k.user, p, k, loan, payments);
    ProfileStored(users, k.user, p);
    LoanRewriteKeepsLoansValid(if state.Some? then state.value.total_loans else 0, users, loans, k.user, p, k, loan);
    ClosureKeepsActiveCount(users, loans, k, loan, p);
    LoanRewriteKeepsPayments(loans, payments, loan_address, k, loan);
    RisksSurviveProfileStore(users, risks, k.user, p);
  }

  lemma PaymentKeepsActiveCount(users: map<Pubkey, UserProfile>, loans: map<LoanKey, Loan>,
                                k: LoanKey, loan: Loan, p: UserProfile)
    requires ActiveLoansCounted(users, loans)
    requires k in loans && loan.status == loans[k].status
    requires k.user in users && p.active_loans == users[k.user].active_loans
    ensures ActiveLoansCounted(users[k.user := p], loans[k := loan])
  {
    ActiveWitnessesSurvive(users, loans, users[k.user := p], loans[k := loan], k.user);
  }

  lemma PaymentRecordStored(loans: map<LoanKey, Loan>, payments: map<PaymentKey, PaymentRecord>,
                            loan_address: LoanKey -> Pubkey, k: LoanKey, n: U8, record: PaymentRecord)
    requires PaymentsValid(loans, payments, loan_address)
    requires k in loans && 0 < n <= loans[k].tenure_months
    requires record.installment_number == n && record.loan == loan_address(k) && record.user == k.user
    requires |record.payment_hash| <= MAX_HASH_LEN
    ensures PaymentsValid(loans, payments[PaymentKey(k, n) := record], loan_address)
  {
  }

  /** A payment leaves the loan Active and stores a record under a fresh key. */
  lemma PaymentPreserves(state: Option<ProgramState>, users: map<Pubkey, UserProfile>,
                         loans: map<LoanKey, Loan>, payments: map<PaymentKey, PaymentRecord>,
                         risks: map<Pubkey, RiskProfile>, loan_address: LoanKey -> Pubkey,
                         k: LoanKey, n: U8, loan: Loan, p: UserProfile, record: PaymentRecord)
    requires Inv(state, users, loans, payments, risks, loan_address)
    requires k in loans && LoanStep(loans[k], loan) && loan.status == loans[k].status && LoanValid(loan)
    requires k.user in users && SameStanding(users[k.user], p)
    requires 0 < n <= loans[k].tenure_months
    requires record.installment_number == n && record.loan == loan_address(k) && record.user == k.user
    requires |record.payment_hash| <= MAX_HASH_LEN
    requires PaymentKey(k, n) !in payments
    ensures Inv(state, users[k.user := p], loans[k := loan], payments[PaymentKey(k, n) := record], risks, loan_address)
    ensures Persists(users, loans, payments, users[k.user := p], loans[k := loan], payments[PaymentKey(k, n) := record])
  {
    StepPersists(users, loans, payments, k.user, p, k, loan, payments[PaymentKey(k, n) := record]);
    ProfileStored(users, k.user, p);
    LoanRewriteKeepsLoansValid(if state.Some? then state.value.total_loans else 0, users, loans, k.user, p, k, loan);
    PaymentKeepsActiveCount(users, loans, k, loan, p);
    PaymentRecordStored(loans, payments, loan_address, k, n, record);
    LoanRewriteKeepsPayments(loans, payments[PaymentKey(k, n) := record], loan_address, k, loan);
    RisksSurviveProfileStore(users, risks, k.user, p);
  }

  lemma WaiverKeepsActiveCount(users: map<Pubkey, UserProfile>, loans: map<LoanKey, Loan>, k: LoanKey, loan: Loan)
    requires ActiveLoansCounted(users, loans)
    requires k in loans && loan.status == loans[k].status
    ensures ActiveLoansCounted(users, loans[k := loan])
  {
    ActiveWitnessesSurvive(users, loans, users, loans[k := loan], k.user);
  }

  lemma WaiverKeepsLoansValid(total: int, users: map<Pubkey, UserProfile>, loans: map<LoanKey, Loan>,
                              k: LoanKey, loan: Loan)
    requires LoansValid(total, users, loans)
    requires k in loans && LoanStep(loans[k], loan) && LoanValid(loan)
    ensures LoansValid(total, users, loans[k := loan])
  {
  }

  /** A waiver changes only a loan's balances. */
  lemma WaiverPreserves(state: Option<ProgramState>, users: map<Pubkey, UserProfile>,
                        loans: map<LoanKey, Loan>, payments: map<PaymentKey, PaymentRecord>,
                        risks: map<Pubkey, RiskProfile>, loan_address: LoanKey -> Pubkey,
                        k: LoanKey, loan: Loan)
    requires Inv(state, users, loans, payments, risks, loan_address)
    requires k in loans && LoanStep(loans[k], loan) && loan.status == loans[k].status && LoanValid(loan)
    ensures Inv(state, users, loans[k := loan], payments, risks, loan_address)
    ensures Persists(users, loans, payments, users, loans[k := loan], payments)
  {
    assert users[k.user := users[k.user]] == users;
    StepPersists(users, loans, payments, k.user, users[k.user], k, loan, payments);
    WaiverKeepsLoansValid(if state.Some? then state.value.total_loans else 0, users, loans, k, loan);
    WaiverKeepsActiveCount(users, loans, k, loan);
    LoanRewriteKeepsPayments(loans, payments, loan_address, k, loan);
  }
}
