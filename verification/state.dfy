/**
 * The persistent records of the loan program and the space reserved for each.
 *
 * A record is a value: the runtime loads an account into memory, the
 * instruction updates that copy, and the copy is written back only when the
 * instruction succeeds.
 */
module State {
  import opened Numeric

  /** An account address or signer identity: 32 opaque bytes. */
  type Pubkey = s: seq<U8> | |s| == 32 witness seq(32, i => 0)

  /** A Rust `String` as it arrives in instruction data: UTF-8 bytes behind a u32 length. */
  type Str = s: seq<U8> | |s| <= 0xFFFF_FFFF

  datatype EmploymentType = Salaried | SelfEmployed | BusinessOwner | DailyWage | Unemployed

  datatype LoanStatus = Active | Completed | Defaulted | Cancelled

  datatype RiskLevel = Low | Medium | High | Critical

  datatype ProgramState = ProgramState(
    authority: Pubkey,
    total_users: U64,
    total_loans: U64,
    total_volume: U64,
    fee_percentage: U16,
    paused: bool,
    bump: U8)

  datatype UserProfile = UserProfile(
    authority: Pubkey,
    full_name: Str,
    monthly_income: U64,
    employment_type: EmploymentType,
    total_loans: U16,
    active_loans: U8,
    completed_loans: U16,
    defaulted_loans: U8,
    total_borrowed: U64,
    total_repaid: U64,
    on_time_payments: U16,
    late_payments: U16,
    missed_payments: U16,
    credit_score: U16,
    risk_level: RiskLevel,
    registration_timestamp: I64,
    last_updated: I64,
    bump: U8)

  datatype Loan = Loan(
    user: Pubkey,
    loan_id: U64,
    principal_amount: U64,
    interest_rate: U16,
    tenure_months: U8,
    monthly_installment: U64,
    total_amount: U64,
    outstanding_balance: U64,
    total_repaid: U64,
    total_fines: U64,
    start_timestamp: I64,
    end_timestamp: I64,
    status: LoanStatus,
    created_timestamp: I64,
    completed_timestamp: Option<I64>,
    defaulted_timestamp: Option<I64>,
    bump: U8)

  datatype PaymentRecord = PaymentRecord(
    loan: Pubkey,
    user: Pubkey,
    installment_number: U8,
    amount: U64,
    fine_amount: U64,
    payment_timestamp: I64,
    payment_hash: Str,
    on_time: bool,
    days_late: U16,
    bump: U8)

  datatype RiskProfile = RiskProfile(
    user: Pubkey,
    risk_score: U16,
    risk_level: RiskLevel,
    default_probability: U16,
    recommended_max_loan: U64,
    last_calculated: I64,
    factors_count: U8,
    bump: U8)

  /** Longest `full_name`, in bytes. */
  const MAX_NAME_LEN: nat := 100
  /** Longest `payment_hash`, in bytes. */
  const MAX_HASH_LEN: nat := 100
  /** Every account starts with an 8-byte type discriminator. */
  const DISCRIMINATOR_LEN: nat := 8

  // The account sizes, as the program declares them: one term per field, in field order.
  const PROGRAM_STATE_LEN: nat := 8 + 32 + 8 + 8 + 8 + 2 + 1 + 1
  const USER_PROFILE_LEN: nat :=
    8 + 32 + (4 + MAX_NAME_LEN) + 8 + 1 + 2 + 1 + 2 + 1 + 8 + 8 + 2 + 2 + 2 + 2 + 1 + 8 + 8 + 1
  const LOAN_LEN: nat :=
    8 + 32 + 8 + 8 + 2 + 1 + 8 + 8 + 8 + 8 + 8 + 8 + 8 + 1 + 8 + (1 + 8) + (1 + 8) + 1
  const PAYMENT_RECORD_LEN: nat := 8 + 32 + 32 + 1 + 8 + 8 + 8 + (4 + MAX_HASH_LEN) + 1 + 2 + 1
  const RISK_PROFILE_LEN: nat := 8 + 32 + 2 + 1 + 2 + 8 + 8 + 1 + 1

  /** Position of a risk tier, from least (Low) to most risky (Critical). */
  function RiskRank(level: RiskLevel): (rank: nat)
    ensures rank < 4
  {
    match level
    case Low => 0
    case Medium => 1
    case High => 2
    case Critical => 3
  }
}
