/**
 * The Borsh byte layout of each record, and the proof that each declared
 * account size is exactly the largest record that layout can produce.
 *
 * Borsh writes fields in declaration order: unsigned and signed integers as
 * little-endian bytes of their width (signed ones in two's complement), a bool
 * and an enum variant tag as one byte, an `Option` as a one-byte tag followed
 * by the value when present, and a `String` as a u32 length followed by its
 * bytes. The account adds an 8-byte type discriminator in front.
 */
module Layout {
  import opened Numeric
  import opened State

  function Pow256(n: nat): (p: nat)
    ensures p >= 1
  {
    if n == 0 then 1 else 256 * Pow256(n - 1)
  }

  lemma Pow256Widths()
    ensures Pow256(1) == U8_MAX + 1
    ensures Pow256(2) == U16_MAX + 1
    ensures Pow256(4) == U32_MAX + 1
    ensures Pow256(8) == U64_MAX + 1
  {
    assert Pow256(1) == 256;
    assert Pow256(2) == 256 * 256;
    assert Pow256(3) == 256 * 256 * 256;
    assert Pow256(4) == 256 * 256 * 256 * 256;
    assert Pow256(5) == 256 * Pow256(4);
    assert Pow256(6) == 256 * Pow256(5);
    assert Pow256(7) == 256 * Pow256(6);
  }

  /** The `n` little-endian bytes of `x`. */
  function LeBytes(x: nat, n: nat): (r: seq<U8>)
    requires x < Pow256(n)
    ensures |r| == n
  {
    if n == 0 then [] else [x % 256] + LeBytes(x / 256, n - 1)
  }

  /** The number that little-endian bytes `s` stand for. */
  function FromLe(s: seq<U8>): nat
  {
    if s == [] then 0 else s[0] + 256 * FromLe(s[1..])
  }

  /** An `n`-byte field loses nothing of a value below 256^n. */
  lemma {:induction false} LeBytesRoundTrip(x: nat, n: nat)
    requires x < Pow256(n)
    ensures FromLe(LeBytes(x, n)) == x
  {
    if n > 0 {
      LeBytesRoundTrip(x / 256, n - 1);
      assert LeBytes(x, n)[1..] == LeBytes(x / 256, n - 1);
    }
  }

  /** Every `n`-byte string is the encoding of exactly one value below 256^n. */
  lemma {:induction false} FromLeRoundTrip(s: seq<U8>)
    ensures FromLe(s) < Pow256(|s|)
    ensures LeBytes(FromLe(s), |s|) == s
  {
    if s != [] {
      FromLeRoundTrip(s[1..]);
      var rest := FromLe(s[1..]);
      assert FromLe(s) == s[0] + 256 * rest;
      assert (s[0] + 256 * rest) % 256 == s[0];
      assert (s[0] + 256 * rest) / 256 == rest;
      assert s == [s[0]] + s[1..];
    }
  }

  function U16Bytes(x: U16): (r: seq<U8>)
    ensures |r| == 2
  {
    Pow256Widths();
    LeBytes(x, 2)
  }

  function U64Bytes(x: U64): (r: seq<U8>)
    ensures |r| == 8
  {
    Pow256Widths();
    LeBytes(x, 8)
  }

  /** Two's complement: a negative `x` is stored as `x + 2^64`. */
  function I64Bytes(x: I64): (r: seq<U8>)
    ensures |r| == 8
  {
    Pow256Widths();
    LeBytes(if x < 0 then x + U64_MAX + 1 else x, 8)
  }

  function BoolBytes(b: bool): (r: seq<U8>)
    ensures |r| == 1
  {
    [if b then 1 else 0]
  }

  function StrBytes(s: Str): (r: seq<U8>)
    ensures |r| == 4 + |s|
  {
    Pow256Widths();
    LeBytes(|s|, 4) + s
  }

  function OptionI64Bytes(o: Option<I64>): (r: seq<U8>)
    ensures |r| == if o.Some? then 1 + 8 else 1
  {
    match o
    case None => [0]
    case Some(v) => [1] + I64Bytes(v)
  }

  function EmploymentFromTag(tag: U8): Option<EmploymentType>
  {
    match tag
    case 0 => Some(Salaried)
    case 1 => Some(SelfEmployed)
    case 2 => Some(BusinessOwner)
    case 3 => Some(DailyWage)
    case 4 => Some(Unemployed)
    case _ => None
  }

  /** One tag byte names each of the five employment types, and the tag decodes back. */
  function EmploymentTag(e: EmploymentType): (tag: U8)
    ensures tag < 5
    ensures EmploymentFromTag(tag) == Some(e)
  {
    match e
    case Salaried => 0
    case SelfEmployed => 1
    case BusinessOwner => 2
    case DailyWage => 3
    case Unemployed => 4
  }

  function StatusFromTag(tag: U8): Option<LoanStatus>
  {
    match tag
    case 0 => Some(Active)
    case 1 => Some(Completed)
    case 2 => Some(Defaulted)
    case 3 => Some(Cancelled)
    case _ => None
  }

  /** One tag byte names each of the four loan statuses, and the tag decodes back. */
  function StatusTag(s: LoanStatus): (tag: U8)
    ensures tag < 4
    ensures StatusFromTag(tag) == Some(s)
  {
    match s
    case Active => 0
    case Completed => 1
    case Defaulted => 2
    case Cancelled => 3
  }

  function RiskFromTag(tag: U8): Option<RiskLevel>
  {
    match tag
    case 0 => Some(Low)
    case 1 => Some(Medium)
    case 2 => Some(High)
    case 3 => Some(Critical)
    case _ => None
  }

  /** One tag byte names each of the four risk tiers, and the tag decodes back. */
  function RiskTag(level: RiskLevel): (tag: U8)
    ensures tag < 4
    ensures RiskFromTag(tag) == Some(level)
  {
    RiskRank(level)
  }

  /** The account holding the program state is exactly full for every state. */
  function SerializeProgramState(s: ProgramState): (bytes: seq<U8>)
    ensures DISCRIMINATOR_LEN + |bytes| == PROGRAM_STATE_LEN == 68
  {
    s.authority + U64Bytes(s.total_users) + U64Bytes(s.total_loans) + U64Bytes(s.total_volume)
    + U16Bytes(s.fee_percentage) + BoolBytes(s.paused) + [s.bump]
  }

  /** A profile fits its account exactly when its name is at most `MAX_NAME_LEN` bytes. */
  function SerializeUserProfile(u: UserProfile): (bytes: seq<U8>)
    ensures DISCRIMINATOR_LEN + |bytes| + MAX_NAME_LEN == USER_PROFILE_LEN + |u.full_name|
    ensures DISCRIMINATOR_LEN + |bytes| <= USER_PROFILE_LEN <==> |u.full_name| <= MAX_NAME_LEN
    ensures USER_PROFILE_LEN == 201
  {
    u.authority + StrBytes(u.full_name) + U64Bytes(u.monthly_income) + [EmploymentTag(u.employment_type)]
    + U16Bytes(u.total_loans) + [u.active_loans] + U16Bytes(u.completed_loans) + [u.defaulted_loans]
    + U64Bytes(u.total_borrowed) + U64Bytes(u.total_repaid)
    + U16Bytes(u.on_time_payments) + U16Bytes(u.late_payments) + U16Bytes(u.missed_payments)
    + U16Bytes(u.credit_score) + [RiskTag(u.risk_level)]
    + I64Bytes(u.registration_timestamp) + I64Bytes(u.last_updated) + [u.bump]
  }

  /** Every loan fits its account; it fills it when both closing timestamps are present. */
  function SerializeLoan(l: Loan): (bytes: seq<U8>)
    ensures DISCRIMINATOR_LEN + |bytes|
            + (if l.completed_timestamp.None? then 8 else 0)
            + (if l.defaulted_timestamp.None? then 8 else 0) == LOAN_LEN
    ensures DISCRIMINATOR_LEN + |bytes| <= LOAN_LEN == 143
  {
    l.user + U64Bytes(l.loan_id) + U64Bytes(l.principal_amount) + U16Bytes(l.interest_rate)
    + [l.tenure_months] + U64Bytes(l.monthly_installment) + U64Bytes(l.total_amount)
    + U64Bytes(l.outstanding_balance) + U64Bytes(l.total_repaid) + U64Bytes(l.total_fines)
    + I64Bytes(l.start_timestamp) + I64Bytes(l.end_timestamp) + [StatusTag(l.status)]
    + I64Bytes(l.created_timestamp) + OptionI64Bytes(l.completed_timestamp)
    + OptionI64Bytes(l.defaulted_timestamp) + [l.bump]
  }

  /** A payment record fits its account exactly when its hash is at most `MAX_HASH_LEN` bytes. */
  function SerializePaymentRecord(p: PaymentRecord): (bytes: seq<U8>)
    ensures DISCRIMINATOR_LEN + |bytes| + MAX_HASH_LEN == PAYMENT_RECORD_LEN + |p.payment_hash|
    ensures DISCRIMINATOR_LEN + |bytes| <= PAYMENT_RECORD_LEN <==> |p.payment_hash| <= MAX_HASH_LEN
    ensures PAYMENT_RECORD_LEN == 205
  {
    p.loan + p.user + [p.installment_number] + U64Bytes(p.amount) + U64Bytes(p.fine_amount)
    + I64Bytes(p.payment_timestamp) + StrBytes(p.payment_hash) + BoolBytes(p.on_time)
    + U16Bytes(p.days_late) + [p.bump]
  }

  /** The account holding a risk profile is exactly full for every profile. */
  function SerializeRiskProfile(r: RiskProfile): (bytes: seq<U8>)
    ensures DISCRIMINATOR_LEN + |bytes| == RISK_PROFILE_LEN == 63
  {
    r.user + U16Bytes(r.risk_score) + [RiskTag(r.risk_level)] + U16Bytes(r.default_probability)
    + U64Bytes(r.recommended_max_loan) + I64Bytes(r.last_calculated) + [r.factors_count] + [r.bump]
  }
}
