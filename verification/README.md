# Micro-loan program: a verified model

This project models the on-chain micro-loan program of the repository, an
Anchor program for Solana. It keeps five kinds of record:

- the program state;
- one profile per borrower;
- one account per loan;
- one payment record per (loan, installment);
- one risk profile per borrower.

Instructions move a loan through `Active → Completed | Defaulted` and keep
counters on the borrower's profile and on the program state.

The program exists twice:

- the modular program under `blockchain/programs/loan-management/src`, the primary variant;
- the single-file deployment `blockchain/SINGLE_FILE_PROGRAM.rs`.

They share the records and the first four instructions. They differ in:

- the payment, fine, waiver and credit rules;
- the income multiplier;
- which accounts must sign.

Modules:

- `Numeric` (numeric.dfy): Rust's fixed-width integer types and their checked, saturating and wrapping operations.
- `Outcomes` (outcomes.dfy): the program's error codes (`LoanError`) and the failures the runtime adds. These are an account that already exists, an account that does not, a failed `has_one` constraint, a record that does not fit its account, and the abort of an unchecked arithmetic overflow.
- `State` (state.dfy): the five records, the three enums, and each account's declared size.
- `Layout` (layout.dfy): the Borsh byte layout of every record. It proves that each declared size is exactly what the layout needs.
- `Rules` (rules.dfy): the modular program's calculators:
  - due date, 2-day grace period and days late;
  - the 0.5%-per-day fine in u128;
  - the 300..850 credit rules;
  - the risk-tier lending multiplier.
- `SingleFileRules` (single_file_rules.dfy): the single-file calculators:
  - no grace period;
  - a 1%-per-day fine capped at 10%;
  - +50 / −200 credit with a ceiling of 1000;
  - a fixed ×10 multiplier capped at 500,000,000,000.
- `Instructions` (instructions.dfy): the modular program's nine handlers. Each takes the records its accounts hold, checks its inputs in the program's order, and updates local copies step by step. It returns either the first failure or the new records together with the event the handler emits. A failure writes nothing back, which is how the runtime discards fields already written when a later `checked_add` fails. Each handler's contract is a named predicate (`RegisterUserOutcome`, `RecordPaymentOutcome`, …), which the `Ledger` methods state again about the records they hold.
- `SingleFile` (single_file.dfy): the five handlers whose single-file version differs.
- `Invariant` (invariant.dfy): what every reachable set of accounts satisfies (`Inv`), and one preservation lemma per kind of transition.
- `Ledger` (ledger.dfy): the class `Ledger`, the program's accounts keyed by the seeds of their addresses. Each method:
  1. performs the runtime's account checks;
  2. dispatches to the handler of the deployment it runs;
  3. checks that a new record fits its account;
  4. commits the handler's records or leaves everything unchanged.

  Every method keeps `Valid()`.

   The runtime's account checks are:
   - `init` on an address that already holds a record fails (`AccountInUse`);
   - a missing record fails (`AccountNotInitialized`);
   - in the single-file deployment, a borrower who does not sign fails `has_one`.

Arithmetic follows Rust with overflow checks on, as in release builds of Anchor programs:

- an unchecked `+` or `*` that overflows aborts the instruction (`ArithmeticPanic`);
- `checked_*` failures raise `MathOverflow`;
- `saturating_*` clamps;
- an `as u16` / `as u64` narrowing keeps the low bits.

## Behaviour worth knowing

- **Payment amount.** A payment reduces `outstanding_balance` by the whole amount paid, fine included (record_payment.rs:106). No principal portion is split off.
- **Second payment.** A second payment for the same installment fails because the payment record's `init` address is already in use (record_payment.rs:24-35). `InstallmentAlreadyPaid` is declared (errors.rs:42) but no handler raises it. The runtime creates `init` accounts before it checks the other accounts' constraints, so in the single-file deployment this failure comes before the `has_one = user` check.
- **Authority.** No handler compares a signer with `ProgramState.authority`. The modular completion, default and waiver instructions require a signer (mark_loan_completed.rs:22, mark_loan_defaulted.rs:23, waive_fine.rs:34) but compare its key with nothing, and so does the risk update (update_risk_score.rs:28).
- **Single-file payment hash.** The single-file payment handler does not check the hash length (SINGLE_FILE_PROGRAM.rs:203-250). A payment with a hash over 100 bytes fails with the handler's own error if there is one; otherwise it fails only when the record is written back, with `AccountDidNotSerialize`.
- **Single-file signer.** The single-file deployment requires the borrower to sign payment, default and completion, through `has_one = user` with `user: Signer` (SINGLE_FILE_PROGRAM.rs:654-677, 712-723, 733-744).

## Model

| member | source | states |
|---|---|---|
| Layout.SerializeProgramState | blockchain/programs/loan-management/src/state.rs:5-17 | every program state serializes to exactly `LEN` − 8 = 60 bytes, so `LEN` is 68 |
| Layout.SerializeUserProfile | blockchain/programs/loan-management/src/state.rs:21-45 | `LEN` is 201; a profile fits its account exactly when its name is at most `MAX_NAME_LEN` = 100 bytes |
| Layout.SerializeLoan | blockchain/programs/loan-management/src/state.rs:49-71 | `LEN` is 143; each `Option<i64>` takes 1 or 1+8 bytes, so every loan fits and one with both timestamps fills the account |
| Layout.SerializePaymentRecord | blockchain/programs/loan-management/src/state.rs:75-91 | `LEN` is 205; a record fits exactly when its hash is at most `MAX_HASH_LEN` = 100 bytes |
| Layout.SerializeRiskProfile | blockchain/programs/loan-management/src/state.rs:95-108 | every risk profile serializes to exactly `LEN` − 8 bytes, so `LEN` is 63 |
| Layout.EmploymentTag | blockchain/programs/loan-management/src/state.rs:110-118 | each of the 5 employment types is one tag byte below 5 that decodes back to it |
| Layout.StatusTag | blockchain/programs/loan-management/src/state.rs:120-127 | each of the 4 loan statuses is one tag byte below 4 that decodes back to it |
| Layout.RiskTag | blockchain/programs/loan-management/src/state.rs:129-136 | each of the 4 risk tiers is one tag byte below 4 that decodes back to it |
| Layout.LeBytesRoundTrip | blockchain/programs/loan-management/src/state.rs:5-17 | an n-byte little-endian integer field decodes back to any value below 256^n |
| Layout.FromLeRoundTrip | blockchain/programs/loan-management/src/state.rs:5-17 | every n-byte field is the encoding of exactly one value below 256^n |
| Rules.AssessLateness | blockchain/programs/loan-management/src/instructions/record_payment.rs:63-72 | on time iff `now ≤ start + n·2,592,000 + 172,800`; otherwise `days_late` is the whole days past the grace end, mod 2^16; i64 overflow of the sums aborts |
| Rules.DaysLateAreWholeDaysPastGrace | blockchain/programs/loan-management/src/instructions/record_payment.rs:67-72 | a late payment is `days_late` whole days (and less than one more) past the grace end, so within one day of it `days_late` is 0 |
| Rules.DaysLateWrapAt65536Days | blockchain/programs/loan-management/src/instructions/record_payment.rs:69 | exactly 65,536 days late, the `as u16` narrowing makes the payment late with 0 days and so no fine |
| Rules.FineProductFitsU128 | blockchain/programs/loan-management/src/instructions/record_payment.rs:77-81 | `installment·50·days_late` always fits u128, so neither `checked_mul` can fail |
| Rules.LateFine | blockchain/programs/loan-management/src/instructions/record_payment.rs:75-86 | the fine is `installment·50·days_late/10000` narrowed to u64, uncapped, 0 when `days_late` is 0, and never an error |
| Rules.FineIsExactBelowBound | blockchain/programs/loan-management/src/instructions/record_payment.rs:82-83 | for installments up to 10^16 the narrowing loses nothing: the fine is the exact floor of the quotient |
| Rules.FineReachesInstallmentAt200Days | blockchain/programs/loan-management/src/instructions/record_payment.rs:75-86 | without a cap, for installments up to 10^16, from 200 days late the fine is at least the whole installment |
| Rules.InstallmentCharge | blockchain/programs/loan-management/src/instructions/record_payment.rs:63-89 | the amount due is installment + fine, aborting when the unchecked u64 sum overflows; an on-time payment owes exactly the installment |
| Rules.CreditAfterPayment | blockchain/programs/loan-management/src/instructions/record_payment.rs:114-124 | on time `min(score+2, 850)`, late `max(score−5, 300)`; a score in 300..850 stays in it |
| Rules.CreditAfterCompletion | blockchain/programs/loan-management/src/instructions/mark_loan_completed.rs:43 | `min(score+20, 850)`, at most 850, and never lower for a score in the band |
| Rules.CreditAfterDefault | blockchain/programs/loan-management/src/instructions/mark_loan_defaulted.rs:44 | `max(score−100, 300)`, at least 300, and never higher for a score in the band |
| Rules.IncomeMultiplier | blockchain/programs/loan-management/src/instructions/update_risk_score.rs:60-65 | the whole tier table: Low 10, Medium 6, High 3, Critical 1 |
| Rules.MultiplierStrictlyDecreasing | blockchain/programs/loan-management/src/instructions/update_risk_score.rs:60-65 | a riskier tier has a strictly smaller multiplier |
| Rules.RecommendedMaxLoan | blockchain/programs/loan-management/src/instructions/update_risk_score.rs:66-68 | income × multiplier, failing with `MathOverflow` exactly when it exceeds u64 |
| Rules.RecommendationFallsWithRisk | blockchain/programs/loan-management/src/instructions/update_risk_score.rs:60-68 | for a positive income a riskier tier is recommended strictly less, and never overflows where a safer one does not |
| SingleFileRules.AssessLateness | blockchain/SINGLE_FILE_PROGRAM.rs:223-236 | no grace period: `days_late` is the whole days past the due date mod 2^16, and on time iff it is 0 |
| SingleFileRules.OnTimeMeansWithinOneDayOfDue | blockchain/SINGLE_FILE_PROGRAM.rs:223-236 | rounding down to whole days makes a payment on time exactly when it comes less than a day after the due date |
| SingleFileRules.CappedFine | blockchain/SINGLE_FILE_PROGRAM.rs:230-234 | `min(installment·days_late/100, installment/10)`, never above a tenth of the installment; the unchecked product aborts on overflow |
| SingleFileRules.FineCappedFromDayTen | blockchain/SINGLE_FILE_PROGRAM.rs:231 | from 10 days late on the fine is exactly a tenth of the installment |
| SingleFileRules.CreditAfterCompletion | blockchain/SINGLE_FILE_PROGRAM.rs:375 | `min(score+50, 1000)`; the unchecked u16 sum aborts exactly when `score + 50` exceeds u16; a score up to 1000 never falls |
| SingleFileRules.CreditAfterDefault | blockchain/SINGLE_FILE_PROGRAM.rs:343 | `score − 200` saturating at 0, with no floor at 300 |
| SingleFileRules.RecommendedMaxLoan | blockchain/SINGLE_FILE_PROGRAM.rs:310 | `min(income·10, 500,000,000,000)` whatever the tier; the unchecked product aborts on overflow |
| Instructions.Initialize | blockchain/programs/loan-management/src/instructions/initialize.rs:21-31 | fails with `InvalidInterestRate` iff fee > 1000; otherwise the caller is the authority, the fee is stored, the counters are 0 and the program is not paused |
| Instructions.RegisterUser | blockchain/programs/loan-management/src/instructions/register_user.rs:30-78 | `ProgramPaused`, `NameTooLong`, `IncomeTooLow`, `MathOverflow` in that order; success iff none applies; the new profile has score 500, Medium risk and zero counters; `total_users` grows by exactly 1 |
| Instructions.UpdateUserProfile | blockchain/programs/loan-management/src/instructions/update_user_profile.rs:18-40 | fails with `IncomeTooLow` iff the new income is `Some(0)`; `Some` overwrites, `None` keeps; only the two optional fields and `last_updated` change |
| Instructions.CreateLoan | blockchain/programs/loan-management/src/instructions/create_loan.rs:45-136 | the error cascade in the program's order, success iff every check passes; the loan takes the program's next id and owes `installment × tenure` from `start` to `start + tenure·2,592,000`; `active_loans` goes from 0 to 1; the counters grow by exactly 1 and by the principal |
| Instructions.RecordPayment | blockchain/programs/loan-management/src/instructions/record_payment.rs:46-143 | the error cascade; `InsufficientPayment` iff a valid request pays less than installment + fine; success iff a valid request pays at least that and no total overflows; on success both `total_repaid`s grow by `amount`, fines by the fine, the balance becomes `max(0, balance − amount)` and never grows, and exactly one payment counter and the credit rule of that timeliness apply |
| Instructions.MarkLoanCompleted | blockchain/programs/loan-management/src/instructions/mark_loan_completed.rs:25-56 | success iff Active with zero balance and `completed_loans` below u16 max; the loan becomes Completed at `now` with its amounts unchanged; `active_loans` drops by 1 saturating; credit +20 capped at 850 |
| Instructions.MarkLoanDefaulted | blockchain/programs/loan-management/src/instructions/mark_loan_defaulted.rs:26-59 | `LoanNotActive`, then `LoanAlreadyCompleted` at zero balance, then `MathOverflow`; the loan becomes Defaulted at `now` with its amounts unchanged; credit −100 floored at 300; risk Critical |
| Instructions.WaiveFine | blockchain/programs/loan-management/src/instructions/waive_fine.rs:37-65 | fails iff the waiver exceeds that installment's recorded fine; balance and `total_fines` both drop by the waiver saturating at 0; status is neither checked nor changed |
| Instructions.UpdateRiskScore | blockchain/programs/loan-management/src/instructions/update_risk_score.rs:33-86 | `InvalidRiskScore` iff score > 1000, then `InvalidDefaultProbability` iff probability > 10000, then `MathOverflow`; score and tier overwritten unclamped; the risk profile records the inputs, the tier's recommendation and 5 factors; the event's old score is the prior one |
| SingleFile.RecordPayment | blockchain/SINGLE_FILE_PROGRAM.rs:203-284 | `InsufficientPayment` iff an Active loan's valid installment is paid below the installment, before any fine; success iff it is paid at least that, the lateness and the fine compute and no sum overflows; the balance drops by `amount` with `checked_sub`, both `total_repaid`s grow by amount + fine, and the credit score is untouched |
| SingleFile.MarkLoanDefaulted | blockchain/SINGLE_FILE_PROGRAM.rs:329-357 | no zero-balance check; `MathOverflow` when `active_loans` is 0 or `defaulted_loans` is at u8 max; credit −200 saturating; risk Critical |
| SingleFile.MarkLoanCompleted | blockchain/SINGLE_FILE_PROGRAM.rs:360-387 | `LoanNotActive`, `InsufficientPayment`, then `MathOverflow` on either counter, then the abort of `score + 50`; credit `min(score+50, 1000)` |
| SingleFile.WaiveFine | blockchain/SINGLE_FILE_PROGRAM.rs:390-418 | fails iff the waiver exceeds `total_fines`; `total_fines` drops by exactly the waiver and the balance is unchanged |
| SingleFile.UpdateRiskScore | blockchain/SINGLE_FILE_PROGRAM.rs:287-326 | the same validation and overwrite as the modular one, with the single-file recommendation |
| Invariant.RegistrationPreserves | blockchain/programs/loan-management/src/instructions/register_user.rs:8-13 | a new profile at a fresh address keeps the invariant, with `total_users` still counting the profiles |
| Invariant.ProfileRewritePreserves | blockchain/programs/loan-management/src/instructions/update_user_profile.rs:23-35 | rewriting a profile that keeps its owner, name and active-loan count keeps the invariant |
| Invariant.AssessmentPreserves | blockchain/programs/loan-management/src/instructions/update_risk_score.rs:42-72 | overwriting a profile's score and storing a bounded risk profile keeps the invariant |
| Invariant.OriginationPreserves | blockchain/programs/loan-management/src/instructions/create_loan.rs:16-27 | the next loan id's address is free, and adding the new Active loan while its borrower's count goes 0 → 1 keeps the invariant and deletes nothing |
| Invariant.PaymentPreserves | blockchain/programs/loan-management/src/instructions/record_payment.rs:24-35 | storing the payment record at its fresh (loan, installment) address and rewriting the loan keeps the invariant |
| Invariant.ClosurePreserves | blockchain/programs/loan-management/src/instructions/mark_loan_completed.rs:30-40 | moving the borrower's only Active loan to Completed or Defaulted while the count drops to 0 keeps the invariant |
| Invariant.WaiverPreserves | blockchain/programs/loan-management/src/instructions/waive_fine.rs:42-50 | rewriting a loan's balances, status kept, keeps the invariant |
| Ledger.Ledger.constructor | blockchain/programs/loan-management/src/instructions/initialize.rs:6-13 | the store starts with no accounts, which satisfies the invariant |
| Ledger.Ledger.Initialize | blockchain/programs/loan-management/src/instructions/initialize.rs:6-13 | the program state has one fixed address, so a second initialization fails with `AccountInUse`; the first one returns and stores exactly what `Instructions.Initialize` promises (the caller as authority, the fee, zero counters) |
| Ledger.Ledger.RegisterUser | blockchain/programs/loan-management/src/instructions/register_user.rs:8-13 | registering an authority twice fails with `AccountInUse`; otherwise the result is exactly `Instructions.RegisterUser`'s (score 500, Medium risk, zero counters, `total_users + 1`), never fails serialization, and success stores that profile and state |
| Ledger.Ledger.UpdateUserProfile | blockchain/programs/loan-management/src/instructions/update_user_profile.rs:5-16 | the profile is found at the signer's address, so the ownership check never fails; the result is exactly `Instructions.UpdateUserProfile`'s on the stored profile, and success rewrites only that profile |
| Ledger.Ledger.CreateLoan | blockchain/programs/loan-management/src/instructions/create_loan.rs:16-27 | the loan's address (borrower, program loan count) is always free; the result is exactly `Instructions.CreateLoan`'s on the stored state and profile (next id, Active, the counters), and success stores exactly that loan, profile and state |
| Ledger.Ledger.RecordPayment | blockchain/programs/loan-management/src/instructions/record_payment.rs:6-44 | a second payment for the same installment fails with `AccountInUse` whoever signs, since the runtime creates `init` accounts before it checks `has_one`; then a single-file payment not signed by the borrower fails `ConstraintHasOne`; otherwise the result is the deployment's `RecordPayment` on the stored loan and profile (balance, totals, credit, record fields), except that a single-file payment the handler accepts with a hash over 100 bytes fails `AccountDidNotSerialize`; success stores exactly those records; a loan's balance never grows |
| Ledger.Ledger.MarkLoanCompleted | blockchain/programs/loan-management/src/instructions/mark_loan_completed.rs:6-23 | the result is the deployment's `MarkLoanCompleted` on the stored loan and profile (timestamp, counters, credit); success leaves the borrower with no active loan and never aborts on arithmetic |
| Ledger.Ledger.MarkLoanDefaulted | blockchain/programs/loan-management/src/instructions/mark_loan_defaulted.rs:6-24 | the result is the deployment's `MarkLoanDefaulted` on the stored loan and profile (timestamp, counters, credit, risk Critical); success leaves the borrower with no active loan |
| Ledger.Ledger.WaiveFine | blockchain/programs/loan-management/src/instructions/waive_fine.rs:6-35 | the modular waiver needs the installment's payment record and leaves it unchanged; the result is the deployment's `WaiveFine` (new balance and `total_fines`); only the loan changes, status kept |
| Ledger.Ledger.UpdateRiskScore | blockchain/programs/loan-management/src/instructions/update_risk_score.rs:6-31 | the risk profile is created on first use and overwritten afterwards; the result is the deployment's `UpdateRiskScore` (score, tier, risk-profile fields); only the borrower's profile and risk profile change |

`Inv`, the invariant every `Ledger` method keeps, says:

- with no program state there are no accounts;
- `total_users` and `total_loans` count the profiles and the loans;
- every profile belongs to its address, has a name of at most 100 bytes, a positive income, at most one active loan and a score of at most 1000;
- every loan sits at (borrower, id) with an id below `total_loans`, and ids are unique;
- every loan has a tenure of 3..60, a balance no larger than its total and timestamps that match its status, and it is never Cancelled; a Completed loan owes nothing;
- a borrower's `active_loans` is 1 exactly when one of their loans is Active, and no borrower has two Active loans;
- every payment record belongs to an existing loan and one of its installments;
- every risk profile belongs to a registered borrower and holds a bounded score and probability.

`Persists` is the partner of every loan-touching method. Profiles and loans are never deleted. A loan keeps its terms, its outstanding balance never grows, and it only leaves Active, to Completed or Defaulted, once. Payment records are never rewritten.

## Left out

- Floating-point amortization (create_loan.rs:70-79, SINGLE_FILE_PROGRAM.rs:138-147): `monthly_installment` is an input of `CreateLoan`. Only the checked product `installment × tenure` is kept.
- The fee's floating-point display (initialize.rs:33), the `msg!` logs and `emit!` itself. Each handler returns its event as a value.
- `lib.rs` dispatch, `errors.rs` (its variants are `Outcomes.LoanError`) and `get_credit_score.rs` (a field read). `events.rs` is not part of this model beyond the `Event` datatype.
- Time and identity: `Clock::get()` is the `now` parameter, and a signer is a 32-byte key. Bumps are inputs stored as given.
- PDA derivation: a loan's account address is the function `loan_address`, taken as given. Addresses are otherwise the seeds themselves, so two different seeds never collide.
- `Ledger`: only newly created records with strings (profiles, payment records) are checked against their account size. Every other record fits by the `Layout` lemmas.
- Pausing: no instruction toggles `paused`, so it is only ever false after `Initialize`. The handlers take it from the state they are given.
- The `payer`/`admin` signers and rent: no handler compares them with anything.
- Overflow checks: the model assumes the program is built with them on (the workspace's Cargo.toml is not part of this model). With them off, every `ArithmeticPanic` would instead wrap.
- Aggregate totals: `Inv` does not state that `total_volume` is the sum of the loans' principals, nor that a profile's `total_loans` and `total_borrowed` count and sum that borrower's loans. Stating them needs sums and counts over the loan map, whose proofs under every transition were left out to keep each proof small.
- `Instructions.RecordPayment`: the u128 `checked_mul` exits are dead by `Rules.FineProductFitsU128`, so the model never takes them.
- `Ledger.Ledger.UpdateRiskScore`: `init_if_needed` also accepts an existing risk profile, so there is no `AccountInUse` case to state.
