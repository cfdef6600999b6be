/**
 * How an instruction ends: the program's own error codes, the runtime's
 * account-level failures, and the abort of an unchecked arithmetic overflow.
 * Whatever the failure, the runtime discards every write the instruction made.
 */
module Outcomes {

  /** The program's error codes, in declaration order. */
  datatype LoanError =
    | Unauthorized
    | ProgramPaused
    | UserAlreadyRegistered
    | UserNotFound
    | InvalidLoanAmount
    | InvalidInterestRate
    | InvalidTenure
    | ActiveLoanExists
    | LoanNotFound
    | LoanNotActive
    | InvalidPaymentAmount
    | InvalidInstallmentNumber
    | InstallmentAlreadyPaid
    | LoanAlreadyCompleted
    | LoanAlreadyDefaulted
    | InsufficientPayment
    | PaymentTooEarly
    | InvalidRiskScore
    | InvalidDefaultProbability
    | MathOverflow
    | NameTooLong
    | InvalidStringFormat
    | LowCreditScore
    | HighRiskUser
    | IncomeTooLow

  datatype Failure =
    /** A `require!` or an `ok_or(...)?` of the program raised this error code. */
    | Raised(error: LoanError)
    /** An `init` account's address already holds a record. */
    | AccountInUse
    /** An account the instruction reads or mutates holds no record. */
    | AccountNotInitialized
    /** A `has_one` constraint without a custom error code failed. */
    | ConstraintHasOne
    /** The record no longer fits the space allocated for its account. */
    | AccountDidNotSerialize
    /** An unchecked `+`, `-` or `*` overflowed and the runtime aborted. */
    | ArithmeticPanic

  datatype Result<+T> = Ok(value: T) | Err(failure: Failure)
}
