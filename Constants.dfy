/** The bank's fixed tags and limits (js/Constants.js). */
module Constants {

  /** The four transaction type tags. */
  datatype TxType = Deposit | Withdrawal | Transfer | Interest

  /** Flat fee charged on a withdrawal attempt that exceeds the balance. */
  const INSUFFICIENT_FUNDS_FEE: real := 5.0

  /** Account type tags. Account types are free strings; these two are the named ones. */
  const CHECKING: string := "checking"
  const SAVINGS: string := "savings"

  /** Cap on the sum of one account's withdrawals on one calendar day. */
  const DAILY_WITHDRAWAL_LIMIT: real := 500.0

  /** Interest is paid only on a balance strictly above this. */
  const MIN_BALANCE_FOR_INTEREST: real := 500.0
}
