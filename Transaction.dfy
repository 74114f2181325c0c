/** The immutable transaction record (js/Transaction.js) and the predicates the queries test it with. */
module Transactions {
  import opened Errors
  import opened Constants

  /** One ledger event. `targetAccount` is set only on transfers; `timestamp` is in milliseconds. */
  datatype Transaction = Transaction(
    id: string,
    txType: TxType,
    amount: real,
    accountNumber: int,
    targetAccount: Option<int>,
    description: string,
    timestamp: int)

  /** What a new record reads from its environment: the clock (`Date.now()`, `new Date()`) and one `Math.random()` draw. */
  datatype Stamp = Stamp(now: int, draw: real)

  function DigitChar(d: nat): char
    requires d < 10
  {
    "0123456789"[d]
  }

  /** Decimal digits of `n`, as `Number.prototype.toString` writes a non-negative integer. */
  function NatToString(n: nat): (s: string)
    ensures |s| >= 1
  {
    if n < 10 then [DigitChar(n)] else NatToString(n / 10) + [DigitChar(n % 10)]
  }

  function IntToString(x: int): string {
    if x < 0 then "-" + NatToString(-x) else NatToString(x)
  }

  const ID_PREFIX: string := "TXN"

  /** `'TXN' + Date.now() + Math.floor(Math.random() * 1000)`. */
  function TransactionId(stamp: Stamp): (id: string)
    ensures |id| > |ID_PREFIX| && id[..|ID_PREFIX|] == ID_PREFIX
  {
    ID_PREFIX + IntToString(stamp.now) + IntToString((stamp.draw * 1000.0).Floor)
  }

  /** `new Transaction(type, amount, accountNumber, description = '', targetAccount = null)`. */
  function NewTransaction(stamp: Stamp, txType: TxType, amount: real, accountNumber: int,
                          description: string := "", targetAccount: Option<int> := None): (t: Transaction)
    ensures t.txType == txType && t.amount == amount && t.accountNumber == accountNumber
    ensures t.description == description && t.targetAccount == targetAccount
    ensures t.timestamp == stamp.now
    ensures |t.id| > 3 && t.id[..3] == "TXN"
  {
    Transaction(TransactionId(stamp), txType, amount, accountNumber, targetAccount, description, stamp.now)
  }

  /** Without the two optional arguments a record has no target account and an empty description. */
  lemma NewTransactionDefaults(stamp: Stamp, txType: TxType, amount: real, accountNumber: int)
    ensures NewTransaction(stamp, txType, amount, accountNumber).targetAccount == None
    ensures NewTransaction(stamp, txType, amount, accountNumber).description == ""
  {
  }

  /** The record is recorded against `accountNumber` or names it as the transfer counterpart. */
  predicate Involves(t: Transaction, accountNumber: int) {
    t.accountNumber == accountNumber || t.targetAccount == Some(accountNumber)
  }

  /** `startDate <= t.timestamp <= endDate`: both ends inclusive. */
  predicate InDateRange(t: Transaction, startDate: int, endDate: int) {
    startDate <= t.timestamp <= endDate
  }

  predicate InAmountRange(t: Transaction, minAmount: real, maxAmount: real) {
    minAmount <= t.amount <= maxAmount
  }

  /** The tests above as predicates for filtering. */
  function HasType(txType: TxType): Transaction -> bool {
    (t: Transaction) => t.txType == txType
  }

  function InvolvesAccount(accountNumber: int): Transaction -> bool {
    (t: Transaction) => Involves(t, accountNumber)
  }

  function WithinDates(startDate: int, endDate: int): Transaction -> bool {
    (t: Transaction) => InDateRange(t, startDate, endDate)
  }

  /** Sort and sum keys. */
  function TimestampKey(t: Transaction): real { t.timestamp as real }
  function AmountKey(t: Transaction): real { t.amount }
}
