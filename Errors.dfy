/** Option and Result wrappers, and the errors the bank's operations throw. */
module Errors {

  datatype Option<+T> = None | Some(value: T)

  /** Every `throw new Error(...)` of the ledger core, one constructor per distinct condition. */
  datatype Error =
    | MissingHolderOrDeposit      // Account constructor: no holder name or a non-positive initial deposit
    | AccountFrozen               // any operation on a frozen account
    | InvalidAmount               // non-positive deposit, withdrawal or transfer amount
    | DailyLimitExceeded          // today's withdrawals plus the amount exceed the daily limit
    | InsufficientFunds           // withdraw: balance below amount (the fee has been charged)
    | InsufficientFundsForTransfer // transfer: source balance below amount (no fee)
    | InvalidRate                 // negative interest rate
    | AccountNotFound             // unknown account number
    | ApprovalRequired            // freeze, unfreeze or delete without admin approval
    | PositiveBalance             // delete of an account whose balance is above zero
    | InvalidSession              // unknown session id
    | AccessDenied                // the session's user does not own the account
    | NotSavings                  // interest requested on a non-savings account
    | AdminRequired               // admin operation from a non-admin session
    | WeakPassword                // the password validator refused the password
    | DuplicateUsername           // createUser with a username already taken
    | BadCredentials              // login with an unknown username or a wrong password
    | UnknownUser                 // linkAccountToUser with an unknown user id
    | WrongOldPassword            // changePassword with a wrong old password

  datatype Result<+T> = Ok(value: T) | Err(error: Error)
}
