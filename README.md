# A verified model of a small in-memory bank

This project models the ledger engine of a small single-process bank written in
JavaScript. The engine has these parts:

- accounts, with a savings variant that earns monthly interest;
- a registry of accounts keyed by account number, which also performs transfers;
- a central append-only transaction log with its queries;
- a chainable transaction filter;
- a fraud detector that watches for large amounts and rapid bursts;
- users, sessions and administrators, with a password rule set and an int32 rolling hash;
- reports computed over the registry and the log;
- a facade, `SystemManager`, that checks the session and ownership (or admin rights) in
  front of every account operation, delegates it, logs the result and scans it for fraud.

The model keeps the shape of the source. Objects whose fields change in place are
Dafny classes with `modifies` clauses:

- `Account`, `AccountManager`, `TransactionManager`, `FraudDetector`, `AuthManager`, `SystemManager`.

Their rules are stated once, as pure step functions over values:

- `DepositStep`, `WithdrawStep`, `ApplyInterestStep`, `SetInterestRateStep`;
- `TransferStep`, `ConsecutiveStep`, `Touched`.

Each mutating method is proved to leave exactly the state, and return exactly the
result, that its step function gives for the old state. The properties the source
promises are then proved as lemmas about the step functions. Pure code (the filter, the
reports, the helpers, the transaction record) is a set of functions.

Representations:

- Amounts are `real`: no floating-point rounding.
- Timestamps are integer milliseconds, and the calendar day of a withdrawal is an integer
  day key `today`.
- What the source draws from the clock and from `Math.random` arrives as parameters:
  - a `Stamp(now, draw)` for each new transaction;
  - `accountDraw` for a new account number;
  - the caller-supplied `userId` and `sessionId`;
  - `now` for session activity and fraud alerts.
- A thrown `Error` is an `Err` result carrying one of the constructors of `Errors.Error`.

Behaviours a reader might not expect, as the code does them:

- `deposit` checks the frozen flag before the amount (js/Account.js:29-35).
- A withdrawal over the daily limit fails on the limit before the balance is looked at, so
  it charges no fee (`Accounts.OverLimitChargesNoFee`: 1500 from a fresh 1000 account).
- `deleteAccount` refuses only a balance above zero; zero and negative balances are
  deletable (js/AccountManager.js:111).
- A transfer from an account to itself is allowed. It appends two records and leaves the
  balance unchanged (js/AccountManager.js:38-69).
- The fee a failed withdrawal charges is recorded in the account's history, but it never
  reaches the central log or the fraud detector (js/SystemManager.js:74-85).

## Model

| member | source | states |
|---|---|---|
| Helpers.ValidAmountBoundary | js/Helpers.js:9-11 | an amount is valid iff it is above zero: 0 is refused, 0.01 accepted |
| Helpers.WithinTimeFrameInMilliseconds | js/Helpers.js:17-21 | the window test holds iff the gap in milliseconds is at most `minutes * 60000` |
| Helpers.WithinTimeFrameSymmetric | js/Helpers.js:17-21 | the window test does not depend on the order of its two timestamps |
| Helpers.WithinTimeFrameInclusive | js/Helpers.js:17-21 | equal timestamps and timestamps exactly `minutes` apart are inside the window; one millisecond more is outside |
| Helpers.GenerateAccountNumber | js/Helpers.js:1-3 | every draw in [0, 1) gives a number in [1000000000, 9999999999] |
| Lists.Filter | js/TransactionFilter.js:6-10 | `filter` keeps exactly the elements satisfying the predicate, as an order-preserving subsequence no longer than the input |
| Lists.FilterFilter | js/TransactionManager.js:28-33 | filtering by one predicate and then another equals filtering once by their conjunction |
| Lists.FilterExtensional | js/TransactionFilter.js:36-42 | predicates that agree on the elements filter alike |
| Lists.FilterAll | js/TransactionFilter.js:36-42 | a predicate true of every element keeps the whole sequence |
| Lists.Insert | js/TransactionFilter.js:44-56 | inserting into an ordered sequence keeps it ordered and adds exactly the element |
| Lists.SortBy | js/TransactionFilter.js:44-56 | the sort by a numeric key returns a permutation of its input, ordered ascending or descending as asked |
| Lists.PrefixOrdered | js/TransactionManager.js:35-40 | a prefix of an ordered sequence is ordered |
| Lists.SortedHeadIsMax | js/TransactionManager.js:35-40 | the head of a descending sort has the largest key of all the input |
| Lists.Take | js/TransactionFilter.js:58-62 | `slice(0, n)` is a prefix of length `min(n, len)`, or `max(len + n, 0)` for negative `n` |
| Lists.SumOfAppend | js/TransactionFilter.js:72-74 | the `reduce` sum of a concatenation is the sum of the sums |
| Lists.SumOfPositive | js/TransactionFilter.js:72-74 | the `reduce` sum from 0 of no terms is 0, and of positive terms is positive |
| Lists.SumOfPartition | js/TransactionFilter.js:72-74 | the sum splits into the sum of the elements satisfying a predicate and the sum of the rest |
| Lists.CountOf | js/TransactionManager.js:50-69 | a count of matching elements is at most the length |
| Lists.CountIsFilterLength | js/ReportGenerator.js:33-35 | counting the matching elements equals the length of the filtered sequence |
| Lists.FilterCons | js/TransactionFilter.js:6-10 | filtering a non-empty sequence keeps its head iff the head matches, then filters the rest |
| Lists.FilterSplitLast | js/TransactionManager.js:8-10 | filtering a non-empty sequence filters all but the last element, then keeps the last iff it matches |
| Text.LowerChar | js/TransactionFilter.js:39 | `toLowerCase` on one character maps A-Z to a-z and keeps every other character |
| Text.Lower | js/TransactionFilter.js:39 | lower-casing keeps the length and lower-cases each character |
| Text.LowerIdempotent | js/TransactionFilter.js:39 | lower-casing twice is lower-casing once |
| Text.Includes | js/TransactionFilter.js:39 | `includes` is true iff the needle occurs at some position of the haystack |
| Transactions.NatToString | js/Transaction.js:14-16 | a number's decimal text is never empty |
| Transactions.TransactionId | js/Transaction.js:14-16 | every transaction id starts with "TXN" and is longer than the prefix |
| Transactions.NewTransaction | js/Transaction.js:4-12 | type, amount, account number, description and target are stored as passed; the timestamp is the clock reading; the id starts with "TXN" |
| Transactions.NewTransactionDefaults | js/Transaction.js:4 | without the optional arguments the target account is none and the description is empty |
| SavingsAccount.MonthlyInterest | js/SavingsAccount.js:12-19 | the interest is 0 at or below the 500 threshold and exactly balance times rate above it; with a non-negative rate it is positive iff eligible and the rate is positive |
| SavingsAccount.InterestThresholdBoundary | js/SavingsAccount.js:13-15 | a balance of exactly 500 earns nothing; 500.01 earns 500.01 times the rate |
| SavingsAccount.NotEligibleEarnsNothing | js/SavingsAccount.js:61 | a balance the snapshot reports as not eligible earns no interest |
| Accounts.FeeTransaction | js/Account.js:60-66 | the fee record is a withdrawal of 5 on the account |
| Accounts.DepositStep | js/Account.js:28-41 | frozen is refused first, then a non-positive amount, both without change; otherwise the balance rises by the amount and exactly the returned deposit record is appended |
| Accounts.WithdrawStep | js/Account.js:43-74 | frozen, amount and daily-limit failures change nothing; over the balance the fee of 5 is deducted and recorded and the call still fails; on success balance, day total and history move by the amount; the day totals stay within 500 |
| Accounts.ApplyInterestStep | js/SavingsAccount.js:21-42 | frozen is refused without change; positive interest is credited, recorded, returned and dates the payment; zero interest returns none and changes nothing; the balance never falls |
| Accounts.SetInterestRateStep | js/SavingsAccount.js:48-53 | a negative rate is refused without change; any other rate, zero included, is stored; the account stays a savings account and a non-negative rate stays non-negative |
| Accounts.RepeatedFeesDriveBalanceDown | js/Account.js:60-66 | `n` over-balance attempts lower the balance by exactly `5 n`, leave the day total unchanged, add `n` records and can make the balance negative |
| Accounts.DailyLimitExhausted | js/Account.js:53-58 | once a day's withdrawals reach 500 exactly, any further withdrawal that day fails and changes nothing |
| Accounts.OverLimitChargesNoFee | js/Account.js:53-66 | withdrawing 1500 from a fresh account of 1000 fails on the daily limit and charges no fee |
| Accounts.Account.Open | js/Account.js:6-22 | a new account holds the initial deposit, is not frozen, has no day totals and exactly one deposit record for that amount |
| Accounts.Account.OpenSavings | js/SavingsAccount.js:6-10 | a new savings account is of type savings with rate 0.02, and otherwise opens like a plain account |
| Accounts.Account.AddTransaction | js/Account.js:24-26 | appends the record and changes no other field |
| Accounts.Account.Deposit | js/Account.js:28-41 | the new state and the result are those of `DepositStep` on the old state |
| Accounts.Account.Withdraw | js/Account.js:43-74 | the new state and the result are those of `WithdrawStep` on the old state |
| Accounts.Account.Freeze | js/Account.js:76-78 | only the frozen flag changes, to true |
| Accounts.Account.Unfreeze | js/Account.js:80-82 | only the frozen flag changes, to false |
| Accounts.Account.ApplyMonthlyInterest | js/SavingsAccount.js:21-42 | the new state and the result are those of `ApplyInterestStep` on the old state |
| Accounts.Account.SetInterestRate | js/SavingsAccount.js:48-53 | the new state and the result are those of `SetInterestRateStep` on the old state |
| Accounts.Account.Info | js/SavingsAccount.js:55-63 | the snapshot reports the balance, flag and type; it has savings fields iff the account is a savings account, with `eligibleForInterest` true iff the balance is above 500 |
| Accounts.NewAccount | js/Account.js:6-22 | fails iff the holder name is missing or the initial deposit is not positive; otherwise a fresh plain account with one deposit record |
| Accounts.NewSavingsAccount | js/SavingsAccount.js:6-10 | the same checks, then a fresh savings account with rate 0.02 |
| AccountManagement.OutgoingTransfer | js/AccountManager.js:51-57 | the outgoing record is a transfer of the amount on `from` naming `to` |
| AccountManagement.IncomingTransfer | js/AccountManager.js:62-68 | the incoming record is a transfer of the amount on `to` naming `from` |
| AccountManagement.TransferStep | js/AccountManager.js:33-75 | succeeds iff the amount is valid, both accounts exist, neither is frozen and `from` covers the amount; each failure, in that order, changes nothing and charges no fee; on success `from` loses and `to` gains the amount with one record each (a self-transfer keeps the balance and gets both records); other accounts are untouched |
| AccountManagement.TransferStepStates | js/AccountManager.js:50-69 | any states that change the two accounts as a successful transfer does, and nothing else, are the states `TransferStep` gives |
| AccountManagement.TotalBalanceShift | js/AccountManager.js:50-61 | moving `d` from one account to another leaves the total over distinct keys unchanged |
| AccountManagement.TransferConservesTotal | js/AccountManager.js:33-75 | a transfer, successful or not, leaves the sum of all balances unchanged |
| AccountManagement.MoveFunds | js/AccountManager.js:50-69 | debits `from` with its record, then credits `to` with its record; on one account both records land and the balance is unchanged |
| AccountManagement.AccountManager.States | js/AccountManager.js:97-99 | there is one state per registered account number |
| AccountManagement.AccountManager.constructor | js/AccountManager.js:6-10 | the registry starts empty |
| AccountManagement.AccountManager.CreateAccount | js/AccountManager.js:12-23 | fails iff the holder or deposit is invalid, with no change; otherwise a savings account iff the type is savings, stored under its own number |
| AccountManagement.AccountManager.GetAccount | js/AccountManager.js:25-31 | fails with not-found iff the number is absent, otherwise returns the stored account |
| AccountManagement.AccountManager.Transfer | js/AccountManager.js:33-75 | the new states and the result are those of `TransferStep`; the total balance is unchanged |
| AccountManagement.AccountManager.FreezeAccount | js/AccountManager.js:77-85 | without approval it fails, then an unknown account fails, with no change; otherwise only that account's flag becomes true |
| AccountManagement.AccountManager.UnfreezeAccount | js/AccountManager.js:87-95 | without approval it fails, then an unknown account fails, with no change; otherwise only that account's flag becomes false |
| AccountManagement.AccountManager.DeleteAccount | js/AccountManager.js:105-117 | fails without approval, for an unknown account, or for a balance above zero; otherwise removes exactly that key and keeps the others in order |
| AccountManagement.AccountManager.AllAccounts | js/AccountManager.js:97-99 | lists the stored accounts in insertion order |
| AccountManagement.AccountManager.AccountsCount | js/AccountManager.js:101-103 | the map's size equals the number of accounts `getAllAccounts` lists |
| AccountManagement.AccountsOf | js/AccountManager.js:97-99 | lists the accounts stored under the keys, in key order |
| AccountManagement.FilterKeepsDistinct | js/AccountManager.js:115 | removing one key from distinct keys leaves distinct keys |
| AccountManagement.DistinctKeysCount | js/AccountManager.js:101-103 | distinct keys listing exactly a set are as many as the set's elements |
| AccountManagement.DepositTo | js/SystemManager.js:59-60 | depositing into a registered account changes that account as `DepositStep` says and no other |
| AccountManagement.WithdrawFrom | js/SystemManager.js:73-75 | withdrawing from a registered account changes that account as `WithdrawStep` says and no other |
| AccountManagement.ApplyInterestTo | js/SystemManager.js:105-109 | interest on a registered savings account changes that account as `ApplyInterestStep` says and no other |
| TransactionLog.TypeCountsAddUp | js/TransactionManager.js:50-69 | the counts of the four types add up to the length of the log |
| TransactionLog.FindFirst | js/TransactionManager.js:46-48 | `find` returns the first record with the id, and nothing iff no record has it |
| TransactionLog.TransactionManager.constructor | js/TransactionManager.js:4-6 | the log starts empty |
| TransactionLog.TransactionManager.AddTransaction | js/TransactionManager.js:8-10 | appends at the end and keeps every earlier record in order |
| TransactionLog.TransactionManager.ByAccount | js/TransactionManager.js:12-16 | exactly the records made on the account or naming it as target, in log order |
| TransactionLog.TransactionManager.ByType | js/TransactionManager.js:18-20 | exactly the records of the type, in log order |
| TransactionLog.TransactionManager.ByDateRange | js/TransactionManager.js:22-26 | exactly the records within the inclusive range, in log order; an empty range gives nothing |
| TransactionLog.TransactionManager.ByAccountAndDateRange | js/TransactionManager.js:28-33 | exactly the records involving the account within the inclusive range, in log order |
| TransactionLog.TransactionManager.AccountAndDateRangeIsComposition | js/TransactionManager.js:28-33 | the combined query equals the account query narrowed by the date range |
| TransactionLog.TransactionManager.RecentTransactions | js/TransactionManager.js:35-40 | a prefix of the account's records sorted newest first: `min(count, n)` records of the account, ordered, the first being the newest |
| TransactionLog.TransactionManager.TransactionById | js/TransactionManager.js:46-48 | the first record of the log with that id, or nothing iff no record has it |
| TransactionLog.TransactionManager.TransactionStats | js/TransactionManager.js:50-69 | `total` is the length, `totalAmount` the sum of amounts, each type's count is the number of records of that type, and a type is listed iff it occurs |
| TransactionLog.StatsCountsAddUp | js/TransactionManager.js:50-69 | the per-type counts of the stats add up to `total` |
| TransactionFilters.FilterByType | js/TransactionFilter.js:6-10 | exactly the records of the type, as an order-preserving subsequence |
| TransactionFilters.FilterByDateRange | js/TransactionFilter.js:12-18 | exactly the records within the inclusive date range, order kept |
| TransactionFilters.FilterByAccount | js/TransactionFilter.js:20-26 | exactly the records on the account or naming it as target, order kept |
| TransactionFilters.FilterByAmountRange | js/TransactionFilter.js:28-34 | exactly the records within the inclusive amount range, order kept |
| TransactionFilters.FilterByDescription | js/TransactionFilter.js:36-42 | exactly the records whose lower-cased description contains the lower-cased keyword, order kept |
| TransactionFilters.DescriptionFilterIgnoresKeywordCase | js/TransactionFilter.js:39 | the keyword's case does not change the result |
| TransactionFilters.EmptyKeywordKeepsAll | js/TransactionFilter.js:39 | the empty keyword keeps every record |
| TransactionFilters.TypeAndAccountFiltersCommute | js/TransactionFilter.js:6-26 | filtering by type then account equals filtering by account then type |
| TransactionFilters.SortByDate | js/TransactionFilter.js:44-49 | a permutation of the input ordered by timestamp as asked |
| TransactionFilters.SortByAmount | js/TransactionFilter.js:51-56 | a permutation of the input ordered by amount as asked |
| TransactionFilters.Limit | js/TransactionFilter.js:58-62 | a prefix of the records of length `min(n, count)` |
| TransactionFilters.TotalAmount | js/TransactionFilter.js:72-74 | the sum of no records is 0; a non-empty sum of positive amounts is positive |
| TransactionFilters.TotalAmountSplitsByType | js/TransactionFilter.js:72-74 | the total amount is the total of one type plus the total of the others |
| TransactionFilters.NextStage | js/TransactionFilter.js:82-116 | a filter that adds one test to the tests already applied leaves exactly the records passing all of them |
| TransactionFilters.StageAddsTest | js/TransactionFilter.js:82-116 | each of the six filters, applied after the ones before it, leaves exactly the records passing the tests so far |
| TransactionFilters.ApplyCriteria | js/TransactionFilter.js:82-116 | the filter chain equals one filter by `Matches`: the input's order and multiplicities are kept, and exactly the records passing every test the criteria switch on remain |
| TransactionFilters.AdvancedFilter | js/TransactionFilter.js:82-119 | a permutation of the input filtered by `Matches`, each record as often as in the input, newest first |
| TransactionFilters.NoCriteriaIsPermutation | js/TransactionFilter.js:83-118 | with no criteria every record comes back, as often as before, sorted newest first |
| Fraud.LargeAlert | js/FraudDetector.js:10-24 | an alert exactly when the amount is strictly above 10000, carrying the record's id, account, amount and time |
| Fraud.Pushed | js/FraudDetector.js:34-39 | the window gains the entry at its end and drops its oldest when it would exceed three |
| Fraud.ConsecutiveStep | js/FraudDetector.js:27-64 | only the transaction's account's window changes; an alert iff the pushed window holds three entries each within five minutes of the next, and then the window is emptied; otherwise it is the pushed window; windows stay at most three long |
| Fraud.ConsecutiveAlertReportsNewest | js/FraudDetector.js:42-61 | an alert reports three entries ending with the new one, adjacent ones at most five minutes apart |
| Fraud.ThreeQuickTransactionsAlertOnce | js/FraudDetector.js:27-64 | three quick transactions on a fresh account alert on the third only, and the next one starts a new window |
| Fraud.FraudDetector.constructor | js/FraudDetector.js:4-7 | no alerts and no windows |
| Fraud.FraudDetector.CheckLargeTransaction | js/FraudDetector.js:10-24 | returns `LargeAlert` and appends it when present; windows unchanged |
| Fraud.FraudDetector.CheckConsecutiveTransactions | js/FraudDetector.js:27-64 | the windows and the alert are those of `ConsecutiveStep`, and the alert is appended when present |
| Fraud.FraudDetector.DetectFraud | js/FraudDetector.js:67-83 | the large alert then the consecutive alert, appended in that order; the windows follow `ConsecutiveStep` |
| Fraud.FraudDetector.SuspiciousActivities | js/FraudDetector.js:85-87 | the alerts raised since the last clear, oldest first |
| Fraud.FraudDetector.ClearSuspiciousActivities | js/FraudDetector.js:89-91 | empties the alert list and leaves the windows alone |
| Passwords.StrongMeansNoRuleFails | js/PasswordValidator.js:38-42 | a password is strong iff no rule fails |
| Passwords.RankedErrorsAtMostSix | js/PasswordValidator.js:6-36 | errors in rule order are at most six |
| Passwords.CheckNext | js/PasswordValidator.js:6-36 | checking the next rule extends the errors with exactly that rule's failure |
| Passwords.AllRulesChecked | js/PasswordValidator.js:6-42 | after all six rules the errors are exactly the failures, and none means strong |
| Passwords.Validate | js/PasswordValidator.js:2-43 | the errors are exactly the failed rules, in the order length, upper, lower, digit, special, common; at most six; valid iff none, iff strong |
| Passwords.CommonCheckIgnoresCase | js/PasswordValidator.js:30-36 | a password whose lower-cased form is on the list is refused whatever its case |
| Auth.Wrap32 | js/AuthManager.js:17 | `ToInt32` lands in [-2^31, 2^31) and keeps values already in range |
| Auth.Wrap32AddLeft | js/AuthManager.js:16-17 | wrapping before an addition does not change the wrapped sum |
| Auth.ModuloShift | js/AuthManager.js:16-17 | subtracting a multiple of 2^32 does not change the remainder |
| Auth.HashOf | js/AuthManager.js:11-20 | the rolling hash is an int32 |
| Auth.Linked | js/AuthManager.js:117-126 | the account is present afterwards, nothing else is added, the old list is a prefix, and no duplicate appears |
| Auth.LinkIdempotent | js/AuthManager.js:121-123 | linking an account twice is linking it once |
| Auth.AddingNewNameKeepsNamesUnique | js/AuthManager.js:31-35 | storing a user with an unused name keeps usernames unique |
| Auth.Touched | js/AuthManager.js:95-104 | a known session's last activity moves to `now` and keeps its user; the set of sessions is unchanged |
| Auth.TouchIdempotent | js/AuthManager.js:95-104 | validating a session twice at one time is validating it once |
| Auth.AddUserKeepsConsistent | js/AuthManager.js:40-54 | adding a new user keeps ids, usernames and account lists consistent and admins and sessions referring to users |
| Auth.AuthManager.constructor | js/AuthManager.js:4-8 | no users, sessions or admins |
| Auth.AuthManager.HashPassword | js/AuthManager.js:11-20 | the loop computes `HashOf`: `h := int32(31 h + code)` from 0 |
| Auth.AuthManager.FindUserByUsername | js/AuthManager.js:172-179 | a user is returned iff one has the name, and it is the stored user with that name |
| Auth.AuthManager.CreateUser | js/AuthManager.js:23-57 | refuses a weak password, then a taken name, without change; otherwise adds exactly the user with no accounts, made admin iff the role is admin, at the end of the user order unless the name was already listed |
| Auth.AuthManager.Login | js/AuthManager.js:60-83 | succeeds iff a user has the name and the password's hash, adding one session for that user and stamping the login |
| Auth.AuthManager.Logout | js/AuthManager.js:86-92 | true iff the session existed; it is removed |
| Auth.AuthManager.ValidateSession | js/AuthManager.js:95-104 | the session iff it exists, with its activity stamped |
| Auth.AuthManager.IsAdmin | js/AuthManager.js:107-114 | false for an unknown session, otherwise whether its user is an admin |
| Auth.AuthManager.LinkAccountToUser | js/AuthManager.js:117-126 | refuses an unknown user without change; otherwise links the account without duplicating it |
| Auth.AuthManager.UserOwnsAccount | js/AuthManager.js:129-137 | true iff the session exists and its user's accounts include the number |
| Auth.AuthManager.ChangePassword | js/AuthManager.js:140-161 | refuses an unknown session, then a wrong old password, then a weak new one, leaving the hash; otherwise stores the new password's hash |
| Reports.AllAccountsOverview | js/ReportGenerator.js:28-39 | totals the accounts, sums their balances, counts checking, savings and frozen accounts (each at most the total, checking plus savings at most the total) and lists the accounts in registry order |
| Reports.TypeCountsAtMostTotal | js/ReportGenerator.js:33-34 | the checking and savings counts together are at most the number of accounts |
| Reports.GenerateAccountSummary | js/ReportGenerator.js:10-26 | an error iff the account is unknown; otherwise the account's record count, deposit and withdrawal totals, and its latest records: the first at most five of its records sorted newest first |
| Reports.OtherTypeLeavesTotal | js/ReportGenerator.js:17-20 | a record of another type leaves a type's total unchanged |
| Reports.SameTypeAddsAmount | js/ReportGenerator.js:17-20 | a record of the type adds its amount to the type's total |
| Reports.MineAfterAppend | js/ReportGenerator.js:12-14 | logging a record adds it to an account's records iff it involves the account |
| Reports.TransfersAndInterestNotSummed | js/ReportGenerator.js:17-20 | logging a transfer or an interest record leaves an account's deposit and withdrawal totals unchanged |
| Reports.DepositIsSummed | js/ReportGenerator.js:17-18 | logging a deposit on the account raises its deposit total by the amount |
| Reports.GenerateTransactionReport | js/ReportGenerator.js:41-59 | a permutation of the log filtered by the criteria, newest first, counted and summed |
| Banking.SystemManager.constructor | js/SystemManager.js:9-15 | an empty registry, log, user directory and fraud detector |
| Banking.SystemManager.CreateAccount | js/SystemManager.js:39-46 | refuses an invalid session first; then fails iff the holder or deposit is invalid; otherwise stores the new account, appends its number to the registry order unless it was already there, and links it to the session's user, who then owns it; a failure changes neither registry nor users; admins and user order never change |
| Banking.SystemManager.Authorize | js/SystemManager.js:53-58 | succeeds iff the session exists and its user owns the account; an invalid session is reported before missing ownership |
| Banking.SystemManager.Record | js/SystemManager.js:97-100 | appends the records to the log and fraud-scans one of them |
| Banking.SystemManager.DepositAndRecord | js/SystemManager.js:59-63 | the account follows `DepositStep`; only a successful deposit is logged and scanned |
| Banking.SystemManager.Deposit | js/SystemManager.js:52-64 | session, then ownership, then the account's rules; a successful deposit, and only it, is logged and fraud-scanned; the user directory, admins and user order are unchanged |
| Banking.SystemManager.WithdrawAndRecord | js/SystemManager.js:73-85 | the account follows `WithdrawStep`; only a successful withdrawal is logged and scanned, so the fee of a failed one stays out of the log |
| Banking.SystemManager.Withdraw | js/SystemManager.js:66-86 | session, then ownership, then the account's rules; a failed withdrawal leaves the log and the fraud state unchanged; the user directory, admins and user order are unchanged |
| Banking.SystemManager.TransferAndRecord | js/SystemManager.js:97-100 | the registry follows `TransferStep`; on success both records are logged, from then to, and only the outgoing one is scanned |
| Banking.SystemManager.Transfer | js/SystemManager.js:88-102 | session, then ownership of the source only, then the transfer rules; the total balance is unchanged; the user directory, admins and user order are unchanged |
| Banking.SystemManager.ApplyMonthlyInterest | js/SystemManager.js:104-114 | an unknown account, then a non-savings account, is refused; the account follows `ApplyInterestStep`; a refused account leaves every balance as it was; only paid interest is logged, and nothing is scanned |
| Banking.SystemManager.FreezeAccount | js/SystemManager.js:117-122 | refused unless the session is an admin's; then the registry's freeze with approval; the user directory, admins and user order are unchanged |
| Banking.SystemManager.UnfreezeAccount | js/SystemManager.js:124-129 | refused unless the session is an admin's; then the registry's unfreeze with approval; the user directory, admins and user order are unchanged |
| Banking.SystemManager.DeleteAccount | js/SystemManager.js:131-136 | refused unless the session is an admin's; then the registry's deletion with approval: on success the key is gone and the registry order loses exactly it; the user directory, admins and user order are unchanged |
| Banking.SystemManager.AccountInfos | js/SystemManager.js:139-149 | one snapshot per registered account |

## Left out

- The clock, `Math.random`, `toDateString()` and the generated user and session ids are
  parameters (`Stamp`, `accountDraw`, `now`, `today`, `userId`, `sessionId`). So what happens
  when two random ids collide is not modelled, beyond a new account replacing a stored one
  with the same number.
- Amounts are exact reals. JavaScript floating-point rounding, `NaN` and `Infinity` are not
  modelled, and the `typeof amount === 'number'` test of `isValidAmount` always holds.
- `toLowerCase` is modelled on the ASCII letters only. The regular expressions of the
  password rules are the character-class predicates.
- Characters are Unicode scalar values, not UTF-16 code units. Text outside the Basic
  Multilingual Plane is therefore not counted or hashed as JavaScript does it: such a
  character counts once toward the password's minimum length of 8, where `length` counts two
  surrogates, and `hashPassword` folds in its scalar value, where `charCodeAt` folds in each
  surrogate in turn.
- The error and alert message texts are not modelled; errors are constructors of
  `Errors.Error`, and record descriptions are English renderings of the source's texts.
- The password hash is stored as the int32 number, not as its decimal string.
- Sort stability is not proved; the sorts are specified as ordered permutations.
- `getTransactions`, `getResults`, `count` and `getAllTransactions` return copies of a
  sequence. Sequences are values here, so these are the field or the sequence itself and
  have no member of their own. `getSuspiciousActivities` is `Fraud.FraudDetector.SuspiciousActivities`.
- `createFilter`, and the `TransactionFilter` object wrapper, are not modelled separately:
  a filter is its sequence of records.
- `getUserInfo` and `getUserStats` of the user directory are read-only views that the
  bank's core operations do not use; they are not part of this model.
- The `SystemManager` pass-throughs (`createUser`, `login`, `logout`, `getUserInfo`,
  `changePassword`, `getAccount`, the fraud getters and the plain getters) are modelled on
  the component they delegate to.
- Banking.SystemManager.AccountSummary, AllAccountsOverview and TransactionReport only delegate to
  the report functions; they have no contract of their own, and the properties live on
  `Reports.GenerateAccountSummary`, `Reports.AllAccountsOverview` and `Reports.GenerateTransactionReport`.
- Fraud.FraudAlerts names the alerts `detectFraud` raises and is stated through
  `Fraud.FraudDetector.DetectFraud`.
- `generateFraudReport` is a placeholder with no logic.
- `Transaction.toString`, `formatCurrency`, `toFixed`, `toISOString` and locale date strings
  (formatting) are not modelled. The transaction report keeps the records' fields as they are.
- The optional `interestRate` argument of the savings-account constructor is not modelled:
  the registry never passes it, so every savings account opens at 0.02.
- The user interface and bootstrap (js/app.js, js/main.js) are not part of this model.
- There is no concurrency: the source is single-threaded, and so is the model.
