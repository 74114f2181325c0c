/**
 * The facade (js/SystemManager.js): one registry, one central log, one user directory
 * and one fraud detector, with session and ownership checks in front of the account
 * operations and an administrator check in front of freezing, unfreezing and deletion.
 * A thrown error is an `Err` result; the clock reading of a call is `stamp.now` (or `now`).
 */
module Banking {
  import opened Errors
  import opened Constants
  import opened Helpers
  import opened Transactions
  import opened Accounts
  import opened AccountManagement
  import opened TransactionLog
  import opened Fraud
  import opened Auth
  import opened TransactionFilters
  import opened Reports
  import Lists

  /** The session exists and its user has the account linked. */
  predicate Owns(users: map<string, User>, sessions: map<string, Session>, sessionId: string, accountNumber: int) {
    && sessionId in sessions
    && sessions[sessionId].userId in users
    && accountNumber in users[sessions[sessionId].userId].accountNumbers
  }

  /** The session exists and its user is an administrator. */
  predicate AdminSession(adminUsers: set<string>, sessions: map<string, Session>, sessionId: string) {
    sessionId in sessions && sessions[sessionId].userId in adminUsers
  }

  class SystemManager {
    const accountManager: AccountManager
    const transactionManager: TransactionManager
    const authManager: AuthManager
    const fraudDetector: FraudDetector

    ghost predicate Valid()
      reads this, accountManager, accountManager.accounts.Values, authManager, fraudDetector
    {
      accountManager.Valid() && authManager.Valid() && fraudDetector.Valid()
    }

    constructor ()
      ensures Valid()
      ensures fresh(accountManager) && fresh(transactionManager) && fresh(authManager) && fresh(fraudDetector)
      ensures accountManager.accounts == map[] && transactionManager.allTransactions == []
      ensures authManager.users == map[] && authManager.sessions == map[]
      ensures fraudDetector.suspiciousActivities == [] && fraudDetector.transactionHistory == map[]
    {
      accountManager := new AccountManager();
      transactionManager := new TransactionManager();
      authManager := new AuthManager();
      fraudDetector := new FraudDetector();
    }

    /**
     * `createAccount(sessionId, name, deposit, type)`: refuses an unknown session before
     * anything changes, then opens the account and links it to the session's user.
     */
    method CreateAccount(sessionId: string, holderName: string, initialDeposit: real, accountDraw: real, stamp: Stamp,
                         accountType: string := CHECKING)
      returns (r: Result<Account>)
      requires Valid()
      requires 0.0 <= accountDraw < 1.0
      modifies accountManager, authManager
      ensures Valid()
      ensures authManager.sessions == Touched(old(authManager.sessions), sessionId, stamp.now)
      ensures sessionId !in old(authManager.sessions) ==> r == Err(InvalidSession)
      ensures sessionId in old(authManager.sessions) ==>
        (r.Err? <==> holderName == "" || !IsValidAmount(initialDeposit))
      ensures authManager.adminUsers == old(authManager.adminUsers) && authManager.userOrder == old(authManager.userOrder)
      ensures r.Err? ==> accountManager.accounts == old(accountManager.accounts) && authManager.users == old(authManager.users)
      ensures r.Err? ==> accountManager.order == old(accountManager.order)
      ensures r.Ok? ==> accountManager.order == if r.value.accountNumber in old(accountManager.accounts) then old(accountManager.order)
                                                else old(accountManager.order) + [r.value.accountNumber]
      ensures r.Ok? ==>
        var userId := old(authManager.sessions)[sessionId].userId;
        && fresh(r.value)
        && accountManager.accounts == old(accountManager.accounts)[r.value.accountNumber := r.value]
        && r.value.accountType == accountType && r.value.balance == initialDeposit && !r.value.isFrozen
        && authManager.users == old(authManager.users)[userId :=
             old(authManager.users)[userId].(accountNumbers := Linked(old(authManager.users)[userId].accountNumbers, r.value.accountNumber))]
        && Owns(authManager.users, authManager.sessions, sessionId, r.value.accountNumber)
    {
      var session := authManager.ValidateSession(sessionId, stamp.now);
      if session.None? {
        return Err(InvalidSession);
      }
      r := accountManager.CreateAccount(holderName, initialDeposit, accountDraw, stamp, accountType);
      if r.Err? {
        return;
      }
      var again := authManager.ValidateSession(sessionId, stamp.now);
      TouchIdempotent(old(authManager.sessions), sessionId, stamp.now);
      var linked := authManager.LinkAccountToUser(again.value.userId, r.value.accountNumber);
    }

    /**
     * The two checks in front of an account operation: `validateSession`, then
     * `userOwnsAccount`, both at clock reading `now`.
     */
    method Authorize(sessionId: string, accountNumber: int, now: int) returns (r: Result<()>)
      requires authManager.Valid()
      modifies authManager
      ensures authManager.Valid()
      ensures authManager.sessions == Touched(old(authManager.sessions), sessionId, now)
      ensures authManager.users == old(authManager.users) && authManager.adminUsers == old(authManager.adminUsers)
      ensures authManager.userOrder == old(authManager.userOrder)
      ensures sessionId !in old(authManager.sessions) ==> r == Err(InvalidSession)
      ensures sessionId in old(authManager.sessions) && !Owns(old(authManager.users), old(authManager.sessions), sessionId, accountNumber) ==>
        r == Err(AccessDenied)
      ensures r.Ok? <==> Owns(old(authManager.users), old(authManager.sessions), sessionId, accountNumber)
    {
      var session := authManager.ValidateSession(sessionId, now);
      if session.None? {
        return Err(InvalidSession);
      }
      var owns := authManager.UserOwnsAccount(sessionId, accountNumber, now);
      TouchIdempotent(old(authManager.sessions), sessionId, now);
      if !owns {
        return Err(AccessDenied);
      }
      return Ok(());
    }

    /** What a successful operation leaves behind: its records appended to the central log in order, then `scanned` checked for fraud at `now`. */
    method Record(records: seq<Transaction>, scanned: Transaction, now: int)
      requires fraudDetector.Valid()
      modifies transactionManager, fraudDetector
      ensures fraudDetector.Valid()
      ensures transactionManager.allTransactions == old(transactionManager.allTransactions) + records
      ensures fraudDetector.transactionHistory == ConsecutiveStep(old(fraudDetector.transactionHistory), scanned, now).history
      ensures fraudDetector.suspiciousActivities ==
        old(fraudDetector.suspiciousActivities) + FraudAlerts(old(fraudDetector.transactionHistory), scanned, now)
    {
      var i := 0;
      while i < |records|
        invariant 0 <= i <= |records|
        invariant transactionManager.allTransactions == old(transactionManager.allTransactions) + records[..i]
        invariant unchanged(fraudDetector)
      {
        transactionManager.AddTransaction(records[i]);
        assert records[..i + 1] == records[..i] + [records[i]];
        i := i + 1;
      }
      assert records[..i] == records;
      var alerts := fraudDetector.DetectFraud(scanned, now);
    }

    /** The body of `deposit` once the checks have passed: the account's deposit, then, if it succeeded, the log and the fraud scan. */
    method DepositAndRecord(accountNumber: int, amount: real, stamp: Stamp) returns (r: Result<Transaction>)
      requires accountManager.Valid() && fraudDetector.Valid() && accountNumber in accountManager.accounts
      modifies accountManager.accounts.Values, transactionManager, fraudDetector
      ensures accountManager.Valid() && fraudDetector.Valid()
      ensures var step := DepositStep(old(accountManager.States())[accountNumber], accountNumber, amount, stamp);
        accountManager.States() == old(accountManager.States())[accountNumber := step.state] && r == step.result
      ensures transactionManager.allTransactions == old(transactionManager.allTransactions) + (if r.Ok? then [r.value] else [])
      ensures r.Ok? ==>
        && fraudDetector.transactionHistory == ConsecutiveStep(old(fraudDetector.transactionHistory), r.value, stamp.now).history
        && fraudDetector.suspiciousActivities ==
             old(fraudDetector.suspiciousActivities) + FraudAlerts(old(fraudDetector.transactionHistory), r.value, stamp.now)
      ensures r.Err? ==> unchanged(fraudDetector)
    {
      r := DepositTo(accountManager, accountNumber, amount, stamp);
      if r.Ok? {
        Record([r.value], r.value, stamp.now);
      }
    }

    /**
     * `deposit(sessionId, n, amount)`: an unknown session, then an account the session's
     * user does not own, then an unknown account are refused; otherwise the account's
     * deposit runs, and only a successful one is logged and scanned for fraud.
     */
    method Deposit(sessionId: string, accountNumber: int, amount: real, stamp: Stamp) returns (r: Result<Transaction>)
      requires Valid()
      modifies authManager, accountManager.accounts.Values, transactionManager, fraudDetector
      ensures Valid()
      ensures authManager.sessions == Touched(old(authManager.sessions), sessionId, stamp.now)
      ensures authManager.users == old(authManager.users)
      ensures authManager.adminUsers == old(authManager.adminUsers) && authManager.userOrder == old(authManager.userOrder)
      ensures sessionId !in old(authManager.sessions) ==> r == Err(InvalidSession)
      ensures sessionId in old(authManager.sessions) && !Owns(old(authManager.users), old(authManager.sessions), sessionId, accountNumber) ==>
        r == Err(AccessDenied)
      ensures Owns(old(authManager.users), old(authManager.sessions), sessionId, accountNumber) && accountNumber !in accountManager.accounts ==>
        r == Err(AccountNotFound)
      ensures !Owns(old(authManager.users), old(authManager.sessions), sessionId, accountNumber) || accountNumber !in accountManager.accounts ==>
        accountManager.States() == old(accountManager.States())
      ensures Owns(old(authManager.users), old(authManager.sessions), sessionId, accountNumber) && accountNumber in accountManager.accounts ==>
        var step := DepositStep(old(accountManager.States())[accountNumber], accountNumber, amount, stamp);
        accountManager.States() == old(accountManager.States())[accountNumber := step.state] && r == step.result
      ensures transactionManager.allTransactions == old(transactionManager.allTransactions) + (if r.Ok? then [r.value] else [])
      ensures r.Ok? ==>
        && fraudDetector.transactionHistory == ConsecutiveStep(old(fraudDetector.transactionHistory), r.value, stamp.now).history
        && fraudDetector.suspiciousActivities ==
             old(fraudDetector.suspiciousActivities) + FraudAlerts(old(fraudDetector.transactionHistory), r.value, stamp.now)
      ensures r.Err? ==> unchanged(fraudDetector)
    {
      var gate := Authorize(sessionId, accountNumber, stamp.now);
      if gate.Err? {
        return Err(gate.error);
      }
      var lookup := accountManager.GetAccount(accountNumber);
      if lookup.Err? {
        return Err(lookup.error);
      }
      r := DepositAndRecord(accountNumber, amount, stamp);
    }

    /** The body of `withdraw` once the checks have passed; a refused withdrawal skips the log and the scan. */
    method WithdrawAndRecord(accountNumber: int, amount: real, today: int, stamp: Stamp) returns (r: Result<Transaction>)
      requires accountManager.Valid() && fraudDetector.Valid() && accountNumber in accountManager.accounts
      modifies accountManager.accounts.Values, transactionManager, fraudDetector
      ensures accountManager.Valid() && fraudDetector.Valid()
      ensures var step := WithdrawStep(old(accountManager.States())[accountNumber], accountNumber, amount, today, stamp);
        accountManager.States() == old(accountManager.States())[accountNumber := step.state] && r == step.result
      ensures transactionManager.allTransactions == old(transactionManager.allTransactions) + (if r.Ok? then [r.value] else [])
      ensures r.Ok? ==>
        && fraudDetector.transactionHistory == ConsecutiveStep(old(fraudDetector.transactionHistory), r.value, stamp.now).history
        && fraudDetector.suspiciousActivities ==
             old(fraudDetector.suspiciousActivities) + FraudAlerts(old(fraudDetector.transactionHistory), r.value, stamp.now)
      ensures r.Err? ==> unchanged(fraudDetector)
    {
      r := WithdrawFrom(accountManager, accountNumber, amount, today, stamp);
      if r.Ok? {
        Record([r.value], r.value, stamp.now);
      }
    }

    /**
     * `withdraw(sessionId, n, amount)`, on calendar day `today`: the same checks as a
     * deposit. A refused withdrawal is rethrown: it is neither logged nor scanned, even
     * when the account itself charged and recorded the insufficient-funds fee.
     */
    method Withdraw(sessionId: string, accountNumber: int, amount: real, today: int, stamp: Stamp) returns (r: Result<Transaction>)
      requires Valid()
      modifies authManager, accountManager.accounts.Values, transactionManager, fraudDetector
      ensures Valid()
      ensures authManager.sessions == Touched(old(authManager.sessions), sessionId, stamp.now)
      ensures authManager.users == old(authManager.users)
      ensures authManager.adminUsers == old(authManager.adminUsers) && authManager.userOrder == old(authManager.userOrder)
      ensures sessionId !in old(authManager.sessions) ==> r == Err(InvalidSession)
      ensures sessionId in old(authManager.sessions) && !Owns(old(authManager.users), old(authManager.sessions), sessionId, accountNumber) ==>
        r == Err(AccessDenied)
      ensures Owns(old(authManager.users), old(authManager.sessions), sessionId, accountNumber) && accountNumber !in accountManager.accounts ==>
        r == Err(AccountNotFound)
      ensures !Owns(old(authManager.users), old(authManager.sessions), sessionId, accountNumber) || accountNumber !in accountManager.accounts ==>
        accountManager.States() == old(accountManager.States())
      ensures Owns(old(authManager.users), old(authManager.sessions), sessionId, accountNumber) && accountNumber in accountManager.accounts ==>
        var step := WithdrawStep(old(accountManager.States())[accountNumber], accountNumber, amount, today, stamp);
        accountManager.States() == old(accountManager.States())[accountNumber := step.state] && r == step.result
      ensures transactionManager.allTransactions == old(transactionManager.allTransactions) + (if r.Ok? then [r.value] else [])
      ensures r.Ok? ==>
        && fraudDetector.transactionHistory == ConsecutiveStep(old(fraudDetector.transactionHistory), r.value, stamp.now).history
        && fraudDetector.suspiciousActivities ==
             old(fraudDetector.suspiciousActivities) + FraudAlerts(old(fraudDetector.transactionHistory), r.value, stamp.now)
      ensures r.Err? ==> unchanged(fraudDetector)
    {
      var gate := Authorize(sessionId, accountNumber, stamp.now);
      if gate.Err? {
        return Err(gate.error);
      }
      var lookup := accountManager.GetAccount(accountNumber);
      if lookup.Err? {
        return Err(lookup.error);
      }
      r := WithdrawAndRecord(accountNumber, amount, today, stamp);
    }

    /** The body of `transfer` once the source's ownership is checked: the registry's transfer, then both records logged and the outgoing one scanned. */
    method TransferAndRecord(from: int, to: int, amount: real, fromStamp: Stamp, toStamp: Stamp) returns (r: Result<TransferPair>)
      requires accountManager.Valid() && fraudDetector.Valid()
      modifies accountManager.accounts.Values, transactionManager, fraudDetector
      ensures accountManager.Valid() && fraudDetector.Valid()
      ensures TransferOutcome(accountManager.States(), r) == TransferStep(old(accountManager.States()), from, to, amount, fromStamp, toStamp)
      ensures transactionManager.allTransactions ==
        old(transactionManager.allTransactions) + (if r.Ok? then [r.value.fromTransaction, r.value.toTransaction] else [])
      ensures r.Ok? ==>
        && fraudDetector.transactionHistory == ConsecutiveStep(old(fraudDetector.transactionHistory), r.value.fromTransaction, fromStamp.now).history
        && fraudDetector.suspiciousActivities ==
             old(fraudDetector.suspiciousActivities) + FraudAlerts(old(fraudDetector.transactionHistory), r.value.fromTransaction, fromStamp.now)
      ensures r.Err? ==> unchanged(fraudDetector)
    {
      r := accountManager.Transfer(from, to, amount, fromStamp, toStamp);
      if r.Ok? {
        Record([r.value.fromTransaction, r.value.toTransaction], r.value.fromTransaction, fromStamp.now);
      }
    }

    /**
     * `transfer(sessionId, from, to, amount)`: only the source must belong to the
     * session's user. Both records are logged, outgoing first; only the outgoing one is
     * scanned for fraud.
     */
    method Transfer(sessionId: string, from: int, to: int, amount: real, fromStamp: Stamp, toStamp: Stamp)
      returns (r: Result<TransferPair>)
      requires Valid()
      modifies authManager, accountManager.accounts.Values, transactionManager, fraudDetector
      ensures Valid()
      ensures authManager.sessions == Touched(old(authManager.sessions), sessionId, fromStamp.now)
      ensures authManager.users == old(authManager.users)
      ensures authManager.adminUsers == old(authManager.adminUsers) && authManager.userOrder == old(authManager.userOrder)
      ensures sessionId !in old(authManager.sessions) ==> r == Err(InvalidSession)
      ensures sessionId in old(authManager.sessions) && !Owns(old(authManager.users), old(authManager.sessions), sessionId, from) ==>
        r == Err(AccessDenied)
      ensures var ready := Owns(old(authManager.users), old(authManager.sessions), sessionId, from);
        var step := TransferStep(old(accountManager.States()), from, to, amount, fromStamp, toStamp);
        && accountManager.States() == (if ready then step.states else old(accountManager.States()))
        && (ready ==> r == step.result)
      ensures TotalBalance(accountManager.order, accountManager.States()) == TotalBalance(accountManager.order, old(accountManager.States()))
      ensures transactionManager.allTransactions ==
        old(transactionManager.allTransactions) + (if r.Ok? then [r.value.fromTransaction, r.value.toTransaction] else [])
      ensures r.Ok? ==>
        && fraudDetector.transactionHistory == ConsecutiveStep(old(fraudDetector.transactionHistory), r.value.fromTransaction, fromStamp.now).history
        && fraudDetector.suspiciousActivities ==
             old(fraudDetector.suspiciousActivities) + FraudAlerts(old(fraudDetector.transactionHistory), r.value.fromTransaction, fromStamp.now)
      ensures r.Err? ==> unchanged(fraudDetector)
    {
      var gate := Authorize(sessionId, from, fromStamp.now);
      if gate.Err? {
        return Err(gate.error);
      }
      r := TransferAndRecord(from, to, amount, fromStamp, toStamp);
      TransferConservesTotal(accountManager.order, old(accountManager.States()), from, to, amount, fromStamp, toStamp);
    }

    /**
     * `applyMonthlyInterest(n)`: no session is asked for. An unknown account, then a
     * non-savings account, is refused; credited interest is logged, but not scanned for fraud.
     */
    method ApplyMonthlyInterest(accountNumber: int, stamp: Stamp) returns (r: Result<Option<Transaction>>)
      requires Valid()
      modifies accountManager.accounts.Values, transactionManager
      ensures Valid()
      ensures accountNumber !in accountManager.accounts ==> r == Err(AccountNotFound)
      ensures accountNumber in accountManager.accounts && accountManager.accounts[accountNumber].accountType != SAVINGS ==>
        r == Err(NotSavings)
      ensures accountNumber !in accountManager.accounts || accountManager.accounts[accountNumber].accountType != SAVINGS ==>
        accountManager.States() == old(accountManager.States())
      ensures accountNumber in accountManager.accounts && accountManager.accounts[accountNumber].accountType == SAVINGS ==>
        && old(accountManager.States())[accountNumber].variant.Savings?
        && var step := ApplyInterestStep(old(accountManager.States())[accountNumber], accountNumber, stamp);
           && accountManager.States() == old(accountManager.States())[accountNumber := step.state]
           && r == step.result
      ensures transactionManager.allTransactions ==
        old(transactionManager.allTransactions) + (if r.Ok? && r.value.Some? then [r.value.value] else [])
    {
      var lookup := accountManager.GetAccount(accountNumber);
      if lookup.Err? {
        return Err(lookup.error);
      }
      var account := lookup.value;
      if account.accountType != SAVINGS {
        return Err(NotSavings);
      }
      r := ApplyInterestTo(accountManager, accountNumber, stamp);
      if r.Ok? && r.value.Some? {
        transactionManager.AddTransaction(r.value.value);
      }
    }

    /** `freezeAccount(sessionId, n)`: an administrator's session, then the registry's freeze with approval given. */
    method FreezeAccount(sessionId: string, accountNumber: int, now: int) returns (r: Result<()>)
      requires Valid()
      modifies authManager, accountManager.accounts.Values
      ensures Valid()
      ensures authManager.sessions == Touched(old(authManager.sessions), sessionId, now)
      ensures authManager.users == old(authManager.users)
      ensures authManager.adminUsers == old(authManager.adminUsers) && authManager.userOrder == old(authManager.userOrder)
      ensures !AdminSession(old(authManager.adminUsers), old(authManager.sessions), sessionId) ==> r == Err(AdminRequired)
      ensures AdminSession(old(authManager.adminUsers), old(authManager.sessions), sessionId) && accountNumber !in accountManager.accounts ==>
        r == Err(AccountNotFound)
      ensures r.Ok? <==> AdminSession(old(authManager.adminUsers), old(authManager.sessions), sessionId) && accountNumber in accountManager.accounts
      ensures accountManager.States() ==
        if r.Ok? then old(accountManager.States())[accountNumber := old(accountManager.States())[accountNumber].(isFrozen := true)]
        else old(accountManager.States())
    {
      var admin := authManager.IsAdmin(sessionId, now);
      if !admin {
        return Err(AdminRequired);
      }
      r := accountManager.FreezeAccount(accountNumber, true);
    }

    /** `unfreezeAccount(sessionId, n)`: an administrator's session, then the registry's unfreeze with approval given. */
    method UnfreezeAccount(sessionId: string, accountNumber: int, now: int) returns (r: Result<()>)
      requires Valid()
      modifies authManager, accountManager.accounts.Values
      ensures Valid()
      ensures authManager.sessions == Touched(old(authManager.sessions), sessionId, now)
      ensures authManager.users == old(authManager.users)
      ensures authManager.adminUsers == old(authManager.adminUsers) && authManager.userOrder == old(authManager.userOrder)
      ensures !AdminSession(old(authManager.adminUsers), old(authManager.sessions), sessionId) ==> r == Err(AdminRequired)
      ensures AdminSession(old(authManager.adminUsers), old(authManager.sessions), sessionId) && accountNumber !in accountManager.accounts ==>
        r == Err(AccountNotFound)
      ensures r.Ok? <==> AdminSession(old(authManager.adminUsers), old(authManager.sessions), sessionId) && accountNumber in accountManager.accounts
      ensures accountManager.States() ==
        if r.Ok? then old(accountManager.States())[accountNumber := old(accountManager.States())[accountNumber].(isFrozen := false)]
        else old(accountManager.States())
    {
      var admin := authManager.IsAdmin(sessionId, now);
      if !admin {
        return Err(AdminRequired);
      }
      r := accountManager.UnfreezeAccount(accountNumber, true);
    }

    /** `deleteAccount(sessionId, n)`: an administrator's session, then the registry's deletion with approval given. */
    method DeleteAccount(sessionId: string, accountNumber: int, now: int) returns (r: Result<()>)
      requires Valid()
      modifies authManager, accountManager
      ensures Valid()
      ensures authManager.sessions == Touched(old(authManager.sessions), sessionId, now)
      ensures authManager.users == old(authManager.users)
      ensures authManager.adminUsers == old(authManager.adminUsers) && authManager.userOrder == old(authManager.userOrder)
      ensures !AdminSession(old(authManager.adminUsers), old(authManager.sessions), sessionId) ==> r == Err(AdminRequired)
      ensures r.Ok? <==>
        && AdminSession(old(authManager.adminUsers), old(authManager.sessions), sessionId)
        && accountNumber in old(accountManager.accounts) && old(accountManager.accounts[accountNumber].balance) <= 0.0
      ensures r.Ok? ==> accountManager.accounts == old(accountManager.accounts) - {accountNumber}
                        && accountManager.order == Lists.Filter(old(accountManager.order), Other(accountNumber))
      ensures r.Err? ==> accountManager.accounts == old(accountManager.accounts) && accountManager.order == old(accountManager.order)
    {
      var admin := authManager.IsAdmin(sessionId, now);
      if !admin {
        return Err(AdminRequired);
      }
      r := accountManager.DeleteAccount(accountNumber, true);
    }

    /** Each registered account's `getAccountInfo()`, by number. */
    function AccountInfos(): (m: map<int, AccountInfo>)
      reads this, accountManager, accountManager.accounts.Values
      ensures m.Keys == accountManager.accounts.Keys
    {
      map n | n in accountManager.accounts :: accountManager.accounts[n].Info()
    }

    /** `generateAccountSummary(n)` over the registry and the central log. */
    function AccountSummary(accountNumber: int): AccountSummary
      reads this, accountManager, accountManager.accounts.Values, transactionManager
    {
      GenerateAccountSummary(AccountInfos(), transactionManager.allTransactions, accountNumber)
    }

    /** `generateAllAccountsOverview()` over the accounts in registry order. */
    function AllAccountsOverview(): Overview
      reads this, accountManager, accountManager.accounts.Values
      requires accountManager.Valid()
    {
      var all := accountManager.AllAccounts();
      Reports.AllAccountsOverview(seq(|all|, i requires 0 <= i < |all| reads all => all[i].Info()))
    }

    /** `generateTransactionReport(criteria)` over the central log. */
    function TransactionReport(criteria: Criteria): TransactionReport
      reads this, transactionManager
    {
      GenerateTransactionReport(transactionManager.allTransactions, criteria)
    }
  }
}
