/**
 * The reports (js/ReportGenerator.js), as functions of a snapshot of the registry
 * (each account's `getAccountInfo()`, in registry order or by number) and of the log.
 */
module Reports {
  import opened Errors
  import opened Constants
  import opened Transactions
  import opened Accounts
  import opened TransactionFilters
  import Lists

  /** `generateAllAccountsOverview()`. */
  datatype Overview = Overview(
    totalAccounts: nat,
    totalBalance: real,
    checkingAccounts: nat,
    savingsAccounts: nat,
    frozenAccounts: nat,
    accountsSummary: seq<AccountInfo>)

  function BalanceOf(info: AccountInfo): real { info.balance }

  function OfType(accountType: string): AccountInfo -> bool {
    (info: AccountInfo) => info.accountType == accountType
  }

  function IsFrozen(info: AccountInfo): bool { info.isFrozen }

  /** Over the accounts in registry order: how many, their balances summed, how many of each type and how many frozen. */
  function AllAccountsOverview(accounts: seq<AccountInfo>): (o: Overview)
    ensures o.totalAccounts == |accounts|
    ensures o.totalBalance == Lists.SumOf(accounts, BalanceOf)
    ensures o.checkingAccounts == |Lists.Filter(accounts, OfType(CHECKING))| <= o.totalAccounts
    ensures o.savingsAccounts == |Lists.Filter(accounts, OfType(SAVINGS))| <= o.totalAccounts
    ensures o.frozenAccounts == |Lists.Filter(accounts, IsFrozen)| <= o.totalAccounts
    ensures o.checkingAccounts + o.savingsAccounts <= o.totalAccounts
    ensures o.accountsSummary == accounts
  {
    Lists.CountIsFilterLength(accounts, OfType(CHECKING));
    Lists.CountIsFilterLength(accounts, OfType(SAVINGS));
    TypeCountsAtMostTotal(accounts);
    Overview(
      |accounts|,
      Lists.SumOf(accounts, BalanceOf),
      |Lists.Filter(accounts, OfType(CHECKING))|,
      |Lists.Filter(accounts, OfType(SAVINGS))|,
      |Lists.Filter(accounts, IsFrozen)|,
      accounts)
  }

  /** No account is both checking and savings, so the two counts together are at most the total. */
  lemma {:induction false} TypeCountsAtMostTotal(accounts: seq<AccountInfo>)
    ensures Lists.CountOf(accounts, OfType(CHECKING)) + Lists.CountOf(accounts, OfType(SAVINGS)) <= |accounts|
  {
    if accounts != [] {
      TypeCountsAtMostTotal(accounts[..|accounts| - 1]);
      assert CHECKING != SAVINGS by {
        assert CHECKING[0] != SAVINGS[0];
      }
    }
  }

  /** `generateAccountSummary(n)`: the account's figures, or the error that `getAccount` threw. */
  datatype AccountSummary =
    | Summary(
        accountInfo: AccountInfo,
        transactionCount: nat,
        totalDeposits: real,
        totalWithdrawals: real,
        latestTransactions: seq<Transaction>)
    | SummaryError(error: Error)

  const LATEST_COUNT: nat := 5

  /** The sum of the amounts of the records of one type. */
  function TotalOfType(ts: seq<Transaction>, txType: TxType): real {
    Lists.SumOf(Lists.Filter(ts, HasType(txType)), AmountKey)
  }

  /**
   * Over the registry by number and the log: the account's records (made on it or
   * naming it as target), the deposits and the withdrawals among them summed, and the
   * five newest; an unknown number gives the not-found error instead of a throw.
   */
  function GenerateAccountSummary(accounts: map<int, AccountInfo>, log: seq<Transaction>, accountNumber: int): (r: AccountSummary)
    ensures r.SummaryError? <==> accountNumber !in accounts
    ensures r.SummaryError? ==> r.error == AccountNotFound
    ensures r.Summary? ==>
      var mine := Lists.Filter(log, InvolvesAccount(accountNumber));
      && r.accountInfo == accounts[accountNumber]
      && r.transactionCount == |mine|
      && r.totalDeposits == TotalOfType(mine, TxType.Deposit)
      && r.totalWithdrawals == TotalOfType(mine, TxType.Withdrawal)
      && r.latestTransactions <= Lists.SortBy(mine, TimestampKey, false)
      && |r.latestTransactions| == Lists.Min(LATEST_COUNT, |mine|)
      && Lists.Ordered(r.latestTransactions, TimestampKey, false)
      && (forall t :: t in r.latestTransactions ==> t in log && Involves(t, accountNumber))
      && (r.latestTransactions != [] ==> forall t :: t in mine ==> t.timestamp <= r.latestTransactions[0].timestamp)
  {
    if accountNumber !in accounts then
      SummaryError(AccountNotFound)
    else
      var mine := Lists.Filter(log, InvolvesAccount(accountNumber));
      var sorted := Lists.SortBy(mine, TimestampKey, false);
      var latest := Lists.Take(sorted, LATEST_COUNT);
      Lists.PrefixOrdered(latest, sorted, TimestampKey, false);
      assert forall t :: t in latest ==> t in mine by {
        forall t | t in latest ensures t in mine {
          assert t in multiset(sorted);
        }
      }
      assert latest != [] ==> forall t :: t in mine ==> TimestampKey(t) <= TimestampKey(latest[0]) by {
        if latest != [] {
          Lists.SortedHeadIsMax(mine, TimestampKey);
        }
      }
      Summary(accounts[accountNumber], |mine|, TotalOfType(mine, TxType.Deposit), TotalOfType(mine, TxType.Withdrawal), latest)
  }

  /** A record of another type leaves a per-type total unchanged. */
  lemma OtherTypeLeavesTotal(ts: seq<Transaction>, t: Transaction, txType: TxType)
    requires t.txType != txType
    ensures TotalOfType(ts + [t], txType) == TotalOfType(ts, txType)
  {
    var s := ts + [t];
    assert s[..|s| - 1] == ts;
    assert s[|s| - 1] == t;
    assert !HasType(txType)(t);
    Lists.FilterSplitLast(s, HasType(txType));
    assert Lists.Filter(s, HasType(txType)) == Lists.Filter(ts, HasType(txType));
  }

  /** A record of the type adds its amount to that type's total. */
  lemma SameTypeAddsAmount(ts: seq<Transaction>, t: Transaction)
    ensures TotalOfType(ts + [t], t.txType) == TotalOfType(ts, t.txType) + t.amount
  {
    var s := ts + [t];
    assert s[..|s| - 1] == ts;
    Lists.FilterSplitLast(s, HasType(t.txType));
    Lists.SumOfAppend(Lists.Filter(ts, HasType(t.txType)), [t], AmountKey);
    assert [t][..0] == [];
  }

  /** Logging one more record adds it to an account's records exactly when it involves the account. */
  lemma MineAfterAppend(log: seq<Transaction>, t: Transaction, accountNumber: int)
    ensures Lists.Filter(log + [t], InvolvesAccount(accountNumber))
         == Lists.Filter(log, InvolvesAccount(accountNumber)) + (if Involves(t, accountNumber) then [t] else [])
  {
    var s := log + [t];
    assert s[..|s| - 1] == log;
    assert s[|s| - 1] == t;
    Lists.FilterSplitLast(s, InvolvesAccount(accountNumber));
  }

  /**
   * Transfers and interest never reach the summary's deposit and withdrawal totals:
   * logging one, on any account, leaves both totals as they were.
   */
  lemma TransfersAndInterestNotSummed(accounts: map<int, AccountInfo>, log: seq<Transaction>, accountNumber: int, t: Transaction)
    requires accountNumber in accounts
    requires t.txType == TxType.Transfer || t.txType == TxType.Interest
    ensures GenerateAccountSummary(accounts, log + [t], accountNumber).totalDeposits
         == GenerateAccountSummary(accounts, log, accountNumber).totalDeposits
    ensures GenerateAccountSummary(accounts, log + [t], accountNumber).totalWithdrawals
         == GenerateAccountSummary(accounts, log, accountNumber).totalWithdrawals
  {
    MineAfterAppend(log, t, accountNumber);
    var mine := Lists.Filter(log, InvolvesAccount(accountNumber));
    if Involves(t, accountNumber) {
      OtherTypeLeavesTotal(mine, t, TxType.Deposit);
      OtherTypeLeavesTotal(mine, t, TxType.Withdrawal);
    } else {
      assert mine + [] == mine;
    }
  }

  /** A deposit recorded on the account raises its summary's deposit total by the amount. */
  lemma DepositIsSummed(accounts: map<int, AccountInfo>, log: seq<Transaction>, accountNumber: int, t: Transaction)
    requires accountNumber in accounts
    requires t.txType == TxType.Deposit && t.accountNumber == accountNumber
    ensures GenerateAccountSummary(accounts, log + [t], accountNumber).totalDeposits
         == GenerateAccountSummary(accounts, log, accountNumber).totalDeposits + t.amount
  {
    MineAfterAppend(log, t, accountNumber);
    SameTypeAddsAmount(Lists.Filter(log, InvolvesAccount(accountNumber)), t);
  }

  /** `generateTransactionReport(criteria)`: the records' fields are kept; their ISO date formatting is not modelled. */
  datatype TransactionReport = TransactionReport(totalTransactions: nat, totalAmount: real, transactions: seq<Transaction>)

  /** The log through `advancedFilter` and `sortByDate(false)`: exactly the matching records, newest first, counted and summed. */
  function GenerateTransactionReport(log: seq<Transaction>, criteria: Criteria): (r: TransactionReport)
    ensures r.totalTransactions == |r.transactions|
    ensures r.totalAmount == Lists.SumOf(r.transactions, AmountKey)
    ensures forall t :: t in r.transactions <==> t in log && Matches(t, criteria)
    ensures multiset(r.transactions) == multiset(Lists.Filter(log, Matching(criteria)))
    ensures Lists.Ordered(r.transactions, TimestampKey, false)
    ensures |r.transactions| <= |log|
  {
    var advanced := AdvancedFilter(log, criteria);
    var filtered := SortByDate(advanced, false);
    assert forall t :: t in filtered <==> t in advanced by {
      forall t ensures t in filtered <==> t in advanced {
        assert t in filtered <==> t in multiset(filtered);
      }
    }
    assert |filtered| == |multiset(filtered)| == |advanced|;
    TransactionReport(|filtered|, Lists.SumOf(filtered, AmountKey), filtered)
  }
}
