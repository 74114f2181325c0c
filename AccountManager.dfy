/**
 * The account registry (js/AccountManager.js): accounts keyed by account number in a
 * map that remembers insertion order, and the transfer between two of them. The
 * transfer's rules are the pure `TransferStep` over the accounts' states; the
 * `AccountManager` class mutates the two accounts in place and is proved to follow it.
 */
module AccountManagement {
  import opened Errors
  import opened Constants
  import opened Helpers
  import opened Transactions
  import opened Accounts
  import Lists

  /** The two records of a successful transfer. */
  datatype TransferPair = TransferPair(fromTransaction: Transaction, toTransaction: Transaction)

  datatype TransferOutcome = TransferOutcome(states: map<int, AccountState>, result: Result<TransferPair>)

  function TransferOutDescription(to: int): string { "Transfer to " + IntToString(to) }
  function TransferInDescription(from: int): string { "Transfer from " + IntToString(from) }

  /** The outgoing record, on `from`, naming `to`. */
  function OutgoingTransfer(from: int, to: int, amount: real, stamp: Stamp): (t: Transaction)
    ensures t.txType == Transfer && t.amount == amount && t.accountNumber == from && t.targetAccount == Some(to)
  {
    NewTransaction(stamp, Transfer, amount, from, TransferOutDescription(to), Some(to))
  }

  /** The incoming record, on `to`, naming `from`. */
  function IncomingTransfer(from: int, to: int, amount: real, stamp: Stamp): (t: Transaction)
    ensures t.txType == Transfer && t.amount == amount && t.accountNumber == to && t.targetAccount == Some(from)
  {
    NewTransaction(stamp, Transfer, amount, to, TransferInDescription(from), Some(from))
  }

  /** The checks of `transfer`, in the source's order, all of which must pass. */
  predicate TransferAllowed(states: map<int, AccountState>, from: int, to: int, amount: real) {
    && IsValidAmount(amount)
    && from in states && to in states
    && !states[from].isFrozen && !states[to].isFrozen
    && states[from].balance >= amount
  }

  /**
   * `transfer(from, to, amount)`: the amount is checked before either account is looked
   * up; frozen accounts and a short balance are refused without any fee. On success the
   * source is debited and the target credited, one record each; `from == to` is allowed.
   */
  function TransferStep(states: map<int, AccountState>, from: int, to: int, amount: real, fromStamp: Stamp, toStamp: Stamp)
    : (o: TransferOutcome)
    ensures o.result.Ok? <==> TransferAllowed(states, from, to, amount)
    ensures !IsValidAmount(amount) ==> o == TransferOutcome(states, Err(InvalidAmount))
    ensures IsValidAmount(amount) && (from !in states || to !in states) ==> o == TransferOutcome(states, Err(AccountNotFound))
    ensures IsValidAmount(amount) && from in states && to in states && (states[from].isFrozen || states[to].isFrozen) ==>
      o == TransferOutcome(states, Err(AccountFrozen))
    ensures IsValidAmount(amount) && from in states && to in states && !states[from].isFrozen && !states[to].isFrozen
            && states[from].balance < amount ==>
      o == TransferOutcome(states, Err(InsufficientFundsForTransfer))
    ensures o.states.Keys == states.Keys
    ensures forall n :: n in states && n != from && n != to ==> o.states[n] == states[n]
    ensures o.result.Ok? ==>
      && o.result.value.fromTransaction == OutgoingTransfer(from, to, amount, fromStamp)
      && o.result.value.toTransaction == IncomingTransfer(from, to, amount, toStamp)
    ensures o.result.Ok? && from != to ==>
      && o.states[from] == states[from].(balance := states[from].balance - amount,
                                        history := states[from].history + [o.result.value.fromTransaction])
      && o.states[to] == states[to].(balance := states[to].balance + amount,
                                    history := states[to].history + [o.result.value.toTransaction])
    ensures o.result.Ok? && from == to ==>
      o.states[from] == states[from].(history := states[from].history + [o.result.value.fromTransaction, o.result.value.toTransaction])
  {
    if !IsValidAmount(amount) then TransferOutcome(states, Err(InvalidAmount))
    else if from !in states || to !in states then TransferOutcome(states, Err(AccountNotFound))
    else if states[from].isFrozen || states[to].isFrozen then TransferOutcome(states, Err(AccountFrozen))
    else if states[from].balance < amount then TransferOutcome(states, Err(InsufficientFundsForTransfer))
    else
      var out := OutgoingTransfer(from, to, amount, fromStamp);
      var debited := states[from := states[from].(balance := states[from].balance - amount, history := states[from].history + [out])];
      var inc := IncomingTransfer(from, to, amount, toStamp);
      var credited := debited[to := debited[to].(balance := debited[to].balance + amount, history := debited[to].history + [inc])];
      assert from == to ==> states[from].history + [out] + [inc] == states[from].history + [out, inc];
      TransferOutcome(credited, Ok(TransferPair(out, inc)))
  }

  /** The states that `TransferStep` produces on success, described account by account. */
  lemma TransferStepStates(before: map<int, AccountState>, after: map<int, AccountState>, from: int, to: int, amount: real,
                           fromStamp: Stamp, toStamp: Stamp)
    requires TransferAllowed(before, from, to, amount)
    requires after.Keys == before.Keys
    requires forall n :: n in before && n != from && n != to ==> after[n] == before[n]
    requires from != to ==>
      && after[from] == before[from].(balance := before[from].balance - amount,
                                      history := before[from].history + [OutgoingTransfer(from, to, amount, fromStamp)])
      && after[to] == before[to].(balance := before[to].balance + amount,
                                  history := before[to].history + [IncomingTransfer(from, to, amount, toStamp)])
    requires from == to ==>
      after[from] == before[from].(history := before[from].history + [OutgoingTransfer(from, to, amount, fromStamp),
                                                                      IncomingTransfer(from, to, amount, toStamp)])
    ensures after == TransferStep(before, from, to, amount, fromStamp, toStamp).states
  {
  }

  /** The sum of the balances of the accounts listed in `keys`. */
  function TotalBalance(keys: seq<int>, states: map<int, AccountState>): real
    requires forall n :: n in keys ==> n in states
  {
    if keys == [] then 0.0
    else
      var last := keys[|keys| - 1];
      assert last in keys;
      TotalBalance(keys[..|keys| - 1], states) + states[last].balance
  }

  /** Changing only the balances of `from` and `to` by `-d` and `+d` keeps the total over distinct keys. */
  lemma {:induction false} TotalBalanceShift(keys: seq<int>, states: map<int, AccountState>, after: map<int, AccountState>,
                                             from: int, to: int, d: real)
    requires Lists.Distinct(keys)
    requires forall n :: n in keys ==> n in states && n in after
    requires forall n :: n in keys && n != from && n != to ==> after[n].balance == states[n].balance
    requires from in states && to in states && from in after && to in after
    requires from != to ==> after[from].balance == states[from].balance - d && after[to].balance == states[to].balance + d
    requires from == to ==> after[from].balance == states[from].balance
    ensures TotalBalance(keys, after) == TotalBalance(keys, states)
              - (if from in keys && from != to then d else 0.0) + (if to in keys && from != to then d else 0.0)
  {
    if keys != [] {
      var init := keys[..|keys| - 1];
      var last := keys[|keys| - 1];
      assert Lists.Distinct(init);
      assert forall n :: n in init ==> n in keys;
      TotalBalanceShift(init, states, after, from, to, d);
      assert from in keys <==> from in init || from == last;
      assert to in keys <==> to in init || to == last;
      assert forall i :: 0 <= i < |init| ==> init[i] != last;
    }
  }

  /**
   * A transfer, successful or not, leaves the total balance of all accounts unchanged:
   * money moves between the two accounts and is neither created nor destroyed.
   */
  lemma TransferConservesTotal(keys: seq<int>, states: map<int, AccountState>, from: int, to: int, amount: real,
                               fromStamp: Stamp, toStamp: Stamp)
    requires Lists.Distinct(keys)
    requires forall n :: n in keys <==> n in states
    ensures var o := TransferStep(states, from, to, amount, fromStamp, toStamp);
            (forall n :: n in keys ==> n in o.states) && TotalBalance(keys, o.states) == TotalBalance(keys, states)
  {
    var o := TransferStep(states, from, to, amount, fromStamp, toStamp);
    if o.result.Ok? {
      assert from in states && to in states;
      TotalBalanceShift(keys, states, o.states, from, to, amount);
    }
  }

  /**
   * The two mutations of a transfer that has passed its checks: the debit with its
   * outgoing record, then the credit with its incoming record (both on one account
   * when it transfers to itself).
   */
  method MoveFunds(fromAccount: Account, toAccount: Account, amount: real, withdrawal: Transaction, deposit: Transaction)
    requires fromAccount.Valid() && toAccount.Valid()
    modifies fromAccount, toAccount
    ensures fromAccount.Valid() && toAccount.Valid()
    ensures fromAccount != toAccount ==>
      && fromAccount.State() == old(fromAccount.State()).(balance := old(fromAccount.balance) - amount,
                                                         history := old(fromAccount.transactions) + [withdrawal])
      && toAccount.State() == old(toAccount.State()).(balance := old(toAccount.balance) + amount,
                                                     history := old(toAccount.transactions) + [deposit])
    ensures fromAccount == toAccount ==>
      fromAccount.State() == old(fromAccount.State()).(history := old(fromAccount.transactions) + [withdrawal, deposit])
    ensures fromAccount.variant == old(fromAccount.variant) && toAccount.variant == old(toAccount.variant)
  {
    fromAccount.balance := fromAccount.balance - amount;
    fromAccount.AddTransaction(withdrawal);
    toAccount.balance := toAccount.balance + amount;
    toAccount.AddTransaction(deposit);
  }

  class AccountManager {
    /** `accounts`: the registry map. */
    var accounts: map<int, Account>
    /** The registry's keys in insertion order, the order in which a JavaScript Map iterates. */
    var order: seq<int>

    ghost predicate Valid()
      reads this, accounts.Values
    {
      && (forall n :: n in order <==> n in accounts)
      && (forall i :: 0 <= i < |order| ==> order[i] in accounts)
      && Lists.Distinct(order)
      && (forall n :: n in accounts ==> accounts[n].accountNumber == n && accounts[n].Valid())
      && (forall n :: n in accounts ==> (accounts[n].accountType == SAVINGS <==> accounts[n].variant.Savings?))
    }

    /** Every registered account's state, by account number. */
    function States(): (m: map<int, AccountState>)
      reads this, accounts.Values
      ensures m.Keys == accounts.Keys
    {
      map n | n in accounts :: accounts[n].State()
    }

    constructor ()
      ensures Valid() && accounts == map[] && order == []
    {
      accounts := map[];
      order := [];
    }

    /**
     * `createAccount(name, initialDeposit, type)`: a savings account exactly when the
     * type is savings, otherwise a plain account of the given type, stored under its
     * own number (replacing any account that drew the same number).
     */
    method CreateAccount(holderName: string, initialDeposit: real, accountDraw: real, stamp: Stamp, accountType: string := CHECKING)
      returns (r: Result<Account>)
      requires Valid()
      requires 0.0 <= accountDraw < 1.0
      modifies this
      ensures Valid()
      ensures r.Err? <==> holderName == "" || !IsValidAmount(initialDeposit)
      ensures r.Err? ==> r.error == MissingHolderOrDeposit && accounts == old(accounts) && order == old(order)
      ensures r.Ok? ==> fresh(r.value)
      ensures r.Ok? ==> accounts == old(accounts)[r.value.accountNumber := r.value]
      ensures r.Ok? ==> order == if r.value.accountNumber in old(accounts) then old(order) else old(order) + [r.value.accountNumber]
      ensures r.Ok? ==> (r.value.variant.Savings? <==> accountType == SAVINGS) && r.value.accountType == accountType
      ensures r.Ok? ==> r.value.balance == initialDeposit && !r.value.isFrozen && r.value.accountHolderName == holderName
      ensures r.Ok? ==> r.value.accountNumber == GenerateAccountNumber(accountDraw)
    {
      if accountType == SAVINGS {
        r := NewSavingsAccount(accountDraw, holderName, initialDeposit, stamp);
      } else {
        r := NewAccount(accountDraw, holderName, initialDeposit, accountType, stamp);
      }
      if r.Err? {
        return;
      }
      var account := r.value;
      if account.accountNumber !in accounts {
        order := order + [account.accountNumber];
      }
      accounts := accounts[account.accountNumber := account];
    }

    /** `getAccount(n)`: the stored account, or AccountNotFound. */
    function GetAccount(accountNumber: int): (r: Result<Account>)
      reads this
      ensures r.Ok? <==> accountNumber in accounts
      ensures r.Ok? ==> r.value == accounts[accountNumber]
      ensures r.Err? ==> r.error == AccountNotFound
    {
      if accountNumber in accounts then Ok(accounts[accountNumber]) else Err(AccountNotFound)
    }

    method Transfer(from: int, to: int, amount: real, fromStamp: Stamp, toStamp: Stamp) returns (r: Result<TransferPair>)
      requires Valid()
      modifies accounts.Values
      ensures Valid()
      ensures TransferOutcome(States(), r) == TransferStep(old(States()), from, to, amount, fromStamp, toStamp)
      ensures TotalBalance(order, States()) == TotalBalance(order, old(States()))
    {
      ghost var before := States();
      if !IsValidAmount(amount) {
        return Err(InvalidAmount);
      }
      var fromLookup := GetAccount(from);
      if fromLookup.Err? {
        return Err(fromLookup.error);
      }
      var toLookup := GetAccount(to);
      if toLookup.Err? {
        return Err(toLookup.error);
      }
      var fromAccount, toAccount := fromLookup.value, toLookup.value;
      if fromAccount.isFrozen || toAccount.isFrozen {
        return Err(AccountFrozen);
      }
      if fromAccount.balance < amount {
        return Err(InsufficientFundsForTransfer);
      }

      var withdrawalTransaction := OutgoingTransfer(from, to, amount, fromStamp);
      var depositTransaction := IncomingTransfer(from, to, amount, toStamp);
      MoveFunds(fromAccount, toAccount, amount, withdrawalTransaction, depositTransaction);
      r := Ok(TransferPair(withdrawalTransaction, depositTransaction));
      ghost var after := States();
      forall n | n in before && n != from && n != to
        ensures after[n] == before[n]
      {
        assert accounts[n].accountNumber == n;
      }
      forall n | n in accounts
        ensures accounts[n].Valid() && (accounts[n].accountType == SAVINGS <==> accounts[n].variant.Savings?)
      {
        if n != from && n != to {
          assert accounts[n] != fromAccount && accounts[n] != toAccount;
        }
      }
      TransferStepStates(before, after, from, to, amount, fromStamp, toStamp);
      TransferConservesTotal(order, before, from, to, amount, fromStamp, toStamp);
    }

    /** `freezeAccount(n, adminApproval)`: needs the approval flag, then an existing account. */
    method FreezeAccount(accountNumber: int, adminApproval: bool) returns (r: Result<()>)
      requires Valid()
      modifies accounts.Values
      ensures Valid()
      ensures !adminApproval ==> r == Err(ApprovalRequired)
      ensures adminApproval && accountNumber !in accounts ==> r == Err(AccountNotFound)
      ensures r.Ok? <==> adminApproval && accountNumber in accounts
      ensures States() == if r.Ok? then old(States())[accountNumber := old(States())[accountNumber].(isFrozen := true)]
                          else old(States())
    {
      if !adminApproval {
        return Err(ApprovalRequired);
      }
      var lookup := GetAccount(accountNumber);
      if lookup.Err? {
        return Err(lookup.error);
      }
      ghost var before := States();
      lookup.value.Freeze();
      r := Ok(());
      assert States() == before[accountNumber := before[accountNumber].(isFrozen := true)] by {
        forall n | n in accounts
          ensures States()[n] == before[accountNumber := before[accountNumber].(isFrozen := true)][n]
        {
          if n != accountNumber {
            assert accounts[n] != lookup.value;
          }
        }
      }
    }

    /** `unfreezeAccount(n, adminApproval)`: needs the approval flag, then an existing account. */
    method UnfreezeAccount(accountNumber: int, adminApproval: bool) returns (r: Result<()>)
      requires Valid()
      modifies accounts.Values
      ensures Valid()
      ensures !adminApproval ==> r == Err(ApprovalRequired)
      ensures adminApproval && accountNumber !in accounts ==> r == Err(AccountNotFound)
      ensures r.Ok? <==> adminApproval && accountNumber in accounts
      ensures States() == if r.Ok? then old(States())[accountNumber := old(States())[accountNumber].(isFrozen := false)]
                          else old(States())
    {
      if !adminApproval {
        return Err(ApprovalRequired);
      }
      var lookup := GetAccount(accountNumber);
      if lookup.Err? {
        return Err(lookup.error);
      }
      ghost var before := States();
      lookup.value.Unfreeze();
      r := Ok(());
      assert States() == before[accountNumber := before[accountNumber].(isFrozen := false)] by {
        forall n | n in accounts
          ensures States()[n] == before[accountNumber := before[accountNumber].(isFrozen := false)][n]
        {
          if n != accountNumber {
            assert accounts[n] != lookup.value;
          }
        }
      }
    }

    /**
     * `deleteAccount(n, adminApproval)`: needs the approval flag and an existing account,
     * and refuses only a balance above zero; removes that one key and keeps the order of the rest.
     */
    method DeleteAccount(accountNumber: int, adminApproval: bool) returns (r: Result<()>)
      requires Valid()
      modifies this
      ensures Valid()
      ensures !adminApproval ==> r == Err(ApprovalRequired)
      ensures adminApproval && accountNumber !in old(accounts) ==> r == Err(AccountNotFound)
      ensures adminApproval && accountNumber in old(accounts) && old(accounts[accountNumber].balance) > 0.0 ==> r == Err(PositiveBalance)
      ensures r.Ok? <==> adminApproval && accountNumber in old(accounts) && old(accounts[accountNumber].balance) <= 0.0
      ensures r.Ok? ==> accounts == old(accounts) - {accountNumber} && order == Lists.Filter(old(order), Other(accountNumber))
      ensures r.Err? ==> accounts == old(accounts) && order == old(order)
    {
      if !adminApproval {
        return Err(ApprovalRequired);
      }
      var lookup := GetAccount(accountNumber);
      if lookup.Err? {
        return Err(lookup.error);
      }
      if lookup.value.balance > 0.0 {
        return Err(PositiveBalance);
      }
      accounts := accounts - {accountNumber};
      order := Lists.Filter(order, Other(accountNumber));
      FilterKeepsDistinct(old(order), accountNumber);
      return Ok(());
    }

    /** `getAllAccounts()`: the accounts in insertion order. */
    function AllAccounts(): (all: seq<Account>)
      reads this
      requires forall i :: 0 <= i < |order| ==> order[i] in accounts
      ensures |all| == |order|
      ensures forall i :: 0 <= i < |order| ==> all[i] == accounts[order[i]]
    {
      AccountsOf(order, accounts)
    }

    /** `getAccountsCount()`: the map's size, which is the number of accounts `getAllAccounts` lists. */
    function AccountsCount(): (n: nat)
      reads this, accounts.Values
      requires Valid()
      ensures n == |AllAccounts()|
    {
      DistinctKeysCount(order, accounts.Keys);
      |accounts|
    }
  }

  /** The keys other than `k`. */
  function Other(k: int): int -> bool {
    (n: int) => n != k
  }

  /** The accounts stored under `keys`, in that order. */
  function AccountsOf(keys: seq<int>, m: map<int, Account>): (all: seq<Account>)
    requires forall i :: 0 <= i < |keys| ==> keys[i] in m
    ensures |all| == |keys|
    ensures forall i :: 0 <= i < |keys| ==> all[i] == m[keys[i]]
  {
    if keys == [] then [] else [m[keys[0]]] + AccountsOf(keys[1..], m)
  }

  /** Removing one key from a list of distinct keys leaves a list of distinct keys. */
  lemma {:induction false} FilterKeepsDistinct(keys: seq<int>, k: int)
    requires Lists.Distinct(keys)
    ensures Lists.Distinct(Lists.Filter(keys, Other(k)))
  {
    if keys != [] {
      FilterKeepsDistinct(keys[1..], k);
      var rest := Lists.Filter(keys[1..], Other(k));
      assert forall i :: 0 <= i < |keys[1..]| ==> keys[1..][i] != keys[0] by {
        forall i | 0 <= i < |keys[1..]| ensures keys[1..][i] != keys[0] {
          assert keys[1..][i] == keys[i + 1];
        }
      }
      assert keys[0] !in rest;
    }
  }

  /** A list of distinct keys that lists exactly the keys of a set is as long as the set is large. */
  lemma {:induction false} DistinctKeysCount(keys: seq<int>, s: set<int>)
    requires Lists.Distinct(keys)
    requires forall n :: n in keys <==> n in s
    ensures |keys| == |s|
  {
    if keys != [] {
      var last := keys[|keys| - 1];
      var init := keys[..|keys| - 1];
      assert forall i :: 0 <= i < |init| ==> init[i] != last;
      assert forall n :: n in init <==> n in s - {last} by {
        forall n ensures n in init <==> n in s - {last} {
          if n in init {
            var i :| 0 <= i < |init| && init[i] == n;
            assert keys[i] == n;
          }
          if n in s - {last} {
            assert n in keys;
            var i :| 0 <= i < |keys| && keys[i] == n;
            assert i < |keys| - 1;
            assert init[i] == n;
          }
        }
      }
      DistinctKeysCount(init, s - {last});
    } else {
      assert forall n :: n !in s;
    }
  }

  /** `getAccount(n).deposit(amount)` on a registered account: the registry stays valid and only that account follows `DepositStep`. */
  method DepositTo(m: AccountManager, accountNumber: int, amount: real, stamp: Stamp) returns (r: Result<Transaction>)
    requires m.Valid() && accountNumber in m.accounts
    modifies m.accounts.Values
    ensures m.Valid()
    ensures var step := DepositStep(old(m.States())[accountNumber], accountNumber, amount, stamp);
            m.States() == old(m.States())[accountNumber := step.state] && r == step.result
  {
    var account := m.accounts[accountNumber];
    ghost var before := account.State();
    assert before == m.States()[accountNumber];
    r := account.Deposit(amount, stamp);
    ghost var step := DepositStep(before, accountNumber, amount, stamp);
    assert step.state == account.State() && step.result == r;
    forall n | n in m.accounts
      ensures m.accounts[n].Valid() && (m.accounts[n].accountType == SAVINGS <==> m.accounts[n].variant.Savings?)
      ensures m.States()[n] == old(m.States())[accountNumber := step.state][n]
    {
      if n != accountNumber {
        assert m.accounts[n] != account;
      }
    }
    assert m.States() == old(m.States())[accountNumber := step.state];
  }

  /** `getAccount(n).withdraw(amount)` on a registered account, on calendar day `today`. */
  method WithdrawFrom(m: AccountManager, accountNumber: int, amount: real, today: int, stamp: Stamp) returns (r: Result<Transaction>)
    requires m.Valid() && accountNumber in m.accounts
    modifies m.accounts.Values
    ensures m.Valid()
    ensures var step := WithdrawStep(old(m.States())[accountNumber], accountNumber, amount, today, stamp);
            m.States() == old(m.States())[accountNumber := step.state] && r == step.result
  {
    var account := m.accounts[accountNumber];
    ghost var before := account.State();
    assert before == m.States()[accountNumber];
    r := account.Withdraw(amount, today, stamp);
    ghost var step := WithdrawStep(before, accountNumber, amount, today, stamp);
    assert step.state == account.State() && step.result == r;
    forall n | n in m.accounts
      ensures m.accounts[n].Valid() && (m.accounts[n].accountType == SAVINGS <==> m.accounts[n].variant.Savings?)
      ensures m.States()[n] == old(m.States())[accountNumber := step.state][n]
    {
      if n != accountNumber {
        assert m.accounts[n] != account;
      }
    }
    assert m.States() == old(m.States())[accountNumber := step.state];
  }

  /** `getAccount(n).applyMonthlyInterest()` on a registered savings account. */
  method ApplyInterestTo(m: AccountManager, accountNumber: int, stamp: Stamp) returns (r: Result<Option<Transaction>>)
    requires m.Valid() && accountNumber in m.accounts && m.accounts[accountNumber].accountType == SAVINGS
    modifies m.accounts.Values
    ensures m.Valid()
    ensures old(m.States())[accountNumber].variant.Savings?
    ensures var step := ApplyInterestStep(old(m.States())[accountNumber], accountNumber, stamp);
            m.States() == old(m.States())[accountNumber := step.state] && r == step.result
  {
    var account := m.accounts[accountNumber];
    ghost var before := account.State();
    assert before == m.States()[accountNumber];
    r := account.ApplyMonthlyInterest(stamp);
    ghost var step := ApplyInterestStep(before, accountNumber, stamp);
    assert step.state == account.State() && step.result == r;
    forall n | n in m.accounts
      ensures m.accounts[n].Valid() && (m.accounts[n].accountType == SAVINGS <==> m.accounts[n].variant.Savings?)
      ensures m.States()[n] == old(m.States())[accountNumber := step.state][n]
    {
      if n != accountNumber {
        assert m.accounts[n] != account;
      }
    }
    assert m.States() == old(m.States())[accountNumber := step.state];
  }
}
