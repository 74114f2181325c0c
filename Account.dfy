/**
 * A bank account (js/Account.js), with the savings variant of js/SavingsAccount.js
 * folded in as a tag. The rules live in pure step functions over `AccountState`;
 * the `Account` class updates its fields in place and is proved to follow them.
 */
module Accounts {
  import opened Errors
  import opened Constants
  import opened Helpers
  import opened Transactions
  import opened SavingsAccount

  // Descriptions the account writes into its records (English renderings of the source's texts).
  const INITIAL_DEPOSIT_DESCRIPTION: string := "Initial deposit"
  const DEPOSIT_DESCRIPTION: string := "Deposit"
  const FEE_DESCRIPTION: string := "Insufficient funds fee"
  const WITHDRAWAL_DESCRIPTION: string := "Withdrawal"
  const INTEREST_DESCRIPTION: string := "Compound monthly interest"

  /** A plain account, or a savings account with its rate and the time interest was last paid. */
  datatype Variant = Plain | Savings(interestRate: real, lastInterestDate: int)

  /** Everything about an account that its operations change. */
  datatype AccountState = AccountState(
    balance: real,
    isFrozen: bool,
    dailyWithdrawals: map<int, real>,
    history: seq<Transaction>,
    variant: Variant)

  /** The state after an operation and what the operation returned or threw. */
  datatype Outcome<T> = Outcome(state: AccountState, result: Result<T>)

  /** `dailyWithdrawals.get(day) || 0`. */
  function WithdrawnOn(daily: map<int, real>, day: int): real {
    if day in daily then daily[day] else 0.0
  }

  /** Every recorded day total is positive and within the daily limit. */
  ghost predicate DailyWithinLimit(daily: map<int, real>) {
    forall day :: day in daily ==> 0.0 < daily[day] <= DAILY_WITHDRAWAL_LIMIT
  }

  /** The record of a charged insufficient-funds fee. */
  function FeeTransaction(accountNumber: int, stamp: Stamp): (t: Transaction)
    ensures t.txType == Withdrawal && t.amount == INSUFFICIENT_FUNDS_FEE && t.accountNumber == accountNumber
  {
    NewTransaction(stamp, Withdrawal, INSUFFICIENT_FUNDS_FEE, accountNumber, FEE_DESCRIPTION)
  }

  /** `deposit(amount)`: the frozen check comes first, then the amount check. */
  function DepositStep(s: AccountState, accountNumber: int, amount: real, stamp: Stamp): (o: Outcome<Transaction>)
    ensures s.isFrozen ==> o == Outcome(s, Err(AccountFrozen))
    ensures !s.isFrozen && !IsValidAmount(amount) ==> o == Outcome(s, Err(InvalidAmount))
    ensures !s.isFrozen && IsValidAmount(amount) ==>
      && o.result.Ok?
      && o.result.value.txType == Deposit
      && o.result.value.amount == amount
      && o.result.value.accountNumber == accountNumber
      && o.state == s.(balance := s.balance + amount, history := s.history + [o.result.value])
  {
    if s.isFrozen then Outcome(s, Err(AccountFrozen))
    else if !IsValidAmount(amount) then Outcome(s, Err(InvalidAmount))
    else
      var t := NewTransaction(stamp, Deposit, amount, accountNumber, DEPOSIT_DESCRIPTION);
      Outcome(s.(balance := s.balance + amount, history := s.history + [t]), Ok(t))
  }

  /**
   * `withdraw(amount)` on calendar day `today`: frozen, then amount, then the daily
   * limit, then the balance. A withdrawal above the balance charges the fee, records
   * it, and still fails.
   */
  function WithdrawStep(s: AccountState, accountNumber: int, amount: real, today: int, stamp: Stamp): (o: Outcome<Transaction>)
    ensures s.isFrozen ==> o == Outcome(s, Err(AccountFrozen))
    ensures !s.isFrozen && !IsValidAmount(amount) ==> o == Outcome(s, Err(InvalidAmount))
    ensures !s.isFrozen && IsValidAmount(amount) && WithdrawnOn(s.dailyWithdrawals, today) + amount > DAILY_WITHDRAWAL_LIMIT ==>
      o == Outcome(s, Err(DailyLimitExceeded))
    ensures !s.isFrozen && IsValidAmount(amount) && WithdrawnOn(s.dailyWithdrawals, today) + amount <= DAILY_WITHDRAWAL_LIMIT
            && s.balance < amount ==>
      && o.result == Err(InsufficientFunds)
      && o.state == s.(balance := s.balance - INSUFFICIENT_FUNDS_FEE, history := s.history + [FeeTransaction(accountNumber, stamp)])
    ensures !s.isFrozen && IsValidAmount(amount) && WithdrawnOn(s.dailyWithdrawals, today) + amount <= DAILY_WITHDRAWAL_LIMIT
            && s.balance >= amount ==>
      && o.result.Ok?
      && o.result.value.txType == Withdrawal
      && o.result.value.amount == amount
      && o.result.value.accountNumber == accountNumber
      && o.state == s.(balance := s.balance - amount,
                       dailyWithdrawals := s.dailyWithdrawals[today := WithdrawnOn(s.dailyWithdrawals, today) + amount],
                       history := s.history + [o.result.value])
    ensures DailyWithinLimit(s.dailyWithdrawals) ==> DailyWithinLimit(o.state.dailyWithdrawals)
  {
    if s.isFrozen then Outcome(s, Err(AccountFrozen))
    else if !IsValidAmount(amount) then Outcome(s, Err(InvalidAmount))
    else
      var withdrawn := WithdrawnOn(s.dailyWithdrawals, today);
      if withdrawn + amount > DAILY_WITHDRAWAL_LIMIT then Outcome(s, Err(DailyLimitExceeded))
      else if s.balance < amount then
        Outcome(s.(balance := s.balance - INSUFFICIENT_FUNDS_FEE, history := s.history + [FeeTransaction(accountNumber, stamp)]),
                Err(InsufficientFunds))
      else
        var t := NewTransaction(stamp, Withdrawal, amount, accountNumber, WITHDRAWAL_DESCRIPTION);
        Outcome(s.(balance := s.balance - amount,
                   dailyWithdrawals := s.dailyWithdrawals[today := withdrawn + amount],
                   history := s.history + [t]),
                Ok(t))
  }

  /**
   * `applyMonthlyInterest()` of a savings account: refused when frozen; otherwise pays
   * the interest only when it is positive, returning null (None) when it is not.
   */
  function ApplyInterestStep(s: AccountState, accountNumber: int, stamp: Stamp): (o: Outcome<Option<Transaction>>)
    requires s.variant.Savings?
    ensures s.isFrozen ==> o == Outcome(s, Err(AccountFrozen))
    ensures !s.isFrozen && MonthlyInterest(s.balance, s.variant.interestRate) <= 0.0 ==> o == Outcome(s, Ok(None))
    ensures !s.isFrozen && MonthlyInterest(s.balance, s.variant.interestRate) > 0.0 ==>
      && o.result.Ok? && o.result.value.Some?
      && o.result.value.value.txType == Interest
      && o.result.value.value.amount == MonthlyInterest(s.balance, s.variant.interestRate)
      && o.result.value.value.accountNumber == accountNumber
      && o.state == s.(balance := s.balance + MonthlyInterest(s.balance, s.variant.interestRate),
                       history := s.history + [o.result.value.value],
                       variant := s.variant.(lastInterestDate := stamp.now))
    ensures o.state.balance >= s.balance
  {
    if s.isFrozen then Outcome(s, Err(AccountFrozen))
    else
      var interest := MonthlyInterest(s.balance, s.variant.interestRate);
      if interest > 0.0 then
        var t := NewTransaction(stamp, Interest, interest, accountNumber, INTEREST_DESCRIPTION);
        Outcome(s.(balance := s.balance + interest, history := s.history + [t],
                   variant := s.variant.(lastInterestDate := stamp.now)),
                Ok(Some(t)))
      else Outcome(s, Ok(None))
  }

  /** `setInterestRate(rate)`: a negative rate is refused; zero is accepted. */
  function SetInterestRateStep(s: AccountState, rate: real): (o: Outcome<()>)
    requires s.variant.Savings?
    ensures rate < 0.0 <==> o.result.Err?
    ensures rate < 0.0 ==> o == Outcome(s, Err(InvalidRate))
    ensures rate >= 0.0 ==> o.state == s.(variant := s.variant.(interestRate := rate))
    ensures o.state.variant.Savings?
    ensures s.variant.interestRate >= 0.0 ==> o.state.variant.interestRate >= 0.0
  {
    if rate < 0.0 then Outcome(s, Err(InvalidRate))
    else Outcome(s.(variant := s.variant.(interestRate := rate)), Ok(()))
  }

  /** `n` identical withdrawal attempts on one day. */
  function RepeatWithdraw(s: AccountState, accountNumber: int, amount: real, today: int, stamp: Stamp, n: nat): AccountState
  {
    if n == 0 then s
    else WithdrawStep(RepeatWithdraw(s, accountNumber, amount, today, stamp, n - 1), accountNumber, amount, today, stamp).state
  }

  /**
   * Each attempt to withdraw more than the balance (within the daily limit) charges
   * the fee again, so `n` attempts lower the balance by `5 n` and can drive it below
   * zero; the day's withdrawal total never moves.
   */
  lemma {:induction false} RepeatedFeesDriveBalanceDown(s: AccountState, accountNumber: int, amount: real, today: int, stamp: Stamp, n: nat)
    requires !s.isFrozen && IsValidAmount(amount)
    requires WithdrawnOn(s.dailyWithdrawals, today) + amount <= DAILY_WITHDRAWAL_LIMIT
    requires s.balance < amount
    ensures RepeatWithdraw(s, accountNumber, amount, today, stamp, n).balance == s.balance - (n as real) * INSUFFICIENT_FUNDS_FEE
    ensures RepeatWithdraw(s, accountNumber, amount, today, stamp, n).dailyWithdrawals == s.dailyWithdrawals
    ensures RepeatWithdraw(s, accountNumber, amount, today, stamp, n).isFrozen == s.isFrozen
    ensures |RepeatWithdraw(s, accountNumber, amount, today, stamp, n).history| == |s.history| + n
    ensures (n as real) * INSUFFICIENT_FUNDS_FEE > s.balance ==> RepeatWithdraw(s, accountNumber, amount, today, stamp, n).balance < 0.0
  {
    if n > 0 {
      RepeatedFeesDriveBalanceDown(s, accountNumber, amount, today, stamp, n - 1);
      var before := RepeatWithdraw(s, accountNumber, amount, today, stamp, n - 1);
      assert before.balance < amount;
      assert ((n - 1) as real) * INSUFFICIENT_FUNDS_FEE + INSUFFICIENT_FUNDS_FEE == (n as real) * INSUFFICIENT_FUNDS_FEE;
    }
  }

  /**
   * Withdrawals that bring the day's total to exactly the limit succeed; after that
   * every further positive withdrawal that day fails and leaves the account unchanged.
   */
  lemma DailyLimitExhausted(s: AccountState, accountNumber: int, amount: real, next: real, today: int, stamp1: Stamp, stamp2: Stamp)
    requires !s.isFrozen && IsValidAmount(amount) && IsValidAmount(next)
    requires WithdrawnOn(s.dailyWithdrawals, today) + amount == DAILY_WITHDRAWAL_LIMIT
    requires s.balance >= amount
    ensures WithdrawStep(s, accountNumber, amount, today, stamp1).result.Ok?
    ensures var s1 := WithdrawStep(s, accountNumber, amount, today, stamp1).state;
            WithdrawStep(s1, accountNumber, next, today, stamp2) == Outcome(s1, Err(DailyLimitExceeded))
  {
  }

  /**
   * The limit is checked before the balance: withdrawing 1500 from a fresh account
   * holding 1000 fails on the daily limit and charges no fee.
   */
  lemma OverLimitChargesNoFee(accountNumber: int, today: int, stamp: Stamp, history: seq<Transaction>, variant: Variant)
    ensures var s := AccountState(1000.0, false, map[], history, variant);
            WithdrawStep(s, accountNumber, 1500.0, today, stamp) == Outcome(s, Err(DailyLimitExceeded))
  {
  }

  /** The account snapshot of `getAccountInfo()`; savings accounts add rate, last interest date and eligibility. */
  datatype SavingsInfo = SavingsInfo(interestRate: real, lastInterestDate: int, eligibleForInterest: bool)
  datatype AccountInfo = AccountInfo(
    accountNumber: int,
    accountHolderName: string,
    balance: real,
    accountType: string,
    isFrozen: bool,
    createdAt: int,
    savings: Option<SavingsInfo>)

  class Account {
    const accountNumber: int
    const accountHolderName: string
    const accountType: string
    const createdAt: int
    var balance: real
    var isFrozen: bool
    var dailyWithdrawals: map<int, real>
    var transactions: seq<Transaction>
    var variant: Variant

    /** The account's mutable state as one value. */
    function State(): AccountState
      reads this
    {
      AccountState(balance, isFrozen, dailyWithdrawals, transactions, variant)
    }

    ghost predicate Valid()
      reads this
    {
      && DailyWithinLimit(dailyWithdrawals)
      && (variant.Savings? ==> accountType == SAVINGS && variant.interestRate >= 0.0)
    }

    /** `new Account(name, initialDeposit, type)` once its checks have passed. */
    constructor Open(accountDraw: real, holderName: string, initialDeposit: real, accountType: string, stamp: Stamp)
      requires 0.0 <= accountDraw < 1.0
      requires holderName != "" && IsValidAmount(initialDeposit)
      ensures Valid()
      ensures accountNumber == GenerateAccountNumber(accountDraw)
      ensures this.accountHolderName == holderName && this.accountType == accountType && createdAt == stamp.now
      ensures balance == initialDeposit && !isFrozen && dailyWithdrawals == map[] && variant == Plain
      ensures |transactions| == 1 && transactions[0].txType == TxType.Deposit && transactions[0].amount == initialDeposit
      ensures transactions[0].accountNumber == accountNumber
    {
      accountNumber := GenerateAccountNumber(accountDraw);
      accountHolderName := holderName;
      balance := initialDeposit;
      this.accountType := accountType;
      transactions := [];
      isFrozen := false;
      dailyWithdrawals := map[];
      createdAt := stamp.now;
      variant := Plain;
      new;
      AddTransaction(NewTransaction(stamp, TxType.Deposit, initialDeposit, accountNumber, INITIAL_DEPOSIT_DESCRIPTION));
    }

    /** `new SavingsAccount(name, initialDeposit)` once its checks have passed: type savings, rate 0.02. */
    constructor OpenSavings(accountDraw: real, holderName: string, initialDeposit: real, stamp: Stamp)
      requires 0.0 <= accountDraw < 1.0
      requires holderName != "" && IsValidAmount(initialDeposit)
      ensures Valid()
      ensures accountNumber == GenerateAccountNumber(accountDraw)
      ensures accountHolderName == holderName && accountType == SAVINGS && createdAt == stamp.now
      ensures balance == initialDeposit && !isFrozen && dailyWithdrawals == map[]
      ensures variant == Savings(DEFAULT_INTEREST_RATE, stamp.now)
      ensures |transactions| == 1 && transactions[0].txType == TxType.Deposit && transactions[0].amount == initialDeposit
      ensures transactions[0].accountNumber == accountNumber
    {
      accountNumber := GenerateAccountNumber(accountDraw);
      accountHolderName := holderName;
      balance := initialDeposit;
      accountType := SAVINGS;
      transactions := [];
      isFrozen := false;
      dailyWithdrawals := map[];
      createdAt := stamp.now;
      variant := Savings(DEFAULT_INTEREST_RATE, stamp.now);
      new;
      AddTransaction(NewTransaction(stamp, TxType.Deposit, initialDeposit, accountNumber, INITIAL_DEPOSIT_DESCRIPTION));
    }

    /** `addTransaction(t)`: appends to the history and touches nothing else. */
    method AddTransaction(t: Transaction)
      modifies this
      ensures transactions == old(transactions) + [t]
      ensures balance == old(balance) && isFrozen == old(isFrozen)
      ensures dailyWithdrawals == old(dailyWithdrawals) && variant == old(variant)
    {
      transactions := transactions + [t];
    }

    method Deposit(amount: real, stamp: Stamp) returns (r: Result<Transaction>)
      requires Valid()
      modifies this
      ensures Valid()
      ensures Outcome(State(), r) == DepositStep(old(State()), accountNumber, amount, stamp)
    {
      if isFrozen {
        return Err(AccountFrozen);
      }
      if !IsValidAmount(amount) {
        return Err(InvalidAmount);
      }
      balance := balance + amount;
      var t := NewTransaction(stamp, TxType.Deposit, amount, accountNumber, DEPOSIT_DESCRIPTION);
      AddTransaction(t);
      return Ok(t);
    }

    method Withdraw(amount: real, today: int, stamp: Stamp) returns (r: Result<Transaction>)
      requires Valid()
      modifies this
      ensures Valid()
      ensures Outcome(State(), r) == WithdrawStep(old(State()), accountNumber, amount, today, stamp)
    {
      if isFrozen {
        return Err(AccountFrozen);
      }
      if !IsValidAmount(amount) {
        return Err(InvalidAmount);
      }
      var todayWithdrawals := WithdrawnOn(dailyWithdrawals, today);
      if todayWithdrawals + amount > DAILY_WITHDRAWAL_LIMIT {
        return Err(DailyLimitExceeded);
      }
      if balance < amount {
        balance := balance - INSUFFICIENT_FUNDS_FEE;
        AddTransaction(FeeTransaction(accountNumber, stamp));
        return Err(InsufficientFunds);
      }
      balance := balance - amount;
      dailyWithdrawals := dailyWithdrawals[today := todayWithdrawals + amount];
      var t := NewTransaction(stamp, Withdrawal, amount, accountNumber, WITHDRAWAL_DESCRIPTION);
      AddTransaction(t);
      return Ok(t);
    }

    /** `freeze()`: only the flag changes. */
    method Freeze()
      requires Valid()
      modifies this
      ensures Valid()
      ensures State() == old(State()).(isFrozen := true)
    {
      isFrozen := true;
    }

    /** `unfreeze()`: only the flag changes. */
    method Unfreeze()
      requires Valid()
      modifies this
      ensures Valid()
      ensures State() == old(State()).(isFrozen := false)
    {
      isFrozen := false;
    }

    method ApplyMonthlyInterest(stamp: Stamp) returns (r: Result<Option<Transaction>>)
      requires Valid() && variant.Savings?
      modifies this
      ensures Valid()
      ensures Outcome(State(), r) == ApplyInterestStep(old(State()), accountNumber, stamp)
    {
      if isFrozen {
        return Err(AccountFrozen);
      }
      var interest := MonthlyInterest(balance, variant.interestRate);
      if interest > 0.0 {
        balance := balance + interest;
        var t := NewTransaction(stamp, Interest, interest, accountNumber, INTEREST_DESCRIPTION);
        AddTransaction(t);
        variant := variant.(lastInterestDate := stamp.now);
        return Ok(Some(t));
      }
      return Ok(None);
    }

    method SetInterestRate(rate: real) returns (r: Result<()>)
      requires Valid() && variant.Savings?
      modifies this
      ensures Valid()
      ensures Outcome(State(), r) == SetInterestRateStep(old(State()), rate)
    {
      if rate < 0.0 {
        return Err(InvalidRate);
      }
      variant := variant.(interestRate := rate);
      return Ok(());
    }

    /** `getAccountInfo()`, with the savings fields when the account is a savings account. */
    function Info(): (info: AccountInfo)
      reads this
      ensures info.balance == balance && info.isFrozen == isFrozen && info.accountType == accountType
      ensures info.savings.Some? <==> variant.Savings?
      ensures info.savings.Some? ==> info.savings.value.eligibleForInterest == (balance > MIN_BALANCE_FOR_INTEREST)
    {
      AccountInfo(accountNumber, accountHolderName, balance, accountType, isFrozen, createdAt,
        match variant
        case Plain => None
        case Savings(rate, last) => Some(SavingsInfo(rate, last, EligibleForInterest(balance))))
    }
  }

  /**
   * The account constructor: refuses a missing holder name or a non-positive initial
   * deposit, otherwise opens the plain account (or the savings account when `savings`).
   */
  method NewAccount(accountDraw: real, holderName: string, initialDeposit: real, accountType: string, stamp: Stamp)
    returns (r: Result<Account>)
    requires 0.0 <= accountDraw < 1.0
    ensures r.Err? <==> holderName == "" || !IsValidAmount(initialDeposit)
    ensures r.Err? ==> r.error == MissingHolderOrDeposit
    ensures r.Ok? ==> fresh(r.value) && r.value.Valid() && r.value.accountNumber == GenerateAccountNumber(accountDraw)
    ensures r.Ok? ==> r.value.State() == AccountState(initialDeposit, false, map[], r.value.transactions, Plain)
    ensures r.Ok? ==> r.value.accountType == accountType && r.value.accountHolderName == holderName
    ensures r.Ok? ==> |r.value.transactions| == 1 && r.value.transactions[0].txType == Deposit
                      && r.value.transactions[0].amount == initialDeposit
  {
    if holderName == "" || !IsValidAmount(initialDeposit) {
      return Err(MissingHolderOrDeposit);
    }
    var a := new Account.Open(accountDraw, holderName, initialDeposit, accountType, stamp);
    return Ok(a);
  }

  /** The savings-account constructor: the same checks, then type savings and the default rate. */
  method NewSavingsAccount(accountDraw: real, holderName: string, initialDeposit: real, stamp: Stamp)
    returns (r: Result<Account>)
    requires 0.0 <= accountDraw < 1.0
    ensures r.Err? <==> holderName == "" || !IsValidAmount(initialDeposit)
    ensures r.Err? ==> r.error == MissingHolderOrDeposit
    ensures r.Ok? ==> fresh(r.value) && r.value.Valid() && r.value.accountNumber == GenerateAccountNumber(accountDraw)
    ensures r.Ok? ==> r.value.State() == AccountState(initialDeposit, false, map[], r.value.transactions,
                                                      Savings(DEFAULT_INTEREST_RATE, stamp.now))
    ensures r.Ok? ==> r.value.accountType == SAVINGS && r.value.accountHolderName == holderName
    ensures r.Ok? ==> |r.value.transactions| == 1 && r.value.transactions[0].txType == Deposit
                      && r.value.transactions[0].amount == initialDeposit
  {
    if holderName == "" || !IsValidAmount(initialDeposit) {
      return Err(MissingHolderOrDeposit);
    }
    var a := new Account.OpenSavings(accountDraw, holderName, initialDeposit, stamp);
    return Ok(a);
  }
}
