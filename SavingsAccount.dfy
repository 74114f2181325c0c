/** The interest rule of savings accounts (js/SavingsAccount.js), as pure arithmetic on a balance and a rate. */
module SavingsAccount {
  import opened Constants

  /** The rate a savings account is opened with. */
  const DEFAULT_INTEREST_RATE: real := 0.02

  /** `eligibleForInterest` of the account snapshot: the balance is strictly above the threshold. */
  predicate EligibleForInterest(balance: real) {
    balance > MIN_BALANCE_FOR_INTEREST
  }

  /** `calculateMonthlyInterest`: nothing at or below the threshold, otherwise balance times rate. */
  function MonthlyInterest(balance: real, rate: real): (interest: real)
    ensures !EligibleForInterest(balance) ==> interest == 0.0
    ensures EligibleForInterest(balance) ==> interest == balance * rate
    ensures rate >= 0.0 ==> interest >= 0.0
    ensures rate >= 0.0 ==> (interest > 0.0 <==> EligibleForInterest(balance) && rate > 0.0)
  {
    if balance <= MIN_BALANCE_FOR_INTEREST then 0.0 else balance * rate
  }

  /** The threshold is inclusive: a balance of exactly 500 earns nothing, one cent more earns balance times rate. */
  lemma InterestThresholdBoundary(rate: real)
    ensures MonthlyInterest(500.0, rate) == 0.0
    ensures MonthlyInterest(500.01, rate) == 500.01 * rate
  {
  }

  /** An account that the snapshot reports as not eligible is paid no interest, whatever its rate. */
  lemma NotEligibleEarnsNothing(balance: real, rate: real)
    requires !EligibleForInterest(balance)
    ensures MonthlyInterest(balance, rate) == 0.0
  {
  }
}
