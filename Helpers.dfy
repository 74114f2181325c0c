/** Amount validation, the time-window test and the account-number range (js/Helpers.js). */
module Helpers {

  /** A JavaScript number used as an amount is valid when it is positive; amounts are reals here, so the `typeof` test always holds. */
  predicate IsValidAmount(amount: real) {
    amount > 0.0
  }

  /** Zero and negative amounts are refused; the smallest cent is accepted. */
  lemma ValidAmountBoundary(amount: real)
    ensures IsValidAmount(amount) <==> amount > 0.0
    ensures !IsValidAmount(0.0) && IsValidAmount(0.01)
  {
  }

  function Abs(x: int): nat {
    if x < 0 then -x else x
  }

  const MS_PER_MINUTE: int := 1000 * 60

  /** The two timestamps (milliseconds) are at most `minutes` apart. */
  predicate IsWithinTimeFrame(timestamp1: int, timestamp2: int, minutes: real) {
    (Abs(timestamp2 - timestamp1) as real) / (MS_PER_MINUTE as real) <= minutes
  }

  /** The window test in whole milliseconds: the gap is at most `minutes` minutes. */
  lemma WithinTimeFrameInMilliseconds(timestamp1: int, timestamp2: int, minutes: real)
    ensures IsWithinTimeFrame(timestamp1, timestamp2, minutes)
        <==> (Abs(timestamp2 - timestamp1) as real) <= minutes * 60000.0
  {
  }

  /** The order of the two timestamps does not matter. */
  lemma WithinTimeFrameSymmetric(timestamp1: int, timestamp2: int, minutes: real)
    ensures IsWithinTimeFrame(timestamp1, timestamp2, minutes) == IsWithinTimeFrame(timestamp2, timestamp1, minutes)
  {
  }

  /** The bound is inclusive: equal timestamps, and timestamps exactly `minutes` apart, are within the window. */
  lemma WithinTimeFrameInclusive(timestamp: int, minutes: nat)
    ensures IsWithinTimeFrame(timestamp, timestamp, minutes as real)
    ensures IsWithinTimeFrame(timestamp, timestamp + minutes * MS_PER_MINUTE, minutes as real)
    ensures IsWithinTimeFrame(timestamp + minutes * MS_PER_MINUTE, timestamp, minutes as real)
    ensures !IsWithinTimeFrame(timestamp, timestamp + minutes * MS_PER_MINUTE + 1, minutes as real)
  {
  }

  /** `Math.floor(draw * 9000000000) + 1000000000` for a draw of `Math.random()`: always a ten-digit number. */
  function GenerateAccountNumber(draw: real): (n: int)
    requires 0.0 <= draw < 1.0
    ensures 1000000000 <= n <= 9999999999
  {
    (draw * 9000000000.0).Floor + 1000000000
  }
}
