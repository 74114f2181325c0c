/** Large-amount and rapid-succession alerts (js/FraudDetector.js). */
module Fraud {
  import opened Errors
  import opened Helpers
  import opened Transactions

  /** An amount strictly above this raises a large-transaction alert. */
  const LARGE_TRANSACTION_THRESHOLD: real := 10000.0
  /** The number of recent transactions kept per account. */
  const WINDOW_SIZE: nat := 3
  /** Consecutive recorded transactions this many minutes apart or closer are suspicious. */
  const WINDOW_MINUTES: real := 5.0

  /** What the detector remembers of a transaction: `{ timestamp, amount }`. */
  datatype WindowEntry = WindowEntry(timestamp: int, amount: real)

  /** The two alert shapes; the human-readable message is not modelled. */
  datatype Alert =
    | LargeTransaction(transactionId: string, accountNumber: int, amount: real, timestamp: int)
    | ConsecutiveTransactions(accountNumber: int, transactions: seq<WindowEntry>, timestamp: int)

  function EntryOf(t: Transaction): WindowEntry {
    WindowEntry(t.timestamp, t.amount)
  }

  /** `checkLargeTransaction`'s decision: an alert exactly when the amount is above 10000. */
  function LargeAlert(t: Transaction): (r: Option<Alert>)
    ensures r.Some? <==> t.amount > LARGE_TRANSACTION_THRESHOLD
    ensures r.Some? ==> r.value == LargeTransaction(t.id, t.accountNumber, t.amount, t.timestamp)
  {
    if t.amount > LARGE_TRANSACTION_THRESHOLD then Some(LargeTransaction(t.id, t.accountNumber, t.amount, t.timestamp)) else None
  }

  /** Push the entry and, if that makes more than three, drop the oldest (one `shift()`). */
  function Pushed(window: seq<WindowEntry>, e: WindowEntry): (r: seq<WindowEntry>)
    ensures |window| < WINDOW_SIZE ==> r == window + [e]
    ensures |window| == WINDOW_SIZE ==> r == window[1..] + [e]
    ensures |window| <= WINDOW_SIZE ==> |r| <= WINDOW_SIZE
    ensures r != [] && r[|r| - 1] == e
  {
    var w := window + [e];
    if |w| > WINDOW_SIZE then w[1..] else w
  }

  /** Three entries, each within five minutes of the next. */
  predicate Suspicious(window: seq<WindowEntry>) {
    && |window| == WINDOW_SIZE
    && IsWithinTimeFrame(window[0].timestamp, window[1].timestamp, WINDOW_MINUTES)
    && IsWithinTimeFrame(window[1].timestamp, window[2].timestamp, WINDOW_MINUTES)
  }

  function WindowOf(history: map<int, seq<WindowEntry>>, accountNumber: int): seq<WindowEntry> {
    if accountNumber in history then history[accountNumber] else []
  }

  predicate WindowsBounded(history: map<int, seq<WindowEntry>>) {
    forall n :: n in history ==> |history[n]| <= WINDOW_SIZE
  }

  datatype ConsecutiveOutcome = ConsecutiveOutcome(history: map<int, seq<WindowEntry>>, alert: Option<Alert>)

  /**
   * `checkConsecutiveTransactions(t)` on the per-account windows, with `now` the clock
   * reading the alert is stamped with: the transaction's window gains its entry; when the
   * window then holds three suspicious entries, they are reported and the window is emptied.
   */
  function ConsecutiveStep(history: map<int, seq<WindowEntry>>, t: Transaction, now: int): (o: ConsecutiveOutcome)
    ensures o.history.Keys == history.Keys + {t.accountNumber}
    ensures forall n :: n in history && n != t.accountNumber ==> o.history[n] == history[n]
    ensures o.alert.Some? <==> Suspicious(Pushed(WindowOf(history, t.accountNumber), EntryOf(t)))
    ensures o.alert.Some? ==> o.alert.value == ConsecutiveTransactions(t.accountNumber, Pushed(WindowOf(history, t.accountNumber), EntryOf(t)), now)
                              && o.history[t.accountNumber] == []
    ensures o.alert.None? ==> o.history[t.accountNumber] == Pushed(WindowOf(history, t.accountNumber), EntryOf(t))
    ensures WindowsBounded(history) ==> WindowsBounded(o.history)
  {
    var n := t.accountNumber;
    var window := Pushed(WindowOf(history, n), EntryOf(t));
    if Suspicious(window) then
      ConsecutiveOutcome(history[n := []], Some(ConsecutiveTransactions(n, window, now)))
    else
      ConsecutiveOutcome(history[n := window], None)
  }

  /** An alert always reports the newest transaction as its last entry, and the two before it within five minutes each. */
  lemma ConsecutiveAlertReportsNewest(history: map<int, seq<WindowEntry>>, t: Transaction, now: int)
    requires ConsecutiveStep(history, t, now).alert.Some?
    ensures var a := ConsecutiveStep(history, t, now).alert.value;
            && a.ConsecutiveTransactions? && |a.transactions| == 3
            && a.transactions[2] == EntryOf(t)
            && Abs(a.transactions[1].timestamp - a.transactions[0].timestamp) <= 5 * MS_PER_MINUTE
            && Abs(t.timestamp - a.transactions[1].timestamp) <= 5 * MS_PER_MINUTE
  {
    var a := ConsecutiveStep(history, t, now).alert.value;
    WithinTimeFrameInMilliseconds(a.transactions[0].timestamp, a.transactions[1].timestamp, WINDOW_MINUTES);
    WithinTimeFrameInMilliseconds(a.transactions[1].timestamp, a.transactions[2].timestamp, WINDOW_MINUTES);
  }

  /**
   * Three transactions on a fresh account, each within five minutes of the one before:
   * the first two raise nothing, the third raises the alert and empties the window, and
   * a fourth right after it starts a new window and raises nothing.
   */
  lemma ThreeQuickTransactionsAlertOnce(t1: Transaction, t2: Transaction, t3: Transaction, t4: Transaction, now: int)
    requires t1.accountNumber == t2.accountNumber == t3.accountNumber == t4.accountNumber
    requires t1.timestamp <= t2.timestamp <= t1.timestamp + 5 * MS_PER_MINUTE
    requires t2.timestamp <= t3.timestamp <= t2.timestamp + 5 * MS_PER_MINUTE
    ensures var o1 := ConsecutiveStep(map[], t1, now);
            var o2 := ConsecutiveStep(o1.history, t2, now);
            var o3 := ConsecutiveStep(o2.history, t3, now);
            var o4 := ConsecutiveStep(o3.history, t4, now);
            && o1.alert.None? && o2.alert.None? && o3.alert.Some? && o4.alert.None?
            && o3.alert.value.transactions == [EntryOf(t1), EntryOf(t2), EntryOf(t3)]
            && o4.history[t4.accountNumber] == [EntryOf(t4)]
  {
    var n := t1.accountNumber;
    var o1 := ConsecutiveStep(map[], t1, now);
    assert o1.history[n] == [EntryOf(t1)];
    var o2 := ConsecutiveStep(o1.history, t2, now);
    assert o2.history[n] == [EntryOf(t1), EntryOf(t2)];
    WithinTimeFrameInMilliseconds(t1.timestamp, t2.timestamp, WINDOW_MINUTES);
    WithinTimeFrameInMilliseconds(t2.timestamp, t3.timestamp, WINDOW_MINUTES);
    var o3 := ConsecutiveStep(o2.history, t3, now);
    assert Pushed(WindowOf(o2.history, n), EntryOf(t3)) == [EntryOf(t1), EntryOf(t2), EntryOf(t3)];
    assert o3.history[n] == [];
  }

  /** What `detectFraud(t)` raises: the large-amount alert, then the consecutive one. */
  function FraudAlerts(history: map<int, seq<WindowEntry>>, t: Transaction, now: int): seq<Alert> {
    var o := ConsecutiveStep(history, t, now);
    (if LargeAlert(t).Some? then [LargeAlert(t).value] else []) + (if o.alert.Some? then [o.alert.value] else [])
  }

  class FraudDetector {
    /** Every alert raised since the last clear, oldest first. */
    var suspiciousActivities: seq<Alert>
    /** Per account, its most recent transactions since the last consecutive alert. */
    var transactionHistory: map<int, seq<WindowEntry>>

    ghost predicate Valid()
      reads this
    {
      WindowsBounded(transactionHistory)
    }

    constructor ()
      ensures Valid()
      ensures suspiciousActivities == [] && transactionHistory == map[]
    {
      suspiciousActivities := [];
      transactionHistory := map[];
    }

    /** `checkLargeTransaction(t)`: records and returns the alert when the amount is above 10000. */
    method CheckLargeTransaction(transaction: Transaction) returns (r: Option<Alert>)
      modifies this
      ensures r == LargeAlert(transaction)
      ensures suspiciousActivities == old(suspiciousActivities) + (if r.Some? then [r.value] else [])
      ensures transactionHistory == old(transactionHistory)
    {
      if transaction.amount > LARGE_TRANSACTION_THRESHOLD {
        var alert := LargeTransaction(transaction.id, transaction.accountNumber, transaction.amount, transaction.timestamp);
        suspiciousActivities := suspiciousActivities + [alert];
        return Some(alert);
      }
      return None;
    }

    /** `checkConsecutiveTransactions(t)`, the alert stamped with the clock reading `now`. */
    method CheckConsecutiveTransactions(transaction: Transaction, now: int) returns (r: Option<Alert>)
      requires Valid()
      modifies this
      ensures Valid()
      ensures ConsecutiveOutcome(transactionHistory, r) == ConsecutiveStep(old(transactionHistory), transaction, now)
      ensures suspiciousActivities == old(suspiciousActivities) + (if r.Some? then [r.value] else [])
    {
      var accountNumber := transaction.accountNumber;
      if accountNumber !in transactionHistory {
        transactionHistory := transactionHistory[accountNumber := []];
      }
      var accountTransactions := transactionHistory[accountNumber] + [EntryOf(transaction)];
      if |accountTransactions| > WINDOW_SIZE {
        accountTransactions := accountTransactions[1..];
      }
      transactionHistory := transactionHistory[accountNumber := accountTransactions];
      if |accountTransactions| == WINDOW_SIZE {
        var isSuspicious :=
          IsWithinTimeFrame(accountTransactions[0].timestamp, accountTransactions[1].timestamp, WINDOW_MINUTES) &&
          IsWithinTimeFrame(accountTransactions[1].timestamp, accountTransactions[2].timestamp, WINDOW_MINUTES);
        if isSuspicious {
          var alert := ConsecutiveTransactions(accountNumber, accountTransactions, now);
          suspiciousActivities := suspiciousActivities + [alert];
          transactionHistory := transactionHistory[accountNumber := []];
          return Some(alert);
        }
      }
      return None;
    }

    /** `detectFraud(t)`: the large-amount check, then the consecutive check; the alerts raised, in that order. */
    method DetectFraud(transaction: Transaction, now: int) returns (alerts: seq<Alert>)
      requires Valid()
      modifies this
      ensures Valid()
      ensures transactionHistory == ConsecutiveStep(old(transactionHistory), transaction, now).history
      ensures alerts == FraudAlerts(old(transactionHistory), transaction, now)
      ensures suspiciousActivities == old(suspiciousActivities) + alerts
    {
      alerts := [];
      var largeTxnAlert := CheckLargeTransaction(transaction);
      if largeTxnAlert.Some? {
        alerts := alerts + [largeTxnAlert.value];
      }
      var consecutiveTxnAlert := CheckConsecutiveTransactions(transaction, now);
      if consecutiveTxnAlert.Some? {
        alerts := alerts + [consecutiveTxnAlert.value];
      }
    }

    /** `getSuspiciousActivities()`: every alert raised since the last clear, oldest first. */
    function SuspiciousActivities(): (r: seq<Alert>)
      reads this
      ensures r == suspiciousActivities
    {
      suspiciousActivities
    }

    /** `clearSuspiciousActivities()`: forgets the alerts, keeps the windows. */
    method ClearSuspiciousActivities()
      modifies this
      ensures suspiciousActivities == [] && transactionHistory == old(transactionHistory)
    {
      suspiciousActivities := [];
    }
  }
}
