/** The system-wide transaction log (js/TransactionManager.js) and its queries. */
module TransactionLog {
  import opened Errors
  import opened Constants
  import opened Transactions
  import Lists

  /** `getTransactionStats()`: the log's length, a per-type count of the types that occur, and the sum of all amounts. */
  datatype Stats = Stats(total: nat, byType: map<TxType, nat>, totalAmount: real)

  /** A type absent from `byType` was counted zero times. */
  function CountFor(byType: map<TxType, nat>, txType: TxType): nat {
    if txType in byType then byType[txType] else 0
  }

  function InvolvesAccountWithinDates(accountNumber: int, startDate: int, endDate: int): Transaction -> bool {
    (t: Transaction) => Involves(t, accountNumber) && InDateRange(t, startDate, endDate)
  }

  /** Every record has one of the four types, so the per-type counts add up to the length of the log. */
  lemma {:induction false} TypeCountsAddUp(log: seq<Transaction>)
    ensures Lists.CountOf(log, HasType(TxType.Deposit)) + Lists.CountOf(log, HasType(TxType.Withdrawal))
          + Lists.CountOf(log, HasType(TxType.Transfer)) + Lists.CountOf(log, HasType(TxType.Interest)) == |log|
  {
    if log != [] {
      TypeCountsAddUp(log[..|log| - 1]);
    }
  }

  /** `allTransactions.find(t => t.id === id)`: the first record with that id, if any. */
  function FindFirst(log: seq<Transaction>, id: string): (r: Option<Transaction>)
    ensures r.None? <==> forall i :: 0 <= i < |log| ==> log[i].id != id
    ensures r.Some? ==> exists i :: 0 <= i < |log| && log[i] == r.value && r.value.id == id
                                     && forall j :: 0 <= j < i ==> log[j].id != id
  {
    if log == [] then None
    else if log[0].id == id then
      Some(log[0])
    else
      var r := FindFirst(log[1..], id);
      assert forall i :: 1 <= i < |log| ==> log[i] == log[1..][i - 1];
      if r.Some? then
        var i :| 0 <= i < |log[1..]| && log[1..][i] == r.value && r.value.id == id
                  && forall j :: 0 <= j < i ==> log[1..][j].id != id;
        assert log[i + 1] == r.value;
        assert forall j :: 0 <= j < i + 1 ==> log[j].id != id by {
          forall j | 0 <= j < i + 1 ensures log[j].id != id {
            if j > 0 {
              assert log[j] == log[1..][j - 1];
            }
          }
        }
        r
      else
        r
  }

  class TransactionManager {
    /** Every record the system has made, in the order they were added. */
    var allTransactions: seq<Transaction>

    constructor ()
      ensures allTransactions == []
    {
      allTransactions := [];
    }

    /** `addTransaction(t)`: appends to the log. */
    method AddTransaction(transaction: Transaction)
      modifies this
      ensures allTransactions == old(allTransactions) + [transaction]
    {
      allTransactions := allTransactions + [transaction];
    }

    /** `getTransactionsByAccount(n)`: the records made on `n` or naming it as the transfer target, in log order. */
    function ByAccount(accountNumber: int): (r: seq<Transaction>)
      reads this
      ensures forall t :: t in r <==> t in allTransactions && Involves(t, accountNumber)
      ensures Lists.IsSubsequence(r, allTransactions)
    {
      Lists.Filter(allTransactions, InvolvesAccount(accountNumber))
    }

    /** `getTransactionsByType(type)`. */
    function ByType(txType: TxType): (r: seq<Transaction>)
      reads this
      ensures forall t :: t in r <==> t in allTransactions && t.txType == txType
      ensures Lists.IsSubsequence(r, allTransactions)
    {
      Lists.Filter(allTransactions, HasType(txType))
    }

    /** `getTransactionsByDateRange(start, end)`: both ends inclusive. */
    function ByDateRange(startDate: int, endDate: int): (r: seq<Transaction>)
      reads this
      ensures forall t :: t in r <==> t in allTransactions && startDate <= t.timestamp <= endDate
      ensures Lists.IsSubsequence(r, allTransactions)
      ensures startDate > endDate ==> r == []
    {
      var r := Lists.Filter(allTransactions, WithinDates(startDate, endDate));
      assert r != [] ==> r[0] in r;
      r
    }

    /** `getTransactionsByAccountAndDateRange(n, start, end)`. */
    function ByAccountAndDateRange(accountNumber: int, startDate: int, endDate: int): (r: seq<Transaction>)
      reads this
      ensures forall t :: t in r <==> t in allTransactions && Involves(t, accountNumber) && InDateRange(t, startDate, endDate)
      ensures Lists.IsSubsequence(r, allTransactions)
    {
      Lists.Filter(allTransactions, InvolvesAccountWithinDates(accountNumber, startDate, endDate))
    }

    /** The combined query is the account query narrowed to the date range, records in the same order. */
    lemma AccountAndDateRangeIsComposition(accountNumber: int, startDate: int, endDate: int)
      ensures ByAccountAndDateRange(accountNumber, startDate, endDate)
           == Lists.Filter(ByAccount(accountNumber), WithinDates(startDate, endDate))
    {
      var p, q := InvolvesAccount(accountNumber), WithinDates(startDate, endDate);
      Lists.FilterFilter(allTransactions, p, q, InvolvesAccountWithinDates(accountNumber, startDate, endDate));
    }

    /** `getRecentTransactions(n, count = 10)`: the account's records newest first, cut to `count` by `slice(0, count)`. */
    function RecentTransactions(accountNumber: int, count: int := 10): (r: seq<Transaction>)
      reads this
      ensures r <= Lists.SortBy(ByAccount(accountNumber), TimestampKey, false)
      ensures Lists.Ordered(r, TimestampKey, false)
      ensures forall t :: t in r ==> t in allTransactions && Involves(t, accountNumber)
      ensures count >= 0 ==> |r| == Lists.Min(count, |ByAccount(accountNumber)|)
      ensures r != [] ==> forall t :: t in ByAccount(accountNumber) ==> t.timestamp <= r[0].timestamp
    {
      var all := ByAccount(accountNumber);
      var sorted := Lists.SortBy(all, TimestampKey, false);
      var r := Lists.Take(sorted, count);
      Lists.PrefixOrdered(r, sorted, TimestampKey, false);
      assert forall t :: t in r ==> t in all by {
        forall t | t in r ensures t in all {
          assert t in multiset(sorted);
        }
      }
      assert r != [] ==> forall t :: t in all ==> TimestampKey(t) <= TimestampKey(r[0]) by {
        if r != [] {
          Lists.SortedHeadIsMax(all, TimestampKey);
        }
      }
      r
    }

    /** `getTransactionById(id)`: the first record with that id, or nothing (`undefined`). */
    function TransactionById(transactionId: string): (r: Option<Transaction>)
      reads this
      ensures r.Some? ==> r.value in allTransactions && r.value.id == transactionId
      ensures r.None? <==> forall t :: t in allTransactions ==> t.id != transactionId
      ensures r.Some? ==> exists i :: 0 <= i < |allTransactions| && allTransactions[i] == r.value
                                      && forall j :: 0 <= j < i ==> allTransactions[j].id != transactionId
    {
      FindFirst(allTransactions, transactionId)
    }

    /** `getTransactionStats()`: one pass over the log, counting by type and summing amounts. */
    method TransactionStats() returns (stats: Stats)
      ensures stats.total == |allTransactions|
      ensures stats.totalAmount == Lists.SumOf(allTransactions, AmountKey)
      ensures forall ty :: ty in stats.byType <==> exists t :: t in allTransactions && t.txType == ty
      ensures forall ty :: CountFor(stats.byType, ty) == Lists.CountOf(allTransactions, HasType(ty))
    {
      var byType: map<TxType, nat> := map[];
      var totalAmount := 0.0;
      var i := 0;
      while i < |allTransactions|
        invariant 0 <= i <= |allTransactions|
        invariant totalAmount == Lists.SumOf(allTransactions[..i], AmountKey)
        invariant forall ty :: ty in byType <==> exists t :: t in allTransactions[..i] && t.txType == ty
        invariant forall ty :: CountFor(byType, ty) == Lists.CountOf(allTransactions[..i], HasType(ty))
      {
        var transaction := allTransactions[i];
        assert allTransactions[..i + 1][..i] == allTransactions[..i];
        assert allTransactions[..i + 1] == allTransactions[..i] + [transaction];
        if transaction.txType !in byType {
          byType := byType[transaction.txType := 0];
        }
        byType := byType[transaction.txType := byType[transaction.txType] + 1];
        totalAmount := totalAmount + transaction.amount;
        i := i + 1;
      }
      assert allTransactions[..i] == allTransactions;
      stats := Stats(|allTransactions|, byType, totalAmount);
    }
  }

  /** The per-type counts of a stats record add up to its total. */
  lemma StatsCountsAddUp(log: seq<Transaction>, stats: Stats)
    requires stats.total == |log|
    requires forall ty :: CountFor(stats.byType, ty) == Lists.CountOf(log, HasType(ty))
    ensures CountFor(stats.byType, TxType.Deposit) + CountFor(stats.byType, TxType.Withdrawal)
          + CountFor(stats.byType, TxType.Transfer) + CountFor(stats.byType, TxType.Interest) == stats.total
  {
    TypeCountsAddUp(log);
  }
}
