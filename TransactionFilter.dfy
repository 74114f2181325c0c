/**
 * The chainable transaction filter (js/TransactionFilter.js). Each JavaScript method
 * returns a new filter over a new array and never changes the one it was called on,
 * so the filter is its sequence of records and each method is a function of it.
 */
module TransactionFilters {
  import opened Errors
  import opened Constants
  import opened Transactions
  import opened Text
  import Lists

  function WithinAmounts(minAmount: real, maxAmount: real): Transaction -> bool {
    (t: Transaction) => InAmountRange(t, minAmount, maxAmount)
  }

  function AtLeast(minAmount: real): Transaction -> bool {
    (t: Transaction) => t.amount >= minAmount
  }

  function AtMost(maxAmount: real): Transaction -> bool {
    (t: Transaction) => t.amount <= maxAmount
  }

  /** The description contains the keyword, ignoring the case of both. */
  predicate DescriptionContains(t: Transaction, keyword: string) {
    Includes(Lower(t.description), Lower(keyword))
  }

  function MentionsKeyword(keyword: string): Transaction -> bool {
    (t: Transaction) => DescriptionContains(t, keyword)
  }

  /** `filterByType(type)`. */
  function FilterByType(ts: seq<Transaction>, txType: TxType): (r: seq<Transaction>)
    ensures forall t :: t in r <==> t in ts && t.txType == txType
    ensures Lists.IsSubsequence(r, ts)
  {
    Lists.Filter(ts, HasType(txType))
  }

  /** `filterByDateRange(start, end)`: both ends inclusive. */
  function FilterByDateRange(ts: seq<Transaction>, startDate: int, endDate: int): (r: seq<Transaction>)
    ensures forall t :: t in r <==> t in ts && startDate <= t.timestamp <= endDate
    ensures Lists.IsSubsequence(r, ts)
  {
    Lists.Filter(ts, WithinDates(startDate, endDate))
  }

  /** `filterByAccount(n)`: recorded on `n` or naming `n` as the transfer target. */
  function FilterByAccount(ts: seq<Transaction>, accountNumber: int): (r: seq<Transaction>)
    ensures forall t :: t in r <==> t in ts && (t.accountNumber == accountNumber || t.targetAccount == Some(accountNumber))
    ensures Lists.IsSubsequence(r, ts)
  {
    Lists.Filter(ts, InvolvesAccount(accountNumber))
  }

  /** `filterByAmountRange(min, max)`: both ends inclusive. */
  function FilterByAmountRange(ts: seq<Transaction>, minAmount: real, maxAmount: real): (r: seq<Transaction>)
    ensures forall t :: t in r <==> t in ts && minAmount <= t.amount <= maxAmount
    ensures Lists.IsSubsequence(r, ts)
  {
    Lists.Filter(ts, WithinAmounts(minAmount, maxAmount))
  }

  /** `filterByDescription(keyword)`: a case-insensitive substring test. */
  function FilterByDescription(ts: seq<Transaction>, keyword: string): (r: seq<Transaction>)
    ensures forall t :: t in r <==> t in ts && DescriptionContains(t, keyword)
    ensures Lists.IsSubsequence(r, ts)
  {
    Lists.Filter(ts, MentionsKeyword(keyword))
  }

  /** The keyword's case does not matter. */
  lemma DescriptionFilterIgnoresKeywordCase(ts: seq<Transaction>, keyword: string)
    ensures FilterByDescription(ts, keyword) == FilterByDescription(ts, Lower(keyword))
  {
    LowerIdempotent(keyword);
    Lists.FilterExtensional(ts, MentionsKeyword(keyword), MentionsKeyword(Lower(keyword)));
  }

  /** The empty keyword keeps every record. */
  lemma EmptyKeywordKeepsAll(ts: seq<Transaction>)
    ensures FilterByDescription(ts, "") == ts
  {
    forall t | t in ts ensures MentionsKeyword("")(t) {
      assert OccursAt(Lower(t.description), Lower(""), 0);
    }
    Lists.FilterAll(ts, MentionsKeyword(""));
  }

  function TypeAndAccount(txType: TxType, accountNumber: int): Transaction -> bool {
    (t: Transaction) => t.txType == txType && Involves(t, accountNumber)
  }

  /** Chained filters commute: by type then by account keeps the same records, in the same order, as the reverse. */
  lemma TypeAndAccountFiltersCommute(ts: seq<Transaction>, txType: TxType, accountNumber: int)
    ensures FilterByAccount(FilterByType(ts, txType), accountNumber) == FilterByType(FilterByAccount(ts, accountNumber), txType)
  {
    Lists.FilterFilter(ts, HasType(txType), InvolvesAccount(accountNumber), TypeAndAccount(txType, accountNumber));
    Lists.FilterFilter(ts, InvolvesAccount(accountNumber), HasType(txType), TypeAndAccount(txType, accountNumber));
  }

  /** `sortByDate(ascending = false)`: a reordering of the records by timestamp. */
  function SortByDate(ts: seq<Transaction>, ascending: bool := false): (r: seq<Transaction>)
    ensures Lists.Ordered(r, TimestampKey, ascending)
    ensures multiset(r) == multiset(ts)
  {
    Lists.SortBy(ts, TimestampKey, ascending)
  }

  /** `sortByAmount(ascending = false)`: a reordering of the records by amount. */
  function SortByAmount(ts: seq<Transaction>, ascending: bool := false): (r: seq<Transaction>)
    ensures Lists.Ordered(r, AmountKey, ascending)
    ensures multiset(r) == multiset(ts)
  {
    Lists.SortBy(ts, AmountKey, ascending)
  }

  /** `limit(count)`: `slice(0, count)`, the first `count` records (a negative count drops from the end). */
  function Limit(ts: seq<Transaction>, count: int): (r: seq<Transaction>)
    ensures r <= ts
    ensures 0 <= count ==> |r| == Lists.Min(count, |ts|)
    ensures count < 0 ==> |r| == Lists.Max(|ts| + count, 0)
  {
    Lists.Take(ts, count)
  }

  /** `getTotalAmount()`: the sum of the amounts, from zero. */
  function TotalAmount(ts: seq<Transaction>): (r: real)
    ensures ts == [] ==> r == 0.0
    ensures ts != [] && (forall i :: 0 <= i < |ts| ==> ts[i].amount > 0.0) ==> r > 0.0
  {
    if forall i :: 0 <= i < |ts| ==> ts[i].amount > 0.0 then
      Lists.SumOfPositive(ts, AmountKey);
      Lists.SumOf(ts, AmountKey)
    else
      Lists.SumOf(ts, AmountKey)
  }

  function NotType(txType: TxType): Transaction -> bool {
    (t: Transaction) => t.txType != txType
  }

  /** The total splits into the records of one type and the rest. */
  lemma TotalAmountSplitsByType(ts: seq<Transaction>, txType: TxType)
    ensures TotalAmount(ts) == TotalAmount(FilterByType(ts, txType)) + TotalAmount(Lists.Filter(ts, NotType(txType)))
  {
    Lists.SumOfPartition(ts, AmountKey, HasType(txType), NotType(txType));
  }

  /**
   * `advancedFilter(criteria)`'s argument. An absent field is `None`; a field is applied
   * when JavaScript finds it set: the type when given, the dates only when both are given,
   * the account number when it is not 0, each amount bound when it is not `undefined`,
   * the description when it is not empty.
   */
  datatype Criteria = Criteria(
    txType: Option<TxType>,
    startDate: Option<int>,
    endDate: Option<int>,
    accountNumber: Option<int>,
    minAmount: Option<real>,
    maxAmount: Option<real>,
    description: Option<string>)

  const NO_CRITERIA := Criteria(None, None, None, None, None, None, None)

  predicate DatesApply(c: Criteria) { c.startDate.Some? && c.endDate.Some? }
  predicate AccountApplies(c: Criteria) { c.accountNumber.Some? && c.accountNumber.value != 0 }
  predicate DescriptionApplies(c: Criteria) { c.description.Some? && c.description.value != "" }

  /** A record passes every test the criteria switch on. */
  predicate Matches(t: Transaction, c: Criteria) {
    && (c.txType.Some? ==> t.txType == c.txType.value)
    && (DatesApply(c) ==> InDateRange(t, c.startDate.value, c.endDate.value))
    && (AccountApplies(c) ==> Involves(t, c.accountNumber.value))
    && (c.minAmount.Some? ==> t.amount >= c.minAmount.value)
    && (c.maxAmount.Some? ==> t.amount <= c.maxAmount.value)
    && (DescriptionApplies(c) ==> DescriptionContains(t, c.description.value))
  }

  function Matching(c: Criteria): Transaction -> bool {
    (t: Transaction) => Matches(t, c)
  }

  /** The first `k` of the six tests of `Matches`, in `advancedFilter`'s order. */
  predicate MatchesFirst(t: Transaction, c: Criteria, k: nat) {
    && (k > 0 && c.txType.Some? ==> t.txType == c.txType.value)
    && (k > 1 && DatesApply(c) ==> InDateRange(t, c.startDate.value, c.endDate.value))
    && (k > 2 && AccountApplies(c) ==> Involves(t, c.accountNumber.value))
    && (k > 3 && c.minAmount.Some? ==> t.amount >= c.minAmount.value)
    && (k > 4 && c.maxAmount.Some? ==> t.amount <= c.maxAmount.value)
    && (k > 5 && DescriptionApplies(c) ==> DescriptionContains(t, c.description.value))
  }

  function MatchingFirst(c: Criteria, k: nat): Transaction -> bool {
    (t: Transaction) => MatchesFirst(t, c, k)
  }

  /**
   * One stage of the pipeline: when the records so far are the input filtered by the
   * first `k` tests, applying the next filter (if it is switched on) gives the input
   * filtered by the first `k + 1`.
   */
  lemma NextStage(ts: seq<Transaction>, before: seq<Transaction>, after: seq<Transaction>, c: Criteria, k: nat,
                  applies: bool, q: Transaction -> bool)
    requires before == Lists.Filter(ts, MatchingFirst(c, k))
    requires after == if applies then Lists.Filter(before, q) else before
    requires forall t :: MatchesFirst(t, c, k + 1) == (MatchesFirst(t, c, k) && (applies ==> q(t)))
    ensures after == Lists.Filter(ts, MatchingFirst(c, k + 1))
  {
    if applies {
      Lists.FilterFilter(ts, MatchingFirst(c, k), q, MatchingFirst(c, k + 1));
    } else {
      Lists.FilterExtensional(ts, MatchingFirst(c, k), MatchingFirst(c, k + 1));
    }
  }

  /** Stage `k` of `advancedFilter`: the `k`-th filter when the criteria switch it on, otherwise nothing. */
  function Stage(ts: seq<Transaction>, c: Criteria, k: nat): seq<Transaction>
    requires k < 6
  {
    match k
    case 0 => if c.txType.Some? then FilterByType(ts, c.txType.value) else ts
    case 1 => if DatesApply(c) then FilterByDateRange(ts, c.startDate.value, c.endDate.value) else ts
    case 2 => if AccountApplies(c) then FilterByAccount(ts, c.accountNumber.value) else ts
    case 3 => if c.minAmount.Some? then Lists.Filter(ts, AtLeast(c.minAmount.value)) else ts
    case 4 => if c.maxAmount.Some? then Lists.Filter(ts, AtMost(c.maxAmount.value)) else ts
    case 5 => if DescriptionApplies(c) then FilterByDescription(ts, c.description.value) else ts
  }

  /** Each stage adds its test to the ones before it. */
  lemma StageAddsTest(ts: seq<Transaction>, before: seq<Transaction>, c: Criteria, k: nat)
    requires k < 6
    requires before == Lists.Filter(ts, MatchingFirst(c, k))
    ensures Stage(before, c, k) == Lists.Filter(ts, MatchingFirst(c, k + 1))
  {
    var after := Stage(before, c, k);
    if k == 0 {
      NextStage(ts, before, after, c, k, c.txType.Some?, HasType(if c.txType.Some? then c.txType.value else TxType.Deposit));
    } else if k == 1 {
      var (lo, hi) := if DatesApply(c) then (c.startDate.value, c.endDate.value) else (0, 0);
      NextStage(ts, before, after, c, k, DatesApply(c), WithinDates(lo, hi));
    } else if k == 2 {
      NextStage(ts, before, after, c, k, AccountApplies(c), InvolvesAccount(if AccountApplies(c) then c.accountNumber.value else 0));
    } else if k == 3 {
      NextStage(ts, before, after, c, k, c.minAmount.Some?, AtLeast(if c.minAmount.Some? then c.minAmount.value else 0.0));
    } else if k == 4 {
      NextStage(ts, before, after, c, k, c.maxAmount.Some?, AtMost(if c.maxAmount.Some? then c.maxAmount.value else 0.0));
    } else {
      NextStage(ts, before, after, c, k, DescriptionApplies(c), MentionsKeyword(if DescriptionApplies(c) then c.description.value else ""));
    }
  }

  /** The six filters of `advancedFilter`, in its order, before the sort: the input filtered by `Matches`. */
  function ApplyCriteria(ts: seq<Transaction>, c: Criteria): (r: seq<Transaction>)
    ensures r == Lists.Filter(ts, Matching(c))
    ensures forall t :: t in r <==> t in ts && Matches(t, c)
    ensures |r| <= |ts|
  {
    var byType := Stage(ts, c, 0);
    var byDate := Stage(byType, c, 1);
    var byAccount := Stage(byDate, c, 2);
    var byMin := Stage(byAccount, c, 3);
    var byMax := Stage(byMin, c, 4);
    var r := Stage(byMax, c, 5);
    Lists.FilterAll(ts, MatchingFirst(c, 0));
    StageAddsTest(ts, ts, c, 0);
    StageAddsTest(ts, byType, c, 1);
    StageAddsTest(ts, byDate, c, 2);
    StageAddsTest(ts, byAccount, c, 3);
    StageAddsTest(ts, byMin, c, 4);
    StageAddsTest(ts, byMax, c, 5);
    Lists.FilterExtensional(ts, MatchingFirst(c, 6), Matching(c));
    r
  }

  /** `advancedFilter(criteria)`: exactly the matching records, each as often as in the input, newest first. */
  function AdvancedFilter(ts: seq<Transaction>, c: Criteria): (r: seq<Transaction>)
    ensures Lists.Ordered(r, TimestampKey, false)
    ensures multiset(r) == multiset(Lists.Filter(ts, Matching(c)))
    ensures forall t :: t in r <==> t in ts && Matches(t, c)
    ensures |r| <= |ts|
  {
    var filtered := ApplyCriteria(ts, c);
    var r := SortByDate(filtered, false);
    assert forall t :: t in r <==> t in filtered by {
      forall t ensures t in r <==> t in filtered {
        assert t in r <==> t in multiset(r);
      }
    }
    assert |r| == |multiset(r)| == |filtered|;
    r
  }

  /** With no criteria `advancedFilter` only sorts: every record comes back, each as often as before. */
  lemma NoCriteriaIsPermutation(ts: seq<Transaction>)
    ensures multiset(AdvancedFilter(ts, NO_CRITERIA)) == multiset(ts)
    ensures AdvancedFilter(ts, NO_CRITERIA) == SortByDate(ts)
  {
    Lists.FilterAll(ts, Matching(NO_CRITERIA));
  }
}
