/** The raw transaction ledger and the per-customer group aggregates that both
    the RFM table (src/target_engineering.py) and the customer feature table
    (src/data_processing.py) are built from. */
module Ledger {
  import opened Cells

  /** pd.Timedelta(days=1), in seconds. */
  const SecondsPerDay: int := 86400

  /** One row of the raw data. TransactionStartTime is already parsed, as a
      count of whole seconds. */
  datatype Transaction = Transaction(
    transactionId: Cell,
    customerId: Cell,
    startTime: int,
    value: int,
    productCategory: Cell,
    channelId: Cell,
    pricingStrategy: Cell)

  /** CATEGORICAL_FEATURES, in their configured order. */
  datatype Categorical = ProductCategory | ChannelId | PricingStrategy

  function CellOf(t: Transaction, column: Categorical): Cell
  {
    match column
    case ProductCategory => t.productCategory
    case ChannelId => t.channelId
    case PricingStrategy => t.pricingStrategy
  }

  /** The CustomerId column. */
  function CustomerIds(txs: seq<Transaction>): (ids: seq<Cell>)
    ensures |ids| == |txs|
    ensures forall i :: 0 <= i < |txs| ==> ids[i] == txs[i].customerId
    ensures forall t :: t in txs ==> t.customerId in ids
  {
    if txs == [] then [] else [txs[0].customerId] + CustomerIds(txs[1..])
  }

  /** The group keys when grouping by customer id: each customer once, ascending. */
  function Customers(txs: seq<Transaction>): (cs: seq<Cell>)
    ensures StrictlySorted(cs)
    ensures forall c :: c in cs <==> c in CustomerIds(txs)
  {
    SortedKeys(CustomerIds(txs))
  }

  /** The group of customer `c`: their transactions, in ledger order. */
  function Of(txs: seq<Transaction>, c: Cell): (own: seq<Transaction>)
    ensures forall t :: t in own <==> t in txs && t.customerId == c
  {
    if txs == [] then []
    else
      var init, last := txs[..|txs| - 1], txs[|txs| - 1];
      assert txs == init + [last];
      Of(init, c) + (if last.customerId == c then [last] else [])
  }

  lemma OfSnoc(txs: seq<Transaction>, t: Transaction, c: Cell)
    ensures Of(txs + [t], c) == Of(txs, c) + (if t.customerId == c then [t] else [])
  {
    assert (txs + [t])[..|txs|] == txs;
  }

  lemma OfNonEmpty(txs: seq<Transaction>, c: Cell)
    requires c in CustomerIds(txs)
    ensures Of(txs, c) != []
  {
    var i :| 0 <= i < |txs| && CustomerIds(txs)[i] == c;
    assert txs[i] in Of(txs, c);
  }

  function SumValues(s: seq<Transaction>): int
  {
    if s == [] then 0 else SumValues(s[..|s| - 1]) + s[|s| - 1].value
  }

  /** The latest start time in a non-empty list of transactions. */
  function MaxTime(s: seq<Transaction>): (m: int)
    requires s != []
    ensures exists t :: t in s && t.startTime == m
    ensures forall t :: t in s ==> t.startTime <= m
  {
    if |s| == 1 then s[0].startTime
    else
      var init, last := s[..|s| - 1], s[|s| - 1];
      assert s == init + [last];
      var m' := MaxTime(init);
      if last.startTime > m' then last.startTime else m'
  }

  /** The transaction count: the size of the customer's group. */
  function Count(txs: seq<Transaction>, c: Cell): nat
  {
    |Of(txs, c)|
  }

  /** The sum of Value over the customer's group. */
  function Total(txs: seq<Transaction>, c: Cell): int
  {
    SumValues(Of(txs, c))
  }

  /** The customer's latest transaction start time. */
  function LastTime(txs: seq<Transaction>, c: Cell): int
    requires c in CustomerIds(txs)
  {
    OfNonEmpty(txs, c);
    MaxTime(Of(txs, c))
  }

  /** The snapshot date: the latest timestamp of the whole ledger plus one day. */
  function Snapshot(txs: seq<Transaction>): int
    requires txs != []
  {
    MaxTime(txs) + SecondsPerDay
  }

  /** Whole days from the customer's latest transaction to the snapshot;
      Timedelta.days rounds down, and the difference here is never negative. */
  function RecencyDays(txs: seq<Transaction>, c: Cell): int
    requires c in CustomerIds(txs)
  {
    (Snapshot(txs) - LastTime(txs, c)) / SecondsPerDay
  }

  /** Recency is counted from the shared snapshot: at least one day, and
      exactly one day when the customer has a transaction within a day of
      the ledger's latest one (in particular when they own the latest one). */
  lemma RecencyFromSnapshot(txs: seq<Transaction>, c: Cell)
    requires c in CustomerIds(txs)
    ensures RecencyDays(txs, c) >= 1
    ensures RecencyDays(txs, c) == 1 <==>
      exists t :: t in txs && t.customerId == c && t.startTime > MaxTime(txs) - SecondsPerDay
  {
    OfNonEmpty(txs, c);
    var last := LastTime(txs, c);
    var own := Of(txs, c);
    assert last <= MaxTime(txs);
    if RecencyDays(txs, c) == 1 {
      var t :| t in own && t.startTime == last;
      assert t in txs && t.customerId == c && t.startTime > MaxTime(txs) - SecondsPerDay;
    }
  }

  /** Sum of the group sizes over a list of customers. */
  function CountSum(txs: seq<Transaction>, ids: seq<Cell>): int
  {
    if ids == [] then 0 else Count(txs, ids[0]) + CountSum(txs, ids[1..])
  }

  /** Sum of the group totals over a list of customers. */
  function TotalSum(txs: seq<Transaction>, ids: seq<Cell>): int
  {
    if ids == [] then 0 else Total(txs, ids[0]) + TotalSum(txs, ids[1..])
  }

  /** Appending a transaction grows exactly its owner's group. */
  lemma GroupSnoc(txs: seq<Transaction>, t: Transaction, c: Cell)
    ensures Count(txs + [t], c) == Count(txs, c) + if t.customerId == c then 1 else 0
    ensures Total(txs + [t], c) == Total(txs, c) + if t.customerId == c then t.value else 0
  {
    OfSnoc(txs, t, c);
    var own := Of(txs, c);
    if t.customerId == c {
      assert (own + [t])[..|own|] == own;
      assert SumValues(own + [t]) == SumValues(own) + t.value;
    } else {
      assert Of(txs + [t], c) == own + [] == own;
    }
  }

  lemma {:induction false} CountSumSnoc(txs: seq<Transaction>, t: Transaction, ids: seq<Cell>)
    requires StrictlySorted(ids)
    ensures CountSum(txs + [t], ids) == CountSum(txs, ids) + if t.customerId in ids then 1 else 0
  {
    if ids != [] {
      CountSumSnoc(txs, t, ids[1..]);
      GroupSnoc(txs, t, ids[0]);
      HeadNotInTail(ids);
    }
  }

  lemma {:induction false} TotalSumSnoc(txs: seq<Transaction>, t: Transaction, ids: seq<Cell>)
    requires StrictlySorted(ids)
    ensures TotalSum(txs + [t], ids) == TotalSum(txs, ids) + if t.customerId in ids then t.value else 0
  {
    if ids != [] {
      TotalSumSnoc(txs, t, ids[1..]);
      GroupSnoc(txs, t, ids[0]);
      HeadNotInTail(ids);
    }
  }

  /** Over a list of distinct customers that covers the ledger, every
      transaction is counted once: group sizes add up to the ledger's length
      and group totals to the ledger's total value. */
  lemma {:induction false} GroupsPartitionLedger(txs: seq<Transaction>, ids: seq<Cell>)
    requires StrictlySorted(ids)
    requires forall t :: t in txs ==> t.customerId in ids
    ensures CountSum(txs, ids) == |txs|
    ensures TotalSum(txs, ids) == SumValues(txs)
  {
    if txs == [] {
      EmptySums(ids);
    } else {
      var init, last := txs[..|txs| - 1], txs[|txs| - 1];
      assert txs == init + [last];
      GroupsPartitionLedger(init, ids);
      CountSumSnoc(init, last, ids);
      TotalSumSnoc(init, last, ids);
    }
  }

  lemma {:induction false} EmptySums(ids: seq<Cell>)
    ensures CountSum([], ids) == 0 && TotalSum([], ids) == 0
  {
    if ids != [] {
      EmptySums(ids[1..]);
    }
  }
}
