/** src/target_engineering.py: the RFM table (calculate_rfm) and the proxy
    label (assign_high_risk_label). KMeans and StandardScaler are not
    modelled; the cluster ids KMeans assigns are an input. */
module TargetEngineering {
  import opened Cells
  import opened Ledger

  /** The number of clusters the customers are split into. */
  const NClusters: int := 3

  datatype RfmRow = RfmRow(customerId: Cell, recencyDays: int, frequency: nat, monetary: int)

  function RfmOf(txs: seq<Transaction>, c: Cell): RfmRow
    requires c in CustomerIds(txs)
  {
    RfmRow(c, RecencyDays(txs, c), Count(txs, c), Total(txs, c))
  }

  /** calculate_rfm: one row per group key, in the ascending key order that
      groupby(...).agg(...).reset_index() leaves. */
  function CalculateRfm(txs: seq<Transaction>): seq<RfmRow>
  {
    var cs := Customers(txs);
    seq(|cs|, i requires 0 <= i < |cs| => RfmOf(txs, cs[i]))
  }

  function FrequencySum(rows: seq<RfmRow>): int
  {
    if rows == [] then 0 else rows[0].frequency + FrequencySum(rows[1..])
  }

  function MonetarySum(rows: seq<RfmRow>): int
  {
    if rows == [] then 0 else rows[0].monetary + MonetarySum(rows[1..])
  }

  lemma RowsOfCustomers(txs: seq<Transaction>)
    ensures |CalculateRfm(txs)| == |Customers(txs)|
    ensures forall i :: 0 <= i < |Customers(txs)| ==> CalculateRfm(txs)[i] == RfmOf(txs, Customers(txs)[i])
    ensures forall i :: 0 <= i < |Customers(txs)| ==> CalculateRfm(txs)[i].customerId == Customers(txs)[i]
  {
  }

  /** The table has as many rows as there are distinct CustomerIds. */
  lemma RfmRowCount(txs: seq<Transaction>)
    ensures |CalculateRfm(txs)| == |(set c | c in CustomerIds(txs))|
  {
    RowsOfCustomers(txs);
    SortedKeysCount(CustomerIds(txs));
  }

  /** Every row belongs to a customer of the ledger, and every customer of
      the ledger has a row. */
  lemma RfmCoversCustomers(txs: seq<Transaction>)
    ensures var rfm := CalculateRfm(txs);
      forall i :: 0 <= i < |rfm| ==> rfm[i].customerId in CustomerIds(txs)
    ensures var rfm := CalculateRfm(txs);
      forall c :: c in CustomerIds(txs) ==> exists i :: 0 <= i < |rfm| && rfm[i].customerId == c
  {
    var cs, rfm := Customers(txs), CalculateRfm(txs);
    RowsOfCustomers(txs);
    forall i | 0 <= i < |rfm|
      ensures rfm[i].customerId in CustomerIds(txs)
    {
      assert rfm[i].customerId == cs[i];
    }
    forall c | c in CustomerIds(txs)
      ensures exists i :: 0 <= i < |rfm| && rfm[i].customerId == c
    {
      var i :| 0 <= i < |cs| && cs[i] == c;
      assert rfm[i].customerId == c;
    }
  }

  /** Rows come in ascending CustomerId order, so no customer has two rows. */
  lemma RfmRowsAscending(txs: seq<Transaction>)
    ensures var rfm := CalculateRfm(txs);
      forall i, j :: 0 <= i < j < |rfm| ==> Lt(rfm[i].customerId, rfm[j].customerId)
  {
    RowsOfCustomers(txs);
  }

  lemma {:induction false} FrequencyAndMonetarySums(txs: seq<Transaction>, rows: seq<RfmRow>, ids: seq<Cell>)
    requires |rows| == |ids|
    requires forall i :: 0 <= i < |rows| ==>
      rows[i].frequency == Count(txs, ids[i]) && rows[i].monetary == Total(txs, ids[i])
    ensures FrequencySum(rows) == CountSum(txs, ids)
    ensures MonetarySum(rows) == TotalSum(txs, ids)
  {
    if rows != [] {
      FrequencyAndMonetarySums(txs, rows[1..], ids[1..]);
    }
  }

  /** Every frequency is at least 1, each monetary value is the sum of Value
      over exactly that customer's transactions, and summed over the table
      the frequencies give the number of transactions and the monetary
      values the ledger's total value. */
  lemma RfmCountsAndSums(txs: seq<Transaction>)
    ensures var rfm := CalculateRfm(txs);
      && (forall i :: 0 <= i < |rfm| ==> rfm[i].frequency >= 1)
      && (forall i :: 0 <= i < |rfm| ==> rfm[i].monetary == SumValues(Of(txs, rfm[i].customerId)))
      && FrequencySum(rfm) == |txs|
      && MonetarySum(rfm) == SumValues(txs)
  {
    var cs, rfm := Customers(txs), CalculateRfm(txs);
    RowsOfCustomers(txs);
    forall i | 0 <= i < |rfm|
      ensures rfm[i].frequency >= 1
    {
      OfNonEmpty(txs, cs[i]);
    }
    FrequencyAndMonetarySums(txs, rfm, cs);
    GroupsPartitionLedger(txs, cs);
  }

  /** Every recency_days is at least 1, and it is exactly 1 for the
      customers with a transaction within one day of the latest one, among
      them the owner of the latest transaction. */
  lemma RfmRecency(txs: seq<Transaction>)
    ensures var rfm := CalculateRfm(txs);
      && (forall i :: 0 <= i < |rfm| ==> rfm[i].recencyDays >= 1)
      && (forall i :: 0 <= i < |rfm| ==>
            (rfm[i].recencyDays == 1 <==>
              exists t :: t in txs && t.customerId == rfm[i].customerId && t.startTime > MaxTime(txs) - SecondsPerDay))
  {
    var cs, rfm := Customers(txs), CalculateRfm(txs);
    RowsOfCustomers(txs);
    forall i | 0 <= i < |rfm|
      ensures rfm[i].recencyDays >= 1
      ensures rfm[i].recencyDays == 1 <==>
        exists t :: t in txs && t.customerId == rfm[i].customerId && t.startTime > MaxTime(txs) - SecondsPerDay
    {
      RecencyFromSnapshot(txs, cs[i]);
    }
  }

  // ---------------------------------------------------------------------
  // The proxy label

  /** Number of customers KMeans put in cluster k. */
  function ClusterSize(clusters: seq<int>, k: int): nat
  {
    if clusters == [] then 0
    else ClusterSize(clusters[..|clusters| - 1], k) + if clusters[|clusters| - 1] == k then 1 else 0
  }

  /** Sum of recency_days over cluster k. */
  function RecencySum(rows: seq<RfmRow>, clusters: seq<int>, k: int): int
    requires |rows| == |clusters|
  {
    if rows == [] then 0
    else
      RecencySum(rows[..|rows| - 1], clusters[..|clusters| - 1], k)
        + if clusters[|clusters| - 1] == k then rows[|rows| - 1].recencyDays else 0
  }

  /** Cluster a's mean recency is at least cluster b's, cross-multiplied. */
  predicate MeanRecencyAtLeast(rows: seq<RfmRow>, clusters: seq<int>, a: int, b: int)
    requires |rows| == |clusters|
  {
    RecencySum(rows, clusters, a) * ClusterSize(clusters, b) >= RecencySum(rows, clusters, b) * ClusterSize(clusters, a)
  }

  predicate ValidClusters(clusters: seq<int>)
  {
    forall i :: 0 <= i < |clusters| ==> 0 <= clusters[i] < NClusters
  }

  /** The cluster the label marks: a non-empty cluster whose mean recency is
      the largest, and the lowest such id when several share that mean (the
      group summary is indexed by ascending cluster id and .index[0] is taken). */
  predicate IsHighRiskCluster(rows: seq<RfmRow>, clusters: seq<int>, k: int)
    requires |rows| == |clusters|
  {
    && 0 <= k < NClusters
    && ClusterSize(clusters, k) > 0
    && (forall j :: 0 <= j < NClusters && ClusterSize(clusters, j) > 0 ==> MeanRecencyAtLeast(rows, clusters, k, j))
    && (forall j :: 0 <= j < k && ClusterSize(clusters, j) > 0 ==> !MeanRecencyAtLeast(rows, clusters, j, k))
  }

  /** Every customer is in exactly one of the three clusters. */
  lemma {:induction false} EveryCustomerInOneCluster(clusters: seq<int>)
    requires ValidClusters(clusters)
    ensures ClusterSize(clusters, 0) + ClusterSize(clusters, 1) + ClusterSize(clusters, 2) == |clusters|
  {
    if clusters != [] {
      EveryCustomerInOneCluster(clusters[..|clusters| - 1]);
    }
  }

  /** A cluster has members exactly when some customer carries its id. */
  lemma {:induction false} ClusterSizeMembers(clusters: seq<int>, k: int)
    ensures ClusterSize(clusters, k) > 0 <==> k in clusters
  {
    if clusters != [] {
      var init := clusters[..|clusters| - 1];
      ClusterSizeMembers(init, k);
      assert clusters == init + [clusters[|clusters| - 1]];
    }
  }

  /** At least one customer is labelled high-risk. */
  lemma HighRiskClusterHasMembers(rows: seq<RfmRow>, clusters: seq<int>, k: int)
    requires |rows| == |clusters| && IsHighRiskCluster(rows, clusters, k)
    ensures exists i :: 0 <= i < |clusters| && clusters[i] == k
  {
    ClusterSizeMembers(clusters, k);
  }

  /** The choice is determined by the data: at most one cluster qualifies. */
  lemma HighRiskClusterIsUnique(rows: seq<RfmRow>, clusters: seq<int>, a: int, b: int)
    requires |rows| == |clusters|
    requires IsHighRiskCluster(rows, clusters, a) && IsHighRiskCluster(rows, clusters, b)
    ensures a == b
  {
  }

  /** Comparing means by cross-multiplication is transitive (sizes positive). */
  lemma MeanOrderTransitive(s1: int, n1: int, s2: int, n2: int, s3: int, n3: int)
    requires n1 > 0 && n2 > 0 && n3 > 0
    requires s1 * n2 >= s2 * n1 && s2 * n3 >= s3 * n2
    ensures s1 * n3 >= s3 * n1
    ensures s1 * n2 > s2 * n1 || s2 * n3 > s3 * n2 ==> s1 * n3 > s3 * n1
  {
    var d12, d23, d13 := s1 * n2 - s2 * n1, s2 * n3 - s3 * n2, s1 * n3 - s3 * n1;
    assert n3 * d12 + n1 * d23 == n2 * d13;
    assert n3 * d12 >= 0 && n1 * d23 >= 0;
    assert d12 > 0 ==> n3 * d12 > 0;
    assert d23 > 0 ==> n1 * d23 > 0;
    assert d13 < 0 ==> n2 * d13 < 0;
    assert d13 == 0 ==> n2 * d13 == 0;
  }

  /** Cluster a's mean is at least cluster b's, for per-cluster sums and sizes. */
  predicate MeanAtLeast(sums: seq<int>, sizes: seq<int>, a: int, b: int)
    requires 0 <= a < |sums| == |sizes| && 0 <= b < |sums|
  {
    sums[a] * sizes[b] >= sums[b] * sizes[a]
  }

  lemma MeanAtLeastTransitive(sums: seq<int>, sizes: seq<int>, a: int, b: int, c: int)
    requires 0 <= a < |sums| == |sizes| && 0 <= b < |sums| && 0 <= c < |sums|
    requires sizes[a] > 0 && sizes[b] > 0 && sizes[c] > 0
    requires MeanAtLeast(sums, sizes, a, b) && MeanAtLeast(sums, sizes, b, c)
    ensures MeanAtLeast(sums, sizes, a, c)
    ensures !MeanAtLeast(sums, sizes, b, a) || !MeanAtLeast(sums, sizes, c, b) ==> !MeanAtLeast(sums, sizes, c, a)
  {
    MeanOrderTransitive(sums[a], sizes[a], sums[b], sizes[b], sums[c], sizes[c]);
  }

  /** cluster_summary: recency sum and size of every cluster, in one pass. */
  method ClusterSummary(rows: seq<RfmRow>, clusters: seq<int>) returns (sums: seq<int>, sizes: seq<int>)
    requires |rows| == |clusters| && ValidClusters(clusters)
    ensures |sums| == NClusters && |sizes| == NClusters
    ensures forall k :: 0 <= k < NClusters ==>
      sums[k] == RecencySum(rows, clusters, k) && sizes[k] == ClusterSize(clusters, k)
  {
    sums, sizes := [0, 0, 0], [0, 0, 0];
    var i := 0;
    while i < |rows|
      invariant 0 <= i <= |rows|
      invariant |sums| == NClusters && |sizes| == NClusters
      invariant forall k :: 0 <= k < NClusters ==>
        sums[k] == RecencySum(rows[..i], clusters[..i], k) && sizes[k] == ClusterSize(clusters[..i], k)
    {
      assert rows[..i + 1][..i] == rows[..i];
      assert clusters[..i + 1][..i] == clusters[..i];
      var k := clusters[i];
      sums := sums[k := sums[k] + rows[i].recencyDays];
      sizes := sizes[k := sizes[k] + 1];
      i := i + 1;
    }
    assert rows[..i] == rows && clusters[..i] == clusters;
  }

  /** high_risk_cluster: the first non-empty cluster whose mean recency is the
      largest; a later cluster replaces the current choice only when its mean
      is strictly larger. */
  method ChooseHighRiskCluster(rows: seq<RfmRow>, clusters: seq<int>) returns (high: int)
    requires |rows| == |clusters| && rows != []
    requires ValidClusters(clusters)
    ensures IsHighRiskCluster(rows, clusters, high)
  {
    var sums, sizes := ClusterSummary(rows, clusters);
    EveryCustomerInOneCluster(clusters);
    high := -1;
    var k := 0;
    while k < NClusters
      invariant 0 <= k <= NClusters
      invariant -1 <= high < k
      invariant high == -1 <==> forall j :: 0 <= j < k ==> sizes[j] == 0
      invariant high >= 0 ==> sizes[high] > 0
      invariant high >= 0 ==> forall j :: 0 <= j < k && sizes[j] > 0 ==> MeanAtLeast(sums, sizes, high, j)
      invariant high >= 0 ==> forall j :: 0 <= j < high && sizes[j] > 0 ==> !MeanAtLeast(sums, sizes, j, high)
    {
      if sizes[k] > 0 && (high == -1 || !MeanAtLeast(sums, sizes, high, k)) {
        if high >= 0 {
          forall j | 0 <= j < k && sizes[j] > 0
            ensures MeanAtLeast(sums, sizes, k, j) && !MeanAtLeast(sums, sizes, j, k)
          {
            MeanAtLeastTransitive(sums, sizes, k, high, j);
          }
        }
        high := k;
      }
      k := k + 1;
    }
  }

  // ---------------------------------------------------------------------
  // The frame that assign_high_risk_label updates in place

  /** A row of the RFM frame: the RFM columns, then the "cluster" and
      "is_high_risk" columns once they have been written. */
  datatype CustomerRow = CustomerRow(rfm: RfmRow, cluster: Option<int>, isHighRisk: Option<int>)

  datatype LabelOutcome = HighRisk(cluster: int) | TooFewCustomers

  function RfmColumns(table: seq<CustomerRow>): (rows: seq<RfmRow>)
    ensures |rows| == |table|
    ensures forall i :: 0 <= i < |table| ==> rows[i] == table[i].rfm
  {
    seq(|table|, i requires 0 <= i < |table| => table[i].rfm)
  }

  /** assign_high_risk_label: KMeans refuses fewer samples than clusters, and
      the frame is left as it was; otherwise the cluster column is written,
      the high-risk cluster chosen and the 0/1 label written, while the RFM
      columns, the row count and the row order stay as they were. */
  method AssignHighRiskLabel(table: array<CustomerRow>, clusters: seq<int>) returns (outcome: LabelOutcome)
    requires |clusters| == table.Length && ValidClusters(clusters)
    modifies table
    ensures outcome == TooFewCustomers <==> table.Length < NClusters
    ensures outcome == TooFewCustomers ==> table[..] == old(table[..])
    ensures outcome.HighRisk? ==> IsHighRiskCluster(RfmColumns(old(table[..])), clusters, outcome.cluster)
    ensures outcome.HighRisk? ==> forall i :: 0 <= i < table.Length ==>
      table[i] == CustomerRow(old(table[i].rfm), Some(clusters[i]),
                              Some(if clusters[i] == outcome.cluster then 1 else 0))
    ensures outcome.HighRisk? ==> exists i :: 0 <= i < table.Length && table[i].isHighRisk == Some(1)
  {
    if table.Length < NClusters {
      return TooFewCustomers;
    }
    var rows := RfmColumns(table[..]);
    // Write the cluster column.
    for i := 0 to table.Length
      invariant forall j :: 0 <= j < i ==> table[j] == old(table[j]).(cluster := Some(clusters[j]))
      invariant forall j :: i <= j < table.Length ==> table[j] == old(table[j])
    {
      table[i] := table[i].(cluster := Some(clusters[i]));
    }
    var high := ChooseHighRiskCluster(rows, clusters);
    // Write the 0/1 label: 1 exactly for the rows of the chosen cluster.
    for i := 0 to table.Length
      invariant forall j :: 0 <= j < i ==>
        table[j] == CustomerRow(old(table[j].rfm), Some(clusters[j]), Some(if clusters[j] == high then 1 else 0))
      invariant forall j :: i <= j < table.Length ==> table[j] == old(table[j]).(cluster := Some(clusters[j]))
    {
      table[i] := table[i].(isHighRisk := Some(if table[i].cluster == Some(high) then 1 else 0));
    }
    HighRiskClusterHasMembers(rows, clusters, high);
    outcome := HighRisk(high);
  }

  /** main(), without the file I/O: the RFM table of the ledger, labelled. */
  method BuildTarget(txs: seq<Transaction>, clusters: seq<int>) returns (table: array<CustomerRow>, outcome: LabelOutcome)
    requires |clusters| == |CalculateRfm(txs)| && ValidClusters(clusters)
    ensures fresh(table) && table.Length == |CalculateRfm(txs)|
    ensures outcome.HighRisk? <==> table.Length >= NClusters
    ensures outcome.HighRisk? ==> IsHighRiskCluster(CalculateRfm(txs), clusters, outcome.cluster)
    ensures outcome.HighRisk? ==> forall i :: 0 <= i < table.Length ==>
      table[i] == CustomerRow(CalculateRfm(txs)[i], Some(clusters[i]),
                              Some(if clusters[i] == outcome.cluster then 1 else 0))
    ensures outcome == TooFewCustomers ==> forall i :: 0 <= i < table.Length ==>
      table[i] == CustomerRow(CalculateRfm(txs)[i], None, None)
    ensures outcome.HighRisk? ==> exists i :: 0 <= i < table.Length && table[i].isHighRisk == Some(1)
  {
    table := NewFrame(CalculateRfm(txs));
    outcome := AssignHighRiskLabel(table, clusters);
  }

  /** A fresh frame holding the RFM rows, before any column is added. */
  method NewFrame(rfm: seq<RfmRow>) returns (table: array<CustomerRow>)
    ensures fresh(table) && RfmColumns(table[..]) == rfm
    ensures forall i :: 0 <= i < table.Length ==> table[i] == CustomerRow(rfm[i], None, None)
  {
    table := new CustomerRow[|rfm|](i requires 0 <= i < |rfm| => CustomerRow(rfm[i], None, None));
    assert RfmColumns(table[..]) == rfm;
  }
}
