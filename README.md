# credit-risk-model: customer features and the proxy risk label, in Dafny

This project models the feature and label engineering of the credit-risk-model
repository. Raw transactions are rolled up into one row per customer. There
are two such tables:
- the RFM table of `calculate_rfm`: recency in days, frequency and monetary
  value;
- the feature table of `build_customer_features`, which adds the mean value.

A proxy label `is_high_risk` is derived from a 3-way clustering of the RFM
table. It marks the cluster with the largest mean recency, with ties going to
the lowest cluster id. On the feature side, three more steps are modelled:
- each customer's dominant `ProductCategory`, `ChannelId` and
  `PricingStrategy` are found;
- they are left-merged onto the feature table;
- the categorical columns are imputed and one-hot encoded with unknown values
  ignored, and the encoder reports its feature names.

Modules, one file each:

- `Cells` (`cells.dfy`): cell values and the order in which pandas and
  scikit-learn sort them. Also `SortedKeys`, the ascending list of distinct
  values that a group-by index or a fitted encoder's categories is.
- `Ledger` (`ledger.dfy`): the transaction record and the per-customer
  groups, with their count, total, latest time and recency. It also holds the
  global snapshot (latest transaction plus one day) and the proof that the
  groups partition the ledger.
- `TargetEngineering` (`target_engineering.py`'s core):
  - `CalculateRfm`, stated as functions over the ledger;
  - the cluster-summary and argmax loops, as methods proved against the
    specification predicate `IsHighRiskCluster`;
  - `AssignHighRiskLabel`, a method that writes the cluster and label columns
    in place into an `array` of customer rows.
- `DataProcessing` (`data_processing.py`'s core):
  - `BuildCustomerFeatures`;
  - the per-customer `Mode` with pandas' tie-break;
  - `LeftMerge`;
  - the fitted categorical pipeline (`Fit`, `Encode`, `Transform`) and
    `FeatureNames`.

Representation choices:
- Timestamps are whole seconds. `Timedelta.days` is floor division by 86400.
- Transaction values are integers.
- The mean value is an exact `real`.
- Cluster mean recencies are compared by cross-multiplying sums and sizes, so
  no division is needed.
- The KMeans cluster ids are an input sequence of values in 0..2.

## Model

| member | source | states |
|---|---|---|
| Cells.SortedKeys | src/target_engineering.py:31-35 | the group-by index is strictly ascending and holds exactly the values of the key column |
| Cells.SortedKeysCount | src/target_engineering.py:31-35 | the index has one entry per distinct key value |
| Cells.Insert | src/target_engineering.py:31 | inserting a key into an ascending distinct list keeps it ascending and distinct and adds exactly that key |
| Ledger.CustomerIds | src/target_engineering.py:31 | the CustomerId column has one cell per transaction, in ledger order |
| Ledger.Customers | src/target_engineering.py:31 | the group keys are ascending, without repeats, and are exactly the customer ids of the ledger |
| Ledger.Of | src/target_engineering.py:31 | a customer's group holds exactly the transactions with that id |
| Ledger.MaxTime | src/target_engineering.py:29 | the maximum is the time of some transaction and no transaction is later |
| Ledger.LastTime | src/target_engineering.py:32 | the latest start time in the customer's group; stated by RecencyFromSnapshot, whose proof uses MaxTime's contract on the group |
| Ledger.Snapshot | src/target_engineering.py:29 | the latest start time of the whole ledger plus one day; its meaning is stated by RecencyFromSnapshot |
| Ledger.RecencyDays | src/target_engineering.py:32 | whole days, rounded down, from the customer's latest transaction to the snapshot; stated by RecencyFromSnapshot and RfmRecency |
| Ledger.Count | src/target_engineering.py:33 | the size of the customer's group; stated by GroupsPartitionLedger and RfmCountsAndSums |
| Ledger.Total | src/target_engineering.py:34 | the sum of Value over the customer's group; stated by GroupsPartitionLedger and RfmCountsAndSums |
| Ledger.RecencyFromSnapshot | src/target_engineering.py:29-32 | recency from the shared snapshot is at least one day, and exactly one day iff the customer has a transaction within a day of the ledger's latest |
| Ledger.GroupsPartitionLedger | src/target_engineering.py:31-34 | over distinct ids covering the ledger, group sizes sum to the number of transactions and group totals to the ledger's total value |
| TargetEngineering.RfmOf | src/target_engineering.py:31-34 | one customer's row of aggregates; stated through CalculateRfm by RfmCountsAndSums and RfmRecency |
| TargetEngineering.CalculateRfm | src/target_engineering.py:28-37 | the RFM table, one row per group key; its contract is stated by RfmRowCount, RfmCoversCustomers, RfmRowsAscending, RfmCountsAndSums and RfmRecency |
| TargetEngineering.RfmRowCount | src/target_engineering.py:31-35 | the RFM table has exactly one row per distinct customer id |
| TargetEngineering.RfmCoversCustomers | src/target_engineering.py:31-35 | every row's id occurs in the ledger and every customer of the ledger has a row |
| TargetEngineering.RfmRowsAscending | src/target_engineering.py:31-35 | rows come in strictly ascending customer-id order, as reset_index of a sorted group-by gives them |
| TargetEngineering.RfmCountsAndSums | src/target_engineering.py:33-34 | every frequency is at least 1, monetary is the sum of Value over exactly the customer's transactions, frequencies sum to the ledger length and monetary values to the ledger total |
| TargetEngineering.RfmRecency | src/target_engineering.py:29-32 | every recency is at least 1, and is 1 iff the customer has a transaction within a day of the latest one |
| TargetEngineering.ClusterSize | src/target_engineering.py:49 | the number of customers in a cluster; stated by EveryCustomerInOneCluster and ClusterSizeMembers |
| TargetEngineering.RecencySum | src/target_engineering.py:49 | the recency total of a cluster, which with ClusterSize gives its mean; ClusterSummary is proved to compute it |
| TargetEngineering.IsHighRiskCluster | src/target_engineering.py:51-53 | the selection rule: present, mean recency at least every present cluster's, every lower present id strictly smaller; met by ChooseHighRiskCluster, unique by HighRiskClusterIsUnique |
| TargetEngineering.EveryCustomerInOneCluster | src/target_engineering.py:45 | with ids in 0..2 the three cluster sizes add up to the number of customers |
| TargetEngineering.ClusterSizeMembers | src/target_engineering.py:49 | a cluster has a row in the summary (non-zero size) iff some customer is in it |
| TargetEngineering.HighRiskClusterHasMembers | src/target_engineering.py:49-55 | the chosen cluster has at least one customer, so at least one label is 1 |
| TargetEngineering.HighRiskClusterIsUnique | src/target_engineering.py:51-53 | at most one cluster meets the selection rule, so the choice is determined by the data |
| TargetEngineering.MeanAtLeastTransitive | src/target_engineering.py:51-53 | comparing cluster means by cross-multiplication is transitive, strictly so when one step is strict |
| TargetEngineering.ClusterSummary | src/target_engineering.py:49 | the loop yields, for each cluster, the recency sum and the size of that cluster |
| TargetEngineering.ChooseHighRiskCluster | src/target_engineering.py:49-53 | the returned cluster is present, its mean recency is at least every present cluster's, and every lower present id has a strictly smaller mean (lowest id among ties) |
| TargetEngineering.AssignHighRiskLabel | src/target_engineering.py:40-63 | fewer than 3 rows fail as KMeans does and leave the frame unchanged; otherwise the RFM columns, row count and order are kept, the cluster column is written, the chosen cluster satisfies the selection rule, the label is 1 exactly for that cluster's rows and 0 for the others, and some row is labelled 1 |
| TargetEngineering.BuildTarget | src/target_engineering.py:66-77 | the labelled table has the RFM table's rows in order; with at least 3 customers each row also carries its cluster id and its 0/1 label (1 exactly in the chosen cluster, which meets the selection rule, and some customer is labelled 1); with fewer, KMeans fails and neither column is written |
| DataProcessing.Mean | src/data_processing.py:50 | the exact mean times the count is the total, and equals the total for a single transaction |
| DataProcessing.BuildCustomerFeatures | src/data_processing.py:40-53 | the customer feature table; its contract is stated by FeaturesAgreeWithRfm, FeaturesPerCustomer and AverageIsTotalOverCount |
| DataProcessing.FeaturesAgreeWithRfm | src/data_processing.py:44-51 | the feature table has the RFM table's rows, in the same order, with the same id, recency, count and sum |
| DataProcessing.FeaturesPerCustomer | src/data_processing.py:44-51 | one row per distinct customer, each with count at least 1, recency at least 1 and total equal to the sum of Value over exactly its transactions |
| DataProcessing.AverageIsTotalOverCount | src/data_processing.py:49-50 | every row's average times its count is its total, and a one-transaction customer's average is its total |
| DataProcessing.Mode | src/data_processing.py:84 | the per-customer mode with the smallest value among ties; stated by ModeIsDominant and DominantIsUnique |
| DataProcessing.MostFrequentIsPreferred | src/data_processing.py:83-85 | the fold picks a candidate that is more frequent than, or as frequent as and smaller than, every other candidate |
| DataProcessing.ModeIsDominant | src/data_processing.py:83-85 | the mode occurs in the values, no value occurs more often, and it is the smallest of the values that occur as often |
| DataProcessing.DominantIsUnique | src/data_processing.py:83-85 | only one value meets that description |
| DataProcessing.DominantOf | src/data_processing.py:84 | the mode of one categorical column over a customer's own transactions; stated by CategoricalModesDominant |
| DataProcessing.CategoricalModes | src/data_processing.py:83-85 | the table of dominant categories; CategoricalModesKeys states its rows are the customers in ascending id order, CategoricalModesDominant that each holds its own dominant values |
| DataProcessing.CategoricalModesKeys | src/data_processing.py:83-85 | the categorical table has one row per customer, and its ids are the group keys in ascending order |
| DataProcessing.CategoricalModesDominant | src/data_processing.py:83-85 | each cell is the dominant value of that column among that row's customer's own transactions |
| DataProcessing.LeftMerge | src/data_processing.py:87 | the left merge on the customer id; stated by LeftMergeKeepsRows |
| DataProcessing.LeftMergeKeepsRows | src/data_processing.py:87 | with distinct right keys the left merge keeps the left rows' count, order and numeric fields, joining the matching right row or leaving the categorical cells missing |
| DataProcessing.FullTable | src/data_processing.py:80-87 | the feature table with each customer's dominant categories merged on; stated by FullTableRows |
| DataProcessing.FullTableRows | src/data_processing.py:80-87 | the merged table has one row per customer, in order, each its feature row joined to the categorical row with the same customer id, so with that customer's dominant categories, none missing |
| DataProcessing.Present | src/data_processing.py:64 | the non-missing values of a column are exactly the values that occur in it |
| DataProcessing.FitColumn | src/data_processing.py:63-66 | what fitting learns for one categorical column, the imputer's fill value and the encoder's categories; stated by FitColumnLearns |
| DataProcessing.Fit | src/data_processing.py:63-66 | FitColumn applied to each of the three categorical columns; stated by FitColumnLearns and FitTransformOneHotPerColumn |
| DataProcessing.Impute | src/data_processing.py:64 | a missing cell takes the fitted fill value and a present cell is kept; used by EncodeDecode and FeatureNamesMatchColumns |
| DataProcessing.Encode | src/data_processing.py:65 | the one-hot vector of the imputed value, all zeros for an unseen value; stated by EncodeDecode |
| DataProcessing.FitColumnLearns | src/data_processing.py:63-66 | fitting learns the column's distinct present values, ascending, as categories, and the dominant present value as fill value, absent only for an all-missing column |
| DataProcessing.EncodeDecode | src/data_processing.py:65 | encoding never fails; a seen value gives 0/1 entries with exactly one 1 at its category, an unseen value all zeros, and decoding gives back the seen value or nothing |
| DataProcessing.Transform | src/data_processing.py:89-91 | the three one-hot blocks of a row, in configured column order; stated by FeatureNamesMatchColumns and FitTransformOneHotPerColumn |
| DataProcessing.FeatureNames | src/data_processing.py:93-98 | the 4 numeric names, then one name per learned category of each categorical column; stated by FeatureNamesMatchColumns |
| DataProcessing.FeatureNamesMatchColumns | src/data_processing.py:93-98 | there are 4 numeric names plus one name per transformed categorical column, and each one-hot column is 1 exactly when the row's imputed value is that name's category |
| DataProcessing.FitTransformOneHotPerColumn | src/data_processing.py:89-91 | on the table it was fit on, every row has exactly one 1 in each categorical block, and decoding the block gives back the row's own category |

## Left out

- File I/O is not modelled:
  - the existence checks on the input paths, `read_csv`, `to_datetime`, `mkdir` and `to_csv`;
  - attaching `CustomerId` to the output frame before writing it.
  Transactions arrive as already-parsed values.
- Timestamps with sub-second parts are not represented: times are whole seconds.
- Integer width is not modelled, and neither are the source's limits:
  - the int64 sum of Value wraps on overflow;
  - the snapshot (latest time plus one day) and the Timestamp differences
    raise OutOfBoundsDatetime when out of range, for a latest time within a
    day of 2262-04-11 or a gap of more than about 292 years.
  The model's `int` has neither limit.
- Feature names are abstract. `get_feature_names_out` returns the strings
  `"<column>_<category>"`, and the model represents each one as
  `OneHot(column, category)`.
- Missing (NaN) cells in the raw ledger are not represented. pandas drops NaN
  group keys, and `count` skips NaN transaction ids.
- StandardScaler and KMeans (src/target_engineering.py:41-45) are library
  floating-point routines. The cluster ids they produce are an input to
  `AssignHighRiskLabel`, constrained to 0..2.
- TargetEngineering.AssignHighRiskLabel fails exactly when there are fewer
  than 3 rows, because KMeans refuses fewer samples than clusters. The rows
  need not be distinct: rows with repeated RFM values can still produce all
  three cluster ids.
- TargetEngineering.ChooseHighRiskCluster: cluster means are compared exactly,
  not with float64 rounding. Two means that differ only in the last bits
  compare the same way here but could tie, or not, in floating point.
- DataProcessing.Mean: the average is an exact rational, not the rounded
  float64 pandas computes.
- DataProcessing.Mode breaks ties by the smallest value, because `mode()`
  returns its ties sorted and `.iloc[0]` takes the first. scikit-learn's
  most-frequent imputer uses the same smallest-value rule.
- The numeric half of the preprocessing pipeline (median imputation and
  standard scaling, src/data_processing.py:58-61) is float statistics inside
  scikit-learn. `Transform` gives only the one-hot block;
  `FeatureNamesMatchColumns` relates the numeric names to the four numeric
  columns by count only.
- DataProcessing.FitColumnLearns: an all-missing categorical column would be
  dropped by scikit-learn's imputer. The model keeps it as an encoder with no
  categories, which yields no columns. That case never arises from the merged
  table, where no cell is missing.
- DataProcessing.Fit: on an empty ledger the merged table has no rows, and
  scikit-learn's imputers refuse to fit on 0 samples, so
  `preprocessor.fit_transform` raises ValueError. The model has no error
  result here. `Fit([])` returns three encoders with no fill value and no
  categories, and `FitTransformOneHotPerColumn` then holds vacuously.
- src/train.py, src/eda.py and the API are not part of this model. Neither is
  logging.
