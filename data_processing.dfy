/** src/data_processing.py: the customer feature table
    (build_customer_features), the dominant categorical values per customer
    and their left merge (main), and the categorical half of the
    preprocessing pipeline (build_preprocessing_pipeline), with the feature
    names it reports. */
module DataProcessing {
  import opened Cells
  import opened Ledger
  import TargetEngineering

  // ---------------------------------------------------------------------
  // build_customer_features

  datatype CustomerFeatures = CustomerFeatures(
    customerId: Cell,
    recencyDays: int,
    transactionCount: nat,
    totalTransactionValue: int,
    avgTransactionValue: real)

  /** The customer's row: the group aggregates and their mean, which in
      exact arithmetic times the count gives back the total. */
  function FeaturesOf(txs: seq<Transaction>, c: Cell): (f: CustomerFeatures)
    requires c in CustomerIds(txs)
    ensures f.transactionCount >= 1
  {
    OfNonEmpty(txs, c);
    Row(c, RecencyDays(txs, c), Count(txs, c), Total(txs, c))
  }

  function Row(c: Cell, recency: int, count: nat, total: int): (f: CustomerFeatures)
    requires count > 0
    ensures f.customerId == c && f.recencyDays == recency
    ensures f.transactionCount == count && f.totalTransactionValue == total
    ensures f.avgTransactionValue * f.transactionCount as real == f.totalTransactionValue as real
    ensures f.transactionCount == 1 ==> f.avgTransactionValue == f.totalTransactionValue as real
  {
    CustomerFeatures(c, recency, count, total, Mean(total, count))
  }

  /** The mean transaction value, exactly: the mean times the count is the total. */
  function Mean(total: int, count: nat): (m: real)
    requires count > 0
    ensures m * count as real == total as real
    ensures count == 1 ==> m == total as real
  {
    QuotientTimesDivisor(total as real, count as real);
    total as real / count as real
  }


  /** One row per group key, ascending, with the mean value besides the
      three aggregates that calculate_rfm also computes. */
  function BuildCustomerFeatures(txs: seq<Transaction>): seq<CustomerFeatures>
  {
    var cs := Customers(txs);
    seq(|cs|, i requires 0 <= i < |cs| => FeaturesOf(txs, cs[i]))
  }

  /** The two aggregations agree: build_customer_features has the rows of
      calculate_rfm, in the same order, with the same recency, count and sum. */
  lemma FeaturesAgreeWithRfm(txs: seq<Transaction>)
    ensures |BuildCustomerFeatures(txs)| == |TargetEngineering.CalculateRfm(txs)|
    ensures var f, r := BuildCustomerFeatures(txs), TargetEngineering.CalculateRfm(txs);
      forall i :: 0 <= i < |f| ==>
        && f[i].customerId == r[i].customerId
        && f[i].recencyDays == r[i].recencyDays
        && f[i].transactionCount == r[i].frequency
        && f[i].totalTransactionValue == r[i].monetary
  {
    TargetEngineering.RowsOfCustomers(txs);
  }

  /** One row per distinct customer, each with a positive count, recency of
      at least a day, and the sum of Value over exactly its transactions. */
  lemma FeaturesPerCustomer(txs: seq<Transaction>)
    ensures |BuildCustomerFeatures(txs)| == |(set c | c in CustomerIds(txs))|
    ensures var f := BuildCustomerFeatures(txs);
      forall i :: 0 <= i < |f| ==>
        && f[i].customerId in CustomerIds(txs)
        && f[i].transactionCount >= 1
        && f[i].recencyDays >= 1
        && f[i].totalTransactionValue == SumValues(Of(txs, f[i].customerId))
  {
    FeaturesAgreeWithRfm(txs);
    TargetEngineering.RfmRowCount(txs);
    TargetEngineering.RfmCoversCustomers(txs);
    TargetEngineering.RfmCountsAndSums(txs);
    TargetEngineering.RfmRecency(txs);
  }

  lemma QuotientTimesDivisor(t: real, n: real)
    requires n > 0.0
    ensures (t / n) * n == t
  {
  }

  /** The mean value read exactly: the mean times the count is the total,
      so a single transaction's value is its own mean. */
  predicate AverageIsExact(f: CustomerFeatures)
  {
    && f.avgTransactionValue * f.transactionCount as real == f.totalTransactionValue as real
    && (f.transactionCount == 1 ==> f.avgTransactionValue == f.totalTransactionValue as real)
  }

  /** Every row's average agrees with its count and total. */
  lemma AverageIsTotalOverCount(txs: seq<Transaction>)
    ensures var f := BuildCustomerFeatures(txs);
      forall i :: 0 <= i < |f| ==> AverageIsExact(f[i])
  {
    var cs, f := Customers(txs), BuildCustomerFeatures(txs);
    forall i | 0 <= i < |f|
      ensures AverageIsExact(f[i])
    {
      AverageOf(txs, cs[i]);
    }
  }

  lemma AverageOf(txs: seq<Transaction>, c: Cell)
    requires c in CustomerIds(txs)
    ensures AverageIsExact(FeaturesOf(txs, c))
  {
    OfNonEmpty(txs, c);
    RowMean(FeaturesOf(txs, c));
  }

  lemma RowMean(f: CustomerFeatures)
    requires f.transactionCount > 0
    requires f.avgTransactionValue == Mean(f.totalTransactionValue, f.transactionCount)
    ensures AverageIsExact(f)
  {
  }

  // ---------------------------------------------------------------------
  // Dominant categorical values: the per-customer mode, smallest value among ties

  /** `m` is the first entry of the pandas mode of `vals`: a value of
      `vals` that occurs at least as often as any other, the smallest of
      those that occur as often (mode() returns its ties sorted). */
  ghost predicate IsDominant(vals: seq<Cell>, m: Cell)
  {
    && m in vals
    && (forall v :: v in vals ==> Occurrences(vals, v) <= Occurrences(vals, m))
    && (forall v :: v in vals && Occurrences(vals, v) == Occurrences(vals, m) ==> Le(m, v))
  }

  /** `a` is preferred to `b`: more frequent, or as frequent and smaller. */
  predicate Preferred(vals: seq<Cell>, a: Cell, b: Cell)
  {
    Occurrences(vals, a) > Occurrences(vals, b)
    || (Occurrences(vals, a) == Occurrences(vals, b) && Lt(a, b))
  }

  /** The most preferred of the candidates. */
  function MostFrequent(vals: seq<Cell>, candidates: seq<Cell>): Cell
    requires candidates != []
  {
    if |candidates| == 1 then candidates[0]
    else
      var best := MostFrequent(vals, candidates[1..]);
      if Preferred(vals, candidates[0], best) then candidates[0] else best
  }

  function Mode(vals: seq<Cell>): Cell
    requires vals != []
  {
    MostFrequent(vals, vals)
  }

  lemma {:induction false} MostFrequentIsPreferred(vals: seq<Cell>, candidates: seq<Cell>)
    requires candidates != []
    ensures MostFrequent(vals, candidates) in candidates
    ensures forall v :: v in candidates ==>
      v == MostFrequent(vals, candidates) || Preferred(vals, MostFrequent(vals, candidates), v)
  {
    if |candidates| > 1 {
      var rest := candidates[1..];
      MostFrequentIsPreferred(vals, rest);
      var best, c := MostFrequent(vals, rest), candidates[0];
      if Preferred(vals, c, best) {
        forall v | v in rest && v != best
          ensures Preferred(vals, c, v)
        {
          if Occurrences(vals, c) == Occurrences(vals, best) && Occurrences(vals, best) == Occurrences(vals, v) {
            LtTransitive(c, best, v);
          }
        }
      } else {
        LtTotal(c, best);
      }
    }
  }

  /** Mode is the value the per-customer mode aggregation keeps. */
  lemma ModeIsDominant(vals: seq<Cell>)
    requires vals != []
    ensures IsDominant(vals, Mode(vals))
  {
    MostFrequentIsPreferred(vals, vals);
  }

  /** The tie-break makes the dominant value unique. */
  lemma DominantIsUnique(vals: seq<Cell>, a: Cell, b: Cell)
    requires IsDominant(vals, a) && IsDominant(vals, b)
    ensures a == b
  {
    if a != b {
      assert Lt(a, b) && Lt(b, a);
      LtTransitive(a, b, a);
      LtIrreflexive(a);
    }
  }

  function ColumnValues(s: seq<Transaction>, column: Categorical): (vals: seq<Cell>)
    ensures |vals| == |s|
    ensures forall i :: 0 <= i < |s| ==> vals[i] == CellOf(s[i], column)
  {
    seq(|s|, i requires 0 <= i < |s| => CellOf(s[i], column))
  }

  /** The dominant value of one categorical column among a customer's transactions. */
  function DominantOf(txs: seq<Transaction>, c: Cell, column: Categorical): Cell
    requires c in CustomerIds(txs)
  {
    OfNonEmpty(txs, c);
    Mode(ColumnValues(Of(txs, c), column))
  }

  datatype CategoricalRow = CategoricalRow(customerId: Cell, productCategory: Cell, channelId: Cell, pricingStrategy: Cell)

  /** cat_df: one row per group key, ascending. */
  function CategoricalModes(txs: seq<Transaction>): seq<CategoricalRow>
  {
    var cs := Customers(txs);
    seq(|cs|, i requires 0 <= i < |cs| =>
      CategoricalRow(cs[i], DominantOf(txs, cs[i], ProductCategory),
                     DominantOf(txs, cs[i], ChannelId), DominantOf(txs, cs[i], PricingStrategy)))
  }

  /** The categorical table is keyed like the feature table: one row per
      customer, in ascending customer-id order. */
  lemma CategoricalModesKeys(txs: seq<Transaction>)
    ensures |CategoricalModes(txs)| == |Customers(txs)|
    ensures forall i :: 0 <= i < |Customers(txs)| ==> CategoricalModes(txs)[i].customerId == Customers(txs)[i]
  {
  }

  /** Each cell of cat_df is the dominant value of that column among the
      customer's own transactions. */
  lemma CategoricalModesDominant(txs: seq<Transaction>)
    ensures var m := CategoricalModes(txs);
      forall i :: 0 <= i < |m| ==>
        && m[i].customerId in CustomerIds(txs)
        && IsDominant(ColumnValues(Of(txs, m[i].customerId), ProductCategory), m[i].productCategory)
        && IsDominant(ColumnValues(Of(txs, m[i].customerId), ChannelId), m[i].channelId)
        && IsDominant(ColumnValues(Of(txs, m[i].customerId), PricingStrategy), m[i].pricingStrategy)
  {
    var cs, m := Customers(txs), CategoricalModes(txs);
    forall i | 0 <= i < |m|
      ensures IsDominant(ColumnValues(Of(txs, cs[i]), ProductCategory), m[i].productCategory)
      ensures IsDominant(ColumnValues(Of(txs, cs[i]), ChannelId), m[i].channelId)
      ensures IsDominant(ColumnValues(Of(txs, cs[i]), PricingStrategy), m[i].pricingStrategy)
    {
      OfNonEmpty(txs, cs[i]);
      ModeIsDominant(ColumnValues(Of(txs, cs[i]), ProductCategory));
      ModeIsDominant(ColumnValues(Of(txs, cs[i]), ChannelId));
      ModeIsDominant(ColumnValues(Of(txs, cs[i]), PricingStrategy));
    }
  }

  // ---------------------------------------------------------------------
  // Left merge of the per-customer modes onto the feature table, on the customer id

  /** A row of full_df; a categorical cell is missing (NaN) when the
      customer had no row in cat_df. */
  datatype FeatureRow = FeatureRow(
    features: CustomerFeatures,
    productCategory: Option<Cell>,
    channelId: Option<Cell>,
    pricingStrategy: Option<Cell>)

  function Joined(l: CustomerFeatures, r: CategoricalRow): FeatureRow
  {
    FeatureRow(l, Some(r.productCategory), Some(r.channelId), Some(r.pricingStrategy))
  }

  /** The rows of `right` with the given key, in their order. */
  function Matches(right: seq<CategoricalRow>, key: Cell): (m: seq<CategoricalRow>)
    ensures forall r :: r in m ==> r in right && r.customerId == key
  {
    if right == [] then []
    else (if right[0].customerId == key then [right[0]] else []) + Matches(right[1..], key)
  }

  /** A left join: each left row, in order, once per matching right row, or
      once with missing categorical cells when nothing matches. */
  function LeftMerge(left: seq<CustomerFeatures>, right: seq<CategoricalRow>): seq<FeatureRow>
  {
    if left == [] then []
    else
      var m := Matches(right, left[0].customerId);
      (if m == [] then [FeatureRow(left[0], None, None, None)]
       else seq(|m|, k requires 0 <= k < |m| => Joined(left[0], m[k])))
      + LeftMerge(left[1..], right)
  }

  predicate KeysDistinct(right: seq<CategoricalRow>)
  {
    forall i, j :: 0 <= i < j < |right| ==> right[i].customerId != right[j].customerId
  }

  lemma {:induction false} MatchesOfDistinct(right: seq<CategoricalRow>, key: Cell)
    requires KeysDistinct(right)
    ensures Matches(right, key) == [] <==> forall j :: 0 <= j < |right| ==> right[j].customerId != key
    ensures forall j :: 0 <= j < |right| && right[j].customerId == key ==> Matches(right, key) == [right[j]]
  {
    if right != [] {
      MatchesOfDistinct(right[1..], key);
      if right[0].customerId == key {
        assert forall j :: 1 <= j < |right| ==> right[j].customerId != key;
        assert Matches(right[1..], key) == [];
      }
    }
  }

  /** With distinct keys on the right, the left merge keeps the left table's
      rows, their count and order, and leaves their numeric fields as they
      were; it adds the matching row's categorical cells, or missing cells. */
  lemma {:induction false} LeftMergeKeepsRows(left: seq<CustomerFeatures>, right: seq<CategoricalRow>)
    requires KeysDistinct(right)
    ensures |LeftMerge(left, right)| == |left|
    ensures forall i :: 0 <= i < |left| ==> LeftMerge(left, right)[i].features == left[i]
    ensures forall i, j :: 0 <= i < |left| && 0 <= j < |right| && right[j].customerId == left[i].customerId ==>
      LeftMerge(left, right)[i] == Joined(left[i], right[j])
    ensures forall i :: 0 <= i < |left| && (forall j :: 0 <= j < |right| ==> right[j].customerId != left[i].customerId) ==>
      LeftMerge(left, right)[i] == FeatureRow(left[i], None, None, None)
  {
    if left != [] {
      LeftMergeKeepsRows(left[1..], right);
      MatchesOfDistinct(right, left[0].customerId);
      var m := Matches(right, left[0].customerId);
      var head := if m == [] then [FeatureRow(left[0], None, None, None)]
                  else seq(|m|, k requires 0 <= k < |m| => Joined(left[0], m[k]));
      assert |head| == 1;
      assert LeftMerge(left, right) == head + LeftMerge(left[1..], right);
    }
  }

  /** full_df: the feature table with each customer's dominant categories. */
  function FullTable(txs: seq<Transaction>): seq<FeatureRow>
  {
    LeftMerge(BuildCustomerFeatures(txs), CategoricalModes(txs))
  }

  /** Both sides are keyed by the same distinct customers, so full_df has one
      row per customer, in order, with its features unchanged and every
      categorical cell present and dominant. */
  lemma FullTableRows(txs: seq<Transaction>)
    ensures |FullTable(txs)| == |BuildCustomerFeatures(txs)|
    ensures var full, f, m := FullTable(txs), BuildCustomerFeatures(txs), CategoricalModes(txs);
      forall i :: 0 <= i < |full| ==> full[i] == Joined(f[i], m[i]) && f[i].customerId == m[i].customerId
  {
    var cs, f, m := Customers(txs), BuildCustomerFeatures(txs), CategoricalModes(txs);
    forall i, j | 0 <= i < j < |m|
      ensures m[i].customerId != m[j].customerId
    {
      LtIrreflexive(cs[i]);
    }
    LeftMergeKeepsRows(f, m);
  }

  // ---------------------------------------------------------------------
  // The categorical pipeline: most-frequent imputation, then one-hot
  // encoding that ignores values not seen when fitting

  /** What fitting learned for one categorical column: the imputer's fill
      value (none when the column had no value at all) and the encoder's
      categories, ascending. */
  datatype ColumnEncoder = ColumnEncoder(fill: Option<Cell>, categories: seq<Cell>)

  datatype Preprocessor = Preprocessor(product: ColumnEncoder, channel: ColumnEncoder, pricing: ColumnEncoder)

  /** The values of a column that are not missing. */
  function Present(column: seq<Option<Cell>>): (vals: seq<Cell>)
    ensures forall v :: v in vals <==> Some(v) in column
  {
    if column == [] then []
    else (if column[0].Some? then [column[0].value] else []) + Present(column[1..])
  }

  function FitColumn(column: seq<Option<Cell>>): ColumnEncoder
  {
    var vals := Present(column);
    ColumnEncoder(if vals == [] then None else Some(Mode(vals)), SortedKeys(vals))
  }

  /** Fitting learns, per column, the dominant present value as fill value
      and exactly the present values, ascending, as categories. */
  lemma FitColumnLearns(column: seq<Option<Cell>>)
    ensures StrictlySorted(FitColumn(column).categories)
    ensures forall v :: v in FitColumn(column).categories <==> Some(v) in column
    ensures FitColumn(column).fill == None <==> forall i :: 0 <= i < |column| ==> column[i] == None
    ensures FitColumn(column).fill != None ==> IsDominant(Present(column), FitColumn(column).fill.value)
  {
    var vals := Present(column);
    if vals != [] {
      ModeIsDominant(vals);
    }
  }

  function ColumnOf(rows: seq<FeatureRow>, column: Categorical): seq<Option<Cell>>
  {
    seq(|rows|, i requires 0 <= i < |rows| => CellIn(rows[i], column))
  }

  function CellIn(row: FeatureRow, column: Categorical): Option<Cell>
  {
    match column
    case ProductCategory => row.productCategory
    case ChannelId => row.channelId
    case PricingStrategy => row.pricingStrategy
  }

  function Fit(rows: seq<FeatureRow>): Preprocessor
  {
    Preprocessor(FitColumn(ColumnOf(rows, ProductCategory)),
                 FitColumn(ColumnOf(rows, ChannelId)),
                 FitColumn(ColumnOf(rows, PricingStrategy)))
  }

  function EncoderFor(p: Preprocessor, column: Categorical): ColumnEncoder
  {
    match column
    case ProductCategory => p.product
    case ChannelId => p.channel
    case PricingStrategy => p.pricing
  }

  function Impute(e: ColumnEncoder, v: Option<Cell>): Option<Cell>
  {
    if v.Some? then v else e.fill
  }

  /** One-hot encoding with handle_unknown="ignore": a 1 in the position of
      the (imputed) value's category, and all zeros for a value not seen
      when fitting. It never fails. */
  function Encode(e: ColumnEncoder, v: Option<Cell>): seq<int>
  {
    var w := Impute(e, v);
    seq(|e.categories|, k requires 0 <= k < |e.categories| => if w == Some(e.categories[k]) then 1 else 0)
  }

  /** The encoding read back, as OneHotEncoder.inverse_transform does: the
      category of the first 1, or nothing for an all-zero block. */
  function Decode(categories: seq<Cell>, bits: seq<int>): Option<Cell>
    requires |bits| == |categories|
  {
    if bits == [] then None
    else if bits[0] == 1 then Some(categories[0])
    else Decode(categories[1..], bits[1..])
  }

  function SumBits(bits: seq<int>): int
  {
    if bits == [] then 0 else bits[0] + SumBits(bits[1..])
  }

  /** A category seen when fitting encodes to exactly one 1, in its own
      position; any other value encodes to all zeros; and decoding the
      encoding gives back the seen category, or nothing. */
  lemma {:induction false} EncodeDecode(categories: seq<Cell>, fill: Option<Cell>, v: Option<Cell>)
    requires StrictlySorted(categories)
    ensures var e := ColumnEncoder(fill, categories);
      var bits, w := Encode(e, v), Impute(e, v);
      && |bits| == |categories|
      && (forall k :: 0 <= k < |bits| ==> (bits[k] == 1 <==> w == Some(categories[k])) && (bits[k] == 0 || bits[k] == 1))
      && SumBits(bits) == (if w.Some? && w.value in categories then 1 else 0)
      && Decode(categories, bits) == (if w.Some? && w.value in categories then w else None)
    decreases |categories|
  {
    var e := ColumnEncoder(fill, categories);
    var bits, w := Encode(e, v), Impute(e, v);
    if categories != [] {
      var e' := ColumnEncoder(fill, categories[1..]);
      var v' := if v.Some? then v else fill;
      assert Impute(e', v') == w;
      EncodeDecode(categories[1..], fill, v');
      assert Encode(e', v') == bits[1..];
      HeadNotInTail(categories);
    }
  }

  /** The transformed categorical columns: the three one-hot blocks in
      CATEGORICAL_FEATURES order. */
  function Transform(p: Preprocessor, row: FeatureRow): seq<int>
  {
    Encode(p.product, row.productCategory) + Encode(p.channel, row.channelId)
      + Encode(p.pricing, row.pricingStrategy)
  }

  // ---------------------------------------------------------------------
  // feature_names

  datatype FeatureName = Numeric(name: string) | OneHot(column: Categorical, category: Cell)

  const NumericFeatures: seq<string> :=
    ["recency_days", "transaction_count", "total_transaction_value", "avg_transaction_value"]

  function CategoryNames(column: Categorical, e: ColumnEncoder): seq<FeatureName>
  {
    seq(|e.categories|, k requires 0 <= k < |e.categories| => OneHot(column, e.categories[k]))
  }

  /** NUMERIC_FEATURES followed by get_feature_names_out(CATEGORICAL_FEATURES). */
  function FeatureNames(p: Preprocessor): seq<FeatureName>
  {
    seq(|NumericFeatures|, i requires 0 <= i < |NumericFeatures| => Numeric(NumericFeatures[i]))
      + CategoryNames(ProductCategory, p.product)
      + CategoryNames(ChannelId, p.channel)
      + CategoryNames(PricingStrategy, p.pricing)
  }

  /** The names match the transformed columns: one name per numeric column,
      then for every one-hot column the category it stands for, which is 1
      exactly when the row's imputed value is that category. */
  lemma FeatureNamesMatchColumns(p: Preprocessor, row: FeatureRow)
    ensures |FeatureNames(p)| == |NumericFeatures| + |Transform(p, row)|
    ensures forall q :: 0 <= q < |Transform(p, row)| ==>
      var name := FeatureNames(p)[|NumericFeatures| + q];
      && name.OneHot?
      && (Transform(p, row)[q] == 1 <==> Impute(EncoderFor(p, name.column), CellIn(row, name.column)) == Some(name.category))
      && (Transform(p, row)[q] == 0 || Transform(p, row)[q] == 1)
  {
    var names, bits := FeatureNames(p), Transform(p, row);
    var n1, n2 := |p.product.categories|, |p.channel.categories|;
    forall q | 0 <= q < |bits|
      ensures var name := names[|NumericFeatures| + q];
        && name.OneHot?
        && (bits[q] == 1 <==> Impute(EncoderFor(p, name.column), CellIn(row, name.column)) == Some(name.category))
        && (bits[q] == 0 || bits[q] == 1)
    {
      if q < n1 {
        assert names[|NumericFeatures| + q] == OneHot(ProductCategory, p.product.categories[q]);
      } else if q < n1 + n2 {
        assert names[|NumericFeatures| + q] == OneHot(ChannelId, p.channel.categories[q - n1]);
      } else {
        assert names[|NumericFeatures| + q] == OneHot(PricingStrategy, p.pricing.categories[q - n1 - n2]);
      }
    }
  }

  /** Fitting and transforming the merged table: every row of the table fit
      on has, in each of the three one-hot blocks, exactly one 1, and reading
      the block back gives the customer's dominant value. */
  lemma FitTransformOneHotPerColumn(txs: seq<Transaction>)
    ensures var full := FullTable(txs);
      var p := Fit(full);
      forall i :: 0 <= i < |full| ==>
        && SumBits(Encode(p.product, full[i].productCategory)) == 1
        && SumBits(Encode(p.channel, full[i].channelId)) == 1
        && SumBits(Encode(p.pricing, full[i].pricingStrategy)) == 1
        && Decode(p.product.categories, Encode(p.product, full[i].productCategory)) == full[i].productCategory
        && Decode(p.channel.categories, Encode(p.channel, full[i].channelId)) == full[i].channelId
        && Decode(p.pricing.categories, Encode(p.pricing, full[i].pricingStrategy)) == full[i].pricingStrategy
  {
    var full := FullTable(txs);
    var p := Fit(full);
    FullTableRows(txs);
    FitColumnLearns(ColumnOf(full, ProductCategory));
    FitColumnLearns(ColumnOf(full, ChannelId));
    FitColumnLearns(ColumnOf(full, PricingStrategy));
    forall i | 0 <= i < |full|
      ensures SumBits(Encode(p.product, full[i].productCategory)) == 1
      ensures SumBits(Encode(p.channel, full[i].channelId)) == 1
      ensures SumBits(Encode(p.pricing, full[i].pricingStrategy)) == 1
      ensures Decode(p.product.categories, Encode(p.product, full[i].productCategory)) == full[i].productCategory
      ensures Decode(p.channel.categories, Encode(p.channel, full[i].channelId)) == full[i].channelId
      ensures Decode(p.pricing.categories, Encode(p.pricing, full[i].pricingStrategy)) == full[i].pricingStrategy
    {
      assert ColumnOf(full, ProductCategory)[i] == full[i].productCategory;
      assert ColumnOf(full, ChannelId)[i] == full[i].channelId;
      assert ColumnOf(full, PricingStrategy)[i] == full[i].pricingStrategy;
      EncodeDecode(p.product.categories, p.product.fill, full[i].productCategory);
      EncodeDecode(p.channel.categories, p.channel.fill, full[i].channelId);
      EncodeDecode(p.pricing.categories, p.pricing.fill, full[i].pricingStrategy);
    }
  }
}
