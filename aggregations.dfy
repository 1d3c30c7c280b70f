/**
 * The named aggregation queries of routes/transactions.js, each a reference
 * semantics of its MongoDB pipeline followed by the handler's reshaping of the
 * documents. Every query is a pure function of the collection.
 */
module Aggregations {
  import opened Wrappers
  import opened Seqs
  import opened Sorting
  import opened Collation
  import opened TransactionModel
  import opened Grouping

  // The fields the pipelines group by and sum (`'$category'`, `'$quantity'`, ...).
  function CategoryOf(t: Transaction): string { t.category }
  function PaymentMethodOf(t: Transaction): string { t.paymentMethod }
  function ProductNameOf(t: Transaction): string { t.productName }
  function ProductIdOf(t: Transaction): string { t.productId }
  function LocationOf(t: Transaction): string { t.location }
  function CustomerIdOf(t: Transaction): string { t.customerId }
  function DayOf(t: Transaction): Date { t.timestamp }
  function MonthOf(t: Transaction): nat { t.timestamp.month }
  function ProductLocationOf(t: Transaction): (string, string) { (t.productName, t.location) }
  function Quantity(t: Transaction): int { t.quantity }
  function TotalPrice(t: Transaction): int { t.totalPrice }

  /** `$sort: { <sum>: -1 }` */
  predicate SumDesc<K>(a: Bucket<K>, b: Bucket<K>) { a.sum >= b.sum }

  lemma SumDescIsTotalPreorder<K(!new)>()
    ensures TotalPreorder(SumDesc<K>)
  {
  }

  /** Every key occurring in the collection has exactly one row, and each row holds its key's sum. */
  predicate OneRowPerKey<K(==), R>(ts: seq<Transaction>, key: Transaction -> K, val: Transaction -> int,
                                   r: seq<R>, rowKey: R -> K, rowSum: R -> int)
  {
    && DistinctBy(r, rowKey)
    && (forall k :: 0 <= k < |ts| ==> key(ts[k]) in MapSeq(r, rowKey))
    && (forall i :: 0 <= i < |r| ==>
          rowKey(r[i]) in MapSeq(ts, key) && rowSum(r[i]) == SumWhere(ts, key, rowKey(r[i]), val))
  }

  /** Each row's count is the number of transactions with its key. */
  predicate CountsPerKey<K(==), R>(ts: seq<Transaction>, key: Transaction -> K, r: seq<R>,
                                   rowKey: R -> K, rowCount: R -> int)
  {
    forall i :: 0 <= i < |r| ==> rowCount(r[i]) == SumWhere(ts, key, rowKey(r[i]), One)
  }

  predicate NonIncreasing<R>(r: seq<R>, f: R -> int)
  {
    forall i, j :: 0 <= i < j < |r| ==> f(r[i]) >= f(r[j])
  }

  /** Renaming the fields of group documents (the handlers' `.map`) keeps one row per key. */
  lemma RenamedRows<K, R>(ts: seq<Transaction>, key: Transaction -> K, val: Transaction -> int,
                          b: seq<Bucket<K>>, g: Bucket<K> -> R, rowKey: R -> K, rowSum: R -> int)
    requires Partitions(ts, key, val, b)
    requires forall x :: rowKey(g(x)) == x.key && rowSum(g(x)) == x.sum
    ensures OneRowPerKey(ts, key, val, MapSeq(b, g), rowKey, rowSum)
    ensures SumOf(MapSeq(b, g), rowSum) == SumOf(b, SumField)
    ensures |MapSeq(b, g)| == |Distinct(MapSeq(ts, key))|
  {
    var r := MapSeq(b, g);
    assert MapSeq(r, rowKey) == MapSeq(b, KeyOf);
    SumOfMapSeq(b, g, rowSum, SumField);
  }

  lemma RenamedCounts<K, R>(ts: seq<Transaction>, key: Transaction -> K, val: Transaction -> int,
                            b: seq<Bucket<K>>, g: Bucket<K> -> R, rowKey: R -> K, rowCount: R -> int)
    requires Partitions(ts, key, val, b)
    requires forall x :: rowKey(g(x)) == x.key && rowCount(g(x)) == x.count
    ensures CountsPerKey(ts, key, MapSeq(b, g), rowKey, rowCount)
    ensures SumOf(MapSeq(b, g), rowCount) == SumOf(b, CountField)
  {
    SumOfMapSeq(b, g, rowCount, CountField);
  }

  // ---------------------------------------------------------------------------
  // sales-volume-by-category: group by category, sum quantity, sort descending.

  datatype CategoryQuantity = CategoryQuantity(category: string, quantity: int)

  function ToCategoryQuantity(b: Bucket<string>): CategoryQuantity { CategoryQuantity(b.key, b.sum) }
  function CategoryQuantityKey(r: CategoryQuantity): string { r.category }
  function CategoryQuantityValue(r: CategoryQuantity): int { r.quantity }

  function SalesVolumeByCategory(ts: seq<Transaction>): seq<CategoryQuantity>
  {
    MapSeq(Aggregate(ts, CategoryOf, Quantity, SumDesc), ToCategoryQuantity)
  }

  lemma SalesVolumeByCategorySpec(ts: seq<Transaction>)
    ensures OneRowPerKey(ts, CategoryOf, Quantity, SalesVolumeByCategory(ts), CategoryQuantityKey, CategoryQuantityValue)
    ensures NonIncreasing(SalesVolumeByCategory(ts), CategoryQuantityValue)
    ensures SumOf(SalesVolumeByCategory(ts), CategoryQuantityValue) == SumOf(ts, Quantity)
  {
    var b := Aggregate(ts, CategoryOf, Quantity, SumDesc);
    AggregateSpec(ts, CategoryOf, Quantity, SumDesc);
    SumDescIsTotalPreorder<string>();
    SortBySorted(GroupBy(ts, CategoryOf, Quantity), SumDesc);
    RenamedRows(ts, CategoryOf, Quantity, b, ToCategoryQuantity, CategoryQuantityKey, CategoryQuantityValue);
  }

  // ---------------------------------------------------------------------------
  // total-sales-by-payment-method: group by payment method, sum total price, sort descending.

  datatype PaymentSales = PaymentSales(paymentMethod: string, totalSales: int)

  function ToPaymentSales(b: Bucket<string>): PaymentSales { PaymentSales(b.key, b.sum) }
  function PaymentSalesKey(r: PaymentSales): string { r.paymentMethod }
  function PaymentSalesValue(r: PaymentSales): int { r.totalSales }

  function TotalSalesByPaymentMethod(ts: seq<Transaction>): seq<PaymentSales>
  {
    MapSeq(Aggregate(ts, PaymentMethodOf, TotalPrice, SumDesc), ToPaymentSales)
  }

  lemma TotalSalesByPaymentMethodSpec(ts: seq<Transaction>)
    ensures OneRowPerKey(ts, PaymentMethodOf, TotalPrice, TotalSalesByPaymentMethod(ts), PaymentSalesKey, PaymentSalesValue)
    ensures NonIncreasing(TotalSalesByPaymentMethod(ts), PaymentSalesValue)
    ensures SumOf(TotalSalesByPaymentMethod(ts), PaymentSalesValue) == SumOf(ts, TotalPrice)
  {
    var b := Aggregate(ts, PaymentMethodOf, TotalPrice, SumDesc);
    AggregateSpec(ts, PaymentMethodOf, TotalPrice, SumDesc);
    SumDescIsTotalPreorder<string>();
    SortBySorted(GroupBy(ts, PaymentMethodOf, TotalPrice), SumDesc);
    RenamedRows(ts, PaymentMethodOf, TotalPrice, b, ToPaymentSales, PaymentSalesKey, PaymentSalesValue);
  }

  // ---------------------------------------------------------------------------
  // top-selling-products: group by product name, sum quantity, sort descending, keep 10.

  const TopProductsLimit: nat := 10

  datatype ProductQuantity = ProductQuantity(productName: string, quantity: int)

  function ToProductQuantity(b: Bucket<string>): ProductQuantity { ProductQuantity(b.key, b.sum) }
  function ProductQuantityKey(r: ProductQuantity): string { r.productName }
  function ProductQuantityValue(r: ProductQuantity): int { r.quantity }

  /** Every product, best-selling first: the pipeline without its `$limit`. */
  function ProductRanking(ts: seq<Transaction>): seq<ProductQuantity>
  {
    MapSeq(Aggregate(ts, ProductNameOf, Quantity, SumDesc), ToProductQuantity)
  }

  function TopSellingProducts(ts: seq<Transaction>): seq<ProductQuantity>
  {
    MapSeq(Take(Aggregate(ts, ProductNameOf, Quantity, SumDesc), TopProductsLimit), ToProductQuantity)
  }

  lemma ProductRankingSpec(ts: seq<Transaction>)
    ensures OneRowPerKey(ts, ProductNameOf, Quantity, ProductRanking(ts), ProductQuantityKey, ProductQuantityValue)
    ensures NonIncreasing(ProductRanking(ts), ProductQuantityValue)
    ensures |ProductRanking(ts)| == |Distinct(MapSeq(ts, ProductNameOf))|
  {
    var b := Aggregate(ts, ProductNameOf, Quantity, SumDesc);
    AggregateSpec(ts, ProductNameOf, Quantity, SumDesc);
    SumDescIsTotalPreorder<string>();
    SortBySorted(GroupBy(ts, ProductNameOf, Quantity), SumDesc);
    RenamedRows(ts, ProductNameOf, Quantity, b, ToProductQuantity, ProductQuantityKey, ProductQuantityValue);
  }

  lemma TopSellingProductsSpec(ts: seq<Transaction>)
    ensures |TopSellingProducts(ts)| == Min(TopProductsLimit, |Distinct(MapSeq(ts, ProductNameOf))|)
    ensures TopSellingProducts(ts) == ProductRanking(ts)[..|TopSellingProducts(ts)|]
    ensures NonIncreasing(TopSellingProducts(ts), ProductQuantityValue)
    ensures DistinctBy(TopSellingProducts(ts), ProductQuantityKey)
    ensures forall i :: 0 <= i < |TopSellingProducts(ts)| ==>
      TopSellingProducts(ts)[i].productName in MapSeq(ts, ProductNameOf) &&
      TopSellingProducts(ts)[i].quantity == SumWhere(ts, ProductNameOf, TopSellingProducts(ts)[i].productName, Quantity)
  {
    var b := Aggregate(ts, ProductNameOf, Quantity, SumDesc);
    var full, r := ProductRanking(ts), TopSellingProducts(ts);
    ProductRankingSpec(ts);
    assert r == full[..|r|];
  }

  /** In a ranking, an entry past the cut ranks no higher than any entry before it. */
  lemma RankingCut(ts: seq<Transaction>, full: seq<ProductQuantity>, n: nat)
    requires n <= |full|
    requires OneRowPerKey(ts, ProductNameOf, Quantity, full, ProductQuantityKey, ProductQuantityValue)
    requires NonIncreasing(full, ProductQuantityValue)
    ensures forall i, k ::
      (0 <= i < n && 0 <= k < |ts| && ts[k].productName !in MapSeq(full[..n], ProductQuantityKey)) ==>
      SumWhere(ts, ProductNameOf, ts[k].productName, Quantity) <= full[i].quantity
  {
    forall i, k | 0 <= i < n && 0 <= k < |ts| && ts[k].productName !in MapSeq(full[..n], ProductQuantityKey)
      ensures SumWhere(ts, ProductNameOf, ts[k].productName, Quantity) <= full[i].quantity
    {
      assert ProductNameOf(ts[k]) in MapSeq(full, ProductQuantityKey);
      var j :| 0 <= j < |full| && MapSeq(full, ProductQuantityKey)[j] == ts[k].productName;
      assert MapSeq(full[..n], ProductQuantityKey) == MapSeq(full, ProductQuantityKey)[..n];
      NotInPrefix(MapSeq(full, ProductQuantityKey), n, j);
      assert full[j].quantity == SumWhere(ts, ProductNameOf, ts[k].productName, Quantity);
      assert ProductQuantityValue(full[i]) >= ProductQuantityValue(full[j]);
    }
  }

  /** A product left out of the top list sold no more than any product in it. */
  lemma TopSellingProductsAreTheTop(ts: seq<Transaction>)
    ensures forall i, k ::
      (0 <= i < |TopSellingProducts(ts)| && 0 <= k < |ts| &&
       ts[k].productName !in MapSeq(TopSellingProducts(ts), ProductQuantityKey)) ==>
      SumWhere(ts, ProductNameOf, ts[k].productName, Quantity) <= TopSellingProducts(ts)[i].quantity
  {
    var full, r := ProductRanking(ts), TopSellingProducts(ts);
    ProductRankingSpec(ts);
    TopSellingProductsSpec(ts);
    RankingCut(ts, full, |r|);
  }

  // ---------------------------------------------------------------------------
  // sales-distribution-by-location: group by location, sum total price, no sort.

  datatype LocationSales = LocationSales(location: string, totalSales: int)

  function ToLocationSales(b: Bucket<string>): LocationSales { LocationSales(b.key, b.sum) }
  function LocationSalesKey(r: LocationSales): string { r.location }
  function LocationSalesValue(r: LocationSales): int { r.totalSales }

  /** The pipeline has no `$sort`: the order of its rows is not specified. */
  function SalesDistributionByLocation(ts: seq<Transaction>): seq<LocationSales>
  {
    MapSeq(GroupBy(ts, LocationOf, TotalPrice), ToLocationSales)
  }

  lemma SalesDistributionByLocationSpec(ts: seq<Transaction>)
    ensures OneRowPerKey(ts, LocationOf, TotalPrice, SalesDistributionByLocation(ts), LocationSalesKey, LocationSalesValue)
    ensures SumOf(SalesDistributionByLocation(ts), LocationSalesValue) == SumOf(ts, TotalPrice)
  {
    GroupByPartitions(ts, LocationOf, TotalPrice);
    GroupByConserves(ts, LocationOf, TotalPrice);
    RenamedRows(ts, LocationOf, TotalPrice, GroupBy(ts, LocationOf, TotalPrice), ToLocationSales, LocationSalesKey, LocationSalesValue);
  }

  // ---------------------------------------------------------------------------
  // total-quantity-price-and-customers: one `$group` over the whole collection,
  // then `$project` replaces the `$sum: 1` count by the size of the customer set.

  /** The `_id: null` group document before `$project`. */
  datatype TotalsGroup = TotalsGroup(totalQuantity: int, totalPrice: int, totalCustomers: int,
                                     uniqueCustomers: seq<string>)

  datatype Totals = Totals(totalQuantity: int, totalPrice: int, totalCustomers: int)

  /** A `$group` with `_id: null` yields one document, or none on an empty collection. */
  function GroupAll(ts: seq<Transaction>): seq<TotalsGroup>
  {
    if ts == [] then []
    else [TotalsGroup(SumOf(ts, Quantity), SumOf(ts, TotalPrice), SumOf(ts, One), Distinct(MapSeq(ts, CustomerIdOf)))]
  }

  function ProjectTotals(g: TotalsGroup): Totals
  {
    Totals(g.totalQuantity, g.totalPrice, |g.uniqueCustomers|)
  }

  /** `totals[0] || { totalQuantity: 0, totalPrice: 0, totalCustomers: 0 }` */
  function TotalQuantityPriceAndCustomers(ts: seq<Transaction>): Totals
  {
    var docs := MapSeq(GroupAll(ts), ProjectTotals);
    if |docs| > 0 then docs[0] else Totals(0, 0, 0)
  }

  lemma TotalQuantityPriceAndCustomersSpec(ts: seq<Transaction>)
    ensures ts == [] ==> TotalQuantityPriceAndCustomers(ts) == Totals(0, 0, 0)
    ensures TotalQuantityPriceAndCustomers(ts).totalQuantity == SumOf(ts, Quantity)
    ensures TotalQuantityPriceAndCustomers(ts).totalPrice == SumOf(ts, TotalPrice)
    ensures TotalQuantityPriceAndCustomers(ts).totalCustomers == |set c | c in MapSeq(ts, CustomerIdOf)|
  {
    var d := Distinct(MapSeq(ts, CustomerIdOf));
    if ts != [] {
      assert MapSeq(GroupAll(ts), ProjectTotals)[0] == ProjectTotals(GroupAll(ts)[0]);
    }
    NoDupCardinality(d);
    assert (set c | c in d) == (set c | c in MapSeq(ts, CustomerIdOf));
  }

  /** `totalCustomers` counts customers, not transactions: two purchases by one customer count once. */
  lemma TotalCustomersCountsDistinctCustomers(t: Transaction, u: Transaction)
    requires t.customerId == u.customerId
    ensures TotalQuantityPriceAndCustomers([t, u]).totalCustomers == 1
  {
    TotalQuantityPriceAndCustomersSpec([t, u]);
    var ts := [t, u];
    var ids := MapSeq(ts, CustomerIdOf);
    assert ids[0] == CustomerIdOf(ts[0]) && ids[1] == CustomerIdOf(ts[1]);
    assert forall c :: c in ids <==> c == t.customerId;
    assert (set c | c in MapSeq([t, u], CustomerIdOf)) == {t.customerId};
  }

  /**
   * The category volumes add up to the collection's total quantity, on an empty
   * collection too, where both are 0.
   */
  lemma CategoryVolumesAddUpToTotalQuantity(ts: seq<Transaction>)
    ensures SumOf(SalesVolumeByCategory(ts), CategoryQuantityValue) == TotalQuantityPriceAndCustomers(ts).totalQuantity
  {
    SalesVolumeByCategorySpec(ts);
    TotalQuantityPriceAndCustomersSpec(ts);
  }

  // ---------------------------------------------------------------------------
  // Queries answered with the raw group documents (`_id`, accumulators).

  /** sales-by-category: `{ _id: category, totalSales, count }`, descending by totalSales. */
  datatype CategorySales = CategorySales(id: string, totalSales: int, count: int)

  function ToCategorySales(b: Bucket<string>): CategorySales { CategorySales(b.key, b.sum, b.count) }
  function CategorySalesKey(r: CategorySales): string { r.id }
  function CategorySalesValue(r: CategorySales): int { r.totalSales }
  function CategorySalesCount(r: CategorySales): int { r.count }

  function SalesByCategory(ts: seq<Transaction>): seq<CategorySales>
  {
    MapSeq(Aggregate(ts, CategoryOf, TotalPrice, SumDesc), ToCategorySales)
  }

  lemma SalesByCategorySpec(ts: seq<Transaction>)
    ensures OneRowPerKey(ts, CategoryOf, TotalPrice, SalesByCategory(ts), CategorySalesKey, CategorySalesValue)
    ensures CountsPerKey(ts, CategoryOf, SalesByCategory(ts), CategorySalesKey, CategorySalesCount)
    ensures NonIncreasing(SalesByCategory(ts), CategorySalesValue)
    ensures SumOf(SalesByCategory(ts), CategorySalesValue) == SumOf(ts, TotalPrice)
    ensures SumOf(SalesByCategory(ts), CategorySalesCount) == |ts|
  {
    var b := Aggregate(ts, CategoryOf, TotalPrice, SumDesc);
    AggregateSpec(ts, CategoryOf, TotalPrice, SumDesc);
    SumDescIsTotalPreorder<string>();
    SortBySorted(GroupBy(ts, CategoryOf, TotalPrice), SumDesc);
    RenamedRows(ts, CategoryOf, TotalPrice, b, ToCategorySales, CategorySalesKey, CategorySalesValue);
    RenamedCounts(ts, CategoryOf, TotalPrice, b, ToCategorySales, CategorySalesKey, CategorySalesCount);
  }

  /** transactions-by-payment-method: `{ _id: payment_method, totalTransactions }`, descending. */
  datatype PaymentCount = PaymentCount(id: string, totalTransactions: int)

  function ToPaymentCount(b: Bucket<string>): PaymentCount { PaymentCount(b.key, b.sum) }
  function PaymentCountKey(r: PaymentCount): string { r.id }
  function PaymentCountValue(r: PaymentCount): int { r.totalTransactions }

  function TransactionsByPaymentMethod(ts: seq<Transaction>): seq<PaymentCount>
  {
    MapSeq(Aggregate(ts, PaymentMethodOf, One, SumDesc), ToPaymentCount)
  }

  lemma TransactionsByPaymentMethodSpec(ts: seq<Transaction>)
    ensures OneRowPerKey(ts, PaymentMethodOf, One, TransactionsByPaymentMethod(ts), PaymentCountKey, PaymentCountValue)
    ensures NonIncreasing(TransactionsByPaymentMethod(ts), PaymentCountValue)
    ensures SumOf(TransactionsByPaymentMethod(ts), PaymentCountValue) == |ts|
  {
    var b := Aggregate(ts, PaymentMethodOf, One, SumDesc);
    AggregateSpec(ts, PaymentMethodOf, One, SumDesc);
    SumDescIsTotalPreorder<string>();
    SortBySorted(GroupBy(ts, PaymentMethodOf, One), SumDesc);
    RenamedRows(ts, PaymentMethodOf, One, b, ToPaymentCount, PaymentCountKey, PaymentCountValue);
    CountIsLength(ts);
  }

  /** revenue-by-customer: `{ _id: customer_id, totalRevenue, count }`, descending by totalRevenue. */
  datatype CustomerRevenue = CustomerRevenue(id: string, totalRevenue: int, count: int)

  function ToCustomerRevenue(b: Bucket<string>): CustomerRevenue { CustomerRevenue(b.key, b.sum, b.count) }
  function CustomerRevenueKey(r: CustomerRevenue): string { r.id }
  function CustomerRevenueValue(r: CustomerRevenue): int { r.totalRevenue }
  function CustomerRevenueCount(r: CustomerRevenue): int { r.count }

  function RevenueByCustomer(ts: seq<Transaction>): seq<CustomerRevenue>
  {
    MapSeq(Aggregate(ts, CustomerIdOf, TotalPrice, SumDesc), ToCustomerRevenue)
  }

  lemma RevenueByCustomerSpec(ts: seq<Transaction>)
    ensures OneRowPerKey(ts, CustomerIdOf, TotalPrice, RevenueByCustomer(ts), CustomerRevenueKey, CustomerRevenueValue)
    ensures CountsPerKey(ts, CustomerIdOf, RevenueByCustomer(ts), CustomerRevenueKey, CustomerRevenueCount)
    ensures NonIncreasing(RevenueByCustomer(ts), CustomerRevenueValue)
    ensures SumOf(RevenueByCustomer(ts), CustomerRevenueValue) == SumOf(ts, TotalPrice)
    ensures SumOf(RevenueByCustomer(ts), CustomerRevenueCount) == |ts|
  {
    var b := Aggregate(ts, CustomerIdOf, TotalPrice, SumDesc);
    AggregateSpec(ts, CustomerIdOf, TotalPrice, SumDesc);
    SumDescIsTotalPreorder<string>();
    SortBySorted(GroupBy(ts, CustomerIdOf, TotalPrice), SumDesc);
    RenamedRows(ts, CustomerIdOf, TotalPrice, b, ToCustomerRevenue, CustomerRevenueKey, CustomerRevenueValue);
    RenamedCounts(ts, CustomerIdOf, TotalPrice, b, ToCustomerRevenue, CustomerRevenueKey, CustomerRevenueCount);
  }

  /** quantity-by-product: `{ _id: product_id, totalQuantity }`, descending. */
  datatype ProductIdQuantity = ProductIdQuantity(id: string, totalQuantity: int)

  function ToProductIdQuantity(b: Bucket<string>): ProductIdQuantity { ProductIdQuantity(b.key, b.sum) }
  function ProductIdQuantityKey(r: ProductIdQuantity): string { r.id }
  function ProductIdQuantityValue(r: ProductIdQuantity): int { r.totalQuantity }

  function QuantityByProduct(ts: seq<Transaction>): seq<ProductIdQuantity>
  {
    MapSeq(Aggregate(ts, ProductIdOf, Quantity, SumDesc), ToProductIdQuantity)
  }

  lemma QuantityByProductSpec(ts: seq<Transaction>)
    ensures OneRowPerKey(ts, ProductIdOf, Quantity, QuantityByProduct(ts), ProductIdQuantityKey, ProductIdQuantityValue)
    ensures NonIncreasing(QuantityByProduct(ts), ProductIdQuantityValue)
    ensures SumOf(QuantityByProduct(ts), ProductIdQuantityValue) == SumOf(ts, Quantity)
  {
    var b := Aggregate(ts, ProductIdOf, Quantity, SumDesc);
    AggregateSpec(ts, ProductIdOf, Quantity, SumDesc);
    SumDescIsTotalPreorder<string>();
    SortBySorted(GroupBy(ts, ProductIdOf, Quantity), SumDesc);
    RenamedRows(ts, ProductIdOf, Quantity, b, ToProductIdQuantity, ProductIdQuantityKey, ProductIdQuantityValue);
  }

  // ---------------------------------------------------------------------------
  // sales-over-time: group by calendar day, sum total price, sort by date, and
  // label each day with the template string `${year}-${month}-${day}`.

  function DigitChar(d: nat): char
    requires d < 10
  {
    (d + 48) as char
  }

  predicate IsDigits(s: string)
  {
    forall i :: 0 <= i < |s| ==> '0' <= s[i] <= '9'
  }

  /** The value of a digit character. */
  function DigitValue(c: char): nat
  {
    if '0' <= c <= '9' then (c as int - 48) as nat else 0
  }

  /** The number a string of decimal digits denotes, most significant digit first. */
  function DigitsValue(s: string): nat
  {
    if s == [] then 0 else 10 * DigitsValue(s[..|s| - 1]) + DigitValue(s[|s| - 1])
  }

  /** How a JavaScript template string renders a non-negative integer: decimal, no padding. */
  function Decimal(n: nat): (s: string)
    ensures |s| > 0 && IsDigits(s)
    ensures n > 0 ==> s[0] != '0'
    ensures n >= 10 ==> |s| >= 2
  {
    if n < 10 then [DigitChar(n)] else Decimal(n / 10) + [DigitChar(n % 10)]
  }

  /** Reading the rendered numeral back gives the number: `${n}` is n's own numeral. */
  lemma {:induction false} DecimalRoundTrip(n: nat)
    ensures DigitsValue(Decimal(n)) == n
  {
    if n >= 10 {
      var s := Decimal(n);
      assert s[..|s| - 1] == Decimal(n / 10);
      assert DigitValue(s[|s| - 1]) == n % 10;
      DecimalRoundTrip(n / 10);
    }
  }

  lemma DecimalInjective(a: nat, b: nat)
    requires Decimal(a) == Decimal(b)
    ensures a == b
  {
    DecimalRoundTrip(a);
    DecimalRoundTrip(b);
  }

  /** In a digit string followed by a dash, the first dash is the one after the digits. */
  lemma FirstDash(x: string, y: string)
    requires IsDigits(x)
    ensures |x + "-" + y| > |x| && (x + "-" + y)[|x|] == '-'
    ensures forall i :: 0 <= i < |x| ==> (x + "-" + y)[i] != '-'
  {
  }

  /** A digit string followed by a dash can be split off unambiguously. */
  lemma SplitAtDash(x: string, y: string, x': string, y': string)
    requires IsDigits(x) && IsDigits(x')
    requires x + "-" + y == x' + "-" + y'
    ensures x == x' && y == y'
  {
    var s := x + "-" + y;
    FirstDash(x, y);
    FirstDash(x', y');
    assert |x| == |x'|;
    assert x == s[..|x|] && x' == s[..|x'|];
    assert y == s[|x| + 1..] && y' == s[|x'| + 1..];
  }

  function DateLabel(d: Date): string
  {
    Decimal(d.year) + "-" + Decimal(d.month) + "-" + Decimal(d.day)
  }

  /** Different days get different labels, although the labels are not zero-padded. */
  lemma DateLabelInjective(a: Date, b: Date)
    requires DateLabel(a) == DateLabel(b)
    ensures a == b
  {
    var ma := Decimal(a.month) + "-" + Decimal(a.day);
    var mb := Decimal(b.month) + "-" + Decimal(b.day);
    assert DateLabel(a) == Decimal(a.year) + "-" + ma;
    assert DateLabel(b) == Decimal(b.year) + "-" + mb;
    SplitAtDash(Decimal(a.year), ma, Decimal(b.year), mb);
    SplitAtDash(Decimal(a.month), Decimal(a.day), Decimal(b.month), Decimal(b.day));
    DecimalInjective(a.year, b.year);
    DecimalInjective(a.month, b.month);
    DecimalInjective(a.day, b.day);
  }

  lemma DateLabelsDiffer(a: Date, b: Date)
    requires a != b
    ensures DateLabel(a) != DateLabel(b)
  {
    if DateLabel(a) == DateLabel(b) {
      DateLabelInjective(a, b);
    }
  }

  /** `$sort: { '_id.year': 1, '_id.month': 1, '_id.day': 1 }` */
  predicate DayAsc(a: Bucket<Date>, b: Bucket<Date>) { DateLe(a.key, b.key) }

  predicate DateLt(a: Date, b: Date) { DateLe(a, b) && a != b }

  lemma DayAscIsTotalPreorder()
    ensures TotalPreorder(DayAsc)
  {
  }

  /** The day groups, earliest first. */
  function SalesByDay(ts: seq<Transaction>): seq<Bucket<Date>>
  {
    Aggregate(ts, DayOf, TotalPrice, DayAsc)
  }

  datatype DailySales = DailySales(timestamp: string, totalSales: int)

  function ToDailySales(b: Bucket<Date>): DailySales { DailySales(DateLabel(b.key), b.sum) }
  function DailySalesLabel(r: DailySales): string { r.timestamp }

  function SalesOverTime(ts: seq<Transaction>): seq<DailySales>
  {
    MapSeq(SalesByDay(ts), ToDailySales)
  }

  lemma DaysSorted(ts: seq<Transaction>)
    ensures SortedBy(SalesByDay(ts), DayAsc)
  {
    DayAscIsTotalPreorder();
    SortBySorted(GroupBy(ts, DayOf, TotalPrice), DayAsc);
  }

  lemma DayKeysIncrease(b: seq<Bucket<Date>>)
    requires SortedBy(b, DayAsc) && DistinctBy(b, KeyOf)
    ensures forall i, j :: 0 <= i < j < |b| ==> DateLt(b[i].key, b[j].key)
  {
    forall i, j | 0 <= i < j < |b| ensures DateLt(b[i].key, b[j].key) {
      assert DayAsc(b[i], b[j]) && KeyOf(b[i]) != KeyOf(b[j]);
    }
  }

  lemma DaysIncrease(ts: seq<Transaction>)
    ensures forall i, j :: 0 <= i < j < |SalesByDay(ts)| ==> DateLt(SalesByDay(ts)[i].key, SalesByDay(ts)[j].key)
  {
    DaysSorted(ts);
    AggregateSpec(ts, DayOf, TotalPrice, DayAsc);
    DayKeysIncrease(SalesByDay(ts));
  }

  /** One group per day holding that day's sales, in strictly increasing date order. */
  lemma SalesByDaySpec(ts: seq<Transaction>)
    ensures Partitions(ts, DayOf, TotalPrice, SalesByDay(ts))
    ensures SumOf(SalesByDay(ts), SumField) == SumOf(ts, TotalPrice)
    ensures forall i, j :: 0 <= i < j < |SalesByDay(ts)| ==> DateLt(SalesByDay(ts)[i].key, SalesByDay(ts)[j].key)
  {
    DaysIncrease(ts);
    AggregateSpec(ts, DayOf, TotalPrice, DayAsc);
  }

  lemma LabelsDiffer(days: seq<Bucket<Date>>)
    requires forall i, j :: 0 <= i < j < |days| ==> DateLt(days[i].key, days[j].key)
    ensures DistinctBy(MapSeq(days, ToDailySales), DailySalesLabel)
  {
    var r := MapSeq(days, ToDailySales);
    forall i, j | 0 <= i < j < |r| ensures DailySalesLabel(r[i]) != DailySalesLabel(r[j]) {
      assert r[i] == ToDailySales(days[i]) && r[j] == ToDailySales(days[j]);
      assert r[i].timestamp == DateLabel(days[i].key) && r[j].timestamp == DateLabel(days[j].key);
      DateLabelsDiffer(days[i].key, days[j].key);
    }
  }

  /** The labelled rows follow the day groups, and no two rows share a label. */
  lemma SalesOverTimeSpec(ts: seq<Transaction>)
    ensures |SalesOverTime(ts)| == |SalesByDay(ts)|
    ensures forall i :: 0 <= i < |SalesOverTime(ts)| ==>
      SalesOverTime(ts)[i] == DailySales(DateLabel(SalesByDay(ts)[i].key), SalesByDay(ts)[i].sum)
    ensures DistinctBy(SalesOverTime(ts), DailySalesLabel)
  {
    DaysIncrease(ts);
    LabelsDiffer(SalesByDay(ts));
    assert SalesOverTime(ts) == MapSeq(SalesByDay(ts), ToDailySales);
  }

  // ---------------------------------------------------------------------------
  // sales-by-month: `{ _id: month, totalSales, count }`, ascending by month.

  /** `$sort: { '_id': 1 }` on month numbers */
  predicate MonthAsc(a: Bucket<nat>, b: Bucket<nat>) { a.key <= b.key }

  datatype MonthSales = MonthSales(id: nat, totalSales: int, count: int)

  lemma MonthAscIsTotalPreorder()
    ensures TotalPreorder(MonthAsc)
  {
  }

  function ToMonthSales(b: Bucket<nat>): MonthSales { MonthSales(b.key, b.sum, b.count) }
  function MonthSalesKey(r: MonthSales): nat { r.id }
  function MonthSalesValue(r: MonthSales): int { r.totalSales }
  function MonthSalesCount(r: MonthSales): int { r.count }

  function SalesByMonth(ts: seq<Transaction>): seq<MonthSales>
  {
    MapSeq(Aggregate(ts, MonthOf, TotalPrice, MonthAsc), ToMonthSales)
  }

  /** Strictly increasing months all within 1..12 number at most twelve. */
  lemma {:induction false} MonthAtLeastPosition(r: seq<MonthSales>, i: nat)
    requires i < |r|
    requires forall k :: 0 <= k < |r| ==> 1 <= r[k].id
    requires forall k, l :: 0 <= k < l < |r| ==> r[k].id < r[l].id
    ensures r[i].id >= i + 1
  {
    if i > 0 {
      MonthAtLeastPosition(r, i - 1);
    }
  }

  /** One row per month, in strictly increasing month order. */
  lemma MonthKeysIncrease(b: seq<Bucket<nat>>)
    requires SortedBy(b, MonthAsc) && DistinctBy(b, KeyOf)
    ensures forall i, j :: 0 <= i < j < |b| ==> b[i].key < b[j].key
  {
    forall i, j | 0 <= i < j < |b| ensures b[i].key < b[j].key {
      assert MonthAsc(b[i], b[j]) && KeyOf(b[i]) != KeyOf(b[j]);
    }
  }

  lemma MonthsSorted(ts: seq<Transaction>)
    ensures SortedBy(Aggregate(ts, MonthOf, TotalPrice, MonthAsc), MonthAsc)
  {
    MonthAscIsTotalPreorder();
    SortBySorted(GroupBy(ts, MonthOf, TotalPrice), MonthAsc);
  }

  /** The month groups come out in strictly increasing month order. */
  lemma MonthsAscending(ts: seq<Transaction>)
    ensures forall i, j :: 0 <= i < j < |SalesByMonth(ts)| ==> SalesByMonth(ts)[i].id < SalesByMonth(ts)[j].id
  {
    var b := Aggregate(ts, MonthOf, TotalPrice, MonthAsc);
    var r := SalesByMonth(ts);
    MonthsSorted(ts);
    AggregateSpec(ts, MonthOf, TotalPrice, MonthAsc);
    MonthKeysIncrease(b);
    assert r == MapSeq(b, ToMonthSales);
    forall i, j | 0 <= i < j < |r| ensures r[i].id < r[j].id {
      assert r[i] == MapSeq(b, ToMonthSales)[i] == ToMonthSales(b[i]);
      assert r[j] == MapSeq(b, ToMonthSales)[j] == ToMonthSales(b[j]);
      assert r[i].id == b[i].key && r[j].id == b[j].key;
    }
  }

  lemma MonthIdsOccur(ts: seq<Transaction>)
    ensures forall i :: 0 <= i < |SalesByMonth(ts)| ==> SalesByMonth(ts)[i].id in MapSeq(ts, MonthOf)
  {
    var b := Aggregate(ts, MonthOf, TotalPrice, MonthAsc);
    var r := SalesByMonth(ts);
    AggregateSpec(ts, MonthOf, TotalPrice, MonthAsc);
    assert r == MapSeq(b, ToMonthSales);
    forall i | 0 <= i < |r| ensures r[i].id in MapSeq(ts, MonthOf) {
      assert r[i] == ToMonthSales(b[i]);
      assert Summarises(ts, MonthOf, TotalPrice, b[i]);
    }
  }

  /** Month numbers of valid records lie in 1..12. */
  lemma MonthIdsInRange(ts: seq<Transaction>)
    requires forall k :: 0 <= k < |ts| ==> Valid(ts[k])
    ensures forall i :: 0 <= i < |SalesByMonth(ts)| ==> 1 <= SalesByMonth(ts)[i].id <= 12
  {
    var r := SalesByMonth(ts);
    MonthIdsOccur(ts);
    forall i | 0 <= i < |r| ensures 1 <= r[i].id <= 12 {
      var k :| 0 <= k < |ts| && MapSeq(ts, MonthOf)[k] == r[i].id;
      assert Valid(ts[k]) && MonthOf(ts[k]) == ts[k].timestamp.month;
      assert ValidDate(ts[k].timestamp);
    }
  }

  lemma AtMostTwelveMonths(r: seq<MonthSales>)
    requires forall i :: 0 <= i < |r| ==> 1 <= r[i].id <= 12
    requires forall i, j :: 0 <= i < j < |r| ==> r[i].id < r[j].id
    ensures |r| <= 12
  {
    if |r| > 12 {
      MonthAtLeastPosition(r, 12);
    }
  }

  lemma SalesByMonthSpec(ts: seq<Transaction>)
    requires forall k :: 0 <= k < |ts| ==> Valid(ts[k])
    ensures OneRowPerKey(ts, MonthOf, TotalPrice, SalesByMonth(ts), MonthSalesKey, MonthSalesValue)
    ensures CountsPerKey(ts, MonthOf, SalesByMonth(ts), MonthSalesKey, MonthSalesCount)
    ensures forall i :: 0 <= i < |SalesByMonth(ts)| ==> 1 <= SalesByMonth(ts)[i].id <= 12
    ensures forall i, j :: 0 <= i < j < |SalesByMonth(ts)| ==> SalesByMonth(ts)[i].id < SalesByMonth(ts)[j].id
    ensures |SalesByMonth(ts)| <= 12
    ensures SumOf(SalesByMonth(ts), MonthSalesValue) == SumOf(ts, TotalPrice)
    ensures SumOf(SalesByMonth(ts), MonthSalesCount) == |ts|
  {
    var b := Aggregate(ts, MonthOf, TotalPrice, MonthAsc);
    MonthsAscending(ts);
    MonthIdsInRange(ts);
    AtMostTwelveMonths(SalesByMonth(ts));
    AggregateSpec(ts, MonthOf, TotalPrice, MonthAsc);
    RenamedRows(ts, MonthOf, TotalPrice, b, ToMonthSales, MonthSalesKey, MonthSalesValue);
    RenamedCounts(ts, MonthOf, TotalPrice, b, ToMonthSales, MonthSalesKey, MonthSalesCount);
  }

  // ---------------------------------------------------------------------------
  // top-location-by-product: group by (product, location) summing quantity, sort
  // by product then quantity descending, keep the `$first` location per product,
  // and sort the result by product name.

  /** `$sort: { '_id.product': 1, 'totalQuantity': -1 }` */
  predicate ProductThenQuantity(a: Bucket<(string, string)>, b: Bucket<(string, string)>)
  {
    StrLt(a.key.0, b.key.0) || (a.key.0 == b.key.0 && a.sum >= b.sum)
  }

  lemma ProductThenQuantityIsTotalPreorder()
    ensures TotalPreorder(ProductThenQuantity)
  {
    StrLeIsTotalOrder();
  }

  function PairProduct(b: Bucket<(string, string)>): string { b.key.0 }

  /** The (product, location) groups in the order the second `$group` reads them. */
  function SortedPairs(ts: seq<Transaction>): seq<Bucket<(string, string)>>
  {
    Aggregate(ts, ProductLocationOf, Quantity, ProductThenQuantity)
  }

  datatype TopLocation = TopLocation(product: string, location: string, quantity: int)

  function TopLocationProduct(r: TopLocation): string { r.product }

  /** `$group: { _id: '$_id.product', topLocation: { $first: ... }, topQuantity: { $first: ... } }` */
  function FirstPerProduct(pairs: seq<Bucket<(string, string)>>): seq<TopLocation>
  {
    var products := MapSeq(pairs, PairProduct);
    var ps := Distinct(products);
    seq(|ps|, i requires 0 <= i < |ps| =>
      var b := pairs[FirstIndex(products, ps[i])];
      TopLocation(b.key.0, b.key.1, b.sum))
  }

  /** `$sort: { '_id': 1 }` on product names */
  predicate ProductAsc(a: TopLocation, b: TopLocation) { StrLe(a.product, b.product) }

  lemma ProductAscIsTotalPreorder()
    ensures TotalPreorder(ProductAsc)
  {
    StrLeIsTotalOrder();
  }

  function TopLocationByProduct(ts: seq<Transaction>): seq<TopLocation>
  {
    SortBy(FirstPerProduct(SortedPairs(ts)), ProductAsc)
  }

  /** The products of the rows are the distinct products of the groups, in first-appearance order. */
  lemma FirstPerProductKeys(pairs: seq<Bucket<(string, string)>>)
    ensures MapSeq(FirstPerProduct(pairs), TopLocationProduct) == Distinct(MapSeq(pairs, PairProduct))
  {
    var products := MapSeq(pairs, PairProduct);
    var ps := Distinct(products);
    var f := FirstPerProduct(pairs);
    forall i | 0 <= i < |f| ensures TopLocationProduct(f[i]) == ps[i] {
      var m := FirstIndex(products, ps[i]);
      assert products[m] == PairProduct(pairs[m]) == pairs[m].key.0;
      assert f[i].product == pairs[m].key.0 == products[m];
    }
  }

  /** Row `i` is read off the first group of its product. */
  lemma FirstPerProductRow(pairs: seq<Bucket<(string, string)>>, i: nat)
    requires i < |FirstPerProduct(pairs)|
    ensures FirstPerProduct(pairs)[i].product in MapSeq(pairs, PairProduct)
    ensures var products := MapSeq(pairs, PairProduct);
            var m := FirstIndex(products, FirstPerProduct(pairs)[i].product);
            m < |pairs| && FirstPerProduct(pairs)[i] == TopLocation(pairs[m].key.0, pairs[m].key.1, pairs[m].sum)
  {
    var products := MapSeq(pairs, PairProduct);
    var ps := Distinct(products);
    FirstPerProductKeys(pairs);
    assert MapSeq(FirstPerProduct(pairs), TopLocationProduct)[i] == FirstPerProduct(pairs)[i].product == ps[i];
  }

  lemma FirstPerProductIsMax(pairs: seq<Bucket<(string, string)>>, i: nat, k: nat)
    requires SortedBy(pairs, ProductThenQuantity)
    requires i < |FirstPerProduct(pairs)| && k < |pairs| && pairs[k].key.0 == FirstPerProduct(pairs)[i].product
    ensures pairs[k].sum <= FirstPerProduct(pairs)[i].quantity
  {
    var products := MapSeq(pairs, PairProduct);
    var p := FirstPerProduct(pairs)[i].product;
    FirstPerProductRow(pairs, i);
    var m := FirstIndex(products, p);
    assert products[k] == p;
    NotInPrefix(products, m, k);
    if m < k {
      assert ProductThenQuantity(pairs[m], pairs[k]);
    }
  }

  lemma FirstPerProductCovers(pairs: seq<Bucket<(string, string)>>)
    ensures DistinctBy(FirstPerProduct(pairs), TopLocationProduct)
    ensures forall k :: 0 <= k < |pairs| ==> pairs[k].key.0 in MapSeq(FirstPerProduct(pairs), TopLocationProduct)
  {
    var products := MapSeq(pairs, PairProduct);
    var f := FirstPerProduct(pairs);
    var names := MapSeq(f, TopLocationProduct);
    FirstPerProductKeys(pairs);
    assert NoDup(names);
    forall i, j | 0 <= i < j < |f| ensures TopLocationProduct(f[i]) != TopLocationProduct(f[j]) {
      assert names[i] == TopLocationProduct(f[i]) && names[j] == TopLocationProduct(f[j]);
    }
    forall k | 0 <= k < |pairs| ensures pairs[k].key.0 in names {
      assert products[k] == pairs[k].key.0;
    }
  }

  lemma FirstPerProductRowsOccur(pairs: seq<Bucket<(string, string)>>, i: nat)
    requires i < |FirstPerProduct(pairs)|
    ensures exists k :: 0 <= k < |pairs| && pairs[k].key == (FirstPerProduct(pairs)[i].product, FirstPerProduct(pairs)[i].location)
                                        && pairs[k].sum == FirstPerProduct(pairs)[i].quantity
  {
    FirstPerProductRow(pairs, i);
    var m := FirstIndex(MapSeq(pairs, PairProduct), FirstPerProduct(pairs)[i].product);
    assert pairs[m].key == (pairs[m].key.0, pairs[m].key.1);
  }

  /**
   * On groups sorted by product then quantity, `$first` picks, for every product,
   * one of its groups with the largest quantity.
   */
  lemma FirstPerProductSpec(pairs: seq<Bucket<(string, string)>>)
    requires SortedBy(pairs, ProductThenQuantity)
    ensures DistinctBy(FirstPerProduct(pairs), TopLocationProduct)
    ensures forall k :: 0 <= k < |pairs| ==> pairs[k].key.0 in MapSeq(FirstPerProduct(pairs), TopLocationProduct)
    ensures forall i :: 0 <= i < |FirstPerProduct(pairs)| ==>
      exists k :: 0 <= k < |pairs| && pairs[k].key == (FirstPerProduct(pairs)[i].product, FirstPerProduct(pairs)[i].location)
                                  && pairs[k].sum == FirstPerProduct(pairs)[i].quantity
    ensures forall i, k :: 0 <= i < |FirstPerProduct(pairs)| && 0 <= k < |pairs| && pairs[k].key.0 == FirstPerProduct(pairs)[i].product ==>
      pairs[k].sum <= FirstPerProduct(pairs)[i].quantity
  {
    FirstPerProductCovers(pairs);
    forall i | 0 <= i < |FirstPerProduct(pairs)|
      ensures exists k :: 0 <= k < |pairs| && pairs[k].key == (FirstPerProduct(pairs)[i].product, FirstPerProduct(pairs)[i].location)
                                          && pairs[k].sum == FirstPerProduct(pairs)[i].quantity
    {
      FirstPerProductRowsOccur(pairs, i);
    }
    forall i, k | 0 <= i < |FirstPerProduct(pairs)| && 0 <= k < |pairs| && pairs[k].key.0 == FirstPerProduct(pairs)[i].product
      ensures pairs[k].sum <= FirstPerProduct(pairs)[i].quantity
    {
      FirstPerProductIsMax(pairs, i, k);
    }
  }

  /**
   * `r` names a (product, location) pair that occurs, with that pair's total
   * quantity, and no location of the same product sold more of it.
   */
  predicate IsTopLocation(ts: seq<Transaction>, r: TopLocation)
  {
    && (r.product, r.location) in MapSeq(ts, ProductLocationOf)
    && r.quantity == SumWhere(ts, ProductLocationOf, (r.product, r.location), Quantity)
    && (forall k :: 0 <= k < |ts| && ts[k].productName == r.product ==>
          SumWhere(ts, ProductLocationOf, ProductLocationOf(ts[k]), Quantity) <= r.quantity)
  }

  lemma PairsSorted(ts: seq<Transaction>)
    ensures SortedBy(SortedPairs(ts), ProductThenQuantity)
  {
    ProductThenQuantityIsTotalPreorder();
    SortBySorted(GroupBy(ts, ProductLocationOf, Quantity), ProductThenQuantity);
  }

  lemma FirstRowIsTop(ts: seq<Transaction>, i: nat)
    requires i < |FirstPerProduct(SortedPairs(ts))|
    ensures IsTopLocation(ts, FirstPerProduct(SortedPairs(ts))[i])
  {
    var pairs := SortedPairs(ts);
    var row := FirstPerProduct(pairs)[i];
    PairsSorted(ts);
    AggregateSpec(ts, ProductLocationOf, Quantity, ProductThenQuantity);
    FirstPerProductRowsOccur(pairs, i);
    var k0 :| 0 <= k0 < |pairs| && pairs[k0].key == (row.product, row.location) && pairs[k0].sum == row.quantity;
    assert Summarises(ts, ProductLocationOf, Quantity, pairs[k0]);
    forall k | 0 <= k < |ts| && ts[k].productName == row.product
      ensures SumWhere(ts, ProductLocationOf, ProductLocationOf(ts[k]), Quantity) <= row.quantity
    {
      var m :| 0 <= m < |pairs| && MapSeq(pairs, KeyOf)[m] == ProductLocationOf(ts[k]);
      assert Summarises(ts, ProductLocationOf, Quantity, pairs[m]);
      FirstPerProductIsMax(pairs, i, m);
    }
  }

  lemma FirstRowsCoverProducts(ts: seq<Transaction>)
    ensures forall k :: 0 <= k < |ts| ==> ts[k].productName in MapSeq(FirstPerProduct(SortedPairs(ts)), TopLocationProduct)
  {
    var pairs := SortedPairs(ts);
    AggregateSpec(ts, ProductLocationOf, Quantity, ProductThenQuantity);
    FirstPerProductCovers(pairs);
    forall k | 0 <= k < |ts| ensures ts[k].productName in MapSeq(FirstPerProduct(pairs), TopLocationProduct) {
      var m :| 0 <= m < |pairs| && MapSeq(pairs, KeyOf)[m] == ProductLocationOf(ts[k]);
      assert pairs[m].key.0 == ts[k].productName;
    }
  }

  lemma ProductsIncrease(f: seq<TopLocation>)
    requires DistinctBy(SortBy(f, ProductAsc), TopLocationProduct)
    ensures forall i, j :: 0 <= i < j < |SortBy(f, ProductAsc)| ==>
      StrLt(SortBy(f, ProductAsc)[i].product, SortBy(f, ProductAsc)[j].product)
  {
    var r := SortBy(f, ProductAsc);
    ProductAscIsTotalPreorder();
    SortBySorted(f, ProductAsc);
    forall i, j | 0 <= i < j < |r| ensures StrLt(r[i].product, r[j].product) {
      assert ProductAsc(r[i], r[j]) && TopLocationProduct(r[i]) != TopLocationProduct(r[j]);
    }
  }

  /**
   * One row per product sold, in strictly increasing product-name order, each
   * naming a location where that product sold the most.
   */
  lemma TopLocationByProductSpec(ts: seq<Transaction>)
    ensures DistinctBy(TopLocationByProduct(ts), TopLocationProduct)
    ensures forall k :: 0 <= k < |ts| ==> ts[k].productName in MapSeq(TopLocationByProduct(ts), TopLocationProduct)
    ensures forall i, j :: 0 <= i < j < |TopLocationByProduct(ts)| ==>
      StrLt(TopLocationByProduct(ts)[i].product, TopLocationByProduct(ts)[j].product)
    ensures forall i :: 0 <= i < |TopLocationByProduct(ts)| ==> IsTopLocation(ts, TopLocationByProduct(ts)[i])
  {
    var f := FirstPerProduct(SortedPairs(ts));
    var r := TopLocationByProduct(ts);
    FirstPerProductCovers(SortedPairs(ts));
    SortByDistinctBy(f, ProductAsc, TopLocationProduct);
    ProductsIncrease(f);
    SortBySameElements(f, ProductAsc);
    FirstRowsCoverProducts(ts);
    MapSeqSameElements(f, r, TopLocationProduct);
    forall i | 0 <= i < |r| ensures IsTopLocation(ts, r[i]) {
      var j :| 0 <= j < |f| && f[j] == r[i];
      FirstRowIsTop(ts, j);
    }
  }

  // ---------------------------------------------------------------------------
  // sales-distribution-with-coordinates: group by location, sum total price and
  // count, sort descending, keep 5, then ask a geocoder for each location.

  const CoordinatesLimit: nat := 5

  datatype Coordinates = Coordinates(latitude: int, longitude: int)

  /** What one geocoder call does: it throws, or resolves to coordinates or to nothing. */
  datatype GeoAnswer = Throws | Returns(coordinates: Option<Coordinates>)

  datatype GeoSales = GeoSales(location: string, totalSales: int, count: int,
                               latitude: Option<int>, longitude: Option<int>)

  function GeoSalesLocation(r: GeoSales): string { r.location }
  function GeoSalesValue(r: GeoSales): int { r.totalSales }

  /** The location groups, best-selling first. */
  function LocationRanking(ts: seq<Transaction>): seq<Bucket<string>>
  {
    Aggregate(ts, LocationOf, TotalPrice, SumDesc)
  }

  /** A failed or empty lookup leaves both coordinates null; the sales figures are kept either way. */
  function WithCoordinates(b: Bucket<string>, answer: GeoAnswer): (r: GeoSales)
    ensures r.location == b.key && r.totalSales == b.sum && r.count == b.count
    ensures r.latitude.Some? <==> answer.Returns? && answer.coordinates.Some?
    ensures r.latitude.Some? <==> r.longitude.Some?
    ensures answer.Returns? && answer.coordinates.Some? ==>
              r.latitude == Some(answer.coordinates.value.latitude) &&
              r.longitude == Some(answer.coordinates.value.longitude)
  {
    match answer
    case Returns(Some(c)) => GeoSales(b.key, b.sum, b.count, Some(c.latitude), Some(c.longitude))
    case _ => GeoSales(b.key, b.sum, b.count, None, None)
  }

  function SalesDistributionWithCoordinates(ts: seq<Transaction>, geocode: string -> GeoAnswer): seq<GeoSales>
  {
    var top := Take(LocationRanking(ts), CoordinatesLimit);
    seq(|top|, i requires 0 <= i < |top| => WithCoordinates(top[i], geocode(top[i].key)))
  }

  lemma LocationRankingSpec(ts: seq<Transaction>)
    ensures Partitions(ts, LocationOf, TotalPrice, LocationRanking(ts))
    ensures SortedBy(LocationRanking(ts), SumDesc)
  {
    AggregateSpec(ts, LocationOf, TotalPrice, SumDesc);
    SumDescIsTotalPreorder<string>();
    SortBySorted(GroupBy(ts, LocationOf, TotalPrice), SumDesc);
  }

  /** Row `i` is the `i`-th best-selling location, enriched with its own lookup. */
  lemma GeoRow(ts: seq<Transaction>, geocode: string -> GeoAnswer, i: nat)
    requires i < |SalesDistributionWithCoordinates(ts, geocode)|
    ensures i < |LocationRanking(ts)|
    ensures SalesDistributionWithCoordinates(ts, geocode)[i] ==
            WithCoordinates(LocationRanking(ts)[i], geocode(LocationRanking(ts)[i].key))
  {
    var full := LocationRanking(ts);
    assert Take(full, CoordinatesLimit)[i] == full[i];
  }

  lemma GeoRowsRanked(ts: seq<Transaction>, geocode: string -> GeoAnswer)
    ensures |SalesDistributionWithCoordinates(ts, geocode)| == Min(CoordinatesLimit, |Distinct(MapSeq(ts, LocationOf))|)
    ensures NonIncreasing(SalesDistributionWithCoordinates(ts, geocode), GeoSalesValue)
    ensures DistinctBy(SalesDistributionWithCoordinates(ts, geocode), GeoSalesLocation)
  {
    var full := LocationRanking(ts);
    var r := SalesDistributionWithCoordinates(ts, geocode);
    LocationRankingSpec(ts);
    forall i, j | 0 <= i < j < |r|
      ensures GeoSalesValue(r[i]) >= GeoSalesValue(r[j]) && GeoSalesLocation(r[i]) != GeoSalesLocation(r[j])
    {
      GeoRow(ts, geocode, i);
      GeoRow(ts, geocode, j);
      assert SumDesc(full[i], full[j]) && KeyOf(full[i]) != KeyOf(full[j]);
    }
  }

  /** The sales figures of a row, and how its coordinates follow from its lookup. */
  predicate GeoRowSpec(ts: seq<Transaction>, geocode: string -> GeoAnswer, r: GeoSales)
  {
    && r.location in MapSeq(ts, LocationOf)
    && r.totalSales == SumWhere(ts, LocationOf, r.location, TotalPrice)
    && r.count == SumWhere(ts, LocationOf, r.location, One)
    && (geocode(r.location).Returns? && geocode(r.location).coordinates.Some? ==>
          r.latitude == Some(geocode(r.location).coordinates.value.latitude) &&
          r.longitude == Some(geocode(r.location).coordinates.value.longitude))
    && (geocode(r.location).Throws? || geocode(r.location) == Returns(None) ==>
          r.latitude == None && r.longitude == None)
  }

  lemma SalesDistributionWithCoordinatesSpec(ts: seq<Transaction>, geocode: string -> GeoAnswer)
    ensures |SalesDistributionWithCoordinates(ts, geocode)| == Min(CoordinatesLimit, |Distinct(MapSeq(ts, LocationOf))|)
    ensures NonIncreasing(SalesDistributionWithCoordinates(ts, geocode), GeoSalesValue)
    ensures DistinctBy(SalesDistributionWithCoordinates(ts, geocode), GeoSalesLocation)
    ensures forall i :: 0 <= i < |SalesDistributionWithCoordinates(ts, geocode)| ==>
      GeoRowSpec(ts, geocode, SalesDistributionWithCoordinates(ts, geocode)[i])
  {
    var full := LocationRanking(ts);
    var r := SalesDistributionWithCoordinates(ts, geocode);
    GeoRowsRanked(ts, geocode);
    LocationRankingSpec(ts);
    forall i | 0 <= i < |r| ensures GeoRowSpec(ts, geocode, r[i]) {
      GeoRow(ts, geocode, i);
      assert Summarises(ts, LocationOf, TotalPrice, full[i]);
    }
  }

  /** One location past the cut of a ranking by sales, against one location before it. */
  lemma LocationCutStep(ts: seq<Transaction>, full: seq<Bucket<string>>, n: nat, i: nat, k: nat)
    requires Partitions(ts, LocationOf, TotalPrice, full) && SortedBy(full, SumDesc)
    requires i < n <= |full| && k < |ts|
    requires ts[k].location !in MapSeq(full[..n], KeyOf)
    ensures SumWhere(ts, LocationOf, ts[k].location, TotalPrice) <= full[i].sum
  {
    var keys := MapSeq(full, KeyOf);
    assert LocationOf(ts[k]) in keys;
    var j := FirstIndex(keys, ts[k].location);
    assert keys[j] == KeyOf(full[j]) == full[j].key;
    assert MapSeq(full[..n], KeyOf) == keys[..n];
    NotInPrefix(keys, n, j);
    assert full[j].sum == SumWhere(ts, LocationOf, full[j].key, TotalPrice);
    assert SumDesc(full[i], full[j]);
  }

  /** In the location ranking, a location past the cut sold no more than any location before it. */
  lemma LocationRankingCut(ts: seq<Transaction>, n: nat)
    requires n <= |LocationRanking(ts)|
    ensures forall i, k ::
      (0 <= i < n && 0 <= k < |ts| && ts[k].location !in MapSeq(LocationRanking(ts)[..n], KeyOf)) ==>
      SumWhere(ts, LocationOf, ts[k].location, TotalPrice) <= LocationRanking(ts)[i].sum
  {
    var full := LocationRanking(ts);
    LocationRankingSpec(ts);
    forall i, k | 0 <= i < n && 0 <= k < |ts| && ts[k].location !in MapSeq(full[..n], KeyOf)
      ensures SumWhere(ts, LocationOf, ts[k].location, TotalPrice) <= full[i].sum
    {
      LocationCutStep(ts, full, n, i, k);
    }
  }

  /** A location cut by `$limit: 5` sold no more than any location kept. */
  lemma LocationsLeftOutSoldNoMore(ts: seq<Transaction>, geocode: string -> GeoAnswer)
    ensures forall i, k ::
      (0 <= i < |SalesDistributionWithCoordinates(ts, geocode)| && 0 <= k < |ts| &&
       ts[k].location !in MapSeq(SalesDistributionWithCoordinates(ts, geocode), GeoSalesLocation)) ==>
      SumWhere(ts, LocationOf, ts[k].location, TotalPrice) <= SalesDistributionWithCoordinates(ts, geocode)[i].totalSales
  {
    var full := LocationRanking(ts);
    var r := SalesDistributionWithCoordinates(ts, geocode);
    var n := |r|;
    assert n <= |full|;
    forall i | 0 <= i < n ensures MapSeq(r, GeoSalesLocation)[i] == MapSeq(full[..n], KeyOf)[i] && r[i].totalSales == full[i].sum {
      GeoRow(ts, geocode, i);
      assert MapSeq(r, GeoSalesLocation)[i] == r[i].location == full[i].key;
      assert MapSeq(full[..n], KeyOf)[i] == KeyOf(full[..n][i]) == full[i].key;
    }
    assert MapSeq(r, GeoSalesLocation) == MapSeq(full[..n], KeyOf);
    LocationRankingCut(ts, n);
  }

  /** Each row depends on its own lookup only: a failing lookup for one location does not disturb the others. */
  lemma CoordinatesArePerRow(ts: seq<Transaction>, g1: string -> GeoAnswer, g2: string -> GeoAnswer, i: nat)
    requires i < |SalesDistributionWithCoordinates(ts, g1)|
    ensures |SalesDistributionWithCoordinates(ts, g2)| == |SalesDistributionWithCoordinates(ts, g1)|
    ensures g1(SalesDistributionWithCoordinates(ts, g1)[i].location) == g2(SalesDistributionWithCoordinates(ts, g1)[i].location) ==>
      SalesDistributionWithCoordinates(ts, g1)[i] == SalesDistributionWithCoordinates(ts, g2)[i]
  {
    GeoRow(ts, g1, i);
    GeoRow(ts, g2, i);
  }

  /**
   * The handler calls `getCoordinates`, which the repository never defines nor
   * imports: every call throws a ReferenceError, which the per-row `catch` turns
   * into null coordinates.
   */
  function UndefinedGetCoordinates(location: string): GeoAnswer
  {
    Throws
  }

  /** As written, the endpoint never returns a coordinate. */
  lemma AsWrittenCoordinatesAreAllNull(ts: seq<Transaction>)
    ensures forall i :: 0 <= i < |SalesDistributionWithCoordinates(ts, UndefinedGetCoordinates)| ==>
      SalesDistributionWithCoordinates(ts, UndefinedGetCoordinates)[i].latitude == None &&
      SalesDistributionWithCoordinates(ts, UndefinedGetCoordinates)[i].longitude == None
  {
    forall i | 0 <= i < |SalesDistributionWithCoordinates(ts, UndefinedGetCoordinates)| {
      GeoRow(ts, UndefinedGetCoordinates, i);
    }
  }
}
