/**
 * The data shaping of public/js/dashboard.js: the chart label and value arrays
 * read off each aggregation response, and the location-by-product pivot built
 * from the top-location-by-product rows for a stacked bar chart.
 */
module Dashboard {
  import opened Wrappers
  import opened Seqs
  import opened Sorting
  import opened TransactionModel
  import opened Grouping
  import opened Aggregations

  // ---------------------------------------------------------------------------
  // Charts: `labels: data.map(item => item.<key>)`, `data: data.map(item => item.<value>)`.

  datatype Chart = Chart(labels: seq<string>, values: seq<int>)

  /** One label and one value per response row, in the response's order. */
  function ChartOf<R>(rows: seq<R>, labelOf: R -> string, valueOf: R -> int): (c: Chart)
    ensures |c.labels| == |rows| && |c.values| == |rows|
    ensures forall i :: 0 <= i < |rows| ==> c.labels[i] == labelOf(rows[i]) && c.values[i] == valueOf(rows[i])
  {
    Chart(MapSeq(rows, labelOf), MapSeq(rows, valueOf))
  }

  function CategoryChart(ts: seq<Transaction>): Chart
  {
    ChartOf(SalesVolumeByCategory(ts), CategoryQuantityKey, CategoryQuantityValue)
  }

  function PaymentMethodChart(ts: seq<Transaction>): Chart
  {
    ChartOf(TotalSalesByPaymentMethod(ts), PaymentSalesKey, PaymentSalesValue)
  }

  function SalesOverTimeChart(ts: seq<Transaction>): Chart
  {
    ChartOf(SalesOverTime(ts), DailySalesLabel, DailySalesValue)
  }

  function DailySalesValue(r: DailySales): int { r.totalSales }

  function TopProductsChart(ts: seq<Transaction>): Chart
  {
    ChartOf(TopSellingProducts(ts), ProductQuantityKey, ProductQuantityValue)
  }

  /** The chart shows each key once, each with its group's sum, largest first. */
  predicate ChartsGroups<K>(ts: seq<Transaction>, key: Transaction -> string, val: Transaction -> int, c: Chart)
  {
    && |c.labels| == |c.values|
    && NoDup(c.labels)
    && (forall i :: 0 <= i < |c.labels| ==> c.labels[i] in MapSeq(ts, key) && c.values[i] == SumWhere(ts, key, c.labels[i], val))
    && (forall i, j :: 0 <= i < j < |c.values| ==> c.values[i] >= c.values[j])
  }

  lemma ChartOfRows<R>(ts: seq<Transaction>, key: Transaction -> string, val: Transaction -> int,
                       rows: seq<R>, labelOf: R -> string, valueOf: R -> int)
    requires OneRowPerKey(ts, key, val, rows, labelOf, valueOf)
    requires NonIncreasing(rows, valueOf)
    ensures ChartsGroups<string>(ts, key, val, ChartOf(rows, labelOf, valueOf))
    ensures forall k :: 0 <= k < |ts| ==> key(ts[k]) in ChartOf(rows, labelOf, valueOf).labels
  {
    var c := ChartOf(rows, labelOf, valueOf);
    assert c.labels == MapSeq(rows, labelOf);
  }

  /** The category bar chart: every category once, with its total quantity, largest first, adding up to all units sold. */
  lemma CategoryChartSpec(ts: seq<Transaction>)
    ensures ChartsGroups<string>(ts, CategoryOf, Quantity, CategoryChart(ts))
    ensures forall k :: 0 <= k < |ts| ==> ts[k].category in CategoryChart(ts).labels
  {
    SalesVolumeByCategorySpec(ts);
    ChartOfRows(ts, CategoryOf, Quantity, SalesVolumeByCategory(ts), CategoryQuantityKey, CategoryQuantityValue);
  }

  /** The payment-method pie chart: every method once, with its total sales, largest first. */
  lemma PaymentMethodChartSpec(ts: seq<Transaction>)
    ensures ChartsGroups<string>(ts, PaymentMethodOf, TotalPrice, PaymentMethodChart(ts))
    ensures forall k :: 0 <= k < |ts| ==> ts[k].paymentMethod in PaymentMethodChart(ts).labels
  {
    TotalSalesByPaymentMethodSpec(ts);
    ChartOfRows(ts, PaymentMethodOf, TotalPrice, TotalSalesByPaymentMethod(ts), PaymentSalesKey, PaymentSalesValue);
  }

  /** The top-products bar chart: at most ten distinct products, largest first. */
  lemma TopProductsChartSpec(ts: seq<Transaction>)
    ensures |TopProductsChart(ts).labels| == Min(TopProductsLimit, |Distinct(MapSeq(ts, ProductNameOf))|)
    ensures NoDup(TopProductsChart(ts).labels)
    ensures forall i, j :: 0 <= i < j < |TopProductsChart(ts).values| ==> TopProductsChart(ts).values[i] >= TopProductsChart(ts).values[j]
    ensures forall i :: 0 <= i < |TopProductsChart(ts).labels| ==>
      TopProductsChart(ts).values[i] == SumWhere(ts, ProductNameOf, TopProductsChart(ts).labels[i], Quantity)
  {
    TopSellingProductsSpec(ts);
    assert TopProductsChart(ts).labels == MapSeq(TopSellingProducts(ts), ProductQuantityKey);
  }

  /** The sales line chart: one point per day, labels distinct, in date order, each the day's total. */
  lemma SalesOverTimeChartSpec(ts: seq<Transaction>)
    ensures |SalesOverTimeChart(ts).labels| == |SalesByDay(ts)|
    ensures NoDup(SalesOverTimeChart(ts).labels)
    ensures forall i :: 0 <= i < |SalesByDay(ts)| ==>
      SalesOverTimeChart(ts).labels[i] == DateLabel(SalesByDay(ts)[i].key) &&
      SalesOverTimeChart(ts).values[i] == SumWhere(ts, DayOf, SalesByDay(ts)[i].key, TotalPrice)
  {
    SalesOverTimeSpec(ts);
    SalesByDaySpec(ts);
    var days := SalesByDay(ts);
    forall i | 0 <= i < |days| ensures Summarises(ts, DayOf, TotalPrice, days[i]) {
    }
    assert SalesOverTimeChart(ts).labels == MapSeq(SalesOverTime(ts), DailySalesLabel);
  }

  // ---------------------------------------------------------------------------
  // The location-by-product pivot.

  function RowLocation(r: TopLocation): string { r.location }

  /** `[...new Set(data.map(item => item.product))]` */
  function Products(data: seq<TopLocation>): seq<string>
  {
    Distinct(MapSeq(data, TopLocationProduct))
  }

  /** `[...new Set(data.map(item => item.location))]` */
  function Locations(data: seq<TopLocation>): seq<string>
  {
    Distinct(MapSeq(data, RowLocation))
  }

  /** `data.find(item => item.product === product && item.location === location)` */
  function FindRow(data: seq<TopLocation>, product: string, location: string): (r: Option<nat>)
    ensures r.None? <==> forall k :: 0 <= k < |data| ==> !(data[k].product == product && data[k].location == location)
    ensures r.Some? ==> r.value < |data| && data[r.value].product == product && data[r.value].location == location
    ensures r.Some? ==> forall k :: 0 <= k < r.value ==> !(data[k].product == product && data[k].location == location)
  {
    if data == [] then None
    else if data[0].product == product && data[0].location == location then Some(0)
    else match FindRow(data[1..], product, location)
      case None => None
      case Some(k) => Some(k + 1)
  }

  /** `found ? found.quantity : 0` */
  function Cell(data: seq<TopLocation>, product: string, location: string): int
  {
    match FindRow(data, product, location)
    case Some(k) => data[k].quantity
    case None => 0
  }

  /** A Chart.js dataset: its `label` (the legend entry) and its `data`. */
  datatype Dataset = Dataset(legend: string, data: seq<int>)

  function DatasetLabel(d: Dataset): string { d.legend }

  /** One dataset per location, holding one cell per product. */
  function Datasets(data: seq<TopLocation>): seq<Dataset>
  {
    var products := Products(data);
    var locations := Locations(data);
    seq(|locations|, j requires 0 <= j < |locations| =>
      Dataset(locations[j], seq(|products|, i requires 0 <= i < |products| => Cell(data, products[i], locations[j]))))
  }

  lemma AxesCover(data: seq<TopLocation>)
    ensures forall k :: 0 <= k < |data| ==> data[k].product in Products(data) && data[k].location in Locations(data)
  {
    forall k | 0 <= k < |data| ensures data[k].product in Products(data) && data[k].location in Locations(data) {
      assert MapSeq(data, TopLocationProduct)[k] == TopLocationProduct(data[k]);
      assert MapSeq(data, RowLocation)[k] == RowLocation(data[k]);
    }
  }

  /** Each axis lists every value that occurs once, in the order of first appearance. */
  lemma AxesSpec(data: seq<TopLocation>)
    ensures NoDup(Products(data)) && NoDup(Locations(data))
    ensures forall k :: 0 <= k < |data| ==> data[k].product in Products(data) && data[k].location in Locations(data)
    ensures forall i :: 0 <= i < |Products(data)| ==> Products(data)[i] in MapSeq(data, TopLocationProduct)
    ensures forall j :: 0 <= j < |Locations(data)| ==> Locations(data)[j] in MapSeq(data, RowLocation)
    ensures forall i, j :: 0 <= i < j < |Products(data)| ==>
      FirstIndex(MapSeq(data, TopLocationProduct), Products(data)[i]) < FirstIndex(MapSeq(data, TopLocationProduct), Products(data)[j])
    ensures forall i, j :: 0 <= i < j < |Locations(data)| ==>
      FirstIndex(MapSeq(data, RowLocation), Locations(data)[i]) < FirstIndex(MapSeq(data, RowLocation), Locations(data)[j])
  {
    AxesCover(data);
    DistinctKeepsFirstAppearanceOrder(MapSeq(data, TopLocationProduct));
    DistinctKeepsFirstAppearanceOrder(MapSeq(data, RowLocation));
  }

  /** One dataset per location in axis order, labelled by it, with one cell per product: the first match's quantity, or 0. */
  lemma DatasetsSpec(data: seq<TopLocation>)
    ensures |Datasets(data)| == |Locations(data)|
    ensures forall j :: 0 <= j < |Datasets(data)| ==>
      Datasets(data)[j].legend == Locations(data)[j] && |Datasets(data)[j].data| == |Products(data)|
    ensures forall j, i :: 0 <= j < |Datasets(data)| && 0 <= i < |Products(data)| ==>
      var p, l := Products(data)[i], Locations(data)[j];
      && ((exists k :: 0 <= k < |data| && data[k].product == p && data[k].location == l) ==>
            exists k :: 0 <= k < |data| && data[k].product == p && data[k].location == l &&
                        Datasets(data)[j].data[i] == data[k].quantity &&
                        forall m :: 0 <= m < k ==> !(data[m].product == p && data[m].location == l))
      && ((forall k :: 0 <= k < |data| ==> !(data[k].product == p && data[k].location == l)) ==>
            Datasets(data)[j].data[i] == 0)
  {
    var ds := Datasets(data);
    forall j, i | 0 <= j < |ds| && 0 <= i < |Products(data)|
      ensures var p, l := Products(data)[i], Locations(data)[j];
        (exists k :: 0 <= k < |data| && data[k].product == p && data[k].location == l) ==>
          exists k :: 0 <= k < |data| && data[k].product == p && data[k].location == l &&
                      ds[j].data[i] == data[k].quantity &&
                      forall m :: 0 <= m < k ==> !(data[m].product == p && data[m].location == l)
    {
      var p, l := Products(data)[i], Locations(data)[j];
      var found := FindRow(data, p, l);
      if found.Some? {
        assert ds[j].data[i] == data[found.value].quantity;
      }
    }
  }

  /** When every product occurs once, the product axis is the rows' own order. */
  lemma ProductsOfDistinctRows(data: seq<TopLocation>)
    requires DistinctBy(data, TopLocationProduct)
    ensures Products(data) == MapSeq(data, TopLocationProduct)
  {
    var names := MapSeq(data, TopLocationProduct);
    forall a, b | 0 <= a < b < |names| ensures names[a] != names[b] {
      assert names[a] == TopLocationProduct(data[a]) && names[b] == TopLocationProduct(data[b]);
    }
    DistinctOfNoDup(names);
  }

  /** When every product occurs once, its cell under a location is its quantity there or 0. */
  lemma CellOfDistinctRows(data: seq<TopLocation>, i: nat, location: string)
    requires DistinctBy(data, TopLocationProduct) && i < |data|
    ensures Cell(data, data[i].product, location) == (if data[i].location == location then data[i].quantity else 0)
  {
    var found := FindRow(data, data[i].product, location);
    if found.Some? {
      assert TopLocationProduct(data[found.value]) == TopLocationProduct(data[i]);
    }
  }

  /**
   * On top-location-by-product rows, where each product appears once, the
   * product axis is the rows' own order and each product's column holds its
   * quantity under its top location and 0 under every other.
   */
  lemma PivotOfTopLocations(ts: seq<Transaction>)
    ensures Products(TopLocationByProduct(ts)) == MapSeq(TopLocationByProduct(ts), TopLocationProduct)
    ensures forall j, i :: 0 <= j < |Datasets(TopLocationByProduct(ts))| && 0 <= i < |TopLocationByProduct(ts)| ==>
      i < |Datasets(TopLocationByProduct(ts))[j].data| &&
      Datasets(TopLocationByProduct(ts))[j].data[i] ==
        (if TopLocationByProduct(ts)[i].location == Locations(TopLocationByProduct(ts))[j]
         then TopLocationByProduct(ts)[i].quantity else 0)
  {
    var data := TopLocationByProduct(ts);
    TopLocationByProductSpec(ts);
    ProductsOfDistinctRows(data);
    var ds := Datasets(data);
    forall j, i | 0 <= j < |ds| && 0 <= i < |data|
      ensures i < |ds[j].data| && ds[j].data[i] == (if data[i].location == Locations(data)[j] then data[i].quantity else 0)
    {
      assert Products(data)[i] == TopLocationProduct(data[i]);
      assert ds[j].data[i] == Cell(data, data[i].product, Locations(data)[j]);
      CellOfDistinctRows(data, i, Locations(data)[j]);
    }
  }

  /** The height of a product's stack: the sum of its cell over all datasets. */
  function StackHeight(ds: seq<Dataset>, i: nat): int
  {
    if ds == [] then 0 else (if i < |ds[0].data| then ds[0].data[i] else 0) + StackHeight(ds[1..], i)
  }

  lemma {:induction false} StackOfOneHit(ds: seq<Dataset>, i: nat, x: string, q: int)
    requires forall a, b :: 0 <= a < b < |ds| ==> ds[a].legend != ds[b].legend
    requires forall k :: 0 <= k < |ds| ==> i < |ds[k].data| && ds[k].data[i] == (if ds[k].legend == x then q else 0)
    ensures StackHeight(ds, i) == (if x in MapSeq(ds, DatasetLabel) then q else 0)
  {
    if ds != [] {
      StackOfOneHit(ds[1..], i, x, q);
      assert MapSeq(ds, DatasetLabel) == [ds[0].legend] + MapSeq(ds[1..], DatasetLabel);
      if ds[0].legend == x {
        forall k | 0 <= k < |ds[1..]| ensures MapSeq(ds[1..], DatasetLabel)[k] != x {
          assert ds[1..][k] == ds[k + 1];
          assert MapSeq(ds[1..], DatasetLabel)[k] == DatasetLabel(ds[1..][k]) == ds[k + 1].legend;
          assert ds[0].legend != ds[k + 1].legend;
        }
      }
    }
  }

  lemma DatasetsLegends(data: seq<TopLocation>)
    ensures MapSeq(Datasets(data), DatasetLabel) == Locations(data)
    ensures forall a, b :: 0 <= a < b < |Datasets(data)| ==> Datasets(data)[a].legend != Datasets(data)[b].legend
  {
    var ds := Datasets(data);
    assert MapSeq(ds, DatasetLabel) == Locations(data);
    forall a, b | 0 <= a < b < |ds| ensures ds[a].legend != ds[b].legend {
      assert ds[a].legend == Locations(data)[a] && ds[b].legend == Locations(data)[b];
    }
  }

  /** When every product occurs once, column `i` holds row `i`'s quantity under its location and 0 elsewhere. */
  lemma ColumnOfDistinctRows(data: seq<TopLocation>, i: nat)
    requires DistinctBy(data, TopLocationProduct) && i < |data|
    ensures forall k :: 0 <= k < |Datasets(data)| ==>
      i < |Datasets(data)[k].data| &&
      Datasets(data)[k].data[i] == (if Datasets(data)[k].legend == data[i].location then data[i].quantity else 0)
  {
    var ds := Datasets(data);
    ProductsOfDistinctRows(data);
    assert Products(data)[i] == TopLocationProduct(data[i]);
    forall k | 0 <= k < |ds| ensures i < |ds[k].data| && ds[k].data[i] == (if ds[k].legend == data[i].location then data[i].quantity else 0) {
      assert ds[k].legend == Locations(data)[k];
      assert ds[k].data[i] == Cell(data, data[i].product, Locations(data)[k]);
      CellOfDistinctRows(data, i, Locations(data)[k]);
    }
  }

  /** When every product occurs once, each product's stack is exactly its one row's quantity. */
  lemma StackOfDistinctRows(data: seq<TopLocation>, i: nat)
    requires DistinctBy(data, TopLocationProduct) && i < |data|
    ensures StackHeight(Datasets(data), i) == data[i].quantity
  {
    var ds := Datasets(data);
    var x := data[i].location;
    DatasetsLegends(data);
    ColumnOfDistinctRows(data, i);
    StackOfOneHit(ds, i, x, data[i].quantity);
    AxesCover(data);
    assert x in Locations(data);
    assert x in MapSeq(ds, DatasetLabel);
  }

  /** In the stacked chart, each product's bar is exactly its top location's quantity. */
  lemma StackedBarIsTopQuantity(ts: seq<Transaction>, i: nat)
    requires i < |TopLocationByProduct(ts)|
    ensures StackHeight(Datasets(TopLocationByProduct(ts)), i) == TopLocationByProduct(ts)[i].quantity
  {
    TopLocationByProductSpec(ts);
    StackOfDistinctRows(TopLocationByProduct(ts), i);
  }
}
