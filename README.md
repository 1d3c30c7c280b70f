# Real-time sales dashboard — a Dafny model

This project models the logic at the core of a small Express/MongoDB/Redis sales dashboard.

- **Transaction record.** This is the Mongoose schema of a sale. Every field except `processed` is required, `processed` defaults to false, and `transaction_id` is unique.
- **Aggregation endpoints.** There are thirteen of them under `/transactions/aggregations/*`. Each is a fixed MongoDB pipeline (`$group` with `$sum`, `$addToSet` or `$first`, then `$sort` and `$limit`), followed by a reshaping of the documents. Each endpoint is modelled as a pure function over the collection (`seq<Transaction>`), built from a reference semantics of those stages:
  - `Grouping.GroupBy`: one bucket per key, holding the key's sum and count.
  - `Sorting.SortBy`: a sort by a total preorder.
  - `Seqs.Take`: `$limit`.
  - `Seqs.Distinct`: `$addToSet` and `new Set`.
- **Cache-aside lookup of one transaction** (`GET /transactions/:id`). A middleware checks the Redis cache and either answers or hands on. The router then reads the cache, falls back to the store, and writes the record back with a one-hour expiry. The model is a class, `CacheAside.TransactionLookup`, whose fields are the cache map, the store map and two reachability flags. Its methods are the middleware check, the router lookup, and the whole request.
- **Listening port.** `PORT` from the environment, or 3000.
- **Dashboard data shaping.** Charts take label and value arrays from the responses. The stacked "top location per product" chart uses a location-by-product pivot.

Modelling decisions:
- Prices and amounts are integers, in the smallest currency unit.
- Timestamps are calendar dates that have already been decoded.
- MongoDB does not fix the order of `$group` output, or the order of ties after `$sort`. The model groups in first-appearance order, and its lemmas state only contents, sortedness and lengths. They never state the order of ties.
- String order in `$sort` is code-point lexicographic order (`Collation.StrLe`).
- The geocoder is a parameter of type `string -> GeoAnswer`. Each call throws, resolves to coordinates, or resolves to nothing.

## Model

| member | source | states |
|---|---|---|
| TransactionModel.Validate | models/Transaction.js:4-58 | a document is accepted iff every required path (all fields but `processed`) is present; required strings must be non-empty and the timestamp a calendar date; an accepted record is valid, keeps every given field and has `processed` false unless given true; a rejected one reports exactly the failing paths, in schema order, never none |
| TransactionModel.ValidateToRaw | models/Transaction.js:4-58 | every valid stored record validates back to itself |
| TransactionModel.ValidityIgnoresAmounts | models/Transaction.js:34-45 | acceptance does not depend on the values of quantity, unit price or total price: there is no minimum and no relation between them |
| TransactionModel.Save | models/Transaction.js:5-9 | an insert succeeds iff the document validates and its `transaction_id` is not already taken; on success the collection gains exactly that record and keeps `transaction_id` unique; an invalid document fails with its failing paths |
| Seqs.Distinct | public/js/dashboard.js:162 | the result has no duplicates, holds every element of the input and nothing else, and is no longer than the input |
| Seqs.DistinctKeepsFirstAppearanceOrder | public/js/dashboard.js:162-163 | the distinct elements come out in the order of their first appearance |
| Seqs.Take | routes/transactions.js:94 | `$limit: n` keeps the first min(n, length) elements, in order |
| Sorting.SortBySorted | routes/transactions.js:15 | sorting by a total preorder yields a sequence sorted by it |
| Sorting.SortBySameElements | routes/transactions.js:15 | sorting keeps exactly the elements it was given (the multiset is kept as well, by `SortBy`'s own contract) |
| Collation.StrLeIsTotalOrder | routes/transactions.js:181 | the string order used by `$sort: { _id: 1 }` is total, transitive and antisymmetric |
| Grouping.GroupByPartitions | routes/transactions.js:14 | `$group` yields one bucket per distinct key, no key twice, each bucket holding the sum and count of its key's transactions |
| Grouping.GroupByConserves | routes/transactions.js:14 | the bucket sums add up to the collection's sum, and the counts add up to its size |
| Grouping.AggregateSpec | routes/transactions.js:14-15 | after `$sort` the buckets still partition the collection and conserve its sum and size |
| Aggregations.SalesVolumeByCategorySpec | routes/transactions.js:13-21 | one row per category, each with the category's total quantity, non-increasing by quantity, adding up to all units sold |
| Aggregations.TotalSalesByPaymentMethodSpec | routes/transactions.js:33-41 | one row per payment method with its total sales, non-increasing, adding up to the collection's total price |
| Aggregations.SalesByDaySpec | routes/transactions.js:53-72 | one group per calendar day holding that day's total sales, in strictly increasing date order, conserving the total |
| Aggregations.SalesOverTimeSpec | routes/transactions.js:75-78 | each row is its day labelled `year-month-day` with the day's sales, and no two rows share a label |
| Aggregations.Decimal | routes/transactions.js:76 | a number renders as a non-empty string of digits with no leading zero unless it is 0 |
| Aggregations.DecimalRoundTrip | routes/transactions.js:76 | reading the rendered digits back gives the number: the label holds its own unpadded decimal numeral |
| Aggregations.DecimalInjective | routes/transactions.js:76 | different numbers render differently |
| Aggregations.DateLabelInjective | routes/transactions.js:76 | different days get different unpadded labels |
| Aggregations.ProductRankingSpec | routes/transactions.js:91-93 | one row per product name with its total quantity, non-increasing, one row per distinct name |
| Aggregations.TopSellingProductsSpec | routes/transactions.js:91-100 | the top list has min(10, distinct products) rows, is a prefix of the full ranking, non-increasing, no product twice, each with its total quantity |
| Aggregations.TopSellingProductsAreTheTop | routes/transactions.js:91-94 | a product left out of the top list sold no more than any product in it |
| Aggregations.SalesDistributionByLocationSpec | routes/transactions.js:112-119 | one row per location with its total sales, adding up to the collection's total price |
| Aggregations.TotalQuantityPriceAndCustomersSpec | routes/transactions.js:131-151 | an empty collection gives zeros; otherwise the totals are the sums of quantity and total price, and `totalCustomers` is the number of distinct customer ids |
| Aggregations.TotalCustomersCountsDistinctCustomers | routes/transactions.js:137-146 | two transactions of one customer count as one customer, not two |
| Aggregations.CategoryVolumesAddUpToTotalQuantity | routes/transactions.js:131-151 | the category volumes of sales-volume-by-category add up to `totalQuantity` of the totals endpoint |
| Aggregations.SalesByCategorySpec | routes/transactions.js:224-234 | one row per category with its total sales and transaction count, non-increasing by sales, sums and counts conserved |
| Aggregations.TransactionsByPaymentMethodSpec | routes/transactions.js:247-256 | one row per payment method with its number of transactions, non-increasing, counts adding up to the collection size |
| Aggregations.RevenueByCustomerSpec | routes/transactions.js:269-279 | one row per customer with total revenue and count, non-increasing by revenue, both conserved |
| Aggregations.QuantityByProductSpec | routes/transactions.js:292-301 | one row per product id with its total quantity, non-increasing, conserving all units sold |
| Aggregations.SalesByMonthSpec | routes/transactions.js:317-328 | for valid records, one row per month with its sales and count, ids within 1..12 and strictly ascending, at most 12 rows, counts adding up to the collection size and sales to its total |
| Aggregations.MonthsAscending | routes/transactions.js:326 | month rows come out strictly ascending |
| Aggregations.ProductThenQuantityIsTotalPreorder | routes/transactions.js:169 | sorting by product ascending, then quantity descending, is a total preorder |
| Aggregations.FirstPerProductSpec | routes/transactions.js:172-178 | on groups sorted by product then quantity, `$first` gives one row per product, covering every product, each row an existing group whose quantity is at least that of every group of its product |
| Aggregations.TopLocationByProductSpec | routes/transactions.js:159-189 | one row per product sold, products strictly ascending; each row's (product, location) pair occurs, its quantity is that pair's total, and no location of the product sold more |
| Aggregations.WithCoordinates | routes/transactions.js:362-381 | a row keeps location, total sales and count, and has coordinates iff the lookup resolved to some coordinates, which are then exactly the returned latitude and longitude |
| Aggregations.SalesDistributionWithCoordinatesSpec | routes/transactions.js:346-384 | min(5, distinct locations) rows, non-increasing by sales, no location twice, each with its location's sales and count; coordinates come from a successful lookup, and are null when it throws or resolves to nothing |
| Aggregations.LocationsLeftOutSoldNoMore | routes/transactions.js:346-355 | a location left out of the five sold no more than any location kept |
| Aggregations.CoordinatesArePerRow | routes/transactions.js:361-384 | a row depends only on its own location's lookup, so a failing lookup leaves every other row unchanged |
| Aggregations.AsWrittenCoordinatesAreAllNull | routes/transactions.js:363 | with `getCoordinates` undefined, every row's latitude and longitude are null |
| CacheAside.CacheKeyInjective | app.js:24 | the key `transaction:${id}` determines the id |
| CacheAside.Render | routes/transactions.js:203-218 | status 200 with the document iff the record was cached or found, 404 with "Transaction non trouvée" if absent, 500 with "Erreur interne du serveur" on a failure |
| CacheAside.TransactionLookup.CheckCache | app.js:21-37 | a failed cache read answers 500 without handing on; a cached record is answered with its parsed value and the router does not run; a miss hands on and answers nothing |
| CacheAside.TransactionLookup.Lookup | routes/transactions.js:199-219 | a hit returns the cached snapshot without reading the store; a miss reads the store once; an absent id gives NotFound with the cache unchanged; a found record is returned and cached under its key with a 3600-second expiry, with no other key changed; failed reads give Failed |
| CacheAside.TransactionLookup.HandleRequest | app.js:21-40 | the middleware's answer stands when it answers; otherwise the router runs on the cache as merged with writes made in between: a hit there is answered from it, a miss reads the store once and gives 500, 404, or 200 with the stored record written back under its key with the one-hour expiry, and the response is the router's rendering of that outcome |
| CacheAside.LookupTwice | routes/transactions.js:203-213 | two lookups of the same id in a row give the same response, and a record found on the first is not read from the store again |
| App.ListeningPort | app.js:58 | the port is `PORT` when it is set and non-empty, otherwise 3000 |
| App.PortOverride | app.js:58 | any non-empty `PORT` is used as is |
| App.EmptyPortIsUnset | app.js:58 | an empty `PORT` behaves like an unset one and gives 3000 |
| App.OnlyPortMatters | app.js:58 | no other environment variable affects the port |
| Dashboard.ChartOf | public/js/dashboard.js:30-33 | one label and one value per response row, in the response's order |
| Dashboard.CategoryChartSpec | public/js/dashboard.js:30-33 | the category chart shows every category once with its total quantity, largest first |
| Dashboard.PaymentMethodChartSpec | public/js/dashboard.js:57-60 | the payment chart shows every method once with its total sales, largest first |
| Dashboard.SalesOverTimeChartSpec | public/js/dashboard.js:75-78 | one point per day, labels distinct and in date order, each value the day's total |
| Dashboard.TopProductsChartSpec | public/js/dashboard.js:103-106 | at most ten distinct products, largest first, each with its total quantity |
| Dashboard.FindRow | public/js/dashboard.js:171 | `find` returns the first row matching product and location, or nothing iff no row matches |
| Dashboard.AxesSpec | public/js/dashboard.js:162-163 | products and locations each list every value that occurs exactly once, in first-appearance order |
| Dashboard.DatasetsSpec | public/js/dashboard.js:166-178 | one dataset per location in axis order, labelled by it, with one cell per product: the first matching row's quantity, or 0 if none |
| Dashboard.ProductsOfDistinctRows | public/js/dashboard.js:162 | when every product occurs once, the product axis is the rows' own order |
| Dashboard.CellOfDistinctRows | public/js/dashboard.js:171-172 | when every product occurs once, a product's cell is its quantity under its own location and 0 elsewhere |
| Dashboard.PivotOfTopLocations | public/js/dashboard.js:162-178 | on top-location-by-product rows, each product's column holds its quantity under its top location and 0 under every other |
| Dashboard.StackOfDistinctRows | public/js/dashboard.js:166-173 | when every product occurs once, the sum of a product's cells over all datasets is its quantity |
| Dashboard.StackedBarIsTopQuantity | public/js/dashboard.js:182-195 | in the stacked chart, each product's bar height is exactly the quantity at its top location |

## Left out

- MongoDB connection, query planning and the `transaction_id` index are not modelled (app.js:10-15, models/Transaction.js:61). `findById` is a map lookup by string id. Its cast error on malformed ids is not modelled: such ids simply miss.
- Express mechanics are not modelled: routing, `app.use` prefix matching, static files and view rendering. The middleware also sees `/transactions/aggregations/...` with id `aggregations`, so a failing cache read turns every aggregation request into a 500; this is framework path matching and is left out. The second `/` handler (app.js:62-70) is unreachable and refers to an undefined `db`.
- Redis client construction and events (cache.js) are not modelled. The cache is a map; a failed read is `cacheReachable == false`.
- Expiry is recorded as the TTL in each entry but never takes effect; there is no clock.
- CacheAside.TransactionLookup.Lookup: the write-back is not awaited, so its failure would not affect the response. It is modelled as always landing.
- Each aggregation handler's `catch` turns a database failure into a 500 with "Erreur interne du serveur", except total-quantity-price-and-customers, whose `catch` answers 500 with `{ error: err.message }` (routes/transactions.js:152-154). The queries are total functions of the collection, and neither error path is modelled.
- The `/test-coordinates/:location` endpoint is not modelled; it only forwards to the geocoder.
- `Promise.all` concurrency is modelled as an ordered, independent map over the rows.
- Floating-point sums of `total_price` are modelled as exact integer sums, and the `toFixed(2)` display (public/js/dashboard.js:17) is left out.
- Date parsing is left out. `$dateFromString`, `$year`, `$month` and `$dayOfMonth` are replaced by already-decoded dates. The two date queries disagree on the stored type of `timestamp`:
  - sales-over-time (routes/transactions.js:57) feeds it to `$dateFromString`, which expects a string.
  - sales-by-month (routes/transactions.js:320) applies `$month` to it, which expects a date.
  - The schema declares a date (models/Transaction.js:10-13), so sales-over-time as written would fail on stored records. Both queries are modelled on decoded dates.
- The browser side is left out: `fetch`, DOM updates, Chart.js rendering options and random colours. The chart height of a stacked bar is modelled as the sum of its cells (`Dashboard.StackHeight`).
- The `$limit: 5` of sales-distribution-with-coordinates is followed by a comment speaking of ten results. The model follows the code: five.
- Logging is left out.

## Findings

| source | as written | input that shows it | evidently intended | confidence | as-written member | corrected member |
|---|---|---|---|---|---|---|
| routes/transactions.js:363 | `getCoordinates` is neither defined nor imported anywhere in the repository. Every call throws a ReferenceError, which the per-row `catch` turns into null coordinates. | any collection with at least one transaction: every returned row has `latitude: null, longitude: null` | each row carries the coordinates a geocoder returns for its location | not executed; high (the name is unbound in every file) | Aggregations.AsWrittenCoordinatesAreAllNull | Aggregations.SalesDistributionWithCoordinatesSpec |
