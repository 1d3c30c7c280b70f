/**
 * The transaction record of models/Transaction.js: its fields, the schema's
 * validation (required fields, the `processed` default) and the unique
 * business identifier `transaction_id`.
 */
module TransactionModel {
  import opened Wrappers

  /** A calendar date as MongoDB's `$year`, `$month` and `$dayOfMonth` decode it. */
  datatype Date = Date(year: nat, month: nat, day: nat)

  predicate IsLeapYear(y: nat)
  {
    y % 4 == 0 && (y % 100 != 0 || y % 400 == 0)
  }

  function DaysInMonth(y: nat, m: nat): nat
    requires 1 <= m <= 12
  {
    if m == 2 then (if IsLeapYear(y) then 29 else 28)
    else if m == 4 || m == 6 || m == 9 || m == 11 then 30
    else 31
  }

  predicate ValidDate(d: Date)
  {
    1 <= d.month <= 12 && 1 <= d.day <= DaysInMonth(d.year, d.month)
  }

  /** Chronological order of dates: by year, then month, then day. */
  predicate DateLe(a: Date, b: Date)
  {
    a.year < b.year || (a.year == b.year && (a.month < b.month || (a.month == b.month && a.day <= b.day)))
  }

  /**
   * One stored transaction. Prices are integer amounts of the smallest currency
   * unit; the schema puts no bound on `quantity` and no relation between
   * `totalPrice` and `quantity * pricePerUnit`.
   */
  datatype Transaction = Transaction(
    transactionId: string,
    timestamp: Date,
    customerId: string,
    customerName: string,
    productId: string,
    productName: string,
    category: string,
    quantity: int,
    pricePerUnit: int,
    totalPrice: int,
    paymentMethod: string,
    location: string,
    processed: bool)

  /**
   * A document as handed to the schema before validation: every field may be
   * absent. Numbers and booleans are already of their schema type.
   */
  datatype RawTransaction = RawTransaction(
    transactionId: Option<string>,
    timestamp: Option<Date>,
    customerId: Option<string>,
    customerName: Option<string>,
    productId: Option<string>,
    productName: Option<string>,
    category: Option<string>,
    quantity: Option<int>,
    pricePerUnit: Option<int>,
    totalPrice: Option<int>,
    paymentMethod: Option<string>,
    location: Option<string>,
    processed: Option<bool>)

  /** A required string is satisfied only by a non-empty string. */
  predicate HasString(v: Option<string>)
  {
    v.Some? && |v.value| > 0
  }

  /** A required date is satisfied only by a value that is a calendar date. */
  predicate HasDate(v: Option<Date>)
  {
    v.Some? && ValidDate(v.value)
  }

  /** The names of the schema paths that fail their `required` rule, in schema order. */
  function FailingPaths(raw: RawTransaction): seq<string>
  {
    (if HasString(raw.transactionId) then [] else ["transaction_id"])
    + (if HasDate(raw.timestamp) then [] else ["timestamp"])
    + (if HasString(raw.customerId) then [] else ["customer_id"])
    + (if HasString(raw.customerName) then [] else ["customer_name"])
    + (if HasString(raw.productId) then [] else ["product_id"])
    + (if HasString(raw.productName) then [] else ["product_name"])
    + (if HasString(raw.category) then [] else ["category"])
    + (if raw.quantity.Some? then [] else ["quantity"])
    + (if raw.pricePerUnit.Some? then [] else ["price_per_unit"])
    + (if raw.totalPrice.Some? then [] else ["total_price"])
    + (if HasString(raw.paymentMethod) then [] else ["payment_method"])
    + (if HasString(raw.location) then [] else ["location"])
  }

  /** Every required path is present; `processed` is not required. */
  predicate Complete(raw: RawTransaction)
  {
    && HasString(raw.transactionId) && HasDate(raw.timestamp)
    && HasString(raw.customerId) && HasString(raw.customerName)
    && HasString(raw.productId) && HasString(raw.productName) && HasString(raw.category)
    && raw.quantity.Some? && raw.pricePerUnit.Some? && raw.totalPrice.Some?
    && HasString(raw.paymentMethod) && HasString(raw.location)
  }

  /** A transaction that the schema accepts. */
  predicate Valid(t: Transaction)
  {
    && |t.transactionId| > 0 && ValidDate(t.timestamp)
    && |t.customerId| > 0 && |t.customerName| > 0
    && |t.productId| > 0 && |t.productName| > 0 && |t.category| > 0
    && |t.paymentMethod| > 0 && |t.location| > 0
  }

  /** The document that stores `t`: every field present. */
  function ToRaw(t: Transaction): RawTransaction
  {
    RawTransaction(Some(t.transactionId), Some(t.timestamp), Some(t.customerId), Some(t.customerName),
                   Some(t.productId), Some(t.productName), Some(t.category), Some(t.quantity),
                   Some(t.pricePerUnit), Some(t.totalPrice), Some(t.paymentMethod), Some(t.location),
                   Some(t.processed))
  }

  /**
   * Schema validation: the document is accepted exactly when every required
   * path is present, and then `processed` defaults to false; otherwise the
   * failing paths are reported.
   */
  function Validate(raw: RawTransaction): (r: Result<Transaction, seq<string>>)
    ensures r.Ok? <==> Complete(raw)
    ensures r.Ok? ==> Valid(r.value)
    ensures r.Ok? ==> r.value.processed == (raw.processed == Some(true))
    ensures r.Ok? ==> ToRaw(r.value) == raw.(processed := Some(r.value.processed))
    ensures r.Err? ==> r.error != [] && r.error == FailingPaths(raw)
  {
    if !Complete(raw) then Err(FailingPaths(raw))
    else
      Ok(Transaction(raw.transactionId.value, raw.timestamp.value, raw.customerId.value,
                     raw.customerName.value, raw.productId.value, raw.productName.value,
                     raw.category.value, raw.quantity.value, raw.pricePerUnit.value,
                     raw.totalPrice.value, raw.paymentMethod.value, raw.location.value,
                     if raw.processed.Some? then raw.processed.value else false))
  }

  /** A stored transaction validates back to itself. */
  lemma ValidateToRaw(t: Transaction)
    requires Valid(t)
    ensures Validate(ToRaw(t)) == Ok(t)
  {
  }

  /** Validation looks only at presence: any quantity and any prices are accepted. */
  lemma ValidityIgnoresAmounts(raw: RawTransaction, quantity: int, pricePerUnit: int, totalPrice: int)
    ensures Validate(raw.(quantity := Some(quantity), pricePerUnit := Some(pricePerUnit), totalPrice := Some(totalPrice))).Ok?
        <==> Validate(raw.(quantity := Some(0), pricePerUnit := Some(0), totalPrice := Some(0))).Ok?
  {
  }

  /** No two transactions of the collection share a `transaction_id`. */
  predicate UniqueIds(ts: seq<Transaction>)
  {
    forall i, j :: 0 <= i < j < |ts| ==> ts[i].transactionId != ts[j].transactionId
  }

  predicate IdTaken(ts: seq<Transaction>, id: string)
  {
    exists i :: 0 <= i < |ts| && ts[i].transactionId == id
  }

  datatype SaveError = ValidationFailed(paths: seq<string>) | DuplicateKey(transactionId: string)

  /**
   * Saving a document through the model: validation first, then the unique
   * index on `transaction_id` rejects a second record with the same identifier.
   */
  function Save(ts: seq<Transaction>, raw: RawTransaction): (r: Result<seq<Transaction>, SaveError>)
    ensures r.Ok? <==> Complete(raw) && !IdTaken(ts, raw.transactionId.value)
    ensures r.Ok? ==> r.value == ts + [Validate(raw).value]
    ensures UniqueIds(ts) && r.Ok? ==> UniqueIds(r.value)
    ensures !Complete(raw) ==> r == Err(ValidationFailed(FailingPaths(raw)))
  {
    match Validate(raw)
    case Err(paths) => Err(ValidationFailed(paths))
    case Ok(t) =>
      if IdTaken(ts, t.transactionId) then Err(DuplicateKey(t.transactionId))
      else Ok(ts + [t])
  }
}
