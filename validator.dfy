/**
 * `validate_data` (etl/generate_data.py:283-343,
 * etl/generate_data_simple.py:195-236): the checks run over the five
 * tables before they are saved.
 *
 * The checks run in the order of the source and the first one that fails
 * is the one reported. A table built from no records has no columns, so
 * the first check that reads it fails on the missing column instead. The
 * full script also refuses missing names; the simple one does not look.
 *
 * The two total checks follow pandas' alignment: the two series are joined
 * on the union of their order ids, and an id missing on one side yields a
 * NaN, which is never within the tolerance.
 */
module Validator {
  import opened Wrappers
  import opened Records

  /** One constructor per failing check, in the order they are made. */
  datatype Violation =
    | MissingColumns(table: Table)
    | DuplicateCustomerId
    | DuplicateEmail
    | NullFirstName
    | NullLastName
    | DuplicateProductId
    | NonPositivePrice
    | NullProductName
    | DuplicateOrderId
    | NegativeOrderTotal
    | DuplicateOrderItemId
    | NonPositiveQuantity
    | NegativeLineTotal
    | DuplicatePaymentId
    | NegativePaymentAmount
    | InvalidPaymentMethod
    | OrphanCustomerInOrders
    | OrphanOrderInItems
    | OrphanProductInItems
    | OrphanOrderInPayments
    | OrderTotalsMismatch
    | PaymentAmountsMismatch

  datatype Dataset = Dataset(
    customers: seq<Customer>,
    products: seq<Product>,
    orders: seq<Order>,
    items: seq<OrderItem>,
    payments: seq<Payment>)

  /** `abs(a - b) < 0.01` in cents: on whole cents the tolerance admits only equality. */
  function Within(a: Cents, b: Cents): (r: bool)
    ensures r <==> a == b
  {
    -Tolerance < a - b < Tolerance
  }

  /** `groupby('order_id')['line_total'].sum()`: one entry per order id that has items. */
  function ItemTotals(items: seq<OrderItem>): (m: map<int, Cents>)
    ensures forall id :: id in m <==> HasItemFor(items, id)
    ensures forall id :: id in m ==> m[id] == SumFor(items, id)
  {
    if items == [] then map[]
    else
      var init := items[..|items| - 1];
      var last := items[|items| - 1];
      var m0 := ItemTotals(init);
      assert forall id :: HasItemFor(items, id) <==> HasItemFor(init, id) || last.orderId == id by {
        forall id | HasItemFor(init, id) ensures HasItemFor(items, id) {
          var t :| 0 <= t < |init| && init[t].orderId == id;
          assert items[t] == init[t];
        }
        forall id | HasItemFor(items, id) && last.orderId != id ensures HasItemFor(init, id) {
          var t :| 0 <= t < |items| && items[t].orderId == id;
          assert t < |init| && init[t] == items[t];
        }
      }
      assert last.orderId !in m0 ==> SumFor(init, last.orderId) == 0 by {
        if last.orderId !in m0 { SumForAbsent(init, last.orderId); }
      }
      m0[last.orderId := (if last.orderId in m0 then m0[last.orderId] else 0) + last.lineTotal]
  }

  /** An order without items sums to nothing. */
  lemma {:induction false} SumForAbsent(items: seq<OrderItem>, orderId: int)
    requires !HasItemFor(items, orderId)
    ensures SumFor(items, orderId) == 0
  {
    if items != [] {
      var init := items[..|items| - 1];
      assert !HasItemFor(init, orderId) by {
        forall t | 0 <= t < |init| ensures init[t].orderId != orderId {
          assert items[t] == init[t];
        }
      }
      SumForAbsent(init, orderId);
    }
  }

  /**
   * `(abs(left - right) < 0.01).all()` for two series indexed by unique
   * order ids: every id of either side must be on both sides and within
   * the tolerance.
   */
  predicate AlignedWithin(left: map<int, Cents>, right: map<int, Cents>): (r: bool)
    ensures r <==> left == right
  {
    var aligned := forall id :: id in left.Keys + right.Keys ==> id in left && id in right && Within(left[id], right[id]);
    assert aligned ==> left == right by {
      if aligned {
        forall id | id in left ensures id in right && left[id] == right[id] {
          assert id in left.Keys + right.Keys;
        }
        forall id | id in right ensures id in left {
          assert id in left.Keys + right.Keys;
        }
        assert left.Keys == right.Keys;
      }
    }
    aligned
  }

  predicate HasPaymentFor(payments: seq<Payment>, orderId: int)
  {
    exists t :: 0 <= t < |payments| && payments[t].orderId == orderId
  }

  /**
   * The same comparison between the order totals (unique ids) and the
   * payment amounts indexed by order id, where an id may repeat: each
   * payment is compared with its order's total, and an order with no
   * payment meets a NaN.
   */
  predicate PaymentsAlignedWithin(totals: map<int, Cents>, payments: seq<Payment>): (r: bool)
    ensures r ==> forall id :: id in totals <==> HasPaymentFor(payments, id)
  {
    && (forall id :: id in totals ==> HasPaymentFor(payments, id))
    && (forall t :: 0 <= t < |payments| ==>
          payments[t].orderId in totals && Within(totals[payments[t].orderId], payments[t].amount))
  }

  function CheckCustomers(variant: Variant, cs: seq<Customer>): (r: Outcome<Violation>)
    ensures r.Pass? <==> CustomersConsistent(variant, cs)
  {
    if |cs| == 0 then Fail(MissingColumns(CustomersTable))
    else if !Distinct(CustomerIds(cs)) then Fail(DuplicateCustomerId)
    else if !Distinct(Emails(cs)) then Fail(DuplicateEmail)
    else if variant.Full? && exists c :: c in cs && c.firstName.None? then Fail(NullFirstName)
    else if variant.Full? && exists c :: c in cs && c.lastName.None? then Fail(NullLastName)
    else Pass
  }

  function CheckProducts(variant: Variant, ps: seq<Product>): (r: Outcome<Violation>)
    ensures r.Pass? <==> ProductsConsistent(variant, ps)
  {
    if |ps| == 0 then Fail(MissingColumns(ProductsTable))
    else if !Distinct(ProductIds(ps)) then Fail(DuplicateProductId)
    else if exists p :: p in ps && p.price <= 0 then Fail(NonPositivePrice)
    else if variant.Full? && exists p :: p in ps && p.name.None? then Fail(NullProductName)
    else Pass
  }

  function CheckOrders(os: seq<Order>): (r: Outcome<Violation>)
    ensures r.Pass? <==> OrdersConsistent(os)
  {
    if |os| == 0 then Fail(MissingColumns(OrdersTable))
    else if !Distinct(OrderIds(os)) then Fail(DuplicateOrderId)
    else if exists o :: o in os && o.totalAmount < 0 then Fail(NegativeOrderTotal)
    else Pass
  }

  function CheckOrderItems(items: seq<OrderItem>): (r: Outcome<Violation>)
    ensures r.Pass? <==> ItemsConsistent(items)
  {
    if |items| == 0 then Fail(MissingColumns(OrderItemsTable))
    else if !Distinct(OrderItemIds(items)) then Fail(DuplicateOrderItemId)
    else if exists i :: i in items && i.quantity <= 0 then Fail(NonPositiveQuantity)
    else if exists i :: i in items && i.lineTotal < 0 then Fail(NegativeLineTotal)
    else Pass
  }

  function CheckPayments(ps: seq<Payment>): (r: Outcome<Violation>)
    ensures r.Pass? <==> PaymentsConsistent(ps)
  {
    if |ps| == 0 then Fail(MissingColumns(PaymentsTable))
    else if !Distinct(PaymentIds(ps)) then Fail(DuplicatePaymentId)
    else if exists p :: p in ps && p.amount < 0 then Fail(NegativePaymentAmount)
    else if exists p :: p in ps && p.paymentMethod !in PaymentMethods then Fail(InvalidPaymentMethod)
    else Pass
  }

  function CheckReferences(ds: Dataset): (r: Outcome<Violation>)
    ensures r.Pass? <==> ReferencesResolve(ds)
  {
    if exists o :: o in ds.orders && o.customerId !in CustomerIds(ds.customers) then Fail(OrphanCustomerInOrders)
    else if exists i :: i in ds.items && i.orderId !in OrderIds(ds.orders) then Fail(OrphanOrderInItems)
    else if exists i :: i in ds.items && i.productId !in ProductIds(ds.products) then Fail(OrphanProductInItems)
    else if exists p :: p in ds.payments && p.orderId !in OrderIds(ds.orders) then Fail(OrphanOrderInPayments)
    else Pass
  }

  /**
   * All checks of `validate_data`, stopping at the first that fails: a
   * missing column is reported only for an empty table, the two total
   * comparisons are reached only once every row and reference check has
   * passed, and the simple script never reports a missing name.
   */
  function Validate(variant: Variant, ds: Dataset): (r: Outcome<Violation>)
    ensures r.Fail? && r.error.MissingColumns? ==> !NonEmpty(ds)
    ensures r == Fail(OrderTotalsMismatch) || r == Fail(PaymentAmountsMismatch) ==>
      RowsConsistent(variant, ds) && ReferencesResolve(ds)
    ensures variant.Simple? ==>
      r != Fail(NullFirstName) && r != Fail(NullLastName) && r != Fail(NullProductName)
  {
    var c := CheckCustomers(variant, ds.customers);
    if c.Fail? then c else
    var p := CheckProducts(variant, ds.products);
    if p.Fail? then p else
    var o := CheckOrders(ds.orders);
    if o.Fail? then o else
    var i := CheckOrderItems(ds.items);
    if i.Fail? then i else
    var y := CheckPayments(ds.payments);
    if y.Fail? then y else
    var ref := CheckReferences(ds);
    if ref.Fail? then ref else
    var orderTotals := TotalsById(ds.orders);
    if !AlignedWithin(ItemTotals(ds.items), orderTotals) then Fail(OrderTotalsMismatch)
    else if !PaymentsAlignedWithin(orderTotals, ds.payments) then Fail(PaymentAmountsMismatch)
    else Pass
  }

  /** Every table has columns, that is, at least one row. */
  predicate NonEmpty(ds: Dataset)
  {
    |ds.customers| > 0 && |ds.products| > 0 && |ds.orders| > 0 && |ds.items| > 0 && |ds.payments| > 0
  }

  predicate CustomersConsistent(variant: Variant, cs: seq<Customer>)
  {
    && |cs| > 0
    && Distinct(CustomerIds(cs)) && Distinct(Emails(cs))
    && (variant.Full? ==> forall c :: c in cs ==> c.firstName.Some? && c.lastName.Some?)
  }

  predicate ProductsConsistent(variant: Variant, ps: seq<Product>)
  {
    && |ps| > 0
    && Distinct(ProductIds(ps))
    && (forall p :: p in ps ==> p.price > 0 && (variant.Full? ==> p.name.Some?))
  }

  predicate OrdersConsistent(os: seq<Order>)
  {
    |os| > 0 && Distinct(OrderIds(os)) && forall o :: o in os ==> o.totalAmount >= 0
  }

  predicate ItemsConsistent(items: seq<OrderItem>)
  {
    |items| > 0 && Distinct(OrderItemIds(items)) && forall i :: i in items ==> i.quantity > 0 && i.lineTotal >= 0
  }

  predicate PaymentsConsistent(ps: seq<Payment>)
  {
    && |ps| > 0
    && Distinct(PaymentIds(ps))
    && forall p :: p in ps ==> p.amount >= 0 && p.paymentMethod in PaymentMethods
  }

  /** The per-table constraints of the dataset, stated over rows. */
  predicate RowsConsistent(variant: Variant, ds: Dataset)
  {
    && CustomersConsistent(variant, ds.customers)
    && ProductsConsistent(variant, ds.products)
    && OrdersConsistent(ds.orders)
    && ItemsConsistent(ds.items)
    && PaymentsConsistent(ds.payments)
  }

  /** Every reference points at an existing row. */
  predicate ReferencesResolve(ds: Dataset)
  {
    && (forall o :: o in ds.orders ==> o.customerId in CustomerIds(ds.customers))
    && (forall i :: i in ds.items ==> i.orderId in OrderIds(ds.orders) && i.productId in ProductIds(ds.products))
    && (forall p :: p in ds.payments ==> p.orderId in OrderIds(ds.orders))
  }

  /** Every order has items, and its total is exactly the sum of their line totals. */
  predicate TotalsMatchItems(orders: seq<Order>, items: seq<OrderItem>)
  {
    forall k :: 0 <= k < |orders| ==>
      HasItemFor(items, orders[k].orderId) && orders[k].totalAmount == SumFor(items, orders[k].orderId)
  }

  /** Some order has this payment's order id and a total equal to its amount. */
  predicate PaysAnOrder(orders: seq<Order>, p: Payment)
  {
    exists k :: 0 <= k < |orders| && orders[k].orderId == p.orderId && orders[k].totalAmount == p.amount
  }

  /** Every order is paid, and every payment's amount is exactly its order's total. */
  predicate PaymentsMatchTotals(orders: seq<Order>, payments: seq<Payment>)
  {
    && (forall k :: 0 <= k < |orders| ==> HasPaymentFor(payments, orders[k].orderId))
    && (forall t :: 0 <= t < |payments| ==> PaysAnOrder(orders, payments[t]))
  }

  /** The dataset the validator is meant to accept, stated without maps or tolerances. */
  predicate Consistent(variant: Variant, ds: Dataset)
  {
    && RowsConsistent(variant, ds)
    && ReferencesResolve(ds)
    && TotalsMatchItems(ds.orders, ds.items)
    && PaymentsMatchTotals(ds.orders, ds.payments)
  }

  /** The grouped item totals line up with the order totals exactly when each order's total is its item sum. */
  lemma ItemTotalsAligned(orders: seq<Order>, items: seq<OrderItem>)
    requires Distinct(OrderIds(orders))
    requires forall i :: i in items ==> i.orderId in OrderIds(orders)
    ensures AlignedWithin(ItemTotals(items), TotalsById(orders)) <==> TotalsMatchItems(orders, items)
  {
    var left := ItemTotals(items);
    var right := TotalsById(orders);
    if AlignedWithin(left, right) {
      forall k | 0 <= k < |orders|
        ensures HasItemFor(items, orders[k].orderId) && orders[k].totalAmount == SumFor(items, orders[k].orderId)
      {
        assert orders[k].orderId in right;
      }
    }
    if TotalsMatchItems(orders, items) {
      forall id | id in left.Keys + right.Keys ensures id in left && id in right && Within(left[id], right[id]) {
        if id in left {
          var t :| 0 <= t < |items| && items[t].orderId == id;
          assert items[t] in items;
        }
        assert id in OrderIds(orders);
        var k :| 0 <= k < |orders| && OrderIds(orders)[k] == id;
        assert orders[k].orderId == id;
      }
    }
  }

  /** An id of the indexed totals is the id of an order row, and maps to that row's total. */
  lemma TotalsByIdRow(orders: seq<Order>, id: int) returns (k: nat)
    requires Distinct(OrderIds(orders))
    requires id in TotalsById(orders)
    ensures k < |orders| && orders[k].orderId == id && TotalsById(orders)[id] == orders[k].totalAmount
  {
    assert id in OrderIds(orders);
    k :| 0 <= k < |orders| && OrderIds(orders)[k] == id;
  }

  lemma PaymentsAlignedSound(orders: seq<Order>, payments: seq<Payment>)
    requires Distinct(OrderIds(orders))
    requires PaymentsAlignedWithin(TotalsById(orders), payments)
    ensures PaymentsMatchTotals(orders, payments)
  {
    var totals := TotalsById(orders);
    forall k | 0 <= k < |orders|
      ensures HasPaymentFor(payments, orders[k].orderId)
    {
      assert orders[k].orderId in totals;
    }
    forall t | 0 <= t < |payments| ensures PaysAnOrder(orders, payments[t]) {
      var id := payments[t].orderId;
      assert id in totals && Within(totals[id], payments[t].amount);
      var k := TotalsByIdRow(orders, id);
      assert orders[k].totalAmount == payments[t].amount;
    }
  }

  /** A paid order's id is looked up in the indexed totals with a matching amount. */
  lemma PaymentFindsTotal(orders: seq<Order>, p: Payment)
    requires Distinct(OrderIds(orders))
    requires PaysAnOrder(orders, p)
    ensures p.orderId in TotalsById(orders) && Within(TotalsById(orders)[p.orderId], p.amount)
  {
    var k :| 0 <= k < |orders| && orders[k].orderId == p.orderId && orders[k].totalAmount == p.amount;
  }

  lemma PaymentsAlignedComplete(orders: seq<Order>, payments: seq<Payment>)
    requires Distinct(OrderIds(orders))
    requires PaymentsMatchTotals(orders, payments)
    ensures PaymentsAlignedWithin(TotalsById(orders), payments)
  {
    var totals := TotalsById(orders);
    forall id | id in totals ensures HasPaymentFor(payments, id) {
      var k := TotalsByIdRow(orders, id);
    }
    forall t | 0 <= t < |payments|
      ensures payments[t].orderId in totals && Within(totals[payments[t].orderId], payments[t].amount)
    {
      PaymentFindsTotal(orders, payments[t]);
    }
  }

  /** The payment comparison passes exactly when every order is paid in full by each of its payments. */
  lemma PaymentsAligned(orders: seq<Order>, payments: seq<Payment>)
    requires Distinct(OrderIds(orders))
    ensures PaymentsAlignedWithin(TotalsById(orders), payments) <==> PaymentsMatchTotals(orders, payments)
  {
    if PaymentsAlignedWithin(TotalsById(orders), payments) {
      PaymentsAlignedSound(orders, payments);
    }
    if PaymentsMatchTotals(orders, payments) {
      PaymentsAlignedComplete(orders, payments);
    }
  }

  /** The validator accepts a dataset exactly when the dataset is consistent. */
  lemma ValidateAccepts(variant: Variant, ds: Dataset)
    ensures Validate(variant, ds).Pass? <==> Consistent(variant, ds)
  {
    if RowsConsistent(variant, ds) && ReferencesResolve(ds) {
      ItemTotalsAligned(ds.orders, ds.items);
      PaymentsAligned(ds.orders, ds.payments);
    }
  }

  /** An empty table is reported as a missing column, at the first check that reads it. */
  lemma EmptyTableReported(variant: Variant, ds: Dataset)
    requires !NonEmpty(ds)
    ensures Validate(variant, ds).Fail?
    ensures |ds.customers| == 0 ==> Validate(variant, ds) == Fail(MissingColumns(CustomersTable))
    ensures Validate(variant, ds).error != OrderTotalsMismatch && Validate(variant, ds).error != PaymentAmountsMismatch
  {
  }

  /** The full script's validator checks more than the simple one's: what it accepts, the other accepts too. */
  lemma FullIsStricter(ds: Dataset)
    ensures Validate(Full, ds).Pass? ==> Validate(Simple, ds).Pass?
  {
  }
}
