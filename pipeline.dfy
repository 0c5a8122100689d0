/**
 * `main` (etl/generate_data.py:357-377, etl/generate_data_simple.py:250-263):
 * the five generators in dependency order, the in-place finalisation of
 * the order totals, and the validator over the result.
 *
 * Every random draw of the run is an input (`Draws`), constrained only to
 * the ranges the generators draw from (`DrawsFit`). The central result is
 * that, for any such draws, the validator never rejects what the
 * generators produce: a run either stops in a generator, for the reasons
 * `Succeeds` lists, or yields a consistent dataset.
 */
module Pipeline {
  import opened Wrappers
  import opened Records
  import opened Schema
  import opened CustomerGenerator
  import opened ProductGenerator
  import opened OrderGenerator
  import opened OrderItemGenerator
  import opened PaymentGenerator
  import opened Validator

  /** The target sizes handed to the generators. */
  datatype Counts = Counts(customers: int, products: int, orders: int, orderItems: int)

  /** The sizes `main` asks for in each script. */
  function MainCounts(variant: Variant): Counts
  {
    match variant
    case Full => Counts(2000, 600, 4000, 10000)
    case Simple => Counts(100, 50, 200, 500)
  }

  /** All the random draws of one run, phase by phase. */
  datatype Draws = Draws(
    emailStream: seq<string>,
    customers: seq<CustomerDraw>,
    products: seq<ProductDraw>,
    orders: seq<OrderDraw>,
    cover: seq<CoverDraw>,
    extra: seq<ExtraDraw>,
    payments: seq<PaymentDraw>)

  /** Each draw lies in the range its generator draws from, and there is one draw per iteration. */
  predicate DrawsFit(variant: Variant, counts: Counts, draws: Draws)
  {
    && |draws.customers| == RangeLength(counts.customers)
    && |Dedup(draws.emailStream)| >= |draws.customers|
    && |draws.products| == RangeLength(counts.products)
    && (forall d :: d in draws.products ==> ProductDrawOk(d))
    && |draws.orders| == RangeLength(counts.orders)
    && (counts.customers >= 1 ==> forall d :: d in draws.orders ==> 1 <= d.customerId <= counts.customers)
    && (counts.orders >= 1 && counts.products >= 1 ==>
          && CoverFits(draws.cover, OrderRows(draws.orders), ProductRows(draws.products))
          && |draws.extra| == RangeLength(counts.orderItems - counts.orders)
          && ExtraFits(draws.extra, OrderRows(draws.orders), ProductRows(draws.products)))
    && |draws.payments| == RangeLength(counts.orders)
    && (forall d :: d in draws.payments ==> PaymentDrawOk(variant, d))
  }

  /** At least one customer, product and order. */
  predicate Sized(counts: Counts)
  {
    counts.customers >= 1 && counts.products >= 1 && counts.orders >= 1
  }

  /**
   * When a run gets through its generators: every frame but the items one
   * is asked for at least one row, and the full script's schema accepts
   * the customers' names and addresses.
   */
  predicate Succeeds(variant: Variant, counts: Counts, draws: Draws)
    requires DrawsFit(variant, counts, draws)
  {
    Sized(counts) && (variant.Full? ==> CustomerTextOk(draws.customers, draws.emailStream))
  }

  datatype PipelineError = Generation(error: GenerationError) | Rejected(violation: Violation)

  /** The dataset a successful run produces, phase by phase. */
  function GeneratedDataset(variant: Variant, counts: Counts, draws: Draws): (ds: Dataset)
    requires DrawsFit(variant, counts, draws) && Sized(counts)
    ensures |ds.customers| == counts.customers && |ds.products| == counts.products
    ensures |ds.orders| == counts.orders && |ds.payments| == counts.orders
    ensures |ds.items| == if counts.orderItems > counts.orders then counts.orderItems else counts.orders
  {
    var shells := OrderRows(draws.orders);
    var products := ProductRows(draws.products);
    var items := AllocatedItems(shells, products, draws.cover, draws.extra);
    var orders := Finalised(shells, items);
    Dataset(CustomerRows(draws.customers, draws.emailStream), products, orders, items,
            PaymentRows(variant, orders, draws.payments))
  }

  lemma GeneratedProductsValid(draws: Draws)
    requires forall d :: d in draws.products ==> ProductDrawOk(d)
    ensures forall p :: p in ProductRows(draws.products) ==> p.price > 0 && p.name.Some? && p.productId > 0
  {
    var rows := ProductRows(draws.products);
    forall p | p in rows ensures p.price > 0 && p.name.Some? && p.productId > 0 {
      var k :| 0 <= k < |rows| && rows[k] == p;
      assert ProductIds(rows)[k] == p.productId;
    }
  }

  /** Customers are consistent when their text passes the full script's schema, or in the simple script. */
  lemma CustomersValid(variant: Variant, draws: seq<CustomerDraw>, emailStream: seq<string>)
    requires |Dedup(emailStream)| >= |draws| && |draws| > 0
    ensures CustomersConsistent(variant, CustomerRows(draws, emailStream))
  {
    DenseIsDistinct(CustomerIds(CustomerRows(draws, emailStream)));
  }

  /** Every order shell belongs to one of the customers 1..N. */
  lemma OrdersReferenceCustomers(draws: seq<OrderDraw>, customers: seq<Customer>)
    requires Dense(CustomerIds(customers))
    requires forall d :: d in draws ==> 1 <= d.customerId <= |customers|
    ensures forall o :: o in OrderRows(draws) ==> o.customerId in CustomerIds(customers)
  {
    DenseIsDistinct(CustomerIds(customers));
    var rows := OrderRows(draws);
    forall o | o in rows ensures o.customerId in CustomerIds(customers) {
      var k :| 0 <= k < |rows| && rows[k] == o;
      assert draws[k] in draws;
    }
  }

  /** Finalising changes no customer reference. */
  lemma FinalisedKeepsCustomers(shells: seq<Order>, items: seq<OrderItem>, customers: seq<Customer>)
    requires forall o :: o in shells ==> o.customerId in CustomerIds(customers)
    ensures forall o :: o in Finalised(shells, items) ==> o.customerId in CustomerIds(customers)
  {
    var final := Finalised(shells, items);
    forall o | o in final ensures o.customerId in CustomerIds(customers) {
      var k :| 0 <= k < |final| && final[k] == o;
      assert shells[k] in shells;
    }
  }

  /** The order shells are distinct, zero-total orders with positive ids. */
  lemma ShellsValid(draws: seq<OrderDraw>)
    ensures Distinct(OrderIds(OrderRows(draws)))
    ensures forall o :: o in OrderRows(draws) ==> o.orderId > 0 && o.totalAmount == 0
  {
    var rows := OrderRows(draws);
    DenseIsDistinct(OrderIds(rows));
    forall o | o in rows ensures o.orderId > 0 && o.totalAmount == 0 {
      var k :| 0 <= k < |rows| && rows[k] == o;
      assert OrderIds(rows)[k] == o.orderId;
    }
  }

  /** Finalised totals: distinct orders, totals equal to item sums and never negative. */
  lemma FinalOrdersValid(shells: seq<Order>, products: seq<Product>, cover: seq<CoverDraw>, extra: seq<ExtraDraw>)
    requires CoverFits(cover, shells, products) && ExtraFits(extra, shells, products)
    requires |shells| > 0 && Distinct(OrderIds(shells))
    requires forall o :: o in shells ==> o.totalAmount == 0
    requires forall p :: p in products ==> p.price >= 0
    ensures var items := AllocatedItems(shells, products, cover, extra);
      var final := Finalised(shells, items);
      && OrderIds(final) == OrderIds(shells)
      && OrdersConsistent(final)
      && TotalsMatchItems(final, items)
  {
    var items := AllocatedItems(shells, products, cover, extra);
    var final := Finalised(shells, items);
    FinalisedTotalsMatchItems(shells, products, cover, extra);
    forall o | o in final ensures o.totalAmount >= 0 {
      var k :| 0 <= k < |final| && final[k] == o;
    }
  }

  /** The items are consistent, and every one refers to an existing order and product. */
  lemma ItemsValid(shells: seq<Order>, products: seq<Product>, cover: seq<CoverDraw>, extra: seq<ExtraDraw>)
    requires CoverFits(cover, shells, products) && ExtraFits(extra, shells, products)
    requires |shells| > 0
    requires forall p :: p in products ==> p.price >= 0
    ensures var items := AllocatedItems(shells, products, cover, extra);
      && ItemsConsistent(items)
      && forall i :: i in items ==> i.orderId in OrderIds(shells) && i.productId in ProductIds(products)
  {
    var items := AllocatedItems(shells, products, cover, extra);
    DenseIsDistinct(OrderItemIds(items));
    LineTotalsNonNegative(shells, products, cover, extra);
    forall i | i in items
      ensures i.quantity > 0 && i.lineTotal >= 0
      ensures i.orderId in OrderIds(shells) && i.productId in ProductIds(products)
    {
      var t :| 0 <= t < |items| && items[t] == i;
    }
  }

  /** One payment per order, paying its total, and nothing else. */
  lemma PaymentsValid(variant: Variant, orders: seq<Order>, draws: seq<PaymentDraw>)
    requires |draws| == |orders| && |orders| > 0
    requires forall d :: d in draws ==> PaymentDrawOk(variant, d)
    requires forall o :: o in orders ==> o.totalAmount >= 0
    ensures var payments := PaymentRows(variant, orders, draws);
      && PaymentsConsistent(payments)
      && PaymentsMatchTotals(orders, payments)
      && forall p :: p in payments ==> p.orderId in OrderIds(orders)
  {
    var payments := PaymentRows(variant, orders, draws);
    DenseIsDistinct(PaymentIds(payments));
    forall k | 0 <= k < |orders|
      ensures HasPaymentFor(payments, orders[k].orderId)
    {
      assert payments[k].orderId == orders[k].orderId;
    }
    forall t | 0 <= t < |payments| ensures PaysAnOrder(orders, payments[t]) {
      assert orders[t].orderId == payments[t].orderId;
    }
    forall p | p in payments ensures p.amount >= 0 && p.paymentMethod in PaymentMethods && p.orderId in OrderIds(orders) {
      var t :| 0 <= t < |payments| && payments[t] == p;
      assert orders[t] in orders;
      assert OrderIds(orders)[t] == p.orderId;
    }
  }

  /** Whatever the draws, a run that gets through its generators produces a consistent dataset. */
  lemma GeneratedIsConsistent(variant: Variant, counts: Counts, draws: Draws)
    requires DrawsFit(variant, counts, draws) && Succeeds(variant, counts, draws)
    ensures Consistent(variant, GeneratedDataset(variant, counts, draws))
    ensures Validate(variant, GeneratedDataset(variant, counts, draws)).Pass?
  {
    var ds := GeneratedDataset(variant, counts, draws);
    var shells := OrderRows(draws.orders);
    GeneratedProductsValid(draws);
    CustomersValid(variant, draws.customers, draws.emailStream);
    ShellsValid(draws.orders);
    OrdersReferenceCustomers(draws.orders, ds.customers);
    FinalisedKeepsCustomers(shells, ds.items, ds.customers);
    FinalOrdersValid(shells, ds.products, draws.cover, draws.extra);
    ItemsValid(shells, ds.products, draws.cover, draws.extra);
    PaymentsValid(variant, ds.orders, draws.payments);
    ValidateAccepts(variant, ds);
  }

  /** The sizes `main` asks for lead to a run that passes the validator, with as many rows as asked for. */
  lemma MainRunPasses(variant: Variant, draws: Draws)
    requires DrawsFit(variant, MainCounts(variant), draws)
    requires variant.Full? ==> CustomerTextOk(draws.customers, draws.emailStream)
    ensures var ds := GeneratedDataset(variant, MainCounts(variant), draws);
      && Validate(variant, ds).Pass?
      && |ds.customers| == MainCounts(variant).customers
      && |ds.products| == MainCounts(variant).products
      && |ds.orders| == |ds.payments| == MainCounts(variant).orders
      && |ds.items| == MainCounts(variant).orderItems
  {
    GeneratedIsConsistent(variant, MainCounts(variant), draws);
  }

  /** The order items, which finalise the order totals in place in a fresh orders frame. */
  method FinaliseOrders(variant: Variant, shells: seq<Order>, products: seq<Product>, numItems: int,
                        cover: seq<CoverDraw>, extra: seq<ExtraDraw>)
    returns (r: Result<(seq<Order>, seq<OrderItem>), GenerationError>)
    requires Distinct(OrderIds(shells)) && |products| > 0
    requires forall o :: o in shells ==> o.orderId > 0
    requires forall p :: p in products ==> p.productId > 0 && p.price >= 0
    requires |shells| > 0 ==>
      && CoverFits(cover, shells, products)
      && |extra| == RangeLength(numItems - |shells|)
      && ExtraFits(extra, shells, products)
    ensures |shells| == 0 ==> r == Failure(MissingColumn(OrdersTable))
    ensures |shells| > 0 ==>
      var items := AllocatedItems(shells, products, cover, extra);
      r == Success((Finalised(shells, items), items))
  {
    var orders := new Order[|shells|](k requires 0 <= k < |shells| reads {} => shells[k]);
    assert orders[..] == shells;
    if orders.Length > 0 {
      OrderItemsSchemaHolds(shells, products, cover, extra);
    }
    var items := GenerateOrderItems(variant, orders, products, numItems, cover, extra);
    if items.Failure? {
      return Failure(items.error);
    }
    r := Success((orders[..], items.value));
  }

  /** The order items and finalised orders, then the payments over the finalised orders. */
  method ItemsAndPayments(variant: Variant, shells: seq<Order>, products: seq<Product>, numItems: int,
                          cover: seq<CoverDraw>, extra: seq<ExtraDraw>, payDraws: seq<PaymentDraw>)
    returns (r: Result<(seq<Order>, seq<OrderItem>, seq<Payment>), GenerationError>)
    requires Distinct(OrderIds(shells)) && |products| > 0
    requires forall o :: o in shells ==> o.orderId > 0 && o.totalAmount == 0
    requires forall p :: p in products ==> p.productId > 0 && p.price >= 0
    requires |shells| > 0 ==>
      && CoverFits(cover, shells, products)
      && |extra| == RangeLength(numItems - |shells|)
      && ExtraFits(extra, shells, products)
    requires |payDraws| == |shells| && forall d :: d in payDraws ==> PaymentDrawOk(variant, d)
    ensures |shells| == 0 ==> r == Failure(MissingColumn(OrdersTable))
    ensures |shells| > 0 ==>
      var items := AllocatedItems(shells, products, cover, extra);
      var orders := Finalised(shells, items);
      r == Success((orders, items, PaymentRows(variant, orders, payDraws)))
  {
    var finalised := FinaliseOrders(variant, shells, products, numItems, cover, extra);
    if finalised.Failure? {
      return Failure(finalised.error);
    }
    var (orders, items) := finalised.value;
    FinalOrdersValid(shells, products, cover, extra);
    forall o | o in orders ensures o.orderId > 0 && o.totalAmount >= 0 {
      var k :| 0 <= k < |orders| && orders[k] == o;
      assert shells[k] in shells;
    }
    var payments := GeneratePayments(variant, orders, payDraws);
    if payments.Failure? {
      assert false;
    }
    r := Success((orders, items, payments.value));
  }

  /** The generators in dependency order: customers, products, orders, then items and payments. */
  method GenerateTables(variant: Variant, counts: Counts, draws: Draws) returns (r: Result<Dataset, GenerationError>)
    requires DrawsFit(variant, counts, draws)
    ensures r.Success? <==> Succeeds(variant, counts, draws)
    ensures r.Success? ==> r.value == GeneratedDataset(variant, counts, draws)
  {
    var customers := GenerateCustomers(variant, counts.customers, draws.emailStream, draws.customers);
    if customers.Failure? {
      return Failure(customers.error);
    }
    var products := GenerateProducts(variant, counts.products, draws.products);
    if products.Failure? {
      return Failure(products.error);
    }
    var shells := GenerateOrders(variant, counts.orders, |customers.value|, draws.orders);
    if shells.Failure? {
      return Failure(shells.error);
    }
    ShellsValid(draws.orders);
    GeneratedProductsValid(draws);
    var rest := ItemsAndPayments(variant, shells.value, products.value, counts.orderItems,
                                 draws.cover, draws.extra, draws.payments);
    if rest.Failure? {
      return Failure(rest.error);
    }
    var (orders, items, payments) := rest.value;
    r := Success(Dataset(customers.value, products.value, orders, items, payments));
  }

  /** The run: the generators, then the validator over the five tables. */
  method RunPipeline(variant: Variant, counts: Counts, draws: Draws) returns (r: Result<Dataset, PipelineError>)
    requires DrawsFit(variant, counts, draws)
    ensures r.Success? <==> Succeeds(variant, counts, draws)
    ensures r.Success? ==> r.value == GeneratedDataset(variant, counts, draws) && Validate(variant, r.value).Pass?
    ensures r.Failure? ==> r.error.Generation?
  {
    var tables := GenerateTables(variant, counts, draws);
    if tables.Failure? {
      return Failure(Generation(tables.error));
    }
    GeneratedIsConsistent(variant, counts, draws);
    match Validate(variant, tables.value)
    case Fail(violation) =>
      assert false;
      r := Failure(Rejected(violation));
    case Pass =>
      r := Success(tables.value);
  }
}
