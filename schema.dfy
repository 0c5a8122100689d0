/**
 * The pandera schemas that the full script applies to each generated frame
 * (etl/generate_data.py, lines 51-90), as predicates over record lists.
 *
 * A frame built from an empty record list has no columns at all, and a
 * schema whose columns are required rejects it; `FrameHasColumns` states
 * that part.
 *
 * Each schema is at least as strict as the validator's own checks of that
 * table: a frame that passes its schema passes those checks in either
 * script.
 */
module Schema {
  import opened Wrappers
  import opened Records
  import Validator

  predicate FrameHasColumns<T>(rows: seq<T>)
  {
    |rows| > 0
  }

  /** `Column(str, Check.str_length(min_value=n))`: present and at least `n` long. */
  predicate TextAtLeast(t: Option<string>, n: nat)
  {
    t.Some? && |t.value| >= n
  }

  predicate CustomersSchema(cs: seq<Customer>): (r: bool)
    ensures r ==> forall variant :: Validator.CustomersConsistent(variant, cs)
  {
    && FrameHasColumns(cs)
    && (forall c :: c in cs ==>
          && c.customerId > 0
          && TextAtLeast(c.firstName, 1)
          && TextAtLeast(c.lastName, 1)
          && |c.email| >= 5)
    && Distinct(CustomerIds(cs))
    && Distinct(Emails(cs))
  }

  predicate ProductsSchema(ps: seq<Product>): (r: bool)
    ensures r ==> forall variant :: Validator.ProductsConsistent(variant, ps)
  {
    && FrameHasColumns(ps)
    && (forall p :: p in ps ==>
          && p.productId > 0
          && TextAtLeast(p.name, 1)
          && p.category in Categories
          && p.price > 0)
    && Distinct(ProductIds(ps))
  }

  predicate OrdersSchema(os: seq<Order>): (r: bool)
    ensures r ==> Validator.OrdersConsistent(os)
  {
    && FrameHasColumns(os)
    && (forall o :: o in os ==> o.orderId > 0 && o.customerId > 0 && o.totalAmount >= 0)
    && Distinct(OrderIds(os))
  }

  predicate OrderItemsSchema(items: seq<OrderItem>): (r: bool)
    ensures r ==> Validator.ItemsConsistent(items)
  {
    && FrameHasColumns(items)
    && (forall i :: i in items ==>
          && i.orderItemId > 0
          && i.orderId > 0
          && i.productId > 0
          && i.quantity > 0
          && i.lineTotal >= 0)
    && Distinct(OrderItemIds(items))
  }

  predicate PaymentsSchema(ps: seq<Payment>): (r: bool)
    ensures r ==> Validator.PaymentsConsistent(ps)
  {
    && FrameHasColumns(ps)
    && (forall p :: p in ps ==>
          && p.paymentId > 0
          && p.orderId > 0
          && p.paymentMethod in PaymentMethods
          && p.amount >= 0)
    && Distinct(PaymentIds(ps))
  }
}
