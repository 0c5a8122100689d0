/**
 * The five record kinds of the synthetic e-commerce dataset and the small
 * vocabulary shared by the generators, the schemas and the validator.
 *
 * Money is held in integer cents: every price is rounded to two decimals
 * before use, so `quantity * price` and all sums of line totals are exact.
 * Dates are integer day numbers.
 */
module Records {
  import opened Wrappers

  /** The two generator scripts: the full one and the simple one. */
  datatype Variant = Full | Simple

  type Cents = int
  type Day = int

  /** The validator's tolerance, 0.01, in cents. */
  const Tolerance: Cents := 1
  /** The price floor `max(0.01, ...)`, in cents. */
  const MinPrice: Cents := 1
  /** The longest delay between an order and its payment in the full script, in days. */
  const MaxPaymentDelay: int := 7

  /** The fixed product categories. */
  const Categories: seq<string> := [
    "Electronics", "Clothing", "Home & Garden", "Books",
    "Sports", "Beauty", "Toys", "Automotive", "Jewelry", "Health"
  ]

  /** The fixed payment methods. */
  const PaymentMethods: seq<string> := ["card", "paypal", "bank"]

  datatype Customer = Customer(
    customerId: int,
    firstName: Option<string>,
    lastName: Option<string>,
    email: string,
    signupDate: Day)

  datatype Product = Product(
    productId: int,
    name: Option<string>,
    category: string,
    price: Cents)

  datatype Order = Order(
    orderId: int,
    customerId: int,
    orderDate: Day,
    totalAmount: Cents)

  datatype OrderItem = OrderItem(
    orderItemId: int,
    orderId: int,
    productId: int,
    quantity: int,
    lineTotal: Cents)

  datatype Payment = Payment(
    paymentId: int,
    orderId: int,
    paymentMethod: string,
    amount: Cents,
    paymentDate: Day)

  datatype Table = CustomersTable | ProductsTable | OrdersTable | OrderItemsTable | PaymentsTable

  /**
   * What a generator raises: a pandera schema error; a `KeyError` on a
   * column of an empty frame (a frame built from no records has no
   * columns); a draw from an empty population (`random.randint(1, 0)`, or
   * `sample(n=1)` of an empty frame); a non-unique index in
   * `to_dict('index')`; a negative sample size passed to a NumPy draw
   * (`np.random.lognormal(..., size=n)` with `n < 0`).
   */
  datatype GenerationError =
    | SchemaError(table: Table)
    | MissingColumn(table: Table)
    | EmptyPopulation(table: Table)
    | OrderIndexNotUnique
    | NegativeSize(table: Table)

  /** The number of iterations of `range(n)`, which is also that of `range(1, n + 1)`. */
  function RangeLength(n: int): nat
  {
    if n > 0 then n else 0
  }

  predicate Distinct<T(==)>(s: seq<T>)
  {
    forall i, j :: 0 <= i < j < |s| ==> s[i] != s[j]
  }

  /** Identifiers 1, 2, ..., |ids| in this order. */
  predicate Dense(ids: seq<int>)
  {
    forall k :: 0 <= k < |ids| ==> ids[k] == k + 1
  }

  lemma DenseIsDistinct(ids: seq<int>)
    requires Dense(ids)
    ensures Distinct(ids)
    ensures forall x :: x in ids <==> 1 <= x <= |ids|
  {
    forall x | 1 <= x <= |ids| ensures x in ids {
      assert ids[x - 1] == x;
    }
  }

  function CustomerIds(cs: seq<Customer>): seq<int>
  {
    seq(|cs|, k requires 0 <= k < |cs| => cs[k].customerId)
  }

  function Emails(cs: seq<Customer>): seq<string>
  {
    seq(|cs|, k requires 0 <= k < |cs| => cs[k].email)
  }

  function ProductIds(ps: seq<Product>): seq<int>
  {
    seq(|ps|, k requires 0 <= k < |ps| => ps[k].productId)
  }

  function OrderIds(os: seq<Order>): seq<int>
  {
    seq(|os|, k requires 0 <= k < |os| => os[k].orderId)
  }

  function OrderItemIds(items: seq<OrderItem>): seq<int>
  {
    seq(|items|, k requires 0 <= k < |items| => items[k].orderItemId)
  }

  function PaymentIds(ps: seq<Payment>): seq<int>
  {
    seq(|ps|, k requires 0 <= k < |ps| => ps[k].paymentId)
  }

  /** `quantity * price`; rounding to two decimals is exact in cents. */
  function LineTotal(quantity: int, price: Cents): Cents
  {
    quantity * price
  }

  /** The sum of `line_total` over the items that belong to `orderId`. */
  function SumFor(items: seq<OrderItem>, orderId: int): Cents
  {
    if items == [] then 0
    else
      var last := items[|items| - 1];
      SumFor(items[..|items| - 1], orderId) + (if last.orderId == orderId then last.lineTotal else 0)
  }

  predicate HasItemFor(items: seq<OrderItem>, orderId: int)
  {
    exists t :: 0 <= t < |items| && items[t].orderId == orderId
  }

  /**
   * An orders frame indexed by its (unique) order ids, keeping the total
   * of each order: `set_index('order_id')` followed by a lookup of
   * `total_amount`.
   */
  function TotalsById(orders: seq<Order>): (m: map<int, Cents>)
    requires Distinct(OrderIds(orders))
    ensures forall k :: 0 <= k < |orders| ==> orders[k].orderId in m && m[orders[k].orderId] == orders[k].totalAmount
    ensures forall id :: id in m ==> id in OrderIds(orders)
  {
    if orders == [] then map[]
    else
      var init := orders[..|orders| - 1];
      var last := orders[|orders| - 1];
      assert OrderIds(orders) == OrderIds(init) + [last.orderId];
      assert Distinct(OrderIds(init)) by {
        assert forall k :: 0 <= k < |init| ==> OrderIds(init)[k] == OrderIds(orders)[k];
      }
      assert forall k :: 0 <= k < |init| ==> init[k].orderId != last.orderId by {
        assert forall k :: 0 <= k < |orders| ==> OrderIds(orders)[k] == orders[k].orderId;
      }
      TotalsById(init)[last.orderId := last.totalAmount]
  }

  lemma SumForAppend(items: seq<OrderItem>, item: OrderItem, orderId: int)
    ensures SumFor(items + [item], orderId)
         == SumFor(items, orderId) + (if item.orderId == orderId then item.lineTotal else 0)
  {
    assert (items + [item])[..|items|] == items;
  }

  /** An order's item sum is never negative when no line total is. */
  lemma {:induction false} SumForNonNegative(items: seq<OrderItem>, orderId: int)
    requires forall t :: 0 <= t < |items| ==> items[t].lineTotal >= 0
    ensures SumFor(items, orderId) >= 0
  {
    if items != [] {
      SumForNonNegative(items[..|items| - 1], orderId);
    }
  }

  /**
   * The schema step after a generator: the full script validates the frame
   * and raises on a violation; the simple script has no such step.
   */
  function Gate<T>(variant: Variant, schemaHolds: bool, table: Table, rows: seq<T>): (r: Result<seq<T>, GenerationError>)
    ensures r.Success? <==> (variant.Simple? || schemaHolds)
    ensures r.Success? ==> r.value == rows
  {
    if variant.Full? && !schemaHolds then Failure(SchemaError(table)) else Success(rows)
  }
}
