/**
 * `generate_orders` (etl/generate_data.py:158-184,
 * etl/generate_data_simple.py:83-101).
 *
 * Each order's draw carries the customer id that `random.randint(1, N)`
 * returns and the order day that Faker returns.
 */
module OrderGenerator {
  import opened Wrappers
  import opened Records
  import opened Schema

  datatype OrderDraw = OrderDraw(customerId: int, orderDate: Day)

  function OrderRow(k: nat, d: OrderDraw): Order
  {
    Order(k + 1, d.customerId, d.orderDate, 0)
  }

  /** The order shells the loop builds: totals are a zero placeholder. */
  function OrderRows(draws: seq<OrderDraw>): (rows: seq<Order>)
    ensures |rows| == |draws|
    ensures Dense(OrderIds(rows))
    ensures forall k :: 0 <= k < |rows| ==>
      rows[k].customerId == draws[k].customerId && rows[k].orderDate == draws[k].orderDate && rows[k].totalAmount == 0
  {
    seq(|draws|, k requires 0 <= k < |draws| => OrderRow(k, draws[k]))
  }

  /** Every generated frame passes the full script's schema unless it is empty. */
  lemma {:induction false} OrdersSchemaIff(draws: seq<OrderDraw>, numCustomers: int)
    requires forall d :: d in draws ==> 1 <= d.customerId <= numCustomers
    ensures OrdersSchema(OrderRows(draws)) <==> |draws| > 0
  {
    var rows := OrderRows(draws);
    DenseIsDistinct(OrderIds(rows));
    forall o | o in rows ensures o.orderId > 0 && o.customerId > 0 {
      var k :| 0 <= k < |rows| && rows[k] == o;
      assert OrderIds(rows)[k] == o.orderId;
      assert draws[k] in draws;
    }
  }

  /**
   * Builds `numOrders` order shells with ids 1..numOrders owned by
   * customers 1..numCustomers; with no customer to draw, the first order
   * fails.
   */
  method GenerateOrders(variant: Variant, numOrders: int, numCustomers: int, draws: seq<OrderDraw>)
    returns (r: Result<seq<Order>, GenerationError>)
    requires |draws| == RangeLength(numOrders)
    requires numCustomers >= 1 ==> forall d :: d in draws ==> 1 <= d.customerId <= numCustomers
    ensures numOrders >= 1 && numCustomers < 1 ==> r == Failure(EmptyPopulation(CustomersTable))
    ensures numOrders < 1 || numCustomers >= 1 ==>
      r == Gate(variant, OrdersSchema(OrderRows(draws)), OrdersTable, OrderRows(draws))
    ensures r.Success? <==> (variant.Simple? && numOrders < 1) || (numOrders >= 1 && numCustomers >= 1)
    ensures r.Success? ==> forall o :: o in r.value ==> 1 <= o.customerId <= numCustomers && o.totalAmount == 0
  {
    if |draws| > 0 && numCustomers < 1 {
      return Failure(EmptyPopulation(CustomersTable));
    }
    var orders: seq<Order> := [];
    var k := 0;
    while k < |draws|
      invariant 0 <= k <= |draws|
      invariant |orders| == k
      invariant forall j :: 0 <= j < k ==> orders[j] == OrderRow(j, draws[j])
    {
      var d := draws[k];
      orders := orders + [Order(k + 1, d.customerId, d.orderDate, 0)];
      k := k + 1;
    }
    assert orders == OrderRows(draws);
    OrdersSchemaIff(draws, numCustomers);
    r := Gate(variant, OrdersSchema(orders), OrdersTable, orders);
    forall o | o in orders ensures 1 <= o.customerId <= numCustomers {
      var j :| 0 <= j < |orders| && orders[j] == o;
      assert draws[j] in draws;
    }
  }
}
