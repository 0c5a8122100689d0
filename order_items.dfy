/**
 * `generate_order_items` (etl/generate_data.py:186-256,
 * etl/generate_data_simple.py:103-170): the two-phase allocation of line
 * items to orders and the write-back of each order's total into the orders
 * frame, which is updated in place.
 *
 * Coverage phase: one item per order, in the frame's order, with quantity
 * in [1, 3]. Distribution phase: `num_items - len(orders)` further items
 * (none when that is not positive), each for a drawn order, with quantity in
 * [1, 3] or, in the bulk branch, in [4, 10]. Every line total is added to a
 * running total per order id, seeded with the frame's own `total_amount`.
 */
module OrderItemGenerator {
  import opened Wrappers
  import opened Records
  import opened Schema

  /** `products_df.sample(n=1)` as a row index, and `random.randint(1, 3)`. */
  datatype CoverDraw = CoverDraw(productIndex: int, quantity: int)

  /**
   * `random.choice(order_ids)` as a position in the order list,
   * `products_df.sample(n=1)` as a row index, whether `random.random()`
   * fell in the bulk branch (probability 0.3), and the quantity drawn in it.
   */
  datatype ExtraDraw = ExtraDraw(orderIndex: int, productIndex: int, bulk: bool, quantity: int)

  predicate CoverFits(cover: seq<CoverDraw>, orders: seq<Order>, products: seq<Product>)
  {
    && |cover| == |orders|
    && forall k :: 0 <= k < |cover| ==>
         0 <= cover[k].productIndex < |products| && 1 <= cover[k].quantity <= 3
  }

  predicate ExtraFits(extra: seq<ExtraDraw>, orders: seq<Order>, products: seq<Product>)
  {
    forall t :: 0 <= t < |extra| ==>
      && 0 <= extra[t].orderIndex < |orders|
      && 0 <= extra[t].productIndex < |products|
      && (if extra[t].bulk then 4 <= extra[t].quantity <= 10 else 1 <= extra[t].quantity <= 3)
  }

  /** The item with id `t + 1`: coverage items first, then distribution items. */
  function ItemAt(orders: seq<Order>, products: seq<Product>, cover: seq<CoverDraw>, extra: seq<ExtraDraw>, t: nat): OrderItem
    requires CoverFits(cover, orders, products) && ExtraFits(extra, orders, products)
    requires t < |orders| + |extra|
  {
    if t < |orders| then
      var product := products[cover[t].productIndex];
      OrderItem(t + 1, orders[t].orderId, product.productId, cover[t].quantity,
                LineTotal(cover[t].quantity, product.price))
    else
      var d := extra[t - |orders|];
      var product := products[d.productIndex];
      OrderItem(t + 1, orders[d.orderIndex].orderId, product.productId, d.quantity,
                LineTotal(d.quantity, product.price))
  }

  /** The items the two phases emit, in id order. */
  function AllocatedItems(orders: seq<Order>, products: seq<Product>, cover: seq<CoverDraw>, extra: seq<ExtraDraw>)
    : (items: seq<OrderItem>)
    requires CoverFits(cover, orders, products) && ExtraFits(extra, orders, products)
    ensures |items| == |orders| + |extra|
    ensures Dense(OrderItemIds(items))
    ensures forall k :: 0 <= k < |orders| ==> items[k].orderId == orders[k].orderId && 1 <= items[k].quantity <= 3
    ensures forall t :: 0 <= t < |items| ==>
      && items[t].orderId in OrderIds(orders)
      && items[t].productId in ProductIds(products)
      && 1 <= items[t].quantity <= 10
      && (exists j :: 0 <= j < |products| && products[j].productId == items[t].productId
                   && items[t].lineTotal == items[t].quantity * products[j].price)
  {
    var items := seq(|orders| + |extra|, t requires 0 <= t < |orders| + |extra| => ItemAt(orders, products, cover, extra, t));
    forall t | 0 <= t < |items|
      ensures items[t].orderId in OrderIds(orders)
      ensures items[t].productId in ProductIds(products)
      ensures exists j :: 0 <= j < |products| && products[j].productId == items[t].productId
                       && items[t].lineTotal == items[t].quantity * products[j].price
    {
      var i := if t < |orders| then t else extra[t - |orders|].orderIndex;
      var j := if t < |orders| then cover[t].productIndex else extra[t - |orders|].productIndex;
      assert OrderIds(orders)[i] == items[t].orderId;
      assert ProductIds(products)[j] == items[t].productId;
    }
    items
  }

  /** The orders frame after the write-back: each total grows by the sum of its items. */
  function Finalised(orders: seq<Order>, items: seq<OrderItem>): (r: seq<Order>)
    ensures |r| == |orders|
    ensures forall k :: 0 <= k < |r| ==>
      r[k].orderId == orders[k].orderId && r[k].customerId == orders[k].customerId && r[k].orderDate == orders[k].orderDate
  {
    seq(|orders|, k requires 0 <= k < |orders| =>
      orders[k].(totalAmount := orders[k].totalAmount + SumFor(items, orders[k].orderId)))
  }

  /** Every line total is non-negative when no product has a negative price. */
  lemma LineTotalsNonNegative(orders: seq<Order>, products: seq<Product>, cover: seq<CoverDraw>, extra: seq<ExtraDraw>)
    requires CoverFits(cover, orders, products) && ExtraFits(extra, orders, products)
    requires forall p :: p in products ==> p.price >= 0
    ensures forall t :: 0 <= t < |AllocatedItems(orders, products, cover, extra)| ==>
      AllocatedItems(orders, products, cover, extra)[t].lineTotal >= 0
  {
    var items := AllocatedItems(orders, products, cover, extra);
    forall t | 0 <= t < |items| ensures items[t].lineTotal >= 0 {
      var j :| 0 <= j < |products| && products[j].productId == items[t].productId
             && items[t].lineTotal == items[t].quantity * products[j].price;
      assert products[j] in products;
    }
  }

  /**
   * On order shells with a zero total, the finalised frame keeps every
   * order's id, customer and date, and its total is exactly the sum of its
   * items' line totals; every order has at least one item.
   */
  lemma {:induction false} FinalisedTotalsMatchItems(orders: seq<Order>, products: seq<Product>,
                                                     cover: seq<CoverDraw>, extra: seq<ExtraDraw>)
    requires CoverFits(cover, orders, products) && ExtraFits(extra, orders, products)
    requires forall o :: o in orders ==> o.totalAmount == 0
    requires forall p :: p in products ==> p.price >= 0
    ensures var items := AllocatedItems(orders, products, cover, extra);
      var final := Finalised(orders, items);
      && OrderIds(final) == OrderIds(orders)
      && forall k :: 0 <= k < |final| ==>
           && HasItemFor(items, final[k].orderId)
           && final[k].totalAmount == SumFor(items, final[k].orderId)
           && final[k].totalAmount >= 0
  {
    var items := AllocatedItems(orders, products, cover, extra);
    var final := Finalised(orders, items);
    LineTotalsNonNegative(orders, products, cover, extra);
    forall k | 0 <= k < |final|
      ensures HasItemFor(items, final[k].orderId)
      ensures final[k].totalAmount == SumFor(items, final[k].orderId)
      ensures final[k].totalAmount >= 0
    {
      assert items[k].orderId == orders[k].orderId;
      assert orders[k] in orders;
      SumForNonNegative(items, orders[k].orderId);
    }
    assert OrderIds(final) == OrderIds(orders);
  }

  /** The full script's schema accepts the items built for non-empty frames of valid orders and products. */
  lemma OrderItemsSchemaHolds(orders: seq<Order>, products: seq<Product>, cover: seq<CoverDraw>, extra: seq<ExtraDraw>)
    requires CoverFits(cover, orders, products) && ExtraFits(extra, orders, products)
    requires |orders| > 0
    requires forall o :: o in orders ==> o.orderId > 0
    requires forall p :: p in products ==> p.productId > 0 && p.price >= 0
    ensures OrderItemsSchema(AllocatedItems(orders, products, cover, extra))
  {
    var items := AllocatedItems(orders, products, cover, extra);
    LineTotalsNonNegative(orders, products, cover, extra);
    DenseIsDistinct(OrderItemIds(items));
    forall i | i in items ensures i.orderItemId > 0 && i.orderId > 0 && i.productId > 0 {
      var t :| 0 <= t < |items| && items[t] == i;
      assert OrderItemIds(items)[t] == i.orderItemId;
      assert i.orderId in OrderIds(orders);
      var k :| 0 <= k < |orders| && OrderIds(orders)[k] == i.orderId;
      assert orders[k] in orders;
      assert i.productId in ProductIds(products);
      var j :| 0 <= j < |products| && ProductIds(products)[j] == i.productId;
      assert products[j] in products;
    }
  }

  /** The running total of every order is its starting total plus the items emitted so far. */
  ghost predicate Accumulates(acc: map<int, Cents>, orders: seq<Order>, items: seq<OrderItem>)
  {
    forall j :: 0 <= j < |orders| ==>
      orders[j].orderId in acc && acc[orders[j].orderId] == orders[j].totalAmount + SumFor(items, orders[j].orderId)
  }

  lemma AccumulatesStep(acc: map<int, Cents>, orders: seq<Order>, items: seq<OrderItem>, item: OrderItem)
    requires Accumulates(acc, orders, items)
    requires item.orderId in acc
    ensures Accumulates(acc[item.orderId := acc[item.orderId] + item.lineTotal], orders, items + [item])
  {
    forall j | 0 <= j < |orders| {
      SumForAppend(items, item, orders[j].orderId);
    }
  }

  /** The coverage phase: one item for every order, in the order of the frame. */
  method CoverOrders(orders: seq<Order>, products: seq<Product>, cover: seq<CoverDraw>, extra: seq<ExtraDraw>)
    returns (items: seq<OrderItem>, acc: map<int, Cents>)
    requires Distinct(OrderIds(orders))
    requires CoverFits(cover, orders, products) && ExtraFits(extra, orders, products)
    ensures |items| == |orders|
    ensures forall i :: 0 <= i < |items| ==> items[i] == ItemAt(orders, products, cover, extra, i)
    ensures Accumulates(acc, orders, items)
  {
    var orderIds := OrderIds(orders);
    acc := TotalsById(orders);
    items := [];
    var itemId := 1;
    var k := 0;
    while k < |orderIds|
      invariant 0 <= k <= |orderIds|
      invariant itemId == k + 1
      invariant |items| == k
      invariant forall i :: 0 <= i < k ==> items[i] == ItemAt(orders, products, cover, extra, i)
      invariant Accumulates(acc, orders, items)
    {
      var product := products[cover[k].productIndex];
      var quantity := cover[k].quantity;
      var lineTotal := LineTotal(quantity, product.price);
      var item := OrderItem(itemId, orderIds[k], product.productId, quantity, lineTotal);
      AccumulatesStep(acc, orders, items, item);
      items := items + [item];
      acc := acc[orderIds[k] := acc[orderIds[k]] + lineTotal];
      itemId := itemId + 1;
      k := k + 1;
    }
  }

  /** The distribution phase: the remaining items go to drawn orders. */
  method DistributeItems(orders: seq<Order>, products: seq<Product>, cover: seq<CoverDraw>, extra: seq<ExtraDraw>,
                         covered: seq<OrderItem>, coveredAcc: map<int, Cents>)
    returns (items: seq<OrderItem>, acc: map<int, Cents>)
    requires CoverFits(cover, orders, products) && ExtraFits(extra, orders, products)
    requires |covered| == |orders|
    requires forall i :: 0 <= i < |covered| ==> covered[i] == ItemAt(orders, products, cover, extra, i)
    requires Accumulates(coveredAcc, orders, covered)
    ensures items == AllocatedItems(orders, products, cover, extra)
    ensures Accumulates(acc, orders, items)
  {
    var orderIds := OrderIds(orders);
    items, acc := covered, coveredAcc;
    var itemId := |orderIds| + 1;
    var t := 0;
    while t < |extra|
      invariant 0 <= t <= |extra|
      invariant itemId == |orderIds| + t + 1
      invariant |items| == |orderIds| + t
      invariant forall i :: 0 <= i < |items| ==> items[i] == ItemAt(orders, products, cover, extra, i)
      invariant Accumulates(acc, orders, items)
    {
      var d := extra[t];
      var orderId := orderIds[d.orderIndex];
      var product := products[d.productIndex];
      var lineTotal := LineTotal(d.quantity, product.price);
      var item := OrderItem(itemId, orderId, product.productId, d.quantity, lineTotal);
      AccumulatesStep(acc, orders, items, item);
      assert item == ItemAt(orders, products, cover, extra, |orderIds| + t);
      items := items + [item];
      acc := acc[orderId := acc[orderId] + lineTotal];
      itemId := itemId + 1;
      t := t + 1;
    }
    assert items == AllocatedItems(orders, products, cover, extra);
  }

  /** Both phases, from the frame's orders to the items and each order's final total. */
  method Allocate(orders: seq<Order>, products: seq<Product>, cover: seq<CoverDraw>, extra: seq<ExtraDraw>)
    returns (items: seq<OrderItem>, acc: map<int, Cents>)
    requires Distinct(OrderIds(orders))
    requires CoverFits(cover, orders, products) && ExtraFits(extra, orders, products)
    ensures items == AllocatedItems(orders, products, cover, extra)
    ensures Accumulates(acc, orders, items)
  {
    var covered, coveredAcc := CoverOrders(orders, products, cover, extra);
    items, acc := DistributeItems(orders, products, cover, extra, covered, coveredAcc);
  }

  /** Writes each order's running total back into its row of the frame. */
  method WriteBack(orders: array<Order>, acc: map<int, Cents>, ghost items: seq<OrderItem>)
    requires Accumulates(acc, orders[..], items)
    modifies orders
    ensures orders[..] == Finalised(old(orders[..]), items)
  {
    ghost var snapshot := orders[..];
    ghost var final := Finalised(snapshot, items);
    var w := 0;
    while w < orders.Length
      invariant 0 <= w <= orders.Length
      invariant forall j :: 0 <= j < w ==> orders[j] == final[j]
      invariant forall j :: w <= j < orders.Length ==> orders[j] == snapshot[j]
    {
      orders[w] := orders[w].(totalAmount := acc[orders[w].orderId]);
      w := w + 1;
    }
  }

  /**
   * Emits the items and finalises the totals in `orders`. Before anything
   * changes, the generator fails on an empty orders frame (it has no
   * `order_id` column), on repeated order ids (no per-order dictionary) and
   * on an empty products frame (nothing to sample for the first order).
   */
  method GenerateOrderItems(variant: Variant, orders: array<Order>, products: seq<Product>, numItems: int,
                            cover: seq<CoverDraw>, extra: seq<ExtraDraw>)
    returns (r: Result<seq<OrderItem>, GenerationError>)
    requires orders.Length > 0 && |products| > 0 ==>
      && CoverFits(cover, orders[..], products)
      && |extra| == RangeLength(numItems - orders.Length)
      && ExtraFits(extra, orders[..], products)
    modifies orders
    ensures orders.Length == 0 ==> r == Failure(MissingColumn(OrdersTable))
    ensures orders.Length > 0 && !Distinct(OrderIds(old(orders[..]))) ==> r == Failure(OrderIndexNotUnique)
    ensures orders.Length > 0 && Distinct(OrderIds(old(orders[..]))) && |products| == 0 ==>
      r == Failure(EmptyPopulation(ProductsTable))
    ensures orders.Length == 0 || !Distinct(OrderIds(old(orders[..]))) || |products| == 0 ==>
      orders[..] == old(orders[..])
    ensures orders.Length > 0 && Distinct(OrderIds(old(orders[..]))) && |products| > 0 ==>
      var items := AllocatedItems(old(orders[..]), products, cover, extra);
      && orders[..] == Finalised(old(orders[..]), items)
      && r == Gate(variant, OrderItemsSchema(items), OrderItemsTable, items)
  {
    var snapshot := orders[..];
    if orders.Length == 0 {
      return Failure(MissingColumn(OrdersTable));
    }
    if !Distinct(OrderIds(snapshot)) {
      return Failure(OrderIndexNotUnique);
    }
    if |products| == 0 {
      return Failure(EmptyPopulation(ProductsTable));
    }
    var items, acc := Allocate(snapshot, products, cover, extra);
    WriteBack(orders, acc, items);
    r := Gate(variant, OrderItemsSchema(items), OrderItemsTable, items);
  }
}
