/**
 * `generate_payments` (etl/generate_data.py:258-281,
 * etl/generate_data_simple.py:172-193): one payment per row of the
 * finalised orders frame, in row order.
 *
 * Each payment's draw carries the index that `random.choice` picks among
 * the payment methods and a day: in the full script the delay
 * `random.randint(0, 7)` added to the order date, in the simple script the
 * payment date itself, drawn by Faker without regard to the order.
 */
module PaymentGenerator {
  import opened Wrappers
  import opened Records
  import opened Schema

  datatype PaymentDraw = PaymentDraw(methodIndex: int, day: int)

  predicate PaymentDrawOk(variant: Variant, d: PaymentDraw)
  {
    && 0 <= d.methodIndex < |PaymentMethods|
    && (variant.Full? ==> 0 <= d.day <= MaxPaymentDelay)
  }

  function PaymentDate(variant: Variant, o: Order, d: PaymentDraw): Day
  {
    match variant
    case Full => o.orderDate + d.day
    case Simple => d.day
  }

  function PaymentRow(variant: Variant, k: nat, o: Order, d: PaymentDraw): Payment
    requires PaymentDrawOk(variant, d)
  {
    Payment(k + 1, o.orderId, PaymentMethods[d.methodIndex], o.totalAmount, PaymentDate(variant, o, d))
  }

  /** The payment list the loop builds: one per order, copying its id and total. */
  function PaymentRows(variant: Variant, orders: seq<Order>, draws: seq<PaymentDraw>): (rows: seq<Payment>)
    requires |draws| == |orders|
    requires forall d :: d in draws ==> PaymentDrawOk(variant, d)
    ensures |rows| == |orders|
    ensures Dense(PaymentIds(rows))
    ensures forall k :: 0 <= k < |rows| ==>
      && rows[k].orderId == orders[k].orderId
      && rows[k].amount == orders[k].totalAmount
      && rows[k].paymentMethod in PaymentMethods
      && (variant.Full? ==> orders[k].orderDate <= rows[k].paymentDate <= orders[k].orderDate + MaxPaymentDelay)
  {
    var rows := seq(|orders|, k requires 0 <= k < |orders| => PaymentRow(variant, k, orders[k], draws[k]));
    forall k | 0 <= k < |rows|
      ensures rows[k].paymentMethod in PaymentMethods
      ensures variant.Full? ==> orders[k].orderDate <= rows[k].paymentDate <= orders[k].orderDate + MaxPaymentDelay
    {
      assert draws[k] in draws;
      assert rows[k] == PaymentRow(variant, k, orders[k], draws[k]);
    }
    rows
  }

  /** The full script's schema accepts the payments exactly when the orders frame is non-empty with valid ids and totals. */
  lemma {:induction false} PaymentsSchemaIff(variant: Variant, orders: seq<Order>, draws: seq<PaymentDraw>)
    requires |draws| == |orders|
    requires forall d :: d in draws ==> PaymentDrawOk(variant, d)
    ensures PaymentsSchema(PaymentRows(variant, orders, draws))
        <==> |orders| > 0 && forall o :: o in orders ==> o.orderId > 0 && o.totalAmount >= 0
  {
    var rows := PaymentRows(variant, orders, draws);
    DenseIsDistinct(PaymentIds(rows));
    if |orders| > 0 && forall o :: o in orders ==> o.orderId > 0 && o.totalAmount >= 0 {
      forall p | p in rows ensures p.paymentId > 0 && p.orderId > 0 && p.amount >= 0 {
        var k :| 0 <= k < |rows| && rows[k] == p;
        assert PaymentIds(rows)[k] == p.paymentId;
        assert orders[k] in orders;
      }
    }
    if PaymentsSchema(rows) {
      forall o | o in orders ensures o.orderId > 0 && o.totalAmount >= 0 {
        var k :| 0 <= k < |orders| && orders[k] == o;
        assert rows[k] in rows;
      }
    }
  }

  /** Builds one payment per order, then applies the schema step. */
  method GeneratePayments(variant: Variant, orders: seq<Order>, draws: seq<PaymentDraw>)
    returns (r: Result<seq<Payment>, GenerationError>)
    requires |draws| == |orders|
    requires forall d :: d in draws ==> PaymentDrawOk(variant, d)
    ensures r == Gate(variant, PaymentsSchema(PaymentRows(variant, orders, draws)), PaymentsTable,
                      PaymentRows(variant, orders, draws))
    ensures r.Success? <==>
      variant.Simple? || (|orders| > 0 && forall o :: o in orders ==> o.orderId > 0 && o.totalAmount >= 0)
  {
    var payments: seq<Payment> := [];
    var i := 0;
    while i < |orders|
      invariant 0 <= i <= |orders|
      invariant |payments| == i
      invariant forall j :: 0 <= j < i ==> payments[j] == PaymentRow(variant, j, orders[j], draws[j])
    {
      var order := orders[i];
      var d := draws[i];
      assert PaymentDrawOk(variant, d) by { assert d in draws; }
      var paymentDate := if variant.Full? then order.orderDate + d.day else d.day;
      var paymentMethod := PaymentMethods[d.methodIndex];
      payments := payments + [Payment(i + 1, order.orderId, paymentMethod, order.totalAmount, paymentDate)];
      i := i + 1;
    }
    assert payments == PaymentRows(variant, orders, draws);
    PaymentsSchemaIff(variant, orders, draws);
    r := Gate(variant, PaymentsSchema(payments), PaymentsTable, payments);
  }

  /**
   * In the simple script a payment can be dated before its order: the
   * payment date is drawn on its own.
   */
  lemma SimplePaymentMayPrecedeOrder()
    ensures exists o: Order, d: PaymentDraw ::
              PaymentDrawOk(Simple, d) && PaymentRows(Simple, [o], [d])[0].paymentDate < o.orderDate
  {
    var o := Order(1, 1, 100, 0);
    var d := PaymentDraw(0, 99);
    assert PaymentDrawOk(Simple, d);
    assert PaymentRows(Simple, [o], [d])[0] == PaymentRow(Simple, 0, o, d);
  }
}
