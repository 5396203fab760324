/**
 * The persisted aggregate: an order owns its line items and payments.
 * Navigation properties back to the order are dropped; collections that the
 * JSON binder may leave null are `Option`s.
 */
module Models {
  import opened Wrappers

  /** A point in time, opaque to the logic beyond equality. */
  datatype DateTime = DateTime(ticks: int)

  datatype OrderItem = OrderItem(orderItemId: int, orderId: int, productId: int, quantity: int)

  datatype Payment = Payment(
    paymentId: int,
    orderId: int,
    amount: real,
    paymentDate: DateTime,
    paymentMethod: string,
    status: string)

  datatype Order = Order(
    orderId: int,
    customerId: int,
    date: DateTime,
    status: string,
    orderItems: Option<seq<OrderItem>>,
    payments: Option<seq<Payment>>)

  /** An order as the table holds it: both collections loaded, and every
      line item and payment pointing back at the order. */
  predicate ChildrenLinked(o: Order) {
    && o.orderItems.Some? && o.payments.Some?
    && (forall i :: 0 <= i < |o.orderItems.value| ==> o.orderItems.value[i].orderId == o.orderId)
    && (forall i :: 0 <= i < |o.payments.value| ==> o.payments.value[i].orderId == o.orderId)
  }

  /** The line items with their foreign key set to `orderId`. */
  function LinkItems(items: seq<OrderItem>, orderId: int): (r: seq<OrderItem>)
    ensures |r| == |items|
    ensures forall i :: 0 <= i < |r| ==> r[i] == items[i].(orderId := orderId)
  {
    if items == [] then [] else [items[0].(orderId := orderId)] + LinkItems(items[1..], orderId)
  }

  /** The payments with their foreign key set to `orderId`. */
  function LinkPayments(payments: seq<Payment>, orderId: int): (r: seq<Payment>)
    ensures |r| == |payments|
    ensures forall i :: 0 <= i < |r| ==> r[i] == payments[i].(orderId := orderId)
  {
    if payments == [] then [] else [payments[0].(orderId := orderId)] + LinkPayments(payments[1..], orderId)
  }

  /** EF Core's relationship fix-up when an order is saved with its children
      and reloaded with `Include`: each child's foreign key becomes the
      order's id, and a null collection comes back empty. */
  function LinkChildren(o: Order): (r: Order)
    ensures ChildrenLinked(r)
    ensures r.orderId == o.orderId && r.customerId == o.customerId
    ensures r.date == o.date && r.status == o.status
    ensures o.orderItems.Some? ==>
              && |r.orderItems.value| == |o.orderItems.value|
              && forall i :: 0 <= i < |o.orderItems.value| ==>
                   r.orderItems.value[i] == o.orderItems.value[i].(orderId := o.orderId)
    ensures o.orderItems.None? ==> r.orderItems == Some([])
    ensures o.payments.Some? ==>
              && |r.payments.value| == |o.payments.value|
              && forall i :: 0 <= i < |o.payments.value| ==>
                   r.payments.value[i] == o.payments.value[i].(orderId := o.orderId)
    ensures o.payments.None? ==> r.payments == Some([])
  {
    o.(orderItems := Some(if o.orderItems.Some? then LinkItems(o.orderItems.value, o.orderId) else []),
       payments := Some(if o.payments.Some? then LinkPayments(o.payments.value, o.orderId) else []))
  }

  /** Fix-up changes nothing on an order the table already holds, so saving
      it again is idempotent. */
  lemma LinkChildrenFixesLinked(o: Order)
    requires ChildrenLinked(o)
    ensures LinkChildren(o) == o
  {
    var items, payments := o.orderItems.value, o.payments.value;
    assert LinkItems(items, o.orderId) == items;
    assert LinkPayments(payments, o.orderId) == payments;
  }
}
