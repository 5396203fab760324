/**
 * `StockCheckPublisher`: builds a stock-check request from an order's line
 * items under a freshly generated request id and publishes it, once, on the
 * default exchange with routing key "stock_check_request".
 */
module StockCheckPublishing {
  import opened Wrappers
  import opened Platform
  import opened Models
  import opened Messages

  const StockCheckQueue := "stock_check_request"

  /** Non-durable, non-exclusive, not auto-deleted. */
  const StockCheckQueueDeclaration := QueueDeclaration(StockCheckQueue, false, false, false)

  /** What `Enumerable.Select` throws when the order's item collection is null. */
  const NullSourceMessage := "Value cannot be null. (Parameter 'source')"

  /** The `Select` over the order's items: one (product, quantity) pair per item, in item order. */
  function StockCheckItems(items: seq<OrderItem>): (r: seq<StockCheckItem>)
    ensures |r| == |items|
    ensures forall i :: 0 <= i < |items| ==> r[i] == StockCheckItem(items[i].productId, items[i].quantity)
  {
    if items == [] then [] else [StockCheckItem(items[0].productId, items[0].quantity)] + StockCheckItems(items[1..])
  }

  /** The request object, or the exception `Select` throws on a null item collection. */
  function BuildStockCheckRequest(requestId: string, order: Order): (r: Result<StockCheckRequest, Exception>)
    ensures r.Failure? <==> order.orderItems.None?
    ensures r.Failure? ==> r.error == ArgumentNullException(NullSourceMessage)
    ensures r.Success? ==> r.value.requestId == requestId && r.value.items == StockCheckItems(order.orderItems.value)
  {
    match order.orderItems
    case None => Failure(ArgumentNullException(NullSourceMessage))
    case Some(items) => Success(StockCheckRequest(requestId, StockCheckItems(items)))
  }

  /** What one call hands to the broker, or the exception it throws first:
      the null-items failure, else the transport's. */
  function StockPublication(requestId: string, order: Order, transportFault: Option<Exception>)
    : (r: Result<StockCheckRequest, Exception>)
    ensures r.Success? <==> order.orderItems.Some? && transportFault.None?
    ensures r.Success? ==> r == BuildStockCheckRequest(requestId, order)
    ensures order.orderItems.Some? && transportFault.Some? ==> r == Failure(transportFault.value)
  {
    match BuildStockCheckRequest(requestId, order)
    case Failure(e) => Failure(e)
    case Success(request) => if transportFault.Some? then Failure(transportFault.value) else Success(request)
  }

  /** The published message: default exchange, the stock-check routing key, and
      a body that the stock service decodes back to the request. */
  function StockCheckEnvelope(r: StockCheckRequest): (m: Message)
    ensures m.exchange == "" && m.routingKey == StockCheckQueue
    ensures DecodeStockCheckRequest(m.body) == Some(r)
  {
    StockCheckRequestRoundTrip(r);
    Message("", StockCheckQueue, EncodeStockCheckRequest(r))
  }

  ghost predicate DistinctRequestIds(sent: seq<StockCheckRequest>) {
    forall i, j :: 0 <= i < j < |sent| ==> sent[i].requestId != sent[j].requestId
  }

  class StockCheckPublisher {
    const broker: Broker
    /** The process-wide "stock_check_messages_published" counter. */
    var messagesPublished: nat
    /** The requests this publisher has handed to the broker, in order. */
    ghost var sent: seq<StockCheckRequest>
    /** Every request id generated so far. */
    ghost var issued: set<string>

    ghost predicate Valid()
      reads this
    {
      && (forall i :: 0 <= i < |sent| ==> sent[i].requestId in issued)
      && DistinctRequestIds(sent)
    }

    /** Declares the request queue and increments the counter, once, here. */
    constructor (broker: Broker)
      modifies broker
      ensures Valid() && this.broker == broker
      ensures broker.declared == old(broker.declared) + [StockCheckQueueDeclaration]
      ensures broker.published == old(broker.published)
      ensures messagesPublished == 1 && sent == [] && issued == {}
    {
      this.broker := broker;
      messagesPublished := 1;
      sent, issued := [], {};
      new;
      broker.Declare(StockCheckQueueDeclaration);
    }

    /** `requestId` is the value of `Guid.NewGuid()`, which never repeats an
        earlier one. The counter is left alone. */
    method PublishStockCheckRequest(order: Order, requestId: string, transportFault: Option<Exception>)
      returns (thrown: Option<Exception>)
      requires Valid() && requestId !in issued
      modifies this, broker
      ensures Valid() && issued == old(issued) + {requestId}
      ensures messagesPublished == old(messagesPublished)
      ensures broker.declared == old(broker.declared)
      ensures match StockPublication(requestId, order, transportFault)
        case Failure(e) => thrown == Some(e) && broker.published == old(broker.published) && sent == old(sent)
        case Success(request) =>
          && thrown == None
          && broker.published == old(broker.published) + [StockCheckEnvelope(request)]
          && sent == old(sent) + [request]
    {
      issued := issued + {requestId};
      var built := BuildStockCheckRequest(requestId, order);
      if built.Failure? {
        thrown := Some(built.error);
        return;
      }
      if transportFault.Some? {
        thrown := transportFault;
        return;
      }
      broker.Publish(StockCheckEnvelope(built.value));
      sent := sent + [built.value];
      thrown := None;
    }
  }
}
