/**
 * `StockCheckResponseConsumer`: a single mutable completion slot shared by
 * every wait. Each wait installs a fresh slot over the previous one; each
 * response that arrives resolves whatever slot is installed, with no look at
 * which request it answers. The race between a response and a wait's timer is
 * an explicit order of events: `Deliver` for an arrival, `Await` for the
 * moment the wait's timer fires.
 */
module StockCheckResponses {
  import opened Wrappers
  import opened Platform
  import opened Messages

  const ResponseQueue := "stock_check_response_queue"

  /** Non-durable, non-exclusive, not auto-deleted. */
  const ResponseQueueDeclaration := QueueDeclaration(ResponseQueue, false, false, false)

  const TimeoutMessage := "Stock check response timed out."

  /** What the `Received` handler does with one response. */
  datatype Delivery = Dropped | Resolved | HandlerThrew(exception: Exception)

  class StockCheckResponseConsumer {
    /** The current slot; null until the first wait. A response decoded from
        the JSON literal null is `None`. */
    var responseTaskSource: TaskCompletionSource?<Option<StockCheckResponse>>
    /** The process-wide "stock_check_responses_received" counter. */
    var messagesConsumed: nat

    /** Declares the response queue and subscribes the handler; no slot yet. */
    constructor (broker: Broker)
      modifies broker
      ensures responseTaskSource == null && messagesConsumed == 0
      ensures broker.declared == old(broker.declared) + [ResponseQueueDeclaration]
      ensures broker.published == old(broker.published)
    {
      responseTaskSource := null;
      messagesConsumed := 0;
      new;
      broker.Declare(ResponseQueueDeclaration);
    }

    /** The first half of `WaitForStockCheckResponseAsync`: a fresh, pending
        slot replaces the current one, which is abandoned, not cancelled. */
    method BeginWait() returns (task: TaskCompletionSource<Option<StockCheckResponse>>)
      modifies this
      ensures fresh(task) && task.state == Pending
      ensures responseTaskSource == task && messagesConsumed == old(messagesConsumed)
    {
      task := new TaskCompletionSource();
      responseTaskSource := task;
    }

    /** The `Received` handler. With no slot the response is dropped and still
        counted; a pending slot is resolved and counted; a slot that is
        already resolved makes `SetResult` throw before the counter moves. */
    method Deliver(response: Option<StockCheckResponse>) returns (d: Delivery)
      modifies this, responseTaskSource
      ensures responseTaskSource == old(responseTaskSource)
      ensures old(responseTaskSource) == null ==>
                d == Dropped && messagesConsumed == old(messagesConsumed) + 1
      ensures old(responseTaskSource) != null && old(responseTaskSource.state).Pending? ==>
                && d == Resolved
                && responseTaskSource.state == Completed(response)
                && messagesConsumed == old(messagesConsumed) + 1
      ensures old(responseTaskSource) != null && old(responseTaskSource.state).Completed? ==>
                && d == HandlerThrew(InvalidOperationException(AlreadyCompletedMessage))
                && responseTaskSource.state == old(responseTaskSource.state)
                && messagesConsumed == old(messagesConsumed)
    {
      if responseTaskSource == null {
        d := Dropped;
      } else {
        var thrown := responseTaskSource.SetResult(response);
        if thrown.Some? {
          return HandlerThrew(thrown.value);
        }
        d := Resolved;
      }
      messagesConsumed := messagesConsumed + 1;
    }

    /** The second half of `WaitForStockCheckResponseAsync`, at the moment its
        timer fires: a response that resolved the wait's slot earlier is what
        the wait returned; otherwise it throws `TimeoutException`. The slot
        stays installed either way. */
    method Await(task: TaskCompletionSource<Option<StockCheckResponse>>)
      returns (r: Outcome<Option<StockCheckResponse>>)
      ensures task.state.Completed? ==> r == Returned(task.state.result)
      ensures task.state.Pending? ==> r == Threw(TimeoutException(TimeoutMessage))
    {
      if task.state.Completed? {
        r := Returned(task.state.result);
      } else {
        r := Threw(TimeoutException(TimeoutMessage));
      }
    }
  }

  /** Two waits begun back to back on the shared consumer, then the answers to
      the two requests in request order: the second waiter receives the answer
      to the FIRST request, the first waiter times out, and the answer to the
      second request makes the handler throw. */
  method CrossedWaits(forFirst: Option<StockCheckResponse>, forSecond: Option<StockCheckResponse>)
    returns (firstWait: Outcome<Option<StockCheckResponse>>,
             secondWait: Outcome<Option<StockCheckResponse>>,
             secondDelivery: Delivery,
             consumed: nat)
    ensures secondWait == Returned(forFirst)
    ensures firstWait == Threw(TimeoutException(TimeoutMessage))
    ensures secondDelivery == HandlerThrew(InvalidOperationException(AlreadyCompletedMessage))
    ensures consumed == 1
  {
    var broker := new Broker();
    var consumer := new StockCheckResponseConsumer(broker);
    var first := consumer.BeginWait();
    var second := consumer.BeginWait();
    var firstDelivery := consumer.Deliver(forFirst);
    secondDelivery := consumer.Deliver(forSecond);
    secondWait := consumer.Await(second);
    firstWait := consumer.Await(first);
    consumed := consumer.messagesConsumed;
  }

  /** A wait that timed out leaves its slot installed: a late answer resolves
      the abandoned slot, and once the next wait has begun, a late answer to
      the earlier request is what that next wait returns. */
  method StaleResponse(lateForFirst: Option<StockCheckResponse>, lateAgain: Option<StockCheckResponse>)
    returns (firstWait: Outcome<Option<StockCheckResponse>>,
             abandonedDelivery: Delivery,
             secondWait: Outcome<Option<StockCheckResponse>>,
             consumed: nat)
    ensures firstWait == Threw(TimeoutException(TimeoutMessage))
    ensures abandonedDelivery == Resolved
    ensures secondWait == Returned(lateAgain)
    ensures consumed == 2
  {
    var broker := new Broker();
    var consumer := new StockCheckResponseConsumer(broker);
    var first := consumer.BeginWait();
    firstWait := consumer.Await(first);
    abandonedDelivery := consumer.Deliver(lateForFirst);
    var second := consumer.BeginWait();
    var d := consumer.Deliver(lateAgain);
    secondWait := consumer.Await(second);
    consumed := consumer.messagesConsumed;
  }

  /** A response that arrives before any wait has installed a slot is lost,
      though counted: a wait begun afterwards times out. */
  method ResponseBeforeWait(early: Option<StockCheckResponse>)
    returns (delivery: Delivery, wait: Outcome<Option<StockCheckResponse>>, consumed: nat)
    ensures delivery == Dropped && consumed == 1
    ensures wait == Threw(TimeoutException(TimeoutMessage))
  {
    var broker := new Broker();
    var consumer := new StockCheckResponseConsumer(broker);
    delivery := consumer.Deliver(early);
    var task := consumer.BeginWait();
    wait := consumer.Await(task);
    consumed := consumer.messagesConsumed;
  }
}
