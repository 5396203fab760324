/**
 * `CustomerCheckResponseConsumer`: the same single-slot waiter as the stock
 * consumer, without a counter. Each wait installs a fresh slot over the
 * previous one; each arriving response resolves whatever slot is installed,
 * whichever request it answers.
 */
module CustomerCheckResponses {
  import opened Wrappers
  import opened Platform
  import opened Messages

  const ResponseQueue := "customer_check_response_queue"

  /** Non-durable, non-exclusive, not auto-deleted. */
  const ResponseQueueDeclaration := QueueDeclaration(ResponseQueue, false, false, false)

  const TimeoutMessage := "Customer check response timed out."

  /** What the `Received` handler does with one response. */
  datatype Delivery = Dropped | Resolved | HandlerThrew(exception: Exception)

  class CustomerCheckResponseConsumer {
    /** The current slot; null until the first wait. A response decoded from
        the JSON literal null is `None`. */
    var responseTaskSource: TaskCompletionSource?<Option<CustomerCheckResponse>>

    /** Declares the response queue and subscribes the handler; no slot yet. */
    constructor (broker: Broker)
      modifies broker
      ensures responseTaskSource == null
      ensures broker.declared == old(broker.declared) + [ResponseQueueDeclaration]
      ensures broker.published == old(broker.published)
    {
      responseTaskSource := null;
      new;
      broker.Declare(ResponseQueueDeclaration);
    }

    /** The first half of `WaitForCustomerCheckResponseAsync`: a fresh,
        pending slot replaces the current one. */
    method BeginWait() returns (task: TaskCompletionSource<Option<CustomerCheckResponse>>)
      modifies this
      ensures fresh(task) && task.state == Pending && responseTaskSource == task
    {
      task := new TaskCompletionSource();
      responseTaskSource := task;
    }

    /** The `Received` handler: silently dropped with no slot, resolves a
        pending slot, throws from `SetResult` on a resolved one. */
    method Deliver(response: Option<CustomerCheckResponse>) returns (d: Delivery)
      modifies responseTaskSource
      ensures old(responseTaskSource) == null ==> d == Dropped
      ensures old(responseTaskSource) != null && old(responseTaskSource.state).Pending? ==>
                d == Resolved && responseTaskSource.state == Completed(response)
      ensures old(responseTaskSource) != null && old(responseTaskSource.state).Completed? ==>
                && d == HandlerThrew(InvalidOperationException(AlreadyCompletedMessage))
                && responseTaskSource.state == old(responseTaskSource.state)
    {
      if responseTaskSource == null {
        return Dropped;
      }
      var thrown := responseTaskSource.SetResult(response);
      d := if thrown.Some? then HandlerThrew(thrown.value) else Resolved;
    }

    /** The second half of `WaitForCustomerCheckResponseAsync`, at the moment
        its timer fires: the response if one resolved the slot before, else
        `TimeoutException`. */
    method Await(task: TaskCompletionSource<Option<CustomerCheckResponse>>)
      returns (r: Outcome<Option<CustomerCheckResponse>>)
      ensures task.state.Completed? ==> r == Returned(task.state.result)
      ensures task.state.Pending? ==> r == Threw(TimeoutException(TimeoutMessage))
    {
      if task.state.Completed? {
        r := Returned(task.state.result);
      } else {
        r := Threw(TimeoutException(TimeoutMessage));
      }
    }
  }

  /** Two waits begun back to back, then the answers to the two requests in
      request order: the second waiter is told about the FIRST request's
      client, the first waiter times out, and the second answer makes the
      handler throw. */
  method CrossedWaits(forFirst: Option<CustomerCheckResponse>, forSecond: Option<CustomerCheckResponse>)
    returns (firstWait: Outcome<Option<CustomerCheckResponse>>,
             secondWait: Outcome<Option<CustomerCheckResponse>>,
             secondDelivery: Delivery)
    ensures secondWait == Returned(forFirst)
    ensures firstWait == Threw(TimeoutException(TimeoutMessage))
    ensures secondDelivery == HandlerThrew(InvalidOperationException(AlreadyCompletedMessage))
  {
    var broker := new Broker();
    var consumer := new CustomerCheckResponseConsumer(broker);
    var first := consumer.BeginWait();
    var second := consumer.BeginWait();
    var firstDelivery := consumer.Deliver(forFirst);
    secondDelivery := consumer.Deliver(forSecond);
    secondWait := consumer.Await(second);
    firstWait := consumer.Await(first);
  }

  /** After a wait has timed out and the next one has begun, a late answer to
      the earlier request is what the next wait returns. */
  method StaleResponse(lateForFirst: Option<CustomerCheckResponse>)
    returns (firstWait: Outcome<Option<CustomerCheckResponse>>,
             secondWait: Outcome<Option<CustomerCheckResponse>>)
    ensures firstWait == Threw(TimeoutException(TimeoutMessage))
    ensures secondWait == Returned(lateForFirst)
  {
    var broker := new Broker();
    var consumer := new CustomerCheckResponseConsumer(broker);
    var first := consumer.BeginWait();
    firstWait := consumer.Await(first);
    var second := consumer.BeginWait();
    var d := consumer.Deliver(lateForFirst);
    secondWait := consumer.Await(second);
  }

  /** A response that arrives before any wait has installed a slot is lost:
      a wait begun afterwards times out. */
  method ResponseBeforeWait(early: Option<CustomerCheckResponse>)
    returns (delivery: Delivery, wait: Outcome<Option<CustomerCheckResponse>>)
    ensures delivery == Dropped
    ensures wait == Threw(TimeoutException(TimeoutMessage))
  {
    var broker := new Broker();
    var consumer := new CustomerCheckResponseConsumer(broker);
    delivery := consumer.Deliver(early);
    var task := consumer.BeginWait();
    wait := consumer.Await(task);
  }
}
