/**
 * `CustomerCheckPublisher`: wraps a client id in a customer-check request and
 * publishes it, once, on the default exchange with routing key
 * "customer_check_request", then counts the publication.
 */
module CustomerCheckPublishing {
  import opened Wrappers
  import opened Platform
  import opened Messages

  const CustomerCheckQueue := "customer_check_request"

  /** Non-durable, non-exclusive, not auto-deleted. */
  const CustomerCheckQueueDeclaration := QueueDeclaration(CustomerCheckQueue, false, false, false)

  /** The published message: default exchange, the customer-check routing key,
      and a body that decodes to exactly the client id, with no correlation id. */
  function CustomerCheckEnvelope(r: CustomerCheckRequest): (m: Message)
    ensures m.exchange == "" && m.routingKey == CustomerCheckQueue
    ensures DecodeCustomerCheckRequest(m.body) == Some(r)
  {
    CustomerCheckRequestRoundTrip(r);
    Message("", CustomerCheckQueue, EncodeCustomerCheckRequest(r))
  }

  class CustomerCheckPublisher {
    const broker: Broker
    /** The process-wide "customer_check_messages_published" counter. */
    var messagesPublished: nat

    /** Declares the request queue; the counter is not touched. */
    constructor (broker: Broker)
      modifies broker
      ensures this.broker == broker && messagesPublished == 0
      ensures broker.declared == old(broker.declared) + [CustomerCheckQueueDeclaration]
      ensures broker.published == old(broker.published)
    {
      this.broker := broker;
      messagesPublished := 0;
      new;
      broker.Declare(CustomerCheckQueueDeclaration);
    }

    /** The counter rises only once `BasicPublish` has returned; when the
        transport throws, nothing is published and nothing is counted. */
    method PublishCustomerCheckRequest(clientId: int, transportFault: Option<Exception>)
      returns (thrown: Option<Exception>)
      modifies this, broker
      ensures thrown == transportFault
      ensures broker.declared == old(broker.declared)
      ensures transportFault.None? ==>
                && broker.published == old(broker.published) + [CustomerCheckEnvelope(CustomerCheckRequest(clientId))]
                && messagesPublished == old(messagesPublished) + 1
      ensures transportFault.Some? ==>
                broker.published == old(broker.published) && messagesPublished == old(messagesPublished)
    {
      if transportFault.Some? {
        return transportFault;
      }
      broker.Publish(CustomerCheckEnvelope(CustomerCheckRequest(clientId)));
      messagesPublished := messagesPublished + 1;
      thrown := None;
    }
  }
}
