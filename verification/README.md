# Order placement with customer and stock checks — a Dafny model

This project models the core of the order service (API_Commandes):

- **The order-placement procedure** `OrdersController.PlaceOrder`. It opens a transaction and publishes a
  customer-check request, then awaits the answer. Only for a valid customer does it publish a stock-check
  request and await that answer. Then it either validates, saves, commits and reloads the order, or it
  rolls back and answers with a rejection (400), a timeout (504) or an error (500).
- **The CRUD endpoints** `GetOrder`, `PutOrder` and `DeleteOrder`, over the Orders table as a map from
  OrderId to Order.
- **The two single-slot response consumers**. Each keeps one mutable `TaskCompletionSource`. A wait
  installs a fresh one over the previous one. An arriving response resolves whichever slot is installed,
  with no correlation id.
- **The request publishers**:
  - `StockCheckPublisher` maps order items to (ProductId, Quantity) pairs under a fresh request id.
  - `CustomerCheckPublisher` wraps the client id.
  - The older `StockRequestPublisher` publishes one message and runs one HTTP availability check per
    item, then takes the conjunction of the results.

Layout, one module per source file:

- `wrappers.dfy`: Option and Result.
- `platform.dfy`: exceptions, a broker that records queue declarations and published messages,
  `TaskCompletionSource`, and decimal formatting of integers.
- `models.dfy`: the Order aggregate.
- `messages.dfy`: the request and response messages and their wire encoding.
- `stock_check_publisher.dfy`, `customer_check_publisher.dfy`, `stock_check_response_consumer.dfy`,
  `customer_check_response_consumer.dfy`, `stock_request_publisher.dfy`: one module each.
- `orders_controller.dfy`: the controller.

`PlaceOrder` is an imperative method of the `OrdersController` class. It calls the publisher objects,
updates the table and drives the transaction. It is proved to follow the pure function `PlaceOrderSpec`,
and the lemmas beside that function state what a call guarantees. `PlaceOrderSpec` is built in the
order of the C# code: the `try` block (`TryBlock`, then `StockStage`, then `WriteStage`), the catch
block that runs when the `try` raised an exception (`Catch`), and the disposal of the transaction by
the `using` declaration (`Dispose`). A `Collaborators` record is an input to each call and holds:

- the two awaited answers;
- the exceptions that the transport or the database throw at each step, including what each of the
  (at most two) `RollbackAsync` calls throws;
- `DateTime.Now`;
- the generated request id.

An awaited answer is a response (with `None` for a null response) or a thrown exception. A call ends
with a result or with an exception thrown out of the action (`ActionEnd`). That happens only when the
catch block's own rollback throws. A transaction that every rollback failed to close is disposed while
open, and its writes are discarded (`Discarded`).

Saving an order links its line items and payments to it: each child's OrderId becomes the order's,
and a missing collection is loaded as an empty one (`Models.LinkChildren`). This is how the reloaded
order is returned.

The consumers are classes whose slot field is a nullable `TaskCompletionSource` object. The timer race is
an explicit order of events: `BeginWait` installs a slot, `Deliver` is an arriving response, and `Await`
is the moment the wait's timer fires. Scenario methods run these events in sequence on a fresh consumer.

Where the code differs from a correlating request/reply design, the model follows the code:

- Responses are not matched to requests.
- A timed-out wait leaves its slot installed.
- A response that arrives before a wait is lost.
- The 504 message is "Stock check request timed out." even when the customer check timed out, and it
  does not name the order.
- A failure after the commit still reaches the catch block's rollback.

## Model

| member | source | states |
|---|---|---|
| `Orders.PlaceOrderSpec` | API_Commandes/Controllers/OrdersController.cs:38-97 | The whole run of one call as a function of the table before it, the order and the collaborators: how it ends, the final transaction state, the number of rollback calls, the table after, and the requests published in order |
| `Orders.OrdersController.PlaceOrder` | API_Commandes/Controllers/OrdersController.cs:38-97 | The imperative procedure yields exactly the ending, transaction state, rollback count and table of `PlaceOrderSpec`. The broker receives exactly the encoded requests of that run, in order. The customer counter rises by one iff the customer request was published, and the stock counter never moves. The stock publisher has drawn the request id iff the customer was accepted, and has recorded exactly the run's stock check. The table stays keyed by OrderId with its children linked |
| `Orders.OrdersController.PlaceTwoOrders` | API_Commandes/Controllers/OrdersController.cs:38-97 | Two calls on one controller with distinct fresh request ids: the second runs on the table the first left, and the broker and the stock publisher's record get the first call's requests and then the second's |
| `Orders.OrdersController.Try` | API_Commandes/Controllers/OrdersController.cs:43-86 | The `try` block yields exactly `TryBlock`'s ending, transaction state, rollback count and table. It publishes exactly its requests and records exactly its stock check, under a request id drawn iff the customer was accepted |
| `Orders.OrdersController.AwaitCustomer` | API_Commandes/Controllers/OrdersController.cs:49-85 | After the customer check went out: `TryBlock`'s run, with only the stock check (if any) added to the broker and to the stock publisher's record, and the request id drawn iff the customer was accepted |
| `Orders.OrdersController.CheckStockAndWrite` | API_Commandes/Controllers/OrdersController.cs:54-79 | After a valid customer: `StockStage`'s run. Exactly its stock check is added to the broker and to the stock publisher's record, the request id is drawn, and the stock counter is unchanged |
| `Orders.OrdersController.Write` | API_Commandes/Controllers/OrdersController.cs:61-73 | Save, commit and reload give exactly `WriteStage`'s run, and the table keeps its invariant |
| `Orders.OrdersController.Rollback` | API_Commandes/Controllers/OrdersController.cs:77-94 | `RollbackAsync` throws exactly the given fault and then changes nothing; otherwise it closes an open transaction and discards its writes, and it leaves any other transaction as it is |
| `Orders.TryEndsRolledBack` | API_Commandes/Controllers/OrdersController.cs:75-85 | A `try` block that ends rolled back returned one of the two rejections after one rollback that did not throw, and wrote nothing |
| `Orders.TryEndsCommitted` | API_Commandes/Controllers/OrdersController.cs:61-73 | A `try` block that ends committed called no rollback and added exactly the linked, validated order under a free key; it returns Ok or raises the reload's exception |
| `Orders.TryEndsOpen` | API_Commandes/Controllers/OrdersController.cs:43-86 | A `try` block never ends discarded; one that leaves the transaction open raised an exception, after at most one rollback, which then threw that exception |
| `Orders.TryPublishes` | API_Commandes/Controllers/OrdersController.cs:46-57 | Once the customer check is published it is the first request, and at most a stock check follows |
| `Orders.SpecKeepsRequests` | API_Commandes/Controllers/OrdersController.cs:87-96 | The catch blocks and the disposal publish nothing |
| `Orders.StockStagePublishes` | API_Commandes/Controllers/OrdersController.cs:54-57 | After a valid customer the stock check built from the order's items follows the customer check, unless building or publishing it throws |
| `Orders.StockStageOk` | API_Commandes/Controllers/OrdersController.cs:57-73 | After a valid customer the block returns Ok exactly when the stock is accepted and save, commit and reload succeed on a free key; the body is the linked, validated order |
| `Orders.PlaceOrderOutcomes` | API_Commandes/Controllers/OrdersController.cs:41-96 | Every call that returns answers one of Ok, the "unverified client" rejection, the "insufficient stock" rejection, 504 with the timeout message, or 500 with the error message |
| `Orders.TransactionClosed` | API_Commandes/Controllers/OrdersController.cs:41-96 | The transaction never stays open after the call, and `RollbackAsync` is called at most twice |
| `Orders.EscapesOnlyFromCatchRollback` | API_Commandes/Controllers/OrdersController.cs:87-96 | An exception leaves the action iff the `try` raised one and the catch block's rollback throws, and it is that rollback's exception; with no rollback failing, every call answers |
| `Orders.CommitOnlyOnSuccess` | API_Commandes/Controllers/OrdersController.cs:61-96 | Ok implies committed with no rollback; an uncommitted run is never Ok; every non-Ok ending calls rollback at least once |
| `Orders.CommittedButNotOk` | API_Commandes/Controllers/OrdersController.cs:66-96 | A committed run that is not Ok is exactly a failing reload after the commit, with one rollback: it answers for the reload's exception, or the rollback's exception leaves the action |
| `Orders.StoreUntouchedUnlessCommitted` | API_Commandes/Controllers/OrdersController.cs:61-96 | Without a commit the table is unchanged, whether the transaction was rolled back or discarded on disposal |
| `Orders.CommitWritesOrder` | API_Commandes/Controllers/OrdersController.cs:61-66 | With a commit, the only change is the validated order with its children linked, added under an OrderId that was free |
| `Orders.PublishesInOrder` | API_Commandes/Controllers/OrdersController.cs:46-57 | At most two requests are published. The customer check, carrying the order's CustomerId, always comes first; none is published when its publish throws. The stock check, built from the order's items, comes only after a valid customer answer |
| `Orders.RejectedCustomer` | API_Commandes/Controllers/OrdersController.cs:49-85 | A null or invalid customer answer: no stock check, table unchanged. With no rollback failing: BadRequest "Order {id} is rejected due to unverified client." after one rollback. If that rollback throws, the catch block rolls back again and answers for its exception; if both throw, the second escapes and the transaction is discarded |
| `Orders.RejectedStock` | API_Commandes/Controllers/OrdersController.cs:57-79 | A null or unavailable stock answer after a valid customer: table unchanged, and the "insufficient stock" rejection, or the same rollback-failure cases as for the customer |
| `Orders.SuccessPath` | API_Commandes/Controllers/OrdersController.cs:59-73 | Ok iff both answers accept, every step succeeds and the OrderId is free. The returned order is the reloaded one: Status "Validated", Date the clock input, and children linked to it |
| `Orders.RaisedByCollaborator` | API_Commandes/Controllers/OrdersController.cs:43-86 | Every exception the `try` raises is a collaborator's fault, a failed wait, the ArgumentNullException of a null item collection, the duplicate-key failure of the insert, or the first rollback's fault |
| `Orders.TimeoutGives504` | API_Commandes/Controllers/OrdersController.cs:87-90 | A 504 is answered iff the `try` raised a TimeoutException and the catch block's rollback did not throw; it carries "Stock check request timed out." and that exception's message |
| `Orders.WaitTimeoutGives504` | API_Commandes/Controllers/OrdersController.cs:49-90 | A timeout of either wait gives that 504 after rollback, with the table unchanged |
| `Orders.OtherExceptionGives500` | API_Commandes/Controllers/OrdersController.cs:92-95 | A 500 is answered iff the `try` raised any other exception and the catch block's rollback did not throw; it carries the error message and that exception's message |
| `Orders.WaitFailureGives500` | API_Commandes/Controllers/OrdersController.cs:49-95 | Any other failure of either wait gives that 500 after rollback, with the table unchanged |
| `Orders.RejectionNamesOrder` | API_Commandes/Controllers/OrdersController.cs:78-84 | Two different order ids never produce the same rejection message |
| `Orders.OrdersController.constructor` | API_Commandes/Controllers/OrdersController.cs:22-35 | The controller shares one broker with both publishers, over a table keyed by OrderId |
| `Orders.OrdersController.GetOrder` | API_Commandes/Controllers/OrdersController.cs:119-133 | Ok with the stored order for a present id, which carries that id and has its children linked; NotFound for an absent one |
| `Orders.OrdersController.PutOrder` | API_Commandes/Controllers/OrdersController.cs:136-174 | BadRequest when id differs from the order's OrderId, NotFound when absent, both without change. Otherwise the stored order is replaced by the given one with its children linked, and that is returned |
| `Orders.OrdersController.DeleteOrder` | API_Commandes/Controllers/OrdersController.cs:186-199 | NotFound and no change for an absent id; otherwise exactly that order is removed and NoContent returned |
| `Models.LinkChildren` | API_Commandes/Controllers/OrdersController.cs:63-71 | Saving and reloading keeps the order's scalars and its children in order, with each child's OrderId set to the order's; a missing collection is loaded as an empty one |
| `Models.LinkChildrenFixesLinked` | API_Commandes/Controllers/OrdersController.cs:168-171 | Linking an order whose children already point at it changes nothing, so reloading a stored order returns it unchanged |
| `StockCheckPublishing.StockCheckItems` | API_Commandes/Messaging/StockCheckPublisher.cs:43-47 | The item list has the order's length and carries each item's (ProductId, Quantity) at the same position |
| `StockCheckPublishing.BuildStockCheckRequest` | API_Commandes/Messaging/StockCheckPublisher.cs:39-48 | The request carries the generated id and the mapped items; a null item collection throws ArgumentNullException instead |
| `StockCheckPublishing.StockPublication` | API_Commandes/Messaging/StockCheckPublisher.cs:37-59 | A request reaches the broker iff the items are non-null and the transport does not throw; otherwise the first exception is thrown |
| `StockCheckPublishing.StockCheckEnvelope` | API_Commandes/Messaging/StockCheckPublisher.cs:51-57 | Default exchange, routing key "stock_check_request", a body that decodes back to the request |
| `StockCheckPublishing.StockCheckPublisher.constructor` | API_Commandes/Messaging/StockCheckPublisher.cs:21-35 | Declares "stock_check_request" non-durable, non-exclusive, not auto-deleted; the published counter is incremented here, once |
| `StockCheckPublishing.StockCheckPublisher.PublishStockCheckRequest` | API_Commandes/Messaging/StockCheckPublisher.cs:37-59 | One message per successful call and none otherwise; the counter is untouched; request ids of published requests stay pairwise distinct |
| `CustomerCheckPublishing.CustomerCheckEnvelope` | API_Commandes/Messaging/CustomerCheckPublisher.cs:35-46 | Default exchange, routing key "customer_check_request", a body that decodes to exactly the client id |
| `CustomerCheckPublishing.CustomerCheckPublisher.constructor` | API_Commandes/Messaging/CustomerCheckPublisher.cs:20-31 | Declares "customer_check_request" non-durable, non-exclusive, not auto-deleted; counter untouched |
| `CustomerCheckPublishing.CustomerCheckPublisher.PublishCustomerCheckRequest` | API_Commandes/Messaging/CustomerCheckPublisher.cs:33-51 | One message and one counter increment when the transport does not throw; neither when it does |
| `StockCheckResponses.StockCheckResponseConsumer.constructor` | API_Commandes/Messaging/StockCheckResponseConsumer.cs:21-46 | Declares "stock_check_response_queue"; no slot installed; counter at zero |
| `StockCheckResponses.StockCheckResponseConsumer.BeginWait` | API_Commandes/Messaging/StockCheckResponseConsumer.cs:48-55 | A fresh, pending slot replaces the current one |
| `StockCheckResponses.StockCheckResponseConsumer.Deliver` | API_Commandes/Messaging/StockCheckResponseConsumer.cs:34-43 | With no slot: dropped, counted. Pending slot: resolved with the response, counted. Resolved slot: SetResult throws, first result kept, not counted. No request id is looked at |
| `StockCheckResponses.StockCheckResponseConsumer.Await` | API_Commandes/Messaging/StockCheckResponseConsumer.cs:58-65 | The wait returns the response that resolved its slot, else throws TimeoutException "Stock check response timed out."; the slot is not cleared |
| `StockCheckResponses.CrossedWaits` | API_Commandes/Messaging/StockCheckResponseConsumer.cs:34-66 | Two back-to-back waits: the second receives the answer to the first request, the first times out, the second answer makes the handler throw |
| `StockCheckResponses.StaleResponse` | API_Commandes/Messaging/StockCheckResponseConsumer.cs:41-65 | A late answer resolves a timed-out wait's abandoned slot; after the next wait begins, a late answer is what that next wait returns |
| `StockCheckResponses.ResponseBeforeWait` | API_Commandes/Messaging/StockCheckResponseConsumer.cs:41-42 | A response before any wait is dropped yet counted, and a later wait times out |
| `CustomerCheckResponses.CustomerCheckResponseConsumer.constructor` | API_Commandes/Messaging/CustomerCheckResponseConsumer.cs:20-41 | Declares "customer_check_response_queue"; no slot installed |
| `CustomerCheckResponses.CustomerCheckResponseConsumer.BeginWait` | API_Commandes/Messaging/CustomerCheckResponseConsumer.cs:43-48 | A fresh, pending slot replaces the current one |
| `CustomerCheckResponses.CustomerCheckResponseConsumer.Deliver` | API_Commandes/Messaging/CustomerCheckResponseConsumer.cs:31-38 | With no slot: silently dropped. Pending slot: resolved. Resolved slot: SetResult throws, first result kept. Whichever request the answer is for |
| `CustomerCheckResponses.CustomerCheckResponseConsumer.Await` | API_Commandes/Messaging/CustomerCheckResponseConsumer.cs:50-57 | The wait returns the response that resolved its slot, else throws TimeoutException "Customer check response timed out." |
| `CustomerCheckResponses.CrossedWaits` | API_Commandes/Messaging/CustomerCheckResponseConsumer.cs:31-58 | Two back-to-back waits: the second is told about the first request's client, the first times out, the second answer makes the handler throw |
| `CustomerCheckResponses.StaleResponse` | API_Commandes/Messaging/CustomerCheckResponseConsumer.cs:37-57 | After a wait times out and the next begins, a late answer to the earlier request is what the next wait returns |
| `CustomerCheckResponses.ResponseBeforeWait` | API_Commandes/Messaging/CustomerCheckResponseConsumer.cs:37-37 | A response before any wait is lost, and a later wait times out |
| `StockRequests.StockUrl` | API_Commandes/Publishers/StockRequestPublisher.cs:51-51 | The query URL starts with the product API's address |
| `StockRequests.StockUrlInjective` | API_Commandes/Publishers/StockRequestPublisher.cs:51-51 | Different queries give different URLs: the URL determines the product id and the quantity |
| `StockRequests.CheckStockAvailability` | API_Commandes/Publishers/StockRequestPublisher.cs:49-59 | The task runs to completion with true exactly for a success status whose body is non-null and says available, and with false for any other answer. A client exception faults it with that exception, except a TaskCanceledException, which cancels it |
| `StockRequests.FirstFault` | API_Commandes/Publishers/StockRequestPublisher.cs:45-45 | None iff no task faulted; otherwise the exception of a faulted task with no faulted task before it |
| `StockRequests.WhenAll` | API_Commandes/Publishers/StockRequestPublisher.cs:45-45 | All results in order iff every task ran to completion. Otherwise: the exception of the first faulted task, even after a canceled one; with no fault but a cancellation, a fresh TaskCanceledException "A task was canceled." |
| `StockRequests.All` | API_Commandes/Publishers/StockRequestPublisher.cs:46-46 | True iff every result is true, hence true for no items |
| `StockRequests.FirstPublishFault` | API_Commandes/Publishers/StockRequestPublisher.cs:28-43 | The index of the first item whose `BasicPublish` throws, or the item count: every earlier publish succeeds |
| `StockRequests.ItemEnvelopesInOrder` | API_Commandes/Publishers/StockRequestPublisher.cs:28-39 | Message i is item i's (ProductId, Quantity) on "stock_check_queue" |
| `StockRequests.StockQueriesInOrder` | API_Commandes/Publishers/StockRequestPublisher.cs:42-42 | Query i asks for item i's product and quantity |
| `StockRequests.AnswerFromResponses` | API_Commandes/Publishers/StockRequestPublisher.cs:45-59 | The answer is a value iff every query got a response, and then it is true iff every query succeeded and said "available" |
| `StockRequests.AnswerFromFirstFault` | API_Commandes/Publishers/StockRequestPublisher.cs:45-45 | When a query throws other than a cancellation, the call throws the exception of the first such query |
| `StockRequests.AnswerFromCancellation` | API_Commandes/Publishers/StockRequestPublisher.cs:45-45 | When no query faults but one is canceled, the call throws a fresh TaskCanceledException |
| `StockRequests.PublishStockCheckRequest` | API_Commandes/Publishers/StockRequestPublisher.cs:18-47 | Items are handled in order, one message then one query each, until a `BasicPublish` throws, which ends the call with that exception after the messages and queries of the items before it. When none throws, every item's message and query are issued and the answer is that of the queries' tasks |
| `Messages.StockCheckRequestRoundTrip` | API_Commandes/Messaging/StockCheckPublisher.cs:51-57 | Decoding the published body yields the same request id and the same item pairs in the same order |
| `Messages.StockCheckRequestEncodingInjective` | API_Commandes/Messaging/StockCheckPublisher.cs:51-51 | Different stock-check requests never share a body |
| `Messages.CustomerCheckRequestRoundTrip` | API_Commandes/Messaging/CustomerCheckPublisher.cs:41-41 | Decoding the published body yields the client id |
| `Platform.TaskCompletionSource.SetResult` | API_Commandes/Messaging/StockCheckResponseConsumer.cs:41-41 | Completes a pending task; on a completed one throws InvalidOperationException and keeps the first result |
| `Platform.IntToStringInjective` | API_Commandes/Controllers/OrdersController.cs:78-78 | Integer formatting in the messages is injective, via the round trip of digit formatting |

## Left out

- RabbitMQ transport: connections, channels, `BasicConsume`, acknowledgements, `GetMessageCount` and
  `Dispose`/`Close`. Publishing appends to the broker's list. Consumption is the explicit `Deliver` event.
- Timers and `Task.WhenAny`: the timer firing is the `Await` event. The timeout length is not modelled.
- Concurrency: several `PlaceOrder` calls share the singleton consumers. Their interleavings appear only
  as sequential event orders in the scenario methods. `PlaceOrder` takes the awaited answers as inputs,
  not from the consumer objects.
- Orders.OrdersController.Rollback: what `RollbackAsync` throws is an input of each call. The model does
  not derive it from the transaction's state, so the database provider's own exception for rolling back
  a transaction that is already committed appears only as such an input.
- Orders.OrdersController.PlaceOrder: a failure of `BeginTransactionAsync` is not modelled. The error
  responses carry the exception's message.
- EF Core key generation: an order whose OrderId is 0 is stored under the id it carries, and the
  OrderItemId and PaymentId of its children keep the values they carry.
- EF Core cascade deletes of items and payments are not modelled.
- Orders.OrdersController.PutOrder: does not model a failing `SaveChangesAsync` or the
  `DbUpdateConcurrencyException` handler (NotFound if the row vanished, else rethrow). Children that
  the new collections replace are deleted, because both relationships are required; in the model they
  disappear with the stored order they belonged to. A null collection in the given order is loaded back
  as an empty one.
- Orders.OrdersController.DeleteOrder: does not model a failing `SaveChangesAsync`.
- `GetOrders` (list all) is not modelled. It only loads the whole table, and its null check cannot fire.
- JSON and UTF-8 are replaced by a length-prefixed integer encoding. Only its round trip matters. The
  consumers receive responses already decoded (`None` for a JSON null). A malformed response body, which
  would throw in the handler, is not modelled.
- `Guid.NewGuid()` is the `requestId` input. Its uniqueness is stated as the requirement that the id was
  never issued before. `DateTime.Now` is the `now` input.
- StockRequests.PublishStockCheckRequest: does not model the per-call connection from `ConnectionFactory`,
  its declaration of "stock_check_queue", or a failure of either. A null item collection is not modelled.
  The HTTP client's answers are inputs, one per item. A malformed HTTP body (a JSON exception) is not
  modelled. The class is never registered for dependency injection.
- Prometheus counters are plain integer fields of the single instance that dependency injection creates.
  Logging is dropped.
- C# `int` is 32-bit; the model uses unbounded integers. No arithmetic is done on ids or quantities, so
  this changes nothing.
- `Payment.Amount` (decimal) is a `real`. It plays no role in the logic.
- Program.cs (dependency injection and middleware) and the earlier duplicate controller in
  OrderController.cs are not part of this model.
