/**
 * `OrdersController`: the order-placement procedure and the small CRUD
 * endpoints over the Orders table.
 *
 * `PlaceOrder` opens a transaction, publishes a customer check and awaits its
 * answer; only for a valid customer does it publish a stock check and await
 * that answer; it then either validates, saves, commits and reloads the
 * order, or rolls back and answers with a rejection (400), a timeout (504) or
 * an error (500). What its collaborators do during one call (the two awaited
 * answers, exceptions thrown by the transport or the database, the clock and
 * the generated request id) is the `Collaborators` input. `PlaceOrderSpec`
 * states the whole run as a function; the method is proved to follow it and
 * the lemmas state what the run guarantees.
 */
module Orders {
  import opened Wrappers
  import opened Platform
  import opened Models
  import opened Messages
  import opened StockCheckPublishing
  import opened CustomerCheckPublishing

  /** The `IActionResult` values the controller returns. */
  datatype ActionResult =
    | OkObject(value: Option<Order>)
    | BadRequestObject(message: string)
    | BadRequestEmpty
    | StatusCodeObject(statusCode: int, message: string, error: string)
    | NotFound
    | NoContent

  /** The transaction opened by `BeginTransactionAsync` and disposed by the
      `using` declaration when the action ends. */
  datatype TxState =
    | Open
    | Committed
    | RolledBack
    | Discarded  // disposed while still open: its writes are discarded

  /** A request handed to the broker during a call. */
  datatype CheckRequest = CustomerCheck(customer: CustomerCheckRequest) | StockCheck(stock: StockCheckRequest)

  function Envelope(r: CheckRequest): Message {
    match r
    case CustomerCheck(c) => CustomerCheckEnvelope(c)
    case StockCheck(s) => StockCheckEnvelope(s)
  }

  function Envelopes(rs: seq<CheckRequest>): seq<Message> {
    if rs == [] then [] else [Envelope(rs[0])] + Envelopes(rs[1..])
  }

  lemma EnvelopesOfOne(only: CheckRequest)
    ensures Envelopes([only]) == [Envelope(only)]
  {
    assert [only][1..] == [];
  }

  lemma EnvelopesOfTwo(first: CheckRequest, second: CheckRequest)
    ensures Envelopes([first, second]) == [Envelope(first), Envelope(second)]
  {
    var rs := [first, second];
    assert rs[1..] == [second];
    assert rs[1..][1..] == [];
    assert Envelopes(rs[1..]) == [Envelope(second)] + Envelopes([]);
  }

  /** The stock-check requests among those of a call. */
  function StockSent(rs: seq<CheckRequest>): seq<StockCheckRequest> {
    if rs == [] then []
    else (if rs[0].StockCheck? then [rs[0].stock] else []) + StockSent(rs[1..])
  }

  lemma StockSentOfOne(c: CustomerCheckRequest)
    ensures StockSent([CustomerCheck(c)]) == []
  {
    assert [CustomerCheck(c)][1..] == [];
  }

  lemma StockSentOfTwo(c: CustomerCheckRequest, r: StockCheckRequest)
    ensures StockSent([CustomerCheck(c)] + [StockCheck(r)]) == [r]
  {
    var rs := [CustomerCheck(c)] + [StockCheck(r)];
    assert rs[1..] == [StockCheck(r)];
    assert [StockCheck(r)][1..] == [];
    assert StockSent([StockCheck(r)]) == [r] + StockSent([]);
  }

  /** What the collaborators of one `PlaceOrder` call do: `None` for a step
      that succeeds, `Some(e)` for one that throws `e`. `firstRollbackFault`
      is what the call's first `RollbackAsync` throws; `secondRollbackFault`
      what a second one throws, which happens only when a catch block follows
      a rollback that threw inside the `try`. */
  datatype Collaborators = Collaborators(
    customerPublishFault: Option<Exception>,
    customerWait: Outcome<Option<CustomerCheckResponse>>,
    requestId: string,
    stockPublishFault: Option<Exception>,
    stockWait: Outcome<Option<StockCheckResponse>>,
    now: DateTime,
    saveFault: Option<Exception>,
    commitFault: Option<Exception>,
    reloadFault: Option<Exception>,
    firstRollbackFault: Option<Exception>,
    secondRollbackFault: Option<Exception>)

  /** How the action, or its `try` block, ends: with a result, or with an
      exception thrown out of it. */
  datatype ActionEnd = Returns(result: ActionResult) | Raises(exception: Exception)

  /** The state of a call at some point: how it ends, the transaction's
      state, how many times `RollbackAsync` was called, the Orders table as
      the call sees it, and the requests published, in order. */
  datatype PlaceOrderRun = PlaceOrderRun(
    outcome: ActionEnd,
    tx: TxState,
    rollbackCalls: nat,
    orders: map<int, Order>,
    requests: seq<CheckRequest>)

  predicate IsOk(run: PlaceOrderRun) {
    run.outcome.Returns? && run.outcome.result.OkObject?
  }

  const ValidatedStatus := "Validated"

  /** The 504 message, the same whichever wait timed out. */
  const TimeoutResultMessage := "Stock check request timed out."

  const ErrorResultMessage := "An error occurred while processing the order."

  /** What EF Core's `DbUpdateException` says when the insert hits an existing key. */
  const DuplicateKeyMessage := "An error occurred while saving the entity changes. See the inner exception for details."

  const UnverifiedClientSuffix := " is rejected due to unverified client."

  const InsufficientStockSuffix := " is rejected due to insufficient stock."

  function UnverifiedClientMessage(orderId: int): string {
    "Order " + IntToString(orderId) + UnverifiedClientSuffix
  }

  function InsufficientStockMessage(orderId: int): string {
    "Order " + IntToString(orderId) + InsufficientStockSuffix
  }

  /** The two catch blocks: 504 for a `TimeoutException`, 500 for any other
      exception; both carry the exception's message. */
  function CaughtResult(e: Exception): ActionResult {
    if e.TimeoutException? then StatusCodeObject(504, TimeoutResultMessage, e.message)
    else StatusCodeObject(500, ErrorResultMessage, e.message)
  }

  predicate CustomerAccepted(r: Option<CustomerCheckResponse>) {
    r.Some? && r.value.isCustomerValid
  }

  /** The call reaches the stock check, which draws a request id, exactly
      when the customer check went out and the customer was accepted. */
  function StockIdIssued(env: Collaborators): set<string> {
    if && env.customerPublishFault.None?
       && env.customerWait.Returned? && CustomerAccepted(env.customerWait.value)
    then {env.requestId} else {}
  }

  predicate StockAccepted(r: Option<StockCheckResponse>) {
    r.Some? && r.value.isStockAvailable
  }

  /** The order as written on success: status "Validated", date stamped. */
  function Validate(order: Order, now: DateTime): Order {
    order.(status := ValidatedStatus, date := now)
  }

  /** `FirstOrDefaultAsync(o => o.OrderId == id)`: the row, or null. */
  function FindOrder(orders: map<int, Order>, id: int): Option<Order> {
    if id in orders then Some(orders[id]) else None
  }

  /** What the table guarantees: every row sits under its own OrderId, with
      its children loaded and pointing back at it. */
  ghost predicate Stored(orders: map<int, Order>) {
    forall id :: id in orders ==> orders[id].orderId == id && ChildrenLinked(orders[id])
  }

  /** `SaveChangesAsync` after `Add`: the exception it throws, if any. The
      insert fails on a key already in the table. */
  function SaveFault(orders: map<int, Order>, order: Order, fault: Option<Exception>): Option<Exception> {
    if fault.Some? then fault
    else if order.orderId in orders then Some(OtherException(DuplicateKeyMessage))
    else None
  }

  /** An exception leaves the `try` before any rollback was called. */
  function Raise(orders: map<int, Order>, requests: seq<CheckRequest>, tx: TxState, e: Exception): PlaceOrderRun {
    PlaceOrderRun(Raises(e), tx, 0, orders, requests)
  }

  /** A rejection inside the `try`: the first rollback, then the 400. When
      that rollback throws, its exception leaves the `try` instead. */
  function Reject(orders: map<int, Order>, requests: seq<CheckRequest>, message: string,
                  fault: Option<Exception>): PlaceOrderRun
  {
    if fault.Some? then PlaceOrderRun(Raises(fault.value), Open, 1, orders, requests)
    else PlaceOrderRun(Returns(BadRequestObject(message)), RolledBack, 1, orders, requests)
  }

  /** The `try` block of one call, from the table before the call: the
      result it returns or the exception it raises, and the state then. */
  function TryBlock(orders: map<int, Order>, order: Order, env: Collaborators): PlaceOrderRun {
    if env.customerPublishFault.Some? then Raise(orders, [], Open, env.customerPublishFault.value)
    else
      var asked := [CustomerCheck(CustomerCheckRequest(order.customerId))];
      match env.customerWait
      case Threw(e) => Raise(orders, asked, Open, e)
      case Returned(clientResponse) =>
        if !CustomerAccepted(clientResponse) then
          Reject(orders, asked, UnverifiedClientMessage(order.orderId), env.firstRollbackFault)
        else StockStage(orders, order, env)
  }

  /** The `try` block once the customer was accepted: publish the stock
      check, await it, and reject or write the order. */
  function StockStage(orders: map<int, Order>, order: Order, env: Collaborators): PlaceOrderRun {
    var asked := [CustomerCheck(CustomerCheckRequest(order.customerId))];
    match StockPublication(env.requestId, order, env.stockPublishFault)
    case Failure(e) => Raise(orders, asked, Open, e)
    case Success(stockRequest) =>
      var asked := asked + [StockCheck(stockRequest)];
      match env.stockWait
      case Threw(e) => Raise(orders, asked, Open, e)
      case Returned(stockResponse) =>
        if !StockAccepted(stockResponse) then
          Reject(orders, asked, InsufficientStockMessage(order.orderId), env.firstRollbackFault)
        else WriteStage(orders, Validate(order, env.now), env, asked)
  }

  /** The end of the `try` block: save, commit, reload. */
  function WriteStage(orders: map<int, Order>, validated: Order, env: Collaborators,
                      asked: seq<CheckRequest>): PlaceOrderRun
  {
    var saveFault := SaveFault(orders, validated, env.saveFault);
    if saveFault.Some? then Raise(orders, asked, Open, saveFault.value)
    else
      var written := orders[validated.orderId := LinkChildren(validated)];
      if env.commitFault.Some? then Raise(written, asked, Open, env.commitFault.value)
      else if env.reloadFault.Some? then Raise(written, asked, Committed, env.reloadFault.value)
      else PlaceOrderRun(Returns(OkObject(FindOrder(written, validated.orderId))), Committed, 0, written, asked)
  }

  /** What the rollback called by a catch block throws: it is the call's
      first rollback, or its second when one already threw inside the `try`. */
  function CatchRollbackFault(t: PlaceOrderRun, env: Collaborators): Option<Exception> {
    if t.rollbackCalls == 0 then env.firstRollbackFault else env.secondRollbackFault
  }

  /** A catch block for the exception `e` raised by the `try`: roll back
      (discarding the writes of a transaction still open), then answer 504
      or 500; when that rollback throws, its exception leaves the action. */
  function Catch(before: map<int, Order>, t: PlaceOrderRun, e: Exception, fault: Option<Exception>): PlaceOrderRun {
    var calls := t.rollbackCalls + 1;
    if fault.Some? then t.(outcome := Raises(fault.value), rollbackCalls := calls)
    else if t.tx == Open then PlaceOrderRun(Returns(CaughtResult(e)), RolledBack, calls, before, t.requests)
    else t.(outcome := Returns(CaughtResult(e)), rollbackCalls := calls)
  }

  /** The `using` declaration disposes the transaction; one still open
      (every rollback of it threw) has its writes discarded. */
  function Dispose(before: map<int, Order>, run: PlaceOrderRun): PlaceOrderRun {
    if run.tx == Open then run.(tx := Discarded, orders := before) else run
  }

  /** One `PlaceOrder` call, from the table before the call. */
  function PlaceOrderSpec(orders: map<int, Order>, order: Order, env: Collaborators): PlaceOrderRun {
    var t := TryBlock(orders, order, env);
    var caught := match t.outcome
      case Returns(_) => t
      case Raises(e) => Catch(orders, t, e, CatchRollbackFault(t, env));
    Dispose(orders, caught)
  }

  /** A `try` block that ends rolled back returned one of the two rejections
      after its one rollback, and wrote nothing. */
  lemma TryEndsRolledBack(orders: map<int, Order>, order: Order, env: Collaborators)
    ensures var t := TryBlock(orders, order, env);
      t.tx == RolledBack ==>
        && t.orders == orders && t.rollbackCalls == 1 && env.firstRollbackFault.None?
        && (|| t.outcome == Returns(BadRequestObject(UnverifiedClientMessage(order.orderId)))
            || t.outcome == Returns(BadRequestObject(InsufficientStockMessage(order.orderId))))
  {
  }

  /** A `try` block that ends committed wrote the validated order under a
      free key and called no rollback; it returns Ok, or raises the reload's
      exception. */
  lemma TryEndsCommitted(orders: map<int, Order>, order: Order, env: Collaborators)
    ensures var t := TryBlock(orders, order, env);
      t.tx == Committed ==>
        && t.rollbackCalls == 0
        && order.orderId !in orders
        && t.orders == orders[order.orderId := LinkChildren(Validate(order, env.now))]
        && (t.outcome.Returns? ==> t.outcome.result.OkObject?)
        && (t.outcome.Raises? ==> env.reloadFault == Some(t.outcome.exception))
  {
  }

  /** A `try` block that leaves the transaction open raised an exception,
      after at most one rollback, which then threw. */
  lemma TryEndsOpen(orders: map<int, Order>, order: Order, env: Collaborators)
    ensures var t := TryBlock(orders, order, env);
      && t.tx != Discarded
      && (t.tx == Open ==>
            && t.outcome.Raises?
            && t.rollbackCalls <= 1
            && (t.rollbackCalls == 1 ==> env.firstRollbackFault == Some(t.outcome.exception)))
  {
  }

  /** Past a successful customer publication the `try` block has asked the
      customer check first, and at most the stock check after it. */
  lemma TryPublishes(orders: map<int, Order>, order: Order, env: Collaborators)
    requires env.customerPublishFault.None?
    ensures var requests := TryBlock(orders, order, env).requests;
      && (|requests| == 1 || |requests| == 2)
      && requests[0] == CustomerCheck(CustomerCheckRequest(order.customerId))
  {
  }

  /** The catch blocks and disposal publish nothing. */
  lemma SpecKeepsRequests(orders: map<int, Order>, order: Order, env: Collaborators)
    ensures PlaceOrderSpec(orders, order, env).requests == TryBlock(orders, order, env).requests
  {
  }

  /** The stock stage publishes the stock check, built from the order's
      items, unless building or publishing it throws. */
  lemma StockStagePublishes(orders: map<int, Order>, order: Order, env: Collaborators)
    ensures var stage := StockStage(orders, order, env);
      && stage.requests[..1] == [CustomerCheck(CustomerCheckRequest(order.customerId))]
      && (|stage.requests| == 1 || |stage.requests| == 2)
      && (|stage.requests| == 2 ==>
            && order.orderItems.Some?
            && stage.requests[1] == StockCheck(BuildStockCheckRequest(env.requestId, order).value))
  {
  }

  /** The stock stage returns Ok exactly when the stock is accepted and the
      write goes through; it returns the stored order. */
  lemma StockStageOk(orders: map<int, Order>, order: Order, env: Collaborators)
    ensures var stage := StockStage(orders, order, env);
      && (stage.outcome.Returns? && stage.outcome.result.OkObject? <==>
            && order.orderItems.Some? && env.stockPublishFault.None?
            && env.stockWait.Returned? && StockAccepted(env.stockWait.value)
            && env.saveFault.None? && order.orderId !in orders
            && env.commitFault.None? && env.reloadFault.None?)
      && (stage.outcome.Returns? && stage.outcome.result.OkObject? ==>
            stage.outcome.result == OkObject(Some(LinkChildren(Validate(order, env.now)))))
  {
  }

  /** The call answers with one of five results: Ok, one of the two
      rejections naming the order, 504 or 500. */
  lemma PlaceOrderOutcomes(orders: map<int, Order>, order: Order, env: Collaborators)
    ensures var run := PlaceOrderSpec(orders, order, env);
      run.outcome.Returns? ==>
        || run.outcome.result.OkObject?
        || run.outcome.result == BadRequestObject(UnverifiedClientMessage(order.orderId))
        || run.outcome.result == BadRequestObject(InsufficientStockMessage(order.orderId))
        || (run.outcome.result.StatusCodeObject? && run.outcome.result.statusCode == 504
            && run.outcome.result.message == TimeoutResultMessage)
        || (run.outcome.result.StatusCodeObject? && run.outcome.result.statusCode == 500
            && run.outcome.result.message == ErrorResultMessage)
  {
    TryEndsRolledBack(orders, order, env);
    TryEndsCommitted(orders, order, env);
    TryEndsOpen(orders, order, env);
  }

  /** The transaction never stays open, and rollback is called at most twice. */
  lemma TransactionClosed(orders: map<int, Order>, order: Order, env: Collaborators)
    ensures var run := PlaceOrderSpec(orders, order, env);
      run.tx != Open && run.rollbackCalls <= 2
  {
    TryEndsRolledBack(orders, order, env);
    TryEndsCommitted(orders, order, env);
    TryEndsOpen(orders, order, env);
  }

  /** An exception leaves the action only when the `try` raised one and the
      catch block's own rollback throws; it is that rollback's exception.
      So with no rollback failing first, the call always answers. */
  lemma EscapesOnlyFromCatchRollback(orders: map<int, Order>, order: Order, env: Collaborators)
    ensures var t, run := TryBlock(orders, order, env), PlaceOrderSpec(orders, order, env);
      && (run.outcome.Raises? <==> t.outcome.Raises? && CatchRollbackFault(t, env).Some?)
      && (run.outcome.Raises? ==> run.outcome.exception == CatchRollbackFault(t, env).value)
    ensures env.firstRollbackFault.None? ==> PlaceOrderSpec(orders, order, env).outcome.Returns?
  {
    TryEndsRolledBack(orders, order, env);
    TryEndsCommitted(orders, order, env);
    TryEndsOpen(orders, order, env);
  }

  /** Commit happens on the success path, which calls no rollback; every
      other end calls it. */
  lemma CommitOnlyOnSuccess(orders: map<int, Order>, order: Order, env: Collaborators)
    ensures var run := PlaceOrderSpec(orders, order, env);
      && (IsOk(run) ==> run.tx == Committed && run.rollbackCalls == 0)
      && (run.tx != Committed ==> !IsOk(run))
      && (!IsOk(run) ==> run.rollbackCalls >= 1)
  {
    TryEndsRolledBack(orders, order, env);
    TryEndsCommitted(orders, order, env);
    TryEndsOpen(orders, order, env);
  }

  /** The one committed run that is not Ok is an exception thrown by the
      reload after the commit: its catch block then meets a committed
      transaction, and answers for that exception unless its rollback throws. */
  lemma CommittedButNotOk(orders: map<int, Order>, order: Order, env: Collaborators)
    ensures var run := PlaceOrderSpec(orders, order, env);
      run.tx == Committed && !IsOk(run) ==>
        && env.reloadFault.Some? && run.rollbackCalls == 1
        && (|| run.outcome == Returns(CaughtResult(env.reloadFault.value))
            || (env.firstRollbackFault.Some? && run.outcome == Raises(env.firstRollbackFault.value)))
  {
    TryEndsRolledBack(orders, order, env);
    TryEndsCommitted(orders, order, env);
    TryEndsOpen(orders, order, env);
  }

  /** The table is untouched unless the transaction committed, whether it was
      rolled back or discarded on disposal. */
  lemma StoreUntouchedUnlessCommitted(orders: map<int, Order>, order: Order, env: Collaborators)
    ensures var run := PlaceOrderSpec(orders, order, env);
      run.tx != Committed ==> run.orders == orders
  {
    TryEndsRolledBack(orders, order, env);
    TryEndsCommitted(orders, order, env);
    TryEndsOpen(orders, order, env);
  }

  /** A commit adds exactly the validated order, its children linked, under
      a key that was free. */
  lemma CommitWritesOrder(orders: map<int, Order>, order: Order, env: Collaborators)
    ensures var run := PlaceOrderSpec(orders, order, env);
      run.tx == Committed ==>
        && order.orderId !in orders
        && run.orders == orders[order.orderId := LinkChildren(Validate(order, env.now))]
  {
    TryEndsRolledBack(orders, order, env);
    TryEndsCommitted(orders, order, env);
    TryEndsOpen(orders, order, env);
  }

  /** At most one customer check and one stock check are published, the
      customer check first, and the stock check only for a valid customer. */
  lemma PublishesInOrder(orders: map<int, Order>, order: Order, env: Collaborators)
    ensures var run := PlaceOrderSpec(orders, order, env);
      && |run.requests| <= 2
      && (|run.requests| >= 1 ==> run.requests[0] == CustomerCheck(CustomerCheckRequest(order.customerId)))
      && (|run.requests| == 0 <==> env.customerPublishFault.Some?)
      && (|run.requests| == 2 ==>
            && env.customerWait.Returned? && CustomerAccepted(env.customerWait.value)
            && run.requests[1] == StockCheck(BuildStockCheckRequest(env.requestId, order).value)
            && order.orderItems.Some?)
  {
    SpecKeepsRequests(orders, order, env);
    var requests := TryBlock(orders, order, env).requests;
    if env.customerPublishFault.Some? {
      assert requests == [];
    } else {
      TryPublishes(orders, order, env);
      if env.customerWait.Returned? && CustomerAccepted(env.customerWait.value) {
        assert TryBlock(orders, order, env) == StockStage(orders, order, env);
        StockStagePublishes(orders, order, env);
      } else {
        assert |requests| == 1;
      }
    }
  }

  /** A null or invalid customer answer: no stock check and the table
      unchanged. The rollback inside the `try` then gives the "unverified
      client" rejection naming the order; if it throws, the catch block
      rolls back again and answers for that exception, or, if that second
      rollback throws too, the exception leaves the action. */
  lemma RejectedCustomer(orders: map<int, Order>, order: Order, env: Collaborators)
    requires env.customerPublishFault.None? && env.customerWait.Returned?
    requires !CustomerAccepted(env.customerWait.value)
    ensures var run := PlaceOrderSpec(orders, order, env);
      && run.requests == [CustomerCheck(CustomerCheckRequest(order.customerId))]
      && run.orders == orders
      && (env.firstRollbackFault.None? ==>
            && run.outcome == Returns(BadRequestObject(UnverifiedClientMessage(order.orderId)))
            && run.tx == RolledBack && run.rollbackCalls == 1)
      && (env.firstRollbackFault.Some? && env.secondRollbackFault.None? ==>
            && run.outcome == Returns(CaughtResult(env.firstRollbackFault.value))
            && run.tx == RolledBack && run.rollbackCalls == 2)
      && (env.firstRollbackFault.Some? && env.secondRollbackFault.Some? ==>
            && run.outcome == Raises(env.secondRollbackFault.value)
            && run.tx == Discarded && run.rollbackCalls == 2)
  {
  }

  /** A null or negative stock answer after a valid customer: the table
      unchanged, and the "insufficient stock" rejection naming the order
      unless the rollback before it throws, handled as for the customer. */
  lemma RejectedStock(orders: map<int, Order>, order: Order, env: Collaborators)
    requires env.customerPublishFault.None? && env.customerWait.Returned?
    requires CustomerAccepted(env.customerWait.value)
    requires order.orderItems.Some? && env.stockPublishFault.None? && env.stockWait.Returned?
    requires !StockAccepted(env.stockWait.value)
    ensures var run := PlaceOrderSpec(orders, order, env);
      && |run.requests| == 2
      && run.orders == orders
      && (env.firstRollbackFault.None? ==>
            && run.outcome == Returns(BadRequestObject(InsufficientStockMessage(order.orderId)))
            && run.tx == RolledBack && run.rollbackCalls == 1)
      && (env.firstRollbackFault.Some? && env.secondRollbackFault.None? ==>
            && run.outcome == Returns(CaughtResult(env.firstRollbackFault.value))
            && run.tx == RolledBack && run.rollbackCalls == 2)
      && (env.firstRollbackFault.Some? && env.secondRollbackFault.Some? ==>
            && run.outcome == Raises(env.secondRollbackFault.value)
            && run.tx == Discarded && run.rollbackCalls == 2)
  {
  }

  /** Ok exactly when both answers accept, every step succeeds and the key is
      free; the body is the reloaded order: validated, stamped, and with its
      line items and payments pointing back at it. */
  lemma SuccessPath(orders: map<int, Order>, order: Order, env: Collaborators)
    ensures var run := PlaceOrderSpec(orders, order, env);
      IsOk(run) <==>
        && env.customerPublishFault.None?
        && env.customerWait.Returned? && CustomerAccepted(env.customerWait.value)
        && order.orderItems.Some? && env.stockPublishFault.None?
        && env.stockWait.Returned? && StockAccepted(env.stockWait.value)
        && env.saveFault.None? && order.orderId !in orders
        && env.commitFault.None? && env.reloadFault.None?
    ensures var run := PlaceOrderSpec(orders, order, env);
      IsOk(run) ==>
        && run.outcome.result == OkObject(Some(LinkChildren(Validate(order, env.now))))
        && run.outcome.result.value.value.status == ValidatedStatus
        && run.outcome.result.value.value.date == env.now
        && ChildrenLinked(run.outcome.result.value.value)
  {
    var t := TryBlock(orders, order, env);
    TryEndsOpen(orders, order, env);
    assert IsOk(PlaceOrderSpec(orders, order, env)) <==> t.outcome.Returns? && t.outcome.result.OkObject?;
    if env.customerPublishFault.None? && env.customerWait.Returned? && CustomerAccepted(env.customerWait.value) {
      assert t == StockStage(orders, order, env);
      StockStageOk(orders, order, env);
    }
  }

  /** Where the exception the `try` raises comes from: a collaborator's
      fault or failed wait, the null item collection, or the duplicate key. */
  lemma RaisedByCollaborator(orders: map<int, Order>, order: Order, env: Collaborators)
    ensures var t := TryBlock(orders, order, env);
      t.outcome.Raises? ==>
        var e := t.outcome.exception;
        || env.customerPublishFault == Some(e)
        || env.customerWait == Threw(e)
        || env.stockPublishFault == Some(e)
        || (e == ArgumentNullException(NullSourceMessage) && order.orderItems.None?)
        || env.stockWait == Threw(e)
        || env.saveFault == Some(e)
        || (e == OtherException(DuplicateKeyMessage) && order.orderId in orders)
        || env.commitFault == Some(e)
        || env.reloadFault == Some(e)
        || env.firstRollbackFault == Some(e)
  {
  }

  /** A 504 is answered exactly when the `try` raises a `TimeoutException`
      and the catch block's rollback does not throw; it carries that
      exception's message. */
  lemma TimeoutGives504(orders: map<int, Order>, order: Order, env: Collaborators)
    ensures var t, run := TryBlock(orders, order, env), PlaceOrderSpec(orders, order, env);
      && (run.outcome.Returns? && run.outcome.result.StatusCodeObject? && run.outcome.result.statusCode == 504
          <==> t.outcome.Raises? && t.outcome.exception.TimeoutException? && CatchRollbackFault(t, env).None?)
      && (run.outcome.Returns? && run.outcome.result.StatusCodeObject? && run.outcome.result.statusCode == 504 ==>
            run.outcome.result == StatusCodeObject(504, TimeoutResultMessage, t.outcome.exception.message))
  {
    TryEndsRolledBack(orders, order, env);
    TryEndsCommitted(orders, order, env);
    TryEndsOpen(orders, order, env);
  }

  /** A wait that times out is such an exception: 504 after rollback, with
      the table unchanged. */
  lemma WaitTimeoutGives504(orders: map<int, Order>, order: Order, env: Collaborators)
    requires env.firstRollbackFault.None?
    ensures var run := PlaceOrderSpec(orders, order, env);
      && (env.customerPublishFault.None? && env.customerWait.Threw?
          && env.customerWait.exception.TimeoutException? ==>
            && run.outcome == Returns(StatusCodeObject(504, TimeoutResultMessage, env.customerWait.exception.message))
            && run.tx == RolledBack && run.orders == orders && |run.requests| == 1)
      && (|run.requests| == 2 && env.stockWait.Threw? && env.stockWait.exception.TimeoutException? ==>
            && run.outcome == Returns(StatusCodeObject(504, TimeoutResultMessage, env.stockWait.exception.message))
            && run.tx == RolledBack && run.orders == orders)
  {
  }

  /** A 500 is answered exactly when the `try` raises any other exception and
      the catch block's rollback does not throw; it carries that exception's
      message. */
  lemma OtherExceptionGives500(orders: map<int, Order>, order: Order, env: Collaborators)
    ensures var t, run := TryBlock(orders, order, env), PlaceOrderSpec(orders, order, env);
      && (run.outcome.Returns? && run.outcome.result.StatusCodeObject? && run.outcome.result.statusCode == 500
          <==> t.outcome.Raises? && !t.outcome.exception.TimeoutException? && CatchRollbackFault(t, env).None?)
      && (run.outcome.Returns? && run.outcome.result.StatusCodeObject? && run.outcome.result.statusCode == 500 ==>
            run.outcome.result == StatusCodeObject(500, ErrorResultMessage, t.outcome.exception.message))
  {
    TryEndsRolledBack(orders, order, env);
    TryEndsCommitted(orders, order, env);
    TryEndsOpen(orders, order, env);
  }

  /** A wait that fails otherwise is such an exception: 500 after rollback,
      with the table unchanged. */
  lemma WaitFailureGives500(orders: map<int, Order>, order: Order, env: Collaborators)
    requires env.firstRollbackFault.None?
    ensures var run := PlaceOrderSpec(orders, order, env);
      && (env.customerPublishFault.None? && env.customerWait.Threw?
          && !env.customerWait.exception.TimeoutException? ==>
            && run.outcome == Returns(StatusCodeObject(500, ErrorResultMessage, env.customerWait.exception.message))
            && run.tx == RolledBack && run.orders == orders)
      && (|run.requests| == 2 && env.stockWait.Threw? && !env.stockWait.exception.TimeoutException? ==>
            && run.outcome == Returns(StatusCodeObject(500, ErrorResultMessage, env.stockWait.exception.message))
            && run.tx == RolledBack && run.orders == orders)
  {
  }

  /** The rejection message names the order: two orders with different ids
      never get the same message. */
  lemma RejectionNamesOrder(a: int, b: int)
    requires UnverifiedClientMessage(a) == UnverifiedClientMessage(b)
          || InsufficientStockMessage(a) == InsufficientStockMessage(b)
    ensures a == b
  {
    var sa, sb := IntToString(a), IntToString(b);
    var suffix := if UnverifiedClientMessage(a) == UnverifiedClientMessage(b)
                  then UnverifiedClientSuffix else InsufficientStockSuffix;
    var ma, mb := "Order " + sa + suffix, "Order " + sb + suffix;
    assert ma == mb;
    assert |sa| == |sb|;
    assert sa == ma[6..6 + |sa|];
    assert sb == mb[6..6 + |sb|];
    IntToStringInjective(a, b);
  }

  class OrdersController {
    /** The Orders table, keyed by OrderId, as seen through the context. */
    var orders: map<int, Order>
    const broker: Broker
    const customerPublisher: CustomerCheckPublisher
    const stockPublisher: StockCheckPublisher

    /** Both publishers talk to the one broker; the table holds its rows as
        the database keeps them. */
    ghost predicate Valid()
      reads this
    {
      && customerPublisher.broker == broker && stockPublisher.broker == broker
      && Stored(orders)
    }

    constructor (orders: map<int, Order>, broker: Broker,
                 customerPublisher: CustomerCheckPublisher, stockPublisher: StockCheckPublisher)
      requires customerPublisher.broker == broker && stockPublisher.broker == broker
      requires Stored(orders)
      ensures Valid() && this.orders == orders
      ensures this.broker == broker && this.customerPublisher == customerPublisher
      ensures this.stockPublisher == stockPublisher
    {
      this.orders := orders;
      this.broker := broker;
      this.customerPublisher := customerPublisher;
      this.stockPublisher := stockPublisher;
    }

    /** `RollbackAsync`: it throws `fault` when there is one, leaving the
        transaction as it was; otherwise an open transaction is rolled back
        and its writes discarded, and a committed one is left as it is. */
    method Rollback(tx: TxState, snapshot: map<int, Order>, fault: Option<Exception>)
      returns (after: TxState, thrown: Option<Exception>)
      modifies this
      ensures thrown == fault
      ensures fault.None? && tx == Open ==> after == RolledBack && orders == snapshot
      ensures fault.Some? || tx != Open ==> after == tx && orders == old(orders)
    {
      after, thrown := tx, fault;
      if fault.None? && tx == Open {
        orders := snapshot;
        after := RolledBack;
      }
    }

    /** The `try` block's save, commit and reload. */
    method Write(validated: Order, env: Collaborators, ghost asked: seq<CheckRequest>)
      returns (outcome: ActionEnd, tx: TxState)
      requires Valid()
      modifies this
      ensures Valid()
      ensures PlaceOrderRun(outcome, tx, 0, orders, asked) == WriteStage(old(orders), validated, env, asked)
    {
      tx := Open;
      var thrown := SaveFault(orders, validated, env.saveFault);
      if thrown.Some? {
        return Raises(thrown.value), tx;
      }
      orders := orders[validated.orderId := LinkChildren(validated)];
      if env.commitFault.Some? {
        return Raises(env.commitFault.value), tx;
      }
      tx := Committed;
      if env.reloadFault.Some? {
        return Raises(env.reloadFault.value), tx;
      }
      outcome := Returns(OkObject(FindOrder(orders, validated.orderId)));
    }

    /** The `try` block once the customer was accepted. */
    method CheckStockAndWrite(order: Order, env: Collaborators)
      returns (outcome: ActionEnd, tx: TxState, rollbackCalls: nat)
      requires Valid() && stockPublisher.Valid() && env.requestId !in stockPublisher.issued
      modifies this, broker, stockPublisher
      ensures Valid() && stockPublisher.Valid()
      ensures var run := StockStage(old(orders), order, env);
        && outcome == run.outcome && tx == run.tx && rollbackCalls == run.rollbackCalls
        && orders == run.orders
        && broker.published == old(broker.published)
             + (if |run.requests| == 2 then [Envelope(run.requests[1])] else [])
        && broker.declared == old(broker.declared)
        && stockPublisher.messagesPublished == old(stockPublisher.messagesPublished)
        && stockPublisher.issued == old(stockPublisher.issued) + {env.requestId}
        && stockPublisher.sent == old(stockPublisher.sent) + StockSent(run.requests)
    {
      var snapshot := orders;
      tx, rollbackCalls := Open, 0;
      var customerCheck := CustomerCheckRequest(order.customerId);
      var asked := [CustomerCheck(customerCheck)];
      var thrown := stockPublisher.PublishStockCheckRequest(order, env.requestId, env.stockPublishFault);
      if thrown.Some? {
        StockSentOfOne(customerCheck);
        return Raises(thrown.value), tx, rollbackCalls;
      }
      var stockCheck := BuildStockCheckRequest(env.requestId, order).value;
      asked := asked + [StockCheck(stockCheck)];
      StockSentOfTwo(customerCheck, stockCheck);
      match env.stockWait
      case Threw(e) =>
        outcome := Raises(e);
      case Returned(stockResponse) =>
        if !StockAccepted(stockResponse) {
          tx, thrown := Rollback(tx, snapshot, env.firstRollbackFault);
          rollbackCalls := 1;
          outcome := if thrown.Some? then Raises(thrown.value)
                     else Returns(BadRequestObject(InsufficientStockMessage(order.orderId)));
        } else {
          outcome, tx := Write(Validate(order, env.now), env, asked);
        }
    }

    /** The `try` block after the customer check went out: await the
        customer service's answer, then reject or go on to the stock check. */
    method AwaitCustomer(order: Order, env: Collaborators)
      returns (outcome: ActionEnd, tx: TxState, rollbackCalls: nat)
      requires Valid() && stockPublisher.Valid() && env.requestId !in stockPublisher.issued
      requires env.customerPublishFault.None?
      modifies this, broker, stockPublisher
      ensures Valid() && stockPublisher.Valid()
      ensures var run := TryBlock(old(orders), order, env);
        && outcome == run.outcome && tx == run.tx && rollbackCalls == run.rollbackCalls
        && orders == run.orders
        && broker.published == old(broker.published)
             + (if |run.requests| == 2 then [Envelope(run.requests[1])] else [])
        && broker.declared == old(broker.declared)
        && stockPublisher.messagesPublished == old(stockPublisher.messagesPublished)
        && stockPublisher.issued == old(stockPublisher.issued) + StockIdIssued(env)
        && stockPublisher.sent == old(stockPublisher.sent) + StockSent(run.requests)
    {
      var snapshot := orders;
      tx, rollbackCalls := Open, 0;
      match env.customerWait
      case Threw(e) =>
        outcome := Raises(e);
      case Returned(clientResponse) =>
        if !CustomerAccepted(clientResponse) {
          var thrown;
          tx, thrown := Rollback(tx, snapshot, env.firstRollbackFault);
          rollbackCalls := 1;
          outcome := if thrown.Some? then Raises(thrown.value)
                     else Returns(BadRequestObject(UnverifiedClientMessage(order.orderId)));
        } else {
          assert TryBlock(snapshot, order, env) == StockStage(snapshot, order, env);
          outcome, tx, rollbackCalls := CheckStockAndWrite(order, env);
        }
    }

    /** The `try` block: it returns a result or raises an exception. */
    method Try(order: Order, env: Collaborators)
      returns (outcome: ActionEnd, tx: TxState, rollbackCalls: nat)
      requires Valid() && stockPublisher.Valid() && env.requestId !in stockPublisher.issued
      modifies this, broker, customerPublisher, stockPublisher
      ensures Valid() && stockPublisher.Valid()
      ensures var run := TryBlock(old(orders), order, env);
        && outcome == run.outcome && tx == run.tx && rollbackCalls == run.rollbackCalls
        && orders == run.orders
        && broker.published == old(broker.published) + Envelopes(run.requests)
        && broker.declared == old(broker.declared)
        && customerPublisher.messagesPublished
             == old(customerPublisher.messagesPublished) + (if |run.requests| > 0 then 1 else 0)
        && stockPublisher.messagesPublished == old(stockPublisher.messagesPublished)
        && stockPublisher.issued == old(stockPublisher.issued) + StockIdIssued(env)
        && stockPublisher.sent == old(stockPublisher.sent) + StockSent(run.requests)
    {
      var customerCheck := CustomerCheck(CustomerCheckRequest(order.customerId));
      var thrown := customerPublisher.PublishCustomerCheckRequest(order.customerId, env.customerPublishFault);
      if thrown.Some? {
        return Raises(thrown.value), Open, 0;
      }
      EnvelopesOfOne(customerCheck);
      ghost var requests := TryBlock(orders, order, env).requests;
      TryPublishes(orders, order, env);
      outcome, tx, rollbackCalls := AwaitCustomer(order, env);
      if |requests| == 2 {
        assert requests == [customerCheck, requests[1]];
        EnvelopesOfTwo(customerCheck, requests[1]);
        assert broker.published
            == old(broker.published) + [Envelope(customerCheck)] + [Envelope(requests[1])];
        assert [Envelope(customerCheck)] + [Envelope(requests[1])] == Envelopes(requests);
      } else {
        assert requests == [customerCheck];
      }
    }

    method PlaceOrder(order: Order, env: Collaborators)
      returns (outcome: ActionEnd, tx: TxState, rollbackCalls: nat)
      requires Valid() && stockPublisher.Valid() && env.requestId !in stockPublisher.issued
      modifies this, broker, customerPublisher, stockPublisher
      ensures Valid() && stockPublisher.Valid()
      ensures var run := PlaceOrderSpec(old(orders), order, env);
        && outcome == run.outcome && tx == run.tx && rollbackCalls == run.rollbackCalls
        && orders == run.orders
        && broker.published == old(broker.published) + Envelopes(run.requests)
        && broker.declared == old(broker.declared)
        && customerPublisher.messagesPublished
             == old(customerPublisher.messagesPublished) + (if |run.requests| > 0 then 1 else 0)
        && stockPublisher.messagesPublished == old(stockPublisher.messagesPublished)
        && stockPublisher.issued == old(stockPublisher.issued) + StockIdIssued(env)
        && stockPublisher.sent == old(stockPublisher.sent) + StockSent(run.requests)
    {
      var snapshot := orders;
      outcome, tx, rollbackCalls := Try(order, env);
      if outcome.Raises? {
        // `catch (TimeoutException)` and `catch (Exception)`: roll back, then answer
        var caught := outcome.exception;
        var fault := if rollbackCalls == 0 then env.firstRollbackFault else env.secondRollbackFault;
        var thrown;
        tx, thrown := Rollback(tx, snapshot, fault);
        rollbackCalls := rollbackCalls + 1;
        outcome := if thrown.Some? then Raises(thrown.value) else Returns(CaughtResult(caught));
      }
      // the `using` declaration disposes the transaction
      if tx == Open {
        orders, tx := snapshot, Discarded;
      }
    }

    /** Two calls on the same controller, each with its own fresh request id:
        the second sees the table the first left, and each publishes its own
        stock check under its own id. */
    method PlaceTwoOrders(first: Order, firstEnv: Collaborators, second: Order, secondEnv: Collaborators)
      returns (firstEnd: ActionEnd, secondEnd: ActionEnd)
      requires Valid() && stockPublisher.Valid()
      requires firstEnv.requestId !in stockPublisher.issued && secondEnv.requestId !in stockPublisher.issued
      requires firstEnv.requestId != secondEnv.requestId
      modifies this, broker, customerPublisher, stockPublisher
      ensures Valid() && stockPublisher.Valid()
      ensures var run := PlaceOrderSpec(old(orders), first, firstEnv);
        var next := PlaceOrderSpec(run.orders, second, secondEnv);
        && firstEnd == run.outcome && secondEnd == next.outcome && orders == next.orders
        && broker.published == old(broker.published) + Envelopes(run.requests) + Envelopes(next.requests)
        && stockPublisher.sent == old(stockPublisher.sent) + StockSent(run.requests) + StockSent(next.requests)
    {
      var tx, calls;
      firstEnd, tx, calls := PlaceOrder(first, firstEnv);
      secondEnd, tx, calls := PlaceOrder(second, secondEnv);
    }

    /** `GetOrder`: the order with that id, or NotFound. */
    method GetOrder(id: int) returns (result: ActionResult)
      requires Valid()
      ensures result.OkObject? ==>
                && result.value.Some? && result.value.value.orderId == id
                && ChildrenLinked(result.value.value)
      ensures id in orders ==> result == OkObject(Some(orders[id]))
      ensures id !in orders ==> result == NotFound
    {
      var found := FindOrder(orders, id);
      if found.None? {
        return NotFound;
      }
      result := OkObject(found);
    }

    /** `PutOrder`'s guards and update: BadRequest on an id mismatch,
        NotFound for an absent id, else the stored order is replaced by the
        given one (scalars and both collections, the children linked to it
        on saving) and returned as reloaded. */
    method PutOrder(id: int, order: Order) returns (result: ActionResult)
      requires Valid()
      modifies this
      ensures Valid()
      ensures id != order.orderId ==> result == BadRequestEmpty && orders == old(orders)
      ensures id == order.orderId && id !in old(orders) ==> result == NotFound && orders == old(orders)
      ensures id == order.orderId && id in old(orders) ==>
                && result == OkObject(Some(LinkChildren(order)))
                && orders == old(orders)[id := LinkChildren(order)]
    {
      if id != order.orderId {
        return BadRequestEmpty;
      }
      var existing := FindOrder(orders, id);
      if existing.None? {
        return NotFound;
      }
      orders := orders[id := LinkChildren(order)];
      result := OkObject(FindOrder(orders, id));
    }

    /** `DeleteOrder`: NotFound and no change for an absent id; otherwise
        exactly that order is removed and NoContent returned. */
    method DeleteOrder(id: int) returns (result: ActionResult)
      requires Valid()
      modifies this
      ensures Valid()
      ensures id !in old(orders) ==> result == NotFound && orders == old(orders)
      ensures id in old(orders) ==> result == NoContent && orders == old(orders) - {id}
    {
      if id !in orders {
        return NotFound;
      }
      orders := orders - {id};
      result := NoContent;
    }
  }
}
