/**
 * `StockRequestPublisher`, the older per-item stock check: for each line item
 * it publishes one message on "stock_check_queue" and starts one HTTP query
 * of the product API, then answers whether every query said "available".
 * The HTTP client's answers are inputs, one per item, in item order.
 */
module StockRequests {
  import opened Wrappers
  import opened Platform
  import opened Models

  const StockCheckQueue := "stock_check_queue"

  const StockUrlPrefix := "http://localhost:5003/api/products/"

  const StockUrlQuery := "/stock?quantity="

  /** The product API's stock answer (the class's own `StockCheckResponse`). */
  datatype ProductStock = ProductStock(productId: int, isAvailable: bool)

  /** What one `GetAsync` yields: the status code and the body as decoded
      (`None` for the JSON literal null), or the exception the client throws. */
  datatype HttpOutcome = HttpResponse(statusCode: int, body: Option<ProductStock>) | HttpFailure(exception: Exception)

  /** `HttpResponseMessage.IsSuccessStatusCode`. */
  predicate IsSuccessStatusCode(code: int) {
    200 <= code <= 299
  }

  /** One product API query: the product and the quantity asked for. */
  datatype StockQuery = StockQuery(productId: int, quantity: int)

  /** The URL `GetAsync` is called with for a query. */
  function StockUrl(q: StockQuery): (url: string)
    ensures |url| > |StockUrlPrefix| && url[..|StockUrlPrefix|] == StockUrlPrefix
  {
    StockUrlPrefix + (IntToString(q.productId) + StockUrlQuery + IntToString(q.quantity))
  }

  /** Each character of a formatted integer is a digit or the minus sign. */
  lemma IntToStringChars(i: int)
    ensures NumberChars(IntToString(i))
  {
    if i < 0 {
      var digits := NatToString(-i);
      assert forall k :: 1 <= k < |IntToString(i)| ==> IntToString(i)[k] == digits[k - 1];
    }
  }

  predicate NumberChars(s: string) {
    forall k :: 0 <= k < |s| ==> IsDigit(s[k]) || s[k] == '-'
  }

  /** A number followed by a separator that starts with neither a digit
      nor a minus sign is not a proper prefix of another number. */
  lemma NumberNotShorter(x: string, y: string, separator: string, u: string, v: string)
    requires NumberChars(y)
    requires |separator| > 0 && !IsDigit(separator[0]) && separator[0] != '-'
    requires x + separator + u == y + separator + v
    ensures |y| <= |x|
  {
    assert (x + separator + u)[|x|] == separator[0];
  }

  /** So two such numbers can be told apart from what follows them. */
  lemma SplitAtSeparator(x: string, y: string, separator: string, u: string, v: string)
    requires NumberChars(x) && NumberChars(y)
    requires |separator| > 0 && !IsDigit(separator[0]) && separator[0] != '-'
    requires x + separator + u == y + separator + v
    ensures x == y && u == v
  {
    NumberNotShorter(x, y, separator, u, v);
    NumberNotShorter(y, x, separator, v, u);
    var l, r := x + separator + u, y + separator + v;
    assert x == l[..|x|] && y == r[..|y|];
    assert u == l[|x| + |separator|..] && v == r[|y| + |separator|..];
  }

  lemma DropPrefix(prefix: string, r1: string, r2: string)
    requires prefix + r1 == prefix + r2
    ensures r1 == r2
  {
    assert r1 == (prefix + r1)[|prefix|..];
    assert r2 == (prefix + r2)[|prefix|..];
  }

  /** Different queries ask for different URLs: the URL names the product
      and the quantity. */
  lemma StockUrlInjective(a: StockQuery, b: StockQuery)
    requires StockUrl(a) == StockUrl(b)
    ensures a == b
  {
    var pa, pb := IntToString(a.productId), IntToString(b.productId);
    var qa, qb := IntToString(a.quantity), IntToString(b.quantity);
    DropPrefix(StockUrlPrefix, pa + StockUrlQuery + qa, pb + StockUrlQuery + qb);
    IntToStringChars(a.productId);
    IntToStringChars(b.productId);
    SplitAtSeparator(pa, pb, StockUrlQuery, qa, qb);
    IntToStringInjective(a.productId, b.productId);
    IntToStringInjective(a.quantity, b.quantity);
  }

  /** The per-item message: the class's own `StockCheckRequest` {ProductId, Quantity}. */
  function ItemStockEnvelope(item: OrderItem): Message {
    Message("", StockCheckQueue, [item.productId, item.quantity])
  }

  /** How the task of one `CheckStockAvailability` call ends. An exception
      that escapes the async method faults the task, except a
      `TaskCanceledException` (what `HttpClient` throws on a timeout), which
      cancels it. */
  datatype CheckTask = RanToCompletion(result: bool) | Faulted(exception: Exception) | Canceled

  /** The client throws something other than a cancellation. */
  predicate FaultsCheck(http: HttpOutcome) {
    http.HttpFailure? && !http.exception.TaskCanceledException?
  }

  /** The client throws a cancellation. */
  predicate CancelsCheck(http: HttpOutcome) {
    http.HttpFailure? && http.exception.TaskCanceledException?
  }

  /** `CheckStockAvailability`: false for a non-success status, the body's
      `IsAvailable` on success, false when that body is null. */
  function CheckStockAvailability(http: HttpOutcome): (r: CheckTask)
    ensures r.Faulted? <==> FaultsCheck(http)
    ensures r.Faulted? ==> r.exception == http.exception
    ensures r.Canceled? <==> CancelsCheck(http)
    ensures r == RanToCompletion(true) <==>
              && http.HttpResponse?
              && IsSuccessStatusCode(http.statusCode)
              && http.body.Some?
              && http.body.value.isAvailable
  {
    match http
    case HttpFailure(e) => if e.TaskCanceledException? then Canceled else Faulted(e)
    case HttpResponse(code, body) =>
      if IsSuccessStatusCode(code) then
        RanToCompletion(match body case Some(stock) => stock.isAvailable case None => false)
      else
        RanToCompletion(false)
  }

  /** The exception of the first faulted task, if any. */
  function FirstFault(tasks: seq<CheckTask>): (r: Option<Exception>)
    ensures r.None? <==> forall i :: 0 <= i < |tasks| ==> !tasks[i].Faulted?
    ensures r.Some? ==>
              exists k :: 0 <= k < |tasks| && tasks[k] == Faulted(r.value)
                          && forall i :: 0 <= i < k ==> !tasks[i].Faulted?
  {
    if tasks == [] then None
    else if tasks[0].Faulted? then Some(tasks[0].exception)
    else
      var r := FirstFault(tasks[1..]);
      assert forall i :: 1 <= i < |tasks| ==> tasks[i] == tasks[1..][i - 1];
      r
  }

  /** The results of tasks that all ran to completion. */
  function Results(tasks: seq<CheckTask>): (r: seq<bool>)
    requires forall i :: 0 <= i < |tasks| ==> tasks[i].RanToCompletion?
    ensures |r| == |tasks| && forall i :: 0 <= i < |tasks| ==> r[i] == tasks[i].result
  {
    if tasks == [] then [] else [tasks[0].result] + Results(tasks[1..])
  }

  /** `await Task.WhenAll(...)`: every result in order when all ran to
      completion; otherwise the exception of the first faulted task, even
      after a canceled one; and when none faulted but one was canceled, a
      fresh `TaskCanceledException`. */
  function WhenAll(tasks: seq<CheckTask>): (r: Result<seq<bool>, Exception>)
    ensures r.Success? <==> forall i :: 0 <= i < |tasks| ==> tasks[i].RanToCompletion?
    ensures r.Success? ==>
              |r.value| == |tasks| && forall i :: 0 <= i < |tasks| ==> r.value[i] == tasks[i].result
    ensures (exists i :: 0 <= i < |tasks| && tasks[i].Faulted?) ==>
              exists k :: 0 <= k < |tasks| && tasks[k] == Faulted(r.error)
                          && forall i :: 0 <= i < k ==> !tasks[i].Faulted?
    ensures (forall i :: 0 <= i < |tasks| ==> !tasks[i].Faulted?)
            && (exists i :: 0 <= i < |tasks| && tasks[i].Canceled?) ==>
              r == Failure(TaskCanceledException(CanceledMessage))
  {
    match FirstFault(tasks)
    case Some(e) => Failure(e)
    case None =>
      if exists i :: 0 <= i < |tasks| && tasks[i].Canceled? then Failure(TaskCanceledException(CanceledMessage))
      else Success(Results(tasks))
  }

  /** `Enumerable.All(result => result)`: true iff every element is, so true
      for none. */
  function All(values: seq<bool>): (r: bool)
    ensures r <==> forall i :: 0 <= i < |values| ==> values[i]
  {
    values == [] || (values[0] && All(values[1..]))
  }

  /** The index of the first `BasicPublish` that throws, or the count when none does. */
  function FirstPublishFault(faults: seq<Option<Exception>>): (k: nat)
    ensures k <= |faults|
    ensures forall i :: 0 <= i < k ==> faults[i].None?
    ensures k < |faults| ==> faults[k].Some?
  {
    if faults == [] || faults[0].Some? then 0 else 1 + FirstPublishFault(faults[1..])
  }

  /** The tasks the loop starts, one per HTTP answer. */
  function Checks(http: seq<HttpOutcome>): (r: seq<CheckTask>)
    ensures |r| == |http| && forall i :: 0 <= i < |http| ==> r[i] == CheckStockAvailability(http[i])
  {
    seq(|http|, i requires 0 <= i < |http| => CheckStockAvailability(http[i]))
  }

  /** The messages the loop publishes for the given items, in item order. */
  function ItemEnvelopes(items: seq<OrderItem>): (r: seq<Message>)
    ensures |r| == |items|
  {
    if items == [] then [] else ItemEnvelopes(items[..|items| - 1]) + [ItemStockEnvelope(items[|items| - 1])]
  }

  /** The product API queries the loop issues for the given items, in item order. */
  function StockQueries(items: seq<OrderItem>): (r: seq<StockQuery>)
    ensures |r| == |items|
  {
    if items == [] then [] else StockQueries(items[..|items| - 1]) + [StockQuery(items[|items| - 1].productId, items[|items| - 1].quantity)]
  }

  /** The loop publishes the i-th item's message i-th. */
  lemma {:induction false} ItemEnvelopesInOrder(items: seq<OrderItem>)
    ensures forall i :: 0 <= i < |items| ==> ItemEnvelopes(items)[i] == ItemStockEnvelope(items[i])
  {
    if items != [] {
      var init := items[..|items| - 1];
      ItemEnvelopesInOrder(init);
      assert forall i :: 0 <= i < |init| ==> items[i] == init[i];
    }
  }

  /** The loop queries the i-th item's product and quantity i-th. */
  lemma {:induction false} StockQueriesInOrder(items: seq<OrderItem>)
    ensures forall i :: 0 <= i < |items| ==>
              StockQueries(items)[i] == StockQuery(items[i].productId, items[i].quantity)
  {
    if items != [] {
      var init := items[..|items| - 1];
      StockQueriesInOrder(init);
      assert forall i :: 0 <= i < |init| ==> items[i] == init[i];
    }
  }

  /** `stockResults.All(result => result)` after `await Task.WhenAll(...)`. */
  function Answer(tasks: seq<CheckTask>): Result<bool, Exception> {
    match WhenAll(tasks)
    case Failure(e) => Failure(e)
    case Success(results) => Success(All(results))
  }

  /** With every query answered, the answer is true iff every query
      succeeded and said "available"; a query that threw makes it an
      exception. */
  lemma AnswerFromResponses(http: seq<HttpOutcome>)
    ensures var outcome := Answer(Checks(http));
      && (outcome.Success? <==> forall i :: 0 <= i < |http| ==> http[i].HttpResponse?)
      && (outcome.Success? ==>
            (outcome.value <==> forall i :: 0 <= i < |http| ==> CheckStockAvailability(http[i]) == RanToCompletion(true)))
  {
    var tasks := Checks(http);
    if Answer(tasks).Success? {
      var results := WhenAll(tasks).value;
      assert forall i :: 0 <= i < |http| ==> results[i] == (CheckStockAvailability(http[i]) == RanToCompletion(true));
    }
  }

  /** A query that throws something other than a cancellation makes the
      answer the exception of the first such query, even after a canceled one. */
  lemma AnswerFromFirstFault(http: seq<HttpOutcome>)
    requires exists i :: 0 <= i < |http| && FaultsCheck(http[i])
    ensures exists k :: 0 <= k < |http| && FaultsCheck(http[k]) && Answer(Checks(http)) == Failure(http[k].exception)
                        && forall i :: 0 <= i < k ==> !FaultsCheck(http[i])
  {
    var tasks := Checks(http);
    var j :| 0 <= j < |http| && FaultsCheck(http[j]);
    assert tasks[j].Faulted?;
    var k :| 0 <= k < |tasks| && tasks[k] == Faulted(WhenAll(tasks).error)
             && forall i :: 0 <= i < k ==> !tasks[i].Faulted?;
    assert FaultsCheck(http[k]);
  }

  /** With no fault but a canceled query, the answer is a fresh
      `TaskCanceledException`. */
  lemma AnswerFromCancellation(http: seq<HttpOutcome>)
    requires forall i :: 0 <= i < |http| ==> !FaultsCheck(http[i])
    requires exists i :: 0 <= i < |http| && CancelsCheck(http[i])
    ensures Answer(Checks(http)) == Failure(TaskCanceledException(CanceledMessage))
  {
    var tasks := Checks(http);
    var j :| 0 <= j < |http| && CancelsCheck(http[j]);
    assert tasks[j].Canceled?;
  }

  /** `PublishStockCheckRequest`: for each item in order, one message and then
      one availability check, until a `BasicPublish` throws, which ends the
      call with its exception. When every publish succeeds, the answer is
      `Answer` of the checks (see `AnswerFromResponses`,
      `AnswerFromFirstFault` and `AnswerFromCancellation`). */
  method PublishStockCheckRequest(orderItems: seq<OrderItem>, publishFaults: seq<Option<Exception>>,
                                  http: seq<HttpOutcome>)
    returns (published: seq<Message>, queried: seq<StockQuery>, outcome: Result<bool, Exception>)
    requires |publishFaults| == |orderItems| && |http| == |orderItems|
    ensures var k := FirstPublishFault(publishFaults);
      && published == ItemEnvelopes(orderItems[..k]) && queried == StockQueries(orderItems[..k])
      && (k < |orderItems| ==> outcome == Failure(publishFaults[k].value))
      && (k == |orderItems| ==> outcome == Answer(Checks(http)))
  {
    published, queried := [], [];
    var checks: seq<CheckTask> := [];
    var n := 0;
    while n < |orderItems|
      invariant 0 <= n <= FirstPublishFault(publishFaults)
      invariant published == ItemEnvelopes(orderItems[..n]) && queried == StockQueries(orderItems[..n])
      invariant checks == Checks(http)[..n]
    {
      var item := orderItems[n];
      if publishFaults[n].Some? {
        return published, queried, Failure(publishFaults[n].value);
      }
      published := published + [ItemStockEnvelope(item)];
      queried := queried + [StockQuery(item.productId, item.quantity)];
      checks := checks + [CheckStockAvailability(http[n])];
      assert orderItems[..n + 1][..n] == orderItems[..n];
      assert checks == Checks(http)[..n + 1];
      assert published == ItemEnvelopes(orderItems[..n + 1]) && queried == StockQueries(orderItems[..n + 1]);
      n := n + 1;
    }
    assert checks == Checks(http);
    outcome := Answer(checks);
  }
}
