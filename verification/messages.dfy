/**
 * The request and response messages exchanged with the customer and stock
 * services, and their wire encoding. The service serialises them as JSON and
 * UTF-8; here a message body is a sequence of integers built by a
 * length-prefixed encoding, and what matters of it is that it decodes back to
 * the request it was built from.
 */
module Messages {
  import opened Wrappers

  datatype StockCheckItem = StockCheckItem(productId: int, quantity: int)

  datatype StockCheckRequest = StockCheckRequest(requestId: string, items: seq<StockCheckItem>)

  datatype StockCheckResponse = StockCheckResponse(isStockAvailable: bool)

  datatype CustomerCheckRequest = CustomerCheckRequest(clientId: int)

  datatype CustomerCheckResponse = CustomerCheckResponse(isCustomerValid: bool)

  /** The code points that a `char` can hold. */
  predicate IsScalarValue(n: int) {
    0 <= n < 0xD800 || 0xE000 <= n < 0x11_0000
  }

  function CharCodes(s: string): (codes: seq<int>)
    ensures |codes| == |s|
    ensures forall i :: 0 <= i < |s| ==> codes[i] == s[i] as int
  {
    if s == [] then [] else [s[0] as int] + CharCodes(s[1..])
  }

  function DecodeChars(codes: seq<int>): Option<string> {
    if codes == [] then Some([])
    else if !IsScalarValue(codes[0]) then None
    else match DecodeChars(codes[1..])
      case None => None
      case Some(rest) => Some([codes[0] as char] + rest)
  }

  lemma {:induction false} CharCodesRoundTrip(s: string)
    ensures DecodeChars(CharCodes(s)) == Some(s)
  {
    if s != [] {
      var codes := CharCodes(s);
      CharCodesRoundTrip(s[1..]);
      assert codes[1..] == CharCodes(s[1..]);
      assert IsScalarValue(codes[0]) && codes[0] as char == s[0];
      assert [s[0]] + s[1..] == s;
    }
  }

  /** Each item as its product id followed by its quantity. */
  function EncodeItems(items: seq<StockCheckItem>): (body: seq<int>)
    ensures |body| == 2 * |items|
  {
    if items == [] then [] else [items[0].productId, items[0].quantity] + EncodeItems(items[1..])
  }

  /** Exactly `count` items, consuming all of `body`. */
  function DecodeItems(body: seq<int>, count: nat): Option<seq<StockCheckItem>> {
    if count == 0 then (if body == [] then Some([]) else None)
    else if |body| < 2 then None
    else match DecodeItems(body[2..], count - 1)
      case None => None
      case Some(rest) => Some([StockCheckItem(body[0], body[1])] + rest)
  }

  lemma {:induction false} ItemsRoundTrip(items: seq<StockCheckItem>)
    ensures DecodeItems(EncodeItems(items), |items|) == Some(items)
  {
    if items != [] {
      ItemsRoundTrip(items[1..]);
      assert EncodeItems(items)[2..] == EncodeItems(items[1..]);
      assert [items[0]] + items[1..] == items;
    }
  }

  /** The stock-check request body: the request id (length, then code points),
      the number of items, then the items. */
  function EncodeStockCheckRequest(r: StockCheckRequest): seq<int> {
    [|r.requestId|] + CharCodes(r.requestId) + [|r.items|] + EncodeItems(r.items)
  }

  function DecodeStockCheckRequest(body: seq<int>): Option<StockCheckRequest> {
    if |body| == 0 || body[0] < 0 || |body| < body[0] + 2 then None
    else
      var n := body[0];
      match DecodeChars(body[1..n + 1])
      case None => None
      case Some(requestId) =>
        if body[n + 1] < 0 then None
        else match DecodeItems(body[n + 2..], body[n + 1])
          case None => None
          case Some(items) => Some(StockCheckRequest(requestId, items))
  }

  /** What the stock service decodes is the request that was published: the
      same request id and the same (product, quantity) pairs in the same order. */
  lemma StockCheckRequestRoundTrip(r: StockCheckRequest)
    ensures DecodeStockCheckRequest(EncodeStockCheckRequest(r)) == Some(r)
  {
    var body := EncodeStockCheckRequest(r);
    var n := |r.requestId|;
    assert body[0] == n;
    assert body[1..n + 1] == CharCodes(r.requestId);
    assert body[n + 1] == |r.items|;
    assert body[n + 2..] == EncodeItems(r.items);
    CharCodesRoundTrip(r.requestId);
    ItemsRoundTrip(r.items);
  }

  /** Two different requests never share a body. */
  lemma StockCheckRequestEncodingInjective(a: StockCheckRequest, b: StockCheckRequest)
    requires EncodeStockCheckRequest(a) == EncodeStockCheckRequest(b)
    ensures a == b
  {
    StockCheckRequestRoundTrip(a);
    StockCheckRequestRoundTrip(b);
  }

  /** The customer-check request body: the client id and nothing else. */
  function EncodeCustomerCheckRequest(r: CustomerCheckRequest): seq<int> {
    [r.clientId]
  }

  function DecodeCustomerCheckRequest(body: seq<int>): Option<CustomerCheckRequest> {
    if |body| == 1 then Some(CustomerCheckRequest(body[0])) else None
  }

  lemma CustomerCheckRequestRoundTrip(r: CustomerCheckRequest)
    ensures DecodeCustomerCheckRequest(EncodeCustomerCheckRequest(r)) == Some(r)
  {
  }
}
