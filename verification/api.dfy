/** The browser's API client: the base URL, the default headers, the merge
    of caller headers over them, the classification of a response into a
    value or an error, the rewrite of network failures, the products query
    string and the default quantity of add-to-cart.

    `fetch` itself is I/O: its outcome (a response, or the error it throws)
    is a parameter of `Request`. */
module Api {
  import opened Base

  /** A product as the browser receives it. Only the price is consulted by
      the logic modelled here; `None` is a price that is not a number. */
  datatype ProductView = ProductView(price: Option<int>)

  /** A cart line as received; `product` is `None` when population found
      no product. */
  datatype CartItemView = CartItemView(id: LineId, product: Option<ProductView>, quantity: int)

  /** A cart as received; `items` may be missing from the payload. */
  datatype CartView = CartView(items: Option<seq<CartItemView>>)

  const DEFAULT_API_URL := "http://localhost:5000/api"
  const JSON_TYPE := "application/json"
  const CONNECTION_MESSAGE := "Unable to connect to server. Please make sure the backend is running."

  /** The build-time URL when set to a non-empty string, else the local
      default. */
  function ApiUrl(configured: Option<string>): (url: string)
    ensures Truthy(configured) ==> url == configured.value
    ensures !Truthy(configured) ==> url == DEFAULT_API_URL
  {
    OrElse(configured, DEFAULT_API_URL)
  }

  /** `sub` starts at position `i` of `s`. */
  predicate OccursAt(s: string, sub: string, i: int) {
    0 <= i <= |s| - |sub| && s[i..i + |sub|] == sub
  }

  /** `includes`: `sub` occurs somewhere in `s`. */
  function Contains(s: string, sub: string): (b: bool)
    ensures b <==> exists i :: OccursAt(s, sub, i)
    decreases |s|
  {
    if |sub| <= |s| && s[..|sub|] == sub then
      assert OccursAt(s, sub, 0);
      true
    else if s == [] then false
    else
      var b := Contains(s[1..], sub);
      assert forall i :: OccursAt(s[1..], sub, i) <==> OccursAt(s, sub, i + 1) by {
        forall i ensures OccursAt(s[1..], sub, i) <==> OccursAt(s, sub, i + 1) {
          if 0 <= i <= |s| - 1 - |sub| {
            assert s[1..][i..i + |sub|] == s[i + 1..i + 1 + |sub|];
          }
        }
      }
      assert forall i :: OccursAt(s, sub, i) ==> i == 0 || OccursAt(s[1..], sub, i - 1);
      b
  }

  /** The headers every request starts from: JSON content always, a bearer
      token exactly when one is stored. */
  function AuthHeaders(token: Option<string>): (h: map<string, string>)
    ensures "Content-Type" in h && h["Content-Type"] == JSON_TYPE
    ensures "Authorization" in h <==> Truthy(token)
    ensures Truthy(token) ==> h["Authorization"] == "Bearer " + token.value
    ensures h.Keys <= {"Content-Type", "Authorization"}
  {
    var base := map["Content-Type" := JSON_TYPE];
    if Truthy(token) then base["Authorization" := "Bearer " + token.value] else base
  }

  datatype RequestConfig = RequestConfig(url: string, headers: map<string, string>)

  /** The URL is the base URL followed by the endpoint; a header the caller
      supplies overrides the default of the same name, and every default
      the caller does not mention is kept. */
  function Prepare(apiUrl: string, endpoint: string, token: Option<string>, custom: map<string, string>): (c: RequestConfig)
    ensures |c.url| == |apiUrl| + |endpoint| && c.url[..|apiUrl|] == apiUrl && c.url[|apiUrl|..] == endpoint
    ensures c.headers.Keys == AuthHeaders(token).Keys + custom.Keys
    ensures forall k :: k in custom ==> c.headers[k] == custom[k]
    ensures forall k :: k in AuthHeaders(token) && k !in custom ==> c.headers[k] == AuthHeaders(token)[k]
  {
    RequestConfig(apiUrl + endpoint, AuthHeaders(token) + custom)
  }

  /** Decimal rendering of a status code. */
  function NatToString(n: nat): (s: string)
    ensures |s| >= 1
    ensures forall i :: 0 <= i < |s| ==> '0' <= s[i] <= '9'
    decreases n
  {
    var digit := ['0' + ((n % 10) as char)];
    if n < 10 then digit else NatToString(n / 10) + digit
  }

  /** The value of a string of decimal digits. */
  function DigitsValue(s: string): nat
    requires forall i :: 0 <= i < |s| ==> '0' <= s[i] <= '9'
  {
    if s == [] then 0
    else DigitsValue(s[..|s| - 1]) * 10 + (s[|s| - 1] - '0') as nat
  }

  /** Reading the rendered status back gives the status: the message
      carries it exactly. */
  lemma {:induction false} NatToStringRoundTrip(n: nat)
    ensures DigitsValue(NatToString(n)) == n
    decreases n
  {
    var s := NatToString(n);
    if n >= 10 {
      NatToStringRoundTrip(n / 10);
      assert s[..|s| - 1] == NatToString(n / 10);
    }
  }

  datatype ErrorKind = PlainError | TypeError | SyntaxError

  datatype Failure = Failure(kind: ErrorKind, message: string)

  /** A parsed JSON body: only its `message` property is consulted. */
  datatype JsonBody = JsonBody(message: Option<string>, text: string)

  /** `body` is what `response.json()` yields, `None` when it throws. */
  datatype Response = Response(
    ok: bool,
    status: nat,
    statusText: string,
    contentType: Option<string>,
    body: Option<JsonBody>)

  datatype Data = EmptyObject | Json(value: JsonBody)

  datatype Outcome = Returned(data: Data) | Thrown(error: Failure)

  predicate IsJson(r: Response) {
    Truthy(r.contentType) && Contains(r.contentType.value, JSON_TYPE)
  }

  /** What the `try` block makes of a response. */
  function Classify(r: Response): (o: Outcome)
    ensures !r.ok ==> o.Thrown?
    ensures r.ok && !IsJson(r) ==> o == Returned(EmptyObject)
    ensures r.ok && IsJson(r) && r.body.Some? ==> o == Returned(Json(r.body.value))
    ensures !IsJson(r) && !r.ok ==>
      o.error == Failure(PlainError, "Server error: " + NatToString(r.status) + " " + r.statusText)
    ensures IsJson(r) && r.body.None? ==> o.Thrown? && o.error.kind == SyntaxError
    ensures IsJson(r) && r.body.Some? && !r.ok ==>
      o.error == Failure(PlainError, OrElse(r.body.value.message, "An error occurred: " + NatToString(r.status)))
  {
    if !IsJson(r) then
      if !r.ok then Thrown(Failure(PlainError, "Server error: " + NatToString(r.status) + " " + r.statusText))
      else Returned(EmptyObject)
    else if r.body.None? then Thrown(Failure(SyntaxError, "Unexpected token in JSON"))
    else if !r.ok then Thrown(Failure(PlainError, OrElse(r.body.value.message, "An error occurred: " + NatToString(r.status))))
    else Returned(Json(r.body.value))
  }

  /** The `catch`: a TypeError mentioning fetch becomes the connection
      error; anything else is rethrown as it is. */
  function Rewrite(e: Failure): (f: Failure)
    ensures e.kind == TypeError && Contains(e.message, "fetch") ==> f == Failure(PlainError, CONNECTION_MESSAGE)
    ensures !(e.kind == TypeError && Contains(e.message, "fetch")) ==> f == e
  {
    if e.kind == TypeError && Contains(e.message, "fetch") then Failure(PlainError, CONNECTION_MESSAGE) else e
  }

  /** `request`: classify what `fetch` produced, then rewrite any error. */
  function Request(fetched: Result<Response, Failure>): (o: Outcome)
    ensures fetched.Err? ==> o == Thrown(Rewrite(fetched.error))
    ensures fetched.Ok? && Classify(fetched.value).Returned? ==> o == Classify(fetched.value)
    ensures fetched.Ok? && Classify(fetched.value).Thrown? ==> o == Thrown(Rewrite(Classify(fetched.value).error))
  {
    if fetched.Err? then Thrown(Rewrite(fetched.error))
    else
      var o := Classify(fetched.value);
      if o.Thrown? then Thrown(Rewrite(o.error)) else o
  }

  /** No caller ever sees a fetch TypeError: every one is rewritten. */
  lemma NoRawFetchTypeError(fetched: Result<Response, Failure>)
    ensures Request(fetched).Thrown? ==>
      !(Request(fetched).error.kind == TypeError && Contains(Request(fetched).error.message, "fetch"))
  {
  }

  /** A response that is not ok never yields a value, and the error of a
      non-JSON one carries its status. */
  lemma {:induction false} FailedResponseThrows(r: Response)
    requires !r.ok
    ensures Request(Ok(r)).Thrown?
    ensures !IsJson(r) ==> Contains(Request(Ok(r)).error.message, NatToString(r.status))
  {
    if !IsJson(r) {
      var m := "Server error: " + NatToString(r.status) + " " + r.statusText;
      var k := |"Server error: "|;
      assert OccursAt(m, NatToString(r.status), k);
      assert Request(Ok(r)).error.message == m;
    }
  }

  /** The products query: nothing for no category, the empty string or
      'All'; otherwise `?category=` followed by the category. */
  function ProductsQuery(category: Option<string>): (q: string)
    ensures q == "" <==> !Truthy(category) || category.value == "All"
    ensures q != "" ==> q == "?category=" + category.value
  {
    if Truthy(category) && category.value != "All" then "?category=" + category.value else ""
  }

  function ProductsEndpoint(category: Option<string>): string {
    "/products" + ProductsQuery(category)
  }

  datatype AddToCartRequest = AddToCartRequest(endpoint: string, productId: string, quantity: int)

  /** `addToCart` posts to /cart, sending quantity 1 when the caller gives
      none. */
  function AddToCart(productId: string, quantity: Option<int>): (r: AddToCartRequest)
    ensures r.endpoint == "/cart" && r.productId == productId
    ensures quantity.None? ==> r.quantity == 1
    ensures quantity.Some? ==> r.quantity == quantity.value
  {
    AddToCartRequest("/cart", productId, if quantity.Some? then quantity.value else 1)
  }
}
