/** The Cloudflare worker that proxies the Shopify Admin API: a router on the
    path, a connection test, a one-page order fetch with page links, and the
    mapping of Shopify's failures onto replies. Calls to Shopify are given by
    their outcome. */
module Worker {
  import opened Wrappers
  import opened Types
  import opened Text
  import opened LinkHeader
  import opened ShopifyTransform
  import ShopifyApi

  /** The body of a JSON reply. */
  datatype WorkerBody =
    | Failed(success: Option<bool>, error: string, details: Option<string>)
    | Shop(shopName: string)
    | Orders(orders: Option<seq<ShopifyOrder>>, pageInfo: PageLinks)

  /** A reply: the CORS preflight answer without body, or JSON with a
      status. */
  datatype WorkerReply = Preflight | Json(status: int, body: WorkerBody)

  datatype Route = TestConnection | FetchOrders | NotFound

  /** The handler a path reaches, by its ending: the current routes first,
      then the older names kept for compatibility. */
  function RouteOf(path: string): (r: Route)
    ensures r == TestConnection <==>
      EndsWith(path, "/shopify/test") ||
      (!EndsWith(path, "/shopify/orders") && EndsWith(path, "/test-shopify-connection"))
    ensures r == FetchOrders <==>
      !EndsWith(path, "/shopify/test") &&
      (EndsWith(path, "/shopify/orders") || (!EndsWith(path, "/test-shopify-connection") && EndsWith(path, "/fetch-orders")))
    ensures r == NotFound <==>
      !EndsWith(path, "/shopify/test") && !EndsWith(path, "/shopify/orders") &&
      !EndsWith(path, "/test-shopify-connection") && !EndsWith(path, "/fetch-orders")
  {
    if EndsWith(path, "/shopify/test") then TestConnection
    else if EndsWith(path, "/shopify/orders") then FetchOrders
    else if EndsWith(path, "/test-shopify-connection") then TestConnection
    else if EndsWith(path, "/fetch-orders") then FetchOrders
    else NotFound
  }

  /** The four endings in use are told apart: none of them ends another, so
      each reaches its own handler whatever the order of the tests. */
  lemma {:induction false} RoutesAreDistinct()
    ensures RouteOf("/api/shopify/test") == TestConnection
    ensures RouteOf("/api/shopify/orders") == FetchOrders
    ensures RouteOf("/test-shopify-connection") == TestConnection
    ensures RouteOf("/fetch-orders") == FetchOrders
    ensures RouteOf("/api/shopify/customers") == NotFound
  {
    CurrentRoutes();
    LegacyRoutes();
    OtherRouteNotFound();
  }

  lemma {:induction false} CurrentRoutes()
    ensures RouteOf("/api/shopify/test") == TestConnection
    ensures RouteOf("/api/shopify/orders") == FetchOrders
  {
    assert "/api/shopify/test"[|"/api/shopify/test"| - |"/shopify/test"|..] == "/shopify/test";
    assert "/api/shopify/orders"[|"/api/shopify/orders"| - |"/shopify/orders"|..] == "/shopify/orders";
    assert "/api/shopify/orders"[|"/api/shopify/orders"| - |"/shopify/test"|..] != "/shopify/test";
  }

  lemma {:induction false} LegacyRoutes()
    ensures RouteOf("/test-shopify-connection") == TestConnection
    ensures RouteOf("/fetch-orders") == FetchOrders
  {
    assert "/test-shopify-connection"[|"/test-shopify-connection"| - |"/shopify/test"|..] != "/shopify/test";
    assert "/test-shopify-connection"[|"/test-shopify-connection"| - |"/shopify/orders"|..] != "/shopify/orders";
    assert "/fetch-orders"[|"/fetch-orders"| - |"/shopify/test"|..] != "/shopify/test";
    assert |"/fetch-orders"| < |"/shopify/orders"| < |"/test-shopify-connection"|;
  }

  lemma {:induction false} OtherRouteNotFound()
    ensures RouteOf("/api/shopify/customers") == NotFound
  {
    var other := "/api/shopify/customers";
    assert other[|other| - |"/shopify/test"|..] != "/shopify/test";
    assert other[|other| - |"/shopify/orders"|..] != "/shopify/orders";
    assert |other| < |"/test-shopify-connection"|;
    assert other[|other| - |"/fetch-orders"|..] != "/fetch-orders";
  }

  const UnauthorizedDetails := "Invalid token or insufficient scopes."
  const UnknownErrorDetails := "Unknown Shopify API error."
  const NetworkDetails := "Failed to connect to Shopify. Check the domain and network settings."
  const MissingCredentials := "storeUrl and apiToken are required."

  function NonJsonDetails(status: int): string {
    "Received non-JSON response from Shopify (status " + IntToString(status) +
    "). Verify store domain and API path."
  }

  /** A failed Shopify answer: its status, content type, the `errors` field
      of its JSON body and its `Retry-After` header. */
  datatype ShopifyFailure = ShopifyFailure(
    status: int,
    contentType: Option<string>,
    errors: Option<string>,
    retryAfter: Option<string>)

  /** `handleShopifyApiError`: a reply that is not JSON is blamed on the
      domain or path before its status is looked at; then 401 and 403 both
      become 401, 429 stays 429, and any other status is passed through. */
  function HandleShopifyApiError(f: ShopifyFailure): (r: (int, WorkerBody))
    ensures r.1.Failed? && r.1.details.Some?
    ensures !ShopifyApi.IsJson(f.contentType) ==> r.0 == 502 && r.1.error == "BAD_DOMAIN_OR_PATH"
    ensures ShopifyApi.IsJson(f.contentType) ==>
      r.0 == (if f.status == 401 || f.status == 403 then 401 else f.status)
    ensures ShopifyApi.IsJson(f.contentType) ==>
      r.1.error == (if f.status == 401 || f.status == 403 then "UNAUTHORIZED"
                    else if f.status == 429 then "RATE_LIMITED"
                    else "SHOPIFY_API_ERROR")
  {
    if !ShopifyApi.IsJson(f.contentType) then
      (502, Failed(None, "BAD_DOMAIN_OR_PATH", Some(NonJsonDetails(f.status))))
    else if f.status == 401 || f.status == 403 then
      (401, Failed(None, "UNAUTHORIZED", Some(if Truthy(f.errors) then f.errors.value else UnauthorizedDetails)))
    else if f.status == 429 then
      (429, Failed(None, "RATE_LIMITED", Some("Retry after " + f.retryAfter.GetOr("null") + " seconds.")))
    else
      (f.status, Failed(None, "SHOPIFY_API_ERROR", Some(if Truthy(f.errors) then f.errors.value else UnknownErrorDetails)))
  }

  /** The two classifiers disagree on a 403 that is not JSON: the serverless
      API reports the missing customer scope, the worker a wrong domain. */
  lemma {:induction false} ClassifiersDisagreeOnPlain403()
    ensures ShopifyApi.HandleApiError(403, Some("text/html")).status == 403
    ensures HandleShopifyApiError(ShopifyFailure(403, Some("text/html"), None, None)).0 == 502
  {
    assert !ShopifyApi.IsJson(Some("text/html")) by {
      assert 'a' !in "text/html";
      MissingHeadNotContained("text/html", "application/json");
    }
  }

  /** The JSON body of a request to either handler. */
  datatype WorkerRequest = WorkerRequest(
    storeUrl: Option<string>,
    apiToken: Option<string>,
    limit: Option<int>,
    pageInfo: Option<string>,
    updatedAtMin: Option<string>)

  /** The checks both handlers make: POST only, and both credentials. */
  function HandlerGate(httpMethod: string, req: WorkerRequest, testing: bool): (r: Option<WorkerReply>)
    ensures httpMethod != "POST" ==> r == Some(Json(405, Failed(None, "Method Not Allowed", None)))
    ensures httpMethod == "POST" ==> (r.None? <==> Truthy(req.storeUrl) && Truthy(req.apiToken))
    ensures httpMethod == "POST" && r.Some? ==> r.value.Json? && r.value.status == 400
  {
    if httpMethod != "POST" then Some(Json(405, Failed(None, "Method Not Allowed", None)))
    else if !Truthy(req.storeUrl) || !Truthy(req.apiToken) then
      Some(Json(400, Failed(if testing then Some(false) else None, MissingCredentials, None)))
    else None
  }

  const WorkerOrderFields :=
    "id,name,order_number,created_at,customer,shipping_address,phone,current_total_price,financial_status,fulfillment_status,cancelled_at,closed_at,line_items(title,quantity),note,tags"

  /** The query of the order fetch: every status, newest first, 50 orders
      unless the request says otherwise; the page token and the lower bound
      on the update time are added only when given, in that order. */
  function FetchParams(req: WorkerRequest): (params: seq<(string, string)>)
    ensures |params| >= 4
    ensures params[..4] == [("status", "any"), ("limit", IntToString(req.limit.GetOr(50))),
                            ("order", "created_at desc"), ("fields", WorkerOrderFields)]
    ensures ("page_info", req.pageInfo.GetOr([])) in params <==> Truthy(req.pageInfo)
    ensures |params| == 4 + (if Truthy(req.pageInfo) then 1 else 0) + (if Truthy(req.updatedAtMin) then 1 else 0)
    ensures Truthy(req.updatedAtMin) ==> params[|params| - 1] == ("updated_at_min", req.updatedAtMin.value)
  {
    [("status", "any"), ("limit", IntToString(req.limit.GetOr(50))), ("order", "created_at desc"), ("fields", WorkerOrderFields)]
    + (if Truthy(req.pageInfo) then [("page_info", req.pageInfo.value)] else [])
    + (if Truthy(req.updatedAtMin) then [("updated_at_min", req.updatedAtMin.value)] else [])
  }

  /** What a Shopify call gave: no answer, a failed answer, or a successful
      one with its `Link` header and parsed body. */
  datatype Outcome<T> = Unreachable | Refused(failure: ShopifyFailure) | Answered(link: Option<string>, payload: T)

  const NetworkReply := Json(500, Failed(None, "NETWORK_ERROR", Some(NetworkDetails)))

  /** `handleTestConnection`. */
  function TestConnectionReply(httpMethod: string, req: WorkerRequest, shop: Outcome<string>): (r: WorkerReply)
    ensures r.Json?
    ensures r.body.Shop? <==> HandlerGate(httpMethod, req, true).None? && shop.Answered?
    ensures r.body.Failed? && r.status != 405 && r.status != 400 && r.status != 500 ==> shop.Refused?
  {
    var gate := HandlerGate(httpMethod, req, true);
    if gate.Some? then gate.value
    else match shop
      case Unreachable => Json(500, Failed(Some(false), "NETWORK_ERROR", Some(NetworkDetails)))
      case Refused(f) =>
        var (status, body) := HandleShopifyApiError(f);
        Json(status, body.(success := Some(false)))
      case Answered(_, name) => Json(200, Shop(name))
  }

  /** `handleFetchOrders`: the page links come from the worker's own copy of
      the header reader, which does not trim the `rel` value. */
  function FetchOrdersReply(httpMethod: string, req: WorkerRequest, syn: LinkSyntax,
                            orders: Outcome<Option<seq<ShopifyOrder>>>): (r: WorkerReply)
    ensures r.Json?
    ensures r.body.Orders? <==> HandlerGate(httpMethod, req, false).None? && orders.Answered?
    ensures r.body.Orders? ==> r.status == 200 && r.body.pageInfo == LinksFor(orders.link, syn, false)
  {
    var gate := HandlerGate(httpMethod, req, false);
    if gate.Some? then gate.value
    else match orders
      case Unreachable => NetworkReply
      case Refused(f) =>
        var (status, body) := HandleShopifyApiError(f);
        Json(status, body)
      case Answered(link, payload) => Json(200, Orders(payload, LinksFor(link, syn, false)))
  }

  /** What reading the request's JSON body gave: the request, or the message
      of the error it threw. */
  datatype RequestBody = Parsed(request: WorkerRequest) | Unreadable(message: string)

  /** The outer handler's reply to an error thrown inside a route. */
  function InternalError(message: string): WorkerReply
  {
    Json(500, Failed(None, "Internal Server Error", Some(message)))
  }

  /** The worker's entry point. A body that cannot be read throws out of the
      route handler, and the outer handler turns the error into a 500 that
      carries the error's message as `details`. */
  function WorkerFetch(httpMethod: string, path: string, body: RequestBody, syn: LinkSyntax,
                       shop: Outcome<string>, orders: Outcome<Option<seq<ShopifyOrder>>>): (r: WorkerReply)
    ensures httpMethod == "OPTIONS" <==> r.Preflight?
    ensures httpMethod != "OPTIONS" && RouteOf(path) == NotFound ==> r.Json? && r.status == 404
    ensures httpMethod == "POST" && RouteOf(path) != NotFound && body.Unreadable? ==>
      r == Json(500, Failed(None, "Internal Server Error", Some(body.message)))
    ensures httpMethod == "POST" && RouteOf(path) == TestConnection && body.Parsed? ==>
      r == TestConnectionReply(httpMethod, body.request, shop)
    ensures httpMethod == "POST" && RouteOf(path) == FetchOrders && body.Parsed? ==>
      r == FetchOrdersReply(httpMethod, body.request, syn, orders)
  {
    if httpMethod == "OPTIONS" then Preflight
    else match RouteOf(path)
      case NotFound => Json(404, Failed(None, "Route not found: " + path, None))
      case TestConnection =>
        if httpMethod != "POST" then Json(405, Failed(None, "Method Not Allowed", None))
        else if body.Unreadable? then InternalError(body.message)
        else TestConnectionReply(httpMethod, body.request, shop)
      case FetchOrders =>
        if httpMethod != "POST" then Json(405, Failed(None, "Method Not Allowed", None))
        else if body.Unreadable? then InternalError(body.message)
        else FetchOrdersReply(httpMethod, body.request, syn, orders)
  }

  /** Anything but a POST to a known route is refused before its body is
      read or Shopify is called. */
  lemma {:induction false} OnlyPostReachesShopify(httpMethod: string, path: string, body: RequestBody, syn: LinkSyntax,
                               shop: Outcome<string>, orders: Outcome<Option<seq<ShopifyOrder>>>)
    requires httpMethod != "POST" && httpMethod != "OPTIONS"
    ensures var r := WorkerFetch(httpMethod, path, body, syn, shop, orders);
      r.Json? && (r.status == 404 || r.status == 405)
  {
  }
}
