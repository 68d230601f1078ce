/** The serverless endpoint the pages call for Shopify orders: it checks the
    request, fetches one page of orders from the Shopify Admin API, reads the
    page links, optionally overlays the full customer records, and turns
    Shopify's failures into replies with an error code. The two Shopify
    calls are given by their outcome. */
module ShopifyApi {
  import opened Wrappers
  import opened Types
  import opened Text
  import opened Seqs
  import opened LinkHeader
  import opened ShopifyTransform

  /** The JSON body of a failed reply (`ok: false`). */
  datatype ErrorBody = ErrorBody(
    code: string,
    message: Option<string>,
    hint: Option<string>,
    missing: Option<seq<string>>)

  /** A reply: an error with its status, a reply without body, or the
      orders of the page with its links (status 200, `ok: true`). */
  datatype ApiReply =
    | ErrorReply(status: int, body: ErrorBody)
    | EmptyReply(status: int)
    | OrdersReply(orders: seq<ShopifyOrder>, pageInfo: PageLinks)

  function StatusOf(r: ApiReply): int {
    match r
    case ErrorReply(s, _) => s
    case EmptyReply(s) => s
    case OrdersReply(_, _) => 200
  }

  function Coded(code: string, message: string): ErrorBody {
    ErrorBody(code, Some(message), None, None)
  }

  const MissingScopeHint := "Activa el scope read_customers en tu app de Shopify y reinstala."
  const UnauthorizedMessage := "Token de acceso de Shopify inv\U{00E1}lido o con permisos insuficientes."
  const RateLimitedMessage := "Se ha excedido el l\U{00ED}mite de peticiones " + "de la API de Shopify."
  const ApiErrorMessage := "Error en la API de Shopify."
  const MissingEnvHint := "Las variables de entorno del servidor de Shopify no est\U{00E1}n configuradas."
  const NetworkErrorMessage := "Error de red al intentar conectar con Shopify."

  function NonJsonMessage(status: int): string {
    "Shopify devolvi\U{00F3} una respuesta no-JSON (status " + IntToString(status) +
    "). Verifica el dominio de la tienda."
  }

  predicate IsJson(contentType: Option<string>) {
    contentType.Some? && Contains(contentType.value, "application/json")
  }

  /** `handleApiError`: a 403 means the customer scope is missing, whatever
      the content type; otherwise a reply that is not JSON points at a wrong
      domain or path; then 401 and 429 get their own codes, and any other
      status is passed through. */
  function HandleApiError(status: int, contentType: Option<string>): (r: ApiReply)
    ensures r.ErrorReply?
    ensures status == 403 ==>
      r == ErrorReply(403, ErrorBody("MISSING_SCOPE_READ_CUSTOMERS", None, Some(MissingScopeHint), None))
    ensures status != 403 && !IsJson(contentType) ==>
      r.status == 502 && r.body.code == "BAD_DOMAIN_OR_PATH"
    ensures status != 403 && IsJson(contentType) ==> r.status == status
    ensures status != 403 && IsJson(contentType) ==>
      r.body.code == (if status == 401 then "UNAUTHORIZED"
                      else if status == 429 then "RATE_LIMITED"
                      else "SHOPIFY_API_ERROR")
    ensures r.body.message.Some? <==> status != 403
    ensures r.body.message.Some? ==> r.body.message.value != []
  {
    if status == 403 then
      ErrorReply(403, ErrorBody("MISSING_SCOPE_READ_CUSTOMERS", None, Some(MissingScopeHint), None))
    else if !IsJson(contentType) then ErrorReply(502, Coded("BAD_DOMAIN_OR_PATH", NonJsonMessage(status)))
    else if status == 401 then ErrorReply(401, Coded("UNAUTHORIZED", UnauthorizedMessage))
    else if status == 429 then ErrorReply(429, Coded("RATE_LIMITED", RateLimitedMessage))
    else ErrorReply(status, Coded("SHOPIFY_API_ERROR", ApiErrorMessage))
  }

  /** Only a JSON 429 reply is coded as the rate limit. */
  lemma {:induction false} RateLimitCodeOnlyFor429(status: int, contentType: Option<string>)
    ensures HandleApiError(status, contentType).body.code == "RATE_LIMITED" <==> status == 429 && IsJson(contentType)
  {
    var code := HandleApiError(status, contentType).body.code;
    if status == 403 {
      assert code[0] == 'M';
    } else if !IsJson(contentType) {
      assert code[0] == 'B';
    } else if status == 401 {
      assert code[0] == 'U';
    } else if status != 429 {
      assert code[0] == 'S';
    }
  }

  /** The store domain and admin token the server is configured with. */
  datatype Env = Env(storeDomain: Option<string>, adminToken: Option<string>)

  /** The checks made before any call to Shopify; `None` lets the request
      through. */
  function Gate(httpMethod: string, env: Env): (r: Option<ApiReply>)
    ensures httpMethod == "OPTIONS" ==> r == Some(EmptyReply(200))
    ensures httpMethod != "OPTIONS" && httpMethod != "GET" ==>
      r == Some(ErrorReply(405, ErrorBody("METHOD_NOT_ALLOWED", None, None, None)))
    ensures httpMethod == "GET" ==> (r.None? <==> Truthy(env.storeDomain) && Truthy(env.adminToken))
    ensures httpMethod == "GET" && r.Some? ==> r.value.ErrorReply? && r.value.status == 500 && r.value.body.code == "MISSING_ENV"
  {
    if httpMethod == "OPTIONS" then Some(EmptyReply(200))
    else if httpMethod != "GET" then Some(ErrorReply(405, ErrorBody("METHOD_NOT_ALLOWED", None, None, None)))
    else if !Truthy(env.storeDomain) || !Truthy(env.adminToken) then
      Some(ErrorReply(500, ErrorBody("MISSING_ENV", None, Some(MissingEnvHint), None)))
    else None
  }

  /** The query string of the request. */
  datatype ApiQuery = ApiQuery(limit: Option<string>, pageInfo: Option<string>, includeCustomers: Option<string>)

  const OrderFields :=
    "id,name,order_number,created_at,phone,email,customer,shipping_address,billing_address,total_price,currency,financial_status,fulfillment_status,line_items,note,tags"

  /** The query sent to Shopify: every status, newest first, 50 orders
      unless the caller asks otherwise, and the page token only when one
      was given. */
  function OrdersParams(q: ApiQuery): (params: seq<(string, string)>)
    ensures |params| == 4 || |params| == 5
    ensures params[..4] == [("status", "any"), ("limit", q.limit.GetOr("50")),
                            ("order", "created_at desc"), ("fields", OrderFields)]
    ensures |params| == 5 <==> Truthy(q.pageInfo)
    ensures |params| == 5 ==> params[4] == ("page_info", q.pageInfo.value)
  {
    [("status", "any"), ("limit", q.limit.GetOr("50")), ("order", "created_at desc"), ("fields", OrderFields)]
    + (if Truthy(q.pageInfo) then [("page_info", q.pageInfo.value)] else [])
  }

  function CustomerIdOf(o: ShopifyOrder): Option<int> {
    if o.customer.Some? then o.customer.value.id else None
  }

  /** The customer ids of the orders that have a non-zero one, in order. */
  function TruthyCustomerIds(orders: seq<ShopifyOrder>): (ids: seq<int>)
    ensures forall x :: x in ids <==> x != 0 && exists o :: o in orders && CustomerIdOf(o) == Some(x)
  {
    if orders == [] then []
    else
      var o := orders[0];
      assert forall p :: p in orders <==> p == o || p in orders[1..];
      (if CustomerIdOf(o).Some? && CustomerIdOf(o).value != 0 then [CustomerIdOf(o).value] else [])
      + TruthyCustomerIds(orders[1..])
  }

  /** The ids asked for in the customers request: each non-zero customer id
      once. */
  function CustomerIds(orders: seq<ShopifyOrder>): (ids: seq<int>)
    ensures forall x :: x in ids <==> x != 0 && exists o :: o in orders && CustomerIdOf(o) == Some(x)
    ensures forall i, j :: 0 <= i < j < |ids| ==> ids[i] != ids[j]
  {
    Distinct(TruthyCustomerIds(orders))
  }

  /** `new Map(customers.map(c => [c.id, c]))`: a later record with the same
      id replaces an earlier one. */
  function CustomersById(customers: seq<ShopifyCustomer>): (m: map<int, ShopifyCustomer>)
    ensures forall k :: k in m ==> m[k].id == Some(k)
    ensures forall k :: k in m <==> exists i :: 0 <= i < |customers| && customers[i].id == Some(k)
    ensures forall k :: k in m ==> LastWithId(customers, k, m[k])
  {
    if customers == [] then map[]
    else
      var prefix := customers[..|customers| - 1];
      var m := CustomersById(prefix);
      var c := customers[|customers| - 1];
      assert forall i :: 0 <= i < |prefix| ==> prefix[i] == customers[i];
      LastWithIdGrows(customers, m);
      if c.id.Some? then m[c.id.value := c] else m
  }

  /** `r` is the last record of `customers` with the id `k`. */
  predicate LastWithId(customers: seq<ShopifyCustomer>, k: int, r: ShopifyCustomer) {
    exists i :: 0 <= i < |customers| && customers[i] == r && customers[i].id == Some(k)
                && forall j :: i < j < |customers| ==> customers[j].id != Some(k)
  }

  lemma {:induction false} LastWithIdGrows(customers: seq<ShopifyCustomer>, m: map<int, ShopifyCustomer>)
    requires customers != []
    requires forall k :: k in m ==> LastWithId(customers[..|customers| - 1], k, m[k])
    ensures forall k :: k in m && Some(k) != customers[|customers| - 1].id ==> LastWithId(customers, k, m[k])
    ensures customers[|customers| - 1].id.Some? ==>
      LastWithId(customers, customers[|customers| - 1].id.value, customers[|customers| - 1])
  {
    var n := |customers| - 1;
    forall k | k in m && Some(k) != customers[n].id
      ensures LastWithId(customers, k, m[k])
    {
      var i :| 0 <= i < n && customers[..n][i] == m[k] && customers[..n][i].id == Some(k)
               && forall j :: i < j < n ==> customers[..n][j].id != Some(k);
      assert customers[i] == customers[..n][i];
      assert forall j :: i < j < n ==> customers[j] == customers[..n][j];
    }
  }

  function Pick<T>(kept: Option<T>, given: Option<T>): Option<T> {
    if given.Some? then given else kept
  }

  /** `{ ...order.customer, ...full }`: each field the full record has wins;
      a field it lacks keeps the order's value. */
  function Overlay(a: ShopifyCustomer, full: ShopifyCustomer): (c: ShopifyCustomer)
    ensures full.id.Some? ==> c.id == full.id
    ensures full.id.None? ==> c.id == a.id
    ensures full.firstName.Some? ==> c.firstName == full.firstName
    ensures full.firstName.None? ==> c.firstName == a.firstName
    ensures full.lastName.Some? ==> c.lastName == full.lastName
    ensures full.lastName.None? ==> c.lastName == a.lastName
    ensures full.phone.Some? ==> c.phone == full.phone
    ensures full.phone.None? ==> c.phone == a.phone
    ensures full.defaultAddress.Some? ==> c.defaultAddress == full.defaultAddress
    ensures full.defaultAddress.None? ==> c.defaultAddress == a.defaultAddress
  {
    ShopifyCustomer(Pick(a.id, full.id), Pick(a.firstName, full.firstName), Pick(a.lastName, full.lastName),
                    Pick(a.phone, full.phone), Pick(a.defaultAddress, full.defaultAddress))
  }

  /** The enrichment of one order: only an order whose customer id was
      found is changed, and only in its customer. */
  function EnrichOrder(o: ShopifyOrder, found: map<int, ShopifyCustomer>): (r: ShopifyOrder)
    ensures r == o.(customer := r.customer)
    ensures r.customer != o.customer ==> CustomerIdOf(o).Some? && CustomerIdOf(o).value in found
    ensures CustomerIdOf(o).Some? && CustomerIdOf(o).value in found ==>
      r.customer == Some(Overlay(o.customer.value, found[CustomerIdOf(o).value]))
  {
    if o.customer.Some? && o.customer.value.id.Some? && o.customer.value.id.value in found then
      o.(customer := Some(Overlay(o.customer.value, found[o.customer.value.id.value])))
    else o
  }

  /** Enriching twice changes nothing more than enriching once, when the
      records were read from the customers reply. */
  lemma {:induction false} EnrichTwice(o: ShopifyOrder, customers: seq<ShopifyCustomer>)
    ensures var found := CustomersById(customers);
      EnrichOrder(EnrichOrder(o, found), found) == EnrichOrder(o, found)
  {
  }

  function EnrichAll(orders: seq<ShopifyOrder>, found: map<int, ShopifyCustomer>): (r: seq<ShopifyOrder>)
    ensures |r| == |orders|
    ensures forall i :: 0 <= i < |orders| ==> r[i] == EnrichOrder(orders[i], found)
  {
    if orders == [] then [] else [EnrichOrder(orders[0], found)] + EnrichAll(orders[1..], found)
  }

  /** The merge loop, changing each order of the list in place. */
  method EnrichInPlace(orders: array<ShopifyOrder>, found: map<int, ShopifyCustomer>)
    modifies orders
    ensures orders[..] == EnrichAll(old(orders[..]), found)
  {
    for i := 0 to orders.Length
      invariant forall k :: 0 <= k < i ==> orders[k] == EnrichOrder(old(orders[k]), found)
      invariant forall k :: i <= k < orders.Length ==> orders[k] == old(orders[k])
    {
      var o := orders[i];
      if o.customer.Some? && o.customer.value.id.Some? && o.customer.value.id.value in found {
        var full := found[o.customer.value.id.value];
        orders[i] := o.(customer := Some(Overlay(o.customer.value, full)));
      }
    }
  }

  predicate Ok(status: int) {
    200 <= status <= 299
  }

  /** What a call to Shopify gave: no answer at all, or an answer with its
      status, content type, `Link` header and parsed body. */
  datatype Fetch<T> =
    | NetworkFailure
    | Answer(status: int, contentType: Option<string>, link: Option<string>, payload: T)

  const NetworkErrorReply := ErrorReply(502, Coded("NETWORK_ERROR", NetworkErrorMessage))

  /** The customer step: nothing is asked unless the caller wants customers
      and some order has a customer id; a failed request yields the reply
      to send instead of the orders. */
  function Enrichment(orders: seq<ShopifyOrder>, q: ApiQuery,
                      customersFetch: Fetch<seq<ShopifyCustomer>>): (r: Result<seq<ShopifyOrder>, ApiReply>)
    ensures r.Success? ==> |r.value| == |orders|
    ensures r.Success? ==> forall i :: 0 <= i < |orders| ==>
      r.value[i] == orders[i] || r.value[i] == orders[i].(customer := r.value[i].customer)
    ensures q.includeCustomers != Some("true") ==> r == Success(orders)
    ensures r.Failure? <==>
      q.includeCustomers == Some("true") && |CustomerIds(orders)| > 0 && !(customersFetch.Answer? && Ok(customersFetch.status))
    ensures r.Failure? && customersFetch.NetworkFailure? ==> r.error == NetworkErrorReply
    ensures r.Failure? && customersFetch.Answer? ==>
      r.error == HandleApiError(customersFetch.status, customersFetch.contentType)
    ensures (q.includeCustomers == Some("true") && |CustomerIds(orders)| > 0
             && customersFetch.Answer? && Ok(customersFetch.status)) ==>
      r.Success? && forall i :: 0 <= i < |orders| ==>
        r.value[i] == EnrichOrder(orders[i], CustomersById(customersFetch.payload))
  {
    if q.includeCustomers != Some("true") || |orders| == 0 || |CustomerIds(orders)| == 0 then Success(orders)
    else match customersFetch
      case NetworkFailure => Failure(NetworkErrorReply)
      case Answer(status, contentType, _, customers) =>
        if !Ok(status) then Failure(HandleApiError(status, contentType))
        else Success(EnrichAll(orders, CustomersById(customers)))
  }

  /** The endpoint as written: a failed customers request fails the whole
      call. */
  function OrdersHandler(httpMethod: string, env: Env, q: ApiQuery, syn: LinkSyntax,
                         ordersFetch: Fetch<Option<seq<ShopifyOrder>>>,
                         customersFetch: Fetch<seq<ShopifyCustomer>>): ApiReply
  {
    var gate := Gate(httpMethod, env);
    if gate.Some? then gate.value
    else match ordersFetch
      case NetworkFailure => NetworkErrorReply
      case Answer(status, contentType, link, payload) =>
        if !Ok(status) then HandleApiError(status, contentType)
        else
          var orders := payload.GetOr([]);
          var enriched := Enrichment(orders, q, customersFetch);
          if enriched.Failure? then enriched.error
          else OrdersReply(enriched.value, LinksFor(link, syn, true))
  }

  /** Orders are sent only for a GET on a configured server whose orders
      request succeeded, each order as fetched apart from its customer, and
      with the page links read from Shopify's `Link` header. */
  lemma {:induction false} OrdersOnlyOnSuccess(httpMethod: string, env: Env, q: ApiQuery, syn: LinkSyntax,
                            ordersFetch: Fetch<Option<seq<ShopifyOrder>>>,
                            customersFetch: Fetch<seq<ShopifyCustomer>>)
    ensures var r := OrdersHandler(httpMethod, env, q, syn, ordersFetch, customersFetch);
      r.OrdersReply? ==>
        httpMethod == "GET" && Truthy(env.storeDomain) && Truthy(env.adminToken) &&
        ordersFetch.Answer? && Ok(ordersFetch.status) &&
        |r.orders| == |ordersFetch.payload.GetOr([])| &&
        (forall i :: 0 <= i < |r.orders| ==>
          r.orders[i] == ordersFetch.payload.GetOr([])[i].(customer := r.orders[i].customer)) &&
        r.pageInfo == LinksFor(ordersFetch.link, syn, true)
  {
    var r := OrdersHandler(httpMethod, env, q, syn, ordersFetch, customersFetch);
    if r.OrdersReply? {
      var orders := ordersFetch.payload.GetOr([]);
      var e := Enrichment(orders, q, customersFetch);
      forall i | 0 <= i < |r.orders|
        ensures r.orders[i] == orders[i].(customer := r.orders[i].customer)
      {
        assert r.orders[i] == e.value[i];
      }
    }
  }

  /** A paid order of a known customer, used to exhibit the behaviour when
      the customers request fails. */
  const SampleOrder := ShopifyOrder(
    id := 1001, name := Some("#1001"), email := None, phone := None,
    financialStatus := Some("paid"), shippingAddress := None, billingAddress := None,
    customer := Some(ShopifyCustomer(Some(7), Some("Ana"), None, None, None)),
    lineItems := None, totalPrice := 50000, createdAt := 0)

  /** As written, when the orders arrive but the customers request answers
      500, the caller gets the error and none of the orders, although the
      handler's own log line announces that the orders are returned as they
      are. */
  lemma {:induction false} CustomersFailureDropsOrders(syn: LinkSyntax)
    ensures OrdersHandler("GET", Env(Some("shop.example"), Some("token")), ApiQuery(None, None, Some("true")), syn,
                          Answer(200, Some("application/json"), None, Some([SampleOrder])),
                          Answer(500, Some("application/json"), None, []))
      == ErrorReply(500, Coded("SHOPIFY_API_ERROR", ApiErrorMessage))
  {
    assert CustomerIdOf(SampleOrder) == Some(7);
    assert 7 in CustomerIds([SampleOrder]);
    assert IsJson(Some("application/json")) by {
      ContainsAt("application/json", "application/json", 0);
    }
  }

  /** The endpoint with the failed enrichment falling back to the orders as
      fetched. */
  function OrdersHandlerCorrected(httpMethod: string, env: Env, q: ApiQuery, syn: LinkSyntax,
                                  ordersFetch: Fetch<Option<seq<ShopifyOrder>>>,
                                  customersFetch: Fetch<seq<ShopifyCustomer>>): ApiReply
  {
    var gate := Gate(httpMethod, env);
    if gate.Some? then gate.value
    else match ordersFetch
      case NetworkFailure => NetworkErrorReply
      case Answer(status, contentType, link, payload) =>
        if !Ok(status) then HandleApiError(status, contentType)
        else
          var orders := payload.GetOr([]);
          var enriched := Enrichment(orders, q, customersFetch);
          OrdersReply(if enriched.Success? then enriched.value else orders, LinksFor(link, syn, true))
  }

  /** With the fallback, a successful orders request always reaches the
      caller, and the reply differs from the written one only where the
      customers request failed. */
  lemma {:induction false} CorrectedKeepsFetchedOrders(httpMethod: string, env: Env, q: ApiQuery, syn: LinkSyntax,
                                    ordersFetch: Fetch<Option<seq<ShopifyOrder>>>,
                                    customersFetch: Fetch<seq<ShopifyCustomer>>)
    requires Gate(httpMethod, env).None?
    requires ordersFetch.Answer? && Ok(ordersFetch.status)
    ensures var r := OrdersHandlerCorrected(httpMethod, env, q, syn, ordersFetch, customersFetch);
      r.OrdersReply? && |r.orders| == |ordersFetch.payload.GetOr([])|
    ensures Enrichment(ordersFetch.payload.GetOr([]), q, customersFetch).Success? ==>
      OrdersHandlerCorrected(httpMethod, env, q, syn, ordersFetch, customersFetch)
        == OrdersHandler(httpMethod, env, q, syn, ordersFetch, customersFetch)
  {
  }
}
