/** The integrations page: the connection test against the orders endpoint,
    with the error text it shows, and the automatic sync that imports the
    Shopify orders not yet in the system. The endpoint's reply is given as
    the reply the endpoint model computes. */
module Integrations {
  import opened Wrappers
  import opened Types
  import opened Text
  import opened ShopifyTransform
  import opened ManualProcessor
  import opened ShopifyApi

  /** What reading the endpoint's reply gives the page: a thrown value (no
      answer, or a body that is not JSON), a failed reply with its status
      and body, or a successful reply with the orders it carries. */
  datatype Answer =
    | Unreadable(thrown: Thrown)
    | Refused(status: int, body: ErrorBody)
    | Received(orders: Option<seq<ShopifyOrder>>)

  /** How the page reads a reply of the endpoint; a reply without body makes
      the JSON reading throw `parseError`. */
  function AnswerOf(r: ApiReply, parseError: Thrown): (a: Answer)
    ensures a.Received? <==> r.OrdersReply?
    ensures a.Refused? <==> r.ErrorReply?
    ensures a.Refused? ==> a.status == r.status && a.body == r.body
    ensures a.Received? ==> a.orders == Some(r.orders)
  {
    match r
    case ErrorReply(status, body) => Refused(status, body)
    case EmptyReply(_) => Unreadable(parseError)
    case OrdersReply(orders, _) => Received(Some(orders))
  }

  const MissingEnvPrefix := "Configuraci\U{00F3}n incompleta. Faltan variables de entorno: "
  const CommunicationErrorText := "Error de comunicaci\U{00F3}n con el servidor."

  /** The error shown after a failed test: the body's message, else its code
      with its hint, else the list of missing variables, else the code or,
      without one, the HTTP status. */
  function ConnectionErrorText(status: int, body: ErrorBody): (text: string)
    ensures text != []
    ensures Truthy(body.message) ==> text == body.message.value
    ensures !Truthy(body.message) && Truthy(body.hint) ==> text == body.code + ": " + body.hint.value
  {
    if Truthy(body.message) then body.message.value
    else if Truthy(body.hint) then body.code + ": " + body.hint.value
    else if body.missing.Some? then MissingEnvPrefix + Join(body.missing.value, ", ") + "."
    else "Error: " + (if body.code != [] then body.code else "HTTP " + IntToString(status))
  }

  /** The state the connection indicator shows. */
  datatype Connection = Idle | Testing | Connected | ConnectionFailed(text: string)

  /** `testShopifyConnection`: the connection state after the test and
      whether the success toast is shown. */
  function TestConnection(a: Answer, silent: bool): (r: (Connection, bool))
    ensures r.0.Connected? <==> a.Received?
    ensures r.1 <==> a.Received? && !silent
    ensures a.Refused? ==> r.0 == ConnectionFailed(ConnectionErrorText(a.status, a.body))
    ensures a.Unreadable? ==> r.0 == ConnectionFailed(ThrownText(a.thrown, CommunicationErrorText))
  {
    match a
    case Received(_) => (Connected, !silent)
    case Refused(status, body) => (ConnectionFailed(ConnectionErrorText(status, body)), false)
    case Unreadable(t) => (ConnectionFailed(ThrownText(t, CommunicationErrorText)), false)
  }

  /** The test reports a connection exactly when the endpoint sent orders. */
  lemma {:induction false} ConnectedIffOrders(httpMethod: string, env: Env, q: ApiQuery, syn: LinkHeader.LinkSyntax,
                           ordersFetch: Fetch<Option<seq<ShopifyOrder>>>,
                           customersFetch: Fetch<seq<ShopifyCustomer>>, parseError: Thrown, silent: bool)
    ensures var r := OrdersHandler(httpMethod, env, q, syn, ordersFetch, customersFetch);
      TestConnection(AnswerOf(r, parseError), silent).0.Connected? <==> r.OrdersReply?
  {
  }

  /** For every error the endpoint makes of a Shopify failure, the page shows
      the endpoint's own message; only the missing-scope reply, which has
      none, is shown as its code and hint. */
  lemma {:induction false} ApiErrorsExplained(status: int, contentType: Option<string>)
    ensures var r := HandleApiError(status, contentType);
      status == 403 ==> ConnectionErrorText(r.status, r.body) == "MISSING_SCOPE_READ_CUSTOMERS" + ": " + MissingScopeHint
    ensures var r := HandleApiError(status, contentType);
      status != 403 ==> ConnectionErrorText(r.status, r.body) == r.body.message.value
  {
  }

  /** An unconfigured server is reported with its code and hint. */
  lemma {:induction false} MissingEnvExplained(env: Env)
    requires !Truthy(env.storeDomain) || !Truthy(env.adminToken)
    ensures var r := Gate("GET", env).value;
      ConnectionErrorText(r.status, r.body) == "MISSING_ENV: " + MissingEnvHint
  {
    var r := Gate("GET", env).value;
    assert r.body == ErrorBody("MISSING_ENV", None, Some(MissingEnvHint), None);
    assert |MissingEnvHint| > 0;
    assert !Truthy(r.body.message) && Truthy(r.body.hint);
  }

  const SyncFallbackText := "Error de red al sincronizar."
  const SyncToastFallback := "No se pudo sincronizar con Shopify."
  const NeverSynced := "Nunca"

  /** The message of the error a failed reply is turned into. */
  function SyncThrowText(body: ErrorBody): (text: string)
    ensures text != []
    ensures Truthy(body.message) ==> text == body.message.value
    ensures !Truthy(body.message) && body.code != [] ==> text == body.code
  {
    if Truthy(body.message) then body.message.value
    else if body.code != [] then body.code
    else SyncFallbackText
  }

  /** The sync stays quiet about an error whose message mentions
      `RATE_LIMITED`. */
  predicate RateLimitSilenced(t: Thrown) {
    t.ErrorThrown? && Contains(t.message, "RATE_LIMITED")
  }

  /** The error toast a caught value gives, if any. */
  function SyncToast(t: Thrown): (toast: Option<string>)
    ensures toast.None? <==> RateLimitSilenced(t)
    ensures toast.Some? && t.ErrorThrown? ==> toast.value == t.message
    ensures toast.Some? && t.OtherThrown? ==> toast.value == SyncToastFallback
  {
    if RateLimitSilenced(t) then None else Some(ThrownText(t, SyncToastFallback))
  }

  /** One sync's effect: the orders handed to the import call, the error
      toast, and whether the sync ran to its end (which stamps the time of
      the last sync). `importFailure` is what the import callback rejects
      with; the application's own callback catches a failed save and
      resolves, so with it `importFailure` is always `None`. */
  datatype SyncResult = SyncResult(imported: Option<seq<Order>>, toast: Option<string>, completed: bool)

  /** The sync as written: the toast of a failed reply is decided on the
      message alone. */
  function SyncRun(allOrders: seq<Order>, a: Answer, importFailure: Option<Thrown>): (r: SyncResult)
    ensures r.completed ==> r.toast.None? && a.Received? && a.orders.Some?
    ensures r.imported.Some? ==>
      (a.Received? && a.orders.Some? &&
       r.imported.value == Importable(NewOrders(a.orders.value, ExistingShopifyIds(allOrders))) &&
       r.imported.value != [])
    ensures (a.Received? && a.orders.Some? &&
             Importable(NewOrders(a.orders.value, ExistingShopifyIds(allOrders))) != []) ==> r.imported.Some?
  {
    match a
    case Unreadable(t) => SyncResult(None, SyncToast(t), false)
    case Refused(_, body) => SyncResult(None, SyncToast(ErrorThrown(SyncThrowText(body))), false)
    case Received(None) => SyncResult(None, None, false)
    case Received(Some(fetched)) =>
      var importable := Importable(NewOrders(fetched, ExistingShopifyIds(allOrders)));
      if importable == [] then SyncResult(None, None, true)
      else if importFailure.Some? then SyncResult(Some(importable), SyncToast(importFailure.value), false)
      else SyncResult(Some(importable), None, true)
  }

  /** A sync imports only conversions of fetched orders, and never an order
      whose id is already in the system. */
  lemma {:induction false} SyncImportsOnlyNew(allOrders: seq<Order>, a: Answer, importFailure: Option<Thrown>)
    ensures var r := SyncRun(allOrders, a, importFailure);
      r.imported.Some? ==>
        (forall o :: o in r.imported.value ==> exists so :: so in a.orders.value && Transform(so) == Some(o)) &&
        (forall o, p :: o in r.imported.value && p in allOrders ==> p.id != o.id)
  {
    var r := SyncRun(allOrders, a, importFailure);
    if r.imported.Some? {
      var newOrders := NewOrders(a.orders.value, ExistingShopifyIds(allOrders));
      ImportableMembers(newOrders);
      NothingImportedTwice(a.orders.value, allOrders);
    }
  }

  /** Importing what a sync fetched leaves nothing for the next sync of the
      same page. */
  lemma {:induction false} SecondSyncImportsNothing(allOrders: seq<Order>, fetched: seq<ShopifyOrder>)
    requires SyncRun(allOrders, Received(Some(fetched)), None).imported.Some?
    ensures var first := SyncRun(allOrders, Received(Some(fetched)), None).imported.value;
      SyncRun(allOrders + first, Received(Some(fetched)), None).imported.None?
  {
    var first := SyncRun(allOrders, Received(Some(fetched)), None).imported.value;
    var existing := ExistingShopifyIds(allOrders + first);
    var newOrders := NewOrders(fetched, existing);
    var before := NewOrders(fetched, ExistingShopifyIds(allOrders));
    ImportableMembers(before);
    forall so | so in fetched && Transform(so).Some?
      ensures AlreadyImported(existing, so)
    {
      if !AlreadyImported(ExistingShopifyIds(allOrders), so) {
        var o := Transform(so).value;
        assert so in before;
        assert o in first;
        TransformContract(so);
        assert o.id == ImportedId(so.id);
        assert o in allOrders + first;
      }
    }
    ImportableMembers(newOrders);
    if Importable(newOrders) != [] {
      assert Importable(newOrders)[0] in Importable(newOrders);
    }
  }

  /** The endpoint's rate-limit reply, as the page reads it. */
  function RateLimitAnswer(): Answer {
    var r := HandleApiError(429, Some("application/json"));
    Refused(r.status, r.body)
  }

  /** The rate-limit message has no capital R, checked piece by piece. */
  lemma {:induction false} RateLimitMessageLacksR()
    ensures 'R' !in RateLimitedMessage
  {
    assert "Se ha excedido el l\U{00ED}mite de peticiones " ==
      "Se ha excedido el l" + "\U{00ED}mite de peticiones ";
    assert 'R' !in "Se ha excedido el l";
    assert 'R' !in "\U{00ED}mite de peticiones ";
    assert 'R' !in "de la API de Shopify.";
  }

  lemma {:induction false} RateLimitMessageLacksCode()
    ensures !Contains(RateLimitedMessage, "RATE_LIMITED")
  {
    RateLimitMessageLacksR();
    MissingHeadNotContained(RateLimitedMessage, "RATE_LIMITED");
  }

  lemma {:induction false} RateLimitReplyBody()
    ensures RateLimitAnswer() == Refused(429, Coded("RATE_LIMITED", RateLimitedMessage))
  {
    assert IsJson(Some("application/json")) by {
      ContainsAt("application/json", "application/json", 0);
    }
  }

  lemma {:induction false} RateLimitMessageToasted()
    ensures SyncToast(ErrorThrown(RateLimitedMessage)) == Some(RateLimitedMessage)
  {
    RateLimitMessageLacksCode();
  }

  /** As written, the endpoint's own rate-limit reply is toasted: its message
      is the Spanish text, which does not contain `RATE_LIMITED`, and the
      code is only used when the message is missing. */
  lemma {:induction false} RateLimitToastedAsWritten(allOrders: seq<Order>, importFailure: Option<Thrown>)
    ensures RateLimitAnswer().body.code == "RATE_LIMITED"
    ensures SyncRun(allOrders, RateLimitAnswer(), importFailure).toast == Some(RateLimitedMessage)
  {
    RateLimitReplyBody();
    RateLimitMessageToasted();
  }

  /** A failed reply is kept quiet when its code says the rate limit was
      hit. */
  function RefusedToast(body: ErrorBody): (toast: Option<string>)
    ensures toast.None? <==> body.code == "RATE_LIMITED"
    ensures toast.Some? ==> toast.value == SyncThrowText(body)
  {
    if body.code == "RATE_LIMITED" then None else Some(SyncThrowText(body))
  }

  /** The sync with the rate-limit check made on the reply's code. */
  function SyncRunCorrected(allOrders: seq<Order>, a: Answer, importFailure: Option<Thrown>): (r: SyncResult)
    ensures a.Refused? ==> r == SyncResult(None, RefusedToast(a.body), false)
    ensures !a.Refused? ==> r == SyncRun(allOrders, a, importFailure)
  {
    match a
    case Refused(_, body) => SyncResult(None, RefusedToast(body), false)
    case _ => SyncRun(allOrders, a, importFailure)
  }

  /** With the code check, of all the errors the endpoint makes of a Shopify
      failure exactly the rate-limit one stays quiet. */
  lemma {:induction false} CorrectedSilencesOnlyRateLimits(allOrders: seq<Order>, status: int, contentType: Option<string>,
                                        importFailure: Option<Thrown>)
    ensures var r := HandleApiError(status, contentType);
      SyncRunCorrected(allOrders, Refused(r.status, r.body), importFailure).toast.None? <==>
        status == 429 && IsJson(contentType)
  {
    var r := HandleApiError(status, contentType);
    RateLimitCodeOnlyFor429(status, contentType);
    assert SyncRunCorrected(allOrders, Refused(r.status, r.body), importFailure).toast == RefusedToast(r.body);
  }

  /** The page's sync state: the re-entry flag and the time of the last
      completed sync. */
  class AutoSync {
    var syncing: bool
    var lastSync: string

    constructor()
      ensures !syncing && lastSync == NeverSynced
    {
      syncing, lastSync := false, NeverSynced;
    }

    /** The entry of `syncOrders`: a sync already in flight refuses a second
        one; otherwise the flag is raised for the run. */
    method Begin() returns (proceed: bool)
      modifies this
      ensures proceed <==> !old(syncing)
      ensures syncing && lastSync == old(lastSync)
    {
      proceed := !syncing;
      syncing := true;
    }

    /** The body of a sync that was let in: the reply is read, the new
        importable orders handed to the import call, errors toasted unless
        silenced, and the flag lowered whatever happened. */
    method Run(allOrders: seq<Order>, a: Answer, importFailure: Option<Thrown>, now: string)
      returns (imported: Option<seq<Order>>, toast: Option<string>)
      modifies this
      ensures imported == SyncRun(allOrders, a, importFailure).imported
      ensures toast == SyncRun(allOrders, a, importFailure).toast
      ensures lastSync == if SyncRun(allOrders, a, importFailure).completed then now else old(lastSync)
      ensures !syncing
    {
      imported, toast := None, None;
      match a {
        case Unreadable(t) =>
          toast := SyncToast(t);
        case Refused(_, body) =>
          toast := SyncToast(ErrorThrown(SyncThrowText(body)));
        case Received(orders) =>
          if orders.Some? {
            var newOrders := NewOrders(orders.value, ExistingShopifyIds(allOrders));
            var importable: seq<Order> := [];
            if |newOrders| > 0 {
              var skipped;
              importable, skipped := SplitImportable(newOrders);
            }
            if |importable| > 0 {
              imported := Some(importable);
            }
            if imported.Some? && importFailure.Some? {
              toast := SyncToast(importFailure.value);
            } else {
              lastSync := now;
            }
          }
      }
      syncing := false;
    }
  }
}
