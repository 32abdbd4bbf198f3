/**
 * The HTTP handlers of `/api/popup-state`: GET reads the store, POST
 * patches it with the correctly typed members of the parsed body, OPTIONS
 * answers the cross-origin preflight. Every reply carries the CORS headers;
 * the JSON replies also carry `content-type: application/json`.
 */
module Route {
  import opened Json
  import opened Popup
  import opened PopupStore

  /** An HTTP reply: status, JSON payload (None for no body) and headers. */
  datatype Response = Response(status: nat, body: Option<Json>, headers: map<string, string>)

  const CorsHeaders: map<string, string> := map[
    "Access-Control-Allow-Origin" := "*",
    "Access-Control-Allow-Methods" := "GET, POST, OPTIONS",
    "Access-Control-Allow-Headers" := "Content-Type"
  ]

  const MaxAgeHeader := "Access-Control-Max-Age"

  /** The headers of a `NextResponse.json` reply: the CORS headers and the JSON content type. */
  const JsonHeaders: map<string, string> := CorsHeaders["content-type" := "application/json"]

  /** `{show, content}` */
  function StateBody(s: PopupState): Json
  {
    JObject(map["show" := JBool(s.show), "content" := JString(s.content)])
  }

  /** `{ok: true, show, content}` */
  function OkBody(s: PopupState): Json
  {
    JObject(map["ok" := JBool(true), "show" := JBool(s.show), "content" := JString(s.content)])
  }

  /** The reply to a body that does not parse. */
  const InvalidBody := Response(400, Some(JObject(map["error" := JString("Invalid body")])), JsonHeaders)

  /** GET: the current state with status 200; it never fails and changes nothing. */
  method Get(store: Store) returns (response: Response)
    ensures response.status == 200 && response.headers == JsonHeaders
    ensures response.body == Some(StateBody(store.State()))
    ensures BoolMember(response.body.value, "show") == Some(store.popupShow)
    ensures StringMember(response.body.value, "content") == Some(store.popupContent)
  {
    var show := store.GetPopupState();
    var content := store.GetPopupContent();
    response := Response(200, Some(StateBody(PopupState(show, content))), JsonHeaders);
  }

  /**
   * POST: the body is parsed before any setter runs, so an unparseable
   * body gives 400 and leaves the store as it was. Otherwise each member
   * of the right type is applied, the others are left untouched, and the
   * reply reports the state read back after the update.
   */
  method Post(store: Store, request: ParseResult) returns (response: Response)
    modifies store
    ensures request.Malformed? ==> store.State() == old(store.State()) && response == InvalidBody
    ensures request.Parsed? ==> store.State() == Merge(old(store.State()), request.value)
    ensures request.Parsed? ==> response == Response(200, Some(OkBody(store.State())), JsonHeaders)
  {
    if request.Malformed? {
      return InvalidBody;
    }
    var body := request.value;
    match BoolMember(body, "show") {
      case Some(b) => store.SetPopupState(b);
      case None =>
    }
    match StringMember(body, "content") {
      case Some(c) => store.SetPopupContent(JString(c));
      case None =>
    }
    var show := store.GetPopupState();
    var content := store.GetPopupContent();
    response := Response(200, Some(OkBody(PopupState(show, content))), JsonHeaders);
  }

  /** OPTIONS: 204, no body, the CORS headers and a one-day preflight cache. */
  function Options(): (r: Response)
    ensures r.status == 204 && r.body.None?
    ensures r.headers.Keys == CorsHeaders.Keys + {MaxAgeHeader}
    ensures forall k :: k in CorsHeaders ==> r.headers[k] == CorsHeaders[k]
    ensures r.headers[MaxAgeHeader] == "86400"
  {
    Response(204, None, CorsHeaders[MaxAgeHeader := "86400"])
  }

  /** The successful POST reply carries the state, member for member. */
  lemma OkBodyReportsState(s: PopupState)
    ensures BoolMember(OkBody(s), "ok") == Some(true)
    ensures BoolMember(OkBody(s), "show") == Some(s.show)
    ensures StringMember(OkBody(s), "content") == Some(s.content)
  {
  }

  /**
   * POST `{"content": "Hello"}`, then POST `{"show": true}`, then GET on a
   * fresh store reports `{show: true, content: "Hello"}`.
   */
  method ContentThenShowScenario() returns (response: Response)
    ensures response.status == 200
    ensures response.body == Some(StateBody(PopupState(true, "Hello")))
  {
    var store := new Store();
    var _ := Post(store, Parsed(JObject(map["content" := JString("Hello")])));
    var _ := Post(store, Parsed(JObject(map["show" := JBool(true)])));
    response := Get(store);
  }

  /**
   * On a fresh store, an unparseable POST gets 400 and a following GET
   * still reports the defaults.
   */
  method MalformedPostScenario() returns (rejected: Response, after: Response)
    ensures rejected.status == 400
    ensures after.body == Some(StateBody(Initial))
  {
    var store := new Store();
    rejected := Post(store, Malformed);
    after := Get(store);
  }
}
