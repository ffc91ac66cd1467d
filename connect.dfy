/**
 * The first leg of the legacy flow (src/Ukey1/Endpoints/Authentication/Connect.php):
 * register an authorization request (request id, scope, return URL) and
 * receive the connect id and the gateway URL the user is sent to. A gateway
 * URL whose expiration is not after `now` is refused.
 */
module ConnectEndpoint {
  import opened Wrappers
  import opened Values
  import opened Exceptions
  import opened Platform
  import opened Results
  import opened Requests
  import opened AppConfig
  import opened Endpoint

  const ENDPOINT := "/auth/connect"

  /** The request body: exactly the three fields the caller set (null where unset). */
  function ConnectBody(requestId: Value, scope: Value, returnUrl: Value): map<string, Value> {
    map["request_id" := requestId, "scope" := scope, "return_url" := returnUrl]
  }

  /** What a successful connect call yields. */
  datatype Gateway = Gateway(connectId: Value, url: Value)

  /**
   * The checks on the decoded response: connect_id, gateway.url and
   * gateway.expiration must be set, and the expiration must be strictly
   * after now.
   */
  function GatewayOf(f: Fetched, strtotime: Value -> Option<int>, now: int): (r: Result<Gateway, Error>)
    ensures var gateway := Lookup(f.data, "gateway");
      var complete := Isset(f.data, "connect_id") && Member(gateway, "url") != Null && Member(gateway, "expiration") != Null;
      !complete ==> r == Failure(InvalidStructure(f.body))
    ensures var gateway := Lookup(f.data, "gateway");
      var complete := Isset(f.data, "connect_id") && Member(gateway, "url") != Null && Member(gateway, "expiration") != Null;
      var t := strtotime(Member(gateway, "expiration"));
      && (r.Success? <==> complete && t.Some? && t.value > now)
      && (r.Success? ==> r.value == Gateway(f.data["connect_id"], Member(gateway, "url")))
      && (r.Failure? && complete ==> r.error == GatewayExpired)
  {
    var gateway := Lookup(f.data, "gateway");
    if !(Isset(f.data, "connect_id") && Member(gateway, "url") != Null && Member(gateway, "expiration") != Null) then
      Failure(InvalidStructure(f.body))
    else
      var valid := match strtotime(Member(gateway, "expiration"))
        case None => false
        case Some(t) => CheckExpiration(t, now);
      if !valid then Failure(GatewayExpired)
      else Success(Gateway(f.data["connect_id"], Member(gateway, "url")))
  }

  /** The call and the checks together, for the n-th request the transport sees. */
  function Register(s: Settings, body: map<string, Value>, rt: Runtime, respond: (HttpRequest, nat) -> Reply, n: nat, now: int): Result<Gateway, Error> {
    var f :- Fetch(s, body, rt, respond, n);
    GatewayOf(f, rt.strtotime, now)
  }

  class Connect {
    const app: App
    var requestId: Value
    var returnUrl: Value
    var scope: Value
    var connectId: Value
    var gatewayUrl: Value

    constructor (app: App)
      requires app.Complete()
      ensures this.app == app
      ensures requestId == Null && returnUrl == Null && scope == Null
      ensures connectId == Null && gatewayUrl == Null
    {
      this.app := app;
      requestId, returnUrl, scope, connectId, gatewayUrl := Null, Null, Null, Null, Null;
    }

    /** Construction through the common endpoint constructor, which rejects an incomplete app. */
    static method New(app: App) returns (r: Result<Connect, Error>)
      ensures r.Success? <==> app.Complete()
      ensures r.Failure? ==> r.error == IncompleteApp
      ensures r.Success? ==> fresh(r.value) && r.value.app == app
      ensures r.Success? ==> r.value.connectId == Null && r.value.gatewayUrl == Null
    {
      var _ :- Admit(app);
      var endpoint := new Connect(app);
      return Success(endpoint);
    }

    method SetRequestId(requestId: Value) returns (self: Connect)
      modifies this`requestId
      ensures this.requestId == requestId && self == this
    {
      this.requestId := requestId;
      return this;
    }

    method SetReturnUrl(returnUrl: Value) returns (self: Connect)
      modifies this`returnUrl
      ensures this.returnUrl == returnUrl && self == this
    {
      this.returnUrl := returnUrl;
      return this;
    }

    method SetScope(permissions: seq<Value>) returns (self: Connect)
      modifies this`scope
      ensures scope == List(permissions) && self == this
    {
      scope := List(permissions);
      return this;
    }

    /**
     * `execute`: send the three fields; store the connect id and gateway URL
     * only once both checks on the response have passed.
     */
    method Execute(rt: Runtime, net: Transport, now: int) returns (r: Result<(), Error>)
      modifies this`connectId, this`gatewayUrl, net
      ensures var s := Signed(app, POST, API_VERSION, ENDPOINT, "");
        var body := ConnectBody(requestId, scope, returnUrl);
        var g := Register(s, body, rt, net.respond, |old(net.sent)|, now);
        && net.sent == old(net.sent) + Dispatched(s, body, rt)
        && (g.Failure? ==> r == Failure(g.error) && connectId == old(connectId) && gatewayUrl == old(gatewayUrl))
        && (g.Success? ==> r == Success(()) && connectId == g.value.connectId && gatewayUrl == g.value.url)
    {
      var request := Prepare(app, POST, API_VERSION, ENDPOINT);
      var result :- request.Send(ConnectBody(requestId, scope, returnUrl), 200, rt, net);
      var data :- GetData(result, rt.jsonDecode);
      var gateway :- GatewayOf(Fetched(GetBody(result), data), rt.strtotime, now);
      connectId := gateway.connectId;
      gatewayUrl := gateway.url;
      return Success(());
    }

    function GetId(): Value
      reads this
    {
      connectId
    }

    function GetGatewayUrl(): Value
      reads this
    {
      gatewayUrl
    }
  }

  /** A gateway URL expiring at the very moment of receipt is refused, never exposed. */
  lemma ExpiredGatewayRefused(f: Fetched, strtotime: Value -> Option<int>, now: int)
    requires Isset(f.data, "connect_id")
    requires Member(Lookup(f.data, "gateway"), "url") != Null
    requires Member(Lookup(f.data, "gateway"), "expiration") != Null
    requires strtotime(Member(Lookup(f.data, "gateway"), "expiration")) == Some(now)
    ensures GatewayOf(f, strtotime, now) == Failure(GatewayExpired)
  {
  }
}
