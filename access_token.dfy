/**
 * The callback check and the code-for-token exchange of the legacy flow
 * (src/Ukey1/Endpoints/Authentication/AccessToken.php). The gateway redirects
 * back with a `_ukey1` query array holding request_id, connect_id, result and
 * signature; the endpoint accepts it only if both ids match the stored ones
 * and the signature is the SHA-256 of appId, requestId, connectId, status and
 * secret key, and exchanges it for tokens only when the status is
 * "authorized". The query array of the current HTTP request is given at
 * construction.
 */
module AccessTokenEndpoint {
  import opened Wrappers
  import opened Values
  import opened Exceptions
  import opened Platform
  import opened Results
  import opened Requests
  import opened AppConfig
  import opened Endpoint
  import opened TokenGrant

  const ENDPOINT := "/auth/token"
  const UKEY1_GET_PARAM := "_ukey1"
  const STATUS_CANCEL := "cancel"
  const STATUS_AUTHORIZED := "authorized"
  const STATUS_EXPIRED := "expired"

  /** `getParam` over the parameter array: only a truthy string entry is returned. */
  function Param(params: map<string, QueryValue>, key: string): (r: Option<string>)
    ensures r.Some? <==> key in params && params[key].Scalar? && Filled(params[key].text)
    ensures r.Some? ==> r.value == params[key].text
  {
    if key in params && params[key].Scalar? && Filled(params[key].text) then Some(params[key].text) else None
  }

  /**
   * The data whose SHA-256 the gateway signs a callback with: App ID, request
   * id, connect id and status, closed by the secret key.
   */
  function CallbackPreimage(appId: string, requestId: string, connectId: string, status: string, secretKey: string): (p: string)
    ensures |p| == |appId| + |requestId| + |connectId| + |status| + |secretKey|
    ensures p[..|appId|] == appId
    ensures p[|appId|..|appId| + |requestId|] == requestId
    ensures p[|appId| + |requestId|..|appId| + |requestId| + |connectId|] == connectId
    ensures p[|appId| + |requestId| + |connectId|..|p| - |secretKey|] == status
    ensures p[|p| - |secretKey|..] == secretKey
  {
    var p := appId + requestId + connectId + status + secretKey;
    assert p == appId + (requestId + (connectId + status + secretKey));
    assert (requestId + (connectId + status + secretKey))[..|requestId|] == requestId;
    assert p == (appId + requestId) + (connectId + (status + secretKey));
    assert (connectId + (status + secretKey))[..|connectId|] == connectId;
    assert p == (appId + requestId + connectId) + status + secretKey;
    assert p == (appId + requestId + connectId + status) + secretKey;
    p
  }

  /** `checkSignature`: a missing signature reads as the empty string, as PHP's null does in `!=`. */
  function CheckSignature(expected: string, signature: Option<string>): (r: Result<(), Error>)
    ensures r.Success? <==> signature.GetOr("") == expected
    ensures r.Failure? ==> r.error == InvalidSignature
  {
    if signature.GetOr("") != expected then Failure(InvalidSignature) else Success(())
  }

  /**
   * `checkInputs` as a decision over the stored ids, the app's credentials
   * and the callback parameters: the guards run in order (ids set, request
   * id, connect id, signature) and the verdict is whether the status is
   * "authorized".
   */
  function Verdict(appId: string, secretKey: string, requestId: string, connectId: string,
                   params: map<string, QueryValue>, sha256: string -> string): (r: Result<bool, Error>)
    ensures !(Filled(requestId) && Filled(connectId)) ==> r == Failure(MissingIds)
    ensures Filled(requestId) && Filled(connectId) && Param(params, "request_id") != Some(requestId) ==>
      r == Failure(InvalidRequestId)
    ensures (Filled(requestId) && Filled(connectId) && Param(params, "request_id") == Some(requestId) &&
             Param(params, "connect_id") != Some(connectId)) ==> r == Failure(InvalidConnectId)
    ensures (Filled(requestId) && Filled(connectId) && Param(params, "request_id") == Some(requestId) &&
             Param(params, "connect_id") == Some(connectId)) ==>
        var hash := sha256(CallbackPreimage(appId, requestId, connectId, Param(params, "result").GetOr(""), secretKey));
        (r == Failure(InvalidSignature) <==> Param(params, "signature").GetOr("") != hash)
    ensures (Filled(requestId) && Filled(connectId) && Param(params, "request_id") == Some(requestId) &&
             Param(params, "connect_id") == Some(connectId)) ==>
        var hash := sha256(CallbackPreimage(appId, requestId, connectId, Param(params, "result").GetOr(""), secretKey));
        (Param(params, "signature").GetOr("") == hash ==> r == Success(Param(params, "result") == Some(STATUS_AUTHORIZED)))
    ensures r.Success? ==> r.value == (Param(params, "result") == Some(STATUS_AUTHORIZED))
  {
    if !(Filled(requestId) && Filled(connectId)) then Failure(MissingIds)
    else
      var rid := Param(params, "request_id");
      var cid := Param(params, "connect_id");
      var signature := Param(params, "signature");
      var status := Param(params, "result");
      if rid.GetOr("") != requestId then Failure(InvalidRequestId)
      else if cid.GetOr("") != connectId then Failure(InvalidConnectId)
      else
        var _ :- CheckSignature(sha256(CallbackPreimage(appId, requestId, connectId, status.GetOr(""), secretKey)), signature);
        Success(status == Some(STATUS_AUTHORIZED))
  }

  /** The exchange request's body: exactly the two ids. */
  function ExchangeBody(requestId: string, connectId: string): map<string, Value> {
    map["request_id" := Str(requestId), "connect_id" := Str(connectId)]
  }

  class AccessToken {
    const app: App
    /** `$_GET["_ukey1"]` of the current HTTP request, as `filter_input` returns it (empty when absent). */
    const query: map<string, QueryValue>
    var requestId: string
    var connectId: string
    /** The cached parameter array; empty until the first `getParam`. */
    var getParams: map<string, QueryValue>
    var accessToken: Value
    var expiration: Value
    var refreshToken: Value
    var grantedScope: Value

    /** The cache is either not filled yet or holds the query array. */
    ghost predicate Valid()
      reads this
    {
      getParams == map[] || getParams == query
    }

    /** The token fields as a grant. */
    function Tokens(): Grant
      reads this
    {
      Grant(accessToken, expiration, grantedScope, refreshToken)
    }

    constructor (app: App, query: map<string, QueryValue>)
      requires app.Complete()
      ensures Valid() && this.app == app && this.query == query
      ensures requestId == "" && connectId == "" && getParams == map[]
      ensures Tokens() == Grant(Null, Null, Null, Null)
    {
      this.app := app;
      this.query := query;
      requestId, connectId := "", "";
      getParams := map[];
      accessToken, expiration, refreshToken, grantedScope := Null, Null, Null, Null;
    }

    /** Construction through the common endpoint constructor, which rejects an incomplete app. */
    static method New(app: App, query: map<string, QueryValue>) returns (r: Result<AccessToken, Error>)
      ensures r.Success? <==> app.Complete()
      ensures r.Failure? ==> r.error == IncompleteApp
      ensures r.Success? ==> fresh(r.value) && r.value.Valid() && r.value.app == app && r.value.query == query
    {
      var _ :- Admit(app);
      var endpoint := new AccessToken(app, query);
      return Success(endpoint);
    }

    method SetRequestId(requestId: string) returns (self: AccessToken)
      modifies this`requestId
      ensures this.requestId == requestId && self == this
    {
      this.requestId := requestId;
      return this;
    }

    method SetConnectId(connectId: string) returns (self: AccessToken)
      modifies this`connectId
      ensures this.connectId == connectId && self == this
    {
      this.connectId := connectId;
      return this;
    }

    /** `getParam`: the parameter array is read on first use and cached. */
    method GetParam(key: string) returns (v: Option<string>)
      requires Valid()
      modifies this`getParams
      ensures Valid() && getParams == query
      ensures v == Param(query, key)
    {
      if getParams == map[] {
        getParams := query;
      }
      v := Param(getParams, key);
    }

    /** `checkInputs`: the guards in order; the ids are checked before any parameter is read. */
    method CheckInputs(rt: Runtime) returns (r: Result<bool, Error>)
      requires Valid()
      modifies this`getParams
      ensures Valid()
      ensures r == Verdict(app.appId, app.secretKey, requestId, connectId, query, rt.sha256)
      ensures !(Filled(requestId) && Filled(connectId)) ==> getParams == old(getParams)
    {
      if !(Filled(requestId) && Filled(connectId)) {
        return Failure(MissingIds);
      }
      var rid := GetParam("request_id");
      var cid := GetParam("connect_id");
      var signature := GetParam("signature");
      var status := GetParam("result");
      if rid.GetOr("") != requestId {
        return Failure(InvalidRequestId);
      }
      if cid.GetOr("") != connectId {
        return Failure(InvalidConnectId);
      }
      var hash := rt.sha256(CallbackPreimage(app.appId, requestId, connectId, status.GetOr(""), app.secretKey));
      var _ :- CheckSignature(hash, signature);
      return Success(status == Some(STATUS_AUTHORIZED));
    }

    /**
     * `execute`: verify the callback; unless it is an authorized one, return
     * its verdict without any request. Otherwise exchange the ids for tokens
     * and store them.
     */
    method Execute(rt: Runtime, net: Transport) returns (r: Result<bool, Error>)
      requires Valid()
      modifies this`getParams, this`accessToken, this`expiration, this`grantedScope, this`refreshToken, net
      ensures Valid()
      ensures var verdict := Verdict(app.appId, app.secretKey, requestId, connectId, query, rt.sha256);
        verdict != Success(true) ==>
          r == verdict && net.sent == old(net.sent) && Tokens() == old(Tokens())
      ensures var verdict := Verdict(app.appId, app.secretKey, requestId, connectId, query, rt.sha256);
        var s := Signed(app, POST, API_VERSION, ENDPOINT, "");
        var g := Acquire(s, ExchangeBody(requestId, connectId), rt, net.respond, |old(net.sent)|);
        verdict == Success(true) ==>
          && net.sent == old(net.sent) + Dispatched(s, ExchangeBody(requestId, connectId), rt)
          && (g.Failure? ==> r == Failure(g.error) && Tokens() == old(Tokens()))
          && (g.Success? ==> r == Success(true) && Tokens() == Exchanged(old(Tokens()), g.value))
    {
      var check := CheckInputs(rt);
      if check.Failure? {
        return Failure(check.error);
      }
      if !check.value {
        return Success(false);
      }
      r := Redeem(rt, net);
    }

    /** The exchange proper: send the two ids and store the tokens of a complete response. */
    method Redeem(rt: Runtime, net: Transport) returns (r: Result<bool, Error>)
      modifies this`accessToken, this`expiration, this`grantedScope, this`refreshToken, net
      ensures var s := Signed(app, POST, API_VERSION, ENDPOINT, "");
        var g := Acquire(s, ExchangeBody(requestId, connectId), rt, net.respond, |old(net.sent)|);
        && net.sent == old(net.sent) + Dispatched(s, ExchangeBody(requestId, connectId), rt)
        && (g.Failure? ==> r == Failure(g.error) && Tokens() == old(Tokens()))
        && (g.Success? ==> r == Success(true) && Tokens() == Exchanged(old(Tokens()), g.value))
    {
      var request := Prepare(app, POST, API_VERSION, ENDPOINT);
      var body := ExchangeBody(requestId, connectId);
      var result :- request.Send(body, 200, rt, net);
      var data :- GetData(result, rt.jsonDecode);
      var grant :- GrantOf(Fetched(GetBody(result), data));
      Store(grant);
      return Success(true);
    }

    /** The assignments after a complete exchange response. */
    method Store(grant: Grant)
      modifies this`accessToken, this`expiration, this`grantedScope, this`refreshToken
      ensures Tokens() == Exchanged(old(Tokens()), grant)
    {
      accessToken := grant.accessToken;
      expiration := grant.expiration;
      grantedScope := grant.scope;
      if grant.refreshToken != Null {
        refreshToken := grant.refreshToken;
      }
    }

    function GetAccessToken(): Value
      reads this
    {
      accessToken
    }

    function GetAccessTokenExpiration(): Value
      reads this
    {
      expiration
    }

    function GetRefreshToken(): Value
      reads this
    {
      refreshToken
    }

    function GetScope(): Value
      reads this
    {
      grantedScope
    }
  }

  /**
   * A callback with the right ids and signature but a status other than
   * "authorized" (cancel, expired or none) is verified and answers false, so
   * `execute` returns false without an exchange.
   */
  lemma VerifiedNotAuthorized(appId: string, secretKey: string, requestId: string, connectId: string,
                              params: map<string, QueryValue>, sha256: string -> string)
    requires Filled(requestId) && Filled(connectId)
    requires Param(params, "request_id") == Some(requestId) && Param(params, "connect_id") == Some(connectId)
    requires Param(params, "result") != Some(STATUS_AUTHORIZED)
    requires Param(params, "signature").GetOr("") ==
             sha256(CallbackPreimage(appId, requestId, connectId, Param(params, "result").GetOr(""), secretKey))
    ensures Verdict(appId, secretKey, requestId, connectId, params, sha256) == Success(false)
  {
  }

  /** A callback with the right ids but a signature other than the expected hash is never accepted. */
  lemma ForgedSignatureRejected(appId: string, secretKey: string, requestId: string, connectId: string,
                                params: map<string, QueryValue>, sha256: string -> string)
    requires Filled(requestId) && Filled(connectId)
    requires Param(params, "signature").GetOr("") !=
             sha256(CallbackPreimage(appId, requestId, connectId, Param(params, "result").GetOr(""), secretKey))
    ensures Verdict(appId, secretKey, requestId, connectId, params, sha256).Failure?
  {
  }

  /** An exchange happens only for a callback that names both ids, is correctly signed and says "authorized". */
  lemma AuthorizedExactly(appId: string, secretKey: string, requestId: string, connectId: string,
                          params: map<string, QueryValue>, sha256: string -> string)
    ensures Verdict(appId, secretKey, requestId, connectId, params, sha256) == Success(true) <==>
      && Filled(requestId) && Filled(connectId)
      && Param(params, "request_id") == Some(requestId)
      && Param(params, "connect_id") == Some(connectId)
      && Param(params, "result") == Some(STATUS_AUTHORIZED)
      && Param(params, "signature").GetOr("") ==
           sha256(CallbackPreimage(appId, requestId, connectId, STATUS_AUTHORIZED, secretKey))
  {
  }
}
