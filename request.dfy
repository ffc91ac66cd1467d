/**
 * One signed request to the gateway (src/Ukey1/ApiClient/Request.php): fluent
 * setters for its fields, the JSON body, the bcrypt signature over a fixed
 * concatenation, the header array, and `send`, which hands all of it to the
 * transport. Unset fields are the empty string, as PHP's null reads in a
 * concatenation.
 */
module Requests {
  import opened Wrappers
  import opened Values
  import opened Exceptions
  import opened Platform
  import opened Results
  import AppConfig

  const GET := "GET"
  const POST := "POST"
  const TIMEOUT := 10
  const USER_AGENT := "ukey1-php-sdk/"

  /** The fields of a request at the moment it is sent. */
  datatype Settings = Settings(
    httpMethod: string,
    host: string,
    version: string,
    endpoint: string,
    appId: string,
    secretKey: string,
    accessToken: string)

  /** `createJsonBody`: JSON only for a non-empty body on a method other than GET. */
  function CreateJsonBody(httpMethod: string, body: map<string, Value>, encode: map<string, Value> -> string): (json: Option<string>)
    ensures json.Some? <==> |body| > 0 && httpMethod != GET
    ensures json.Some? ==> json.value == encode(body)
  {
    if |body| > 0 && httpMethod != GET then Some(encode(body)) else None
  }

  /** The password whose bcrypt hash is the signature. */
  function SignaturePreimage(s: Settings, json: Option<string>): (p: string)
    ensures var base := s.version + s.endpoint + s.httpMethod + s.appId + s.secretKey;
      |base| <= |p| && p[..|base|] == base
    ensures Filled(s.accessToken) ==> |s.accessToken| <= |p| && p[|p| - |s.accessToken|..] == s.accessToken
  {
    var base := s.version + s.endpoint + s.httpMethod + s.appId + s.secretKey;
    var password := if json.Some? && Filled(json.value) then base + json.value else base;
    assert password[..|base|] == base;
    if Filled(s.accessToken) then
      assert (password + s.accessToken)[..|base|] == password[..|base|];
      password + s.accessToken
    else password
  }

  /** `createSignature`: fails when bcrypt is unavailable, otherwise hashes the preimage. */
  function CreateSignature(s: Settings, json: Option<string>, rt: Runtime): (r: Result<string, Error>)
    ensures r.Failure? <==> !rt.hasPasswordHash
    ensures r.Failure? ==> r.error == HashUnavailable
    ensures r.Success? ==> r.value == rt.passwordHash(SignaturePreimage(s, json))
  {
    if !rt.hasPasswordHash then Failure(HashUnavailable)
    else Success(rt.passwordHash(SignaturePreimage(s, json)))
  }

  /** `prepareUserAgent` */
  function UserAgent(rt: Runtime): (agent: string)
    ensures |"ukey1-php-sdk/1.0.0"| < |agent| && agent[..|"ukey1-php-sdk/1.0.0"|] == "ukey1-php-sdk/1.0.0"
  {
    assert USER_AGENT + AppConfig.SDK_VERSION + " " + rt.guzzleUserAgent ==
           "ukey1-php-sdk/1.0.0" + (" " + rt.guzzleUserAgent);
    USER_AGENT + AppConfig.SDK_VERSION + " " + rt.guzzleUserAgent
  }

  /** `prepareHeaders`: the app and signature headers, and Authorization when there is a token. */
  function PrepareHeaders(s: Settings, signature: string, headers: map<string, Header>): (h: map<string, Header>)
    ensures "x-ukey1-app" in h && "x-ukey1-signature" in h
    ensures "Authorization" in h <==> Filled(s.accessToken) || "Authorization" in headers
    ensures h["x-ukey1-app"] == Text(s.appId) && h["x-ukey1-signature"] == Text(signature)
    ensures Filled(s.accessToken) ==> h["Authorization"] == Text("UKEY1 " + s.accessToken)
  {
    var headers := headers["x-ukey1-app" := Text(s.appId)]["x-ukey1-signature" := Text(signature)];
    if Filled(s.accessToken) then headers["Authorization" := Text("UKEY1 " + s.accessToken)] else headers
  }

  /** `prepareHeaders` only adds: every predefined header other than the three it sets is kept. */
  lemma PrepareHeadersKeeps(s: Settings, signature: string, headers: map<string, Header>)
    ensures var h := PrepareHeaders(s, signature, headers);
      && h.Keys == headers.Keys + {"x-ukey1-app", "x-ukey1-signature"} + (if Filled(s.accessToken) then {"Authorization"} else {})
      && forall k :: k in headers && k != "x-ukey1-app" && k != "x-ukey1-signature" && k != "Authorization" ==> h[k] == headers[k]
  {
  }

  /** The request `send` hands to the transport once the signature exists. */
  function Wire(s: Settings, body: map<string, Value>, rt: Runtime): (w: HttpRequest)
    ensures w.httpMethod == s.httpMethod && w.baseUri == s.host
    ensures w.target == s.version + s.endpoint
    ensures w.timeout == TIMEOUT && !w.allowRedirects
    ensures w.body == CreateJsonBody(s.httpMethod, body, rt.jsonEncode)
    ensures w.body.Some? <==> |body| > 0 && s.httpMethod != GET
  {
    var json := CreateJsonBody(s.httpMethod, body, rt.jsonEncode);
    var headers := map["User-Agent" := Text(UserAgent(rt))];
    var headers := if |body| > 0 then
      headers["Content-Type" := Text("application/json")]["Content-Length" := Number(|json.GetOr("")|)]
    else headers;
    HttpRequest(s.httpMethod, s.host, s.version + s.endpoint, TIMEOUT, false,
                PrepareHeaders(s, rt.passwordHash(SignaturePreimage(s, json)), headers), json)
  }

  /** The requests `send` dispatches: none when bcrypt is unavailable, otherwise exactly one. */
  function Dispatched(s: Settings, body: map<string, Value>, rt: Runtime): (sent: seq<HttpRequest>)
    ensures |sent| <= 1
    ensures |sent| == 1 <==> rt.hasPasswordHash
    ensures rt.hasPasswordHash ==> sent == [Wire(s, body, rt)]
  {
    if rt.hasPasswordHash then [Wire(s, body, rt)] else []
  }

  /** The raw body and the checked data of a call. */
  datatype Fetched = Fetched(body: string, data: map<string, Value>)

  /**
   * `send` followed by `getData`, as every endpoint does it, when the call
   * is the n-th one the transport has seen.
   */
  function Fetch(s: Settings, body: map<string, Value>, rt: Runtime, respond: (HttpRequest, nat) -> Reply, n: nat): (r: Result<Fetched, Error>)
    ensures !rt.hasPasswordHash ==> r == Failure(HashUnavailable)
    ensures r.Success? ==> rt.hasPasswordHash && respond(Wire(s, body, rt), n).Delivered?
    ensures r.Success? ==> r.value.body == respond(Wire(s, body, rt), n).response.body
    ensures var reply := respond(Wire(s, body, rt), n);
      rt.hasPasswordHash && reply.TransferError? ==> r == Failure(TransferFailed(reply.message))
    ensures var reply := respond(Wire(s, body, rt), n);
      var data := if reply.Delivered? then GetData(ApiResult(reply.response), rt.jsonDecode) else Failure(HashUnavailable);
      && (r.Success? <==> rt.hasPasswordHash && reply.Delivered? && data.Success?)
      && (r.Success? ==> r.value.data == data.value)
      && (rt.hasPasswordHash && reply.Delivered? && data.Failure? ==> r == Failure(data.error))
  {
    if !rt.hasPasswordHash then Failure(HashUnavailable)
    else
      var result :- Receive(respond(Wire(s, body, rt), n), 200);
      var data :- GetData(result, rt.jsonDecode);
      Success(Fetched(GetBody(result), data))
  }

  /** The signature headers, always present, and Authorization exactly when there is a token. */
  lemma WireSignatureHeaders(s: Settings, body: map<string, Value>, rt: Runtime)
    ensures var w := Wire(s, body, rt);
      var json := CreateJsonBody(s.httpMethod, body, rt.jsonEncode);
      && w.headers["x-ukey1-app"] == Text(s.appId)
      && w.headers["x-ukey1-signature"] == Text(rt.passwordHash(SignaturePreimage(s, json)))
      && ("Authorization" in w.headers <==> Filled(s.accessToken))
      && (Filled(s.accessToken) ==> w.headers["Authorization"] == Text("UKEY1 " + s.accessToken))
  {
  }

  /** User-Agent always starts with the SDK's name and version. */
  lemma WireUserAgent(s: Settings, body: map<string, Value>, rt: Runtime)
    ensures var w := Wire(s, body, rt);
      && "User-Agent" in w.headers && w.headers["User-Agent"].Text?
      && w.headers["User-Agent"].text[..|"ukey1-php-sdk/1.0.0"|] == "ukey1-php-sdk/1.0.0"
  {
    var agent := UserAgent(rt);
    assert agent == "ukey1-php-sdk/1.0.0" + (" " + rt.guzzleUserAgent);
  }

  /** The content headers exist exactly for a non-empty body; Content-Length is the JSON's length. */
  lemma WireContentHeaders(s: Settings, body: map<string, Value>, rt: Runtime)
    ensures var w := Wire(s, body, rt);
      var json := CreateJsonBody(s.httpMethod, body, rt.jsonEncode);
      && ("Content-Type" in w.headers <==> |body| > 0)
      && ("Content-Length" in w.headers <==> |body| > 0)
      && (|body| > 0 ==>
            w.headers["Content-Type"] == Text("application/json") &&
            w.headers["Content-Length"] == Number(|json.GetOr("")|))
  {
  }

  /** No header other than these is ever sent. */
  lemma WireHeaderNames(s: Settings, body: map<string, Value>, rt: Runtime)
    ensures Wire(s, body, rt).headers.Keys ==
      {"User-Agent", "x-ukey1-app", "x-ukey1-signature"}
      + (if |body| > 0 then {"Content-Type", "Content-Length"} else {})
      + (if Filled(s.accessToken) then {"Authorization"} else {})
  {
  }

  /**
   * The preimage is the five fixed fields in order, then the JSON body if
   * truthy, then the access token if truthy.
   */
  lemma PreimageLayout(s: Settings, json: Option<string>)
    ensures var base := s.version + s.endpoint + s.httpMethod + s.appId + s.secretKey;
      var p := SignaturePreimage(s, json);
      var j := if json.Some? && Filled(json.value) then json.value else "";
      var t := if Filled(s.accessToken) then s.accessToken else "";
      && p == base + j + t
      && p[..|base|] == base
      && p[|s.version + s.endpoint + s.httpMethod + s.appId|..|base|] == s.secretKey
      && p[|p| - |t|..] == t
  {
    var base := s.version + s.endpoint + s.httpMethod + s.appId + s.secretKey;
    var j := if json.Some? && Filled(json.value) then json.value else "";
    var t := if Filled(s.accessToken) then s.accessToken else "";
    assert base + j + t == base + (j + t);
    assert (base + (j + t))[..|base|] == base;
    assert base == (s.version + s.endpoint + s.httpMethod + s.appId) + s.secretKey;
  }

  class Request {
    var httpMethod: string
    var host: string
    var version: string
    var endpoint: string
    var appId: string
    var secretKey: string
    var accessToken: string

    /** The request's fields as a value. */
    function Current(): Settings
      reads this
    {
      Settings(httpMethod, host, version, endpoint, appId, secretKey, accessToken)
    }

    constructor (httpMethod: string)
      ensures Current() == Settings(httpMethod, "", "", "", "", "", "")
    {
      this.httpMethod := httpMethod;
      host, version, endpoint, appId, secretKey, accessToken := "", "", "", "", "", "";
    }

    method SetHost(host: string) returns (self: Request)
      modifies this`host
      ensures this.host == host && self == this
    {
      this.host := host;
      return this;
    }

    method SetVersion(version: string) returns (self: Request)
      modifies this`version
      ensures this.version == version && self == this
    {
      this.version := version;
      return this;
    }

    method SetEndpoint(endpoint: string) returns (self: Request)
      modifies this`endpoint
      ensures this.endpoint == endpoint && self == this
    {
      this.endpoint := endpoint;
      return this;
    }

    method SetCredentials(appId: string, secretKey: string) returns (self: Request)
      modifies this`appId, this`secretKey
      ensures this.appId == appId && this.secretKey == secretKey && self == this
    {
      this.appId := appId;
      this.secretKey := secretKey;
      return this;
    }

    method SetAccessToken(accessToken: string) returns (self: Request)
      modifies this`accessToken
      ensures this.accessToken == accessToken && self == this
    {
      this.accessToken := accessToken;
      return this;
    }

    /**
     * `send`: build the JSON body and the signature, assemble the headers and
     * options step by step, and dispatch. Without bcrypt nothing is sent.
     */
    method Send(body: map<string, Value>, expectedStatus: int, rt: Runtime, net: Transport) returns (r: Result<ApiResult, Error>)
      modifies net
      ensures net.sent == old(net.sent) + Dispatched(Current(), body, rt)
      ensures !rt.hasPasswordHash ==> r == Failure(HashUnavailable)
      ensures rt.hasPasswordHash ==>
        r == Receive(net.respond(Wire(Current(), body, rt), |old(net.sent)|), expectedStatus)
    {
      var json := CreateJsonBody(httpMethod, body, rt.jsonEncode);
      var signature :- CreateSignature(Current(), json, rt);

      var headers: map<string, Header> := map[];
      headers := headers["User-Agent" := Text(UserAgent(rt))];
      var payload: Option<string> := None;
      if |body| > 0 {
        headers := headers["Content-Type" := Text("application/json")];
        headers := headers["Content-Length" := Number(|json.GetOr("")|)];
        payload := json;
      }
      headers := PrepareHeaders(Current(), signature, headers);

      var request := HttpRequest(httpMethod, host, version + endpoint, TIMEOUT, false, headers, payload);
      assert request == Wire(Current(), body, rt);
      var reply := net.Dispatch(request);
      r := Receive(reply, expectedStatus);
    }
  }
}
