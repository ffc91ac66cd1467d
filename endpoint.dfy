/**
 * What every endpoint shares (src/Ukey1/Endpoint.php): the legacy API version
 * prefix, the guard run by the common constructor, and the expiry comparison.
 * Timestamps are integers; parsing them is the runtime's `strtotime`.
 */
module Endpoint {
  import opened Wrappers
  import opened Exceptions
  import opened AppConfig
  import opened Requests

  const API_VERSION := "/v1"

  /**
   * The common constructor stores the app and then runs its `check`, so an
   * endpoint object only comes into existence for a complete app.
   */
  function Admit(app: App): (r: Result<App, Error>)
    reads app
    ensures r.Success? <==> app.Complete()
    ensures r.Success? ==> r.value == app
    ensures r.Failure? ==> r.error == IncompleteApp
  {
    var _ :- app.Check();
    Success(app)
  }

  /**
   * The fields an endpoint gives its request: the app's host and
   * credentials, plus the method, version, path and access token it chooses.
   */
  function Signed(app: App, httpMethod: string, version: string, endpoint: string, accessToken: string): Settings
    reads app
  {
    Settings(httpMethod, app.host, version, endpoint, app.appId, app.secretKey, accessToken)
  }

  /**
   * The setter chain every endpoint runs on a new request:
   * `setHost($app->host())->setVersion(...)->setEndpoint(...)->setCredentials(...)`.
   * The v2 endpoints set no version, which leaves it as the empty string.
   */
  method Prepare(app: App, httpMethod: string, version: string, endpoint: string) returns (request: Request)
    ensures fresh(request)
    ensures request.Current() == Signed(app, httpMethod, version, endpoint, "")
  {
    request := new Request(httpMethod);
    var _ := request.SetHost(app.host);
    var _ := request.SetVersion(version);
    var _ := request.SetEndpoint(endpoint);
    var _ := request.SetCredentials(app.appId, app.secretKey);
  }

  /** `checkExpiration`: still valid only while the expiry is strictly later than now. */
  function CheckExpiration(expiration: int, now: int): (valid: bool)
    ensures valid <==> now < expiration
  {
    expiration > now
  }

  /** The boundary: an expiry equal to now already counts as expired. */
  lemma ExpiredAtBoundary(t: int)
    ensures !CheckExpiration(t, t) && CheckExpiration(t + 1, t)
  {
  }
}
