/**
 * Renewing an access token (src/Ukey1/Endpoints/Authentication/RefreshToken.php):
 * the stored refresh token is sent, and a complete response replaces the
 * access token, expiration and scope. The refresh token itself is replaced
 * by the response's or cleared: the old one is never kept.
 */
module RefreshTokenEndpoint {
  import opened Wrappers
  import opened Values
  import opened Exceptions
  import opened Platform
  import opened Results
  import opened Requests
  import opened AppConfig
  import opened Endpoint
  import opened TokenGrant

  const ENDPOINT := "/auth/token/refresh"

  /** The request body: exactly the refresh token. */
  function RefreshBody(refreshToken: Value): map<string, Value> {
    map["refresh_token" := refreshToken]
  }

  class RefreshToken {
    const app: App
    var accessToken: Value
    var expiration: Value
    var refreshToken: Value
    var grantedScope: Value

    function Tokens(): Grant
      reads this
    {
      Grant(accessToken, expiration, grantedScope, refreshToken)
    }

    constructor (app: App)
      requires app.Complete()
      ensures this.app == app && Tokens() == Grant(Null, Null, Null, Null)
    {
      this.app := app;
      accessToken, expiration, refreshToken, grantedScope := Null, Null, Null, Null;
    }

    /** Construction through the common endpoint constructor, which rejects an incomplete app. */
    static method New(app: App) returns (r: Result<RefreshToken, Error>)
      ensures r.Success? <==> app.Complete()
      ensures r.Failure? ==> r.error == IncompleteApp
      ensures r.Success? ==> fresh(r.value) && r.value.app == app && r.value.Tokens() == Grant(Null, Null, Null, Null)
    {
      var _ :- Admit(app);
      var endpoint := new RefreshToken(app);
      return Success(endpoint);
    }

    method SetRefreshToken(refreshToken: Value) returns (self: RefreshToken)
      modifies this`refreshToken
      ensures this.refreshToken == refreshToken && self == this
    {
      this.refreshToken := refreshToken;
      return this;
    }

    /**
     * `execute`: without a truthy refresh token it fails before any request;
     * otherwise a complete response becomes the new token fields.
     */
    method Execute(rt: Runtime, net: Transport) returns (r: Result<(), Error>)
      modifies this`accessToken, this`expiration, this`grantedScope, this`refreshToken, net
      ensures !Truthy(old(refreshToken)) ==>
        r == Failure(NoRefreshToken) && net.sent == old(net.sent) && Tokens() == old(Tokens())
      ensures var s := Signed(app, POST, API_VERSION, ENDPOINT, "");
        var body := RefreshBody(old(refreshToken));
        var g := Acquire(s, body, rt, net.respond, |old(net.sent)|);
        Truthy(old(refreshToken)) ==>
          && net.sent == old(net.sent) + Dispatched(s, body, rt)
          && (g.Failure? ==> r == Failure(g.error) && Tokens() == old(Tokens()))
          && (g.Success? ==> r == Success(()) && Tokens() == g.value)
    {
      if !Truthy(refreshToken) {
        return Failure(NoRefreshToken);
      }
      var request := Prepare(app, POST, API_VERSION, ENDPOINT);
      var result :- request.Send(RefreshBody(refreshToken), 200, rt, net);
      var data :- GetData(result, rt.jsonDecode);
      var grant :- GrantOf(Fetched(GetBody(result), data));
      Store(grant);
      return Success(());
    }

    /** The assignments after a complete response: the refresh token is replaced or cleared. */
    method Store(grant: Grant)
      modifies this`accessToken, this`expiration, this`grantedScope, this`refreshToken
      ensures Tokens() == grant
    {
      accessToken := grant.accessToken;
      expiration := grant.expiration;
      grantedScope := grant.scope;
      if grant.refreshToken != Null {
        refreshToken := grant.refreshToken;
      } else {
        refreshToken := Null;
      }
    }

    function GetAccessToken(): Value
      reads this
    {
      accessToken
    }

    function GetAccessTokenExpiration(): Value
      reads this
    {
      expiration
    }

    function GetRefreshToken(): Value
      reads this
    {
      refreshToken
    }

    function GetScope(): Value
      reads this
    {
      grantedScope
    }
  }
}
