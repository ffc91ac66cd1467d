/**
 * The token response shared by the access-token exchange and the refresh
 * (src/Ukey1/Endpoints/Authentication/AccessToken.php and RefreshToken.php
 * run the same check on it): access_token, expiration and scope are required,
 * refresh_token is optional.
 */
module TokenGrant {
  import opened Wrappers
  import opened Values
  import opened Exceptions
  import opened Platform
  import opened Requests

  /** The four token fields; refreshToken is null when the response carries none. */
  datatype Grant = Grant(accessToken: Value, expiration: Value, scope: Value, refreshToken: Value)

  /** The required-keys check and the values it yields. */
  function GrantOf(f: Fetched): (r: Result<Grant, Error>)
    ensures r.Success? <==>
      Isset(f.data, "access_token") && Isset(f.data, "expiration") && Isset(f.data, "scope")
    ensures r.Failure? ==> r.error == InvalidStructure(f.body)
    ensures r.Success? ==>
      && r.value.accessToken == f.data["access_token"]
      && r.value.expiration == f.data["expiration"]
      && r.value.scope == f.data["scope"]
      && (r.value.refreshToken != Null <==> Isset(f.data, "refresh_token"))
      && (Isset(f.data, "refresh_token") ==> r.value.refreshToken == f.data["refresh_token"])
  {
    if !(Isset(f.data, "access_token") && Isset(f.data, "expiration") && Isset(f.data, "scope")) then
      Failure(InvalidStructure(f.body))
    else
      Success(Grant(f.data["access_token"], f.data["expiration"], f.data["scope"], Lookup(f.data, "refresh_token")))
  }

  /** The call and the check together, for the n-th request the transport sees. */
  function Acquire(s: Settings, body: map<string, Value>, rt: Runtime, respond: (HttpRequest, nat) -> Reply, n: nat): Result<Grant, Error> {
    var f :- Fetch(s, body, rt, respond, n);
    GrantOf(f)
  }

  /**
   * How the access-token exchange stores a grant: the access token,
   * expiration and scope are overwritten; the refresh token only when the
   * response has one.
   */
  function Exchanged(previous: Grant, g: Grant): (r: Grant)
    ensures r.accessToken == g.accessToken && r.expiration == g.expiration && r.scope == g.scope
    ensures g.refreshToken != Null ==> r.refreshToken == g.refreshToken
    ensures g.refreshToken == Null ==> r.refreshToken == previous.refreshToken
  {
    if g.refreshToken != Null then g else g.(refreshToken := previous.refreshToken)
  }
}
