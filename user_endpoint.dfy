/**
 * Reading the signed-in user (src/Ukey1/Endpoints/Authentication/User.php):
 * a GET on the v1 `/me` path with the access token attached, whose raw body
 * is returned and whose data becomes the user entity.
 */
module UserEndpoint {
  import opened Wrappers
  import opened Values
  import opened Exceptions
  import opened Platform
  import opened Results
  import opened Requests
  import opened AppConfig
  import opened Endpoint
  import UserEntity

  const ENDPOINT := "/me"

  class User {
    const app: App
    var accessToken: string
    /** The decoded response; None until `execute` succeeds (PHP's null). */
    var resultData: Option<map<string, Value>>

    function Outgoing(): Settings
      reads this, app
    {
      Signed(app, GET, API_VERSION, ENDPOINT, accessToken)
    }

    constructor (app: App)
      requires app.Complete()
      ensures this.app == app && accessToken == "" && resultData == None
    {
      this.app := app;
      accessToken := "";
      resultData := None;
    }

    /** Construction through the common endpoint constructor, which rejects an incomplete app. */
    static method New(app: App) returns (r: Result<User, Error>)
      ensures r.Success? <==> app.Complete()
      ensures r.Failure? ==> r.error == IncompleteApp
      ensures r.Success? ==> fresh(r.value) && r.value.app == app && r.value.resultData == None
    {
      var _ :- Admit(app);
      var endpoint := new User(app);
      return Success(endpoint);
    }

    method SetAccessToken(accessToken: string) returns (self: User)
      modifies this`accessToken
      ensures this.accessToken == accessToken && self == this
    {
      this.accessToken := accessToken;
      return this;
    }

    /**
     * `execute`: without a truthy access token it fails before any request;
     * otherwise it returns the raw body and keeps the decoded data.
     */
    method Execute(rt: Runtime, net: Transport) returns (r: Result<string, Error>)
      modifies this`resultData, net
      ensures !Filled(accessToken) ==>
        r == Failure(NoAccessToken) && net.sent == old(net.sent) && resultData == old(resultData)
      ensures var s := Outgoing();
        var f := Fetch(s, map[], rt, net.respond, |old(net.sent)|);
        Filled(accessToken) ==>
          && net.sent == old(net.sent) + Dispatched(s, map[], rt)
          && (f.Failure? ==> r == Failure(f.error) && resultData == old(resultData))
          && (f.Success? ==> r == Success(f.value.body) && resultData == Some(f.value.data))
    {
      if !Filled(accessToken) {
        return Failure(NoAccessToken);
      }
      var request := Prepare(app, GET, API_VERSION, ENDPOINT);
      var _ := request.SetAccessToken(accessToken);
      var result :- request.Send(map[], 200, rt, net);
      var raw := GetBody(result);
      var data :- GetData(result, rt.jsonDecode);
      resultData := Some(data);
      return Success(raw);
    }

    /**
     * `getUser`: the entity over the stored data. Before a successful
     * `execute` there is no data and PHP's array type hint rejects the call;
     * that case is None.
     */
    function GetUser(): (u: Option<UserEntity.User>)
      reads this
      ensures u.Some? <==> resultData.Some?
      ensures u.Some? ==> u.value.data == resultData.value && u.value.GetScope() == Lookup(resultData.value, "scope")
    {
      match resultData
      case None => None
      case Some(data) => Some(UserEntity.FromResponse(data))
    }
  }

  /**
   * The usual sequence: set the token, execute, read the user. A successful
   * run leaves an entity whose `user` object is the response's.
   */
  method Me(endpoint: User, accessToken: string, rt: Runtime, net: Transport) returns (r: Result<UserEntity.User, Error>)
    modifies endpoint`accessToken, endpoint`resultData, net
    ensures !Filled(accessToken) ==> r == Failure(NoAccessToken) && net.sent == old(net.sent)
    ensures r.Success? ==> Filled(accessToken) && |net.sent| == |old(net.sent)| + 1
    ensures r.Success? ==> endpoint.resultData.Some? && r.value.GetAll() == Lookup(endpoint.resultData.value, "user")
    ensures var s := Signed(endpoint.app, GET, API_VERSION, ENDPOINT, accessToken);
      var f := Fetch(s, map[], rt, net.respond, |old(net.sent)|);
      Filled(accessToken) ==>
        && net.sent == old(net.sent) + Dispatched(s, map[], rt)
        && (r.Success? <==> f.Success?)
        && (r.Failure? ==> r.error == f.error)
        && (r.Success? ==> r == Success(UserEntity.FromResponse(f.value.data)))
  {
    var _ := endpoint.SetAccessToken(accessToken);
    var _ :- endpoint.Execute(rt, net);
    var u := endpoint.GetUser();
    return Success(u.value);
  }
}
