/**
 * Listing the permissions an app may ask for
 * (src/Ukey1/Endpoints/Authentication/SystemScopes.php): one GET, sent at
 * most once per object, whose response must carry `permissions` and may
 * carry `rejected-permissions`. The access token goes on the request only
 * when it is truthy.
 */
module SystemScopesEndpoint {
  import opened Wrappers
  import opened Values
  import opened Exceptions
  import opened Platform
  import opened Results
  import opened Requests
  import opened AppConfig
  import opened Endpoint

  const ENDPOINT := "/auth/v2/system/scopes"

  /** The access token the request receives: the caller's when truthy, otherwise none. */
  function Attached(accessToken: string): (t: string)
    ensures Filled(accessToken) ==> t == accessToken
    ensures !Filled(accessToken) ==> t == ""
  {
    if Filled(accessToken) then accessToken else ""
  }

  /** What a complete response yields; `rejected` is None when the response does not set it. */
  datatype Permissions = Permissions(available: Value, rejected: Option<Value>)

  /** The response must set `permissions`; `rejected-permissions` is optional. */
  function PermissionsOf(f: Fetched): (r: Result<Permissions, Error>)
    ensures r.Success? <==> Isset(f.data, "permissions")
    ensures r.Failure? ==> r.error == InvalidStructure(f.body)
    ensures r.Success? ==> r.value.available == f.data["permissions"]
    ensures r.Success? ==> (r.value.rejected.Some? <==> Isset(f.data, "rejected-permissions"))
    ensures r.Success? && r.value.rejected.Some? ==> r.value.rejected.value == f.data["rejected-permissions"]
  {
    if !Isset(f.data, "permissions") then Failure(InvalidStructure(f.body))
    else
      var rejected := if Isset(f.data, "rejected-permissions") then Some(f.data["rejected-permissions"]) else None;
      Success(Permissions(f.data["permissions"], rejected))
  }

  /** The GET and its checks, for the n-th request the transport sees. */
  function Query(s: Settings, rt: Runtime, respond: (HttpRequest, nat) -> Reply, n: nat): Result<Permissions, Error> {
    var f :- Fetch(s, map[], rt, respond, n);
    PermissionsOf(f)
  }

  class SystemScopes {
    const app: App
    var accessToken: string
    var scopes: Value
    var rejected: Value
    var executed: bool

    /** The fields `execute` may change, as a value. */
    function Outcome(): (Value, Value, bool)
      reads this
    {
      (scopes, rejected, executed)
    }

    function Outgoing(): Settings
      reads this, app
    {
      Signed(app, GET, "", ENDPOINT, Attached(accessToken))
    }

    constructor (app: App)
      requires app.Complete()
      ensures this.app == app && accessToken == "" && Outcome() == (Null, Null, false)
    {
      this.app := app;
      accessToken := "";
      scopes, rejected, executed := Null, Null, false;
    }

    /** Construction through the common endpoint constructor, which rejects an incomplete app. */
    static method New(app: App) returns (r: Result<SystemScopes, Error>)
      ensures r.Success? <==> app.Complete()
      ensures r.Failure? ==> r.error == IncompleteApp
      ensures r.Success? ==> fresh(r.value) && r.value.app == app && r.value.Outcome() == (Null, Null, false)
    {
      var _ :- Admit(app);
      var endpoint := new SystemScopes(app);
      return Success(endpoint);
    }

    method SetAccessToken(accessToken: string) returns (self: SystemScopes)
      modifies this`accessToken
      ensures this.accessToken == accessToken && self == this
    {
      this.accessToken := accessToken;
      return this;
    }

    /**
     * `execute`: nothing once executed; otherwise one GET, and a response
     * with `permissions` stores them, keeps the previous rejected list unless
     * the response sets one, and marks the object executed.
     */
    method Execute(rt: Runtime, net: Transport) returns (r: Result<(), Error>)
      modifies this`scopes, this`rejected, this`executed, net
      ensures old(executed) ==> r == Success(()) && net.sent == old(net.sent) && Outcome() == old(Outcome())
      ensures var s := Outgoing();
        var p := Query(s, rt, net.respond, |old(net.sent)|);
        !old(executed) ==>
          && net.sent == old(net.sent) + Dispatched(s, map[], rt)
          && (p.Failure? ==> r == Failure(p.error) && Outcome() == old(Outcome()))
          && (p.Success? ==> r == Success(()) && Outcome() == (p.value.available, p.value.rejected.GetOr(old(rejected)), true))
    {
      if executed {
        return Success(());
      }
      var request := Prepare(app, GET, "", ENDPOINT);
      if Filled(accessToken) {
        var _ := request.SetAccessToken(accessToken);
      }
      var result :- request.Send(map[], 200, rt, net);
      var data :- GetData(result, rt.jsonDecode);
      var permissions :- PermissionsOf(Fetched(GetBody(result), data));
      Record(permissions);
      return Success(());
    }

    /** The assignments after a response with permissions. */
    method Record(permissions: Permissions)
      modifies this`scopes, this`rejected, this`executed
      ensures Outcome() == (permissions.available, permissions.rejected.GetOr(old(rejected)), true)
    {
      scopes := permissions.available;
      executed := true;
      if permissions.rejected.Some? {
        rejected := permissions.rejected.value;
      }
    }

    /** `getAvailablePermissions`: runs `execute`, then returns the stored list. */
    method GetAvailablePermissions(rt: Runtime, net: Transport) returns (r: Result<Value, Error>)
      modifies this`scopes, this`rejected, this`executed, net
      ensures old(executed) ==> r == Success(scopes) && net.sent == old(net.sent) && Outcome() == old(Outcome())
      ensures var p := Query(Outgoing(), rt, net.respond, |old(net.sent)|);
        !old(executed) ==>
          && net.sent == old(net.sent) + Dispatched(Outgoing(), map[], rt)
          && (p.Failure? ==> r == Failure(p.error))
          && (p.Success? ==> r == Success(p.value.available))
      ensures r.Success? ==> r.value == scopes && executed
      ensures |old(net.sent)| <= |net.sent| <= |old(net.sent)| + 1
    {
      var _ :- Execute(rt, net);
      return Success(scopes);
    }

    /** `getRejectedPermissions`: runs `execute`, then returns the stored list. */
    method GetRejectedPermissions(rt: Runtime, net: Transport) returns (r: Result<Value, Error>)
      modifies this`scopes, this`rejected, this`executed, net
      ensures old(executed) ==> r == Success(rejected) && net.sent == old(net.sent) && Outcome() == old(Outcome())
      ensures var p := Query(Outgoing(), rt, net.respond, |old(net.sent)|);
        !old(executed) ==>
          && net.sent == old(net.sent) + Dispatched(Outgoing(), map[], rt)
          && (p.Failure? ==> r == Failure(p.error))
          && (p.Success? ==> r == Success(p.value.rejected.GetOr(old(rejected))))
      ensures r.Success? ==> r.value == rejected && executed
      ensures |old(net.sent)| <= |net.sent| <= |old(net.sent)| + 1
    {
      var _ :- Execute(rt, net);
      return Success(rejected);
    }
  }

  /** Once one getter has succeeded, the other sends nothing more. */
  method ReadBoth(e: SystemScopes, rt: Runtime, net: Transport) returns (available: Result<Value, Error>, rejected: Result<Value, Error>)
    modifies e`scopes, e`rejected, e`executed, net
    ensures |net.sent| <= |old(net.sent)| + 2
    ensures available.Success? ==> |net.sent| <= |old(net.sent)| + 1 && rejected == Success(e.rejected)
  {
    available := e.GetAvailablePermissions(rt, net);
    rejected := e.GetRejectedPermissions(rt, net);
  }
}
