/**
 * The app's configuration (src/Ukey1/App.php): the API host fixed at
 * construction, and the App ID and secret key behind get-or-set accessors.
 * An unset ID or key reads as the empty string.
 */
module AppConfig {
  import opened Values
  import opened Wrappers
  import opened Exceptions

  const SDK_VERSION := "1.0.0"
  const HOST := "https://ukey1-api.nooledge.com"

  /** What a get-or-set accessor returns: the app itself after setting, or the current value. */
  datatype Access = Chained | Current(value: string)

  class App {
    var host: string
    var appId: string
    var secretKey: string

    /** Both credentials are set (truthy), so `check` passes. */
    predicate Complete()
      reads this
    {
      Filled(appId) && Filled(secretKey)
    }

    /** A falsy host argument (none, "" or "0") falls back to the default host. */
    constructor (host: string)
      ensures this.host == (if Filled(host) then host else HOST)
      ensures appId == "" && secretKey == ""
    {
      this.host := if Filled(host) then host else HOST;
      appId, secretKey := "", "";
    }

    /** `appId($x)`: a truthy argument is stored and the app returned; otherwise the current ID is returned. */
    method AppId(x: string) returns (r: Access)
      modifies this`appId
      ensures Filled(x) ==> appId == x && r == Chained
      ensures !Filled(x) ==> appId == old(appId) && r == Current(old(appId))
    {
      if Filled(x) {
        appId := x;
        return Chained;
      }
      return Current(appId);
    }

    /** `secretKey($x)`: the same get-or-set rule for the secret key. */
    method SecretKey(x: string) returns (r: Access)
      modifies this`secretKey
      ensures Filled(x) ==> secretKey == x && r == Chained
      ensures !Filled(x) ==> secretKey == old(secretKey) && r == Current(old(secretKey))
    {
      if Filled(x) {
        secretKey := x;
        return Chained;
      }
      return Current(secretKey);
    }

    /** `host()`: the host fixed at construction; no method assigns it afterwards. */
    function Host(): string
      reads this
    {
      host
    }

    /** `check()`: fails with AppException unless both credentials are set. */
    function Check(): (r: Result<(), Error>)
      reads this
      ensures r.Success? <==> Filled(appId) && Filled(secretKey)
      ensures r.Failure? ==> r.error == IncompleteApp
    {
      if Filled(appId) && Filled(secretKey) then Success(()) else Failure(IncompleteApp)
    }
  }

  /** Completing an app takes both setters with truthy arguments, and nothing undoes it. */
  method ConfigureApp(host: string, id: string, key: string) returns (app: App)
    ensures fresh(app)
    ensures app.Complete() <==> Filled(id) && Filled(key)
    ensures app.host == (if Filled(host) then host else HOST)
  {
    app := new App(host);
    var _ := app.AppId(id);
    var _ := app.SecretKey(key);
    var _ := app.AppId("");
  }
}
