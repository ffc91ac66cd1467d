/**
 * Registering and removing extranet users
 * (src/Ukey1/Endpoints/Authentication/ExtranetUsers.php): with an email and a
 * locale the endpoint creates a user and receives its reference id; with only
 * a reference id it deletes that user. An `executed` flag makes each run at
 * most once until a setter resets it. The source reads the app through
 * `getHost`, `getAppId` and `getSecretKey`, which App.php does not declare;
 * they are modelled as the host, App ID and secret key. `Request::DELETE` is
 * not declared either and is modelled as the method "DELETE".
 */
module ExtranetUsersEndpoint {
  import opened Wrappers
  import opened Values
  import opened Exceptions
  import opened Platform
  import opened Results
  import opened Requests
  import opened AppConfig
  import opened Endpoint

  const ENDPOINT := "/auth/v2/extranet/users"
  const STATUS_CONNECTED := "connected"
  const STATUS_EMAIL_SENT := "email-sent"
  const DELETE := "DELETE"

  /** The create request's body: email and locale. */
  function CreateBody(email: Value, locale: Value): map<string, Value> {
    map["email" := email, "locale" := locale]
  }

  /** The delete request's body: only the reference id. */
  function DeleteBody(referenceId: Value): map<string, Value> {
    map["reference_id" := referenceId]
  }

  /** What a successful create yields. */
  datatype Created = Created(status: Value, referenceId: Value)

  /** The create response must carry reference_id; status is read as it is (null when missing). */
  function CreatedOf(f: Fetched): (r: Result<Created, Error>)
    ensures r.Success? <==> Isset(f.data, "reference_id")
    ensures r.Failure? ==> r.error == InvalidStructure(f.body)
    ensures r.Success? ==> r.value.referenceId == f.data["reference_id"] && r.value.status == Lookup(f.data, "status")
  {
    if !Isset(f.data, "reference_id") then Failure(InvalidStructure(f.body))
    else Success(Created(Lookup(f.data, "status"), f.data["reference_id"]))
  }

  /** The create call and its check, for the n-th request the transport sees. */
  function CreateOutcome(s: Settings, body: map<string, Value>, rt: Runtime, respond: (HttpRequest, nat) -> Reply, n: nat): Result<Created, Error> {
    var f :- Fetch(s, body, rt, respond, n);
    CreatedOf(f)
  }

  /** The delete call: only the envelope check of `getData`. */
  function DeleteOutcome(s: Settings, body: map<string, Value>, rt: Runtime, respond: (HttpRequest, nat) -> Reply, n: nat): Result<(), Error> {
    var _ :- Fetch(s, body, rt, respond, n);
    Success(())
  }

  class ExtranetUsers {
    const app: App
    var email: Value
    var locale: Value
    var status: Value
    var referenceId: Value
    var executed: bool

    /** The fields `execute` may change, as a value. */
    function Outcome(): (Value, Value, bool)
      reads this
    {
      (status, referenceId, executed)
    }

    /** `execute` takes the create branch. */
    predicate Creates()
      reads this
    {
      Truthy(email) && Truthy(locale)
    }

    /** `execute` takes the delete branch. */
    predicate Deletes()
      reads this
    {
      !Creates() && Truthy(referenceId)
    }

    function CreateSettings(): Settings
      reads this, app
    {
      Signed(app, POST, "", ENDPOINT, "")
    }

    function DeleteSettings(): Settings
      reads this, app
    {
      Signed(app, DELETE, "", ENDPOINT, "")
    }

    constructor (app: App)
      requires app.Complete()
      ensures this.app == app && !executed
      ensures email == Null && locale == Null && status == Null && referenceId == Null
    {
      this.app := app;
      email, locale, status, referenceId := Null, Null, Null, Null;
      executed := false;
    }

    /** Construction through the common endpoint constructor, which rejects an incomplete app. */
    static method New(app: App) returns (r: Result<ExtranetUsers, Error>)
      ensures r.Success? <==> app.Complete()
      ensures r.Failure? ==> r.error == IncompleteApp
      ensures r.Success? ==> fresh(r.value) && r.value.app == app && !r.value.executed
    {
      var _ :- Admit(app);
      var endpoint := new ExtranetUsers(app);
      return Success(endpoint);
    }

    /** `setEmail` also forgets the reference id and re-arms the endpoint. */
    method SetEmail(email: Value) returns (self: ExtranetUsers)
      modifies this`email, this`referenceId, this`executed
      ensures this.email == email && referenceId == Null && !executed && self == this
    {
      this.email := email;
      referenceId := Null;
      executed := false;
      return this;
    }

    method SetLocale(locale: Value) returns (self: ExtranetUsers)
      modifies this`locale
      ensures this.locale == locale && self == this
    {
      this.locale := locale;
      return this;
    }

    /** `setReferenceId` also forgets the email and re-arms the endpoint. */
    method SetReferenceId(referenceId: Value) returns (self: ExtranetUsers)
      modifies this`referenceId, this`email, this`executed
      ensures this.referenceId == referenceId && email == Null && !executed && self == this
    {
      this.referenceId := referenceId;
      email := Null;
      executed := false;
      return this;
    }

    /** `execute`: create when email and locale are set, else delete when a reference id is set, else nothing. */
    method Execute(rt: Runtime, net: Transport) returns (r: Result<(), Error>)
      modifies this`status, this`referenceId, this`executed, net
      ensures old(executed) || !(old(Creates()) || old(Deletes())) ==>
        r == Success(()) && net.sent == old(net.sent) && Outcome() == old(Outcome())
      ensures var s := CreateSettings();
        var body := CreateBody(email, locale);
        var c := CreateOutcome(s, body, rt, net.respond, |old(net.sent)|);
        !old(executed) && old(Creates()) ==>
          && net.sent == old(net.sent) + Dispatched(s, body, rt)
          && (c.Failure? ==> r == Failure(c.error) && Outcome() == old(Outcome()))
          && (c.Success? ==> r == Success(()) && Outcome() == (c.value.status, c.value.referenceId, true))
      ensures var s := DeleteSettings();
        var body := DeleteBody(old(referenceId));
        var d := DeleteOutcome(s, body, rt, net.respond, |old(net.sent)|);
        !old(executed) && old(Deletes()) ==>
          && net.sent == old(net.sent) + Dispatched(s, body, rt)
          && (d.Failure? ==> r == Failure(d.error) && Outcome() == old(Outcome()))
          && (d.Success? ==> r == Success(()) && Outcome() == (status, referenceId, true))
          && status == old(status) && referenceId == old(referenceId)
    {
      if Truthy(email) && Truthy(locale) {
        r := Create(rt, net);
      } else if Truthy(referenceId) {
        r := Delete(rt, net);
      } else {
        r := Success(());
      }
    }

    /** `create`: a no-op once executed; otherwise send email and locale and store the reply. */
    method Create(rt: Runtime, net: Transport) returns (r: Result<(), Error>)
      modifies this`status, this`referenceId, this`executed, net
      ensures old(executed) ==> r == Success(()) && net.sent == old(net.sent) && Outcome() == old(Outcome())
      ensures var s := CreateSettings();
        var body := CreateBody(email, locale);
        var c := CreateOutcome(s, body, rt, net.respond, |old(net.sent)|);
        !old(executed) ==>
          && net.sent == old(net.sent) + Dispatched(s, body, rt)
          && (c.Failure? ==> r == Failure(c.error) && Outcome() == old(Outcome()))
          && (c.Success? ==> r == Success(()) && Outcome() == (c.value.status, c.value.referenceId, true))
    {
      if executed {
        return Success(());
      }
      var request := Prepare(app, POST, "", ENDPOINT);
      var result :- request.Send(CreateBody(email, locale), 200, rt, net);
      var data :- GetData(result, rt.jsonDecode);
      var created :- CreatedOf(Fetched(GetBody(result), data));
      Record(created);
      return Success(());
    }

    /** The assignments after a response with a reference id. */
    method Record(created: Created)
      modifies this`status, this`referenceId, this`executed
      ensures Outcome() == (created.status, created.referenceId, true)
    {
      status := created.status;
      referenceId := created.referenceId;
      executed := true;
    }

    /** `delete`: a no-op once executed; otherwise send the reference id and mark executed once the envelope checks. */
    method Delete(rt: Runtime, net: Transport) returns (r: Result<(), Error>)
      modifies this`executed, net
      ensures old(executed) ==> r == Success(()) && net.sent == old(net.sent) && executed
      ensures var s := DeleteSettings();
        var body := DeleteBody(referenceId);
        var d := DeleteOutcome(s, body, rt, net.respond, |old(net.sent)|);
        !old(executed) ==>
          && net.sent == old(net.sent) + Dispatched(s, body, rt)
          && (d.Failure? ==> r == Failure(d.error) && !executed)
          && (d.Success? ==> r == Success(()) && executed)
    {
      if executed {
        return Success(());
      }
      var request := Prepare(app, DELETE, "", ENDPOINT);
      var result :- request.Send(DeleteBody(referenceId), 200, rt, net);
      var _ :- GetData(result, rt.jsonDecode);
      executed := true;
      return Success(());
    }

    /** `getSuccessStatus`: runs `execute` first, then returns the status. */
    method GetSuccessStatus(rt: Runtime, net: Transport) returns (r: Result<Value, Error>)
      modifies this`status, this`referenceId, this`executed, net
      ensures old(executed) || !(old(Creates()) || old(Deletes())) ==>
        r == Success(status) && net.sent == old(net.sent) && Outcome() == old(Outcome())
      ensures var s := CreateSettings();
        var body := CreateBody(email, locale);
        var c := CreateOutcome(s, body, rt, net.respond, |old(net.sent)|);
        !old(executed) && old(Creates()) ==>
          && net.sent == old(net.sent) + Dispatched(s, body, rt)
          && (c.Failure? ==> r == Failure(c.error))
          && (c.Success? ==> r == Success(c.value.status))
      ensures var s := DeleteSettings();
        var body := DeleteBody(old(referenceId));
        var d := DeleteOutcome(s, body, rt, net.respond, |old(net.sent)|);
        !old(executed) && old(Deletes()) ==>
          && net.sent == old(net.sent) + Dispatched(s, body, rt)
          && (d.Failure? ==> r == Failure(d.error))
          && (d.Success? ==> r == Success(old(status)))
      ensures r.Success? ==> r.value == status && (executed || !(Creates() || Deletes()))
      ensures |old(net.sent)| <= |net.sent| <= |old(net.sent)| + 1
    {
      var _ :- Execute(rt, net);
      return Success(status);
    }

    /** `getReferenceId`: runs `execute` first, then returns the reference id. */
    method GetReferenceId(rt: Runtime, net: Transport) returns (r: Result<Value, Error>)
      modifies this`status, this`referenceId, this`executed, net
      ensures old(executed) || !(old(Creates()) || old(Deletes())) ==>
        r == Success(referenceId) && net.sent == old(net.sent) && Outcome() == old(Outcome())
      ensures var s := CreateSettings();
        var body := CreateBody(email, locale);
        var c := CreateOutcome(s, body, rt, net.respond, |old(net.sent)|);
        !old(executed) && old(Creates()) ==>
          && net.sent == old(net.sent) + Dispatched(s, body, rt)
          && (c.Failure? ==> r == Failure(c.error))
          && (c.Success? ==> r == Success(c.value.referenceId))
      ensures var s := DeleteSettings();
        var body := DeleteBody(old(referenceId));
        var d := DeleteOutcome(s, body, rt, net.respond, |old(net.sent)|);
        !old(executed) && old(Deletes()) ==>
          && net.sent == old(net.sent) + Dispatched(s, body, rt)
          && (d.Failure? ==> r == Failure(d.error))
          && (d.Success? ==> r == Success(old(referenceId)))
      ensures r.Success? ==> r.value == referenceId && (executed || !(Creates() || Deletes()))
      ensures |old(net.sent)| <= |net.sent| <= |old(net.sent)| + 1
    {
      var _ :- Execute(rt, net);
      return Success(referenceId);
    }
  }

  /**
   * Reading both results: after the first successful getter, the second
   * issues no request and agrees with the first call's state.
   */
  method ReadBoth(e: ExtranetUsers, rt: Runtime, net: Transport) returns (status: Result<Value, Error>, reference: Result<Value, Error>)
    modifies e`status, e`referenceId, e`executed, net
    ensures |net.sent| <= |old(net.sent)| + 2
    ensures status.Success? ==> |net.sent| <= |old(net.sent)| + 1 && reference == Success(e.referenceId)
  {
    status := e.GetSuccessStatus(rt, net);
    reference := e.GetReferenceId(rt, net);
  }
}
