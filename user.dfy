/**
 * The user entity built from a `/me` response (src/Ukey1/User.php). Its
 * fields never change after construction, so it is a value. Every named
 * accessor reads one key of the `user` object and turns a missing or empty
 * value into null.
 */
module UserEntity {
  import opened Values

  datatype User = User(data: map<string, Value>, scope: Value) {

    /** `getScope` and its deprecated alias `scope` */
    function GetScope(): Value {
      scope
    }

    function Scope(): Value {
      GetScope()
    }

    /** `getAll`: the whole `user` object, null when missing. */
    function GetAll(): Value {
      Lookup(data, "user")
    }

    /** `get`: the stored value when it is set and non-empty, otherwise null. */
    function Get(key: string): (v: Value)
      ensures Truthy(Member(GetAll(), key)) ==> v == Member(GetAll(), key)
      ensures !Truthy(Member(GetAll(), key)) ==> v == Null
      ensures v == Null || Truthy(v)
    {
      var stored := Member(GetAll(), key);
      if stored != Null && Truthy(stored) then stored else Null
    }

    function GetId(): Value { Get("id") }
    function Id(): Value { GetId() }
    function GetFirstname(): Value { Get("firstname") }
    function Firstname(): Value { GetFirstname() }
    function GetSurname(): Value { Get("surname") }
    function Surname(): Value { GetSurname() }
    function GetLanguage(): Value { Get("language") }
    function Language(): Value { GetLanguage() }
    function GetCountry(): Value { Get("country") }
    function Country(): Value { GetCountry() }
    function GetEmail(): Value { Get("email") }
    function Email(): Value { GetEmail() }
    function GetImageUrl(): Value { Get("image") }
    function Image(): Value { GetImageUrl() }
  }

  /** The constructor: keeps the whole response and reads its `scope` (null when missing). */
  function FromResponse(responseData: map<string, Value>): (u: User)
    ensures u.data == responseData
    ensures u.GetScope() == Lookup(responseData, "scope")
    ensures u.GetAll() == Lookup(responseData, "user")
  {
    User(responseData, Lookup(responseData, "scope"))
  }

  /** Every named accessor and its deprecated alias read the key the accessor names. */
  lemma Accessors(u: User)
    ensures u.Id() == u.GetId() == u.Get("id")
    ensures u.Firstname() == u.GetFirstname() == u.Get("firstname")
    ensures u.Surname() == u.GetSurname() == u.Get("surname")
    ensures u.Language() == u.GetLanguage() == u.Get("language")
    ensures u.Country() == u.GetCountry() == u.Get("country")
    ensures u.Email() == u.GetEmail() == u.Get("email")
    ensures u.Image() == u.GetImageUrl() == u.Get("image")
  {
  }

  /** A response without a `user` object yields null from every accessor. */
  lemma NoUserObject(responseData: map<string, Value>, key: string)
    requires !Lookup(responseData, "user").Object?
    ensures FromResponse(responseData).Get(key) == Null
  {
  }

  /** `get` never returns an empty string or "0": PHP's `empty` filters them out. */
  lemma EmptyStringsReadAsNull(u: User, key: string)
    requires Member(u.GetAll(), key) == Str("") || Member(u.GetAll(), key) == Str("0")
    ensures u.Get(key) == Null
  {
  }
}
