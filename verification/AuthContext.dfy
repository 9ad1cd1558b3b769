/**
 * The session provider (src/context/authContext.jsx): the session is restored from
 * localStorage's `token` and `user` keys, changed by login, logout and updateUser, and written
 * back to storage by each of them. JSON.parse and JSON.stringify are parameters: parse yields
 * None where JSON.parse throws.
 */
module AuthContext {
  import opened Wrappers
  import opened Js
  import Browser

  /** JSON.parse (None where it throws) and JSON.stringify. */
  datatype JsonCodec = JsonCodec(parse: string -> Option<Value>, stringify: Value -> string)

  /** The three fields getInitialAuthState returns. */
  datatype Session = Session(token: Option<string>, user: Value, isAuthenticated: bool)

  const Unauthenticated := Session(None, Null, false)

  /** A stored string is truthy when non-empty; getItem yields null for a missing key. */
  predicate Stored(items: map<string, string>, key: string) {
    key in items && items[key] != ""
  }

  /**
   * getInitialAuthState: the session it returns and the storage it leaves. A user that fails
   * to parse is treated as corrupted data and both keys are removed.
   */
  function InitialAuthState(items: map<string, string>, parse: string -> Option<Value>): (r: (Session, map<string, string>))
    ensures r.0.isAuthenticated <==> Stored(items, "token") && Stored(items, "user") && parse(items["user"]).Some?
    ensures r.0.isAuthenticated ==> r.0 == Session(Some(items["token"]), parse(items["user"]).value, true)
    ensures !r.0.isAuthenticated ==> r.0 == Unauthenticated
    ensures Stored(items, "token") && Stored(items, "user") && parse(items["user"]).None? ==>
      r.1 == items - {"token", "user"}
    ensures !(Stored(items, "token") && Stored(items, "user") && parse(items["user"]).None?) ==> r.1 == items
  {
    if Stored(items, "token") && Stored(items, "user") then
      match parse(items["user"])
      case Some(user) => (Session(Some(items["token"]), user, true), items)
      case None => (Unauthenticated, items - {"token", "user"})
    else (Unauthenticated, items)
  }

  /** What login(userData, newToken) leaves in storage. */
  function LoginStorage(items: map<string, string>, codec: JsonCodec, userData: Value, newToken: string): map<string, string> {
    items["token" := newToken]["user" := codec.stringify(userData)]
  }

  /**
   * A reload after login restores the same session, provided the token is non-empty and the
   * user survives a JSON round trip.
   */
  lemma LoginSurvivesReload(items: map<string, string>, codec: JsonCodec, userData: Value, newToken: string)
    requires newToken != "" && codec.stringify(userData) != ""
    requires codec.parse(codec.stringify(userData)) == Some(userData)
    ensures InitialAuthState(LoginStorage(items, codec, userData, newToken), codec.parse) ==
      (Session(Some(newToken), userData, true), LoginStorage(items, codec, userData, newToken))
  {
    var after := LoginStorage(items, codec, userData, newToken);
    assert after["token"] == newToken && after["user"] == codec.stringify(userData);
  }

  /** A reload after logout is unauthenticated. */
  lemma LogoutSurvivesReload(items: map<string, string>, parse: string -> Option<Value>)
    ensures InitialAuthState(items - {"token", "user"}, parse).0 == Unauthenticated
  {
    assert !Stored(items - {"token", "user"}, "token");
  }

  /**
   * The context value: the four state fields and the seven functions. Functions are objects in
   * JavaScript; they are represented here by an empty object, which is just as truthy.
   */
  function ContextObject(user: Value, token: Option<string>, isAuthenticated: bool, error: Value): (r: Value)
    ensures r.Obj? && !HasKey(r.props, "loading")
    ensures Member(r, "user") == user
  {
    var f := Obj([]);
    var props := [
      Entry("user", user),
      Entry("token", if token.Some? then Str(token.value) else Null),
      Entry("isAuthenticated", Bool(isAuthenticated)),
      Entry("error", error),
      Entry("setUser", f), Entry("setToken", f), Entry("setIsAuthenticated", f), Entry("setError", f),
      Entry("login", f), Entry("logout", f), Entry("updateUser", f)];
    assert forall i :: 0 <= i < |props| ==> props[i].key != "loading";
    Obj(props)
  }

  const OutsideProviderMessage := "useAuth must be used within AuthProvider"

  /** useAuth(): the nearest provider's value, or the error it throws outside any provider. */
  function UseAuth(context: Option<Value>): (r: Result<Value, string>)
    ensures context.None? || !Truthy(context.value) ==> r == Err(OutsideProviderMessage)
    ensures context.Some? && Truthy(context.value) ==> r == Ok(context.value)
  {
    if context.None? || !Truthy(context.value) then Err(OutsideProviderMessage) else Ok(context.value)
  }

  /** AuthProvider's state, with the storage and router it writes to. */
  class AuthProvider {
    var user: Value
    var token: Option<string>
    var isAuthenticated: bool
    var error: Value
    const storage: Browser.LocalStorage
    const router: Browser.Navigator
    const codec: JsonCodec

    function Current(): Session
      reads this
    {
      Session(token, user, isAuthenticated)
    }

    /** The first render: the state restored from storage. */
    constructor (storage: Browser.LocalStorage, router: Browser.Navigator, codec: JsonCodec)
      modifies storage
      ensures this.storage == storage && this.router == router && this.codec == codec
      ensures (Current(), storage.items) == InitialAuthState(old(storage.items), codec.parse)
      ensures error == Null
    {
      this.storage := storage;
      this.router := router;
      this.codec := codec;
      user := Null;
      token := None;
      isAuthenticated := false;
      error := Null;
      new;
      var storedToken := storage.GetItem("token");
      var storedUser := storage.GetItem("user");
      if storedToken.Some? && storedToken.value != "" && storedUser.Some? && storedUser.value != "" {
        var parsed := codec.parse(storedUser.value);
        if parsed.Some? {
          token := storedToken;
          user := parsed.value;
          isAuthenticated := true;
        } else {
          // JSON.parse threw: the catch block clears the corrupted keys
          storage.RemoveItem("token");
          storage.RemoveItem("user");
          assert storage.items == old(storage.items) - {"token", "user"};
        }
      }
    }

    method Login(userData: Value, newToken: string)
      modifies this, storage
      ensures Current() == Session(Some(newToken), userData, true) && error == Null
      ensures storage.items == LoginStorage(old(storage.items), codec, userData, newToken)
    {
      user := userData;
      token := Some(newToken);
      isAuthenticated := true;
      error := Null;
      storage.SetItem("token", newToken);
      storage.SetItem("user", codec.stringify(userData));
    }

    method Logout()
      modifies this, storage, router
      ensures Current() == Unauthenticated && error == Null
      ensures storage.items == old(storage.items) - {"token", "user"}
      ensures router.visits == old(router.visits) + [Browser.Visit("/login", false)]
    {
      user := Null;
      token := None;
      isAuthenticated := false;
      error := Null;
      storage.RemoveItem("token");
      storage.RemoveItem("user");
      router.Navigate("/login", false);
    }

    /** updateUser(updatedUserData): `{ ...prev, ...updatedUserData }`, stored as well. */
    method UpdateUser(updatedUserData: Value)
      modifies this, storage
      ensures user == Spread(old(user), updatedUserData)
      ensures token == old(token) && isAuthenticated == old(isAuthenticated) && error == old(error)
      ensures storage.items == old(storage.items)["user" := codec.stringify(user)]
    {
      var updated := Spread(user, updatedUserData);
      storage.SetItem("user", codec.stringify(updated));
      user := updated;
    }
  }
}
