/**
 * The authentication store, `src/store/useAuthStore.js`: the signed-in
 * user, the `isAuthenticated` flag, and the `loading` / `error` flags of the
 * login, register and current-user requests. Its actions write the token
 * storage of `Token` as they go.
 *
 * As in `KbStore`, each action is a method on `AuthStore` whose new state
 * and new storage are given by pure functions; the lemmas relate the flag to
 * what storage then holds.
 */
module AuthStore {
  import opened Wrappers
  import opened JsValue
  import opened Foreign
  import opened ApiClient
  import Token

  datatype AuthState = AuthState(user: Value, isAuthenticated: bool, loading: bool, error: Option<string>)

  /** What `login` and `register` return: `{success: true, user}` or `{success: false, error}`. */
  datatype Outcome = Succeeded(user: Value) | FailedWith(error: string)

  // ---------------------------------------------------------------------------
  // Start-up

  /** The user the store starts with: the stored user, when a token is stored too. */
  function BootUser(items: map<string, string>, host: Host): (user: Value)
    ensures Truthy(user) <==> Token.GetToken(items).Some? && Token.StoredUser(items, host) != Null
    ensures Truthy(user) ==> user == Token.StoredUser(items, host)
  {
    var stored := Token.StoredUser(items, host);
    if Token.GetToken(items).Some? && Truthy(stored) then stored else Null
  }

  /**
   * Storage after start-up: reading the user drops an unreadable one, and a
   * user without a token is cleared away with `clearToken`.
   */
  function BootItems(items: map<string, string>, host: Host): (r: map<string, string>)
    ensures Token.GetToken(items).None? && Token.StoredUser(items, host) != Null ==> r == Token.AfterClearToken(items)
    ensures Token.GetToken(items).Some? ==> r == if Token.UserUnreadable(items, host) then items - {Token.UserKey} else items
  {
    var read := if Token.UserUnreadable(items, host) then items - {Token.UserKey} else items;
    if Token.GetToken(items).None? && Token.StoredUser(items, host) != Null then Token.AfterClearToken(read) else read
  }

  /**
   * After start-up, storage never holds a readable user without a token, and
   * the store is authenticated exactly when both were there.
   */
  lemma BootIsConsistent(items: map<string, string>, host: Host)
    ensures var after := BootItems(items, host);
      !(Token.GetToken(after).None? && Token.StoredUser(after, host) != Null)
    ensures Truthy(BootUser(items, host)) ==>
      Token.GetToken(BootItems(items, host)) == Token.GetToken(items)
      && Token.StoredUser(BootItems(items, host), host) == BootUser(items, host)
  {
    var read := if Token.UserUnreadable(items, host) then items - {Token.UserKey} else items;
    assert Token.GetToken(read) == Token.GetToken(items);
    if Token.UserUnreadable(items, host) {
      assert Token.StoredUser(read, host) == Null;
    }
  }

  /** A token without a readable user leaves the token in place while the store starts signed out. */
  lemma TokenWithoutUserIsKept(items: map<string, string>, host: Host)
    requires Token.GetToken(items).Some? && Token.StoredUser(items, host) == Null
    ensures !Truthy(BootUser(items, host))
    ensures Token.GetToken(BootItems(items, host)) == Token.GetToken(items)
  {
    assert Token.GetToken(items - {Token.UserKey}) == Token.GetToken(items);
  }

  /** `getInitialAuthState()`: reads, and perhaps clears, storage; returns the initial user and flag. */
  method GetInitialAuthState(storage: Token.Storage, host: Host) returns (user: Value, isAuthenticated: bool)
    modifies storage
    ensures user == BootUser(old(storage.items), host)
    ensures isAuthenticated <==> Truthy(user)
    ensures storage.items == BootItems(old(storage.items), host)
  {
    var token := Token.GetToken(storage.items);
    var stored := storage.GetStoredUser(host);
    if token.Some? && Truthy(stored) {
      return stored, true;
    }
    if token.None? && Truthy(stored) {
      storage.ClearToken();
    }
    return Null, false;
  }

  // ---------------------------------------------------------------------------
  // The actions, as transitions of the state and of storage

  /** `setUser(user)`. */
  function AfterSetUser(s: AuthState, user: Value): (t: AuthState)
    ensures t.user == user && t.error == None && t.loading == s.loading
    ensures t.isAuthenticated <==> Truthy(user)
  {
    s.(user := user, isAuthenticated := Truthy(user), error := None)
  }

  /** `login(username, password)`: a failure leaves `user` and `isAuthenticated` alone. */
  function AfterLogin(s: AuthState, reply: Settled): (t: AuthState)
    ensures !t.loading
    ensures reply.Rejected? ==> t == s.(loading := false, error := Some(reply.message))
    ensures reply.Resolved? ==> t.isAuthenticated && t.user == Get(reply.data, "data") && t.error == None
  {
    match reply
    case Rejected(message) => s.(loading := false, error := Some(message))
    case Resolved(body) => AuthState(Get(body, "data"), true, false, None)
  }

  /** Storage after `login`: the reply's token (with the time) and then its user are stored. */
  function LoginItems(items: map<string, string>, reply: Settled, now: nat, host: Host): (r: map<string, string>)
    ensures reply.Rejected? ==> r == items
  {
    match reply
    case Rejected(_) => items
    case Resolved(body) =>
      Token.AfterSetStoredUser(Token.AfterSetToken(items, Get(body, "token"), now), Get(body, "data"), host)
  }

  /** `register(...)`: nothing but the flags changes. */
  function AfterRegister(s: AuthState, reply: Settled): (t: AuthState)
    ensures t.user == s.user && t.isAuthenticated == s.isAuthenticated && !t.loading
    ensures t.error == if reply.Rejected? then Some(reply.message) else None
  {
    match reply
    case Rejected(message) => s.(loading := false, error := Some(message))
    case Resolved(_) => s.(loading := false, error := None)
  }

  /** `logout()`. */
  function AfterLogout(s: AuthState): (t: AuthState)
    ensures t.user == Null && !t.isAuthenticated && t.error == None && t.loading == s.loading
  {
    s.(user := Null, isAuthenticated := false, error := None)
  }

  /** `fetchCurrentUser()`: `error` is neither cleared nor set. */
  function AfterFetchCurrentUser(s: AuthState, reply: Settled): (t: AuthState)
    ensures !t.loading && t.error == s.error
    ensures reply.Rejected? ==> t.user == Null && !t.isAuthenticated
    ensures reply.Resolved? ==> t.user == Get(reply.data, "data") && t.isAuthenticated
  {
    match reply
    case Rejected(_) => s.(user := Null, isAuthenticated := false, loading := false)
    case Resolved(body) => s.(user := Get(body, "data"), isAuthenticated := true, loading := false)
  }

  /** Storage after `fetchCurrentUser`: the fetched user is stored, or everything is cleared. */
  function FetchItems(items: map<string, string>, reply: Settled, host: Host): (r: map<string, string>)
    ensures reply.Rejected? ==> r == Token.AfterClearToken(items)
    ensures reply.Resolved? ==> r == Token.AfterSetStoredUser(items, Get(reply.data, "data"), host)
  {
    match reply
    case Rejected(_) => Token.AfterClearToken(items)
    case Resolved(body) => Token.AfterSetStoredUser(items, Get(body, "data"), host)
  }

  /** A login reply carrying a usable token and user leaves both flag and storage signed in, the user readable. */
  lemma LoginSignsIn(s: AuthState, items: map<string, string>, token: string, user: Value, now: nat, host: Host)
    requires token != "" && !Token.IsSentinel(token)
    requires user.Obj?
    requires host.jsonParse(host.jsonStringify(user)) == Some(user) && !Token.IsSentinel(host.jsonStringify(user))
    ensures var reply := Resolved(Obj(map["token" := Str(token), "data" := user]));
      && AfterLogin(s, reply).isAuthenticated
      && Token.GetToken(LoginItems(items, reply, now, host)) == Some(token)
      && Token.StoredUser(LoginItems(items, reply, now, host), host) == user
  {
    var reply := Resolved(Obj(map["token" := Str(token), "data" := user]));
    var withToken := Token.AfterSetToken(items, Str(token), now);
    Token.SetTokenThenGet(items, token, now);
    Token.StoredUserRoundTrip(withToken, user, host);
    assert LoginItems(items, reply, now, host) == Token.AfterSetStoredUser(withToken, user, host);
  }

  /**
   * The store trusts the reply: a login reply with no token still raises
   * `isAuthenticated`, while storage keeps whatever token it had.
   */
  lemma LoginWithoutTokenStillFlags(s: AuthState, items: map<string, string>, user: Value, now: nat, host: Host)
    ensures var reply := Resolved(Obj(map["data" := user]));
      && AfterLogin(s, reply).isAuthenticated
      && Token.GetToken(LoginItems(items, reply, now, host)) == Token.GetToken(items)
  {
    var reply := Resolved(Obj(map["data" := user]));
    var after := LoginItems(items, reply, now, host);
    assert Get(reply.data, "token") == Undefined;
    assert Token.AfterSetToken(items, Undefined, now) == items;
    assert forall k :: k != Token.UserKey ==> (k in after <==> k in items) && (k in items ==> after[k] == items[k]);
    assert Token.GetToken(after) == Token.GetToken(items);
  }

  /** After `logout`, or a failed `fetchCurrentUser`, neither the store nor storage is signed in. */
  lemma SignOutAgrees(s: AuthState, items: map<string, string>, message: string, now: int, host: Host)
    ensures !AfterLogout(s).isAuthenticated && !Token.IsAuthenticated(Token.AfterClearToken(items))
    ensures var failed := Rejected(message);
      !AfterFetchCurrentUser(s, failed).isAuthenticated && !Token.IsAuthenticated(FetchItems(items, failed, host))
      && Token.StoredUser(FetchItems(items, failed, host), host) == Null
  {
    Token.ClearLogsOut(items, now, host);
  }

  /** The store object. */
  class AuthStore {
    var user: Value
    var isAuthenticated: bool
    var loading: bool
    var error: Option<string>
    const storage: Token.Storage

    function State(): AuthState
      reads this
    {
      AuthState(user, isAuthenticated, loading, error)
    }

    /** The store as created with the result of `getInitialAuthState`. */
    constructor (storage: Token.Storage, user: Value, isAuthenticated: bool)
      ensures State() == AuthState(user, isAuthenticated, false, None) && this.storage == storage
    {
      this.storage := storage;
      this.user := user;
      this.isAuthenticated := isAuthenticated;
      loading := false;
      error := None;
    }

    method SetUser(newUser: Value, host: Host)
      modifies this, storage
      ensures State() == AfterSetUser(old(State()), newUser)
      ensures storage.items == Token.AfterSetStoredUser(old(storage.items), newUser, host)
    {
      storage.SetStoredUser(newUser, host);
      user, isAuthenticated, error := newUser, Truthy(newUser), None;
    }

    /** `login(username, password)`, with `Date.now()` as `now`. */
    method Login(reply: Settled, now: nat, host: Host) returns (outcome: Outcome)
      modifies this, storage
      ensures State() == AfterLogin(old(State()), reply)
      ensures storage.items == LoginItems(old(storage.items), reply, now, host)
      ensures outcome == if reply.Resolved? then Succeeded(Get(reply.data, "data")) else FailedWith(reply.message)
    {
      loading, error := true, None;
      match reply {
        case Rejected(message) =>
          loading, error := false, Some(message);
          outcome := FailedWith(message);
        case Resolved(body) =>
          var signedIn := Get(body, "data");
          storage.SetToken(Get(body, "token"), now);
          storage.SetStoredUser(signedIn, host);
          user, isAuthenticated, loading := signedIn, true, false;
          outcome := Succeeded(signedIn);
      }
    }

    /** `register(username, password, email)`; success carries no user. */
    method Register(reply: Settled) returns (outcome: Outcome)
      modifies this
      ensures State() == AfterRegister(old(State()), reply)
      ensures outcome == if reply.Resolved? then Succeeded(Undefined) else FailedWith(reply.message)
    {
      loading, error := true, None;
      match reply {
        case Rejected(message) =>
          loading, error := false, Some(message);
          outcome := FailedWith(message);
        case Resolved(_) =>
          loading := false;
          outcome := Succeeded(Undefined);
      }
    }

    method Logout()
      modifies this, storage
      ensures State() == AfterLogout(old(State()))
      ensures storage.items == Token.AfterClearToken(old(storage.items))
    {
      storage.ClearToken();
      user, isAuthenticated, error := Null, false, None;
    }

    /** `fetchCurrentUser()`: the user, or `null` after a failure. */
    method FetchCurrentUser(reply: Settled, host: Host) returns (result: Value)
      modifies this, storage
      ensures State() == AfterFetchCurrentUser(old(State()), reply)
      ensures storage.items == FetchItems(old(storage.items), reply, host)
      ensures result == if reply.Resolved? then Get(reply.data, "data") else Null
    {
      loading := true;
      match reply {
        case Rejected(_) =>
          storage.ClearToken();
          user, isAuthenticated, loading := Null, false, false;
          result := Null;
        case Resolved(body) =>
          var fetched := Get(body, "data");
          storage.SetStoredUser(fetched, host);
          user, isAuthenticated, loading := fetched, true, false;
          result := fetched;
      }
    }

    method ClearError()
      modifies this
      ensures State() == old(State()).(error := None)
    {
      error := None;
    }
  }

  /** The module's start-up: `getInitialAuthState`, then the store built from it. */
  method CreateStore(storage: Token.Storage, host: Host) returns (store: AuthStore)
    modifies storage
    ensures store.storage == storage
    ensures store.State() == AuthState(BootUser(old(storage.items), host), Truthy(BootUser(old(storage.items), host)), false, None)
    ensures storage.items == BootItems(old(storage.items), host)
  {
    var user, isAuthenticated := GetInitialAuthState(storage, host);
    store := new AuthStore(storage, user, isAuthenticated);
  }
}
