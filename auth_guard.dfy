/**
 * The route guard, `src/components/AuthGuard.jsx`. On mounting it walks a
 * ladder: no token, an expired token, a signed-in store inside the
 * revalidation window, and otherwise a round trip to the backend through the
 * auth store. While it works, or while the store is loading, it shows a
 * spinner; afterwards it shows the protected page or redirects to the login
 * page, carrying the current path along.
 */
module AuthGuard {
  import opened JsValue
  import opened Foreign
  import opened ApiClient
  import Token
  import AuthStore

  /** The step of the ladder that decides. */
  datatype Rung = NoToken | Expired | StillFresh | AskBackend

  /** What the guard renders. */
  datatype View = Spinner | RedirectToLogin(from: string) | Protected

  /** `verifyToken`'s ladder, checked in order. */
  function RungOf(items: map<string, string>, isAuthenticated: bool, now: int, host: Host): (r: Rung)
    ensures r == NoToken <==> Token.GetToken(items).None?
    ensures r == Expired <==> Token.GetToken(items).Some? && Token.IsTokenExpired(items, now, host)
    ensures r == StillFresh <==>
      Token.GetToken(items).Some? && !Token.IsTokenExpired(items, now, host)
      && isAuthenticated && !Token.NeedsRevalidation(items, now, host)
    ensures r == AskBackend <==>
      Token.GetToken(items).Some? && !Token.IsTokenExpired(items, now, host)
      && !(isAuthenticated && !Token.NeedsRevalidation(items, now, host))
  {
    if Token.GetToken(items).None? then NoToken
    else if Token.IsTokenExpired(items, now, host) then Expired
    else if isAuthenticated && !Token.NeedsRevalidation(items, now, host) then StillFresh
    else AskBackend
  }

  /** The render choice. */
  function Render(isVerifying: bool, loading: bool, isValid: bool, pathname: string): (v: View)
    ensures v == Spinner <==> isVerifying || loading
    ensures v == Protected <==> !isVerifying && !loading && isValid
    ensures v.RedirectToLogin? ==> v.from == pathname
  {
    if isVerifying || loading then Spinner
    else if !isValid then RedirectToLogin(pathname)
    else Protected
  }

  /** Only a stored, unexpired token can skip the backend; every other rung but the last rejects. */
  lemma FreshNeedsLiveToken(items: map<string, string>, isAuthenticated: bool, now: int, host: Host)
    requires RungOf(items, isAuthenticated, now, host) == StillFresh
    ensures Token.IsAuthenticated(items) && !Token.IsTokenExpired(items, now, host)
    ensures !Token.NeedsRevalidation(items, now, host)
  {
  }

  /** The guard component's state, over the auth store it reads. */
  class Guard {
    var isVerifying: bool
    var isValid: bool
    const store: AuthStore.AuthStore

    constructor (store: AuthStore.AuthStore)
      ensures isVerifying && !isValid && this.store == store
    {
      this.store := store;
      isVerifying := true;
      isValid := false;
    }

    /**
     * `verifyToken()`, with `Date.now()` as `now` and the reply of the
     * current-user request as `reply` (used only on the last rung). The
     * verdict is valid only with a stored token that has not expired; an
     * expired token is cleared from storage.
     */
    method VerifyToken(now: nat, reply: Settled, host: Host)
      modifies this, store, store.storage
      ensures !isVerifying
      ensures RungOf(old(store.storage.items), old(store.isAuthenticated), now, host) in {NoToken, Expired} ==>
        && !isValid
        && store.State() == AuthStore.AfterLogout(old(store.State()))
        && store.storage.items == Token.AfterClearToken(old(store.storage.items))
      ensures RungOf(old(store.storage.items), old(store.isAuthenticated), now, host) == StillFresh ==>
        isValid && store.State() == old(store.State()) && store.storage.items == old(store.storage.items)
      ensures RungOf(old(store.storage.items), old(store.isAuthenticated), now, host) == AskBackend ==>
        && store.State() == AuthStore.AfterFetchCurrentUser(old(store.State()), reply)
        && (isValid <==> reply.Resolved? && Truthy(Get(reply.data, "data")))
        && store.storage.items ==
           (if isValid then Token.AfterMarkVerified(AuthStore.FetchItems(old(store.storage.items), reply, host), now)
            else AuthStore.FetchItems(old(store.storage.items), reply, host))
      ensures isValid ==> Token.GetToken(store.storage.items) == Token.GetToken(old(store.storage.items))
      ensures isValid ==> Token.IsAuthenticated(store.storage.items) && !Token.IsTokenExpired(store.storage.items, now, host)
    {
      var storage := store.storage;
      var rung := RungOf(storage.items, store.isAuthenticated, now, host);
      match rung {
        case NoToken =>
          store.Logout();
          isValid, isVerifying := false, false;
        case Expired =>
          storage.ClearToken();
          store.Logout();
          isValid, isVerifying := false, false;
        case StillFresh =>
          isValid, isVerifying := true, false;
        case AskBackend =>
          ghost var before := storage.items;
          var user := store.FetchCurrentUser(reply, host);
          if Truthy(user) {
            storage.MarkVerified(now);
            isValid := true;
            SignedInTokenSurvives(before, reply, now, host);
          } else {
            isValid := false;
          }
          isVerifying := false;
      }
    }
  }

  /** A successful current-user reply and `markVerified` touch neither the token nor its expiry. */
  lemma SignedInTokenSurvives(items: map<string, string>, reply: Settled, now: nat, host: Host)
    requires reply.Resolved?
    ensures var after := Token.AfterMarkVerified(AuthStore.FetchItems(items, reply, host), now);
      Token.GetToken(after) == Token.GetToken(items)
      && Token.IsTokenExpired(after, now, host) == Token.IsTokenExpired(items, now, host)
  {
    var fetched := AuthStore.FetchItems(items, reply, host);
    assert Token.GetToken(fetched) == Token.GetToken(items);
    var after := Token.AfterMarkVerified(fetched, now);
    assert Token.GetToken(after) == Token.GetToken(fetched);
  }
}
