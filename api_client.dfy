/**
 * The HTTP client's interceptors, `src/api/index.js`: the request side adds
 * the bearer token or refuses to send with an expired one; the response side
 * unwraps successful replies and turns failures into a rejection message,
 * calling `handleAuthExpired` for a 401 outside the login and register
 * endpoints. `handleAuthExpired` is guarded by `isRedirecting`, so a burst of
 * 401 replies arms one redirect.
 */
module ApiClient {
  import opened Wrappers
  import opened Strings
  import opened JsValue
  import opened Foreign
  import opened Timers
  import opened Redirects
  import Token

  const TokenExpiredMessage: string := "Token 已过期"
  const BadCredentialsMessage: string := "用户名或密码错误"
  const SessionExpiredMessage: string := "登录已过期，请重新登录"
  const ForbiddenMessage: string := "没有权限访问该资源"
  const RequestFailedMessage: string := "请求失败"
  const AuthorizationHeader: string := "Authorization"
  /** The pause before `handleAuthExpired` navigates, in milliseconds. */
  const AuthRedirectDelay: nat := 100

  /** The parts of an axios request config the interceptor reads and writes. */
  datatype RequestConfig = RequestConfig(url: string, headers: map<string, string>)

  /** What the request interceptor does with a request. */
  datatype RequestOutcome = Send(config: RequestConfig) | Refuse(message: string)

  /**
   * A failed request as the error interceptor sees it: the request URL (empty
   * when there is none), the reply status when a reply arrived, the reply body,
   * and the error's own `message`.
   */
  datatype HttpError = HttpError(url: string, status: Option<int>, body: Value, message: Value)

  /** A request's result: the reply object, or the error the interceptor receives. */
  datatype Reply = Replied(response: Value) | Failed(error: HttpError)

  /** What the caller's promise settles with. */
  datatype Settled = Resolved(data: Value) | Rejected(message: string)

  /** The rejection the error interceptor produces, and whether it calls `handleAuthExpired`. */
  datatype ErrorVerdict = ErrorVerdict(message: string, expire: bool)

  /** The scheduled navigation of `handleAuthExpired`. */
  datatype Navigation = Navigation(href: string)

  /** The login and register endpoints, whose 401 means bad credentials rather than an expired session. */
  predicate IsAuthEndpoint(url: string) {
    Contains(url, "/auth/login") || Contains(url, "/auth/register")
  }

  /** `new Error(a || b)`: the first truthy candidate, written as a string. */
  function MessageOr(candidate: Value, fallback: string): (m: string)
    ensures Truthy(candidate) ==> m == ToJsString(candidate)
    ensures !Truthy(candidate) ==> m == fallback
  {
    ToJsString(Or(candidate, Str(fallback)))
  }

  /** The error interceptor's decision. */
  function ClassifyError(e: HttpError): (v: ErrorVerdict)
    ensures v.expire <==> e.status == Some(401) && !IsAuthEndpoint(e.url)
    ensures e.status == Some(401) && IsAuthEndpoint(e.url) ==> v.message == MessageOr(Get(e.body, "message"), BadCredentialsMessage)
    ensures v.expire ==> v.message == SessionExpiredMessage
    ensures e.status == Some(403) ==> v.message == ForbiddenMessage
    ensures e.status != Some(401) && e.status != Some(403) ==>
      v.message == MessageOr(Or(Get(e.body, "message"), e.message), RequestFailedMessage)
  {
    var serverMessage := Get(e.body, "message");
    if e.status == Some(401) then
      if IsAuthEndpoint(e.url) then ErrorVerdict(MessageOr(serverMessage, BadCredentialsMessage), false)
      else ErrorVerdict(SessionExpiredMessage, true)
    else if e.status == Some(403) then ErrorVerdict(ForbiddenMessage, false)
    else ErrorVerdict(MessageOr(Or(serverMessage, e.message), RequestFailedMessage), false)
  }

  /**
   * A 401 from the login or register endpoint never expires the session,
   * whatever the server says and wherever the endpoint sits in the URL: the
   * bare `/auth/login` the auth API posts to, or one with a base URL in front.
   */
  lemma LoginFailureDoesNotExpire(prefix: string, endpoint: string, suffix: string, body: Value, message: Value)
    requires endpoint == "/auth/login" || endpoint == "/auth/register"
    ensures !ClassifyError(HttpError(prefix + endpoint + suffix, Some(401), body, message)).expire
  {
    var url := prefix + endpoint + suffix;
    assert url[|prefix|..|prefix| + |endpoint|] == endpoint;
    OccurrenceIsContained(url, endpoint, |prefix|);
  }

  /** Only 401 can expire the session: other statuses never reach `handleAuthExpired`. */
  lemma OnlyUnauthorizedExpires(e: HttpError)
    requires e.status != Some(401)
    ensures !ClassifyError(e).expire
  {
  }

  /** How the promise of one request settles. */
  function Settle(reply: Reply): (s: Settled)
    ensures reply.Replied? ==> s == Resolved(Get(reply.response, "data"))
    ensures reply.Failed? ==> s == Rejected(ClassifyError(reply.error).message)
  {
    match reply
    case Replied(response) => Resolved(Get(response, "data"))
    case Failed(error) => Rejected(ClassifyError(error).message)
  }

  /** The request interceptor's decision, from the stored items and the clock. */
  function RequestDecision(items: map<string, string>, config: RequestConfig, now: int, host: Host): (out: RequestOutcome)
    ensures Token.GetToken(items).None? ==> out == Send(config)
    ensures Token.GetToken(items).Some? && Token.IsTokenExpired(items, now, host) ==> out == Refuse(TokenExpiredMessage)
    ensures Token.GetToken(items).Some? && !Token.IsTokenExpired(items, now, host) ==>
      out.Send? && out.config.url == config.url
      && out.config.headers == config.headers[AuthorizationHeader := "Bearer " + Token.GetToken(items).value]
  {
    var token := Token.GetToken(items);
    if token.Some? && Token.IsTokenExpired(items, now, host) then Refuse(TokenExpiredMessage)
    else if token.Some? then Send(config.(headers := config.headers[AuthorizationHeader := "Bearer " + token.value]))
    else Send(config)
  }

  /** A refused request carries no credentials anywhere: it is never sent. */
  lemma ExpiredIsNeverSent(items: map<string, string>, config: RequestConfig, now: int, host: Host)
    requires Token.GetToken(items).Some? && Token.IsTokenExpired(items, now, host)
    ensures !RequestDecision(items, config, now, host).Send?
  {
  }

  /** The axios instance with its module flag `isRedirecting`. */
  class Client {
    var isRedirecting: bool
    const storage: Token.Storage
    const timers: TimerQueue<Navigation>

    ghost predicate Valid()
      reads this, timers
    {
      timers.Valid()
    }

    constructor (storage: Token.Storage, timers: TimerQueue<Navigation>)
      requires timers.Valid()
      ensures Valid() && !isRedirecting
      ensures this.storage == storage && this.timers == timers
    {
      this.storage := storage;
      this.timers := timers;
      isRedirecting := false;
    }

    /** Nothing the client owns has changed. */
    twostate predicate Untouched()
      reads this, storage, timers
    {
      storage.items == old(storage.items) && timers.armed == old(timers.armed) && isRedirecting == old(isRedirecting)
    }

    /**
     * The effect of `handleAuthExpired`: a no-op while a redirect is under
     * way; otherwise the stored token is cleared and the navigation to the
     * login target of the current path is armed, 100 ms later.
     */
    twostate predicate ExpiryHandled(pathname: string, host: Host)
      reads this, storage, timers
    {
      && isRedirecting
      && (old(isRedirecting) ==> storage.items == old(storage.items) && timers.armed == old(timers.armed))
      && (!old(isRedirecting) ==>
           && storage.items == Token.AfterClearToken(old(storage.items))
           && old(timers.nextId) !in old(timers.armed)
           && timers.armed == old(timers.armed)[old(timers.nextId) := Timer(AuthRedirectDelay, Navigation(LoginHref(Str(pathname), host)))])
    }

    /** `handleAuthExpired`. */
    method HandleAuthExpired(pathname: string, host: Host)
      requires Valid()
      modifies this, storage, timers
      ensures Valid()
      ensures ExpiryHandled(pathname, host)
    {
      if isRedirecting {
        return;
      }
      isRedirecting := true;
      storage.ClearToken();
      var target := LoginHref(Str(pathname), host);
      var id := timers.SetTimeout(AuthRedirectDelay, Navigation(target));
    }

    /** The runtime fires timer `id`: navigate, then lower the flag. */
    method FireNavigation(id: nat) returns (href: Option<string>)
      requires Valid()
      modifies this, timers
      ensures Valid()
      ensures id in old(timers.armed) ==> href == Some(old(timers.armed)[id].task.href) && !isRedirecting
      ensures id !in old(timers.armed) ==> href == None && isRedirecting == old(isRedirecting)
      ensures timers.armed == old(timers.armed) - {id}
    {
      var task := timers.Fire(id);
      match task {
        case None => href := None;
        case Some(navigation) =>
          href := Some(navigation.href);
          isRedirecting := false;
      }
    }

    /** The request interceptor. */
    method InterceptRequest(config: RequestConfig, now: int, pathname: string, host: Host) returns (out: RequestOutcome)
      requires Valid()
      modifies this, storage, timers
      ensures Valid()
      ensures out == RequestDecision(old(storage.items), config, now, host)
      ensures out.Send? ==> Untouched()
      ensures out.Refuse? ==> ExpiryHandled(pathname, host)
    {
      var token := Token.GetToken(storage.items);
      if token.Some? && Token.IsTokenExpired(storage.items, now, host) {
        HandleAuthExpired(pathname, host);
        return Refuse(TokenExpiredMessage);
      }
      if token.Some? {
        return Send(config.(headers := config.headers[AuthorizationHeader := "Bearer " + token.value]));
      }
      return Send(config);
    }

    /** The response interceptor: a success resolves to its data; a failure is classified. */
    method InterceptResponse(reply: Reply, pathname: string, host: Host) returns (result: Settled)
      requires Valid()
      modifies this, storage, timers
      ensures Valid()
      ensures result == Settle(reply)
      ensures !(reply.Failed? && ClassifyError(reply.error).expire) ==> Untouched()
      ensures reply.Failed? && ClassifyError(reply.error).expire ==> ExpiryHandled(pathname, host)
    {
      match reply {
        case Replied(response) =>
          return Resolved(Get(response, "data"));
        case Failed(error) =>
          var verdict := ClassifyError(error);
          if verdict.expire {
            HandleAuthExpired(pathname, host);
          }
          return Rejected(verdict.message);
      }
    }
  }

  /** Two 401 replies in a row arm a single redirect. */
  method TwoUnauthorized(host: Host) returns (client: Client)
    ensures |client.timers.armed| == 1
  {
    var storage := new Token.Storage(map[Token.TokenKey := "t"]);
    var timers := new TimerQueue<Navigation>();
    client := new Client(storage, timers);
    var failure := Failed(HttpError("/api/kb", Some(401), Undefined, Str("Request failed")));
    assert !IsAuthEndpoint("/api/kb") by {
      assert !Contains("/api/kb", "/auth/login") by {
        assert |"/auth/login"| > |"/api/kb"|;
      }
      assert !Contains("/api/kb", "/auth/register") by {
        assert |"/auth/register"| > |"/api/kb"|;
      }
    }
    var first := client.InterceptResponse(failure, "/kb", host);
    var second := client.InterceptResponse(failure, "/kb", host);
  }
}
