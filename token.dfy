/**
 * Token and user persistence, `src/utils/token.js`. `localStorage` is a map
 * from keys to strings held by `Storage`; the clock is a parameter `now`
 * (milliseconds). The predicates are functions of the stored map; the
 * writers are methods proved to leave the map that `AfterSetToken`,
 * `AfterClearToken`, `AfterMarkVerified` and `AfterSetStoredUser` describe.
 */
module Token {
  import opened Wrappers
  import opened Strings
  import opened JsValue
  import opened JsNumber
  import opened Foreign

  const TokenKey: string := "rag_lite_token"
  const UserKey: string := "rag_lite_user"
  const LastVerifyKey: string := "rag_lite_last_verify"

  /** Five minutes, in milliseconds. */
  const VerifyInterval: int := 5 * 60 * 1000
  /** A token is treated as expired 60 seconds before its `exp` claim. */
  const ExpiryBuffer: int := 60 * 1000

  /** The stored strings that stand for "no value": empty, or a stringified `undefined` / `null`. */
  predicate IsSentinel(s: string) {
    s == "" || s == "undefined" || s == "null"
  }

  /** `getToken`: the stored token, unless it is missing or a sentinel string. */
  function GetToken(items: map<string, string>): (r: Option<string>)
    ensures r.Some? ==> TokenKey in items && r.value == items[TokenKey] && !IsSentinel(r.value)
    ensures r.None? ==> TokenKey !in items || IsSentinel(items[TokenKey])
  {
    if TokenKey !in items then None
    else
      var token := items[TokenKey];
      if token == "" || token == "undefined" || token == "null" then None else Some(token)
  }

  /** `isAuthenticated`: a usable token is stored. */
  predicate IsAuthenticated(items: map<string, string>) {
    GetToken(items).Some?
  }

  // ---------------------------------------------------------------------------
  // JWT payload

  /** The base64url alphabet step of `parseJwt`: `-` becomes `+` and `_` becomes `/`. */
  function UrlToStandard(s: string): (r: string)
    ensures |r| == |s|
    ensures '-' !in r && '_' !in r
  {
    seq(|s|, i requires 0 <= i < |s| => if s[i] == '-' then '+' else if s[i] == '_' then '/' else s[i])
  }

  /**
   * The opposite translation, from the standard base64 alphabet to the
   * URL-safe one. The program has no such step: it is here only to state, in
   * `AlphabetRoundTrip`, that the step `parseJwt` takes loses nothing.
   */
  function StandardToUrl(s: string): (r: string)
    ensures |r| == |s|
    ensures '+' !in r && '/' !in r
  {
    seq(|s|, i requires 0 <= i < |s| => if s[i] == '+' then '-' else if s[i] == '/' then '_' else s[i])
  }

  /**
   * Text in the URL-safe alphabet (no `+` or `/`) survives the translation: the
   * two alphabets differ in exactly those two characters.
   */
  lemma AlphabetRoundTrip(s: string)
    requires '+' !in s && '/' !in s
    ensures StandardToUrl(UrlToStandard(s)) == s
  {
    var t := UrlToStandard(s);
    forall i | 0 <= i < |s| ensures StandardToUrl(t)[i] == s[i] {
      assert s[i] != '+' && s[i] != '/' by {
        assert s[i] in s;
      }
    }
  }

  /**
   * `parseJwt`: the second dot-separated segment, translated to the standard
   * alphabet, base64-decoded, UTF-8 decoded and parsed as JSON; `None` when
   * any step throws, including when there is no second segment.
   */
  function ParseJwt(token: string, host: Host): (r: Option<Value>)
    ensures r.Some? ==> |Split(token, '.')| >= 2
  {
    var segments := Split(token, '.');
    if |segments| < 2 then None
    else
      match host.atob(UrlToStandard(segments[1]))
      case None => None
      case Some(binary) =>
        match host.utf8Decode(binary)
        case None => None
        case Some(text) => host.jsonParse(text)
  }

  /** A JWT's segments are found again after joining them with dots. */
  lemma ParseJwtReadsSecondSegment(header: string, payload: string, signature: string, host: Host)
    requires '.' !in header && '.' !in payload && '.' !in signature
    ensures ParseJwt(header + "." + payload + "." + signature, host) ==
      match host.atob(UrlToStandard(payload))
      case None => None
      case Some(binary) =>
        match host.utf8Decode(binary)
        case None => None
        case Some(text) => host.jsonParse(text)
  {
    assert header + "." + payload + "." + signature == header + ("." + (payload + ("." + signature)));
    SplitThree(header, payload, signature, '.');
  }

  lemma SplitThree(a: string, b: string, c: string, sep: char)
    requires sep !in a && sep !in b && sep !in c
    ensures Split(a + ([sep] + (b + ([sep] + c))), sep) == [a, b, c]
  {
    var tail := [sep] + c;
    var rest := [sep] + (b + tail);
    SplitAfterFree(a, rest, sep);
    assert rest[1..] == b + tail;
    SplitAfterFree(b, tail, sep);
    assert tail[1..] == c;
    SplitWithoutSep(c, sep);
  }

  /** Text before the first separator becomes the first piece; splitting resumes after the separator. */
  lemma {:induction false} SplitAfterFree(a: string, rest: string, sep: char)
    requires sep !in a && rest != [] && rest[0] == sep
    ensures Split(a + rest, sep) == [a] + Split(rest[1..], sep)
    decreases |a|
  {
    if a != [] {
      SplitAfterFree(a[1..], rest, sep);
      assert (a + rest)[1..] == a[1..] + rest;
      assert [a[0]] + a[1..] == a;
    } else {
      assert a + rest == rest;
    }
  }

  // ---------------------------------------------------------------------------
  // Expiry and revalidation

  /**
   * `isTokenExpired`: expired when there is no usable token, when the payload
   * does not parse or is falsy, or when it has no truthy `exp`; otherwise when
   * `now >= exp * 1000 - 60000`, where the multiplication puts `exp` through
   * `ToNumber`: a claim that is `NaN` there makes the comparison false, and an
   * infinite one compares by its sign.
   */
  function IsTokenExpired(items: map<string, string>, now: int, host: Host): (r: bool)
    ensures GetToken(items).None? ==> r
  {
    match GetToken(items)
    case None => true
    case Some(token) =>
      match ParseJwt(token, host)
      case None => true
      case Some(payload) =>
        var exp := Get(payload, "exp");
        if !Truthy(payload) || !Truthy(exp) then true
        else
          match ToNumber(exp)
          case Finite(seconds) => now >= seconds * 1000 - ExpiryBuffer
          case Infinite(negative) => negative
          case NaN => false
  }

  /** Once expired, a token stays expired as time passes. */
  lemma ExpiryIsMonotone(items: map<string, string>, host: Host, t1: int, t2: int)
    requires t1 <= t2 && IsTokenExpired(items, t1, host)
    ensures IsTokenExpired(items, t2, host)
  {
  }

  /**
   * For any payload whose `exp` claim is truthy and converts to `seconds`
   * (a number, or a numeric string such as `"1700000000"`), the token counts
   * as expired from 60 seconds before that instant on, and not a millisecond
   * earlier. Other claims in the payload play no part.
   */
  lemma ExpiryBoundary(items: map<string, string>, host: Host, payload: Value, seconds: int)
    requires GetToken(items).Some? && ParseJwt(GetToken(items).value, host) == Some(payload)
    requires Truthy(Get(payload, "exp")) && ToNumber(Get(payload, "exp")) == Finite(seconds)
    ensures !IsTokenExpired(items, seconds * 1000 - ExpiryBuffer - 1, host)
    ensures IsTokenExpired(items, seconds * 1000 - ExpiryBuffer, host)
  {
    assert payload.Obj?;
  }

  /**
   * A string claim is converted, not ignored: a payload `{"exp": "1"}` (one
   * second after the epoch) is expired at every time from the epoch on.
   */
  lemma StringClaimIsConverted(items: map<string, string>, host: Host, now: int)
    requires GetToken(items).Some? && ParseJwt(GetToken(items).value, host) == Some(Single("exp", Str("1")))
    requires now >= 0
    ensures IsTokenExpired(items, now, host)
  {
    NumericStringIsItsNumber(1);
    assert NatToString(1) == "1";
  }

  /** A truthy claim that `ToNumber` cannot read, such as an object, never expires the token. */
  lemma UnreadableClaimNeverExpires(items: map<string, string>, host: Host, payload: Value, now: int)
    requires GetToken(items).Some? && ParseJwt(GetToken(items).value, host) == Some(payload)
    requires Truthy(Get(payload, "exp")) && ToNumber(Get(payload, "exp")) == NaN
    ensures !IsTokenExpired(items, now, host)
  {
    assert payload.Obj?;
  }

  /**
   * `needsRevalidation`: when the token is expired, when no last-verify time is
   * stored, or when at least `VerifyInterval` has passed since it. A stored
   * time that `parseInt` reads as `NaN` makes the comparison false.
   */
  function NeedsRevalidation(items: map<string, string>, now: int, host: Host): (r: bool)
    ensures IsTokenExpired(items, now, host) ==> r
    ensures (LastVerifyKey !in items || items[LastVerifyKey] == "") ==> r
  {
    if IsTokenExpired(items, now, host) then true
    else if LastVerifyKey !in items || items[LastVerifyKey] == "" then true
    else
      match ParseInt(items[LastVerifyKey])
      case None => false
      case Some(last) => now - last >= VerifyInterval
  }

  // ---------------------------------------------------------------------------
  // The stored map after each writer

  /**
   * `setToken`: a non-empty string is stored together with the time, which
   * reads back as `now`; anything else changes nothing. No other key changes.
   */
  function AfterSetToken(items: map<string, string>, token: Value, now: nat): (r: map<string, string>)
    ensures token.Str? && token.s != "" ==>
      && TokenKey in r && r[TokenKey] == token.s
      && LastVerifyKey in r && ParseInt(r[LastVerifyKey]) == Some(now)
    ensures forall k :: k != TokenKey && k != LastVerifyKey ==> (k in r <==> k in items) && (k in items ==> r[k] == items[k])
    ensures !(token.Str? && token.s != "") ==> r == items
  {
    ParseIntOfNatToString(now);
    if !Truthy(token) || !token.Str? then items
    else items[TokenKey := token.s][LastVerifyKey := NatToString(now)]
  }

  /** `clearToken`: exactly the token, user and last-verify keys are removed. */
  function AfterClearToken(items: map<string, string>): (r: map<string, string>)
    ensures TokenKey !in r && UserKey !in r && LastVerifyKey !in r
    ensures forall k :: k in items && k != TokenKey && k != UserKey && k != LastVerifyKey ==> k in r && r[k] == items[k]
    ensures forall k :: k in r ==> k in items
  {
    items - {TokenKey, UserKey, LastVerifyKey}
  }

  /** `markVerified`: the last-verify key holds `now` written in decimal. */
  function AfterMarkVerified(items: map<string, string>, now: nat): (r: map<string, string>)
    ensures LastVerifyKey in r && ParseInt(r[LastVerifyKey]) == Some(now)
    ensures forall k :: k != LastVerifyKey ==> (k in r <==> k in items) && (k in items ==> r[k] == items[k])
  {
    ParseIntOfNatToString(now);
    items[LastVerifyKey := NatToString(now)]
  }

  /** `setStoredUser`: a truthy object (or array) is stored as its JSON text; anything else changes nothing. */
  function AfterSetStoredUser(items: map<string, string>, user: Value, host: Host): (r: map<string, string>)
    ensures Truthy(user) && IsObjectType(user) ==> UserKey in r && r[UserKey] == host.jsonStringify(user)
    ensures forall k :: k != UserKey ==> (k in r <==> k in items) && (k in items ==> r[k] == items[k])
    ensures !(Truthy(user) && IsObjectType(user)) ==> r == items
  {
    if !Truthy(user) || !IsObjectType(user) then items
    else items[UserKey := host.jsonStringify(user)]
  }

  /** A stored user that is present, not a sentinel, and not JSON: `getStoredUser` deletes it. */
  predicate UserUnreadable(items: map<string, string>, host: Host) {
    UserKey in items && !IsSentinel(items[UserKey]) && host.jsonParse(items[UserKey]).None?
  }

  /** `getStoredUser`: the parsed user when it is a truthy object (arrays included), else `null`. */
  function StoredUser(items: map<string, string>, host: Host): (r: Value)
    ensures r.Null? || r.Arr? || r.Obj?
    ensures !r.Null? ==> UserKey in items && !IsSentinel(items[UserKey]) && host.jsonParse(items[UserKey]) == Some(r)
  {
    if UserKey !in items then Null
    else
      var text := items[UserKey];
      if text == "" || text == "undefined" || text == "null" then Null
      else
        match host.jsonParse(text)
        case None => Null
        case Some(user) => if !Truthy(user) || !IsObjectType(user) then Null else user
  }

  // ---------------------------------------------------------------------------
  // How the writers and the predicates fit together

  /**
   * A stored token reads back, except that the strings "undefined" and "null"
   * are stored by `setToken` but refused by `getToken`.
   */
  lemma SetTokenThenGet(items: map<string, string>, token: string, now: nat)
    requires token != ""
    ensures GetToken(AfterSetToken(items, Str(token), now))
         == if token == "undefined" || token == "null" then None else Some(token)
    ensures IsAuthenticated(AfterSetToken(items, Str(token), now)) <==> !IsSentinel(token)
  {
    var r := AfterSetToken(items, Str(token), now);
    assert r[TokenKey] == token;
  }

  /** After `clearToken` nobody is authenticated, the token counts as expired and revalidation is due. */
  lemma ClearLogsOut(items: map<string, string>, now: int, host: Host)
    ensures !IsAuthenticated(AfterClearToken(items))
    ensures IsTokenExpired(AfterClearToken(items), now, host)
    ensures NeedsRevalidation(AfterClearToken(items), now, host)
    ensures StoredUser(AfterClearToken(items), host) == Null
  {
  }

  /** Expiry depends only on the stored token, so writing the last-verify key does not change it. */
  lemma ExpiryIgnoresLastVerify(items: map<string, string>, stamp: string, now: int, host: Host)
    ensures IsTokenExpired(items[LastVerifyKey := stamp], now, host) == IsTokenExpired(items, now, host)
  {
    assert GetToken(items[LastVerifyKey := stamp]) == GetToken(items);
  }

  /**
   * The five-minute window: right after `markVerified` at `t0`, revalidation
   * is due at `t1` exactly when the token is expired by then or five minutes
   * have passed.
   */
  lemma MarkVerifiedOpensWindow(items: map<string, string>, t0: nat, t1: int, host: Host)
    ensures NeedsRevalidation(AfterMarkVerified(items, t0), t1, host)
        <==> IsTokenExpired(items, t1, host) || t1 - t0 >= VerifyInterval
  {
    ExpiryIgnoresLastVerify(items, NatToString(t0), t1, host);
    ParseIntOfNatToString(t0);
  }

  /** A fresh `setToken` opens the same window as `markVerified`. */
  lemma SetTokenOpensWindow(items: map<string, string>, token: string, t0: nat, t1: int, host: Host)
    requires token != ""
    ensures NeedsRevalidation(AfterSetToken(items, Str(token), t0), t1, host)
        <==> IsTokenExpired(items[TokenKey := token], t1, host) || t1 - t0 >= VerifyInterval
  {
    MarkVerifiedOpensWindow(items[TokenKey := token], t0, t1, host);
  }

  /** A user stored by `setStoredUser` reads back when the JSON text parses back to it. */
  lemma StoredUserRoundTrip(items: map<string, string>, user: Value, host: Host)
    requires user.Obj? || user.Arr?
    requires host.jsonParse(host.jsonStringify(user)) == Some(user)
    requires !IsSentinel(host.jsonStringify(user))
    ensures StoredUser(AfterSetStoredUser(items, user, host), host) == user
  {
  }

  /** `localStorage`, as the map of its items. */
  class Storage {
    var items: map<string, string>

    constructor (initial: map<string, string>)
      ensures items == initial
    {
      items := initial;
    }

    method SetToken(token: Value, now: nat)
      modifies this
      ensures items == AfterSetToken(old(items), token, now)
    {
      if !Truthy(token) || !token.Str? {
        return;
      }
      items := items[TokenKey := token.s];
      items := items[LastVerifyKey := NatToString(now)];
    }

    method ClearToken()
      modifies this
      ensures items == AfterClearToken(old(items))
    {
      items := items - {TokenKey};
      items := items - {UserKey};
      items := items - {LastVerifyKey};
    }

    method MarkVerified(now: nat)
      modifies this
      ensures items == AfterMarkVerified(old(items), now)
    {
      items := items[LastVerifyKey := NatToString(now)];
    }

    /** `getStoredUser`, which also deletes a stored user that is not JSON. */
    method GetStoredUser(host: Host) returns (user: Value)
      modifies this
      ensures user == StoredUser(old(items), host)
      ensures items == if UserUnreadable(old(items), host) then old(items) - {UserKey} else old(items)
    {
      if UserKey !in items {
        return Null;
      }
      var text := items[UserKey];
      if text == "" || text == "undefined" || text == "null" {
        return Null;
      }
      match host.jsonParse(text) {
        case None =>
          items := items - {UserKey};
          return Null;
        case Some(parsed) =>
          if !Truthy(parsed) || !IsObjectType(parsed) {
            return Null;
          }
          return parsed;
      }
    }

    method SetStoredUser(user: Value, host: Host)
      modifies this
      ensures items == AfterSetStoredUser(old(items), user, host)
    {
      if !Truthy(user) || !IsObjectType(user) {
        return;
      }
      items := items[UserKey := host.jsonStringify(user)];
    }
  }
}
