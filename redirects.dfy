/**
 * The login redirect both session-expiry paths build: `/login`, followed by
 * `?redirect=<encoded path>` unless the path is `/login` itself.
 */
module Redirects {
  import opened JsValue
  import opened Foreign

  const LoginPath: string := "/login"
  const RedirectQuery: string := "?redirect="

  /**
   * The redirect target for the page at `currentPath`. The comparison with
   * "/login" is strict, so only the string itself drops the parameter; the
   * path is written with `String()` before it is encoded.
   */
  function LoginHref(currentPath: Value, host: Host): (href: string)
    ensures href == LoginPath <==> currentPath == Str(LoginPath)
    ensures href != LoginPath ==> href == LoginPath + RedirectQuery + host.encodeUriComponent(ToJsString(currentPath))
  {
    var redirectParam :=
      if !StrictEquals(currentPath, Str(LoginPath)) then RedirectQuery + host.encodeUriComponent(ToJsString(currentPath))
      else "";
    assert |RedirectQuery + host.encodeUriComponent(ToJsString(currentPath))| > 0;
    LoginPath + redirectParam
  }
}
