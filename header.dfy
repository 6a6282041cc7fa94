/**
 * The top bar, `src/components/Layout/Header.jsx`: which menu entry the
 * current path highlights, the entries the menu offers (more once signed
 * in), the name shown for the user, and the sign-out handler.
 */
module Header {
  import opened Strings
  import opened JsValue
  import Token
  import AuthStore

  const Home: string := "home"
  const Kb: string := "kb"
  const Chat: string := "chat"
  const Settings: string := "settings"
  const Login: string := "login"
  const Register: string := "register"

  const RootPath: string := "/"
  const KbPrefix: string := "/kb"
  const ChatPath: string := "/chat"
  const SettingsPath: string := "/settings"
  const LoginPath: string := "/login"
  const RegisterPath: string := "/register"

  const SignedOutMessage: string := "已成功退出"
  const AnonymousName: string := "用户"

  /** An entry of the left menu: its key and the path its link goes to. */
  datatype MenuItem = MenuItem(key: string, to: string)

  /** `getSelectedKey()`: the checks run in order, so every path under `/kb` selects the knowledge-base entry. */
  function SelectedKey(path: string): (key: string)
    ensures path == RootPath ==> key == Home
    ensures path != RootPath && StartsWith(path, KbPrefix) ==> key == Kb
    ensures !StartsWith(path, KbPrefix) ==>
      && (path == ChatPath ==> key == Chat)
      && (path == SettingsPath ==> key == Settings)
      && (path == LoginPath ==> key == Login)
      && (path == RegisterPath ==> key == Register)
    ensures key == "" <==>
      path != RootPath && !StartsWith(path, KbPrefix)
      && path !in {ChatPath, SettingsPath, LoginPath, RegisterPath}
  {
    if path == RootPath then Home
    else if StartsWith(path, KbPrefix) then Kb
    else if path == ChatPath then Chat
    else if path == SettingsPath then Settings
    else if path == LoginPath then Login
    else if path == RegisterPath then Register
    else ""
  }

  /** The exact routes that select an entry; none of them lies under `/kb`. */
  lemma ExactRoutesSelectThemselves()
    ensures SelectedKey(ChatPath) == Chat && SelectedKey(SettingsPath) == Settings
    ensures SelectedKey(LoginPath) == Login && SelectedKey(RegisterPath) == Register
  {
    assert ChatPath[1] != KbPrefix[1];
    assert SettingsPath[1] != KbPrefix[1];
    assert LoginPath[1] != KbPrefix[1];
    assert RegisterPath[1] != KbPrefix[1];
  }

  /** A sub-page of `/chat` or `/settings` highlights nothing, while one of `/kb` keeps its entry. */
  lemma SubPagesOnlyUnderKb(rest: string)
    requires rest != ""
    ensures SelectedKey(KbPrefix + rest) == Kb
    ensures SelectedKey(ChatPath + rest) == ""
    ensures SelectedKey(SettingsPath + rest) == ""
  {
    assert (KbPrefix + rest)[..|KbPrefix|] == KbPrefix;
    assert (ChatPath + rest)[1] != KbPrefix[1];
    assert (SettingsPath + rest)[1] != KbPrefix[1];
    assert |ChatPath + rest| != |ChatPath|;
    assert |SettingsPath + rest| != |SettingsPath|;
    assert (ChatPath + rest)[..|ChatPath|] == ChatPath;
    assert (SettingsPath + rest)[..|SettingsPath|] == SettingsPath;
    assert (ChatPath + rest) != RootPath && (ChatPath + rest) != LoginPath && (ChatPath + rest) != RegisterPath
      by { assert (ChatPath + rest)[1] == 'c'; }
    assert (SettingsPath + rest) != RootPath && (SettingsPath + rest) != LoginPath && (SettingsPath + rest) != RegisterPath
      by { assert (SettingsPath + rest)[1] == 's'; }
  }

  /** `leftMenuItems`: home, then the three signed-in pages. */
  function MenuItems(isAuthenticated: bool): (items: seq<MenuItem>)
    ensures !isAuthenticated ==> items == [MenuItem(Home, RootPath)]
    ensures isAuthenticated ==>
      items == [MenuItem(Home, RootPath), MenuItem(Kb, KbPrefix), MenuItem(Chat, ChatPath), MenuItem(Settings, SettingsPath)]
  {
    [MenuItem(Home, RootPath)]
      + (if isAuthenticated then [MenuItem(Kb, KbPrefix), MenuItem(Chat, ChatPath), MenuItem(Settings, SettingsPath)] else [])
  }

  /**
   * Following a menu entry's link highlights that same entry, and the keys
   * of the menu are distinct.
   */
  lemma MenuLinksSelectTheirEntry(isAuthenticated: bool)
    ensures var items := MenuItems(isAuthenticated);
      && (forall k :: 0 <= k < |items| ==> SelectedKey(items[k].to) == items[k].key)
      && (forall j, k :: 0 <= j < k < |items| ==> items[j].key != items[k].key)
  {
    ExactRoutesSelectThemselves();
    assert KbPrefix[..|KbPrefix|] == KbPrefix;
    assert Home[0] != Kb[0] && Home[0] != Chat[0] && Home[0] != Settings[0];
    assert Kb[0] != Chat[0] && Kb[0] != Settings[0] && Chat[0] != Settings[0];
  }

  /** `user?.username || '用户'`, as the text shown. */
  function DisplayName(user: Value): (name: string)
    ensures Truthy(Get(user, "username")) ==> name == ToJsString(Get(user, "username"))
    ensures !Truthy(Get(user, "username")) ==> name == AnonymousName
  {
    ToJsString(Or(Get(user, "username"), Str(AnonymousName)))
  }

  /**
   * After signing out the menu offers only the home entry, and the page it
   * lands on highlights it.
   */
  lemma SignOutLeavesHome(s: AuthStore.AuthState)
    ensures MenuItems(AuthStore.AfterLogout(s).isAuthenticated) == [MenuItem(Home, RootPath)]
    ensures SelectedKey(RootPath) == Home
  {
  }

  /** Clearing the stored session twice, as the handler and the store each do, is clearing it once. */
  lemma ClearTwiceIsOnce(items: map<string, string>)
    ensures Token.AfterClearToken(Token.AfterClearToken(items)) == Token.AfterClearToken(items)
  {
    assert Token.AfterClearToken(items) - {Token.TokenKey, Token.UserKey, Token.LastVerifyKey} == Token.AfterClearToken(items);
  }

  /**
   * `handleLogout()`: the token is cleared, the store signs out (clearing it
   * again), the toast is shown, and the page moves to `/`.
   */
  method HandleLogout(store: AuthStore.AuthStore) returns (toast: string, target: string)
    modifies store, store.storage
    ensures store.State() == AuthStore.AfterLogout(old(store.State()))
    ensures store.storage.items == Token.AfterClearToken(old(store.storage.items))
    ensures toast == SignedOutMessage && target == RootPath
  {
    store.storage.ClearToken();
    store.Logout();
    ClearTwiceIsOnce(old(store.storage.items));
    toast, target := SignedOutMessage, RootPath;
  }
}
