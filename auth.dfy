/**
 * The session context: who is logged in, the persisted copy of the session in
 * `localStorage` (`authToken` and the serialised user under `userData`), and
 * the provider's `login`, `logout` and restore-on-mount steps.
 */
module Auth {
  import opened Wrappers
  import opened Text
  import opened Browser

  const AuthTokenKey := "authToken"
  const UserDataKey := "userData"
  /** Where `logout` (and the API client on a 401) sends the browser. */
  const LogoutHref := "/loginpage"
  const AdminSlug := "admin"
  const MissingAuthProvider := "useAuth must be used within an AuthProvider"

  datatype Role = Role(id: int, name: string, slug: string, defaultFlag: int)

  datatype User = User(id: int, email: string, roles: seq<Role>, firstName: Option<string>, lastName: Option<string>)

  /** What `JSON.parse` makes of a stored user: a thrown error, or a user or JSON `null`. */
  datatype ParseOutcome = Malformed | Json(user: Option<User>)

  /** `JSON.stringify` and `JSON.parse` for users, taken as parameters. */
  datatype JsonCodec = JsonCodec(stringify: User -> string, parse: string -> ParseOutcome)

  /** JSON serialisation of an object is never empty and parses back to the same user. */
  ghost predicate RoundTrips(codec: JsonCodec) {
    forall u :: codec.stringify(u) != "" && codec.parse(codec.stringify(u)) == Json(Some(u))
  }

  /** `roles.some(role => role.slug === 'admin')`. */
  function HasAdminRole(roles: seq<Role>): (b: bool)
    ensures b <==> exists i :: 0 <= i < |roles| && roles[i].slug == AdminSlug
  {
    if roles == [] then false
    else roles[0].slug == AdminSlug || HasAdminRole(roles[1..])
  }

  /** `!!token && !!user`: an empty token does not authenticate. */
  predicate IsAuthenticated(token: Option<string>, user: Option<User>) {
    Truthy(token) && user.Some?
  }

  /** `user?.roles?.some(role => role.slug === 'admin') || false`; the token plays no part. */
  predicate IsAdmin(user: Option<User>) {
    user.Some? && HasAdminRole(user.value.roles)
  }

  /** The in-memory session: the provider's `token` and `user` state. */
  datatype Session = Session(token: Option<string>, user: Option<User>)

  const NoSession := Session(None, None)

  /** Both session keys present and non-empty, which is what restore asks for. */
  predicate HasStoredSession(storage: map<string, string>) {
    AuthTokenKey in storage && storage[AuthTokenKey] != ""
    && UserDataKey in storage && storage[UserDataKey] != ""
  }

  /** Both keys are stored but the stored user does not parse. */
  predicate StoredSessionMalformed(storage: map<string, string>, parse: string -> ParseOutcome) {
    HasStoredSession(storage) && parse(storage[UserDataKey]).Malformed?
  }

  /** The persisted token and user are present together or absent together. */
  predicate Paired(storage: map<string, string>) {
    AuthTokenKey in storage <==> UserDataKey in storage
  }

  /** The storage after `login` writes the token and the serialised user. */
  function SaveSession(storage: map<string, string>, token: string, userJson: string): (r: map<string, string>)
    ensures r.Keys == storage.Keys + {AuthTokenKey, UserDataKey}
    ensures r[AuthTokenKey] == token && r[UserDataKey] == userJson
    ensures forall k :: k in storage && k != AuthTokenKey && k != UserDataKey ==> r[k] == storage[k]
  {
    storage[AuthTokenKey := token][UserDataKey := userJson]
  }

  /** The storage after both session keys are removed. */
  function ClearSession(storage: map<string, string>): (r: map<string, string>)
    ensures r.Keys == storage.Keys - {AuthTokenKey, UserDataKey}
    ensures forall k :: k in r ==> r[k] == storage[k]
  {
    storage - {AuthTokenKey, UserDataKey}
  }

  /** Logging out a second time leaves storage as the first logout left it. */
  lemma ClearSessionTwice(storage: map<string, string>)
    ensures ClearSession(ClearSession(storage)) == ClearSession(storage)
  {
  }

  datatype Restored = Restored(storage: map<string, string>, session: Session)

  /**
   * The restore-on-mount step as a function of the storage, the current session
   * and `JSON.parse`: with both keys stored, adopt the token and the parsed user,
   * or clear both keys and the session if the user does not parse; with either
   * key missing or empty, change nothing.
   */
  function RestoreStep(storage: map<string, string>, current: Session, parse: string -> ParseOutcome): (r: Restored)
    ensures !HasStoredSession(storage) ==> r == Restored(storage, current)
    ensures HasStoredSession(storage) && parse(storage[UserDataKey]).Json? ==>
              r == Restored(storage, Session(Some(storage[AuthTokenKey]), parse(storage[UserDataKey]).user))
    ensures HasStoredSession(storage) && parse(storage[UserDataKey]).Malformed? ==>
              r == Restored(ClearSession(storage), NoSession)
  {
    if HasStoredSession(storage) then
      match parse(storage[UserDataKey])
      case Json(u) => Restored(storage, Session(Some(storage[AuthTokenKey]), u))
      case Malformed => Restored(ClearSession(storage), NoSession)
    else Restored(storage, current)
  }

  /** A session saved by `login` is restored intact by the next mount. */
  lemma LoginThenRestore(codec: JsonCodec, storage: map<string, string>, token: string, user: User, current: Session)
    requires RoundTrips(codec)
    requires token != ""
    ensures var saved := SaveSession(storage, token, codec.stringify(user));
            RestoreStep(saved, current, codec.parse) == Restored(saved, Session(Some(token), Some(user)))
    ensures IsAuthenticated(Some(token), Some(user))
  {
    var saved := SaveSession(storage, token, codec.stringify(user));
    assert codec.stringify(user) != "" && codec.parse(codec.stringify(user)) == Json(Some(user));
    assert HasStoredSession(saved);
  }

  /** After logout (or a 401) nothing is restored on the next mount. */
  lemma ClearThenRestore(storage: map<string, string>, parse: string -> ParseOutcome)
    ensures RestoreStep(ClearSession(storage), NoSession, parse) == Restored(ClearSession(storage), NoSession)
    ensures !IsAuthenticated(NoSession.token, NoSession.user)
  {
  }

  /** Restoring a second time changes nothing more. */
  lemma RestoreIdempotent(storage: map<string, string>, current: Session, parse: string -> ParseOutcome)
    ensures var r := RestoreStep(storage, current, parse);
            RestoreStep(r.storage, r.session, parse) == r
  {
    if HasStoredSession(storage) && parse(storage[UserDataKey]).Malformed? {
      assert !HasStoredSession(ClearSession(storage));
    }
  }

  /** Login, logout and restore never leave one session key stored without the other. */
  lemma SessionKeysStayPaired(storage: map<string, string>, token: string, userJson: string, current: Session, parse: string -> ParseOutcome)
    requires Paired(storage)
    ensures Paired(SaveSession(storage, token, userJson))
    ensures Paired(ClearSession(storage))
    ensures Paired(RestoreStep(storage, current, parse).storage)
  {
  }

  /** The context value the provider hands to its consumers. */
  datatype AuthContextValue = AuthContextValue(user: Option<User>, token: Option<string>, isLoading: bool, isAuthenticated: bool, isAdmin: bool)

  /** `useAuth()`: the provider's value, or the error for a consumer outside any provider. */
  function UseAuth(context: Option<AuthContextValue>): (r: Result<AuthContextValue, string>)
    ensures context.None? <==> r == Failure(MissingAuthProvider)
    ensures context.Some? ==> r == Success(context.value)
  {
    match context
    case None => Failure(MissingAuthProvider)
    case Some(v) => Success(v)
  }

  /** The `AuthProvider` component: its state and the storage it shares with the page. */
  class AuthProvider {
    const win: Window
    var token: Option<string>
    var user: Option<User>
    var isLoading: bool

    /** First render: no session yet, and loading until the restore step has run. */
    constructor (win: Window)
      ensures this.win == win
      ensures token == None && user == None && isLoading
    {
      this.win := win;
      token := None;
      user := None;
      isLoading := true;
    }

    function CurrentSession(): Session
      reads this
    {
      Session(token, user)
    }

    /** The context value, with `isAuthenticated` and `isAdmin` derived from the state. */
    function Value(): (v: AuthContextValue)
      reads this
      ensures v.user == user && v.token == token && v.isLoading == isLoading
      ensures v.isAuthenticated <==> Truthy(token) && user.Some?
      ensures v.isAdmin <==> user.Some? && HasAdminRole(user.value.roles)
    {
      AuthContextValue(user, token, isLoading, IsAuthenticated(token, user), IsAdmin(user))
    }

    /** The mount effect: restore the session from storage, then stop loading. */
    method Restore(parse: string -> ParseOutcome)
      modifies this, win
      ensures var r := RestoreStep(old(win.storage), old(CurrentSession()), parse);
              win.storage == r.storage && CurrentSession() == r.session
      ensures StoredSessionMalformed(old(win.storage), parse) ==>
                win.log == old(win.log) + [RemoveItem(AuthTokenKey), RemoveItem(UserDataKey)]
      ensures !StoredSessionMalformed(old(win.storage), parse) ==> win.log == old(win.log)
      ensures !isLoading
    {
      var storedToken := win.GetItem(AuthTokenKey);
      var storedUser := win.GetItem(UserDataKey);
      if Truthy(storedToken) && Truthy(storedUser) {
        match parse(storedUser.value)
        case Json(u) =>
          token := storedToken;
          user := u;
        case Malformed =>
          win.RemoveItem(AuthTokenKey);
          win.RemoveItem(UserDataKey);
          token := None;
          user := None;
      }
      isLoading := false;
    }

    /** `login(newToken, newUser)`: persist both, then adopt both. */
    method Login(newToken: string, newUser: User, stringify: User -> string)
      modifies this, win
      ensures win.storage == SaveSession(old(win.storage), newToken, stringify(newUser))
      ensures win.log == old(win.log) + [SetItem(AuthTokenKey, newToken), SetItem(UserDataKey, stringify(newUser))]
      ensures token == Some(newToken) && user == Some(newUser)
      ensures isLoading == old(isLoading)
    {
      win.SetItem(AuthTokenKey, newToken);
      win.SetItem(UserDataKey, stringify(newUser));
      token := Some(newToken);
      user := Some(newUser);
    }

    /** `logout()`: remove both keys, drop the session, navigate to `/loginpage`. */
    method Logout()
      modifies this, win
      ensures win.storage == ClearSession(old(win.storage))
      ensures win.log == old(win.log) + [RemoveItem(AuthTokenKey), RemoveItem(UserDataKey), Assign(LogoutHref)]
      ensures token == None && user == None
      ensures isLoading == old(isLoading)
    {
      win.RemoveItem(AuthTokenKey);
      win.RemoveItem(UserDataKey);
      token := None;
      user := None;
      win.Navigate(LogoutHref);
    }
  }
}
