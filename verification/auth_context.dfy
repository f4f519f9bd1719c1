/** The session store: two `localStorage` keys, the `Authorization` header of
    the shared HTTP client, and the `user` / `isAuthenticated` / `loading`
    state the provider exposes. `JSON.stringify` and `JSON.parse` are
    parameters: `stringify` renders a user, `parse` yields `None` where
    `JSON.parse` would throw. */
module AuthContext {
  import opened Common

  const TokenKey := "token"
  const UserKey := "user"

  /** The header value for a token: the "Bearer" scheme of section 2.1 of
      RFC 6750, written as `Bearer ${token}`. */
  function BearerHeader(token: string): (h: string)
    ensures |h| == |token| + 7 && h[..7] == "Bearer " && h[7..] == token
  {
    "Bearer " + token
  }

  datatype Session<U> = Session(
    storage: map<string, string>,
    authorization: Option<string>,
    user: Option<U>,
    isAuthenticated: bool,
    loading: bool)

  /** The provider's state before its start-up effect runs: whatever the
      browser has stored, no header, nobody signed in, loading. */
  function Mount<U>(storage: map<string, string>): (s: Session<U>)
    ensures s.storage == storage && s.authorization.None? && s.user.None?
    ensures !s.isAuthenticated && s.loading
  {
    Session(storage, None, None, false, true)
  }

  /** `localStorage.getItem(key)`: `null` for a missing key. */
  function GetItem(storage: map<string, string>, key: string): (v: Option<string>)
    ensures v.Some? <==> key in storage
    ensures v.Some? ==> v.value == storage[key]
  {
    if key in storage then Some(storage[key]) else None
  }

  /** `login({token, usuario})`: persists both, installs the header, signs in. */
  function Login<U>(s: Session<U>, token: string, usuario: U, stringify: U -> string): (s': Session<U>)
    ensures s'.storage == s.storage[TokenKey := token][UserKey := stringify(usuario)]
    ensures s'.authorization == Some(BearerHeader(token))
    ensures s'.user == Some(usuario) && s'.isAuthenticated
    ensures s'.loading == s.loading
  {
    s.(storage := s.storage[TokenKey := token][UserKey := stringify(usuario)],
       authorization := Some(BearerHeader(token)),
       user := Some(usuario),
       isAuthenticated := true)
  }

  /** `logout()`: forgets both keys and the header, signs out. */
  function Logout<U>(s: Session<U>): (s': Session<U>)
    ensures TokenKey !in s'.storage && UserKey !in s'.storage
    ensures forall k :: k != TokenKey && k != UserKey ==> (k in s'.storage <==> k in s.storage)
    ensures forall k :: k in s'.storage ==> s'.storage[k] == s.storage[k]
    ensures s'.authorization.None? && s'.user.None? && !s'.isAuthenticated
    ensures s'.loading == s.loading
  {
    s.(storage := s.storage - {TokenKey, UserKey},
       authorization := None,
       user := None,
       isAuthenticated := false)
  }

  /** Logging out twice is logging out once. */
  lemma LogoutIdempotent<U>(s: Session<U>)
    ensures Logout(Logout(s)) == Logout(s)
  {
  }

  /** `updateUser(userData)`: replaces the user in memory and in storage only. */
  function UpdateUser<U>(s: Session<U>, userData: U, stringify: U -> string): (s': Session<U>)
    ensures s'.user == Some(userData)
    ensures s'.storage == s.storage[UserKey := stringify(userData)]
    ensures TokenKey in s'.storage <==> TokenKey in s.storage
    ensures TokenKey in s.storage ==> s'.storage[TokenKey] == s.storage[TokenKey]
    ensures s'.authorization == s.authorization && s'.isAuthenticated == s.isAuthenticated
    ensures s'.loading == s.loading
  {
    s.(user := Some(userData), storage := s.storage[UserKey := stringify(userData)])
  }

  /** `initializeAuth`: with a truthy stored token and user, a user that
      parses signs the session in and one that does not is logged out; with
      either key missing or empty nothing changes. Loading ends on every path. */
  function InitializeAuth<U>(s: Session<U>, parse: string -> Option<U>): (s': Session<U>)
    ensures !s'.loading
    ensures var token := GetItem(s.storage, TokenKey); var saved := GetItem(s.storage, UserKey);
      && (Truthy(token) && Truthy(saved) && parse(saved.value).Some? ==>
            && s'.storage == s.storage
            && s'.user == parse(saved.value) && s'.isAuthenticated
            && s'.authorization == Some(BearerHeader(token.value)))
      && (Truthy(token) && Truthy(saved) && parse(saved.value).None? ==>
            s' == Logout(s).(loading := false))
      && (!(Truthy(token) && Truthy(saved)) ==> s' == s.(loading := false))
  {
    var token := GetItem(s.storage, TokenKey);
    var saved := GetItem(s.storage, UserKey);
    var s1 :=
      if Truthy(token) && Truthy(saved) then
        match parse(saved.value)
        case Some(u) =>
          s.(user := Some(u), isAuthenticated := true, authorization := Some(BearerHeader(token.value)))
        case None => Logout(s)
      else s;
    s1.(loading := false)
  }

  /** At start-up a stored token without a stored user is left where it is,
      and nobody is signed in. */
  lemma LoneTokenIsKept<U>(storage: map<string, string>, parse: string -> Option<U>)
    requires TokenKey in storage && UserKey !in storage
    ensures var s := InitializeAuth(Mount<U>(storage), parse);
      s.storage == storage && !s.isAuthenticated && s.authorization.None?
  {
  }

  /** A corrupt stored user is discarded: both keys go, nobody is signed in. */
  lemma CorruptUserIsDiscarded<U>(storage: map<string, string>, parse: string -> Option<U>)
    requires TokenKey in storage && storage[TokenKey] != ""
    requires UserKey in storage && storage[UserKey] != "" && parse(storage[UserKey]).None?
    ensures var s := InitializeAuth(Mount<U>(storage), parse);
      && TokenKey !in s.storage && UserKey !in s.storage
      && !s.isAuthenticated && s.user.None? && s.authorization.None? && !s.loading
  {
  }

  /** The header and the flag move together: signed in exactly when a header
      is installed, and then it carries the stored token. */
  ghost predicate Valid<U>(s: Session<U>) {
    && (s.isAuthenticated <==> s.authorization.Some?)
    && (s.authorization.Some? ==>
          TokenKey in s.storage && s.authorization.value == BearerHeader(s.storage[TokenKey]))
    && (s.isAuthenticated ==> s.user.Some?)
  }

  /** What can happen to the session after start-up. */
  datatype Op<U> = LoginOp(token: string, usuario: U) | LogoutOp | UpdateUserOp(userData: U)

  function Apply<U>(s: Session<U>, op: Op<U>, stringify: U -> string): Session<U> {
    match op
    case LoginOp(token, usuario) => Login(s, token, usuario, stringify)
    case LogoutOp => Logout(s)
    case UpdateUserOp(u) => UpdateUser(s, u, stringify)
  }

  function Replay<U>(s: Session<U>, ops: seq<Op<U>>, stringify: U -> string): Session<U>
    decreases |ops|
  {
    if ops == [] then s else Replay(Apply(s, ops[0], stringify), ops[1..], stringify)
  }

  /** Start-up establishes the invariant from any stored content. */
  lemma StartupIsValid<U>(storage: map<string, string>, parse: string -> Option<U>)
    ensures Valid(InitializeAuth(Mount<U>(storage), parse))
  {
  }

  /** Every operation keeps the invariant. */
  lemma ApplyKeepsValid<U>(s: Session<U>, op: Op<U>, stringify: U -> string)
    requires Valid(s)
    ensures Valid(Apply(s, op, stringify))
  {
  }

  /** Whatever sequence of logins, logouts and user updates follows start-up,
      `isAuthenticated` holds exactly when the header is installed, and the
      header is `Bearer ` followed by the stored token. */
  lemma {:induction false} ReplayKeepsValid<U>(
    storage: map<string, string>, parse: string -> Option<U>, ops: seq<Op<U>>, stringify: U -> string)
    ensures var s := Replay(InitializeAuth(Mount<U>(storage), parse), ops, stringify);
      && (s.isAuthenticated <==> s.authorization.Some?)
      && (s.authorization.Some? ==>
            TokenKey in s.storage && s.authorization.value == "Bearer " + s.storage[TokenKey])
  {
    StartupIsValid(storage, parse);
    ValidAlong(InitializeAuth(Mount<U>(storage), parse), ops, stringify);
  }

  lemma {:induction false} ValidAlong<U>(s: Session<U>, ops: seq<Op<U>>, stringify: U -> string)
    requires Valid(s)
    ensures Valid(Replay(s, ops, stringify))
    decreases |ops|
  {
    if ops != [] {
      ApplyKeepsValid(s, ops[0], stringify);
      ValidAlong(Apply(s, ops[0], stringify), ops[1..], stringify);
    }
  }

  /** The stored user reads back as the signed-in user. */
  ghost predicate Persisted<U>(s: Session<U>, parse: string -> Option<U>) {
    s.isAuthenticated ==> UserKey in s.storage && parse(s.storage[UserKey]) == s.user
  }

  /** With `parse` undoing `stringify`, every operation keeps the stored
      user in step with the signed-in user. */
  lemma ApplyKeepsPersisted<U>(s: Session<U>, op: Op<U>, stringify: U -> string, parse: string -> Option<U>)
    requires forall u :: parse(stringify(u)) == Some(u)
    requires Persisted(s, parse)
    ensures Persisted(Apply(s, op, stringify), parse)
  {
    match op
    case LoginOp(token, usuario) =>
      assert parse(stringify(usuario)) == Some(usuario);
    case LogoutOp =>
    case UpdateUserOp(u) =>
      assert parse(stringify(u)) == Some(u);
  }

  /** Reloading the page restores a signed-in session: start-up from what a
      valid, signed-in session stored gives back the same user, flag and
      header, provided the stored token and user are not empty strings. */
  lemma ReloadRestoresSession<U>(s: Session<U>, parse: string -> Option<U>)
    requires Valid(s) && Persisted(s, parse) && s.isAuthenticated
    requires s.storage[TokenKey] != "" && s.storage[UserKey] != ""
    ensures var r := InitializeAuth(Mount<U>(s.storage), parse);
      r.user == s.user && r.isAuthenticated && r.authorization == s.authorization
      && r.storage == s.storage
  {
  }

  /** An empty token is accepted by `login` but does not survive a reload,
      because start-up reads it as missing. */
  lemma EmptyTokenNotRestored<U>(s: Session<U>, usuario: U, stringify: U -> string, parse: string -> Option<U>)
    ensures var after := Login(s, "", usuario, stringify);
      after.isAuthenticated && !InitializeAuth(Mount<U>(after.storage), parse).isAuthenticated
  {
  }
}
