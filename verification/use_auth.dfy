/** `useAuthOperations`: the asynchronous account operations, each wrapped in
    `loading` / `error` bookkeeping around one `authService` call whose
    outcome is a parameter. */
module AuthOperations {
  import opened Common
  import opened AuthContext

  /** What `authService.login` and `authService.loginWithGoogle` resolve to. */
  datatype AuthData<U> = AuthData(token: string, usuario: U)

  /** The session store together with the hook's own `loading` and `error`. */
  datatype Ops<U> = Ops(session: Session<U>, loading: bool, error: Option<string>)

  /** How an operation ends for its caller: with a value, or by re-throwing. */
  datatype Outcome<+T> = Returned(value: T) | Rethrown

  datatype Step<U, T> = Step(ops: Ops<U>, outcome: Outcome<T>)

  const LoginDefault := "Error al iniciar sesión"
  const GoogleDefault := "Error al iniciar sesión con Google"
  const RegisterDefault := "Error al registrar usuario"
  const ProfileDefault := "Error al obtener perfil"
  const UpdateProfileDefault := "Error al actualizar perfil"

  /** `setLoading(true); setError(null)` before the call is awaited. */
  function Begin<U>(o: Ops<U>): (o': Ops<U>)
    ensures o'.loading && o'.error.None? && o'.session == o.session
  {
    o.(loading := true, error := None)
  }

  /** The shared `catch` / `finally`: record the server's message, or the
      operation's default when there is none, stop loading, re-throw. */
  function Failed<U, T>(o: Ops<U>, message: Option<string>, default: string): (st: Step<U, T>)
    ensures st.ops.session == o.session && !st.ops.loading && st.outcome.Rethrown?
    ensures Truthy(message) ==> st.ops.error == message
    ensures !Truthy(message) ==> st.ops.error == Some(default)
  {
    Step(Ops(o.session, false, Some(OrElse(message, default))), Rethrown)
  }

  /** Shared by `loginWithEmail` and `loginWithGoogle`: a response signs the
      session in and is returned; a failure leaves the session alone. */
  function SignIn<U>(o: Ops<U>, response: Remote<AuthData<U>>, default: string, stringify: U -> string): (st: Step<U, AuthData<U>>)
    ensures !st.ops.loading
    ensures response.Ok? ==>
      && st.outcome == Returned(response.value) && st.ops.error.None?
      && st.ops.session == Login(o.session, response.value.token, response.value.usuario, stringify)
    ensures response.Fail? ==>
      st == Failed(o, response.message, default)
  {
    var o1 := Begin(o);
    match response
    case Ok(d) => Step(o1.(session := Login(o1.session, d.token, d.usuario, stringify), loading := false), Returned(d))
    case Fail(m) => Failed(o1, m, default)
  }

  /** `loginWithEmail`. */
  function LoginWithEmail<U>(o: Ops<U>, response: Remote<AuthData<U>>, stringify: U -> string): (st: Step<U, AuthData<U>>)
    ensures !st.ops.loading
    ensures response.Ok? ==> (st.outcome == Returned(response.value)
      && st.ops.session.isAuthenticated && st.ops.session.user == Some(response.value.usuario)
      && st.ops.session.authorization == Some("Bearer " + response.value.token))
    ensures response.Fail? ==> (st.outcome.Rethrown? && st.ops.session == o.session
      && st.ops.error == Some(OrElse(response.message, LoginDefault)))
  {
    SignIn(o, response, LoginDefault, stringify)
  }

  /** `loginWithGoogle`. */
  function LoginWithGoogle<U>(o: Ops<U>, response: Remote<AuthData<U>>, stringify: U -> string): (st: Step<U, AuthData<U>>)
    ensures !st.ops.loading
    ensures response.Ok? ==> (st.outcome == Returned(response.value)
      && st.ops.session.isAuthenticated && st.ops.session.user == Some(response.value.usuario)
      && st.ops.session.authorization == Some("Bearer " + response.value.token))
    ensures response.Fail? ==> (st.outcome.Rethrown? && st.ops.session == o.session
      && st.ops.error == Some(OrElse(response.message, GoogleDefault)))
  {
    SignIn(o, response, GoogleDefault, stringify)
  }

  /** `register`: never touches the session, on either path. */
  function Register<U, R>(o: Ops<U>, response: Remote<R>): (st: Step<U, R>)
    ensures st.ops.session == o.session && !st.ops.loading
    ensures response.Ok? ==> st.outcome == Returned(response.value) && st.ops.error.None?
    ensures response.Fail? ==> (st.outcome.Rethrown?
      && st.ops.error == Some(OrElse(response.message, RegisterDefault)))
  {
    var o1 := Begin(o);
    match response
    case Ok(r) => Step(o1.(loading := false), Returned(r))
    case Fail(m) => Failed(o1, m, RegisterDefault)
  }

  /** Shared by `getProfile` and `updateProfile`: a response replaces only the user. */
  function RefreshUser<U>(o: Ops<U>, response: Remote<U>, default: string, stringify: U -> string): (st: Step<U, U>)
    ensures !st.ops.loading
    ensures response.Ok? ==> (st.outcome == Returned(response.value) && st.ops.error.None?
      && st.ops.session == UpdateUser(o.session, response.value, stringify))
    ensures response.Fail? ==> st == Failed(o, response.message, default)
  {
    var o1 := Begin(o);
    match response
    case Ok(u) => Step(o1.(session := UpdateUser(o1.session, u, stringify), loading := false), Returned(u))
    case Fail(m) => Failed(o1, m, default)
  }

  /** `getProfile`: a fetched profile changes the user and nothing about the
      credential. */
  function GetProfile<U>(o: Ops<U>, response: Remote<U>, stringify: U -> string): (st: Step<U, U>)
    ensures !st.ops.loading
    ensures response.Ok? ==> (st.outcome == Returned(response.value)
      && st.ops.session.user == Some(response.value)
      && st.ops.session.authorization == o.session.authorization
      && st.ops.session.isAuthenticated == o.session.isAuthenticated
      && (TokenKey in st.ops.session.storage <==> TokenKey in o.session.storage)
      && (TokenKey in o.session.storage ==> st.ops.session.storage[TokenKey] == o.session.storage[TokenKey]))
    ensures response.Fail? ==> (st.outcome.Rethrown? && st.ops.session == o.session
      && st.ops.error == Some(OrElse(response.message, ProfileDefault)))
  {
    RefreshUser(o, response, ProfileDefault, stringify)
  }

  /** `updateProfile`: as `getProfile`, with its own default message. */
  function UpdateProfile<U>(o: Ops<U>, response: Remote<U>, stringify: U -> string): (st: Step<U, U>)
    ensures !st.ops.loading
    ensures response.Ok? ==> (st.outcome == Returned(response.value)
      && st.ops.session.user == Some(response.value)
      && st.ops.session.authorization == o.session.authorization
      && st.ops.session.isAuthenticated == o.session.isAuthenticated)
    ensures response.Fail? ==> (st.outcome.Rethrown? && st.ops.session == o.session
      && st.ops.error == Some(OrElse(response.message, UpdateProfileDefault)))
  {
    RefreshUser(o, response, UpdateProfileDefault, stringify)
  }

  /** `logoutUser`: the local logout happens whether or not the server call
      succeeded, the error stays cleared, and nothing is re-thrown. */
  function LogoutUser<U>(o: Ops<U>, response: Remote<()>): (st: Step<U, ()>)
    ensures st.ops.session == Logout(o.session)
    ensures !st.ops.session.isAuthenticated && st.ops.session.authorization.None?
    ensures TokenKey !in st.ops.session.storage && UserKey !in st.ops.session.storage
    ensures st.ops.error.None? && !st.ops.loading && st.outcome.Returned?
  {
    var o1 := Begin(o);
    match response
    case Ok(_) => Step(o1.(session := Logout(o1.session), loading := false), Returned(()))
    case Fail(_) => Step(o1.(session := Logout(o1.session), loading := false), Returned(()))
  }

  /** The remote outcome of `logoutUser` makes no difference at all. */
  lemma LogoutIgnoresServer<U>(o: Ops<U>, m: Option<string>)
    ensures LogoutUser(o, Fail(m)) == LogoutUser(o, Ok(()))
  {
  }

  /** `clearError`. */
  function ClearError<U>(o: Ops<U>): (o': Ops<U>)
    ensures o'.error.None? && o'.session == o.session && o'.loading == o.loading
  {
    o.(error := None)
  }

  /** One call into the hook, with the outcome its service call had. */
  datatype Call<U> =
    | EmailLogin(authResponse: Remote<AuthData<U>>)
    | GoogleLogin(authResponse: Remote<AuthData<U>>)
    | Registration(outcome: Remote<()>)
    | ProfileFetch(profile: Remote<U>)
    | ProfileUpdate(profile: Remote<U>)
    | LogoutCall(outcome: Remote<()>)
    | ClearErrorCall

  function Perform<U>(o: Ops<U>, c: Call<U>, stringify: U -> string): Ops<U> {
    match c
    case EmailLogin(r) => LoginWithEmail(o, r, stringify).ops
    case GoogleLogin(r) => LoginWithGoogle(o, r, stringify).ops
    case Registration(r) => Register(o, r).ops
    case ProfileFetch(r) => GetProfile(o, r, stringify).ops
    case ProfileUpdate(r) => UpdateProfile(o, r, stringify).ops
    case LogoutCall(r) => LogoutUser(o, r).ops
    case ClearErrorCall => ClearError(o)
  }

  function PerformAll<U>(o: Ops<U>, cs: seq<Call<U>>, stringify: U -> string): Ops<U>
    decreases |cs|
  {
    if cs == [] then o else PerformAll(Perform(o, cs[0], stringify), cs[1..], stringify)
  }

  /** Whatever the hook is asked to do and however the server answers, a
      session that was consistent stays consistent, and no operation leaves
      `loading` set once it has settled. */
  lemma {:induction false} CallsKeepSessionValid<U>(o: Ops<U>, cs: seq<Call<U>>, stringify: U -> string)
    requires Valid(o.session) && !o.loading
    ensures Valid(PerformAll(o, cs, stringify).session)
    ensures !PerformAll(o, cs, stringify).loading
    decreases |cs|
  {
    if cs != [] {
      var o1 := Perform(o, cs[0], stringify);
      match cs[0] {
      case EmailLogin(r) =>
        if r.Ok? { ApplyKeepsValid(o.session, LoginOp(r.value.token, r.value.usuario), stringify); }
      case GoogleLogin(r) =>
        if r.Ok? { ApplyKeepsValid(o.session, LoginOp(r.value.token, r.value.usuario), stringify); }
      case Registration(_) =>
      case ProfileFetch(r) =>
        if r.Ok? { ApplyKeepsValid(o.session, UpdateUserOp(r.value), stringify); }
      case ProfileUpdate(r) =>
        if r.Ok? { ApplyKeepsValid(o.session, UpdateUserOp(r.value), stringify); }
      case LogoutCall(_) =>
        ApplyKeepsValid(o.session, LogoutOp, stringify);
      case ClearErrorCall =>
      }
      CallsKeepSessionValid(o1, cs[1..], stringify);
    }
  }
}
