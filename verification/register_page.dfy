/** The registration page: its validator, its input handler and its submit
    handler, which calls the `register` account operation. */
module RegisterPage {
  import opened Common
  import opened JsText
  import opened EmailRegex
  import opened RegisterForm
  import AuthOperations

  /** `!formData.nombre.trim()`: the name is blank. */
  function NombreCheck(nombre: string): (e: Option<string>)
    ensures e.Some? <==> Blank(nombre)
    ensures e.Some? ==> e.value == NombreRequired
  {
    TrimEmptyIffBlank(nombre);
    if Trim(nombre) == "" then Some(NombreRequired) else None
  }

  /** A blank address is missing; any other that does not match the pattern
      is invalid. At most one of the two. */
  function EmailCheck(email: string): (e: Option<string>)
    ensures Blank(email) ==> e == Some(EmailRequired)
    ensures !Blank(email) && !Pattern(email) ==> e == Some(EmailInvalid)
    ensures !Blank(email) && Pattern(email) ==> e.None?
  {
    TrimEmptyIffBlank(email);
    if Trim(email) == "" then Some(EmailRequired)
    else if !Matches(email) then Some(EmailInvalid)
    else None
  }

  /** The two tests of `EmailCheck`, in the order the source makes them. */
  lemma EmailCheckCases(email: string)
    ensures Trim(email) == "" ==> EmailCheck(email) == Some(EmailRequired)
    ensures Trim(email) != "" && !Matches(email) ==> EmailCheck(email) == Some(EmailInvalid)
    ensures Trim(email) != "" && Matches(email) ==> EmailCheck(email).None?
  {
  }

  /** An empty password is missing; one under six UTF-16 code units is too short. */
  function PasswordCheck(password: string): (e: Option<string>)
    ensures password == "" ==> e == Some(PasswordRequired)
    ensures password != "" && Utf16Length(password) < MinPasswordLength ==> e == Some(PasswordTooShort)
    ensures Utf16Length(password) >= MinPasswordLength ==> e.None?
  {
    if password == "" then Some(PasswordRequired)
    else if Utf16Length(password) < MinPasswordLength then Some(PasswordTooShort)
    else None
  }

  /** The confirmation is checked on its own, whatever the other checks found. */
  function ConfirmCheck(password: string, confirmPassword: string): (e: Option<string>)
    ensures e.Some? <==> password != confirmPassword
    ensures e.Some? ==> e.value == PasswordsDiffer
  {
    if password != confirmPassword then Some(PasswordsDiffer) else None
  }

  /** The four checks of a form, by field; the other fields are not checked. */
  function Check(f: Form, name: Field): Option<string> {
    match name
    case Nombre => NombreCheck(f.nombre)
    case Email => EmailCheck(f.email)
    case Password => PasswordCheck(f.password)
    case ConfirmPassword => ConfirmCheck(f.password, f.confirmPassword)
    case _ => None
  }

  /** Stores a failed check's message under `name`; every other entry stays. */
  function Record(errors: Errors, name: Field, check: Option<string>): (e: Errors)
    ensures name in e <==> check.Some? || name in errors
    ensures check.Some? ==> e[name] == check.value
    ensures check.None? && name in errors ==> e[name] == errors[name]
    ensures forall k :: k != name ==> (k in e <==> k in errors)
    ensures forall k :: k != name && k in errors ==> e[k] == errors[k]
  {
    if check.Some? then errors[name := check.value] else errors
  }

  /** The `errors` object `validateForm` builds, one `if` block after another. */
  function ValidationErrors(f: Form): Errors {
    var e0: Errors := map[];
    var e1 := Record(e0, Nombre, NombreCheck(f.nombre));
    var e2 := Record(e1, Email, EmailCheck(f.email));
    var e3 := Record(e2, Password, PasswordCheck(f.password));
    Record(e3, ConfirmPassword, ConfirmCheck(f.password, f.confirmPassword))
  }

  /** `validateForm`: the `errors` object holds exactly the messages of the
      checks that failed, and the form is accepted exactly when it is empty. */
  function ValidateForm(f: Form): (v: Validation)
    ensures forall name :: (name in v.errors <==> Check(f, name).Some?)
    ensures forall name :: name in v.errors ==> v.errors[name] == Check(f, name).value
    ensures v.ok <==> forall name :: Check(f, name).None?
  {
    var errors := ValidationErrors(f);
    forall name ensures (name in errors <==> Check(f, name).Some?)
      && (name in errors ==> errors[name] == Check(f, name).value) {
      ErrorsMatchCheck(f, name);
    }
    assert |errors.Keys| == 0 <==> errors.Keys == {};
    Validation(|errors.Keys| == 0, errors)
  }

  lemma ErrorsMatchCheck(f: Form, name: Field)
    ensures name in ValidationErrors(f) <==> Check(f, name).Some?
    ensures name in ValidationErrors(f) ==> ValidationErrors(f)[name] == Check(f, name).value
  {
    RecordAll(NombreCheck(f.nombre), EmailCheck(f.email),
      PasswordCheck(f.password), ConfirmCheck(f.password, f.confirmPassword), name);
  }

  /** Four `Record`s on distinct fields keep each field's own check. */
  lemma RecordAll(c1: Option<string>, c2: Option<string>, c3: Option<string>, c4: Option<string>, name: Field)
    ensures var e := Record(Record(Record(Record(map[], Nombre, c1), Email, c2), Password, c3), ConfirmPassword, c4);
      var c := match name
        case Nombre => c1 case Email => c2 case Password => c3 case ConfirmPassword => c4 case _ => None;
      (name in e <==> c.Some?) && (name in e ==> e[name] == c.value)
  {
  }

  /** An address that fits the pattern is never blank: it holds an '@'. */
  lemma PatternIsNotBlank(s: string)
    requires Pattern(s)
    ensures !Blank(s)
  {
    var i, j :| 0 < i && i + 1 < j < |s| - 1 && s[i] == '@' && s[j] == '.'
      && AllAllowed(s[..i]) && AllAllowed(s[i + 1..j]) && AllAllowed(s[j + 1..]);
    assert !IsSpace(s[i]);
  }

  /** The form is accepted exactly when the name is not blank, the e-mail fits
      the pattern, the password has at least six code units and the
      confirmation repeats it. */
  lemma ValidIff(f: Form)
    ensures ValidateForm(f).ok <==>
      && !Blank(f.nombre)
      && Pattern(f.email)
      && Utf16Length(f.password) >= MinPasswordLength
      && f.password == f.confirmPassword
  {
    OkIffChecksPass(f);
    EmailPassesIffPattern(f.email);
  }

  /** The verdict is the conjunction of the four checks. */
  lemma OkIffChecksPass(f: Form)
    ensures ValidateForm(f).ok <==>
      && NombreCheck(f.nombre).None? && EmailCheck(f.email).None?
      && PasswordCheck(f.password).None? && ConfirmCheck(f.password, f.confirmPassword).None?
  {
    var v := ValidateForm(f);
    if Check(f, Nombre).None? && Check(f, Email).None?
      && Check(f, Password).None? && Check(f, ConfirmPassword).None? {
      forall name ensures Check(f, name).None? {
        match name
        case Nombre =>
        case Email =>
        case Password =>
        case ConfirmPassword =>
        case Telefono =>
        case TipoNotificacion =>
      }
    }
  }

  lemma EmailPassesIffPattern(email: string)
    ensures EmailCheck(email).None? <==> Pattern(email)
  {
    if Pattern(email) {
      PatternIsNotBlank(email);
    }
  }

  /** Two empty passwords draw the "required" message and no mismatch message. */
  lemma BothPasswordsEmpty(f: Form)
    requires f.password == "" && f.confirmPassword == ""
    ensures var v := ValidateForm(f);
      Password in v.errors && v.errors[Password] == PasswordRequired && ConfirmPassword !in v.errors
  {
    assert Check(f, Password) == Some(PasswordRequired);
    assert Check(f, ConfirmPassword).None?;
  }

  /** What `handleInputChange` updates: the form, the field errors, and the
      account operations' error. */
  datatype Page<U> = Page(form: Form, validationErrors: Errors, ops: AuthOperations.Ops<U>)

  /** `handleInputChange`: the named field takes the value; its message, if
      shown, is blanked (the key stays, holding ''); every other field and
      message is untouched; a pending server error is cleared. */
  function HandleInputChange<U>(p: Page<U>, name: Field, value: string): (p': Page<U>)
    ensures Get(p'.form, name) == value
    ensures forall g :: g != name ==> Get(p'.form, g) == Get(p.form, g)
    ensures !Shown(p'.validationErrors, name)
    ensures p'.validationErrors.Keys == p.validationErrors.Keys
    ensures forall g :: g != name && g in p.validationErrors ==> p'.validationErrors[g] == p.validationErrors[g]
    ensures p'.ops.session == p.ops.session && p'.ops.loading == p.ops.loading
    ensures Truthy(p.ops.error) ==> p'.ops.error.None?
    ensures !Truthy(p.ops.error) ==> p'.ops.error == p.ops.error
  {
    var form := Set(p.form, name, value);
    var ops := if Truthy(p.ops.error) then AuthOperations.ClearError(p.ops) else p.ops;
    var errors := if Shown(p.validationErrors, name) then p.validationErrors[name := ""] else p.validationErrors;
    Page(form, errors, ops)
  }

  /** The `userData` built from a valid form. */
  function BuildPayload(f: Form): (d: Payload)
    ensures d.nombre == f.nombre && d.email == f.email && d.password == f.password
    ensures d.tipoNotificacion == f.tipoNotificacion
    ensures d.telefono.None? <==> f.telefono == ""
    ensures d.telefono.Some? ==> d.telefono.value == f.telefono
  {
    Payload(f.nombre, f.email, f.password, if f.telefono != "" then Some(f.telefono) else None, f.tipoNotificacion)
  }

  /** What submitting the form does: the errors it stores, the payload it
      sends (`None` when `register` is not called), the account operations'
      state afterwards, and whether it moves on to the login page. */
  datatype Submitted<U> = Submitted(
    validationErrors: Errors,
    payload: Option<Payload>,
    ops: AuthOperations.Ops<U>,
    navigateToLogin: bool)

  /** `handleSubmit`, with `response` the outcome `register` would have. An
      invalid form returns before `register` is called; a valid one sends the
      payload and moves on to the login page only if registration succeeded
      (a re-thrown failure is caught and logged). */
  function HandleSubmit<U>(o: AuthOperations.Ops<U>, f: Form, response: Remote<()>): (s: Submitted<U>)
    ensures s.validationErrors == ValidateForm(f).errors
    ensures s.payload.Some? <==> ValidateForm(f).ok
    ensures s.payload.None? ==> s.ops == o && !s.navigateToLogin
    ensures s.payload.Some? ==> (s.payload.value == BuildPayload(f)
      && s.ops == AuthOperations.Register(o, response).ops
      && (s.navigateToLogin <==> response.Ok?))
    ensures s.ops.session == o.session
  {
    var v := ValidateForm(f);
    if !v.ok then Submitted(v.errors, None, o, false)
    else
      var step := AuthOperations.Register<U, ()>(o, response);
      Submitted(v.errors, Some(BuildPayload(f)), step.ops, step.outcome.Returned?)
  }
}
