/** The older registration page. Its validator is written here the way the
    source writes it, as a chain of `if`s filling the `errors` object, and is
    proved to agree with the newer page's field-by-field validator on every
    form; its input and submit handlers agree with the newer ones as well. */
module LegacyRegisterPage {
  import opened Common
  import opened JsText
  import opened EmailRegex
  import opened RegisterForm
  import AuthOperations
  import RegisterPage

  /** The `errors` object, filled in the order the source checks the fields.
      It is the newer page's object on every form, one `if` block at a time. */
  function ValidationErrors(f: Form): (e: Errors)
    ensures e == RegisterPage.ValidationErrors(f)
  {
    var e0: Errors := map[];
    var e1 := if Trim(f.nombre) == "" then e0[Nombre := NombreRequired] else e0;
    NombreStep(e0, f.nombre);
    var e2 :=
      if Trim(f.email) == "" then e1[Email := EmailRequired]
      else if !Matches(f.email) then e1[Email := EmailInvalid]
      else e1;
    EmailStep(e1, f.email);
    var e3 :=
      if f.password == "" then e2[Password := PasswordRequired]
      else if Utf16Length(f.password) < MinPasswordLength then e2[Password := PasswordTooShort]
      else e2;
    PasswordStep(e2, f.password);
    ConfirmStep(e3, f.password, f.confirmPassword);
    assert RegisterPage.ValidationErrors(f)
      == RegisterPage.Record(e3, ConfirmPassword, RegisterPage.ConfirmCheck(f.password, f.confirmPassword));
    if f.password != f.confirmPassword then e3[ConfirmPassword := PasswordsDiffer] else e3
  }

  /** `validateForm`: `Object.keys(errors).length === 0`. Both pages give the
      same verdict and the same messages on every form, so every property
      proved of one holds of the other. */
  function ValidateForm(f: Form): (v: Validation)
    ensures v == RegisterPage.ValidateForm(f)
  {
    var errors := ValidationErrors(f);
    assert RegisterPage.ValidateForm(f) == Validation(|errors.Keys| == 0, errors);
    Validation(|errors.Keys| == 0, errors)
  }

  lemma ConfirmStep(e: Errors, password: string, confirmPassword: string)
    ensures (if password != confirmPassword then e[ConfirmPassword := PasswordsDiffer] else e)
      == RegisterPage.Record(e, ConfirmPassword, RegisterPage.ConfirmCheck(password, confirmPassword))
  {
  }

  lemma NombreStep(e: Errors, nombre: string)
    ensures (if Trim(nombre) == "" then e[Nombre := NombreRequired] else e)
      == RegisterPage.Record(e, Nombre, RegisterPage.NombreCheck(nombre))
  {
    var c := RegisterPage.NombreCheck(nombre);
    if Trim(nombre) == "" {
      assert c == Some(NombreRequired);
    } else {
      assert c.None?;
    }
  }

  lemma EmailStep(e: Errors, email: string)
    ensures (if Trim(email) == "" then e[Email := EmailRequired]
      else if !Matches(email) then e[Email := EmailInvalid]
      else e) == RegisterPage.Record(e, Email, RegisterPage.EmailCheck(email))
  {
    RegisterPage.EmailCheckCases(email);
    EmailRecord(e, Trim(email) == "", Matches(email), RegisterPage.EmailCheck(email));
  }

  /** The e-mail block with its two tests abstracted to booleans. */
  lemma EmailRecord(e: Errors, blank: bool, matches: bool, c: Option<string>)
    requires blank ==> c == Some(EmailRequired)
    requires !blank && !matches ==> c == Some(EmailInvalid)
    requires !blank && matches ==> c.None?
    ensures (if blank then e[Email := EmailRequired]
      else if !matches then e[Email := EmailInvalid]
      else e) == RegisterPage.Record(e, Email, c)
  {
  }

  lemma PasswordStep(e: Errors, password: string)
    ensures (if password == "" then e[Password := PasswordRequired]
      else if Utf16Length(password) < MinPasswordLength then e[Password := PasswordTooShort]
      else e) == RegisterPage.Record(e, Password, RegisterPage.PasswordCheck(password))
  {
  }

  /** The older page accepts exactly the forms the newer one does: a name that
      is not blank, an e-mail that fits the pattern, a password of at least six
      code units, repeated in the confirmation. */
  lemma ValidIff(f: Form)
    ensures ValidateForm(f).ok <==>
      && !Blank(f.nombre)
      && Pattern(f.email)
      && Utf16Length(f.password) >= MinPasswordLength
      && f.password == f.confirmPassword
  {
    RegisterPage.ValidIff(f);
  }

  /** The confirmation message appears exactly when the two passwords differ. */
  lemma ConfirmErrorIff(f: Form)
    ensures ConfirmPassword in ValidateForm(f).errors <==> f.password != f.confirmPassword
  {
    assert RegisterPage.Check(f, ConfirmPassword) == RegisterPage.ConfirmCheck(f.password, f.confirmPassword);
  }

  /** `handleInputChange`, as the older page writes it. It updates only the
      named field and blanks only that field's message, exactly as the newer
      page's handler does. */
  function HandleInputChange<U>(p: RegisterPage.Page<U>, name: Field, value: string): (p': RegisterPage.Page<U>)
    ensures p' == RegisterPage.HandleInputChange(p, name, value)
    ensures Get(p'.form, name) == value
    ensures !Shown(p'.validationErrors, name)
  {
    var ops := if Truthy(p.ops.error) then AuthOperations.ClearError(p.ops) else p.ops;
    var errors := if Shown(p.validationErrors, name) then p.validationErrors[name := ""] else p.validationErrors;
    RegisterPage.Page(Set(p.form, name, value), errors, ops)
  }

  /** `handleSubmit`, as the older page writes it. It blocks the same forms
      before `register` as the newer page and sends the same payload: no
      confirmation, and an empty phone as `null`. */
  function HandleSubmit<U>(o: AuthOperations.Ops<U>, f: Form, response: Remote<()>): (r: RegisterPage.Submitted<U>)
    ensures r == RegisterPage.HandleSubmit(o, f, response)
    ensures r.payload.None? <==> !ValidateForm(f).ok
    ensures r.payload.Some? ==> (r.payload.value.telefono.None? <==> f.telefono == "")
  {
    var v := ValidateForm(f);
    if !v.ok then RegisterPage.Submitted(v.errors, None, o, false)
    else
      var d := Payload(f.nombre, f.email, f.password, if f.telefono != "" then Some(f.telefono) else None, f.tipoNotificacion);
      var step := AuthOperations.Register<U, ()>(o, response);
      RegisterPage.Submitted(v.errors, Some(d), step.ops, step.outcome.Returned?)
  }
}
