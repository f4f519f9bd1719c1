/** The vocabulary both registration pages share: the form's fields, the
    validation messages, and the payload sent to the server. */
module RegisterForm {
  import opened Common

  /** The `name` attributes of the form's inputs. */
  datatype Field = Nombre | Email | Password | ConfirmPassword | Telefono | TipoNotificacion

  datatype Form = Form(
    nombre: string,
    email: string,
    password: string,
    confirmPassword: string,
    telefono: string,
    tipoNotificacion: string)

  /** The form as the page first shows it. */
  const InitialForm := Form("", "", "", "", "", "EMAIL")

  function Get(f: Form, name: Field): string {
    match name
    case Nombre => f.nombre
    case Email => f.email
    case Password => f.password
    case ConfirmPassword => f.confirmPassword
    case Telefono => f.telefono
    case TipoNotificacion => f.tipoNotificacion
  }

  /** `{...prev, [name]: value}`: the named field takes the value, the others keep theirs. */
  function Set(f: Form, name: Field, value: string): (f': Form)
    ensures Get(f', name) == value
    ensures forall g :: g != name ==> Get(f', g) == Get(f, g)
  {
    match name
    case Nombre => f.(nombre := value)
    case Email => f.(email := value)
    case Password => f.(password := value)
    case ConfirmPassword => f.(confirmPassword := value)
    case Telefono => f.(telefono := value)
    case TipoNotificacion => f.(tipoNotificacion := value)
  }

  /** The `validationErrors` object: a message per field. */
  type Errors = map<Field, string>

  /** The page shows the message of `name` (an empty message shows nothing). */
  predicate Shown(errors: Errors, name: Field) {
    name in errors && errors[name] != ""
  }

  const NombreRequired := "El nombre es requerido"
  const EmailRequired := "El email es requerido"
  const EmailInvalid := "El email no es válido"
  const PasswordRequired := "La contraseña es requerida"
  const PasswordTooShort := "La contraseña debe tener al menos 6 caracteres"
  const PasswordsDiffer := "Las contraseñas no coinciden"

  /** The minimum password length, in UTF-16 code units. */
  const MinPasswordLength := 6

  /** `validateForm`'s verdict, and the errors it stores in `validationErrors`. */
  datatype Validation = Validation(ok: bool, errors: Errors)

  /** The `userData` object handed to `register`: no confirmation field, and
      `telefono || null` for the phone. */
  datatype Payload = Payload(
    nombre: string,
    email: string,
    password: string,
    telefono: Option<string>,
    tipoNotificacion: string)
}
