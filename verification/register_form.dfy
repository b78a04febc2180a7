/**
 * The Register screen's pure rules (frontend/src/scenes/Register.jsx): the
 * `registerSchema` field rules Formik checks before it calls the submit
 * handler, the user object the handler dispatches from the form values, and
 * the choice of error toast.
 */
module RegisterForm {
  import opened Wrappers
  import opened Json
  import opened UserSlice
  import opened AccessLevels
  import opened ProfileJson

  /**
   * What the `accessLevel` field holds: the label of the chosen option, or
   * the number the submit handler writes over it in place.
   */
  datatype Selection = Label(caption: string) | Number(level: int)

  /**
   * The form values; every field but `accessLevel` is text. Formik hands
   * the submit handler its own values object, so a write into it outlives
   * the call.
   */
  datatype Form = Form(
    firstName: string,
    lastName: string,
    email: string,
    phone: string,
    address: string,
    city: string,
    postalCode: string,
    password: string,
    confirmPassword: string,
    accessLevel: Selection)

  datatype Field =
    FirstName | LastName | Email | Phone | Address | City | PostalCode | Password | ConfirmPassword | AccessLevel

  /** `yup.string()` casts a number to its decimal text before checking it. */
  function SelectionText(sel: Selection): string {
    match sel
    case Label(c) => c
    case Number(n) => IntText(n)
  }

  /**
   * `accessLevelOptions.find(o => o.label === sel)`: a number is `===` to no
   * label, since every label is a string.
   */
  function Lookup(sel: Selection): (r: Option<int>)
    ensures sel.Number? ==> r == None
    ensures sel.Label? ==> r == LevelOf(sel.caption)
  {
    match sel
    case Label(c) => LevelOf(c)
    case Number(_) => None
  }

  /**
   * The text of a field. The email format (`.email()`) and the phone
   * pattern are library checks that are passed in as `emailOk`/`phoneOk`.
   */
  function Value(f: Form, field: Field): string {
    match field
    case FirstName => f.firstName
    case LastName => f.lastName
    case Email => f.email
    case Phone => f.phone
    case Address => f.address
    case City => f.city
    case PostalCode => f.postalCode
    case Password => f.password
    case ConfirmPassword => f.confirmPassword
    case AccessLevel => SelectionText(f.accessLevel)
  }

  /**
   * Whether the schema reports an error on a field: every field is
   * `.required()` (the empty text fails), `confirmPassword` must equal
   * `password`, and email and phone must also pass their format checks.
   */
  predicate Rejects(f: Form, field: Field, emailOk: bool, phoneOk: bool) {
    Value(f, field) == "" ||
    (field == Email && !emailOk) ||
    (field == Phone && !phoneOk) ||
    (field == ConfirmPassword && f.confirmPassword != f.password)
  }

  /** The fields the schema reports errors on. */
  function Errors(f: Form, emailOk: bool, phoneOk: bool): set<Field> {
    set field: Field | Rejects(f, field, emailOk, phoneOk)
  }

  /** Formik calls `onSubmit` only when the schema reports no error. */
  predicate SchemaAccepts(f: Form, emailOk: bool, phoneOk: bool) {
    Errors(f, emailOk, phoneOk) == {}
  }

  /** A submitted form has every field filled in, matching passwords, and well-formed email and phone. */
  lemma SchemaAcceptsExactly(f: Form, emailOk: bool, phoneOk: bool)
    ensures SchemaAccepts(f, emailOk, phoneOk) <==>
      f.firstName != "" && f.lastName != "" && f.email != "" && f.phone != "" && f.address != "" &&
      f.city != "" && f.postalCode != "" && f.password != "" && f.confirmPassword != "" && f.accessLevel != Label("") &&
      f.confirmPassword == f.password && emailOk && phoneOk
  {
    if SchemaAccepts(f, emailOk, phoneOk) {
      forall field: Field ensures !Rejects(f, field, emailOk, phoneOk) {
        assert field !in Errors(f, emailOk, phoneOk);
      }
      assert !Rejects(f, FirstName, emailOk, phoneOk) && !Rejects(f, LastName, emailOk, phoneOk);
      assert !Rejects(f, Email, emailOk, phoneOk) && !Rejects(f, Phone, emailOk, phoneOk);
      assert !Rejects(f, Address, emailOk, phoneOk) && !Rejects(f, City, emailOk, phoneOk);
      assert !Rejects(f, PostalCode, emailOk, phoneOk) && !Rejects(f, Password, emailOk, phoneOk);
      assert !Rejects(f, ConfirmPassword, emailOk, phoneOk) && !Rejects(f, AccessLevel, emailOk, phoneOk);
    }
  }

  /**
   * `{...values}` after `values.accessLevel` has been overwritten with the
   * looked-up number: the user object the first `userRegisterSuccess`
   * carries.
   */
  function FormProfile(f: Form, level: int): Profile {
    Profile(f.firstName, f.lastName, Some(level), None, None, Undefined)
  }

  /** `error.response` of a failed request: its status and `data.error`. */
  datatype HttpResponse = HttpResponse(status: int, errorText: Option<string>)

  /** What the submit handler catches: the error's `message` and `response`, either possibly missing. */
  datatype RegisterError = RegisterError(message: Option<string>, response: Option<HttpResponse>)

  const DuplicateUser: string := "User already exists"
  const RegistrationFailed: string := "Registration failed"

  /** The error toast of the catch block. */
  function ErrorToastText(e: RegisterError): (t: string)
    ensures t == DuplicateUser <==> e.response == Some(HttpResponse(409, Some(DuplicateUser)))
    ensures t == DuplicateUser || t == RegistrationFailed
  {
    if e.response.Some? && e.response.value.status == 409 && e.response.value.errorText == Some(DuplicateUser) then
      DuplicateUser
    else
      RegistrationFailed
  }
}
