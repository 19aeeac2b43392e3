/** The sign-up form (src/pages/RegisterPage.tsx). */
module RegisterPage {
  import opened Common

  /** `formData`: the five text inputs and the account type. */
  datatype FormData = FormData(
    username: string,
    password: string,
    confirmPassword: string,
    email: string,
    name: string,
    userType: string)

  /** The `name` attribute of each text input, which `handleChange` uses as the key. */
  datatype Field = Username | Password | ConfirmPassword | Email | Name

  const InitialForm := FormData("", "", "", "", "", "company")

  function Get(form: FormData, field: Field): string {
    match field
    case Username => form.username
    case Password => form.password
    case ConfirmPassword => form.confirmPassword
    case Email => form.email
    case Name => form.name
  }

  /** `{ ...prev, [name]: value }`: only the named field changes. */
  function WithField(form: FormData, field: Field, value: string): (updated: FormData)
    ensures Get(updated, field) == value
    ensures forall other :: other != field ==> Get(updated, other) == Get(form, other)
    ensures updated.userType == form.userType
  {
    match field
    case Username => form.(username := value)
    case Password => form.(password := value)
    case ConfirmPassword => form.(confirmPassword := value)
    case Email => form.(email := value)
    case Name => form.(name := value)
  }

  /** `{ ...prev, type: value }`: only the account type changes. */
  function WithType(form: FormData, value: string): (updated: FormData)
    ensures updated.userType == value
    ensures forall field :: Get(updated, field) == Get(form, field)
  {
    form.(userType := value)
  }

  /** The initial form has every text field empty and the company type. */
  lemma InitialFormEmpty()
    ensures forall field :: Get(InitialForm, field) == ""
    ensures InitialForm.userType == "company"
  {
  }

  const RequiredMessage := "All fields are required"
  const MismatchMessage := "Passwords don't match"
  const LengthMessage := "Password must be at least 6 characters"

  /** One of the four fields the first check looks at is empty (`confirmPassword`
      is not among them). */
  predicate AnyFieldEmpty(form: FormData) {
    form.username == "" || form.password == "" || form.email == "" || form.name == ""
  }

  /** The ordered checks of `handleSubmit`; the first failing one gives the error. */
  function Validate(form: FormData): (error: Option<string>)
    ensures error == Some(RequiredMessage) <==> AnyFieldEmpty(form)
    ensures error == Some(MismatchMessage) <==> !AnyFieldEmpty(form) && form.password != form.confirmPassword
    ensures error == Some(LengthMessage)
      <==> !AnyFieldEmpty(form) && form.password == form.confirmPassword && |form.password| < 6
    ensures error == None
      <==> !AnyFieldEmpty(form) && form.password == form.confirmPassword && |form.password| >= 6
  {
    if AnyFieldEmpty(form) then Some(RequiredMessage)
    else if form.password != form.confirmPassword then Some(MismatchMessage)
    else if |form.password| < 6 then Some(LengthMessage)
    else None
  }

  /** A form that passes has all five text fields filled in: the confirmation
      equals the non-empty password. */
  lemma AcceptedFormComplete(form: FormData)
    requires Validate(form).None?
    ensures forall field :: Get(form, field) != ""
  {
    forall field ensures Get(form, field) != "" {
      if field == ConfirmPassword {
        assert form.confirmPassword == form.password;
      }
    }
  }

  /** The form's state: the record, the busy flag and the error line. */
  class RegisterForm {
    var formData: FormData
    var loading: bool
    var error: string

    constructor ()
      ensures formData == InitialForm && !loading && error == ""
    {
      formData := InitialForm;
      loading := false;
      error := "";
    }

    method HandleChange(field: Field, value: string)
      modifies this
      ensures formData == WithField(old(formData), field, value)
      ensures loading == old(loading) && error == old(error)
    {
      formData := WithField(formData, field, value);
    }

    method HandleTypeChange(value: string)
      modifies this
      ensures formData == WithType(old(formData), value)
      ensures loading == old(loading) && error == old(error)
    {
      formData := WithType(formData, value);
    }

    /** `handleSubmit`: `register` is called exactly when every check passes,
        with `registerOk` standing for its answer; the error is the first
        failing check's message (or stays cleared); loading is off afterwards;
        a successful registration navigates to the login page. */
    method HandleSubmit(registerOk: bool) returns (registerCalled: bool, navigateTo: Option<string>)
      modifies this
      ensures registerCalled <==> Validate(old(formData)).None?
      ensures error == (if registerCalled then "" else Validate(old(formData)).value)
      ensures !loading
      ensures formData == old(formData)
      ensures navigateTo == (if registerCalled && registerOk then Some("/login") else None)
    {
      loading := true;
      error := "";
      var invalid := Validate(formData);
      if invalid.Some? {
        error := invalid.value;
        loading := false;
        return false, None;
      }
      var success := registerOk;
      loading := false;
      if success {
        return true, Some("/login");
      }
      return true, None;
    }
  }
}
