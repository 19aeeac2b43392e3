/** The sign-in form (src/pages/LoginPage.tsx). */
module LoginPage {
  import opened Common
  import opened AuthContext
  import ProtectedRoute

  const RequiredMessage := "Username and password are required"

  /** The check made before `login` is called. */
  function Validate(username: string, password: string): (error: Option<string>)
    ensures error.None? <==> username != "" && password != ""
    ensures error.Some? ==> error.value == RequiredMessage
  {
    if username == "" || password == "" then Some(RequiredMessage) else None
  }

  /** "Redirect if already authenticated": every signed-in user is sent to the
      company dashboard, whatever the role. */
  function AuthenticatedRedirect(isAuthenticated: bool): (target: Option<string>)
    ensures target.Some? <==> isAuthenticated
    ensures target.Some? ==> target.value == ProtectedRoute.CompanyHome
  {
    if isAuthenticated then Some(ProtectedRoute.CompanyHome) else None
  }

  /** The form's state: the two inputs, the busy flag and the error line. */
  class LoginForm {
    var username: string
    var password: string
    var loading: bool
    var error: string

    constructor ()
      ensures username == "" && password == "" && !loading && error == ""
    {
      username := "";
      password := "";
      loading := false;
      error := "";
    }

    method SetUsername(value: string)
      modifies this
      ensures username == value && password == old(password) && loading == old(loading) && error == old(error)
    {
      username := value;
    }

    method SetPassword(value: string)
      modifies this
      ensures password == value && username == old(username) && loading == old(loading) && error == old(error)
    {
      password := value;
    }

    /** `handleSubmit`: clear the error, refuse empty fields, otherwise call
        `login` with exactly what was typed; loading is off afterwards either way.
        A failed login leaves the error line empty (the provider only shows a toast). */
    method HandleSubmit(auth: AuthProvider, reply: LoginReply) returns (loginCalled: bool)
      modifies this, auth
      ensures loginCalled <==> Validate(old(username), old(password)).None?
      ensures username == old(username) && password == old(password)
      ensures !loading
      ensures error == (if loginCalled then "" else RequiredMessage)
      ensures loginCalled ==> auth.State() == LoginStep(old(auth.State()), old(username), old(password), reply).session
      ensures !loginCalled ==> auth.State() == old(auth.State())
    {
      loading := true;
      error := "";
      var invalid := Validate(username, password);
      if invalid.Some? {
        error := invalid.value;
        loading := false;
        return false;
      }
      var success := auth.Login(username, password, reply);
      loading := false;
      return true;
    }
  }
}
