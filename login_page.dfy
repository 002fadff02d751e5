/** The sign-in page: the same email rules as registration, a shorter
    password rule without complexity, and the submission and admin-login
    outcomes. */
module LoginPage {
  import opened Wrappers
  import opened Types
  import opened Storage
  import opened FormRules
  import AuthService

  datatype LoginForm = LoginForm(email: string, password: string)

  datatype LoginErrors = LoginErrors(email: Option<string>, password: Option<string>)

  const LoginFallback := "Authentication failed. Please check your credentials."
  const AdminLoginFailed := "Admin login failed. The token may be expired."

  function LoginPasswordError(password: string): (r: Option<string>)
    ensures r == Some("Password is required") <==> Blank(password)
    ensures r == Some("Password must be at least 6 characters") <==> !Blank(password) && |password| < 6
    ensures r == None <==> !Blank(password) && |password| >= 6
  {
    if Blank(password) then Some("Password is required")
    else if |password| < 6 then Some("Password must be at least 6 characters")
    else None
  }

  function ValidateLogin(form: LoginForm): (errors: LoginErrors)
    ensures errors.email == EmailError(form.email)
    ensures errors.password == LoginPasswordError(form.password)
    ensures errors == LoginErrors(None, None) <==>
      MatchesEmailPattern(form.email) && !Blank(form.password) && |form.password| >= 6
  {
    LoginErrors(EmailError(form.email), LoginPasswordError(form.password))
  }

  class LoginPageState {
    var validationErrors: LoginErrors
    var error: string
    var isLoading: bool
    const auth: AuthService.AuthService

    constructor (auth: AuthService.AuthService)
      ensures this.auth == auth && validationErrors == LoginErrors(None, None) && error == "" && !isLoading
    {
      this.auth := auth;
      validationErrors, error, isLoading := LoginErrors(None, None), "", false;
    }

    /** `handleSubmit`. An invalid form never reaches `login`; a valid one
        sends email and password as typed. The page's own fallback text is
        never chosen, because the service's error text is never empty. */
    method HandleSubmit(form: LoginForm, answer: Result<AuthService.AuthResponse, ApiError>)
      returns (sent: Option<AuthService.Credentials>, navigateTo: Option<Route>)
      modifies this, auth.local`authToken, auth.local`user
      ensures validationErrors == ValidateLogin(form)
      ensures ValidateLogin(form) != LoginErrors(None, None) ==>
        sent == None && navigateTo == None && error == "" && isLoading == old(isLoading) &&
        auth.local.authToken == old(auth.local.authToken) && auth.local.user == old(auth.local.user)
      ensures ValidateLogin(form) == LoginErrors(None, None) ==>
        sent == Some(AuthService.Credentials(form.email, form.password)) && !isLoading
      ensures ValidateLogin(form) == LoginErrors(None, None) && answer.Ok? ==>
        navigateTo == Some(ProductsPage) && error == "" &&
        auth.local.authToken == Some(answer.value.accessToken) && auth.local.user == Saved(answer.value.user)
      ensures ValidateLogin(form) == LoginErrors(None, None) && answer.Err? ==>
        navigateTo == None && error == MessageOr(answer.error, "Login failed") &&
        auth.local.authToken == old(auth.local.authToken) && auth.local.user == old(auth.local.user)
    {
      error := "";
      validationErrors := ValidateLogin(form);
      if validationErrors != LoginErrors(None, None) {
        return None, None;
      }
      var credentials := AuthService.Credentials(form.email, form.password);
      sent := Some(credentials);
      isLoading := true;
      var outcome := auth.Login(credentials, answer);
      if outcome.Ok? {
        navigateTo := Some(ProductsPage);
      } else {
        navigateTo := None;
        error := if outcome.error != "" then outcome.error else LoginFallback;
      }
      isLoading := false;
    }

    /** `handleAdminLogin`, with the context's `adminLogin()` answer as a
        parameter. */
    method HandleAdminLogin(success: bool) returns (navigateTo: Option<Route>)
      modifies this`error, this`isLoading
      ensures success ==> navigateTo == Some(AdminPage) && error == old(error)
      ensures !success ==> navigateTo == None && error == AdminLoginFailed
      ensures !isLoading
    {
      isLoading := true;
      if success {
        navigateTo := Some(AdminPage);
      } else {
        navigateTo := None;
        error := AdminLoginFailed;
      }
      isLoading := false;
    }
  }
}
