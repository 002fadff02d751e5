/** The registration page: five fields, each with a rule chain whose first
    failing rule gives the field's one message, and a submission gated on a
    form without messages. */
module RegisterPage {
  import opened Wrappers
  import opened Text
  import opened Types
  import opened FormRules
  import AuthService

  datatype RegisterForm = RegisterForm(name: string, email: string, password: string, confirmPassword: string, acceptTerms: bool)

  /** The validation-errors record; a field without a message is `None`. */
  datatype RegisterErrors = RegisterErrors(
    name: Option<string>,
    email: Option<string>,
    password: Option<string>,
    confirmPassword: Option<string>,
    terms: Option<string>)

  const NoErrors := RegisterErrors(None, None, None, None, None)

  function NameError(name: string): (r: Option<string>)
    ensures r == Some("Full name is required") <==> Blank(name)
    ensures r == Some("Name must be at least 2 characters") <==> !Blank(name) && |Trim(name)| < 2
    ensures r == None <==> |Trim(name)| >= 2
  {
    TrimEmptyIff(name);
    if Trim(name) == [] then Some("Full name is required")
    else if |Trim(name)| < 2 then Some("Name must be at least 2 characters")
    else None
  }

  const ComplexityMessage := "Password must contain at least one uppercase letter, one lowercase letter, and one number"

  /** The `(?=.*[a-z])(?=.*[A-Z])(?=.*\d)` test, for input without line breaks. */
  predicate Complex(password: string) {
    HasLower(password) && HasUpper(password) && HasDigit(password)
  }

  function PasswordError(password: string): (r: Option<string>)
    ensures Blank(password) ==> r == Some("Password is required")
    ensures !Blank(password) && |password| < 8 ==> r == Some("Password must be at least 8 characters")
    ensures !Blank(password) && |password| >= 8 && !Complex(password) ==> r == Some(ComplexityMessage)
    ensures r == None <==> |password| >= 8 && Complex(password)
  {
    if Blank(password) then Some("Password is required")
    else if |password| < 8 then Some("Password must be at least 8 characters")
    else if !Complex(password) then Some(ComplexityMessage)
    else None
  }

  /** The confirmation is compared with the password exactly, untrimmed. */
  function ConfirmPasswordError(password: string, confirmPassword: string): (r: Option<string>)
    ensures r == Some("Please confirm your password") <==> Blank(confirmPassword)
    ensures r == Some("Passwords do not match") <==> !Blank(confirmPassword) && confirmPassword != password
    ensures r == None <==> !Blank(confirmPassword) && confirmPassword == password
  {
    if Blank(confirmPassword) then Some("Please confirm your password")
    else if password != confirmPassword then Some("Passwords do not match")
    else None
  }

  function TermsError(acceptTerms: bool): (r: Option<string>)
    ensures r.Some? <==> !acceptTerms
  {
    if !acceptTerms then Some("You must accept the terms and conditions") else None
  }

  /** `validateForm`'s errors record. */
  function ValidateRegister(form: RegisterForm): (errors: RegisterErrors)
    ensures errors.name == NameError(form.name) && errors.email == EmailError(form.email)
    ensures errors.password == PasswordError(form.password)
    ensures errors.confirmPassword == ConfirmPasswordError(form.password, form.confirmPassword)
    ensures errors.terms == TermsError(form.acceptTerms)
  {
    RegisterErrors(NameError(form.name), EmailError(form.email), PasswordError(form.password),
                   ConfirmPasswordError(form.password, form.confirmPassword), TermsError(form.acceptTerms))
  }

  /** The form passes exactly when every field satisfies its rules, stated
      without the rule chains. */
  lemma RegisterValidIff(form: RegisterForm)
    ensures ValidateRegister(form) == NoErrors <==>
      |Trim(form.name)| >= 2 && MatchesEmailPattern(form.email) &&
      |form.password| >= 8 && Complex(form.password) &&
      form.confirmPassword == form.password && form.acceptTerms
  {
    if Complex(form.password) {
      LetterNotBlank(form.password);
    }
  }

  class RegisterPageState {
    var validationErrors: RegisterErrors
    var error: string
    var isLoading: bool

    constructor ()
      ensures validationErrors == NoErrors && error == "" && !isLoading
    {
      validationErrors, error, isLoading := NoErrors, "", false;
    }

    /** `handleSubmit`. An invalid form sends nothing; a valid one sends the
        trimmed name and email with the password as typed. */
    method HandleSubmit(form: RegisterForm, answer: Result<AuthService.AuthResponse, ApiError>)
      returns (sent: Option<AuthService.RegisterData>, navigateTo: Option<Route>)
      modifies this
      ensures validationErrors == ValidateRegister(form)
      ensures ValidateRegister(form) != NoErrors ==>
        sent == None && navigateTo == None && error == "" && isLoading == old(isLoading)
      ensures ValidateRegister(form) == NoErrors ==>
        sent == Some(AuthService.RegisterData(Trim(form.name), Trim(form.email), form.password)) && !isLoading
      ensures ValidateRegister(form) == NoErrors && answer.Ok? ==> navigateTo == Some(LoginPage) && error == ""
      ensures ValidateRegister(form) == NoErrors && answer.Err? ==>
        navigateTo == None && error == MessageOr(answer.error, "Registration failed")
    {
      error := "";
      validationErrors := ValidateRegister(form);
      if validationErrors != NoErrors {
        return None, None;
      }
      var data := AuthService.RegisterData(Trim(form.name), Trim(form.email), form.password);
      sent := Some(data);
      isLoading := true;
      var outcome := AuthService.Register(data, answer);
      if outcome.Ok? {
        navigateTo := Some(LoginPage);
      } else {
        navigateTo := None;
        error := if outcome.error != "" then outcome.error else "Registration failed";
      }
      isLoading := false;
    }
  }
}
