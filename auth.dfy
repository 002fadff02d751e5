/** The credential store: the bearer token under 'authToken' and the signed-in
    user under 'user', written by login and removed by logout. */
module AuthService {
  import opened Wrappers
  import opened Types
  import opened Storage

  datatype Credentials = Credentials(email: string, password: string)

  datatype RegisterData = RegisterData(name: string, email: string, password: string)

  /** The login response body. */
  datatype AuthResponse = AuthResponse(accessToken: string, user: User)

  /** What `getCurrentUser` gives: the parsed record, `null` when nothing is
      stored, or the exception `JSON.parse` throws on a corrupt record. */
  datatype CurrentUser = SignedIn(user: User) | SignedOut | Corrupt

  /** `register`: the response data or the rethrown error; storage is not
      an input, so it cannot be touched. */
  function Register(data: RegisterData, answer: Result<AuthResponse, ApiError>): (r: Result<AuthResponse, string>)
    ensures r.Ok? <==> answer.Ok?
    ensures r.Ok? ==> r.value == answer.value
    ensures r.Err? ==> r.error == MessageOr(answer.error, "Registration failed")
  {
    Rethrow(answer, "Registration failed")
  }

  class AuthService {
    const local: LocalStorage

    constructor (local: LocalStorage)
      ensures this.local == local
    {
      this.local := local;
    }

    /** `isAuthenticated`: `!!` of the stored token. */
    predicate IsAuthenticated()
      reads local
      ensures IsAuthenticated() ==> local.authToken.Some?
      ensures local.authToken.None? || local.authToken == Some("") ==> !IsAuthenticated()
    {
      Truthy(local.authToken)
    }

    /** `getToken`: the raw stored value, empty string included. */
    function GetToken(): (token: Option<string>)
      reads local
      ensures token == local.authToken
      ensures IsAuthenticated() <==> token.Some? && token.value != ""
    {
      local.authToken
    }

    function GetCurrentUser(): (u: CurrentUser)
      reads local
      ensures u.SignedIn? <==> local.user.Saved?
      ensures u.SignedIn? ==> u.user == local.user.value
      ensures u == SignedOut <==> local.user == Absent
    {
      match local.user
      case Absent => SignedOut
      case Unparseable => Corrupt
      case Saved(user) => SignedIn(user)
    }

    /** `login`: the two keys are written only after the post succeeded. */
    method Login(credentials: Credentials, answer: Result<AuthResponse, ApiError>) returns (r: Result<AuthResponse, string>)
      modifies local`authToken, local`user
      ensures answer.Ok? ==> r == Ok(answer.value)
      ensures answer.Ok? ==> local.authToken == Some(answer.value.accessToken) && local.user == Saved(answer.value.user)
      ensures answer.Ok? ==> GetCurrentUser() == SignedIn(answer.value.user) &&
                             (IsAuthenticated() <==> answer.value.accessToken != "")
      ensures answer.Err? ==> r == Err(MessageOr(answer.error, "Login failed"))
      ensures answer.Err? ==> local.authToken == old(local.authToken) && local.user == old(local.user)
    {
      if answer.Err? {
        return Err(MessageOr(answer.error, "Login failed"));
      }
      var response := answer.value;
      local.authToken := Some(response.accessToken);
      local.user := Saved(response.user);
      r := Ok(response);
    }

    /** `logout`: both keys removed. */
    method Logout()
      modifies local`authToken, local`user
      ensures local.authToken == None && local.user == Absent
      ensures !IsAuthenticated() && GetCurrentUser() == SignedOut && GetToken() == None
    {
      local.authToken := None;
      local.user := Absent;
    }
  }

  /** Logging in and then out leaves no credential behind, whatever the login
      answer was. */
  method LoginThenLogout(service: AuthService, credentials: Credentials, answer: Result<AuthResponse, ApiError>)
    returns (loggedIn: Result<AuthResponse, string>)
    modifies service.local`authToken, service.local`user
    ensures !service.IsAuthenticated() && service.GetCurrentUser() == SignedOut
    ensures loggedIn.Ok? <==> answer.Ok?
  {
    loggedIn := service.Login(credentials, answer);
    service.Logout();
  }
}
