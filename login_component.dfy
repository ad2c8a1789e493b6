/**
 * The login page: a valid form sends the credentials; a successful answer's
 * token is stored first and the roles then read from it decide where the
 * user lands; a failed one shows a fixed message.
 *
 * `Validators.email` is the framework's pattern and is a parameter here;
 * navigation is the returned path.
 */
module LoginComponent {
  import opened Common
  import opened LoginService
  import opened RoleGuard

  datatype LoginForm = LoginForm(email: string, password: string)

  datatype LoginData = LoginData(email: string, password: string)

  /** How the login call ended: the token in `data`, or an HTTP error. */
  datatype LoginResult = LoggedIn(data: string) | LoginFailed

  const LoginFailedMessage: string := "Login failed. Please check your credentials."
  const AdminHome: string := "/admin/dashboard"
  const StudentHome: string := "/student/exams-history"

  /** `Validators.required` and the address check on the email, `required` and `minLength(6)` on the password. */
  predicate FormValid(form: LoginForm, emailAccepted: string -> bool) {
    form.email != "" && emailAccepted(form.email) && form.password != "" && |form.password| >= 6
  }

  /** Where a user lands after logging in: admins first, then students, else the start page. */
  function PostLoginRoute(roles: seq<string>): (path: string)
    ensures path == AdminHome <==> "Admin" in roles
    ensures path == StudentHome <==> "Admin" !in roles && "Student" in roles
    ensures path == StartPath <==> "Admin" !in roles && "Student" !in roles
  {
    if "Admin" in roles then AdminHome
    else if "Student" in roles then StudentHome
    else StartPath
  }

  /** The landing page of a fresh login is never refused by the guard of its area. */
  lemma LandingPassesGuard(token: string, decode: string -> Option<Claims>)
    ensures PostLoginRoute(RolesOf(Some(token), decode)) == AdminHome ==>
      CanActivate(Some(token), decode, Some(AdminRouteRoles)).allowed
    ensures PostLoginRoute(RolesOf(Some(token), decode)) == StudentHome ==>
      CanActivate(Some(token), decode, Some(StudentRouteRoles)).allowed
  {
    AdminAreaNeedsAdmin(Some(token), decode);
    StudentAreaNeedsStudent(Some(token), decode);
  }

  class LoginPage {
    var form: LoginForm
    var showPassword: bool
    var isLoading: bool
    var apiError: Option<string>
    const loginService: TokenStore

    constructor(service: TokenStore)
      ensures form == LoginForm("", "") && !showPassword && !isLoading && apiError.None?
      ensures loginService == service
    {
      form := LoginForm("", "");
      showPassword := false;
      isLoading := false;
      apiError := None;
      loginService := service;
    }

    /** `onSubmit`: an invalid form sends nothing; a valid one starts loading, clears the error and sends the credentials. */
    method OnSubmit(emailAccepted: string -> bool) returns (request: Option<LoginData>)
      modifies this
      ensures form == old(form) && showPassword == old(showPassword)
      ensures !FormValid(form, emailAccepted) ==> request.None? && isLoading == old(isLoading) && apiError == old(apiError)
      ensures FormValid(form, emailAccepted) ==>
        request == Some(LoginData(form.email, form.password)) && isLoading && apiError.None?
    {
      request := None;
      if FormValid(form, emailAccepted) {
        isLoading := true;
        apiError := None;
        request := Some(LoginData(form.email, form.password));
      }
    }

    /**
     * The answer to the login call.  Success stores the token and navigates
     * by the roles read from the token just stored; failure shows the fixed
     * message and stays.  Loading ends either way.
     */
    method OnLoginResult(result: LoginResult, decode: string -> Option<Claims>) returns (navigate: Option<string>)
      modifies this, loginService
      ensures !isLoading && form == old(form) && showPassword == old(showPassword)
      ensures result.LoggedIn? ==>
        loginService.GetToken() == Some(result.data) && apiError == old(apiError) &&
        loginService.storage == old(loginService.storage)[TokenKey := result.data] &&
        navigate == Some(PostLoginRoute(RolesOf(Some(result.data), decode)))
      ensures result.LoginFailed? ==>
        apiError == Some(LoginFailedMessage) && navigate.None? && loginService.storage == old(loginService.storage)
    {
      match result
      case LoggedIn(token) =>
        loginService.StoreToken(token);
        var roles := loginService.UserRoles(decode);
        navigate := Some(PostLoginRoute(roles));
        isLoading := false;
      case LoginFailed =>
        apiError := Some(LoginFailedMessage);
        isLoading := false;
        navigate := None;
    }

    /** `togglePassword`. */
    method TogglePassword()
      modifies this
      ensures showPassword == !old(showPassword)
      ensures form == old(form) && isLoading == old(isLoading) && apiError == old(apiError)
    {
      showPassword := !showPassword;
    }
  }
}
