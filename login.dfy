/** The login form: choosing a role, the order of the submit handler's checks,
    the credentials it sends, and what success and failure do. */
module Login {
  import opened Ui

  /** The parts of a successful login response the page reads. */
  datatype LoginResponse = LoginResponse(token: string, userName: string)

  const RoleMissingText := "Please select your role"
  const CredentialsMissingText := "Please enter your email and password"
  const LoginFailedText := "Login failed"
  const TokenKey := "token"
  const DashboardRoute := "/dashboard"

  /** A role counts as selected when it is set and not the empty string. */
  predicate RoleChosen(selectedRole: Option<string>) {
    selectedRole.Some? && Filled(selectedRole.value)
  }

  /** The warning the submit handler shows, if any: the role is checked before
      the email and password. */
  function LoginWarning(selectedRole: Option<string>, email: string, password: string): (w: Option<string>)
    ensures w.None? <==> RoleChosen(selectedRole) && Filled(email) && Filled(password)
    ensures w == Some(RoleMissingText) <==> !RoleChosen(selectedRole)
    ensures w == Some(CredentialsMissingText) <==>
      RoleChosen(selectedRole) && (!Filled(email) || !Filled(password))
  {
    if !RoleChosen(selectedRole) then Some(RoleMissingText)
    else if !Filled(email) || !Filled(password) then Some(CredentialsMissingText)
    else None
  }

  /** The login body: the role goes out as the selected role's string, not as
      the number the sign-up body uses. */
  function Credentials(email: string, password: string, role: string): (r: Payload)
    ensures r.Keys == {"email", "password", "role"}
    ensures r["email"] == Str(email) && r["password"] == Str(password)
    ensures r["role"] == Str(role)
  {
    map["email" := Str(email), "password" := Str(password), "role" := Str(role)]
  }

  class LoginPage {
    var selectedRole: Option<string>
    var email: string
    var password: string
    var isLoading: bool
    /** Toasts, requests, stored items, the parent's login callback and
        navigation, in order. */
    var log: seq<Effect>

    constructor ()
      ensures selectedRole == None && email == "" && password == "" && !isLoading && log == []
    {
      selectedRole := None;
      email := "";
      password := "";
      isLoading := false;
      log := [];
    }

    /** A click on a role card. Selecting the selected role again leaves the
        page as it was. */
    method HandleRoleSelect(role: string)
      modifies this`selectedRole
      ensures selectedRole == Some(role)
      ensures old(selectedRole) == Some(role) ==> selectedRole == old(selectedRole)
    {
      selectedRole := Some(role);
    }

    /** The inputs' change handlers. */
    method EditCredentials(email: string, password: string)
      modifies this`email, this`password
      ensures this.email == email && this.password == password
    {
      this.email := email;
      this.password := password;
    }

    /** The submit handler, given how the login call ends. A failed check
        shows its warning and changes nothing else; otherwise the credentials
        are sent, success stores the token, tells the parent the role and the
        user's name and opens the dashboard, failure shows the error text and
        does none of these, and loading ends either way. */
    method HandleLogin(response: Outcome<LoginResponse>)
      modifies this`isLoading, this`log
      ensures LoginWarning(selectedRole, email, password).Some? ==>
        log == old(log) + [Toast(LoginWarning(selectedRole, email, password).value, Warning)] &&
        isLoading == old(isLoading)
      ensures LoginWarning(selectedRole, email, password).None? ==> !isLoading
      ensures LoginWarning(selectedRole, email, password).None? && response.Ok? ==>
        log == old(log) + [Request(Login, Credentials(email, password, selectedRole.value)),
                           StoreItem(TokenKey, response.data.token),
                           LoginCallback(selectedRole.value, response.data.userName),
                           Navigate(DashboardRoute)]
      ensures LoginWarning(selectedRole, email, password).None? && !response.Ok? ==>
        log == old(log) + [Request(Login, Credentials(email, password, selectedRole.value)),
                           Toast(ErrorText(response, LoginFailedText), Error)]
    {
      if !RoleChosen(selectedRole) {
        log := log + [Toast(RoleMissingText, Warning)];
        return;
      }
      if !Filled(email) || !Filled(password) {
        log := log + [Toast(CredentialsMissingText, Warning)];
        return;
      }

      isLoading := true;
      var role := selectedRole.value;
      log := log + [Request(Login, Credentials(email, password, role))];
      match response {
        case Ok(data) =>
          log := log + [StoreItem(TokenKey, data.token)];
          log := log + [LoginCallback(role, data.userName)];
          log := log + [Navigate(DashboardRoute)];
        case _ =>
          log := log + [Toast(ErrorText(response, LoginFailedText), Error)];
      }
      isLoading := false;
    }
  }
}
