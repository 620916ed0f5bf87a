/**
 * The login screen (app/auth/login.tsx): two validators and the submit
 * handler, which trims the username, keeps the password as typed and
 * always clears it afterwards.
 */
module LoginScreen {
  import opened Wrappers
  import opened JsStrings
  import opened Validation

  /** The screen's `formState` (lines 24-29). */
  datatype LoginForm = LoginForm(username: string, password: string, usernameError: string, passwordError: string)

  const InitialForm: LoginForm := LoginForm("", "", "", "")

  datatype LoginCredentials = LoginCredentials(username: string, password: string)

  const HomeRoute: string := "/"

  /** `validateUsername` (lines 50-68): non-empty and over `[a-zA-Z0-9._@-]`. */
  function ValidateUsername(form: LoginForm, username: string): (r: (LoginForm, bool))
    ensures r.1 <==> username != "" && forall i :: 0 <= i < |username| ==> IsLoginUsernameChar(username[i])
    ensures r.0 == form.(usernameError := if r.1 then "" else if username == "" then UsernameRequired else InvalidUsername)
  {
    var c := CheckLoginUsername(username);
    (form.(usernameError := c.error), c.valid)
  }

  /** `validatePassword` (lines 70-89): the registration rule. */
  function ValidatePassword(form: LoginForm, password: string): (r: (LoginForm, bool))
    ensures r.1 <==> Utf16Length(password) >= MinPasswordLength
    ensures r.0 == form.(passwordError := if r.1 then "" else if password == "" then PasswordRequired else PasswordTooShort)
  {
    var c := CheckPassword(password);
    (form.(passwordError := c.error), c.valid)
  }

  /** Whoever could register can log in with the same username. */
  lemma RegisteredUsernameLogsIn(form: LoginForm, username: string)
    requires CheckUsername(username).valid
    ensures ValidateUsername(form, username).1
  {
    UsernameAcceptedAtLogin(username);
    assert CheckLoginUsername(username).valid;
  }

  /**
   * `handleLogin` (lines 99-124): both validators run before the check; a
   * valid form submits the trimmed username and the password unchanged and
   * goes home once logged in; the password is cleared on every path.
   */
  method HandleLogin(form: LoginForm, loggedIn: bool)
    returns (after: LoginForm, submitted: Option<LoginCredentials>, navigatedTo: Option<string>)
    ensures submitted.Some? <==> CheckLoginUsername(form.username).valid && CheckPassword(form.password).valid
    ensures submitted.Some? ==> submitted.value == LoginCredentials(form.username, form.password)
    ensures navigatedTo == (if submitted.Some? && loggedIn then Some(HomeRoute) else None)
    ensures after == LoginForm(form.username, "", CheckLoginUsername(form.username).error, CheckPassword(form.password).error)
  {
    var (f1, usernameValid) := ValidateUsername(form, form.username);
    var (f2, passwordValid) := ValidatePassword(f1, form.password);
    submitted, navigatedTo := None, None;
    if usernameValid && passwordValid {
      submitted := Some(LoginCredentials(Trim(form.username), form.password));
      if loggedIn {
        navigatedTo := Some(HomeRoute);
      }
    }
    // finally
    after := f2.(password := "");
  }
}
