/**
 * The registration screen (app/auth/register.tsx): five validators that
 * each write one field's error into the form, and the submit handler that
 * runs all of them, submits trimmed credentials and always clears the
 * password.
 */
module RegisterScreen {
  import opened Wrappers
  import opened JsStrings
  import opened Validation

  /** The screen's `formState` (lines 25-36). */
  datatype RegisterForm = RegisterForm(
    name: string, gender: string, email: string, username: string, password: string,
    nameError: string, genderError: string, emailError: string, usernameError: string, passwordError: string)

  const InitialForm: RegisterForm := RegisterForm("", "", "", "", "", "", "", "", "", "")

  datatype RegisterCredentials = RegisterCredentials(name: string, gender: string, email: string, username: string, password: string)

  const LoginRoute: string := "/auth/login"

  /** `validateName` (lines 59-67): fails exactly on an empty name; only `nameError` changes. */
  function ValidateName(form: RegisterForm, name: string): (r: (RegisterForm, bool))
    ensures r.1 <==> name != ""
    ensures r.0 == form.(nameError := if r.1 then "" else NameRequired)
  {
    var c := CheckRequired(name, NameRequired);
    (form.(nameError := c.error), c.valid)
  }

  /** `validateGender` (lines 69-77). */
  function ValidateGender(form: RegisterForm, gender: string): (r: (RegisterForm, bool))
    ensures r.1 <==> gender != ""
    ensures r.0 == form.(genderError := if r.1 then "" else GenderRequired)
  {
    var c := CheckRequired(gender, GenderRequired);
    (form.(genderError := c.error), c.valid)
  }

  /** `validateEmail` (lines 79-94): "" is "required", never "invalid"; otherwise the pattern decides. */
  function ValidateEmail(form: RegisterForm, email: string): (r: (RegisterForm, bool))
    ensures email == "" ==> r == (form.(emailError := EmailRequired), false)
    ensures email != "" ==> (r.1 <==> EmailShape(email))
    ensures r.0 == form.(emailError := if r.1 then "" else if email == "" then EmailRequired else InvalidEmail)
  {
    var c := CheckEmail(email);
    (form.(emailError := c.error), c.valid)
  }

  /** `validateUsername` (lines 96-114): non-empty and over `[a-zA-Z0-9._-]`, so '@' is refused. */
  function ValidateUsername(form: RegisterForm, username: string): (r: (RegisterForm, bool))
    ensures r.1 <==> username != "" && forall i :: 0 <= i < |username| ==> IsLocalChar(username[i])
    ensures r.0 == form.(usernameError := if r.1 then "" else if username == "" then UsernameRequired else InvalidUsername)
  {
    var c := CheckUsername(username);
    (form.(usernameError := c.error), c.valid)
  }

  /** `validatePassword` (lines 116-135): required, then at least six UTF-16 code units. */
  function ValidatePassword(form: RegisterForm, password: string): (r: (RegisterForm, bool))
    ensures r.1 <==> Utf16Length(password) >= MinPasswordLength
    ensures r.0 == form.(passwordError := if r.1 then "" else if password == "" then PasswordRequired else PasswordTooShort)
  {
    var c := CheckPassword(password);
    (form.(passwordError := c.error), c.valid)
  }

  /** `handleGenderSelect` (lines 141-147): the choice is stored and its error cleared. */
  function HandleGenderSelect(form: RegisterForm, selectedGender: string): (r: RegisterForm)
    ensures r.gender == selectedGender && r.genderError == ""
    ensures r.(gender := form.gender, genderError := form.genderError) == form
  {
    form.(gender := selectedGender, genderError := "")
  }

  /** After selecting a gender, the gender validator passes and leaves no gender error. */
  lemma SelectedGenderValidates(form: RegisterForm, selectedGender: string)
    requires selectedGender != ""
    ensures var f := HandleGenderSelect(form, selectedGender);
      ValidateGender(f, f.gender) == (f, true)
  {
  }

  /** Every validator passes on this form. */
  predicate FormValid(form: RegisterForm) {
    && form.name != "" && form.gender != "" && CheckEmail(form.email).valid
    && CheckUsername(form.username).valid && CheckPassword(form.password).valid
  }

  /**
   * Lines 163-177: all five validators run in this order, whatever the
   * earlier ones found, so every field's error is set; the form passes only
   * if all of them do.
   */
  function RunValidators(form: RegisterForm): (r: (RegisterForm, bool))
    ensures r.1 <==> FormValid(form)
    ensures r.0 == form.(nameError := CheckRequired(form.name, NameRequired).error,
                         genderError := CheckRequired(form.gender, GenderRequired).error,
                         emailError := CheckEmail(form.email).error,
                         usernameError := CheckUsername(form.username).error,
                         passwordError := CheckPassword(form.password).error)
  {
    var (f1, nameValid) := ValidateName(form, form.name);
    var (f2, usernameValid) := ValidateUsername(f1, form.username);
    var (f3, passwordValid) := ValidatePassword(f2, form.password);
    var (f4, emailValid) := ValidateEmail(f3, form.email);
    var (f5, genderValid) := ValidateGender(f4, form.gender);
    (f5, nameValid && genderValid && emailValid && usernameValid && passwordValid)
  }

  /**
   * `handleRegister` (lines 161-197): only a fully valid form is
   * submitted, with name, email and username trimmed (which leaves a valid
   * email and username as typed); the login screen is shown only after the
   * registration succeeded; the password is cleared on every path.
   */
  method HandleRegister(form: RegisterForm, registered: bool)
    returns (after: RegisterForm, submitted: Option<RegisterCredentials>, navigatedTo: Option<string>)
    ensures submitted.Some? <==> FormValid(form)
    ensures submitted.Some? ==>
      submitted.value == RegisterCredentials(Trim(form.name), form.gender, form.email, form.username, form.password)
    ensures navigatedTo == (if submitted.Some? && registered then Some(LoginRoute) else None)
    ensures after == RunValidators(form).0.(password := "")
  {
    var (validated, valid) := RunValidators(form);
    submitted, navigatedTo := None, None;
    if valid {
      var credentials := RegisterCredentials(
        Trim(form.name), form.gender, Trim(form.email), Trim(form.username), form.password);
      submitted := Some(credentials);
      if registered {
        navigatedTo := Some(LoginRoute);
      }
    }
    // finally
    after := validated.(password := "");
  }

  /** `if (!name)` accepts a name of blanks, which trimming then submits as "". */
  lemma BlankNameSubmittedEmpty()
    ensures ValidateName(InitialForm, " ").1 && Trim(" ") == ""
  {
    assert IsWhitespace(' ');
    assert LeadingWhitespace(" ") == 1 + LeadingWhitespace(" "[1..]);
  }
}
