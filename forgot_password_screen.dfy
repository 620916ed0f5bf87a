/**
 * The forgot-password screen (app/auth/forgot-password.tsx): the email
 * validator and a submit handler that stops after building the request.
 */
module ForgotPasswordScreen {
  import opened Wrappers
  import opened JsStrings
  import opened Validation
  import RegisterScreen

  /** The screen's `formState` (lines 23-26). */
  datatype ForgotPasswordForm = ForgotPasswordForm(email: string, emailError: string)

  const InitialForm: ForgotPasswordForm := ForgotPasswordForm("", "")

  /** `validateEmail` (lines 45-60): required, then the registration pattern. */
  function ValidateEmail(form: ForgotPasswordForm, email: string): (r: (ForgotPasswordForm, bool))
    ensures email == "" ==> r == (form.(emailError := EmailRequired), false)
    ensures email != "" ==> (r.1 <==> EmailShape(email))
    ensures r.0 == form.(emailError := if r.1 then "" else if email == "" then EmailRequired else InvalidEmail)
  {
    var c := CheckEmail(email);
    (form.(emailError := c.error), c.valid)
  }

  /** This screen and the registration screen accept the same emails with the same messages. */
  lemma AgreesWithRegistration(form: ForgotPasswordForm, registerForm: RegisterScreen.RegisterForm, email: string)
    ensures ValidateEmail(form, email).1 == RegisterScreen.ValidateEmail(registerForm, email).1
    ensures ValidateEmail(form, email).0.emailError == RegisterScreen.ValidateEmail(registerForm, email).0.emailError
  {
  }

  /**
   * `handleSubmit` (lines 66-84): an invalid email stops it; a valid one
   * only yields the trimmed request record, which is the email itself.
   * Nothing is sent.
   */
  method HandleSubmit(form: ForgotPasswordForm) returns (after: ForgotPasswordForm, request: Option<string>)
    ensures request.Some? <==> CheckEmail(form.email).valid
    ensures request.Some? ==> request.value == form.email
    ensures after == ForgotPasswordForm(form.email, CheckEmail(form.email).error)
  {
    var (validated, emailValid) := ValidateEmail(form, form.email);
    after := validated;
    request := None;
    if !emailValid {
      return;
    }
    request := Some(Trim(form.email));
  }
}
