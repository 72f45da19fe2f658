/** The login form's controller: field validation and the login flow. */
module Login {
  import opened Wrappers
  import opened Text

  const EmailError := "Email inválido"
  const PasswordError := "Senha deve ter no mínimo 6 caracteres"
  const LoginFailedMessage := "Erro ao fazer login"
  const InitialEmail := "suporte@churchplay.com.br"
  const InitialPassword := "********"

  /** The error object of the form: one optional message per field. */
  datatype FormErrors = FormErrors(email: Option<string>, password: Option<string>)

  /**
   * `validateForm`'s new error object, built from scratch: an email error
   * when the email is empty or has no '@', a password error when the
   * password is empty or shorter than 6 characters.
   */
  function Validate(email: string, password: string): (r: FormErrors)
    ensures r.email.Some? <==> email == "" || !Contains(email, "@")
    ensures r.email.Some? ==> r.email.value == EmailError
    ensures r.password.Some? <==> |password| < 6
    ensures r.password.Some? ==> r.password.value == PasswordError
  {
    FormErrors(
      if email == "" || !Contains(email, "@") then Some(EmailError) else None,
      if password == "" || |password| < 6 then Some(PasswordError) else None)
  }

  /** `Object.keys(newErrors).length === 0`. */
  predicate NoErrors(e: FormErrors) {
    e.email.None? && e.password.None?
  }

  /** The prefilled form passes validation. */
  lemma InitialFormIsValid()
    ensures NoErrors(Validate(InitialEmail, InitialPassword))
  {
    assert OccursAt(InitialEmail, "@", 7);
  }

  /** What the (simulated) sign-in step does: completes, or throws with an optional message. */
  datatype SignIn = Completed | Threw(message: Option<string>)

  class LoginController {
    var email: string
    var password: string
    var showPassword: bool
    var loading: bool
    var errors: FormErrors
    /** The route the navigator was replaced with, if any. */
    var route: Option<string>
    /** Every value passed to `setLoading`, in order. */
    var loadingLog: seq<bool>

    constructor ()
      ensures email == InitialEmail && password == InitialPassword
      ensures !showPassword && !loading && errors == FormErrors(None, None)
      ensures route.None? && loadingLog == []
    {
      email := InitialEmail;
      password := InitialPassword;
      showPassword := false;
      loading := false;
      errors := FormErrors(None, None);
      route := None;
      loadingLog := [];
    }

    method SetEmail(value: string)
      modifies this
      ensures email == value
      ensures password == old(password) && errors == old(errors) && loading == old(loading)
      ensures route == old(route) && loadingLog == old(loadingLog) && showPassword == old(showPassword)
    {
      email := value;
    }

    method SetPassword(value: string)
      modifies this
      ensures password == value
      ensures email == old(email) && errors == old(errors) && loading == old(loading)
      ensures route == old(route) && loadingLog == old(loadingLog) && showPassword == old(showPassword)
    {
      password := value;
    }

    /** `validateForm`: replaces the whole error object, so no stale error survives. */
    method ValidateForm() returns (ok: bool)
      modifies this
      ensures errors == Validate(email, password)
      ensures ok <==> NoErrors(errors)
      ensures email == old(email) && password == old(password) && loading == old(loading)
      ensures route == old(route) && loadingLog == old(loadingLog) && showPassword == old(showPassword)
    {
      var newEmail: Option<string> := None;
      var newPassword: Option<string> := None;
      if email == "" || !Contains(email, "@") {
        newEmail := Some(EmailError);
      }
      if password == "" || |password| < 6 {
        newPassword := Some(PasswordError);
      }
      errors := FormErrors(newEmail, newPassword);
      ok := newEmail.None? && newPassword.None?;
    }

    /**
     * `handleLogin`: an invalid form stops before anything else happens;
     * otherwise loading is set, the sign-in runs, success replaces the route
     * with "Home", a failure raises an alert, and loading is cleared either way.
     */
    method HandleLogin(signIn: SignIn) returns (alert: Option<string>)
      modifies this
      ensures errors == Validate(email, password)
      ensures email == old(email) && password == old(password) && showPassword == old(showPassword)
      ensures !NoErrors(errors) ==>
        alert.None? && route == old(route) && loading == old(loading) && loadingLog == old(loadingLog)
      ensures NoErrors(errors) ==> !loading && loadingLog == old(loadingLog) + [true, false]
      ensures NoErrors(errors) && signIn.Completed? ==> route == Some("Home") && alert.None?
      ensures NoErrors(errors) && signIn.Threw? ==>
        route == old(route) && alert == Some(OrElse(signIn.message, LoginFailedMessage))
    {
      alert := None;
      var ok := ValidateForm();
      if !ok {
        return;
      }
      loading := true;
      loadingLog := loadingLog + [true];
      match signIn {
        case Completed =>
          route := Some("Home");
        case Threw(message) =>
          alert := Some(OrElse(message, LoginFailedMessage));
      }
      loading := false;
      loadingLog := loadingLog + [false];
    }
  }

  /** On a freshly opened screen, pressing the login button goes straight to "Home". */
  method LoginOnFreshScreen() returns (route: Option<string>, loading: bool)
    ensures route == Some("Home") && !loading
  {
    var c := new LoginController();
    InitialFormIsValid();
    var alert := c.HandleLogin(Completed);
    route := c.route;
    loading := c.loading;
  }
}
