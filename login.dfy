/**
 * The login screen: its lighter form check (e-mail and a non-blank
 * password) and the gate that calls `login` only on a clean form.
 */
module Login {
  import opened Wrappers
  import opened JsString
  import opened Registration

  /** The pair the screen lets through. */
  predicate LoginAcceptable(email: string, password: string) {
    !IsBlank(email) && '@' in email && !IsBlank(password)
  }

  /** `validateForm` of the login screen: the same e-mail rule as the
      registration, and a password that only has to be non-blank. */
  method ValidateLogin(email: string, password: string) returns (newErrors: map<Field, Message>, ok: bool)
    ensures newErrors.Keys <= {EmailField, PasswordField}
    ensures EmailField in newErrors <==> EmailError(email).Some?
    ensures EmailField in newErrors ==> newErrors[EmailField] == EmailError(email).value
    ensures PasswordField in newErrors <==> IsBlank(password)
    ensures PasswordField in newErrors ==> newErrors[PasswordField] == PasswordRequired
    ensures ok <==> newErrors == map[]
    ensures ok <==> LoginAcceptable(email, password)
  {
    newErrors := map[];
    newErrors := CheckEmail(email, newErrors);
    newErrors := CheckRequired(password, PasswordField, PasswordRequired, newErrors);
    ok := |newErrors| == 0;
    if !ok {
      var f :| f in newErrors;
    }
  }

  /** Every e-mail and password pair the registration accepts also passes the login check. */
  lemma RegisteredPassesLogin(form: RegistrationForm)
    requires Acceptable(form)
    ensures LoginAcceptable(form.email, form.password)
  {
  }

  /** The login check is weaker: a five-character password passes it but not the registration. */
  lemma ShortPasswordOnlyFailsRegistration(email: string, password: string)
    requires LoginAcceptable(email, password) && |password| < 6
    ensures PasswordError(password) == Some(PasswordTooShort)
    ensures RequiredError(password, PasswordRequired).None?
  {
  }

  /** What the screen does after `login` answered. */
  datatype LoginOutcome = NotSubmitted | GoToTabs | ShowLoginError

  class LoginScreen {
    var email: string
    var password: string
    var errors: map<Field, Message>

    constructor ()
      ensures email == "" && password == "" && errors == map[]
    {
      email := "";
      password := "";
      errors := map[];
    }

    method SetEmail(e: string)
      modifies this
      ensures email == e && password == old(password) && errors == old(errors)
    {
      email := e;
    }

    method SetPassword(p: string)
      modifies this
      ensures password == p && email == old(email) && errors == old(errors)
    {
      password := p;
    }

    /** `handleLogin`: `success` is what `login(email, password)` answers. The
        screen moves to the tabs only when the form is clean and login succeeded. */
    method HandleLogin(success: bool) returns (outcome: LoginOutcome)
      modifies this
      ensures email == old(email) && password == old(password)
      ensures outcome == NotSubmitted <==> !LoginAcceptable(email, password)
      ensures outcome == GoToTabs <==> LoginAcceptable(email, password) && success
      ensures outcome == ShowLoginError <==> LoginAcceptable(email, password) && !success
      ensures errors == map[] <==> LoginAcceptable(email, password)
      ensures errors.Keys <= {EmailField, PasswordField}
      ensures EmailField in errors <==> EmailError(email).Some?
      ensures EmailField in errors ==> errors[EmailField] == EmailError(email).value
      ensures PasswordField in errors <==> IsBlank(password)
      ensures PasswordField in errors ==> errors[PasswordField] == PasswordRequired
    {
      var newErrors, ok := ValidateLogin(email, password);
      errors := newErrors;
      if !ok {
        outcome := NotSubmitted;
        return;
      }
      outcome := if success then GoToTabs else ShowLoginError;
    }
  }
}
