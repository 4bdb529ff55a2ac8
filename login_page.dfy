/** The login form of `src/pages/Login.tsx`: field-by-field validation and
    the submit handler that calls the provider's `login` only for a valid form. */
module LoginPage {
  import opened Wrappers
  import opened Types
  import opened Http
  import Text
  import UseAuth
  import Api

  datatype LoginField = EmailField | PasswordField

  const EmailRequired := "Email is required"
  const EmailInvalid := "Email is invalid"
  const PasswordRequired := "Password is required"

  /** The error map `validateForm` builds: for the email, "required" before
      "invalid"; for the password, "required"; the two are independent. */
  function LoginErrors(email: string, password: string): (m: map<LoginField, string>)
    ensures EmailField in m <==> email == "" || !Text.MatchesEmail(email)
    ensures email == "" ==> m[EmailField] == EmailRequired
    ensures email != "" && !Text.MatchesEmail(email) ==> m[EmailField] == EmailInvalid
    ensures PasswordField in m <==> password == ""
    ensures password == "" ==> m[PasswordField] == PasswordRequired
  {
    var emailPart :=
      if email == "" then map[EmailField := EmailRequired]
      else if !Text.MatchesEmail(email) then map[EmailField := EmailInvalid]
      else map[];
    var passwordPart := if password == "" then map[PasswordField := PasswordRequired] else map[];
    emailPart + passwordPart
  }

  /** A form passes exactly when it has a well-formed email and some password. */
  lemma LoginValidIff(email: string, password: string)
    ensures LoginErrors(email, password) == map[] <==> email != "" && Text.MatchesEmail(email) && password != ""
  {
    if email == "" || !Text.MatchesEmail(email) {
      assert EmailField in LoginErrors(email, password);
    } else if password == "" {
      assert PasswordField in LoginErrors(email, password);
    }
  }

  /** `validateForm`. */
  method ValidateForm(email: string, password: string) returns (errors: map<LoginField, string>, isValid: bool)
    ensures errors == LoginErrors(email, password)
    ensures isValid <==> errors == map[]
  {
    errors := map[];
    isValid := true;
    if email == "" {
      errors := errors[EmailField := EmailRequired];
      isValid := false;
    } else if !Text.MatchesEmail(email) {
      errors := errors[EmailField := EmailInvalid];
      isValid := false;
    }
    if password == "" {
      errors := errors[PasswordField := PasswordRequired];
      isValid := false;
    }
    assert !isValid ==> (EmailField in errors || PasswordField in errors);
  }

  class LoginForm {
    var email: string
    var password: string
    var errors: map<LoginField, string>

    constructor ()
      ensures email == "" && password == "" && errors == map[]
    {
      email, password, errors := "", "", map[];
    }

    /** `handleSubmit`: validate, show the errors, log in only when valid. */
    method HandleSubmit(auth: UseAuth.AuthProvider, outcome: Result<LoginReply, Failure>)
      modifies this, auth, auth.world
      ensures email == old(email) && password == old(password)
      ensures errors == LoginErrors(email, password)
      ensures errors != map[] ==>
        && auth.isAuthenticated == old(auth.isAuthenticated) && auth.isLoading == old(auth.isLoading)
        && auth.world.token == old(auth.world.token) && auth.world.events == old(auth.world.events)
      ensures errors == map[] ==>
        && !auth.isLoading
        && auth.isAuthenticated == (outcome.Success? || old(auth.isAuthenticated))
        && (outcome.Success? ==> auth.world.token == Some(outcome.value.token))
        && (outcome.Failure? ==> auth.world.token == Api.TokenAfter(old(auth.world.token), outcome))
        && auth.world.events == old(auth.world.events) + UseAuth.LoginEvents(old(auth.world.token), email, password, outcome)
    {
      var newErrors, isValid := ValidateForm(email, password);
      errors := newErrors;
      if isValid {
        auth.Login(email, password, outcome);
      }
    }
  }
}
