/** The registration form of `src/pages/Register.tsx`: six sequential
    checks over the branch and user fields, and the submit handler that
    builds the two payloads for the provider's `register`. */
module RegisterPage {
  import opened Wrappers
  import opened Types
  import opened Http
  import Text
  import UseAuth
  import Api

  datatype RegisterField = BranchName | BranchEmail | BranchLocation | UserEmail | Password | ConfirmPassword

  datatype RegisterInput = RegisterInput(
    branchName: string, branchEmail: string, branchLocation: string,
    userEmail: string, password: string, confirmPassword: string)

  const BranchNameRequired := "Branch name is required"
  const BranchEmailRequired := "Branch email is required"
  const BranchLocationRequired := "Branch location is required"
  const UserEmailRequired := "User email is required"
  const EmailInvalid := "Email is invalid"
  const PasswordRequired := "Password is required"
  const PasswordTooShort := "Password must be at least 6 characters"
  const PasswordMismatch := "Passwords do not match"
  const MinPasswordLength := 6
  const DefaultRole := "ADMIN"

  /** The message for one email field: required first, then the pattern. */
  function EmailProblem(email: string, required: string): (p: Option<string>)
    ensures p.Some? <==> email == "" || !Text.MatchesEmail(email)
    ensures email == "" ==> p == Some(required)
    ensures email != "" && !Text.MatchesEmail(email) ==> p == Some(EmailInvalid)
  {
    if email == "" then Some(required)
    else if !Text.MatchesEmail(email) then Some(EmailInvalid)
    else None
  }

  /** The error map `validateForm` builds. */
  function RegisterErrors(f: RegisterInput): (m: map<RegisterField, string>)
    ensures BranchName in m <==> f.branchName == ""
    ensures BranchName in m ==> m[BranchName] == BranchNameRequired
    ensures BranchEmail in m <==> EmailProblem(f.branchEmail, BranchEmailRequired).Some?
    ensures BranchEmail in m ==> m[BranchEmail] == EmailProblem(f.branchEmail, BranchEmailRequired).value
    ensures BranchLocation in m <==> f.branchLocation == ""
    ensures BranchLocation in m ==> m[BranchLocation] == BranchLocationRequired
    ensures UserEmail in m <==> EmailProblem(f.userEmail, UserEmailRequired).Some?
    ensures UserEmail in m ==> m[UserEmail] == EmailProblem(f.userEmail, UserEmailRequired).value
    ensures Password in m <==> f.password == "" || Text.Utf16Length(f.password) < MinPasswordLength
    ensures f.password == "" ==> m[Password] == PasswordRequired
    ensures f.password != "" && Text.Utf16Length(f.password) < MinPasswordLength ==> m[Password] == PasswordTooShort
    ensures ConfirmPassword in m <==> f.password != f.confirmPassword
    ensures ConfirmPassword in m ==> m[ConfirmPassword] == PasswordMismatch
  {
    map k | k in AllFields && Problem(f, k).Some? :: Problem(f, k).value
  }

  const AllFields := {BranchName, BranchEmail, BranchLocation, UserEmail, Password, ConfirmPassword}

  /** The check `validateForm` runs for one field. */
  function Problem(f: RegisterInput, field: RegisterField): Option<string> {
    match field
    case BranchName => if f.branchName == "" then Some(BranchNameRequired) else None
    case BranchEmail => EmailProblem(f.branchEmail, BranchEmailRequired)
    case BranchLocation => if f.branchLocation == "" then Some(BranchLocationRequired) else None
    case UserEmail => EmailProblem(f.userEmail, UserEmailRequired)
    case Password =>
      if f.password == "" then Some(PasswordRequired)
      else if Text.Utf16Length(f.password) < MinPasswordLength then Some(PasswordTooShort)
      else None
    case ConfirmPassword => if f.password != f.confirmPassword then Some(PasswordMismatch) else None
  }

  /** A registration passes exactly when every rule holds; a matching pair
      of passwords of at least six code units satisfies both password rules. */
  lemma RegisterValidIff(f: RegisterInput)
    ensures RegisterErrors(f) == map[] <==>
      && f.branchName != "" && f.branchLocation != ""
      && f.branchEmail != "" && Text.MatchesEmail(f.branchEmail)
      && f.userEmail != "" && Text.MatchesEmail(f.userEmail)
      && Text.Utf16Length(f.password) >= MinPasswordLength
      && f.password == f.confirmPassword
  {
    var m := RegisterErrors(f);
    if f.branchName == "" { assert BranchName in m; }
    if f.branchLocation == "" { assert BranchLocation in m; }
    if f.branchEmail == "" || !Text.MatchesEmail(f.branchEmail) { assert BranchEmail in m; }
    if f.userEmail == "" || !Text.MatchesEmail(f.userEmail) { assert UserEmail in m; }
    if Text.Utf16Length(f.password) < MinPasswordLength { assert Password in m; }
    if f.password != f.confirmPassword { assert ConfirmPassword in m; }
  }

  /** The state of `validateForm` once the checks of `done` have run. */
  ghost predicate Recorded(f: RegisterInput, done: set<RegisterField>,
                           errors: map<RegisterField, string>, isValid: bool) {
    && (forall k :: k in errors <==> k in done && Problem(f, k).Some?)
    && (forall k | k in errors :: errors[k] == Problem(f, k).value)
    && (isValid <==> forall k | k in done :: Problem(f, k).None?)
  }

  const BranchChecks := {BranchName, BranchEmail, BranchLocation}

  /** The first half of `validateForm`: the branch fields. */
  method CheckBranchFields(f: RegisterInput) returns (errors: map<RegisterField, string>, isValid: bool)
    ensures Recorded(f, BranchChecks, errors, isValid)
  {
    errors := map[];
    isValid := true;
    if f.branchName == "" {
      errors := errors[BranchName := BranchNameRequired];
      isValid := false;
    }
    assert Recorded(f, {BranchName}, errors, isValid);
    if f.branchEmail == "" {
      errors := errors[BranchEmail := BranchEmailRequired];
      isValid := false;
    } else if !Text.MatchesEmail(f.branchEmail) {
      errors := errors[BranchEmail := EmailInvalid];
      isValid := false;
    }
    assert Recorded(f, {BranchName, BranchEmail}, errors, isValid);
    if f.branchLocation == "" {
      errors := errors[BranchLocation := BranchLocationRequired];
      isValid := false;
    }
  }

  /** The second half of `validateForm`: the user fields, added to what the branch checks found. */
  method CheckUserFields(f: RegisterInput, errors0: map<RegisterField, string>, isValid0: bool)
    returns (errors: map<RegisterField, string>, isValid: bool)
    requires Recorded(f, BranchChecks, errors0, isValid0)
    ensures Recorded(f, AllFields, errors, isValid)
  {
    errors, isValid := errors0, isValid0;
    if f.userEmail == "" {
      errors := errors[UserEmail := UserEmailRequired];
      isValid := false;
    } else if !Text.MatchesEmail(f.userEmail) {
      errors := errors[UserEmail := EmailInvalid];
      isValid := false;
    }
    assert Recorded(f, {BranchName, BranchEmail, BranchLocation, UserEmail}, errors, isValid);
    if f.password == "" {
      errors := errors[Password := PasswordRequired];
      isValid := false;
    } else if Text.Utf16Length(f.password) < MinPasswordLength {
      errors := errors[Password := PasswordTooShort];
      isValid := false;
    }
    assert Recorded(f, {BranchName, BranchEmail, BranchLocation, UserEmail, Password}, errors, isValid);
    if f.password != f.confirmPassword {
      errors := errors[ConfirmPassword := PasswordMismatch];
      isValid := false;
    }
  }

  /** `validateForm`: the six checks in order, every failure recorded and
      clearing the flag. */
  method ValidateForm(f: RegisterInput) returns (errors: map<RegisterField, string>, isValid: bool)
    ensures errors == RegisterErrors(f)
    ensures isValid <==> errors == map[]
  {
    errors, isValid := CheckBranchFields(f);
    errors, isValid := CheckUserFields(f, errors, isValid);
    if !isValid {
      var k :| k in AllFields && Problem(f, k).Some?;
      assert k in errors;
    }
  }

  class RegisterForm {
    var branchName: string
    var branchEmail: string
    var branchLocation: string
    var userEmail: string
    var password: string
    var confirmPassword: string
    var role: string
    var errors: map<RegisterField, string>

    function Input(): RegisterInput
      reads this
    {
      RegisterInput(branchName, branchEmail, branchLocation, userEmail, password, confirmPassword)
    }

    constructor ()
      ensures Input() == RegisterInput("", "", "", "", "", "")
      ensures role == DefaultRole && errors == map[]
    {
      branchName, branchEmail, branchLocation := "", "", "";
      userEmail, password, confirmPassword := "", "", "";
      role := DefaultRole;
      errors := map[];
    }

    /** `handleSubmit`: register only a valid form, with the branch part
        `{name, email, location}` and the user part `{email, password, role}`. */
    method HandleSubmit(auth: UseAuth.AuthProvider, outcome: Result<(), Failure>)
      modifies this`errors, auth, auth.world
      ensures errors == RegisterErrors(Input())
      ensures errors != map[] ==>
        && auth.isAuthenticated == old(auth.isAuthenticated) && auth.isLoading == old(auth.isLoading)
        && auth.world.token == old(auth.world.token) && auth.world.events == old(auth.world.events)
      ensures errors == map[] ==>
        && !auth.isLoading && auth.isAuthenticated == old(auth.isAuthenticated)
        && auth.world.token == Api.TokenAfter(old(auth.world.token), outcome)
        && auth.world.events == old(auth.world.events) + UseAuth.RegisterEvents(old(auth.world.token),
             BranchData(branchName, branchEmail, branchLocation), UserData(userEmail, password, role), outcome)
    {
      var newErrors, isValid := ValidateForm(Input());
      errors := newErrors;
      if isValid {
        var branchData := BranchData(branchName, branchEmail, branchLocation);
        var userData := UserData(userEmail, password, role);
        auth.Register(branchData, userData, outcome);
      }
    }
  }
}
