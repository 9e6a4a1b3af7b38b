/** The unified login form: the role table, the validation chain that guards a
    submission, the dispatch to sign-in or sign-up, and the choice of the error text
    shown to the user. The environment settings and the remote results are inputs. */
module UnifiedLoginForm {
  import opened Outcomes
  import opened Text
  import AuthContext

  /** The display roles offered by the role selector. */
  const RoleOptions: seq<string> := ["Doctor", "Patient", "Receptionist", "Pharmacist", "Lab Technician"]

  /** The role codes stored in profiles. */
  const RoleCodes: set<string> := {"doctor", "patient", "receptionist", "pharmacist", "labtech"}

  /** One entry of the role table. */
  datatype RoleEntry = RoleEntry(dashboardPath: string, role: string)

  /** `roleConfig[display]`: the fixed entry of a display role, absent for any other string. */
  function RoleConfig(display: string): (r: Option<RoleEntry>)
    ensures r.Some? <==> display in RoleOptions
    ensures r.Some? ==> r.value.role in RoleCodes
  {
    match display
    case "Doctor" => Some(RoleEntry("/doctor/dashboard", "doctor"))
    case "Patient" => Some(RoleEntry("/patient/dashboard", "patient"))
    case "Receptionist" => Some(RoleEntry("/hospital/dashboard", "receptionist"))
    case "Pharmacist" => Some(RoleEntry("/pharmacy/dashboard", "pharmacist"))
    case "Lab Technician" => Some(RoleEntry("/lab/dashboard", "labtech"))
    case _ => None
  }

  /** Distinct display roles have distinct role codes and distinct dashboards. */
  lemma RoleConfigInjective(a: string, b: string)
    requires RoleConfig(a).Some? && RoleConfig(b).Some? && a != b
    ensures RoleConfig(a).value.role != RoleConfig(b).value.role
    ensures RoleConfig(a).value.dashboardPath != RoleConfig(b).value.dashboardPath
  {
  }

  /** Every role code is the code of some display role. */
  lemma {:induction false} RoleConfigOnto(code: string)
    requires code in RoleCodes
    ensures exists d :: d in RoleOptions && RoleConfig(d).value.role == code
  {
    var d := if code == "doctor" then "Doctor"
      else if code == "patient" then "Patient"
      else if code == "receptionist" then "Receptionist"
      else if code == "pharmacist" then "Pharmacist"
      else "Lab Technician";
    assert d in RoleOptions;
  }

  /** The two settings that locate the hosted backend; each may be unset. */
  datatype Env = Env(url: Option<string>, anonKey: Option<string>)

  const UrlPlaceholder := "your_supabase_project_url"
  const KeyPlaceholder := "your_supabase_anon_key"

  /** JavaScript falsiness of an optional string: unset or empty. */
  predicate Blank(v: Option<string>) {
    v.None? || v.value == ""
  }

  /** A setting is missing or still holds its placeholder. */
  predicate ConfigInvalid(env: Env) {
    Blank(env.url) || Blank(env.anonKey) || env.url == Some(UrlPlaceholder) || env.anonKey == Some(KeyPlaceholder)
  }

  const ConfigMessage := "Please configure Supabase environment variables in your .env file"
  const FieldsMessage := "Please fill in all required fields"
  const FullNameMessage := "Please enter your full name"
  const SignUpSuccessMessage := "Account created successfully! Please check your email to verify your account."

  /** The checks made before anything is sent, in order; the first that fails gives the
      message shown, and none failing lets the submission through. */
  function ValidationError(env: Env, email: string, password: string, role: string, isSignUp: bool, fullName: string): (r: Option<string>)
    ensures r.None? <==> !ConfigInvalid(env) && email != "" && password != "" && role != "" && (isSignUp ==> fullName != "")
    ensures ConfigInvalid(env) ==> r == Some(ConfigMessage)
    ensures !ConfigInvalid(env) && (email == "" || password == "" || role == "") ==> r == Some(FieldsMessage)
    ensures !ConfigInvalid(env) && email != "" && password != "" && role != "" && isSignUp && fullName == "" ==>
              r == Some(FullNameMessage)
    ensures r == Some(FullNameMessage) ==> isSignUp && fullName == ""
  {
    if ConfigInvalid(env) then Some(ConfigMessage)
    else if email == "" || password == "" || role == "" then Some(FieldsMessage)
    else if isSignUp && fullName == "" then Some(FullNameMessage)
    else None
  }

  const InvalidCredentials := "Invalid login credentials"
  const EmailNotConfirmed := "Email not confirmed"
  const EnvironmentVariables := "environment variables"

  const InvalidCredentialsText := "Invalid email or password. Please check your credentials and try again."
  const EmailNotConfirmedText := "Please check your email and click the verification link before signing in."
  const NotConfiguredText := "Application not configured. Please contact support."
  const FallbackText := "Authentication failed"

  /** The error's message exists and includes `needle`. */
  predicate Mentions(e: Exception, needle: string) {
    e.message.Some? && Contains(e.message.value, needle)
  }

  /** The text shown for a failed submission: three known messages are replaced, in
      priority order; any other non-empty message is shown as it is; an error without
      a message gets a generic text. */
  function ErrorText(e: Exception): (text: string)
    ensures text != ""
    ensures Mentions(e, InvalidCredentials) ==> text == InvalidCredentialsText
    ensures !Mentions(e, InvalidCredentials) && Mentions(e, EmailNotConfirmed) ==> text == EmailNotConfirmedText
    ensures !Mentions(e, InvalidCredentials) && !Mentions(e, EmailNotConfirmed) && Mentions(e, EnvironmentVariables) ==>
              text == NotConfiguredText
    ensures !Mentions(e, InvalidCredentials) && !Mentions(e, EmailNotConfirmed) && !Mentions(e, EnvironmentVariables) ==>
              text == (if Blank(e.message) then FallbackText else e.message.value)
  {
    if Mentions(e, InvalidCredentials) then InvalidCredentialsText
    else if Mentions(e, EmailNotConfirmed) then EmailNotConfirmedText
    else if Mentions(e, EnvironmentVariables) then NotConfiguredText
    else if !Blank(e.message) then e.message.value
    else FallbackText
  }

  /** The error raised when the selected role has no table entry and its entry is read. */
  const UndefinedConfig := Exception(Some("Cannot read properties of undefined"))

  datatype ToastKind = SuccessToast | ErrorToast
  datatype Toast = Toast(message: string, kind: ToastKind)

  /** The remote call a submission issues, if any. */
  datatype RemoteCall =
    | NoCall
    | SignInCall(email: string, password: string)
    | SignUpCall(email: string, password: string, fullName: string, role: string)

  /** The inputs of the credentials record, by name. */
  datatype CredentialField = Email | Password | Role

  class LoginForm {
    var email: string
    var password: string
    var role: string
    var isSignUp: bool
    var fullName: string
    var loading: bool
    var toast: Option<Toast>

    constructor ()
      ensures email == "" && password == "" && role == "" && fullName == ""
      ensures !isSignUp && !loading && toast.None?
    {
      email, password, role := "", "", "";
      isSignUp := false;
      fullName := "";
      loading := false;
      toast := None;
    }

    /** `handleChange`: one field of the credentials takes the new value. */
    method HandleChange(field: CredentialField, value: string)
      modifies this`email, this`password, this`role
      ensures email == (if field == Email then value else old(email))
      ensures password == (if field == Password then value else old(password))
      ensures role == (if field == Role then value else old(role))
    {
      match field {
        case Email => email := value;
        case Password => password := value;
        case Role => role := value;
      }
    }

    method SetFullName(value: string)
      modifies this`fullName
      ensures fullName == value
    {
      fullName := value;
    }

    /** The link under the button switches between sign-in and sign-up. */
    method ToggleMode()
      modifies this`isSignUp
      ensures isSignUp == !old(isSignUp)
    {
      isSignUp := !isSignUp;
    }

    /** `handleSubmit`: validate, then sign up or sign in through the session provider.
        `signUp` is what the remote sign-up does, `authUser` and `userProfile` what the
        remote sign-in and profile lookup do; `navigateTo` is the dashboard the form
        navigates to, if it does. */
    method HandleSubmit(env: Env, session: AuthContext.AuthProvider,
                        signUp: Outcome, authUser: Remote<AuthContext.AuthUser>, userProfile: Remote<AuthContext.Profile>)
      returns (call: RemoteCall, navigateTo: Option<string>)
      modifies this`loading, this`isSignUp, this`toast, session`user, session`profile
      // the validation chain: an early return that shows the first failing check's message
      ensures var invalid := ValidationError(env, email, password, role, old(isSignUp), fullName);
              invalid.Some? ==>
                call == NoCall && navigateTo.None? && toast == Some(Toast(invalid.value, ErrorToast))
                && loading == old(loading) && isSignUp == old(isSignUp)
      // after validation passes, `loading` ends false on every path
      ensures ValidationError(env, email, password, role, old(isSignUp), fullName).None? ==> !loading
      // dispatch: sign-up sends the role code (and is not sent when the role has no entry); sign-in sends the credentials
      ensures ValidationError(env, email, password, role, old(isSignUp), fullName).None? ==>
                call == (if !old(isSignUp) then SignInCall(email, password)
                         else if RoleConfig(role).Some? then SignUpCall(email, password, fullName, RoleConfig(role).value.role)
                         else NoCall)
      // only a sign-in changes the session, and exactly as the provider's sign-in step does
      ensures session.State() == (if call.SignInCall? then AuthContext.SignInStep(old(session.State()), authUser, userProfile).session
                                  else old(session.State()))
      // a successful sign-up returns the form to sign-in mode, without navigating
      ensures isSignUp == (if call.SignUpCall? && signUp.Succeeded? then false else old(isSignUp))
      ensures call.SignUpCall? && signUp.Succeeded? ==> toast == Some(Toast(SignUpSuccessMessage, SuccessToast))
      // a successful sign-in navigates to the role's dashboard
      ensures navigateTo.Some? <==>
                call.SignInCall? && AuthContext.SignInStep(old(session.State()), authUser, userProfile).outcome.Succeeded?
                && RoleConfig(role).Some?
      ensures navigateTo.Some? ==> navigateTo.value == RoleConfig(role).value.dashboardPath
      ensures call.SignInCall? && navigateTo.None? ==>
                var step := AuthContext.SignInStep(old(session.State()), authUser, userProfile);
                toast == Some(Toast(ErrorText(if step.outcome.Failed? then step.outcome.error else UndefinedConfig), ErrorToast))
      ensures navigateTo.Some? ==> toast == old(toast)
      // a failed sign-up (or a role without entry) shows the classified error
      ensures call.SignUpCall? && signUp.Failed? ==> toast == Some(Toast(ErrorText(signUp.error), ErrorToast))
      ensures ValidationError(env, email, password, role, old(isSignUp), fullName).None? && old(isSignUp) && call.NoCall? ==>
                toast == Some(Toast(ErrorText(UndefinedConfig), ErrorToast))
    {
      call := NoCall;
      navigateTo := None;
      if ConfigInvalid(env) {
        toast := Some(Toast(ConfigMessage, ErrorToast));
        return;
      }
      if email == "" || password == "" || role == "" {
        toast := Some(Toast(FieldsMessage, ErrorToast));
        return;
      }
      if isSignUp && fullName == "" {
        toast := Some(Toast(FullNameMessage, ErrorToast));
        return;
      }

      loading := true;
      var config := RoleConfig(role);
      var failure: Option<Exception> := None;
      if isSignUp {
        if config.None? {
          // reading `config.role` throws before the call is made
          failure := Some(UndefinedConfig);
        } else {
          call := SignUpCall(email, password, fullName, config.value.role);
          var outcome := session.SignUp(email, password, fullName, config.value.role, signUp);
          if outcome.Failed? {
            failure := Some(outcome.error);
          } else {
            toast := Some(Toast(SignUpSuccessMessage, SuccessToast));
            isSignUp := false;
          }
        }
      } else {
        call := SignInCall(email, password);
        var outcome := session.SignIn(email, password, authUser, userProfile);
        if outcome.Failed? {
          failure := Some(outcome.error);
        } else if config.None? {
          // reading `config.dashboardPath` throws after the sign-in
          failure := Some(UndefinedConfig);
        } else {
          navigateTo := Some(config.value.dashboardPath);
        }
      }
      if failure.Some? {
        toast := Some(Toast(ErrorText(failure.value), ErrorToast));
      }
      loading := false;
    }
  }
}

/** A client of the form and the provider: signing up as a doctor leaves the session
    anonymous and returns the form to sign-in mode; signing in afterwards authenticates
    the doctor and navigates to the doctor's dashboard. */
module LoginScenario {
  import opened Outcomes
  import opened UnifiedLoginForm
  import AuthContext

  method SignUpThenSignIn(env: Env, account: AuthContext.AuthUser, row: AuthContext.Profile)
    requires !ConfigInvalid(env)
    requires row.role == "doctor"
  {
    var session := new AuthContext.AuthProvider();
    session.InitializeAuth(Resolved(None), Resolved(None));
    var form := new LoginForm();
    form.ToggleMode();
    form.HandleChange(Email, "asha@example.org");
    form.HandleChange(Password, "secret");
    form.HandleChange(Role, "Doctor");
    form.SetFullName("Asha Rao");

    var call, nav := form.HandleSubmit(env, session, Succeeded, Rejected(Exception(None)), Rejected(Exception(None)));
    assert call == SignUpCall("asha@example.org", "secret", "Asha Rao", "doctor");
    assert nav.None? && !form.isSignUp && !session.IsAuthenticated();

    call, nav := form.HandleSubmit(env, session, Succeeded, Resolved(Some(account)), Resolved(Some(row)));
    assert call == SignInCall("asha@example.org", "secret");
    assert nav == Some("/doctor/dashboard");
    assert session.IsAuthenticated() && session.user.value.role == "doctor";
    assert !form.loading;
  }
}
