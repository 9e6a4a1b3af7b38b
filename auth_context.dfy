/** The session held by the authentication provider: the signed-in `user`, the stored
    `profile` and the `loading` flag, with the transitions that change them. Each awaited
    handler is one atomic step; what the hosted authentication service answers is an input.

    The pure step functions below are the specification; class `AuthProvider` is the
    provider itself, whose methods update its three fields in the order the handlers do. */
module AuthContext {
  import opened Outcomes

  /** The application's view of who is signed in. */
  datatype User = User(id: string, role: string, name: string)

  /** A row of the `profiles` table. */
  datatype Profile = Profile(id: string, authUid: string, role: string, fullName: string, email: string)

  /** The account the authentication service reports. */
  datatype AuthUser = AuthUser(id: string, email: string)

  /** The provider's three pieces of state. */
  datatype Session = Session(user: Option<User>, profile: Option<Profile>, loading: bool)

  /** A step's new session and what it lets the awaiting caller observe. */
  datatype Step = Step(session: Session, outcome: Outcome)

  /** The user record built from a profile row: its id, its role and its full name. The
      auth uid and the e-mail do not enter it. */
  function UserOf(p: Profile): (u: User)
    ensures u.id == p.id && u.role == p.role && u.name == p.fullName
  {
    User(p.id, p.role, p.fullName)
  }

  /** User and profile are set together, and the user is the one built from the profile. */
  predicate Consistent(s: Session) {
    match s.profile
    case None => s.user.None?
    case Some(p) => s.user == Some(UserOf(p))
  }

  /** `isAuthenticated`: a user is set. In a consistent session that is exactly when a
      profile is loaded, and the user then carries the profile's id, role and name. */
  predicate Authenticated(s: Session): (b: bool)
    ensures Consistent(s) ==> (b <==> s.profile.Some?)
    ensures Consistent(s) && b ==>
              s.user.value.id == s.profile.value.id && s.user.value.role == s.profile.value.role
              && s.user.value.name == s.profile.value.fullName
  {
    s.user.Some?
  }

  /** The state before any handler has run. */
  const Initial := Session(None, None, true)

  /** Initialisation: look up the current account and, if there is one, its profile.
      Any rejection is logged and swallowed; `loading` ends false in every case. */
  function InitializeStep(s: Session, currentUser: Remote<AuthUser>, userProfile: Remote<Profile>): (r: Session)
    ensures !r.loading
    ensures currentUser.Found() && userProfile.Found() ==>
              r.profile == userProfile.result && r.user == Some(UserOf(userProfile.result.value))
    ensures !(currentUser.Found() && userProfile.Found()) ==> r.user == s.user && r.profile == s.profile
    ensures Consistent(s) ==> Consistent(r)
  {
    if currentUser.Found() then
      match userProfile
      case Resolved(Some(p)) => Session(Some(UserOf(p)), Some(p), false)
      case _ => s.(loading := false)
    else
      s.(loading := false)
  }

  /** `login(userData)`: sets the user and nothing else. */
  function LoginStep(s: Session, userData: User): (r: Session)
    ensures Authenticated(r) && r.user.value == userData
    ensures r.profile == s.profile && r.loading == s.loading
  {
    s.(user := Some(userData))
  }

  /** `logout`: awaits the remote sign-out, swallows its rejection, then clears user and profile. */
  function LogoutStep(s: Session, signOut: Outcome): (r: Session)
    ensures !Authenticated(r) && r.profile.None?
    ensures Consistent(r)
    ensures r.loading == s.loading
  {
    s.(user := None, profile := None)
  }

  /** `signUp`: the remote result is passed on (a rejection is rethrown); the session is untouched. */
  function SignUpStep(s: Session, signUp: Outcome): (r: Step)
    ensures r.session == s
    ensures r.outcome == signUp
  {
    Step(s, signUp)
  }

  /** `signIn`: exchange the credentials, then fetch the profile. User and profile are set
      only when both come back; a rejection of either call is rethrown with the session
      untouched. */
  function SignInStep(s: Session, authUser: Remote<AuthUser>, userProfile: Remote<Profile>): (r: Step)
    ensures r.outcome.Failed? <==> authUser.Rejected? || (authUser.Found() && userProfile.Rejected?)
    ensures authUser.Rejected? ==> r.outcome == Failed(authUser.error)
    ensures authUser.Found() && userProfile.Rejected? ==> r.outcome == Failed(userProfile.error)
    ensures r.session != s ==> authUser.Found() && userProfile.Found()
    ensures authUser.Found() && userProfile.Found() ==>
              r.session.profile == userProfile.result && r.session.user == Some(UserOf(userProfile.result.value))
    ensures r.session.loading == s.loading
    ensures Consistent(s) ==> Consistent(r.session)
  {
    match authUser
    case Rejected(e) => Step(s, Failed(e))
    case Resolved(None) => Step(s, Succeeded)
    case Resolved(Some(_)) =>
      match userProfile
      case Rejected(e) => Step(s, Failed(e))
      case Resolved(None) => Step(s, Succeeded)
      case Resolved(Some(p)) => Step(s.(user := Some(UserOf(p)), profile := Some(p)), Succeeded)
  }

  /** Signing in after signing out authenticates exactly when both lookups succeed, and then
      as the profile's owner. */
  lemma SignInAfterLogout(s: Session, signOut: Outcome, authUser: Remote<AuthUser>, userProfile: Remote<Profile>)
    ensures var t := SignInStep(LogoutStep(s, signOut), authUser, userProfile).session;
            Authenticated(t) <==> authUser.Found() && userProfile.Found()
    ensures var t := SignInStep(LogoutStep(s, signOut), authUser, userProfile).session;
            Authenticated(t) ==> t.user.value.id == t.profile.value.id && Consistent(t)
  {
  }

  /** The transitions other than `login`, as data. */
  datatype Event =
    | Initialize(currentUser: Remote<AuthUser>, userProfile: Remote<Profile>)
    | Logout(signOut: Outcome)
    | SignUp(signUp: Outcome)
    | SignIn(authUser: Remote<AuthUser>, userProfile: Remote<Profile>)

  function Apply(s: Session, e: Event): Session {
    match e
    case Initialize(cu, up) => InitializeStep(s, cu, up)
    case Logout(o) => LogoutStep(s, o)
    case SignUp(o) => SignUpStep(s, o).session
    case SignIn(au, up) => SignInStep(s, au, up).session
  }

  function Run(s: Session, events: seq<Event>): Session
    decreases |events|
  {
    if events == [] then s else Run(Apply(s, events[0]), events[1..])
  }

  /** Every state reached from a consistent one (the initial one included) by any run of
      these transitions is consistent. */
  lemma {:induction false} RunKeepsConsistent(s: Session, events: seq<Event>)
    requires Consistent(s)
    ensures Consistent(Run(s, events))
    decreases |events|
  {
    if events != [] {
      RunKeepsConsistent(Apply(s, events[0]), events[1..]);
    }
  }

  /** The provider itself: three fields the handlers update in sequence. */
  class AuthProvider {
    var user: Option<User>
    var profile: Option<Profile>
    var loading: bool

    function State(): Session
      reads this
    {
      Session(user, profile, loading)
    }

    predicate IsAuthenticated(): (b: bool)
      reads this
      ensures b <==> user.Some?
      ensures Consistent(State()) ==> (b <==> profile.Some?)
    {
      Authenticated(State())
    }

    constructor ()
      ensures State() == Initial && Consistent(State())
    {
      user := None;
      profile := None;
      loading := true;
    }

    method InitializeAuth(currentUser: Remote<AuthUser>, userProfile: Remote<Profile>)
      modifies this
      ensures State() == InitializeStep(old(State()), currentUser, userProfile)
    {
      if currentUser.Found() {
        if userProfile.Found() {
          var p := userProfile.result.value;
          user := Some(UserOf(p));
          profile := Some(p);
        }
      }
      loading := false;
    }

    method Login(userData: User)
      modifies this`user
      ensures State() == LoginStep(old(State()), userData)
    {
      user := Some(userData);
    }

    method Logout(signOut: Outcome)
      modifies this`user, this`profile
      ensures State() == LogoutStep(old(State()), signOut)
      ensures !IsAuthenticated()
    {
      // a rejected sign-out is only logged
      user := None;
      profile := None;
    }

    /** Changes no field: a new account must verify its e-mail before it can sign in. */
    method SignUp(email: string, password: string, fullName: string, role: string, signUp: Outcome)
      returns (outcome: Outcome)
      ensures outcome == SignUpStep(State(), signUp).outcome
      ensures outcome.Failed? <==> signUp.Failed?
    {
      outcome := signUp;
    }

    method SignIn(email: string, password: string, authUser: Remote<AuthUser>, userProfile: Remote<Profile>)
      returns (outcome: Outcome)
      modifies this`user, this`profile
      ensures State() == SignInStep(old(State()), authUser, userProfile).session
      ensures outcome == SignInStep(old(State()), authUser, userProfile).outcome
    {
      outcome := Succeeded;
      match authUser {
        case Rejected(e) =>
          outcome := Failed(e);
        case Resolved(Some(_)) =>
          match userProfile {
            case Rejected(e) =>
              outcome := Failed(e);
            case Resolved(Some(p)) =>
              user := Some(UserOf(p));
              profile := Some(p);
            case Resolved(None) =>
          }
        case Resolved(None) =>
      }
    }
  }
}
