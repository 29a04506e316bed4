/** The mock authentication store of store/auth-store.ts. The one-second
    delays are left out; the generated identifier and `Date.now()` are the
    parameters `id` and `now`; a thrown error is the out-parameter
    `thrown`. */
module AuthStore {
  import opened Wrappers
  import opened JsText
  import opened ClipTypes

  /** The only account the mock knows. */
  const TestEmail := "test@example.com"
  const TestPassword := "password"

  const DayMs := 86400000

  const GooglePhoto := "https://ui-avatars.com/api/?name=Google+User&background=random"

  /** The persisted fields of the store. */
  datatype AuthState = AuthState(user: Option<User>, isLoading: bool, error: Option<string>)

  const SignedOut := AuthState(None, false, None)

  /** What `signUp` ends with: the new account, or the message it throws. */
  function SignUpOutcome(email: string, id: string, now: int): (r: Result<User, string>)
    ensures r.Failure? <==> email == TestEmail
    ensures r.Failure? ==> r.error == "Email already in use"
    ensures r.Success? ==> && r.value.id == id && r.value.email == email
                           && r.value.authProvider == EmailAuth && r.value.createdAt == now
                           && r.value.displayName.None? && r.value.photoURL.None?
  {
    if email == TestEmail then Failure("Email already in use")
    else Success(User(id, email, None, None, EmailAuth, now))
  }

  /** What `signIn` ends with: the test account, created a day before
      now, or the message it throws. */
  function SignInOutcome(email: string, password: string, now: int): (r: Result<User, string>)
    ensures r.Success? <==> email == TestEmail && password == TestPassword
    ensures r.Failure? ==> r.error == "Invalid email or password"
    ensures r.Success? ==> && r.value.id == "test-user-id" && r.value.email == email
                           && r.value.displayName == Some("Test User")
                           && r.value.authProvider == EmailAuth && r.value.createdAt == now - DayMs
  {
    if email != TestEmail || password != TestPassword then Failure("Invalid email or password")
    else Success(User("test-user-id", TestEmail, Some("Test User"), None, EmailAuth, now - DayMs))
  }

  /** The fixed Google account, created now. */
  function GoogleUser(now: int): (r: User)
    ensures r.authProvider == GoogleAuth && r.createdAt == now && r.photoURL.Some?
    ensures r.id == "google-user-id" && r.email == "google@example.com"
  {
    User("google-user-id", "google@example.com", Some("Google User"), Some(GooglePhoto), GoogleAuth, now)
  }

  /** A fresh anonymous account: the given id, an address made from the
      instant, no photo. */
  function AnonymousUser(id: string, now: int): (r: User)
    ensures r.authProvider == AnonymousAuth && r.id == id && r.createdAt == now && r.photoURL.None?
    ensures |r.email| > 22 && r.email[..10] == "anonymous-" && r.email[|r.email| - 12..] == "@example.com"
  {
    User(id, "anonymous-" + IntToString(now) + "@example.com", Some("Anonymous User"), None, AnonymousAuth, now)
  }

  /** Anonymous accounts made at different instants have different
      addresses. */
  lemma AnonymousEmailsDistinct(id1: string, now1: int, id2: string, now2: int)
    requires now1 != now2
    ensures AnonymousUser(id1, now1).email != AnonymousUser(id2, now2).email
  {
    var a, b := IntToString(now1), IntToString(now2);
    var e1 := "anonymous-" + a + "@example.com";
    var e2 := "anonymous-" + b + "@example.com";
    if e1 == e2 {
      assert e1[10..|e1| - 12] == a;
      assert e2[10..|e2| - 12] == b;
      IntToStringInjective(now1, now2);
      assert false;
    }
  }

  /** The state an asynchronous action leaves: loading over, and either
      the new user with no error or the old user with the message. */
  function Settle(s: AuthState, outcome: Result<User, string>): (r: AuthState)
    ensures !r.isLoading
    ensures outcome.Success? ==> r.user == Some(outcome.value) && r.error.None?
    ensures outcome.Failure? ==> r.user == s.user && r.error == Some(outcome.error)
  {
    match outcome
    case Success(u) => AuthState(Some(u), false, None)
    case Failure(e) => AuthState(s.user, false, Some(e))
  }

  /** `signOut`: no user and no error; the loading flag is left alone. */
  function SignOutState(s: AuthState): (r: AuthState)
    ensures r.user.None? && r.error.None? && r.isLoading == s.isLoading
  {
    s.(user := None, error := None)
  }

  /** A `Partial<User>`: the fields present overwrite. */
  datatype UserPatch = UserPatch(
    id: Option<string>, email: Option<string>, displayName: Option<string>,
    photoURL: Option<string>, authProvider: Option<AuthProvider>, createdAt: Option<int>)

  const EmptyPatch := UserPatch(None, None, None, None, None, None)

  /** `{ ...user, ...data }`. */
  function MergeUser(u: User, p: UserPatch): (r: User)
    ensures r.id == p.id.GetOr(u.id) && r.email == p.email.GetOr(u.email)
    ensures r.displayName == (if p.displayName.Some? then p.displayName else u.displayName)
    ensures r.photoURL == (if p.photoURL.Some? then p.photoURL else u.photoURL)
    ensures r.authProvider == p.authProvider.GetOr(u.authProvider)
    ensures r.createdAt == p.createdAt.GetOr(u.createdAt)
  {
    User(p.id.GetOr(u.id), p.email.GetOr(u.email),
         if p.displayName.Some? then p.displayName else u.displayName,
         if p.photoURL.Some? then p.photoURL else u.photoURL,
         p.authProvider.GetOr(u.authProvider), p.createdAt.GetOr(u.createdAt))
  }

  /** `updateProfile`: nothing happens without a signed-in user. */
  function UpdateProfileState(s: AuthState, p: UserPatch): (r: AuthState)
    ensures s.user.None? ==> r == s
    ensures s.user.Some? ==> r == s.(user := Some(MergeUser(s.user.value, p)))
  {
    if s.user.None? then s else s.(user := Some(MergeUser(s.user.value, p)))
  }

  class AuthStore {
    var user: Option<User>
    var isLoading: bool
    var error: Option<string>

    function State(): AuthState
      reads this
    {
      AuthState(user, isLoading, error)
    }

    constructor()
      ensures State() == SignedOut
    {
      user, isLoading, error := None, false, None;
    }

    /** `signUp`: fails for the address already taken, otherwise signs in a new account. */
    method SignUp(email: string, password: string, id: string, now: int) returns (thrown: Option<string>)
      modifies this
      ensures State() == Settle(old(State()), SignUpOutcome(email, id, now))
      ensures thrown.Some? <==> SignUpOutcome(email, id, now).Failure?
      ensures thrown.Some? ==> thrown == error
    {
      isLoading, error := true, None;
      if email == TestEmail {
        error, isLoading := Some("Email already in use"), false;
        return error;
      }
      user := Some(User(id, email, None, None, EmailAuth, now));
      isLoading := false;
      return None;
    }

    /** `signIn`: only the test credentials are accepted. */
    method SignIn(email: string, password: string, now: int) returns (thrown: Option<string>)
      modifies this
      ensures State() == Settle(old(State()), SignInOutcome(email, password, now))
      ensures thrown.Some? <==> SignInOutcome(email, password, now).Failure?
      ensures thrown.Some? ==> thrown == error
    {
      isLoading, error := true, None;
      if email != TestEmail || password != TestPassword {
        error, isLoading := Some("Invalid email or password"), false;
        return error;
      }
      user := Some(User("test-user-id", TestEmail, Some("Test User"), None, EmailAuth, now - DayMs));
      isLoading := false;
      return None;
    }

    /** `signInWithGoogle`: always signs in the fixed Google account. */
    method SignInWithGoogle(now: int)
      modifies this
      ensures State() == Settle(old(State()), Success(GoogleUser(now)))
    {
      isLoading, error := true, None;
      user := Some(User("google-user-id", "google@example.com", Some("Google User"), Some(GooglePhoto),
                        GoogleAuth, now));
      isLoading := false;
    }

    /** `signInAnonymously`: always signs in a fresh anonymous account. */
    method SignInAnonymously(id: string, now: int)
      modifies this
      ensures State() == Settle(old(State()), Success(AnonymousUser(id, now)))
    {
      isLoading, error := true, None;
      user := Some(User(id, "anonymous-" + IntToString(now) + "@example.com", Some("Anonymous User"), None,
                        AnonymousAuth, now));
      isLoading := false;
    }

    method SignOut()
      modifies this
      ensures State() == SignOutState(old(State()))
    {
      user, error := None, None;
    }

    method UpdateProfile(data: UserPatch)
      modifies this
      ensures State() == UpdateProfileState(old(State()), data)
    {
      if user.None? {
        return;
      }
      user := Some(MergeUser(user.value, data));
    }
  }

  // ---------------------------------------------------------------------
  // Properties

  /** Signing up with the test address never replaces who is signed in,
      and signing in with anything but the test credentials neither. */
  lemma RejectedKeepsUser(s: AuthState, email: string, password: string, id: string, now: int)
    ensures email == TestEmail ==> Settle(s, SignUpOutcome(email, id, now)).user == s.user
    ensures email != TestEmail || password != TestPassword ==>
              Settle(s, SignInOutcome(email, password, now)).user == s.user
    ensures Settle(s, SignInOutcome(email, password, now)).error.None? <==>
              email == TestEmail && password == TestPassword
  {
  }

  /** The two mock accounts never meet: an address that can sign in
      cannot sign up, and every other address can sign up but not in. */
  lemma SignUpSignInExclusive(email: string, password: string, id: string, now: int)
    ensures SignInOutcome(email, password, now).Success? ==> SignUpOutcome(email, id, now).Failure?
    ensures email != TestEmail ==> SignUpOutcome(email, id, now).Success? && SignInOutcome(email, password, now).Failure?
  {
  }

  /** After signing out, whatever was signed in, the state is the
      signed-out state once loading is over; signing out twice is
      signing out once. */
  lemma SignOutAfterSettle(s: AuthState, outcome: Result<User, string>)
    ensures SignOutState(Settle(s, outcome)) == SignedOut
    ensures SignOutState(SignOutState(s)) == SignOutState(s)
  {
  }

  /** A profile update with nothing in it changes nothing, the same update
      twice is the update once, and a signed-out store ignores it. */
  lemma UpdateProfileLaws(s: AuthState, p: UserPatch)
    ensures UpdateProfileState(s, EmptyPatch) == s
    ensures UpdateProfileState(UpdateProfileState(s, p), p) == UpdateProfileState(s, p)
    ensures UpdateProfileState(SignOutState(s), p) == SignOutState(s)
  {
    if s.user.Some? {
      var u := s.user.value;
      assert MergeUser(u, EmptyPatch) == u;
      assert MergeUser(MergeUser(u, p), p) == MergeUser(u, p);
    }
  }
}
