/** The authentication provider (contexts/auth-context.tsx): the app-wide
    session store (user, profile, loading, error) and the gateway operations
    it hands to every component (signIn, signUp, signOut, resetPassword).

    Backend answers are parameters. The profiles table is a parameter too,
    and the `.single()` lookup of one profile by id is `ProfileRow`. */
module AuthContext {
  import opened Common
  import opened Backend

  const ConfigError := "Failed to initialize authentication. Please check your configuration."
  const Unavailable := "Authentication service not available"
  const DuplicateEmail := "A user with this email already exists"
  const SignUpThrew := "An unexpected error occurred during signup"
  const OutsideProvider := "useAuth must be used within an AuthProvider"

  /** A row of the profiles table. */
  datatype Profile = Profile(id: string, email: string, firstName: string, lastName: string, role: string)

  /** The `userData` argument of signUp. */
  datatype UserData = UserData(firstName: string, lastName: string, role: string)

  /** The `options.data` metadata sent with auth.signUp. */
  datatype Metadata = Metadata(firstName: string, lastName: string, role: string, email: string)

  /** What the gateway asks of the backend. */
  datatype GatewayRequest =
    | SignInWithPassword(email: string, password: string)
    | ProfilesByEmail(lookupEmail: string)
    | SignUpWithMetadata(signUpEmail: string, signUpPassword: string, metadata: Metadata)
    | SignOutRequest
    | ResetPasswordForEmail(resetEmail: string)

  /** The `data` of a successful auth.signUp. */
  datatype SignUpData = SignUpData(user: Option<User>, session: Option<Session>)

  /** The answer of auth.signUp: `{ data, error }`. */
  datatype SignUpAnswer = SignUpAnswer(data: SignUpData, error: Option<BackendError>)

  /** What a gateway operation resolves to: `{ data?, error }`. */
  datatype GatewayResult = GatewayResult(data: Option<SignUpData>, error: Option<BackendError>)

  function Failure(message: string): GatewayResult {
    GatewayResult(None, Some(BackendError(message)))
  }

  /** `select("*").eq("id", id).single()`: the one row with that id; the data
      is null when there is no such row or more than one. */
  function ProfileRow(rows: seq<Profile>, id: string): (r: Option<Profile>)
    ensures r.Some? <==> |Filter(rows, (p: Profile) => p.id == id)| == 1
    ensures r.Some? ==> r.value.id == id && r.value in rows
  {
    var matching := Filter(rows, (p: Profile) => p.id == id);
    if |matching| == 1 then Some(matching[0]) else None
  }

  /** The profile of the session's user, or null when there is no user. */
  function ProfileOf(user: Option<User>, rows: seq<Profile>): (r: Option<Profile>)
    ensures user.None? ==> r.None?
    ensures r.Some? ==> user.Some? && r.value.id == user.value.id
  {
    if user.Some? then ProfileRow(rows, user.value.id) else None
  }

  /** `session?.user ?? null` */
  function SessionUser(session: Option<Session>): Option<User> {
    if session.Some? then session.value.user else None
  }

  /** The email lookup resolved with null data or no rows, so signUp goes on
      to auth.signUp. */
  predicate EmailFree(existing: Call<Option<seq<string>>>) {
    existing.Returned? && (existing.value.None? || |existing.value.value| == 0)
  }

  /** What the provider renders: the configuration-error screen, or its
      children with the context value. */
  datatype View =
    | ErrorScreen(message: string)
    | Children(user: Option<User>, profile: Option<Profile>, loading: bool, error: Option<string>)

  /** `useAuth()`: the context value inside a provider; it throws outside one. */
  datatype Hook = Context(value: View) | Thrown(message: string)

  function UseAuth(context: Option<View>): (r: Hook)
    ensures context.None? <==> r == Thrown(OutsideProvider)
    ensures context.Some? ==> r == Context(context.value)
  {
    match context
    case None => Thrown(OutsideProvider)
    case Some(v) => Context(v)
  }

  class AuthProvider {
    var user: Option<User>
    var profile: Option<Profile>
    var loading: bool
    var error: Option<string>
    /** The `supabase` client state: set once createClient succeeded. */
    var hasClient: bool
    /** The auth-state-change listener has been registered. */
    var subscribed: bool

    /** The profile always belongs to the current user, the error screen is
        never shown while loading, and the listener and any profile exist only
        once there is a client. */
    predicate Valid()
      reads this
    {
      && (profile.Some? ==> user.Some? && profile.value.id == user.value.id)
      && (Truthy(error) ==> !loading)
      && (subscribed ==> hasClient)
      && (!hasClient ==> profile.None?)
    }

    constructor ()
      ensures Valid()
      ensures user == None && profile == None && loading && error == None
      ensures !hasClient && !subscribed
    {
      user, profile, loading, error := None, None, true, None;
      hasClient, subscribed := false, false;
    }

    /** The mount effect: create the client, read the current session and its
        profile, then register the listener. `clientCreated` is false when
        createClient throws (missing configuration). */
    method Initialize(clientCreated: bool, session: Option<Session>, rows: seq<Profile>)
      requires Valid() && !hasClient
      modifies this
      ensures Valid()
      ensures !loading
      ensures !clientCreated ==>
        error == Some(ConfigError) && !hasClient && !subscribed
        && user == old(user) && profile == old(profile)
      ensures clientCreated ==>
        && hasClient && subscribed && error == None
        && user == SessionUser(session)
        && profile == (if user.Some? then ProfileOf(user, rows) else old(profile))
    {
      if !clientCreated {
        error := Some(ConfigError);
        loading := false;
        return;
      }
      hasClient := true;
      error := None;
      user := SessionUser(session);
      if user.Some? {
        profile := ProfileOf(user, rows);
      }
      loading := false;
      subscribed := true;
    }

    /** The auth-state-change callback; it receives the new session. */
    method OnAuthStateChange(session: Option<Session>, rows: seq<Profile>)
      requires Valid() && subscribed
      modifies this
      ensures Valid()
      ensures user == SessionUser(session)
      ensures profile == ProfileOf(user, rows)
      ensures user.None? ==> profile.None?
      ensures !loading
      ensures error == old(error) && hasClient == old(hasClient) && subscribed == old(subscribed)
    {
      user := SessionUser(session);
      if user.Some? {
        profile := ProfileOf(user, rows);
      } else {
        profile := None;
      }
      loading := false;
    }

    /** What the provider renders. */
    function Render(): (v: View)
      reads this
      ensures v.ErrorScreen? <==> Truthy(error)
      ensures v.ErrorScreen? ==> v.message == error.value
      ensures v.Children? ==> v == Children(user, profile, loading, error)
    {
      if Truthy(error) then ErrorScreen(error.value) else Children(user, profile, loading, error)
    }

    /** `signIn`: the backend's error is returned unchanged. */
    method SignIn(email: string, password: string, answer: Option<BackendError>)
      returns (res: GatewayResult, sent: seq<GatewayRequest>)
      ensures !hasClient ==> res == Failure(Unavailable) && sent == []
      ensures hasClient ==> res == GatewayResult(None, answer) && sent == [SignInWithPassword(email, password)]
    {
      if !hasClient {
        return Failure(Unavailable), [];
      }
      sent := [SignInWithPassword(email, password)];
      res := GatewayResult(None, answer);
    }

    /** `signUp`: refuse an email the profiles table already holds, then sign
        up with the profile metadata. `existing` answers the lookup (its rows'
        emails, or null data); `answer` answers auth.signUp. */
    method SignUp(email: string, password: string, userData: UserData,
                  existing: Call<Option<seq<string>>>, answer: Call<SignUpAnswer>)
      returns (res: GatewayResult, sent: seq<GatewayRequest>)
      ensures !hasClient ==> res == Failure(Unavailable) && sent == []
      ensures hasClient ==> |sent| >= 1 && sent[0] == ProfilesByEmail(email)
      ensures hasClient && existing.Returned? && existing.value.Some? && |existing.value.value| > 0 ==>
        res == Failure(DuplicateEmail) && sent == [ProfilesByEmail(email)]
      ensures (exists e :: e in sent && e.SignUpWithMetadata?) ==>
        sent == [ProfilesByEmail(email),
                 SignUpWithMetadata(email, password,
                   Metadata(userData.firstName, userData.lastName, userData.role, email))]
      ensures res.error.None? ==>
        hasClient && answer.Returned? && answer.value.error.None? && res.data == Some(answer.value.data)
        && |sent| == 2 && sent[1].SignUpWithMetadata?
      ensures hasClient && answer.Returned? && answer.value.error.Some? && |sent| == 2 ==>
        res == GatewayResult(None, answer.value.error)
      ensures hasClient && (existing.Threw? || (|sent| == 2 && answer.Threw?)) ==> res == Failure(SignUpThrew)
      ensures hasClient && EmailFree(existing) ==>
        sent == [ProfilesByEmail(email),
                 SignUpWithMetadata(email, password,
                   Metadata(userData.firstName, userData.lastName, userData.role, email))]
      ensures hasClient && EmailFree(existing) && answer.Returned? && answer.value.error.None? ==>
        res == GatewayResult(Some(answer.value.data), None)
    {
      if !hasClient {
        return Failure(Unavailable), [];
      }
      sent := [ProfilesByEmail(email)];
      if existing.Threw? {
        return Failure(SignUpThrew), sent;
      }
      if existing.value.Some? && |existing.value.value| > 0 {
        return Failure(DuplicateEmail), sent;
      }
      var metadata := Metadata(userData.firstName, userData.lastName, userData.role, email);
      sent := sent + [SignUpWithMetadata(email, password, metadata)];
      match answer {
        case Threw(_) =>
          res := Failure(SignUpThrew);
        case Returned(SignUpAnswer(data, err)) =>
          if err.Some? {
            res := GatewayResult(None, err);
          } else {
            res := GatewayResult(Some(data), None);
          }
      }
    }

    /** `signOut`: a no-op without a client. */
    method SignOut() returns (sent: seq<GatewayRequest>)
      ensures hasClient <==> sent == [SignOutRequest]
      ensures !hasClient <==> sent == []
    {
      if hasClient {
        sent := [SignOutRequest];
      } else {
        sent := [];
      }
    }

    /** `resetPassword`: the backend's error is returned unchanged. */
    method ResetPassword(email: string, answer: Option<BackendError>)
      returns (res: GatewayResult, sent: seq<GatewayRequest>)
      ensures !hasClient ==> res == Failure(Unavailable) && sent == []
      ensures hasClient ==> res == GatewayResult(None, answer) && sent == [ResetPasswordForEmail(email)]
    {
      if !hasClient {
        return Failure(Unavailable), [];
      }
      sent := [ResetPasswordForEmail(email)];
      res := GatewayResult(None, answer);
    }
  }

  /** A provider whose client creation throws renders the configuration
      error screen, and hooks under it never see a context. */
  method FailedInitShowsErrorScreen(rows: seq<Profile>, session: Option<Session>) returns (v: View)
    ensures v == ErrorScreen(ConfigError)
  {
    var provider := new AuthProvider();
    provider.Initialize(false, session, rows);
    v := provider.Render();
  }

  /** A provider that initialises without a session renders its children,
      signed out and no longer loading. */
  method SignedOutInitRendersChildren(rows: seq<Profile>) returns (v: View)
    ensures v == Children(None, None, false, None)
  {
    var provider := new AuthProvider();
    provider.Initialize(true, None, rows);
    v := provider.Render();
  }
}
