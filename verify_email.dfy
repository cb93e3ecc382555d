/** The email-verification page (app/auth/verify-email/page.tsx): the interval
    between sign-up and a confirmed address. Its state is a handful of React
    state fields plus the browser's local storage; three independent paths
    (a confirmation deep link, an existing session, an auth-change event) call
    one finalisation step.

    Every effect and handler is one event; the page applies events one at a
    time. `Step` is the reducer over a snapshot of the page, and the class
    `VerifyEmailPage` performs the same updates field by field. */
module VerifyEmail {
  import opened Common
  import opened Backend

  const PendingEmailKey := "pendingVerificationEmail"
  const DevSuccessKey := "devSignupSuccess"
  const PendingUserDataKey := "pendingUserData"
  /** The three keys the sign-up page leaves behind for this page. */
  const PendingKeys: set<string> := {PendingEmailKey, DevSuccessKey, PendingUserDataKey}

  const LandingPath := "/dashboard"
  const SignUpPath := "/auth/signup"
  const LoginPath := "/auth/login"

  const NoEmailError := "No email address found. Please try signing up again."
  const LinkThrewError := "An unexpected error occurred during verification"
  const CheckThrewError := "An unexpected error occurred while checking verification status"
  const ResendThrewError := "Failed to resend verification email"

  /** The sign-up draft kept in local storage as JSON. */
  datatype Draft = Draft(firstName: string, lastName: string, role: string)

  /** What the auth service was asked to do, in order. */
  datatype AuthRequest =
    | SetSessionRequest(accessToken: string, refreshToken: string)
    | GetSessionRequest
    | GetUserRequest
    | ResendRequest(email: string)

  /** The answer of `supabase.auth.setSession`: the session's user (possibly
      null), or an error object. */
  datatype SetSessionAnswer = SessionSet(user: Option<User>) | SetSessionFailed(error: BackendError)

  /** Snapshot of the page: its state fields, local storage, the navigations
      it has requested (immediately, or after the 2000 ms delay) and the
      auth requests it has issued. */
  datatype Page = Page(
    initialized: bool,
    isVerified: bool,
    userEmail: Option<string>,
    error: string,
    isLoading: bool,
    devSignupSuccess: bool,
    userData: Option<Draft>,
    storage: map<string, string>,
    navigations: seq<string>,
    requests: seq<AuthRequest>)

  /** One effect run or handler call. `parsed` is what `JSON.parse` makes of
      the stored draft (None when it throws); the other parameters are the
      answers of the backend calls the step makes. */
  datatype Event =
    | Initialize(parsed: Option<Draft>)
    | LinkTokens(accessToken: Option<string>, refreshToken: Option<string>, linkType: Option<string>,
                 answer: Call<SetSessionAnswer>)
    | SessionCheck(session: Call<Option<Session>>, user: Call<Option<User>>)
    | AuthChange(kind: string, changedSession: Option<Session>)
    | Resend(resendAnswer: Call<Option<BackendError>>)
    | SignUpAgain
    | DevDirectLogin
    | BackToLogin

  /** The page as first rendered over the given local storage. */
  function Mounted(storage: map<string, string>): Page {
    Page(false, false, None, "", false, false, None, storage, [], [])
  }

  /** `localStorage.getItem(key)` read for truthiness: present and non-empty. */
  function Stored(storage: map<string, string>, key: string): Option<string> {
    if key in storage && storage[key] != "" then Some(storage[key]) else None
  }

  /** `email || null` */
  function EmailOrNull(u: User): Option<string> {
    if Truthy(u.email) then u.email else None
  }

  /** `handleVerificationSuccess`: mark verified, drop the three pending keys
      and schedule the push to the dashboard. */
  function Finalize(p: Page): Page {
    p.(isVerified := true, storage := p.storage - PendingKeys, navigations := p.navigations + [LandingPath])
  }

  function ClearPending(p: Page, target: string): Page {
    p.(storage := p.storage - PendingKeys, navigations := p.navigations + [target])
  }

  /** The "user found" branch shared by the session check and the listener:
      record the address, and finalise when it is confirmed. */
  function AdoptUser(p: Page, u: User): Page {
    var q := p.(userEmail := EmailOrNull(u));
    if EmailConfirmed(u) then Finalize(q) else q
  }

  function Step(p: Page, e: Event): Page {
    match e
    case Initialize(parsed) =>
      if p.initialized then p
      else
        var email := Stored(p.storage, PendingEmailKey);
        var draft := Stored(p.storage, PendingUserDataKey);
        p.(devSignupSuccess := DevSuccessKey in p.storage && p.storage[DevSuccessKey] == "true",
           userEmail := if email.Some? then email else p.userEmail,
           userData := if draft.Some? && parsed.Some? then parsed else p.userData,
           initialized := true)
    case LinkTokens(access, refresh, linkType, answer) =>
      if !p.initialized || !(Truthy(access) && Truthy(refresh) && linkType == Some("signup")) then p
      else
        var p1 := p.(requests := p.requests + [SetSessionRequest(access.value, refresh.value)]);
        (match answer
         case Threw(_) => p1.(error := LinkThrewError)
         case Returned(SetSessionFailed(err)) => p1.(error := "Verification failed: " + err.message)
         case Returned(SessionSet(None)) => p1
         case Returned(SessionSet(Some(u))) => Finalize(p1.(userEmail := EmailOrNull(u))))
    case SessionCheck(session, user) =>
      if !p.initialized then p
      else
        var p1 := p.(requests := p.requests + [GetSessionRequest]);
        (match session
         case Threw(_) => p1.(error := CheckThrewError)
         case Returned(s) =>
           if s.Some? && s.value.user.Some? && Truthy(s.value.user.value.email) then
             AdoptUser(p1, s.value.user.value)
           else if s.Some? then p1
           else
             var p2 := p1.(requests := p1.requests + [GetUserRequest]);
             (match user
              case Threw(_) => p2.(error := CheckThrewError)
              case Returned(u) =>
                if u.Some? && Truthy(u.value.email) then AdoptUser(p2, u.value) else p2))
    case AuthChange(kind, session) =>
      if !p.initialized then p
      else if kind == "SIGNED_IN" && session.Some? && session.value.user.Some? then
        AdoptUser(p, session.value.user.value)
      else p
    case Resend(answer) =>
      if !Truthy(p.userEmail) then p.(error := NoEmailError)
      else
        var p1 := p.(isLoading := true, error := "", requests := p.requests + [ResendRequest(p.userEmail.value)]);
        var p2 :=
          (match answer
           case Threw(_) => p1.(error := ResendThrewError)
           case Returned(Some(err)) => p1.(error := err.message)
           case Returned(None) => p1);
        p2.(isLoading := false)
    case SignUpAgain => ClearPending(p, SignUpPath)
    case DevDirectLogin => ClearPending(p, LoginPath)
    case BackToLogin => p.(navigations := p.navigations + [LoginPath])
  }

  // ---------------------------------------------------------------------------
  // Properties of the reducer

  /** What the page keeps true across every event: a verified page holds no
      pending key, a recorded address is never empty, and nothing is
      verified before initialisation. */
  predicate Valid(p: Page) {
    && (p.isVerified ==> PendingKeys !! p.storage.Keys)
    && (p.userEmail.Some? ==> p.userEmail.value != "")
    && (!p.initialized ==> !p.isVerified)
  }

  lemma MountedValid(storage: map<string, string>)
    ensures Valid(Mounted(storage))
  {
  }

  /** Every event keeps the page `Valid`. */
  lemma StepPreservesValid(p: Page, e: Event)
    requires Valid(p)
    ensures Valid(Step(p, e))
  {
    match e
    case Initialize(parsed) => InitializeValid(p, parsed);
    case LinkTokens(access, refresh, linkType, answer) => LinkTokensValid(p, access, refresh, linkType, answer);
    case SessionCheck(session, user) => SessionCheckValid(p, session, user);
    case AuthChange(kind, session) => AuthChangeValid(p, kind, session);
    case Resend(answer) => ResendValid(p, answer);
    case SignUpAgain => ClearPendingValid(p, SignUpPath);
    case DevDirectLogin => ClearPendingValid(p, LoginPath);
    case BackToLogin =>
  }

  lemma InitializeValid(p: Page, parsed: Option<Draft>)
    requires Valid(p)
    ensures Valid(Step(p, Initialize(parsed)))
  {
  }

  lemma LinkTokensValid(p: Page, access: Option<string>, refresh: Option<string>, linkType: Option<string>,
                        answer: Call<SetSessionAnswer>)
    requires Valid(p)
    ensures Valid(Step(p, LinkTokens(access, refresh, linkType, answer)))
  {
    if p.initialized && Truthy(access) && Truthy(refresh) && linkType == Some("signup")
       && answer.Returned? && answer.value.SessionSet? && answer.value.user.Some? {
      var u := answer.value.user.value;
      FinalizeValid(p.(requests := p.requests + [SetSessionRequest(access.value, refresh.value)], userEmail := EmailOrNull(u)));
    }
  }

  lemma SessionCheckValid(p: Page, session: Call<Option<Session>>, user: Call<Option<User>>)
    requires Valid(p)
    ensures Valid(Step(p, SessionCheck(session, user)))
  {
    if p.initialized {
      var p1 := p.(requests := p.requests + [GetSessionRequest]);
      AdoptUserValid(p1);
      AdoptUserValid(p1.(requests := p1.requests + [GetUserRequest]));
    }
  }

  lemma AuthChangeValid(p: Page, kind: string, session: Option<Session>)
    requires Valid(p)
    ensures Valid(Step(p, AuthChange(kind, session)))
  {
    if p.initialized {
      AdoptUserValid(p);
    }
  }

  lemma ResendValid(p: Page, answer: Call<Option<BackendError>>)
    requires Valid(p)
    ensures Valid(Step(p, Resend(answer)))
  {
  }

  lemma ClearPendingValid(p: Page, target: string)
    requires Valid(p)
    ensures Valid(ClearPending(p, target))
  {
  }

  /** Finalising an initialised page whose address is absent or non-empty
      gives a `Valid` page. */
  lemma FinalizeValid(p: Page)
    requires p.initialized && (p.userEmail.Some? ==> p.userEmail.value != "")
    ensures Valid(Finalize(p))
  {
  }

  /** Adopting any user keeps an initialised page `Valid`. */
  lemma AdoptUserValid(p: Page)
    requires Valid(p) && p.initialized
    ensures forall u :: Valid(AdoptUser(p, u))
  {
    forall u ensures Valid(AdoptUser(p, u)) {
      FinalizeValid(p.(userEmail := EmailOrNull(u)));
    }
  }

  /** Finalisation sets isVerified and removes exactly the three pending
      keys; every other stored key keeps its value, and one push to the
      dashboard is scheduled. */
  lemma FinalizeEffect(p: Page)
    ensures Finalize(p).isVerified
    ensures Finalize(p).storage.Keys == p.storage.Keys - PendingKeys
    ensures forall k :: k in Finalize(p).storage ==> Finalize(p).storage[k] == p.storage[k]
    ensures Finalize(p).navigations == p.navigations + [LandingPath]
    ensures Finalize(p).(isVerified := p.isVerified, storage := p.storage, navigations := p.navigations) == p
  {
  }

  /** Finalising twice leaves the same page as finalising once, except that
      there is no finalised-once guard: a second dashboard push is scheduled. */
  lemma FinalizeTwice(p: Page)
    ensures Finalize(Finalize(p)) == Finalize(p).(navigations := p.navigations + [LandingPath, LandingPath])
  {
    assert Finalize(p).storage - PendingKeys == Finalize(p).storage;
  }

  /** Before initialisation the link, session and listener steps do nothing. */
  lemma NothingBeforeInit(p: Page, e: Event)
    requires !p.initialized && (e.LinkTokens? || e.SessionCheck? || e.AuthChange?)
    ensures Step(p, e) == p
  {
  }

  /** Initialisation runs once; it sets devSignupSuccess exactly when the
      stored flag is the string "true", takes the address from the pending
      key when that is non-empty, and keeps userData when the stored draft
      is malformed. */
  lemma InitializeEffect(p: Page, parsed: Option<Draft>)
    ensures p.initialized ==> Step(p, Initialize(parsed)) == p
    ensures !p.initialized ==>
      var q := Step(p, Initialize(parsed));
      && q.initialized
      && (q.devSignupSuccess <==> DevSuccessKey in p.storage && p.storage[DevSuccessKey] == "true")
      && (Stored(p.storage, PendingEmailKey).Some? ==> q.userEmail == Some(p.storage[PendingEmailKey]))
      && (Stored(p.storage, PendingEmailKey).None? ==> q.userEmail == p.userEmail)
      && (parsed.None? ==> q.userData == p.userData)
      && q.storage == p.storage && q.isVerified == p.isVerified && q.requests == p.requests
  {
  }

  /** The link path acts only on an initialised page with both tokens and
      type "signup"; a setSession error is reported and does not finalise; a
      returned user does. */
  lemma LinkTokensEffect(p: Page, access: Option<string>, refresh: Option<string>, linkType: Option<string>,
                         answer: Call<SetSessionAnswer>)
    ensures var q := Step(p, LinkTokens(access, refresh, linkType, answer));
      && (q != p ==> p.initialized && Truthy(access) && Truthy(refresh) && linkType == Some("signup"))
      && (answer.Returned? && answer.value.SetSessionFailed? ==>
            q.isVerified == p.isVerified && q.storage == p.storage && q.navigations == p.navigations)
      && (p.initialized && Truthy(access) && Truthy(refresh) && linkType == Some("signup") ==>
            && q.requests == p.requests + [SetSessionRequest(access.value, refresh.value)]
            && (answer.Returned? && answer.value.SetSessionFailed? ==>
                  q.error == "Verification failed: " + answer.value.error.message)
            && (answer.Returned? && answer.value.SessionSet? && answer.value.user.Some? ==>
                  q.isVerified && PendingKeys !! q.storage.Keys && q.navigations == p.navigations + [LandingPath]))
  {
  }

  /** The session check finalises only for a user with a non-empty address
      whose email is confirmed, found on the session or, when there is no
      session, by getUser. */
  lemma SessionCheckEffect(p: Page, session: Call<Option<Session>>, user: Call<Option<User>>)
    requires p.initialized
    ensures var q := Step(p, SessionCheck(session, user));
      q.navigations != p.navigations ==>
        q.isVerified && q.navigations == p.navigations + [LandingPath]
        && q.userEmail.Some? && session.Returned?
        && ((session.value.Some? && session.value.value.user.Some?
             && EmailConfirmed(session.value.value.user.value)
             && q.userEmail == session.value.value.user.value.email)
            || (session.value.None? && user.Returned? && user.value.Some?
                && EmailConfirmed(user.value.value) && q.userEmail == user.value.value.email))
  {
    var p1 := p.(requests := p.requests + [GetSessionRequest]);
    if session.Returned? {
      var s := session.value;
      if s.Some? && s.value.user.Some? && Truthy(s.value.user.value.email) {
        AdoptUserEffect(p1, s.value.user.value);
      } else if s.None? && user.Returned? && user.value.Some? && Truthy(user.value.value.email) {
        AdoptUserEffect(p1.(requests := p1.requests + [GetUserRequest]), user.value.value);
      }
    }
  }

  /** A session user with an unconfirmed address only updates the address. */
  lemma SessionCheckUnconfirmed(p: Page, s: Session)
    requires p.initialized
    requires s.user.Some? && Truthy(s.user.value.email) && !EmailConfirmed(s.user.value)
    ensures forall user :: (Step(p, SessionCheck(Returned(Some(s)), user))
      == p.(userEmail := s.user.value.email, requests := p.requests + [GetSessionRequest]))
  {
  }

  /** Adopting a user with a non-empty address records it, and navigates
      exactly when the address is confirmed. */
  lemma AdoptUserEffect(p: Page, u: User)
    requires Truthy(u.email)
    ensures AdoptUser(p, u).userEmail == u.email
    ensures AdoptUser(p, u).navigations != p.navigations <==> EmailConfirmed(u)
    ensures EmailConfirmed(u) ==> AdoptUser(p, u).isVerified && AdoptUser(p, u).navigations == p.navigations + [LandingPath]
  {
  }

  /** The listener acts only on SIGNED_IN with a user, and finalises only
      when that user's email is confirmed. */
  lemma AuthChangeEffect(p: Page, kind: string, session: Option<Session>)
    ensures var q := Step(p, AuthChange(kind, session));
      && (q != p ==> p.initialized && kind == "SIGNED_IN" && session.Some? && session.value.user.Some?)
      && (q.navigations != p.navigations ==> EmailConfirmed(session.value.user.value) && q.isVerified)
      && ((p.initialized && kind == "SIGNED_IN" && session.Some? && session.value.user.Some?
           && EmailConfirmed(session.value.user.value)) ==> q.isVerified && PendingKeys !! q.storage.Keys)
  {
  }

  /** Resending with no address sets the error and asks nothing of the
      backend; otherwise exactly one resend request goes out, and the page
      ends with isLoading false and the error from this attempt only. */
  lemma ResendEffect(p: Page, answer: Call<Option<BackendError>>)
    ensures var q := Step(p, Resend(answer));
      && (!Truthy(p.userEmail) ==> q == p.(error := NoEmailError))
      && (Truthy(p.userEmail) ==>
            && q.requests == p.requests + [ResendRequest(p.userEmail.value)]
            && !q.isLoading
            && (answer == Returned(None) ==> q.error == "")
            && (answer.Threw? ==> q.error == ResendThrewError)
            && q.storage == p.storage && q.isVerified == p.isVerified)
  {
  }

  /** Sign-up-again and direct login clear the same three keys and differ
      only in where they navigate. */
  lemma RestartEffect(p: Page)
    ensures Step(p, SignUpAgain).storage == Step(p, DevDirectLogin).storage == p.storage - PendingKeys
    ensures Step(p, SignUpAgain).navigations == p.navigations + [SignUpPath]
    ensures Step(p, DevDirectLogin).navigations == p.navigations + [LoginPath]
    ensures Step(p, SignUpAgain).(navigations := p.navigations) == Step(p, DevDirectLogin).(navigations := p.navigations)
  {
  }

  /** Once verified, a page stays verified whatever happens next. */
  lemma VerifiedIsFinal(p: Page, e: Event)
    requires p.isVerified
    ensures Step(p, e).isVerified
  {
    match e
    case SessionCheck(session, user) =>
      if p.initialized {
        var p1 := p.(requests := p.requests + [GetSessionRequest]);
        AdoptUserKeepsVerified(p1);
        AdoptUserKeepsVerified(p1.(requests := p1.requests + [GetUserRequest]));
      }
    case AuthChange(_, _) =>
      AdoptUserKeepsVerified(p);
    case _ =>
  }

  lemma AdoptUserKeepsVerified(p: Page)
    requires p.isVerified
    ensures forall u :: AdoptUser(p, u).isVerified
  {
  }

  /** Removing the pending keys one at a time removes all three. */
  lemma RemovedOneByOne(m: map<string, string>)
    ensures m - {PendingEmailKey} - {DevSuccessKey} - {PendingUserDataKey} == m - PendingKeys
  {
    var r := m - {PendingEmailKey} - {DevSuccessKey} - {PendingUserDataKey};
    assert r.Keys == (m - PendingKeys).Keys;
  }

  // ---------------------------------------------------------------------------
  // The component

  class VerifyEmailPage {
    var initialized: bool
    var isVerified: bool
    var userEmail: Option<string>
    var error: string
    var isLoading: bool
    var devSignupSuccess: bool
    var userData: Option<Draft>
    /** The browser's local storage. */
    var storage: map<string, string>
    /** Pushes requested of the router, immediate or scheduled. */
    var navigations: seq<string>
    /** Requests sent to the auth service. */
    var requests: seq<AuthRequest>

    function State(): Page
      reads this
    {
      Page(initialized, isVerified, userEmail, error, isLoading, devSignupSuccess, userData,
           storage, navigations, requests)
    }

    constructor (localStorage: map<string, string>)
      ensures State() == Mounted(localStorage)
    {
      initialized, isVerified, userEmail, error, isLoading := false, false, None, "", false;
      devSignupSuccess, userData := false, None;
      storage, navigations, requests := localStorage, [], [];
    }

    /** The three `localStorage.removeItem` calls. */
    method RemovePendingKeys()
      modifies this
      ensures State() == old(State()).(storage := old(storage) - PendingKeys)
    {
      var before := storage;
      storage := storage - {PendingEmailKey};
      storage := storage - {DevSuccessKey};
      storage := storage - {PendingUserDataKey};
      RemovedOneByOne(before);
    }

    method HandleVerificationSuccess()
      modifies this
      ensures State() == Finalize(old(State()))
    {
      isVerified := true;
      RemovePendingKeys();
      navigations := navigations + [LandingPath];
    }

    /** The initialisation effect. */
    method Initialize(parsed: Option<Draft>)
      modifies this
      ensures State() == Step(old(State()), Event.Initialize(parsed))
    {
      if initialized {
        return;
      }
      devSignupSuccess := DevSuccessKey in storage && storage[DevSuccessKey] == "true";
      var pendingEmail := Stored(storage, PendingEmailKey);
      if pendingEmail.Some? {
        userEmail := pendingEmail;
      }
      var storedUserData := Stored(storage, PendingUserDataKey);
      if storedUserData.Some? {
        // a draft that does not parse leaves userData as it was
        if parsed.Some? {
          userData := parsed;
        }
      }
      initialized := true;
    }

    /** The effect that exchanges deep-link tokens for a session. */
    method CheckLinkTokens(access: Option<string>, refresh: Option<string>, linkType: Option<string>,
                           answer: Call<SetSessionAnswer>)
      modifies this
      ensures State() == Step(old(State()), LinkTokens(access, refresh, linkType, answer))
    {
      if !initialized {
        return;
      }
      if Truthy(access) && Truthy(refresh) && linkType == Some("signup") {
        requests := requests + [SetSessionRequest(access.value, refresh.value)];
        match answer {
          case Threw(_) =>
            error := LinkThrewError;
          case Returned(SetSessionFailed(err)) =>
            error := "Verification failed: " + err.message;
          case Returned(SessionSet(u)) =>
            if u.Some? {
              userEmail := EmailOrNull(u.value);
              HandleVerificationSuccess();
            }
        }
      }
    }

    /** Records a user found by the session check or the listener. */
    method RecordUser(u: User)
      modifies this
      ensures State() == AdoptUser(old(State()), u)
    {
      userEmail := EmailOrNull(u);
      if EmailConfirmed(u) {
        HandleVerificationSuccess();
      }
    }

    /** The effect that checks for an existing session, then a user. */
    method CheckSession(session: Call<Option<Session>>, user: Call<Option<User>>)
      modifies this
      ensures State() == Step(old(State()), SessionCheck(session, user))
    {
      if !initialized {
        return;
      }
      requests := requests + [GetSessionRequest];
      if session.Threw? {
        error := CheckThrewError;
        return;
      }
      var s := session.value;
      if s.Some? && s.value.user.Some? && Truthy(s.value.user.value.email) {
        RecordUser(s.value.user.value);
        return;
      }
      if s.None? {
        requests := requests + [GetUserRequest];
        if user.Threw? {
          error := CheckThrewError;
        } else if user.value.Some? && Truthy(user.value.value.email) {
          RecordUser(user.value.value);
        }
      }
    }

    /** The auth-state-change listener. */
    method OnAuthStateChange(kind: string, session: Option<Session>)
      modifies this
      ensures State() == Step(old(State()), AuthChange(kind, session))
    {
      if !initialized {
        return;
      }
      if kind == "SIGNED_IN" && session.Some? && session.value.user.Some? {
        RecordUser(session.value.user.value);
      }
    }

    /** `resendVerification` */
    method ResendVerification(answer: Call<Option<BackendError>>)
      modifies this
      ensures State() == Step(old(State()), Resend(answer))
    {
      if !Truthy(userEmail) {
        error := NoEmailError;
        return;
      }
      isLoading := true;
      error := "";
      requests := requests + [ResendRequest(userEmail.value)];
      match answer {
        case Threw(_) =>
          error := ResendThrewError;
        case Returned(Some(err)) =>
          error := err.message;
        case Returned(None) =>
      }
      isLoading := false;
    }

    method HandleSignUpAgain()
      modifies this
      ensures State() == Step(old(State()), SignUpAgain)
    {
      RemovePendingKeys();
      navigations := navigations + [SignUpPath];
    }

    method HandleDevDirectLogin()
      modifies this
      ensures State() == Step(old(State()), DevDirectLogin)
    {
      RemovePendingKeys();
      navigations := navigations + [LoginPath];
    }
  }
}
