/** `src/context/AuthContext.tsx`: the authentication state shared by the app.
    The hosted auth service and the `user_roles`/`profiles` tables are outside
    the model: each call's outcome is a parameter. */
module AuthContext {
  import opened Wrappers
  import opened Strings
  import opened JsonValues
  import opened Storage
  import opened Roles
  import AdminHelpers

  /** `'admin' | 'participant'`. A stored `userType` is only cast to this
      union, so any other stored text is kept as it is, as `OtherType`. */
  datatype UserType = AdminType | ParticipantType | OtherType(name: string)

  function UserTypeName(t: UserType): string {
    match t
    case AdminType => "admin"
    case ParticipantType => "participant"
    case OtherType(name) => name
  }

  /** The user type read back from its stored text by the cast
      `as 'admin' | 'participant'`: the text is kept, whatever it is. */
  function ParseUserType(s: string): (t: UserType)
    ensures UserTypeName(t) == s
    ensures t == AdminType <==> s == "admin"
    ensures t == ParticipantType <==> s == "participant"
  {
    if s == "admin" then AdminType
    else if s == "participant" then ParticipantType
    else OtherType(s)
  }

  /** The two types the app itself writes read back unchanged. */
  lemma ParseUserTypeName(t: UserType)
    requires !t.OtherType?
    ensures ParseUserType(UserTypeName(t)) == t
  {
  }

  /** `determineUserType`: admin when the email contains `admin` or belongs to
      one of the two staff domains. */
  function DetermineUserType(email: string): (t: UserType)
    ensures t == AdminType <==>
      Contains(email, "admin") || EndsWith(email, "@bizboost.co.za") || EndsWith(email, "@seda.org.za")
  {
    if Contains(email, "admin") || EndsWith(email, "@bizboost.co.za") || EndsWith(email, "@seda.org.za")
    then AdminType else ParticipantType
  }

  /** The email test of the role fallback (and of the admin login check): it
      leaves out the `@seda.org.za` domain. */
  predicate FallbackAdminEmail(email: string) {
    Contains(email, "admin") || EndsWith(email, "@bizboost.co.za")
  }

  /** The single role that goes with a user type. */
  function RolesForType(t: UserType): (r: seq<Role>)
    ensures |r| == 1
    ensures t == AdminType ==> r[0] == Admin
    ensures t != AdminType ==> r[0] == Participant
  {
    if t == AdminType then [Admin] else [Participant]
  }

  /** What the `user_roles` query returned. */
  datatype RoleFetch =
    | Fetched(rows: Option<seq<Role>>)   // `data`, possibly null
    | FetchError                         // an `error` in the response (or the fetch timed out)
    | FetchThrew                         // an exception

  /** `fetchUserRoles`: the fetched roles in order (none when `data` is null),
      or the email-based fallback when the fetch fails. */
  function FetchUserRoles(outcome: RoleFetch, email: string): (r: seq<Role>)
    ensures outcome.Fetched? && outcome.rows.Some? ==> r == outcome.rows.value
    ensures outcome.Fetched? && outcome.rows.None? ==> r == []
    ensures !outcome.Fetched? ==> r == (if FallbackAdminEmail(email) then [Admin] else [Participant])
  {
    match outcome
    case Fetched(rows) => rows.GetOr([])
    case FetchError => if FallbackAdminEmail(email) then [Admin] else [Participant]
    case FetchThrew => if FallbackAdminEmail(email) then [Admin] else [Participant]
  }

  /** An empty role table gives no roles at all, even to an admin email. */
  lemma NoRowsNoFallback(email: string)
    ensures FetchUserRoles(Fetched(Some([])), email) == []
    ensures FetchUserRoles(Fetched(None), email) == []
  {
  }

  /** No address ends with both staff domains. */
  lemma SuffixMismatch(email: string)
    ensures !(EndsWith(email, "@seda.org.za") && EndsWith(email, "@bizboost.co.za"))
  {
    if EndsWith(email, "@bizboost.co.za") {
      assert email[|email| - 12] == "@bizboost.co.za"[3] == 'z';
    }
  }

  /** A `@seda.org.za` address without `admin` in it is classified as an admin
      user but given the participant role when the role fetch fails. */
  lemma SedaFallbackMismatch(email: string, failure: RoleFetch)
    requires EndsWith(email, "@seda.org.za") && !Contains(email, "admin")
    requires !failure.Fetched?
    ensures DetermineUserType(email) == AdminType
    ensures FetchUserRoles(failure, email) == [Participant]
  {
    SuffixMismatch(email);
  }


  /** The user record the auth service hands back. */
  datatype ServiceUser = ServiceUser(id: string, email: Option<string>, fullName: Option<string>)

  /** The user kept in context: the service user plus its type and roles. */
  datatype AuthUser = AuthUser(id: string, email: Option<string>, fullName: Option<string>,
                               userType: UserType, roles: seq<Role>)

  datatype Session = Session(accessToken: string)

  /** How the timed role fetch inside `updateUserState` ended. */
  datatype StateUpdate =
    | Completed(fetch: RoleFetch)   // the roles arrived in time
    | FailedInside                  // the inner `try` threw
    | TimedOut                      // the 5 s race was lost

  /** The result of `signIn`. */
  datatype SignInResult = SignInResult(userType: UserType, error: Option<string>)

  /** What `signInWithPassword` returned. */
  datatype SignInOutcome =
    | SignInError(message: string)
    | SignedInAs(user: Option<ServiceUser>, session: Option<Session>)
    | SignInThrew(message: string)

  /** `signIn`: the user type of a successful sign-in, or `participant` with an error. */
  function SignIn(outcome: SignInOutcome): (r: SignInResult)
    ensures r.error.None? <==> outcome.SignedInAs? && outcome.user.Some? && outcome.session.Some?
    ensures r.error.None? ==> r.userType == DetermineUserType(outcome.user.value.email.GetOr(""))
    ensures r.error.Some? ==> r.userType == ParticipantType
  {
    match outcome
    case SignInError(m) => SignInResult(ParticipantType, Some(m))
    case SignedInAs(u, s) =>
      if u.Some? && s.Some? then SignInResult(DetermineUserType(u.value.email.GetOr("")), None)
      else SignInResult(ParticipantType, Some("No user returned"))
    case SignInThrew(m) => SignInResult(ParticipantType, Some(m))
  }

  /** What `auth.signUp` returned. */
  datatype SignUpOutcome =
    | SignUpError(message: string)
    | SignedUp(user: Option<ServiceUser>)
    | SignUpThrew(message: string)

  datatype SignUpResult = SignUpResult(user: Option<AuthUser>, error: Option<string>)

  const EmailInUse := "Email already in use. Please try logging in instead."
  const InvalidEmail := "Please enter a valid email address"
  const ShortPassword := "Password must be at least 6 characters long"

  /** The first failing pre-check of `signUp`, in the source's order. */
  function SignUpPrecheck(email: string, password: string, profileEmails: seq<string>): (r: Option<string>)
    ensures ToLower(Trim(email)) in profileEmails ==> r == Some(EmailInUse)
    ensures ToLower(Trim(email)) !in profileEmails && (email == [] || '@' !in email) ==> r == Some(InvalidEmail)
    ensures ToLower(Trim(email)) !in profileEmails && email != [] && '@' in email && JsLength(password) < 6 ==> r == Some(ShortPassword)
    ensures r.None? <==> ToLower(Trim(email)) !in profileEmails && '@' in email && JsLength(password) >= 6
  {
    if ToLower(Trim(email)) in profileEmails then Some(EmailInUse)
    else if email == [] || '@' !in email then Some(InvalidEmail)
    else if password == [] || JsLength(password) < 6 then Some(ShortPassword)
    else None
  }

  /** `signUp`: the pre-checks, then the service call; a created user gets the
      single role of the type its email implies. */
  function SignUp(email: string, password: string, profileEmails: seq<string>, outcome: SignUpOutcome): (r: SignUpResult)
    ensures SignUpPrecheck(email, password, profileEmails).Some? ==>
      r == SignUpResult(None, SignUpPrecheck(email, password, profileEmails))
    ensures r.user.Some? ==> r.error.None? && r.user.value.roles == RolesForType(DetermineUserType(email))
    ensures r.user.Some? ==> SignUpPrecheck(email, password, profileEmails).None? && outcome.SignedUp?
    ensures SignUpPrecheck(email, password, profileEmails).None? && outcome.SignedUp? && outcome.user.Some? ==>
      var u, t := outcome.user.value, DetermineUserType(email);
      r == SignUpResult(Some(AuthUser(u.id, u.email, u.fullName, t, RolesForType(t))), None)
    ensures SignUpPrecheck(email, password, profileEmails).None? && outcome == SignedUp(None) ==>
      r == SignUpResult(None, Some("Account creation failed"))
    ensures SignUpPrecheck(email, password, profileEmails).None? && (outcome.SignUpError? || outcome.SignUpThrew?) ==>
      r == SignUpResult(None, Some(outcome.message))
  {
    match SignUpPrecheck(email, password, profileEmails)
    case Some(m) => SignUpResult(None, Some(m))
    case None =>
      var t := DetermineUserType(email);
      match outcome
      case SignUpError(m) => SignUpResult(None, Some(m))
      case SignedUp(u) =>
        if u.Some? then SignUpResult(Some(AuthUser(u.value.id, u.value.email, u.value.fullName, t, RolesForType(t))), None)
        else SignUpResult(None, Some("Account creation failed"))
      case SignUpThrew(m) => SignUpResult(None, Some(m))
  }

  /** A failed pre-check never reaches the service: the outcome is irrelevant. */
  lemma PrecheckStopsSignUp(email: string, password: string, profileEmails: seq<string>, o1: SignUpOutcome, o2: SignUpOutcome)
    requires SignUpPrecheck(email, password, profileEmails).Some?
    ensures SignUp(email, password, profileEmails, o1) == SignUp(email, password, profileEmails, o2)
  {
  }

  /** What the `profiles` update returned to `updateProfile`. */
  datatype ProfileOutcome =
    | ProfileError(message: string)
    | ProfileUpdated(data: Option<Option<string>>)   // the row (if any) and its `full_name`
    | ProfileThrew

  datatype ProfileResult = ProfileResult(success: bool, error: Option<string>)

  /** How `initializeAuth` found the session. */
  datatype SessionFetch =
    | SessionError
    | SessionFound(session: Option<(ServiceUser, Session)>)
    | SessionThrew

  datatype AuthEvent = SignedIn | TokenRefreshed | SignedOut | OtherEvent

  const UserTypeKey := "userType"
  const UserEmailKey := "userEmail"
  const UserRolesKey := "userRoles"
  const IsDevUserKey := "isDevUser"
  const AuthTokenKey := "authToken"

  /** The user `updateUserState` puts in context for a service user: the type
      its email implies, and the fetched roles, or the single role of that
      type when the fetch failed inside or timed out. */
  function UpdatedUser(u: ServiceUser, outcome: StateUpdate): (r: AuthUser)
    ensures r.id == u.id && r.email == u.email && r.fullName == u.fullName
    ensures r.userType == DetermineUserType(u.email.GetOr(""))
    ensures outcome.Completed? ==> r.roles == FetchUserRoles(outcome.fetch, u.email.GetOr(""))
    ensures !outcome.Completed? ==> r.roles == RolesForType(r.userType)
  {
    var email := u.email.GetOr("");
    var t := DetermineUserType(email);
    AuthUser(u.id, u.email, u.fullName, t, if outcome.Completed? then FetchUserRoles(outcome.fetch, email) else RolesForType(t))
  }

  /** Storage after a user's type, email and roles are persisted. */
  function PersistedItems(items: map<string, Item>, au: AuthUser): map<string, Item> {
    items[UserTypeKey := Raw(UserTypeName(au.userType))][UserEmailKey := Raw(au.email.GetOr(""))]
      [UserRolesKey := Encoded(RolesJson(au.roles))]
  }

  /** Storage after `setDevUser` wrote its five keys. */
  function DevItems(items: map<string, Item>, email: string, t: UserType, rs: seq<Role>, nowMs: nat): map<string, Item> {
    items[UserTypeKey := Raw(UserTypeName(t))][UserEmailKey := Raw(email)][UserRolesKey := Encoded(RolesJson(rs))]
         [AuthTokenKey := Raw("dev_token_" + NatToString(nowMs))][IsDevUserKey := Raw("true")]
  }

  /** The state the `AuthProvider` component keeps, over the shared storage. */
  class AuthProvider {
    var user: Option<AuthUser>
    var session: Option<Session>
    var userType: Option<UserType>
    var roles: seq<Role>
    var loading: bool
    var isDevUser: bool
    const store: LocalStorage

    /** The context agrees with itself and with what it persisted: a signed-in
        user's type and roles are the context's, and storage holds them. */
    ghost predicate Mirrored()
      reads this, store
    {
      && (user.None? ==> session.None? && userType.None? && roles == [])
      && (user.Some? ==>
            && userType == Some(user.value.userType)
            && roles == user.value.roles
            && UserTypeKey in store.items && store.items[UserTypeKey] == Raw(UserTypeName(user.value.userType))
            && UserRolesKey in store.items && store.items[UserRolesKey] == Encoded(RolesJson(roles)))
    }

    constructor (store: LocalStorage)
      ensures this.store == store
      ensures user.None? && session.None? && userType.None? && roles == []
      ensures loading && !isDevUser
      ensures Mirrored()
    {
      this.store := store;
      user, session, userType, roles := None, None, None, [];
      loading, isDevUser := true, false;
    }

    /** `isAuthenticated`: `!!user && !!session`. */
    predicate IsAuthenticated(): (r: bool)
      reads this
      ensures r ==> user.Some?
      ensures Mirrored() && r ==> userType.Some?
    {
      user.Some? && session.Some?
    }

    /** `hasRole`: the role is held, which is `hasAnyRole` of that one role. */
    predicate HasRole(role: Role): (r: bool)
      reads this
      ensures r <==> HasAnyRole([role])
    {
      role in roles
    }

    /** `hasAnyRole`: `requiredRoles.some(role => roles.includes(role))`, the
        same test as the admin permission helper. */
    predicate HasAnyRole(required: seq<Role>): (r: bool)
      reads this
      ensures r <==> exists k | 0 <= k < |required| :: required[k] in roles
      ensures required == [] ==> !r
    {
      AdminHelpers.HasAdminPermission(roles, required)
    }

    method ClearState()
      modifies this
      ensures user.None? && session.None? && userType.None? && roles == []
      ensures loading == old(loading) && isDevUser == old(isDevUser)
      ensures !IsAuthenticated()
    {
      user, session, userType, roles := None, None, None, [];
    }

    method Persist(t: UserType, email: string, rs: seq<Role>)
      modifies store
      ensures store.items == old(store.items)[UserTypeKey := Raw(UserTypeName(t))]
        [UserEmailKey := Raw(email)][UserRolesKey := Encoded(RolesJson(rs))]
    {
      store.SetItem(UserTypeKey, Raw(UserTypeName(t)));
      store.SetItem(UserEmailKey, Raw(email));
      store.SetItem(UserRolesKey, Encoded(RolesJson(rs)));
    }

    /** `updateUserState`. With a user and a session, the context takes the
        user with its type and roles (the fetched ones, or the single role of
        its type when the fetch failed inside or timed out) and persists type,
        email and roles. Otherwise the context and five storage keys are cleared. */
    method UpdateUserState(authUser: Option<ServiceUser>, authSession: Option<Session>, outcome: StateUpdate)
      modifies this, store
      ensures loading == old(loading) && isDevUser == old(isDevUser)
      ensures authUser.Some? && authSession.Some? ==>
        var email := authUser.value.email.GetOr("");
        var t := DetermineUserType(email);
        var rs := if outcome.Completed? then FetchUserRoles(outcome.fetch, email) else RolesForType(t);
        && user == Some(AuthUser(authUser.value.id, authUser.value.email, authUser.value.fullName, t, rs))
        && session == authSession && userType == Some(t) && roles == rs
        && store.items == old(store.items)[UserTypeKey := Raw(UserTypeName(t))]
             [UserEmailKey := Raw(email)][UserRolesKey := Encoded(RolesJson(rs))]
      ensures !(authUser.Some? && authSession.Some?) ==>
        && user.None? && session.None? && userType.None? && roles == []
        && store.items == old(store.items) - {UserTypeKey, UserEmailKey, UserRolesKey, IsDevUserKey, AuthTokenKey}
      ensures IsAuthenticated() <==> authUser.Some? && authSession.Some?
      ensures Mirrored()
    {
      if authUser.Some? && authSession.Some? {
        var email := authUser.value.email.GetOr("");
        var t := DetermineUserType(email);
        var rs := match outcome
          case Completed(fetch) => FetchUserRoles(fetch, email)
          case FailedInside => RolesForType(t)
          case TimedOut => RolesForType(t);
        user := Some(AuthUser(authUser.value.id, authUser.value.email, authUser.value.fullName, t, rs));
        session := authSession;
        userType := Some(t);
        roles := rs;
        Persist(t, email, rs);
      } else {
        ClearState();
        ghost var before := store.items;
        store.RemoveItem(UserTypeKey);
        store.RemoveItem(UserEmailKey);
        store.RemoveItem(UserRolesKey);
        store.RemoveItem(IsDevUserKey);
        store.RemoveItem(AuthTokenKey);
        RemovedInTurn(before, UserTypeKey, UserEmailKey, UserRolesKey, IsDevUserKey, AuthTokenKey);
      }
    }

    /** `setDevUser`: a local user with the given roles (by default the single
        role of its type), a `dev_token_<now>` session, five storage keys, and
        loading finished. The base64-derived user id is a parameter. */
    method SetDevUser(email: string, t: UserType, devRoles: Option<seq<Role>>, devUserId: string, nowMs: nat)
      modifies this, store
      ensures var rs := devRoles.GetOr(RolesForType(t));
        && user == Some(AuthUser(devUserId, Some(email), Some("Dev User"), t, rs))
        && session == Some(Session("dev_token_" + NatToString(nowMs)))
        && userType == Some(t) && roles == rs && isDevUser && !loading
        && store.items == DevItems(old(store.items), email, t, rs, nowMs)
      ensures Mirrored()
    {
      var rs := devRoles.GetOr(RolesForType(t));
      var token := "dev_token_" + NatToString(nowMs);
      user := Some(AuthUser(devUserId, Some(email), Some("Dev User"), t, rs));
      session := Some(Session(token));
      userType := Some(t);
      roles := rs;
      isDevUser := true;
      Persist(t, email, rs);
      store.SetItem(AuthTokenKey, Raw(token));
      store.SetItem(IsDevUserKey, Raw("true"));
      loading := false;
    }

    /** `signOut`: a dev user never reaches the service. On success the five
        keys are removed; when the service call throws, all of storage is cleared.
        Either way the context is cleared and is no longer a dev user. */
    method SignOut(serviceThrows: bool) returns (calledService: bool)
      modifies this, store
      ensures calledService == !old(isDevUser)
      ensures user.None? && session.None? && userType.None? && roles == [] && !isDevUser
      ensures loading == old(loading)
      ensures store.items == if calledService && serviceThrows then map[]
        else old(store.items) - {UserTypeKey, UserEmailKey, AuthTokenKey, UserRolesKey, IsDevUserKey}
      ensures Mirrored()
    {
      calledService := !isDevUser;
      if calledService && serviceThrows {
        ClearState();
        isDevUser := false;
        store.Clear();
        return;
      }
      ClearState();
      isDevUser := false;
      ghost var before := store.items;
      store.RemoveItem(UserTypeKey);
      store.RemoveItem(UserEmailKey);
      store.RemoveItem(AuthTokenKey);
      store.RemoveItem(UserRolesKey);
      store.RemoveItem(IsDevUserKey);
      RemovedInTurn(before, UserTypeKey, UserEmailKey, AuthTokenKey, UserRolesKey, IsDevUserKey);
    }

    /** `updateProfile`: only a signed-in user can update; a returned row
        replaces the full name when it has one. */
    method UpdateProfile(outcome: ProfileOutcome) returns (r: ProfileResult)
      modifies this
      ensures old(user).None? ==> r == ProfileResult(false, Some("User not authenticated")) && user == old(user)
      ensures old(user).Some? ==> (r.success <==> outcome.ProfileUpdated?)
      ensures old(user).Some? && outcome.ProfileError? ==>
        r.error == Some(if outcome.message != [] then outcome.message else "Failed to update profile")
      ensures old(user).Some? && outcome.ProfileThrew? ==>
        r.error == Some("An unexpected error occurred while updating profile")
      ensures old(user).Some? && outcome.ProfileUpdated? && outcome.data.Some? ==>
        var n := outcome.data.value;
        user == Some(old(user).value.(fullName := if n.Some? && n.value != [] then n else old(user).value.fullName))
      ensures !(old(user).Some? && outcome.ProfileUpdated? && outcome.data.Some?) ==> user == old(user)
      ensures session == old(session) && userType == old(userType) && roles == old(roles)
      ensures loading == old(loading) && isDevUser == old(isDevUser)
      ensures old(Mirrored()) ==> Mirrored()
    {
      if user.None? {
        return ProfileResult(false, Some("User not authenticated"));
      }
      match outcome
      case ProfileError(m) =>
        r := ProfileResult(false, Some(if m != [] then m else "Failed to update profile"));
      case ProfileThrew =>
        r := ProfileResult(false, Some("An unexpected error occurred while updating profile"));
      case ProfileUpdated(data) =>
        if data.Some? {
          var n := data.value;
          user := Some(user.value.(fullName := if n.Some? && n.value != [] then n else user.value.fullName));
        }
        r := ProfileResult(true, None);
    }

    /** The auth-state listener: sign-in and token refresh with a user update
        the state; sign-out clears it and four storage keys (`authToken` stays);
        loading always ends. */
    method HandleAuthEvent(event: AuthEvent, newSession: Option<(ServiceUser, Session)>, outcome: StateUpdate)
      modifies this, store
      ensures !loading
      ensures (event == SignedIn || event == TokenRefreshed) && newSession.Some? ==>
        var email := newSession.value.0.email.GetOr("");
        userType == Some(DetermineUserType(email)) && session == Some(newSession.value.1)
      ensures (event == SignedIn || event == TokenRefreshed) && newSession.Some? ==>
        var au := UpdatedUser(newSession.value.0, outcome);
        && user == Some(au) && roles == au.roles && isDevUser == old(isDevUser)
        && store.items == PersistedItems(old(store.items), au)
      ensures event == SignedOut ==>
        && user.None? && session.None? && userType.None? && roles == [] && !isDevUser
        && store.items == old(store.items) - {UserTypeKey, UserEmailKey, UserRolesKey, IsDevUserKey}
      ensures event == SignedOut ==> (AuthTokenKey in store.items <==> AuthTokenKey in old(store.items))
      ensures event == OtherEvent || ((event == SignedIn || event == TokenRefreshed) && newSession.None?) ==>
        && user == old(user) && session == old(session) && userType == old(userType) && roles == old(roles)
        && isDevUser == old(isDevUser) && store.items == old(store.items)
      ensures old(Mirrored()) ==> Mirrored()
    {
      if event == SignedIn || event == TokenRefreshed {
        if newSession.Some? {
          UpdateUserState(Some(newSession.value.0), Some(newSession.value.1), outcome);
        }
      } else if event == SignedOut {
        ClearState();
        isDevUser := false;
        ghost var before := store.items;
        store.RemoveItem(UserTypeKey);
        store.RemoveItem(UserEmailKey);
        store.RemoveItem(UserRolesKey);
        store.RemoveItem(IsDevUserKey);
        RemovedInTurn(before, UserTypeKey, UserEmailKey, UserRolesKey, IsDevUserKey, AuthTokenKey);
      }
      loading := false;
    }

    /** `initializeAuth`: a stored dev user is restored first (a stored role
        list that does not parse aborts the whole initialisation); otherwise the
        session decides. Loading ends on every path. */
    method InitializeAuth(fetch: SessionFetch, outcome: StateUpdate, devUserId: string, nowMs: nat)
      requires Mirrored()
      modifies this, store
      ensures !loading
      ensures Mirrored()
      ensures DevFlagSet(old(store.items)) && !DevRolesParse(old(store.items)) ==>
        user == old(user) && session == old(session) && roles == old(roles) && store.items == old(store.items)
      ensures DevFlagSet(old(store.items)) && DevRolesParse(old(store.items)) && DevIdentityStored(old(store.items)) ==>
        isDevUser && user.Some? && user.value.email == Some(old(store.items)[UserEmailKey].text)
      ensures DevRestore(old(store.items)) ==>
        var t := StoredDevType(old(store.items));
        var rs := StoredDevRoles(old(store.items)).GetOr(RolesForType(t));
        var email := StoredText(old(store.items), UserEmailKey);
        && isDevUser
        && user == Some(AuthUser(devUserId, Some(email), Some("Dev User"), t, rs))
        && userType == Some(t) && roles == rs && session == Some(Session("dev_token_" + NatToString(nowMs)))
        && store.items == DevItems(old(store.items), email, t, rs, nowMs)
      ensures FallsThrough(old(store.items)) && fetch.SessionFound? && fetch.session.None? ==>
        user.None? && session.None? && userType.None? && roles == [] && store.items == old(store.items)
      ensures FallsThrough(old(store.items)) && fetch.SessionFound? && fetch.session.Some? ==>
        var au := UpdatedUser(fetch.session.value.0, outcome);
        && session == Some(fetch.session.value.1) && user == Some(au) && userType == Some(au.userType)
        && roles == au.roles && store.items == PersistedItems(old(store.items), au)
      ensures FallsThrough(old(store.items)) && !fetch.SessionFound? ==>
        user == old(user) && session == old(session) && store.items == old(store.items)
    {
      ghost var items := store.items;
      var devFlag := store.GetItem(IsDevUserKey);
      assert ItemIs(devFlag, "true") <==> DevFlagSet(items);
      if ItemIs(devFlag, "true") {
        var storedEmail := store.GetItem(UserEmailKey);
        var storedType := store.GetItem(UserTypeKey);
        var storedRoles := store.GetItem(UserRolesKey);
        assert storedEmail == ItemAt(items, UserEmailKey) && storedType == ItemAt(items, UserTypeKey);
        var parsed := ParseStored(storedRoles, JArr([]));
        assert parsed.Ok? <==> DevRolesParse(items);
        if parsed.Err? {
          loading := false;
          return;
        }
        assert DevIdentityStored(items) ==> Present(storedEmail) && Present(storedType);
        assert DevRestore(items) <==> Present(storedEmail) && Present(storedType);
        if Present(storedEmail) && Present(storedType) {
          var email := if storedEmail.value.Raw? then storedEmail.value.text else [];
          var t := if storedType.value.Raw? then ParseUserType(storedType.value.text) else ParticipantType;
          assert email == StoredText(items, UserEmailKey) && t == StoredDevType(items);
          var devRoles := if Truthy(parsed.value) then Some(RolesFromJson(parsed.value)) else None;
          assert devRoles == StoredDevRoles(items);
          SetDevUser(email, t, devRoles, devUserId, nowMs);
          loading := false;
          return;
        }
      }
      assert FallsThrough(items);
      ApplySession(fetch, outcome);
    }

    /** The session half of `initializeAuth`: a fetch error or a throw only
        ends loading; a found session updates the state; no session clears the
        context and leaves storage alone. */
    method ApplySession(fetch: SessionFetch, outcome: StateUpdate)
      requires Mirrored()
      modifies this, store
      ensures !loading && Mirrored() && isDevUser == old(isDevUser)
      ensures fetch.SessionFound? && fetch.session.None? ==>
        user.None? && session.None? && userType.None? && roles == [] && store.items == old(store.items)
      ensures fetch.SessionFound? && fetch.session.Some? ==>
        var au := UpdatedUser(fetch.session.value.0, outcome);
        && session == Some(fetch.session.value.1) && user == Some(au) && userType == Some(au.userType)
        && roles == au.roles && store.items == PersistedItems(old(store.items), au)
      ensures !fetch.SessionFound? ==>
        && user == old(user) && session == old(session) && userType == old(userType) && roles == old(roles)
        && store.items == old(store.items)
    {
      match fetch
      case SessionError =>
        loading := false;
      case SessionThrew =>
        loading := false;
      case SessionFound(s) =>
        if s.Some? {
          UpdateUserState(Some(s.value.0), Some(s.value.1), outcome);
        } else {
          ClearState();
        }
        loading := false;
    }
  }

  /** `localStorage.getItem('isDevUser') === 'true'`. */
  predicate DevFlagSet(items: map<string, Item>) {
    IsDevUserKey in items && items[IsDevUserKey] == Raw("true")
  }

  /** The stored role list of a dev user parses. */
  predicate DevRolesParse(items: map<string, Item>) {
    ParseStored(if UserRolesKey in items then Some(items[UserRolesKey]) else None, JArr([])).Ok?
  }

  /** A dev user's email (as text) and type are both stored. */
  predicate DevIdentityStored(items: map<string, Item>) {
    && UserEmailKey in items && items[UserEmailKey].Raw? && items[UserEmailKey].text != []
    && UserTypeKey in items && Present(Some(items[UserTypeKey]))
  }

  /** The stored dev user is restored: the flag is set, the roles parse, and
      an email and a type are stored. */
  predicate DevRestore(items: map<string, Item>) {
    DevFlagSet(items) && DevRolesParse(items)
    && Present(ItemAt(items, UserEmailKey)) && Present(ItemAt(items, UserTypeKey))
  }

  /** The dev check lets the session decide: no dev flag, or a dev flag whose
      roles parse but whose email or type is missing. */
  predicate FallsThrough(items: map<string, Item>) {
    !DevFlagSet(items) || (DevRolesParse(items) && !DevRestore(items))
  }

  /** The text of a stored item written directly, or the empty text. */
  function StoredText(items: map<string, Item>, k: string): string {
    match ItemAt(items, k)
    case Some(Raw(t)) => t
    case _ => []
  }

  /** The type of a restored dev user, from the stored text. */
  function StoredDevType(items: map<string, Item>): UserType {
    match ItemAt(items, UserTypeKey)
    case Some(Raw(t)) => ParseUserType(t)
    case _ => ParticipantType
  }

  /** The `devRoles` a restored dev user is given: the parsed stored role
      list when it is truthy, none (so the type's default) when it is falsy. */
  function StoredDevRoles(items: map<string, Item>): Option<seq<Role>> {
    match ParseStored(ItemAt(items, UserRolesKey), JArr([]))
    case Ok(j) => if Truthy(j) then Some(RolesFromJson(j)) else None
    case Err(_) => None
  }

  /** A stored item is truthy: present and not the empty text. */
  predicate Present(it: Option<Item>) {
    it.Some? && it.value != Raw([])
  }
}
