/** The sign-in page: the client-side form checks, the rate limit on failed
    attempts kept in storage, the development bypass for the two built-in
    accounts, and where a sign-in or a sign-up leads. */
module Login {
  import opened Wrappers
  import opened Strings
  import opened Dicts
  import opened Storage
  import opened Roles
  import opened AdminHelpers
  import opened AuthContext

  datatype LoginType = UserLogin | AdminLogin
  datatype FormMode = LoginMode | SignupMode

  datatype FormData = FormData(email: string, password: string, confirmPassword: string,
                               fullName: string, mobileNumber: string, rememberMe: bool)

  const EmptyForm := FormData("", "", "", "", "", false)

  const MaxLoginAttempts := 5
  /** Fifteen minutes, in milliseconds. */
  const RateLimitDuration := 15 * 60 * 1000

  const AttemptsKey := "loginAttempts"
  const LastAttemptKey := "lastLoginAttempt"
  const RememberedEmailKey := "rememberedEmail"

  const EmailRequired := "Email is required"
  const PasswordRequired := "Password is required"
  const AdminEmailRequired := "Admin accounts must use a valid admin email address"
  const FullNameRequired := "Full name is required"
  const ConfirmRequired := "Please confirm your password"
  const PasswordsDiffer := "Passwords do not match"
  const MobileFormat := "Please enter a valid South African mobile number"
  const NotAdmin := "Access denied. This account does not have admin privileges."
  const FillRequired := "Please fill in all required fields"

  // ---------------------------------------------------------------------------
  // Form checks
  // ---------------------------------------------------------------------------

  /** The form's text fields. */
  datatype Field = EmailField | PasswordField | ConfirmPasswordField | FullNameField | MobileNumberField

  /** The keys of the message object: a field, `general`, or `rememberMe`. */
  datatype ErrorKey = FieldKey(field: Field) | GeneralKey | RememberMeKey

  /** The message `validateForm` leaves under a field, if any. The admin check
      on the email runs after the other two email checks and so wins over them. */
  function FieldError(fd: FormData, lt: LoginType, fm: FormMode, f: Field): (r: Option<string>)
    ensures f == EmailField ==>
              (r.None? <==> Trim(fd.email) != [] && ValidateEmail(fd.email)
                            && (lt == AdminLogin ==> FallbackAdminEmail(fd.email)))
    ensures f == EmailField && lt == AdminLogin && !FallbackAdminEmail(fd.email) ==> r == Some(AdminEmailRequired)
    ensures f == PasswordField ==> (r.None? <==> JsLength(fd.password) >= 6)
    ensures f == ConfirmPasswordField ==>
              (r.None? <==> fm == LoginMode || (fd.confirmPassword != [] && fd.password == fd.confirmPassword))
    ensures f == FullNameField ==> (r.None? <==> fm != SignupMode || Trim(fd.fullName) != [])
    ensures f == MobileNumberField ==>
              (r.None? <==> fm != SignupMode || fd.mobileNumber == [] || ValidatePhoneNumber(fd.mobileNumber))
  {
    match f
    case EmailField =>
      if lt == AdminLogin && !FallbackAdminEmail(fd.email) then Some(AdminEmailRequired)
      else if Trim(fd.email) == [] then Some(EmailRequired)
      else if !ValidateEmail(fd.email) then Some(InvalidEmail)
      else None
    case PasswordField =>
      if fd.password == [] then Some(PasswordRequired)
      else if JsLength(fd.password) < 6 then Some(ShortPassword)
      else None
    case FullNameField =>
      if fm == SignupMode && Trim(fd.fullName) == [] then Some(FullNameRequired) else None
    case ConfirmPasswordField =>
      if fm == LoginMode then None
      else if fd.confirmPassword == [] then Some(ConfirmRequired)
      else if fd.password != fd.confirmPassword then Some(PasswordsDiffer)
      else None
    case MobileNumberField =>
      if fm == SignupMode && fd.mobileNumber != [] && !ValidatePhoneNumber(fd.mobileNumber) then Some(MobileFormat)
      else None
  }

  /** A message object read at `k`; `None` is `undefined`. */
  function MessageAt(errors: map<ErrorKey, string>, k: ErrorKey): Option<string> {
    if k in errors then Some(errors[k]) else None
  }

  /** `errors` holds, under each field, exactly the message `validateForm`
      leaves there, and nothing under any other key. */
  predicate MessagesMatch(errors: map<ErrorKey, string>, fd: FormData, lt: LoginType, fm: FormMode) {
    && (forall f: Field :: MessageAt(errors, FieldKey(f)) == FieldError(fd, lt, fm, f))
    && (forall k | k in errors :: k.FieldKey?)
  }

  /** What a form that passes every check looks like. */
  predicate FormValid(fd: FormData, lt: LoginType, fm: FormMode) {
    && ValidateEmail(fd.email)
    && JsLength(fd.password) >= 6
    && (lt == AdminLogin ==> FallbackAdminEmail(fd.email))
    && (fm == SignupMode ==>
          && Trim(fd.fullName) != []
          && fd.confirmPassword == fd.password
          && (fd.mobileNumber == [] || ValidatePhoneNumber(fd.mobileNumber)))
  }

  /** A valid email has no white space, so it is its own trim. */
  lemma ValidEmailTrimmed(s: string)
    requires ValidateEmail(s)
    ensures Trim(s) == s && s != []
  {
    assert !IsWhitespace(s[0]) && !IsWhitespace(s[|s| - 1]);
  }

  /** The form passes exactly when no field carries a message. */
  lemma FormValidIff(fd: FormData, lt: LoginType, fm: FormMode)
    ensures FormValid(fd, lt, fm) <==> forall f: Field :: FieldError(fd, lt, fm, f).None?
  {
    if FormValid(fd, lt, fm) {
      ValidEmailTrimmed(fd.email);
    } else {
      if ValidateEmail(fd.email) && !(lt == AdminLogin && !FallbackAdminEmail(fd.email)) {
        ValidEmailTrimmed(fd.email);
      }
      assert FieldError(fd, lt, fm, EmailField).Some? || FieldError(fd, lt, fm, PasswordField).Some?
        || FieldError(fd, lt, fm, FullNameField).Some? || FieldError(fd, lt, fm, ConfirmPasswordField).Some?
        || FieldError(fd, lt, fm, MobileNumberField).Some?;
    }
  }

  /** `MessagesMatch`, one field at a time. */
  lemma MessagesMatchByField(errors: map<ErrorKey, string>, fd: FormData, lt: LoginType, fm: FormMode)
    requires MessageAt(errors, FieldKey(EmailField)) == FieldError(fd, lt, fm, EmailField)
    requires MessageAt(errors, FieldKey(PasswordField)) == FieldError(fd, lt, fm, PasswordField)
    requires MessageAt(errors, FieldKey(ConfirmPasswordField)) == FieldError(fd, lt, fm, ConfirmPasswordField)
    requires MessageAt(errors, FieldKey(FullNameField)) == FieldError(fd, lt, fm, FullNameField)
    requires MessageAt(errors, FieldKey(MobileNumberField)) == FieldError(fd, lt, fm, MobileNumberField)
    requires forall k | k in errors :: k.FieldKey?
    ensures MessagesMatch(errors, fd, lt, fm)
  {
    forall f: Field
      ensures MessageAt(errors, FieldKey(f)) == FieldError(fd, lt, fm, f)
    {
      match f
      case EmailField =>
      case PasswordField =>
      case ConfirmPasswordField =>
      case FullNameField =>
      case MobileNumberField =>
    }
  }

  /** The message object `validateForm` builds is empty exactly when the
      form is valid. */
  lemma MessagesEmptyIff(errors: map<ErrorKey, string>, fd: FormData, lt: LoginType, fm: FormMode)
    requires MessagesMatch(errors, fd, lt, fm)
    ensures errors == map[] <==> FormValid(fd, lt, fm)
  {
    FormValidIff(fd, lt, fm);
    if errors != map[] {
      var k :| k in errors;
      assert MessageAt(errors, FieldKey(k.field)).Some?;
    }
  }

  /** An email that passes the admin tab is typed admin by the auth service,
      trimmed or not. */
  lemma AdminTabEmailIsAdmin(fd: FormData, fm: FormMode)
    requires FormValid(fd, AdminLogin, fm)
    ensures Trim(fd.email) == fd.email
    ensures DetermineUserType(Trim(fd.email)) == AdminType
  {
    ValidEmailTrimmed(fd.email);
  }

  // ---------------------------------------------------------------------------
  // The development bypass
  // ---------------------------------------------------------------------------

  function DevEmail(lt: LoginType): string {
    if lt == AdminLogin then "admin@bizboost.co.za" else "user@bizboost.co.za"
  }

  function DevPassword(lt: LoginType): string {
    if lt == AdminLogin then "admin123" else "user123"
  }

  /** The trimmed email matches the tab's built-in account up to case, and the
      password matches exactly. */
  predicate DevMatch(email: string, password: string, lt: LoginType) {
    ToLower(email) == ToLower(DevEmail(lt)) && password == DevPassword(lt)
  }

  /** The type a built-in account is signed in as: that of its tab. */
  function DevType(lt: LoginType): (t: UserType)
    ensures t == AdminType <==> lt == AdminLogin
  {
    if lt == AdminLogin then AdminType else ParticipantType
  }

  /** The bypass compares emails without regard to case. */
  lemma DevMatchIgnoresCase(email: string, password: string, lt: LoginType)
    ensures DevMatch(ToLower(email), password, lt) == DevMatch(email, password, lt)
  {
    ToLowerIdempotent(email);
  }

  /** The built-in user account's address is on the staff domain, so the auth
      service would type it admin; the bypass signs it in as a participant. */
  lemma DevUserHasStaffDomain()
    ensures EndsWith(DevEmail(UserLogin), "@bizboost.co.za")
    ensures DetermineUserType(DevEmail(UserLogin)) == AdminType
    ensures DevType(UserLogin) == ParticipantType
  {
    assert DevEmail(UserLogin)[4..] == "@bizboost.co.za";
  }

  // ---------------------------------------------------------------------------
  // Where a sign-in leads
  // ---------------------------------------------------------------------------

  /** `routeToDashboard`. */
  function RouteFor(t: UserType): (path: string)
    ensures path == "/admin/dashboard" <==> t == AdminType
  {
    if t == AdminType then "/admin/dashboard" else "/dashboard"
  }

  const InvalidCredentialsText := "Invalid email or password. Please check your credentials and try again."
  const NotConfirmedText := "Please confirm your email address before signing in."
  const TooManyRequestsText := "Too many login attempts. Please wait before trying again."
  const LoginFailedText := "Login failed. Please try again."

  /** The text shown for a failed sign-in: one of four fixed texts, or the
      service's own (non-empty) message. */
  function LoginErrorText(message: string): (r: string)
    ensures r != []
    ensures r == message || r in {InvalidCredentialsText, NotConfirmedText, TooManyRequestsText, LoginFailedText}
    ensures Contains(message, "Invalid login credentials") ==> r == InvalidCredentialsText
    ensures message == [] ==> r == LoginFailedText
  {
    if Contains(message, "Invalid login credentials") then InvalidCredentialsText
    else if Contains(message, "Email not confirmed") then NotConfirmedText
    else if Contains(message, "Too many requests") then TooManyRequestsText
    else if message != [] then message
    else LoginFailedText
  }

  /** What `handleLogin` does after a real sign-in. */
  datatype LoginDecision =
    | Refuse(message: string)        // show `message`, count a failed attempt
    | Enter(path: string, counted: bool)
      // go to `path`; when `counted`, apply remember-me and clear the attempts

  /** The decision after a real sign-in: errors and a non-admin on the admin
      tab are refused; an admin on the user tab is sent to the admin
      dashboard without touching remember-me or the attempt counters. */
  function DecideLogin(lt: LoginType, result: SignInResult): (d: LoginDecision)
    ensures d.Refuse? <==> result.error.Some? || (lt == AdminLogin && result.userType != AdminType)
    ensures result.error.Some? ==> d == Refuse(LoginErrorText(result.error.value))
    ensures d.Enter? ==> d.path == RouteFor(result.userType)
    ensures d.Enter? ==> (d.counted <==> !(lt == UserLogin && result.userType == AdminType))
  {
    if result.error.Some? then Refuse(LoginErrorText(result.error.value))
    else if lt == AdminLogin && result.userType != AdminType then Refuse(NotAdmin)
    else if lt == UserLogin && result.userType == AdminType then Enter(RouteFor(AdminType), false)
    else Enter(RouteFor(result.userType), true)
  }

  /** A real sign-in enters only with a user and a session, and always at the
      dashboard of the type the service derives from the user's email. */
  lemma SignInRoute(lt: LoginType, outcome: SignInOutcome)
    ensures DecideLogin(lt, SignIn(outcome)).Enter? ==>
      && outcome.SignedInAs? && outcome.user.Some? && outcome.session.Some?
      && DecideLogin(lt, SignIn(outcome)).path == RouteFor(DetermineUserType(outcome.user.value.email.GetOr("")))
  {
  }

  // ---------------------------------------------------------------------------
  // Where a sign-up failure is shown
  // ---------------------------------------------------------------------------

  const AccountExistsText := "An account with this email already exists. Please try logging in instead."
  const ProcessingWaitText := "Account creation is processing. Please wait a moment and try signing in, or contact support if you continue to have issues."
  const PermissionsText := "Account creation failed due to permissions. Please contact support for assistance."
  const ProcessingLaterText := "Account creation is processing. Please try signing in after a few moments."
  const GenericSignUpText := "Error creating account. Please check your information and try again. If the problem persists, contact support."

  /** The field a sign-up error is shown under, its text, and whether the form
      switches back to sign-in. */
  datatype SignUpFailure = SignUpFailure(field: ErrorKey, text: string, backToLogin: bool)

  predicate AlreadyRegistered(m: string) {
    Contains(m, "already registered") || Contains(m, "User already registered")
    || Contains(m, "already been registered")
  }

  /** The classification of a sign-up error, first match wins. */
  function SignUpErrorText(m: string): (f: SignUpFailure)
    ensures f.backToLogin <==> AlreadyRegistered(m)
    ensures f.backToLogin ==> f == SignUpFailure(GeneralKey, AccountExistsText, true)
    ensures f.field in {GeneralKey, FieldKey(PasswordField), FieldKey(EmailField)}
    ensures f.field == FieldKey(PasswordField) ==> f.text == ShortPassword
    ensures f.field == FieldKey(EmailField) ==> f.text == InvalidEmail
    ensures f.field == GeneralKey && !f.backToLogin ==>
      f.text == m || f.text in {ProcessingWaitText, PermissionsText, ProcessingLaterText, GenericSignUpText}
  {
    if AlreadyRegistered(m) then SignUpFailure(GeneralKey, AccountExistsText, true)
    else if Contains(m, "Password should be at least") || Contains(m, "Password must be at least") then
      SignUpFailure(FieldKey(PasswordField), ShortPassword, false)
    else if Contains(m, "Unable to validate email address") || Contains(m, "Invalid email") then
      SignUpFailure(FieldKey(EmailField), InvalidEmail, false)
    else if Contains(m, "Database error saving new user") || Contains(m, "infinite recursion") then
      SignUpFailure(GeneralKey, ProcessingWaitText, false)
    else if Contains(m, "row-level security policy") || Contains(m, "42501") then
      SignUpFailure(GeneralKey, PermissionsText, false)
    else if Contains(m, "Account creation failed") then SignUpFailure(GeneralKey, m, false)
    else if Contains(m, "trigger") || Contains(m, "function") || Contains(m, "recursion") then
      SignUpFailure(GeneralKey, ProcessingLaterText, false)
    else SignUpFailure(GeneralKey, GenericSignUpText, false)
  }

  /** The sign-up checks of the page itself, on the trimmed email and name. */
  function SignUpPageCheck(email: string, password: string, fullName: string): (r: Option<(ErrorKey, string)>)
    ensures r.None? <==> email != [] && fullName != [] && '@' in email && JsLength(email) >= 5 && JsLength(password) >= 6
    ensures (email == [] || password == [] || fullName == []) ==> r == Some((GeneralKey, FillRequired))
  {
    if email == [] || password == [] || fullName == [] then Some((GeneralKey, FillRequired))
    else if '@' !in email || JsLength(email) < 5 then Some((FieldKey(EmailField), InvalidEmail))
    else if JsLength(password) < 6 then Some((FieldKey(PasswordField), ShortPassword))
    else None
  }

  // ---------------------------------------------------------------------------
  // The rate limit
  // ---------------------------------------------------------------------------

  /** `parseInt(localStorage.getItem(k) || d)`, where `fallback` is `parseInt(d)`;
      `None` is `NaN`. The page writes these keys as plain text. An item
      written with `JSON.stringify` is read through its text: a number's text
      parses to that number, and every other value's text (quoted, bracketed,
      `true`, `null`) starts with no digit and gives `NaN`. */
  function StoredInt(it: Option<Item>, fallback: Option<int>): Option<int> {
    match it
    case None => fallback
    case Some(Raw(t)) => if t == [] then fallback else JsParseInt(t)
    case Some(Encoded(j)) => if j.JNum? then Some(j.n) else None
  }

  /** The `'0'` default of the stored count parses to zero. */
  lemma ZeroParses()
    ensures JsParseInt("0") == Some(0)
  {
    ParseIntOfNatToString(0);
    assert NatToString(0) == "0";
  }

  /** `parseInt(localStorage.getItem('loginAttempts') || '0')`. */
  function StoredAttempts(items: map<string, Item>): Option<int> {
    StoredInt(ItemAt(items, AttemptsKey), Some(0))
  }

  /** `parseInt(lastAttemptTime)`, read only when the item is truthy. */
  function LastAttempt(items: map<string, Item>): Option<int> {
    StoredInt(ItemAt(items, LastAttemptKey), None)
  }

  /** The outer test of `checkRateLimit`: a last-attempt time is stored and
      the stored count is at least five. */
  predicate AtLimit(items: map<string, Item>) {
    Present(ItemAt(items, LastAttemptKey))
    && StoredAttempts(items).Some? && StoredAttempts(items).value >= MaxLoginAttempts
  }

  /** At the limit, and the last attempt is less than fifteen minutes before
      `nowMs`. A time that does not parse never locks. */
  predicate LockedOut(items: map<string, Item>, nowMs: int) {
    AtLimit(items) && LastAttempt(items).Some? && nowMs - LastAttempt(items).value < RateLimitDuration
  }

  /** At the limit, but the lock has run out: the counters are cleared. */
  predicate LockExpired(items: map<string, Item>, nowMs: int) {
    AtLimit(items) && !LockedOut(items, nowMs)
  }

  /** `Math.ceil((RATE_LIMIT_DURATION - elapsed) / 60000)`: the whole minutes
      left, rounded up. */
  function RemainingMinutes(elapsed: int): (m: int)
    requires elapsed < RateLimitDuration
    ensures m >= 1
    ensures (m - 1) * 60000 < RateLimitDuration - elapsed <= m * 60000
    ensures elapsed >= 0 ==> m <= 15
  {
    (RateLimitDuration - elapsed + 59999) / 60000
  }

  function LockMessage(minutes: int): string {
    "Too many login attempts. Please try again in " + IntToString(minutes) + " minutes."
  }

  /** The in-memory count after one more failure; `NaN` stays `NaN`. */
  function NextAttempts(a: Option<int>): Option<int> {
    match a
    case Some(n) => Some(n + 1)
    case None => None
  }

  /** `Number.prototype.toString` of the count. */
  function CountText(a: Option<int>): string {
    match a
    case Some(n) => IntToString(n)
    case None => "NaN"
  }

  /** The two keys a failure writes. */
  function RecordFailure(items: map<string, Item>, a: Option<int>, nowMs: nat): map<string, Item> {
    items[AttemptsKey := Raw(CountText(a))][LastAttemptKey := Raw(NatToString(nowMs))]
  }

  /** A recorded failure reads back: `later` milliseconds after a failure that
      brought the count to `n`, the page is locked exactly when `n` is at least
      five and fewer than fifteen minutes have passed. */
  lemma RecordedFailureLocks(items: map<string, Item>, n: nat, nowMs: nat, later: nat)
    ensures LockedOut(RecordFailure(items, Some(n), nowMs), nowMs + later)
        <==> n >= MaxLoginAttempts && later < RateLimitDuration
  {
    ParseIntOfNatToString(n);
    ParseIntOfNatToString(nowMs);
    var after := RecordFailure(items, Some(n), nowMs);
    assert ItemAt(after, AttemptsKey) == Some(Raw(NatToString(n)));
    assert ItemAt(after, LastAttemptKey) == Some(Raw(NatToString(nowMs)));
    assert StoredAttempts(after) == Some(n);
    assert LastAttempt(after) == Some(nowMs);
  }

  /** Once the counters are cleared the page is not at the limit. */
  lemma ClearedNotAtLimit(items: map<string, Item>)
    ensures !AtLimit(items - {AttemptsKey, LastAttemptKey})
  {
    assert ItemAt(items - {AttemptsKey, LastAttemptKey}, LastAttemptKey).None?;
  }

  /** `rememberMe ? setItem('rememberedEmail', email) : removeItem('rememberedEmail')`. */
  function Remembered(items: map<string, Item>, on: bool, email: string): map<string, Item> {
    if on then items[RememberedEmailKey := Raw(email)] else items - {RememberedEmailKey}
  }

  /** The email pre-filled on mount: a stored, non-empty remembered email. */
  function RememberedText(items: map<string, Item>): Option<string> {
    if RememberedEmailKey in items && items[RememberedEmailKey].Raw? && items[RememberedEmailKey].text != []
    then Some(items[RememberedEmailKey].text) else None
  }

  /** One form control's change. */
  datatype Input = TextInput(field: Field, value: string) | RememberInput(on: bool)

  /** `{ ...prev, [field]: value }` on the form's text fields. */
  function WithField(fd: FormData, f: Field, value: string): FormData {
    match f
    case EmailField => fd.(email := value)
    case PasswordField => fd.(password := value)
    case ConfirmPasswordField => fd.(confirmPassword := value)
    case FullNameField => fd.(fullName := value)
    case MobileNumberField => fd.(mobileNumber := value)
  }

  /** `if (errors[k]) errors = { ...errors, [k]: '' }`. */
  function ClearedError(errors: map<ErrorKey, string>, k: ErrorKey): map<ErrorKey, string> {
    if k in errors && errors[k] != [] then errors[k := []] else errors
  }

  /** The checks of `validateForm` that run in both modes: the email, the
      password, and on the admin tab the admin address. */
  method EmailAndPasswordMessages(fd: FormData, lt: LoginType) returns (e: map<ErrorKey, string>)
    ensures MessageAt(e, FieldKey(EmailField)) == FieldError(fd, lt, LoginMode, EmailField)
    ensures MessageAt(e, FieldKey(PasswordField)) == FieldError(fd, lt, LoginMode, PasswordField)
    ensures e.Keys <= {FieldKey(EmailField), FieldKey(PasswordField)}
  {
    e := map[];
    if Trim(fd.email) == [] {
      e := e[FieldKey(EmailField) := EmailRequired];
    } else if !ValidateEmail(fd.email) {
      e := e[FieldKey(EmailField) := InvalidEmail];
    }
    if fd.password == [] {
      e := e[FieldKey(PasswordField) := PasswordRequired];
    } else if JsLength(fd.password) < 6 {
      e := e[FieldKey(PasswordField) := ShortPassword];
    }
    if lt == AdminLogin {
      if !Contains(fd.email, "admin") && !EndsWith(fd.email, "@bizboost.co.za") {
        e := e[FieldKey(EmailField) := AdminEmailRequired];
      }
    }
  }

  /** The checks of `validateForm` that run only in sign-up mode, each under
      its own field. */
  method SignUpMessages(fd: FormData) returns (e: map<ErrorKey, string>)
    ensures MessageAt(e, FieldKey(FullNameField)) == FieldError(fd, UserLogin, SignupMode, FullNameField)
    ensures MessageAt(e, FieldKey(ConfirmPasswordField)) == FieldError(fd, UserLogin, SignupMode, ConfirmPasswordField)
    ensures MessageAt(e, FieldKey(MobileNumberField)) == FieldError(fd, UserLogin, SignupMode, MobileNumberField)
    ensures e.Keys <= {FieldKey(FullNameField), FieldKey(ConfirmPasswordField), FieldKey(MobileNumberField)}
  {
    e := map[];
    if Trim(fd.fullName) == [] {
      e := e[FieldKey(FullNameField) := FullNameRequired];
    }
    if fd.confirmPassword == [] {
      e := e[FieldKey(ConfirmPasswordField) := ConfirmRequired];
    } else if fd.password != fd.confirmPassword {
      e := e[FieldKey(ConfirmPasswordField) := PasswordsDiffer];
    }
    if fd.mobileNumber != [] && !ValidatePhoneNumber(fd.mobileNumber) {
      e := e[FieldKey(MobileNumberField) := MobileFormat];
    }
  }

  class LoginPage {
    var loginType: LoginType
    var formMode: FormMode
    var formData: FormData
    var errors: map<ErrorKey, string>
    var loginAttempts: Option<int>   // `None` is `NaN`
    var isRateLimited: bool
    var isLoading: bool
    const store: LocalStorage
    const auth: AuthProvider

    /** Mounting the page: a remembered email is pre-filled with remember-me
        on, the stored attempt count is loaded, and a count of five or more
        runs the rate-limit check. */
    constructor (store: LocalStorage, auth: AuthProvider, nowMs: nat)
      modifies store
      ensures this.store == store && this.auth == auth
      ensures loginType == UserLogin && formMode == LoginMode && !isLoading
      ensures formData == match RememberedText(old(store.items))
                          case Some(e) => EmptyForm.(email := e, rememberMe := true)
                          case None => EmptyForm
      ensures loginAttempts == StoredAttempts(old(store.items))
      ensures isRateLimited <==> LockedOut(old(store.items), nowMs)
      ensures LockedOut(old(store.items), nowMs) ==>
        errors == map[GeneralKey := LockMessage(RemainingMinutes(nowMs - LastAttempt(old(store.items)).value))]
      ensures !LockedOut(old(store.items), nowMs) ==> errors == map[]
      ensures store.items == if LockExpired(old(store.items), nowMs)
                             then old(store.items) - {AttemptsKey, LastAttemptKey}
                             else old(store.items)
    {
      this.store := store;
      this.auth := auth;
      loginType, formMode := UserLogin, LoginMode;
      errors := map[];
      isRateLimited, isLoading := false, false;
      var rememberedItem := store.GetItem(RememberedEmailKey);
      if rememberedItem.Some? && rememberedItem.value.Raw? && rememberedItem.value.text != [] {
        formData := EmptyForm.(email := rememberedItem.value.text, rememberMe := true);
      } else {
        formData := EmptyForm;
      }
      var countItem := store.GetItem(AttemptsKey);
      loginAttempts := StoredInt(countItem, Some(0));
      new;
      if loginAttempts.Some? && loginAttempts.value >= MaxLoginAttempts {
        var _ := CheckRateLimit(nowMs);
      }
    }

    /** `checkRateLimit`: refuses while locked, with the minutes left; at the
        limit but past the lock, clears both counters. */
    method CheckRateLimit(nowMs: nat) returns (ok: bool)
      modifies this, store
      ensures ok <==> !LockedOut(old(store.items), nowMs)
      ensures !ok ==>
        && isRateLimited && store.items == old(store.items)
        && errors == map[GeneralKey := LockMessage(RemainingMinutes(nowMs - LastAttempt(old(store.items)).value))]
      ensures LockExpired(old(store.items), nowMs) ==>
        !isRateLimited && errors == old(errors) && store.items == old(store.items) - {AttemptsKey, LastAttemptKey}
      ensures !AtLimit(old(store.items)) ==>
        isRateLimited == old(isRateLimited) && errors == old(errors) && store.items == old(store.items)
      ensures loginType == old(loginType) && formMode == old(formMode) && formData == old(formData)
      ensures loginAttempts == old(loginAttempts) && isLoading == old(isLoading)
    {
      var lastItem := store.GetItem(LastAttemptKey);
      var countItem := store.GetItem(AttemptsKey);
      var count := StoredInt(countItem, Some(0));
      assert count == StoredAttempts(store.items);
      ghost var items := store.items;
      ok := true;
      if Present(lastItem) && count.Some? && count.value >= MaxLoginAttempts {
        var last := StoredInt(lastItem, None);
        assert last == LastAttempt(items);
        assert AtLimit(items);
        if last.Some? && nowMs - last.value < RateLimitDuration {
          assert LockedOut(items, nowMs);
          isRateLimited := true;
          errors := map[GeneralKey := LockMessage(RemainingMinutes(nowMs - last.value))];
          ok := false;
        } else {
          store.RemoveItem(AttemptsKey);
          store.RemoveItem(LastAttemptKey);
          isRateLimited := false;
        }
      }
    }

    /** `updateLoginAttempts`: success clears both counters; a failure counts
        one more and stores the count and the time. */
    method UpdateLoginAttempts(success: bool, nowMs: nat)
      modifies this, store
      ensures success ==>
        && loginAttempts == Some(0) && !isRateLimited
        && store.items == old(store.items) - {AttemptsKey, LastAttemptKey}
      ensures !success ==>
        && loginAttempts == NextAttempts(old(loginAttempts)) && isRateLimited == old(isRateLimited)
        && store.items == RecordFailure(old(store.items), NextAttempts(old(loginAttempts)), nowMs)
      ensures loginType == old(loginType) && formMode == old(formMode) && formData == old(formData)
      ensures errors == old(errors) && isLoading == old(isLoading)
    {
      if success {
        store.RemoveItem(AttemptsKey);
        store.RemoveItem(LastAttemptKey);
        loginAttempts := Some(0);
        isRateLimited := false;
      } else {
        var newAttempts := NextAttempts(loginAttempts);
        loginAttempts := newAttempts;
        store.SetItem(AttemptsKey, Raw(CountText(newAttempts)));
        store.SetItem(LastAttemptKey, Raw(NatToString(nowMs)));
      }
    }

    /** `validateForm`: the message of every failed check under its field, and
        whether there is none. */
    method ValidateForm() returns (ok: bool)
      modifies this
      ensures MessagesMatch(errors, formData, loginType, formMode)
      ensures ok <==> errors == map[]
      ensures ok <==> FormValid(formData, loginType, formMode)
      ensures loginType == old(loginType) && formMode == old(formMode) && formData == old(formData)
      ensures loginAttempts == old(loginAttempts) && isRateLimited == old(isRateLimited)
      ensures isLoading == old(isLoading)
    {
      var fd, lt, fm := formData, loginType, formMode;
      var e := EmailAndPasswordMessages(fd, lt);
      ghost var e0 := e;
      if fm == SignupMode {
        var more := SignUpMessages(fd);
        e := e + more;
      }
      assert MessageAt(e, FieldKey(EmailField)) == MessageAt(e0, FieldKey(EmailField));
      assert MessageAt(e, FieldKey(PasswordField)) == MessageAt(e0, FieldKey(PasswordField));
      MessagesMatchByField(e, fd, lt, fm);
      errors := e;
      ok := e == map[];
      MessagesEmptyIff(e, fd, lt, fm);
    }

    /** `handleInputChange`: sets the field; a non-empty message under it is
        cleared to the empty string. */
    method HandleInputChange(input: Input)
      modifies this
      ensures input.TextInput? ==>
        && formData == WithField(old(formData), input.field, input.value)
        && errors == ClearedError(old(errors), FieldKey(input.field))
      ensures input.RememberInput? ==>
        formData == old(formData).(rememberMe := input.on) && errors == ClearedError(old(errors), RememberMeKey)
      ensures loginType == old(loginType) && formMode == old(formMode) && loginAttempts == old(loginAttempts)
      ensures isRateLimited == old(isRateLimited) && isLoading == old(isLoading)
    {
      match input
      case TextInput(field, value) =>
        formData := WithField(formData, field, value);
        errors := ClearedError(errors, FieldKey(field));
      case RememberInput(on) =>
        formData := formData.(rememberMe := on);
        errors := ClearedError(errors, RememberMeKey);
    }

    /** `resetForm`: empties the form and the in-memory counters; the stored
        counters are left as they are. */
    method ResetForm()
      modifies this
      ensures formData == EmptyForm && errors == map[] && loginAttempts == Some(0) && !isRateLimited
      ensures loginType == old(loginType) && formMode == old(formMode) && isLoading == old(isLoading)
    {
      formData := EmptyForm;
      errors := map[];
      loginAttempts := Some(0);
      isRateLimited := false;
    }

    /** The Sign In / Sign Up toggle: switches the mode and resets the form. */
    method SelectFormMode(m: FormMode)
      modifies this
      ensures formMode == m && formData == EmptyForm && errors == map[] && loginAttempts == Some(0)
      ensures !isRateLimited && loginType == old(loginType) && isLoading == old(isLoading)
    {
      formMode := m;
      ResetForm();
    }

    /** The User / Admin toggle: switches the tab and clears the messages only. */
    method SelectLoginType(lt: LoginType)
      modifies this
      ensures loginType == lt && errors == map[]
      ensures formMode == old(formMode) && formData == old(formData) && loginAttempts == old(loginAttempts)
      ensures isRateLimited == old(isRateLimited) && isLoading == old(isLoading)
    {
      loginType := lt;
      errors := map[];
    }

    /** Applies the remember-me choice to the stored email. */
    method Remember(email: string)
      modifies store
      ensures store.items == Remembered(old(store.items), formData.rememberMe, email)
    {
      if formData.rememberMe {
        store.SetItem(RememberedEmailKey, Raw(email));
      } else {
        store.RemoveItem(RememberedEmailKey);
      }
    }

    /** The bypass branch of `handleLogin`: the context gets a dev user of the
        tab's type, remember-me is applied, the counters are cleared. */
    method DevLogin(email: string, nowMs: nat, devUserId: string) returns (route: Option<string>)
      requires auth.store == store
      modifies this, store, auth
      ensures var t := DevType(loginType);
        && route == Some(RouteFor(t))
        && auth.isDevUser && auth.userType == Some(t) && auth.roles == RolesForType(t)
        && auth.session == Some(Session("dev_token_" + NatToString(nowMs)))
        && auth.Mirrored()
      ensures loginAttempts == Some(0) && !isRateLimited && errors == old(errors)
      ensures store.items == Remembered(DevStored(old(store.items), email, DevType(loginType), nowMs),
                                        formData.rememberMe, email) - {AttemptsKey, LastAttemptKey}
      ensures loginType == old(loginType) && formMode == old(formMode) && formData == old(formData)
      ensures isLoading == old(isLoading)
    {
      var t := DevType(loginType);
      auth.SetDevUser(email, t, Some(RolesForType(t)), devUserId, nowMs);
      Remember(email);
      UpdateLoginAttempts(true, nowMs);
      route := Some(RouteFor(t));
    }

    /** `handleLogin`: the bypass for a built-in account, otherwise the real
        sign-in and `DecideLogin`. The route is the page navigated to, if any. */
    method HandleLogin(outcome: SignInOutcome, nowMs: nat, devUserId: string) returns (route: Option<string>)
      requires auth.store == store
      modifies this, store, auth
      ensures !isLoading
      ensures loginType == old(loginType) && formMode == old(formMode) && formData == old(formData)
      ensures var email := Trim(old(formData).email);
        DevMatch(email, old(formData).password, old(loginType)) ==>
          && route == Some(RouteFor(DevType(old(loginType))))
          && auth.isDevUser && auth.userType == Some(DevType(old(loginType)))
          && loginAttempts == Some(0) && !isRateLimited && errors == old(errors)
          && store.items == Remembered(DevStored(old(store.items), email, DevType(old(loginType)), nowMs),
                                       old(formData).rememberMe, email) - {AttemptsKey, LastAttemptKey}
      ensures var email := Trim(old(formData).email);
        var d := DecideLogin(old(loginType), SignIn(outcome));
        !DevMatch(email, old(formData).password, old(loginType)) ==>
          && unchanged(auth)
          && (d.Refuse? ==>
                && route.None? && errors == map[GeneralKey := d.message]
                && loginAttempts == NextAttempts(old(loginAttempts))
                && store.items == RecordFailure(old(store.items), NextAttempts(old(loginAttempts)), nowMs))
          && (d.Enter? && d.counted ==>
                && route == Some(d.path) && errors == old(errors) && loginAttempts == Some(0) && !isRateLimited
                && store.items == Remembered(old(store.items), old(formData).rememberMe, email) - {AttemptsKey, LastAttemptKey})
          && (d.Enter? && !d.counted ==>
                && route == Some(d.path) && errors == old(errors) && loginAttempts == old(loginAttempts)
                && store.items == old(store.items))
    {
      isLoading := true;
      var email := Trim(formData.email);
      if DevMatch(email, formData.password, loginType) {
        route := DevLogin(email, nowMs, devUserId);
      } else {
        var d := DecideLogin(loginType, SignIn(outcome));
        match d
        case Refuse(m) =>
          errors := map[GeneralKey := m];
          UpdateLoginAttempts(false, nowMs);
          route := None;
        case Enter(p, counted) =>
          if counted {
            Remember(email);
            UpdateLoginAttempts(true, nowMs);
          }
          route := Some(p);
      }
      isLoading := false;
    }

    /** `handleSignUp`: the page's own checks, then the auth service's sign-up.
        A created account stores the type of the chosen tab (not the one the
        service derived) and the email, and goes to that tab's dashboard. */
    method HandleSignUp(profileEmails: seq<string>, outcome: SignUpOutcome) returns (route: Option<string>)
      modifies this, store
      ensures !isLoading
      ensures loginType == old(loginType) && formData == old(formData) && loginAttempts == old(loginAttempts)
      ensures isRateLimited == old(isRateLimited)
      ensures var email := Trim(old(formData).email);
        var check := SignUpPageCheck(email, old(formData).password, Trim(old(formData).fullName));
        check.Some? ==>
          && route.None? && errors == map[check.value.0 := check.value.1]
          && formMode == old(formMode) && store.items == old(store.items)
      ensures var email := Trim(old(formData).email);
        var check := SignUpPageCheck(email, old(formData).password, Trim(old(formData).fullName));
        var r := SignUp(email, old(formData).password, profileEmails, outcome);
        var f := SignUpErrorText(r.error.GetOr([]));
        check.None? && r.error.Some? ==>
          && route.None? && store.items == old(store.items) && errors == map[f.field := f.text]
          && formMode == (if f.backToLogin then LoginMode else old(formMode))
      ensures var email := Trim(old(formData).email);
        var check := SignUpPageCheck(email, old(formData).password, Trim(old(formData).fullName));
        var r := SignUp(email, old(formData).password, profileEmails, outcome);
        var t := DevType(old(loginType));
        check.None? && r.error.None? ==>
          && r.user.Some? && formMode == old(formMode) && errors == old(errors)
          && route == Some(RouteFor(t))
          && store.items == old(store.items)[UserTypeKey := Raw(UserTypeName(t))][UserEmailKey := Raw(email)]
    {
      isLoading := true;
      var email := Trim(formData.email);
      var password := formData.password;
      var fullName := Trim(formData.fullName);
      route := None;
      var check := SignUpPageCheck(email, password, fullName);
      if check.Some? {
        errors := map[check.value.0 := check.value.1];
      } else {
        var r := SignUp(email, password, profileEmails, outcome);
        if r.error.Some? {
          var f := SignUpErrorText(r.error.value);
          errors := map[f.field := f.text];
          if f.backToLogin {
            formMode := LoginMode;
          }
        } else if r.user.Some? {
          var t := DevType(loginType);
          store.SetItem(UserTypeKey, Raw(UserTypeName(t)));
          store.SetItem(UserEmailKey, Raw(email));
          route := Some(RouteFor(t));
        }
      }
      isLoading := false;
    }

    /** `handleSubmit`: nothing while a request is running; otherwise the
        messages are cleared, the form is checked, the rate limit is checked,
        and the sign-in or sign-up runs. */
    method HandleSubmit(nowMs: nat, signInOutcome: SignInOutcome, profileEmails: seq<string>,
                        signUpOutcome: SignUpOutcome, devUserId: string) returns (route: Option<string>)
      requires auth.store == store
      modifies this, store, auth
      ensures old(isLoading) ==> route.None? && unchanged(this, store, auth)
      ensures !old(isLoading) && !FormValid(old(formData), old(loginType), old(formMode)) ==>
        route.None? && store.items == old(store.items) && errors != map[]
      ensures !old(isLoading) && FormValid(old(formData), old(loginType), old(formMode)) && LockedOut(old(store.items), nowMs) ==>
        route.None? && isRateLimited && store.items == old(store.items)
      ensures route.Some? ==>
        !old(isLoading) && FormValid(old(formData), old(loginType), old(formMode)) && !LockedOut(old(store.items), nowMs)
      ensures !old(isLoading) && FormValid(old(formData), old(loginType), old(formMode)) && !LockedOut(old(store.items), nowMs) ==>
        route == if old(formMode) == SignupMode
          then SignUpRoute(old(formData), old(loginType), profileEmails, signUpOutcome)
          else LoginRoute(old(formData), old(loginType), signInOutcome)
    {
      if isLoading {
        return None;
      }
      errors := map[];
      var ok := ValidateForm();
      if !ok {
        return None;
      }
      ok := CheckRateLimit(nowMs);
      if !ok {
        return None;
      }
      if formMode == SignupMode {
        route := HandleSignUp(profileEmails, signUpOutcome);
      } else {
        route := HandleLogin(signInOutcome, nowMs, devUserId);
      }
    }
  }

  /** The page `handleLogin` navigates to, if any: the tab's dashboard for a
      built-in account, otherwise where the sign-in decision enters. */
  function LoginRoute(fd: FormData, lt: LoginType, outcome: SignInOutcome): Option<string> {
    if DevMatch(Trim(fd.email), fd.password, lt) then Some(RouteFor(DevType(lt)))
    else match DecideLogin(lt, SignIn(outcome))
      case Refuse(_) => None
      case Enter(p, _) => Some(p)
  }

  /** The page `handleSignUp` navigates to, if any: the tab's dashboard once
      the page's checks pass and the account is created. */
  function SignUpRoute(fd: FormData, lt: LoginType, profileEmails: seq<string>, outcome: SignUpOutcome): Option<string> {
    var email := Trim(fd.email);
    if SignUpPageCheck(email, fd.password, Trim(fd.fullName)).Some? then None
    else if SignUp(email, fd.password, profileEmails, outcome).error.Some? then None
    else Some(RouteFor(DevType(lt)))
  }

  /** The five keys `setDevUser` writes for a built-in account. */
  function DevStored(items: map<string, Item>, email: string, t: UserType, nowMs: nat): map<string, Item> {
    DevItems(items, email, t, RolesForType(t), nowMs)
  }
}
