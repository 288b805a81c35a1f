/**
 * The auth adapter: every handler maps the vendor's outcomes to the fixed result records
 * the framework expects. The held client state (tenant, persistence mode) lives in the
 * class `FirebaseAuth`; handlers that only issue vendor calls are functions that return
 * the calls they issue together with their result.
 */
module FirebaseAuth {
  import opened Options

  /** The persistence mode of the vendor's auth client. */
  datatype Persistence = Local | Session

  /** `ILoginArgs`. */
  datatype LoginArgs = LoginArgs(email: string, password: string, remember: bool, tenant: Option<string>)

  /** `IRegisterArgs`, also used for profile updates. */
  datatype RegisterArgs = RegisterArgs(email: string, password: string, remember: bool, tenant: Option<string>,
                                       phone: Option<string>, displayName: Option<string>)

  /** The confirmation handle of a requested SMS challenge. */
  datatype Confirmation = Confirmation(verificationId: string)

  /** The arguments of `requestOtp`; the recaptcha container is only an identifier here. */
  datatype OtpRequestArgs = OtpRequestArgs(phone: string, recaptchaContainer: string)

  /** The arguments of `handlePhoneOTPLogIn`. */
  datatype OtpLoginArgs = OtpLoginArgs(otpRequestResult: Confirmation, otp: string, remember: bool)

  /** The vendor's user object, as far as the adapter reads it. */
  datatype User = User(uid: string, email: Option<string>, displayName: Option<string>,
                       photoURL: Option<string>, phoneNumber: Option<string>)

  /** The outcome of a sign-in followed by `getIdToken`: a token (possibly empty), none, or an exception. */
  datatype SignInOutcome = Token(token: string) | NoToken | Threw(message: string)

  /** The outcome of one vendor call that returns nothing: it returns, or it raises with a message. */
  datatype Call = Returned | Raised(message: string)

  /** A vendor request issued by a handler. */
  datatype AuthRequest =
    | SignOut
    | CreateUser(email: string, password: string)
    | SendVerification
    | SendPasswordReset(email: string)
    | UpdatePassword(password: string)
    | UpdateEmail(email: string)
    | UpdateProfile(displayName: string)

  datatype AuthError = AuthError(name: string, message: string)

  /** `{success: true, redirectTo}` or `{success: false, error}`. */
  datatype AuthResult = Success(redirectTo: string) | Failure(error: AuthError)

  /** The result of `handleCheckAuth`. */
  datatype CheckResult = Authenticated | Unauthenticated(redirectTo: string, logout: bool, error: AuthError)

  /** The result of `onError`. */
  datatype ErrorResponse<E> = ErrorResponse(redirectTo: string, logout: bool, error: E)

  /** The identity record `{...user, id, name, avatar}`. */
  datatype Identity = Identity(id: string, name: string, avatar: string, user: User)

  /** What a handler did: the vendor requests it issued, in order, and what it resolved to (`None`: nothing). */
  datatype Handled = Handled(sent: seq<AuthRequest>, result: Option<AuthResult>)

  type Claims = map<string, string>

  /** What `getIdTokenResult` resolves with: the token's claims. */
  datatype TokenResult = TokenResult(claims: Claims)

  const LOGIN_ERROR := "Login Error"
  const PROVIDER_NOT_FOUND := "Authentication provider not found"
  const INVALID_CREDENTIALS := "Invalid email or password"
  const INVALID_OTP := "Invalid OTP"

  // ------------------------------------------------- issuing calls in sequence

  /** The requests of `plan` that are sent when they are awaited in order: up to and including the first that raises. */
  function Sent(plan: seq<AuthRequest>, vendor: AuthRequest -> Call): (sent: seq<AuthRequest>)
    ensures |sent| <= |plan| && sent == plan[..|sent|]
    ensures forall i :: 0 <= i < |sent| - 1 ==> vendor(sent[i]).Returned?
  {
    if plan == [] then []
    else if vendor(plan[0]).Raised? then [plan[0]]
    else [plan[0]] + Sent(plan[1..], vendor)
  }

  /** The message of the first request of `plan` that raises, if any. */
  function FirstRaise(plan: seq<AuthRequest>, vendor: AuthRequest -> Call): Option<string> {
    if plan == [] then None
    else if vendor(plan[0]).Raised? then Some(vendor(plan[0]).message)
    else FirstRaise(plan[1..], vendor)
  }

  /** Nothing raises exactly when every request of the plan returns; then the whole plan is sent. */
  lemma {:induction false} NoRaiseSendsAll(plan: seq<AuthRequest>, vendor: AuthRequest -> Call)
    ensures FirstRaise(plan, vendor).None? <==> forall r :: r in plan ==> vendor(r).Returned?
    ensures FirstRaise(plan, vendor).None? ==> Sent(plan, vendor) == plan
  {
    if plan != [] {
      NoRaiseSendsAll(plan[1..], vendor);
      assert plan == [plan[0]] + plan[1..];
    }
  }

  /** When a request raises, the sending stops there: the last request sent is the one that raised. */
  lemma {:induction false} RaiseStopsSending(plan: seq<AuthRequest>, vendor: AuthRequest -> Call)
    requires FirstRaise(plan, vendor).Some?
    ensures var sent := Sent(plan, vendor);
            && |sent| > 0
            && vendor(sent[|sent| - 1]) == Raised(FirstRaise(plan, vendor).value)
  {
    if !vendor(plan[0]).Raised? {
      RaiseStopsSending(plan[1..], vendor);
    }
  }

  // ------------------------------------------------------------- sign-in

  /** The persistence mode `handleLogIn` and `handlePhoneOTPLogIn` select. */
  function PersistenceFor(remember: bool): (p: Persistence)
    ensures p == Local <==> remember
  {
    if remember then Local else Session
  }

  /**
   * The result of a sign-in handler: success with redirect "/" exactly when the client is
   * configured and a non-empty token is obtained; otherwise a "Login Error" whose name says
   * why (`invalidName` when no token comes back, the exception's message when one is thrown).
   */
  function SignInResult(configured: bool, outcome: SignInOutcome, invalidName: string): (r: AuthResult)
    ensures r.Success? <==> configured && outcome.Token? && outcome.token != ""
    ensures r.Success? ==> r.redirectTo == "/"
    ensures r.Failure? ==> r.error.message == LOGIN_ERROR
    ensures !configured ==> r.Failure? && r.error.name == PROVIDER_NOT_FOUND
    ensures configured && outcome.Threw? ==> r.Failure? && r.error.name == outcome.message
    ensures configured && (outcome.NoToken? || outcome == Token("")) ==> r.Failure? && r.error.name == invalidName
  {
    if configured then
      match outcome
      case Threw(m) => Failure(AuthError(m, LOGIN_ERROR))
      case Token(t) => if t != "" then Success("/") else Failure(AuthError(invalidName, LOGIN_ERROR))
      case NoToken => Failure(AuthError(invalidName, LOGIN_ERROR))
    else
      Failure(AuthError(PROVIDER_NOT_FOUND, LOGIN_ERROR))
  }

  /** Password and one-time-code sign-in agree on every outcome except a missing token, which only changes the error name. */
  lemma SignInVariantsAgree(configured: bool, outcome: SignInOutcome)
    ensures var password := SignInResult(configured, outcome, INVALID_CREDENTIALS);
            var otp := SignInResult(configured, outcome, INVALID_OTP);
            && password.Success? == otp.Success?
            && (password != otp <==> configured && (outcome.NoToken? || outcome == Token("")))
            && (password != otp ==> password.error.name == INVALID_CREDENTIALS && otp.error.name == INVALID_OTP)
  {
  }

  // ------------------------------------------------ handlers issuing vendor calls

  /** `handleLogOut`: signs out and resolves to redirect "/login"; if signing out raises, the rejection propagates. */
  function LogOut(vendor: AuthRequest -> Call): (h: Handled)
    ensures h.sent == [SignOut]
    ensures h.result.Some? <==> vendor(SignOut).Returned?
    ensures h.result.Some? ==> h.result.value == Success("/login")
  {
    Handled([SignOut], if vendor(SignOut).Returned? then Some(Success("/login")) else None)
  }

  /** The requests of `handleRegister`: create, send verification, then set the display name only for a created user with a non-empty name. */
  function RegisterPlan(args: RegisterArgs, hasUser: bool): seq<AuthRequest> {
    [CreateUser(args.email, args.password), SendVerification]
      + (if hasUser && Given(args.displayName) then [UpdateProfile(args.displayName.value)] else [])
  }

  /**
   * `handleRegister`: a "Register Error" carrying the message of the first call that raises;
   * else redirect "/" when a user was created, and nothing when none was.
   */
  function Register(args: RegisterArgs, hasUser: bool, vendor: AuthRequest -> Call): (h: Handled)
    ensures h.sent == Sent(RegisterPlan(args, hasUser), vendor)
    ensures h.result.None? <==> !hasUser && vendor(CreateUser(args.email, args.password)).Returned?
                                         && vendor(SendVerification).Returned?
    ensures h.result.Some? && h.result.value.Success? ==> h.result.value.redirectTo == "/" && hasUser
    ensures h.result.Some? && h.result.value.Failure? ==> h.result.value.error.name == "Register Error"
    ensures h.result.Some? ==> (h.result.value.Failure? <==> FirstRaise(RegisterPlan(args, hasUser), vendor).Some?)
    ensures h.result.Some? && h.result.value.Failure? ==>
              h.result.value.error.message == FirstRaise(RegisterPlan(args, hasUser), vendor).value
  {
    var plan := RegisterPlan(args, hasUser);
    var sent := Sent(plan, vendor);
    NoRaiseSendsAll(plan, vendor);
    match FirstRaise(plan, vendor)
    case Some(m) => Handled(sent, Some(Failure(AuthError("Register Error", m))))
    case None => Handled(sent, if hasUser then Some(Success("/")) else None)
  }

  /**
   * `handleResetPassword`: with an empty email no request and no result; otherwise one reset
   * request, resolving to redirect "/login" or a "Password Reset Error" with the raised message.
   */
  function ResetPassword(email: string, vendor: AuthRequest -> Call): (h: Handled)
    ensures email == "" ==> h == Handled([], None)
    ensures email != "" ==> h.sent == [SendPasswordReset(email)] && h.result.Some?
    ensures email != "" && vendor(SendPasswordReset(email)).Returned? ==> h.result == Some(Success("/login"))
    ensures email != "" && vendor(SendPasswordReset(email)).Raised? ==>
              h.result == Some(Failure(AuthError("Password Reset Error", vendor(SendPasswordReset(email)).message)))
  {
    if email == "" then Handled([], None)
    else
      match vendor(SendPasswordReset(email))
      case Returned => Handled([SendPasswordReset(email)], Some(Success("/login")))
      case Raised(m) => Handled([SendPasswordReset(email)], Some(Failure(AuthError("Password Reset Error", m))))
  }

  /** The position of a profile update in `onUpdateUserData`: password, then email, then display name. */
  function UpdateRank(q: AuthRequest): nat {
    match q
    case UpdatePassword(_) => 0
    case UpdateEmail(_) => 1
    case UpdateProfile(_) => 2
    case _ => 3
  }

  /**
   * The requests of `onUpdateUserData` for the current user: the password when one is given,
   * the email when given and different from the user's, the display name when given and
   * different from the user's, in that order.
   */
  function UpdatePlan(user: User, args: RegisterArgs): (plan: seq<AuthRequest>)
    ensures |plan| <= 3
    ensures forall i, j :: 0 <= i < j < |plan| ==> UpdateRank(plan[i]) < UpdateRank(plan[j])
    ensures UpdatePassword(args.password) in plan <==> args.password != ""
    ensures UpdateEmail(args.email) in plan <==> args.email != "" && user.email != Some(args.email)
    ensures (exists n :: UpdateProfile(n) in plan) <==> Given(args.displayName) && user.displayName != args.displayName
    ensures forall q :: q in plan ==>
              || q == UpdatePassword(args.password)
              || q == UpdateEmail(args.email)
              || (Given(args.displayName) && q == UpdateProfile(args.displayName.value))
  {
    (if args.password != "" then [UpdatePassword(args.password)] else [])
      + (if args.email != "" && user.email != Some(args.email) then [UpdateEmail(args.email)] else [])
      + (if Given(args.displayName) && user.displayName != args.displayName
         then [UpdateProfile(args.displayName.value)] else [])
  }

  // ------------------------------------------------ handlers that issue nothing

  /**
   * `handleCheckAuth` on the user reported by the first auth-state event: authenticated
   * exactly when there is one; otherwise a logout redirect to "/login" with "User not found".
   */
  function CheckAuth(firstEvent: Option<User>): (r: CheckResult)
    ensures r.Authenticated? <==> firstEvent.Some?
    ensures r.Unauthenticated? ==>
      && r.redirectTo == "/login" && r.logout
      && r.error == AuthError("User not found", "Check failed")
  {
    if firstEvent.Some? then Authenticated
    else Unauthenticated("/login", true, AuthError("User not found", "Check failed"))
  }

  /** `onError`: every error forces a logout and a redirect to "/login", passed through unchanged. */
  function OnError<E>(error: E): (r: ErrorResponse<E>)
    ensures r.error == error && r.redirectTo == "/login" && r.logout
  {
    ErrorResponse("/login", true, error)
  }

  function Project(user: User, id: Option<string>): Identity {
    Identity(OrEmpty(id), OrEmpty(user.displayName), OrEmpty(user.photoURL), user)
  }

  /** The identity of `getUserIdentity`: id from the email, name, avatar, each `""` when absent. */
  function EmailIdentity(user: User): (i: Identity)
    ensures i.user == user
    ensures Given(user.email) ==> i.id == user.email.value
    ensures !Given(user.email) ==> i.id == ""
    ensures Given(user.displayName) ==> i.name == user.displayName.value
    ensures !Given(user.displayName) ==> i.name == ""
    ensures Given(user.photoURL) ==> i.avatar == user.photoURL.value
    ensures !Given(user.photoURL) ==> i.avatar == ""
  {
    Project(user, user.email)
  }

  /** The identity of `getPhoneUserIdentity`: as the email identity, but the id is the phone number. */
  function PhoneIdentity(user: User): (i: Identity)
    ensures i == EmailIdentity(user).(id := OrEmpty(user.phoneNumber))
    ensures Given(user.phoneNumber) ==> i.id == user.phoneNumber.value
    ensures !Given(user.phoneNumber) ==> i.id == ""
  {
    Project(user, user.phoneNumber)
  }

  /**
   * `getUserIdentity`: the cached user's identity when one is cached; otherwise that of the user
   * of the first auth-state event; rejected (`None`) when that event reports no user.
   */
  function UserIdentity(cached: Option<User>, firstEvent: Option<User>, byPhone: bool): (r: Option<Identity>)
    ensures cached.Some? ==> r.Some? && r.value.user == cached.value
    ensures r.None? <==> cached.None? && firstEvent.None?
    ensures r.Some? ==> r.value == (if byPhone then PhoneIdentity(r.value.user) else EmailIdentity(r.value.user))
    ensures cached.None? && firstEvent.Some? ==> r.Some? && r.value.user == firstEvent.value
  {
    var user := if cached.Some? then cached else firstEvent;
    match user
    case None => None
    case Some(u) => Some(if byPhone then PhoneIdentity(u) else EmailIdentity(u))
  }

  // ------------------------------------------------------- the held client

  /**
   * The adapter with its vendor auth client. `configured` says whether a client is held;
   * `tenantId` and `persistence` are the client settings the sign-in handlers change.
   */
  class FirebaseAuth {
    const configured: bool
    var tenantId: Option<string>
    var persistence: Persistence

    constructor (configured: bool, tenantId: Option<string>, persistence: Persistence)
      ensures this.configured == configured && this.tenantId == tenantId && this.persistence == persistence
    {
      this.configured := configured;
      this.tenantId := tenantId;
      this.persistence := persistence;
    }

    /**
     * `handleLogIn`: with a client, sets the tenant when one is supplied and the persistence
     * mode from `remember`, then maps the sign-in outcome; without a client changes nothing.
     */
    method LogIn(args: LoginArgs, outcome: SignInOutcome) returns (r: AuthResult)
      modifies this
      ensures r == SignInResult(configured, outcome, INVALID_CREDENTIALS)
      ensures tenantId == if configured && Given(args.tenant) then args.tenant else old(tenantId)
      ensures persistence == if configured then PersistenceFor(args.remember) else old(persistence)
    {
      if configured {
        if Given(args.tenant) {
          tenantId := args.tenant;
        }
        persistence := PersistenceFor(args.remember);
      }
      r := SignInResult(configured, outcome, INVALID_CREDENTIALS);
    }

    /**
     * `handlePhoneOTPLogIn`: with a client, sets the persistence mode from `remember` (the
     * tenant is left alone), then maps the outcome of confirming the code.
     */
    method PhoneOtpLogIn(args: OtpLoginArgs, outcome: SignInOutcome) returns (r: AuthResult)
      modifies this
      ensures r == SignInResult(configured, outcome, INVALID_OTP)
      ensures tenantId == old(tenantId)
      ensures persistence == if configured then PersistenceFor(args.remember) else old(persistence)
    {
      if configured {
        persistence := PersistenceFor(args.remember);
      }
      r := SignInResult(configured, outcome, INVALID_OTP);
    }

    /** `requestOtp`: the confirmation handle, or nothing without a client or when the request throws. */
    function RequestOtp(args: OtpRequestArgs, outcome: Option<Confirmation>): (r: Option<Confirmation>)
      ensures r.Some? <==> configured && outcome.Some?
      ensures r.Some? ==> r == outcome
    {
      if configured then outcome else None
    }

    /**
     * `onUpdateUserData`: nothing without a client or a current user; otherwise the planned
     * updates are sent in order until one raises, which gives an "Update User Data" error;
     * when none raises, redirect to "/login" exactly when a password was supplied, else "/".
     */
    function UpdateUserData(args: RegisterArgs, currentUser: Option<User>, vendor: AuthRequest -> Call): (h: Handled)
      ensures !configured || currentUser.None? ==> h == Handled([], None)
      ensures configured && currentUser.Some? ==>
        && h.sent == Sent(UpdatePlan(currentUser.value, args), vendor)
        && h.result.Some?
      ensures h.result.Some? && h.result.value.Success? ==> (h.result.value.redirectTo == "/login" <==> args.password != "")
      ensures h.result.Some? && h.result.value.Success? ==> h.sent == UpdatePlan(currentUser.value, args)
      ensures h.result.Some? && h.result.value.Failure? ==>
        && h.result.value.error.name == "Update User Data"
        && |h.sent| > 0 && vendor(h.sent[|h.sent| - 1]) == Raised(h.result.value.error.message)
      ensures configured && currentUser.Some? ==>
        (h.result.value.Success? <==> FirstRaise(UpdatePlan(currentUser.value, args), vendor).None?)
      ensures configured && currentUser.Some? && h.result.value.Failure? ==>
        h.result.value.error.message == FirstRaise(UpdatePlan(currentUser.value, args), vendor).value
    {
      if configured && currentUser.Some? then
        var plan := UpdatePlan(currentUser.value, args);
        NoRaiseSendsAll(plan, vendor);
        match FirstRaise(plan, vendor)
        case Some(m) =>
          RaiseStopsSending(plan, vendor);
          Handled(Sent(plan, vendor), Some(Failure(AuthError("Update User Data", m))))
        case None => Handled(Sent(plan, vendor), Some(Success(if args.password != "" then "/login" else "/")))
      else
        Handled([], None)
    }

    /** `getPermissions`: the claims of the current user's token; nothing when no user is signed in. */
    function Permissions(currentUser: Option<User>, token: Option<TokenResult>): (r: Option<Claims>)
      ensures r.Some? <==> configured && currentUser.Some? && token.Some?
      ensures r.Some? ==> r.value == token.value.claims
    {
      if configured && currentUser.Some? && token.Some? then Some(token.value.claims) else None
    }
  }
}
