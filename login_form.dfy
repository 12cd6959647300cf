/**
 * The login handler. Its checks run in a fixed order: the input guard, the maintenance
 * gate (admins only), the active-member lookup with its lock check, the sign-in, the
 * recording of a failed sign-in, the reset of the failure count, the
 * `password_reset_required` short-circuit and the session check. Any failure ends the
 * attempt with one "Login failed" toast; `loading` is cleared in `finally`.
 * Every backend reply is an oracle, gathered in a `LoginWorld`.
 */
module LoginForm {
  import opened Wrappers
  import opened Text
  import opened Effects
  import opened Records
  import opened AuthUtils

  const StatusUnknownMessage := "Unable to verify system status"
  const MaintenanceDefault := "System is temporarily offline for maintenance"
  const AccountLockedPrefix := "Account locked. Too many failed attempts. Please try again after "
  const InvalidCredentialsMarker := "Invalid login credentials"
  const InvalidCredentialsMessage := "Invalid member number or password. Please check your credentials and try again."
  const NoSessionMessage := "Failed to establish session"
  const UnexpectedMessage := "An unexpected error occurred"
  const EmailDomain := "@temp.com"

  datatype MaintenanceRow = MaintenanceRow(isEnabled: bool, message: Option<string>)
  datatype MaintenanceReply = MaintenanceFailed(error: Failure) | MaintenanceData(row: Option<MaintenanceRow>)
  datatype SignInReply = SignInRejected(error: Failure) | SignedIn(userId: string)
  datatype FailedLoginReply = FailedLoginErrored(error: Failure) | FailedLoginData(locked: bool, lockoutDuration: string)
  datatype SessionReply = SessionErrored(error: Failure) | SessionData(session: Option<Session>)

  /** The replies of everything the handler consults, in the order it consults them. */
  datatype LoginWorld = LoginWorld(
    maintenance: MaintenanceReply,
    maintenanceSignIn: SignInReply,
    roles: Option<seq<string>>,
    members: seq<MemberRow>,
    memberQueryError: Option<Failure>,
    now: int,
    formatTime: int -> string,
    signIn: SignInReply,
    failedLogin: FailedLoginReply,
    resetRequired: Option<bool>,
    session: SessionReply)

  datatype LoginOutcome = LoginFailed(message: string) | ResetRequired | LoggedIn

  /** The effects of the `try` body and the outcome it ends with. */
  datatype Attempt = Attempt(effects: seq<Effect>, outcome: LoginOutcome)

  /** A stage's effects, and the outcome it ends the attempt with (None: go on). */
  datatype Step = Step(effects: seq<Effect>, stop: Option<LoginOutcome>)

  /** The handler does nothing while a login runs or when a field is blank after trimming. */
  predicate Ignored(loading: bool, memberNumber: string, password: string) {
    loading || !Truthy(Trim(memberNumber)) || !Truthy(Trim(password))
  }

  /** The auth email: the member number in lower case at the fixed domain. */
  function AuthEmail(memberNumber: string): string {
    ToLower(memberNumber) + EmailDomain
  }

  /** The auth email is the member number in lower case followed by the fixed domain. */
  lemma AuthEmailShape(memberNumber: string)
    ensures var email := AuthEmail(memberNumber);
      && |email| == |memberNumber| + |EmailDomain|
      && email[..|memberNumber|] == ToLower(memberNumber) && email[|memberNumber|..] == EmailDomain
      && forall i :: 0 <= i < |memberNumber| ==> !IsUpper(email[i])
  {
  }

  function MaintenanceMessage(row: MaintenanceRow): string {
    if row.message.Some? && Truthy(row.message.value) then row.message.value else MaintenanceDefault
  }

  predicate IsAdmin(roles: Option<seq<string>>) {
    roles.Some? && "admin" in roles.value
  }

  /** The maintenance gate: read the settings; when enabled, only an admin who can sign in passes. */
  function MaintenanceGate(memberNumber: string, password: string, w: LoginWorld): Step {
    var read := [Backend(ReadMaintenanceSettings)];
    match w.maintenance
    case MaintenanceFailed(_) => Step(read, Some(LoginFailed(StatusUnknownMessage)))
    case MaintenanceData(row) =>
      if row.None? || !row.value.isEnabled then Step(read, None)
      else
        var signIn := read + [Backend(SignInWithPassword(AuthEmail(memberNumber), password))];
        match w.maintenanceSignIn
        case SignInRejected(_) => Step(signIn, Some(LoginFailed(MaintenanceMessage(row.value))))
        case SignedIn(userId) =>
          var withRoles := signIn + [Backend(SelectRoles(userId))];
          if IsAdmin(w.roles) then Step(withRoles, None)
          else Step(withRoles, Some(LoginFailed(MaintenanceMessage(row.value))))
  }

  /** The message a failed main sign-in ends with: locked first, then invalid credentials. */
  function FailedSignInMessage(signInError: Failure, reply: FailedLoginReply): string {
    match reply
    case FailedLoginErrored(e) => e.message
    case FailedLoginData(locked, duration) =>
      if locked then AccountLockedPrefix + duration
      else if Contains(signInError.message, InvalidCredentialsMarker) then InvalidCredentialsMessage
      else signInError.message
  }

  /** Member verification, then the sign-in with the trimmed password, then the failure recording. */
  function CredentialStage(memberNumber: string, password: string, verification: Verification, w: LoginWorld): Step {
    var lookup := [Backend(SelectActiveMember(memberNumber))];
    match verification
    case Rejected(e) => Step(lookup, Some(LoginFailed(e.message)))
    case Verified(_) =>
      var signIn := lookup + [Backend(SignInWithPassword(AuthEmail(memberNumber), Trim(password)))];
      match w.signIn
      case SignedIn(_) => Step(signIn, None)
      case SignInRejected(err) =>
        Step(signIn + [Backend(HandleFailedLogin(memberNumber))], Some(LoginFailed(FailedSignInMessage(err, w.failedLogin))))
  }

  /** `verifyMember(memberNumber)` against the world's table, query error and clock. */
  function Verify(memberNumber: string, w: LoginWorld): Verification {
    VerifyMember(w.members, memberNumber, w.memberQueryError, w.now, w.formatTime)
  }

  const ResetRequiredToast := Toast(Info, "Password reset required", "Please set a new password for your account")
  const WelcomeToast := Toast(Info, "Login successful", "Welcome back!")

  /** After a successful sign-in: reset the failure count, the reset-required check, the session check. */
  function SessionStage(memberNumber: string, isMobile: bool, w: LoginWorld): Step {
    var reset := [Backend(ResetFailedLogin(memberNumber)), Backend(SelectPasswordResetRequired(memberNumber))];
    if w.resetRequired == Some(true) then Step(reset + [ResetRequiredToast], Some(ResetRequired))
    else
      var check := reset + [CancelQueries, ClearQueryCache, Backend(GetSession)];
      match w.session
      case SessionErrored(e) => Step(check, Some(LoginFailed(e.message)))
      case SessionData(None) => Step(check, Some(LoginFailed(NoSessionMessage)))
      case SessionData(Some(_)) =>
        Step(check + [InvalidateQueries(None), WelcomeToast, if isMobile then Redirect("/") else Navigate("/")],
             Some(LoggedIn))
  }

  /**
   * The body of the `try`: the stages in order, stopping at the first that ends the attempt
   * (a later stage's effects count only when the earlier stages let the attempt go on).
   */
  function Compose(gate: Step, cred: Step, sess: Step): (a: Attempt)
    ensures forall e :: e in a.effects ==> e in gate.effects || e in cred.effects || e in sess.effects
  {
    if gate.stop.Some? then Attempt(gate.effects, gate.stop.value)
    else if cred.stop.Some? then Attempt(gate.effects + cred.effects, cred.stop.value)
    else Attempt(gate.effects + cred.effects + sess.effects, sess.stop.GetOr(LoggedIn))
  }

  function Pipeline(memberNumber: string, password: string, isMobile: bool, w: LoginWorld): Attempt {
    Compose(MaintenanceGate(memberNumber, password, w), CredentialStage(memberNumber, password, Verify(memberNumber, w), w),
            SessionStage(memberNumber, isMobile, w))
  }

  function FailureToast(message: string): Effect {
    Toast(Destructive, "Login failed", if Truthy(message) then message else UnexpectedMessage)
  }

  /** Everything `handleLogin` does for the current fields, the `catch` toast included. */
  function LoginEffects(memberNumber: string, password: string, loading: bool, isMobile: bool, w: LoginWorld): seq<Effect> {
    if Ignored(loading, memberNumber, password) then []
    else
      var Attempt(effects, outcome) := Pipeline(memberNumber, password, isMobile, w);
      effects + (if outcome.LoginFailed? then [FailureToast(outcome.message)] else [])
  }

  /** An unreadable maintenance setting aborts before anything else is tried. */
  lemma MaintenanceErrorAborts(memberNumber: string, password: string, isMobile: bool, w: LoginWorld)
    requires w.maintenance.MaintenanceFailed?
    ensures Pipeline(memberNumber, password, isMobile, w)
            == Attempt([Backend(ReadMaintenanceSettings)], LoginFailed(StatusUnknownMessage))
  {
  }

  /**
   * In maintenance mode a failed sign-in or a user without the admin role is refused with
   * the configured message, before the member is ever looked up.
   */
  lemma MaintenanceRefusesBeforeLookup(memberNumber: string, password: string, isMobile: bool, w: LoginWorld)
    requires w.maintenance.MaintenanceData? && w.maintenance.row.Some? && w.maintenance.row.value.isEnabled
    requires w.maintenanceSignIn.SignInRejected? || !IsAdmin(w.roles)
    ensures var Attempt(effects, outcome) := Pipeline(memberNumber, password, isMobile, w);
      && outcome == LoginFailed(MaintenanceMessage(w.maintenance.row.value))
      && Backend(SelectActiveMember(memberNumber)) !in effects
  {
  }

  /** The messages of the maintenance gate: the configured one, or the default when it is empty. */
  lemma MaintenanceMessageDefault(row: MaintenanceRow)
    ensures MaintenanceMessage(row) != ""
    ensures (row.message.None? || row.message == Some("")) ==> MaintenanceMessage(row) == MaintenanceDefault
  {
  }

  /** Every sign-in the handler makes uses the auth email built from the member number. */
  lemma EverySignInUsesAuthEmail(memberNumber: string, password: string, isMobile: bool, w: LoginWorld)
    ensures var Attempt(effects, _) := Pipeline(memberNumber, password, isMobile, w);
      forall e :: e in effects && e.Backend? && e.call.SignInWithPassword? ==> e.call.email == AuthEmail(memberNumber)
  {
    GateSignInsUseAuthEmail(memberNumber, password, w);
    CredentialSignInsUseAuthEmail(memberNumber, password, Verify(memberNumber, w), w);
    SessionStageHasNoSignIn(memberNumber, isMobile, w);
  }

  lemma GateSignInsUseAuthEmail(memberNumber: string, password: string, w: LoginWorld)
    ensures forall e :: e in MaintenanceGate(memberNumber, password, w).effects && e.Backend? && e.call.SignInWithPassword? ==>
      e.call.email == AuthEmail(memberNumber)
  {
  }

  lemma CredentialSignInsUseAuthEmail(memberNumber: string, password: string, v: Verification, w: LoginWorld)
    ensures forall e :: e in CredentialStage(memberNumber, password, v, w).effects && e.Backend? && e.call.SignInWithPassword? ==>
      e.call.email == AuthEmail(memberNumber)
  {
  }

  lemma SessionStageHasNoSignIn(memberNumber: string, isMobile: bool, w: LoginWorld)
    ensures forall e :: e in SessionStage(memberNumber, isMobile, w).effects ==> !(e.Backend? && e.call.SignInWithPassword?)
  {
  }

  /**
   * A failed main sign-in always records the failure first; a locked reply gives the lock
   * message even when the sign-in error also says the credentials were invalid,
   * and the failure count is not reset.
   */
  lemma FailedSignInIsRecorded(memberNumber: string, password: string, isMobile: bool, w: LoginWorld)
    requires MaintenanceGate(memberNumber, password, w).stop.None?
    requires Verify(memberNumber, w).Verified?
    requires w.signIn.SignInRejected?
    ensures var Attempt(effects, outcome) := Pipeline(memberNumber, password, isMobile, w);
      && effects[|effects| - 1] == Backend(HandleFailedLogin(memberNumber))
      && Backend(ResetFailedLogin(memberNumber)) !in effects
      && (w.failedLogin.FailedLoginData? && w.failedLogin.locked ==>
            outcome == LoginFailed(AccountLockedPrefix + w.failedLogin.lockoutDuration))
      && (w.failedLogin.FailedLoginData? && !w.failedLogin.locked
          && Contains(w.signIn.error.message, InvalidCredentialsMarker) ==>
            outcome == LoginFailed(InvalidCredentialsMessage))
  {
  }

  /** A successful sign-in resets the failure count before the reset-required flag is read. */
  lemma ResetPrecedesRequiredCheck(memberNumber: string, password: string, isMobile: bool, w: LoginWorld)
    requires MaintenanceGate(memberNumber, password, w).stop.None?
    requires CredentialStage(memberNumber, password, Verify(memberNumber, w), w).stop.None?
    ensures var Attempt(effects, _) := Pipeline(memberNumber, password, isMobile, w);
      Precedes(effects, Backend(ResetFailedLogin(memberNumber)), Backend(SelectPasswordResetRequired(memberNumber)))
  {
    var gate := MaintenanceGate(memberNumber, password, w);
    var cred := CredentialStage(memberNumber, password, Verify(memberNumber, w), w);
    var sess := SessionStage(memberNumber, isMobile, w);
    GateOnlyCalls(memberNumber, password, w);
    CredentialOnlyCalls(memberNumber, password, Verify(memberNumber, w), w);
    SessionStageResetsFirst(memberNumber, isMobile, w);
    ComposeKeepsOrder(gate, cred, sess, Backend(ResetFailedLogin(memberNumber)), Backend(SelectPasswordResetRequired(memberNumber)));
  }

  /** The session stage begins with the failure-count reset, then the reset-required read. */
  lemma SessionStageResetsFirst(memberNumber: string, isMobile: bool, w: LoginWorld)
    ensures Precedes(SessionStage(memberNumber, isMobile, w).effects,
                     Backend(ResetFailedLogin(memberNumber)), Backend(SelectPasswordResetRequired(memberNumber)))
  {
    var effects := SessionStage(memberNumber, isMobile, w).effects;
    assert effects[0] == Backend(ResetFailedLogin(memberNumber));
    assert effects[1] == Backend(SelectPasswordResetRequired(memberNumber));
  }

  /** When the first two stages go on, an order in the session stage is an order of the whole attempt. */
  lemma ComposeKeepsOrder(gate: Step, cred: Step, sess: Step, a: Effect, b: Effect)
    requires gate.stop.None? && cred.stop.None?
    requires forall e :: e in gate.effects ==> e != a && e != b
    requires forall e :: e in cred.effects ==> e != a && e != b
    requires Precedes(sess.effects, a, b)
    ensures Precedes(Compose(gate, cred, sess).effects, a, b)
  {
    PrecedesAfterPrefix(gate.effects + cred.effects, sess.effects, a, b);
  }

  /** The maintenance gate only calls the backend, and never the calls of the later stages. */
  lemma GateOnlyCalls(memberNumber: string, password: string, w: LoginWorld)
    ensures forall e :: e in MaintenanceGate(memberNumber, password, w).effects ==>
      e.Backend? && (e.call.ReadMaintenanceSettings? || e.call.SignInWithPassword? || e.call.SelectRoles?)
  {
  }

  /** The credential stage only calls the backend: the lookup, the sign-in and the failure recording. */
  lemma CredentialOnlyCalls(memberNumber: string, password: string, v: Verification, w: LoginWorld)
    ensures forall e :: e in CredentialStage(memberNumber, password, v, w).effects ==>
      e.Backend? && (e.call.SelectActiveMember? || e.call.SignInWithPassword? || e.call.HandleFailedLogin?)
  {
  }

  /** The reset-required flag ends the attempt before cache clearing, the session check and navigation. */
  lemma ResetRequiredStopsEarly(memberNumber: string, password: string, isMobile: bool, w: LoginWorld)
    ensures var Attempt(effects, outcome) := Pipeline(memberNumber, password, isMobile, w);
      outcome == ResetRequired ==>
        && CancelQueries !in effects && ClearQueryCache !in effects
        && Backend(GetSession) !in effects
        && (forall e :: e in effects ==> !e.Navigate? && !e.Redirect?)
        && effects[|effects| - 1] == ResetRequiredToast
  {
    var gate := MaintenanceGate(memberNumber, password, w);
    var cred := CredentialStage(memberNumber, password, Verify(memberNumber, w), w);
    var sess := SessionStage(memberNumber, isMobile, w);
    GateOnlyCalls(memberNumber, password, w);
    CredentialOnlyCalls(memberNumber, password, Verify(memberNumber, w), w);
    SessionStageOnReset(memberNumber, isMobile, w);
    ComposeStopsAtReset(gate, cred, sess);
    assert Pipeline(memberNumber, password, isMobile, w) == Compose(gate, cred, sess);
  }

  /** When the session stage stops for a required reset, it has only called the backend and shown the reset toast. */
  lemma SessionStageOnReset(memberNumber: string, isMobile: bool, w: LoginWorld)
    ensures var sess := SessionStage(memberNumber, isMobile, w);
      sess.stop == Some(ResetRequired) ==>
        && sess.effects != [] && sess.effects[|sess.effects| - 1] == ResetRequiredToast
        && forall e :: e in sess.effects ==> (e.Backend? && !e.call.GetSession?) || e == ResetRequiredToast
  {
  }

  /** Stages that only call the backend (and show the reset toast) leave no cache clearing, session read or navigation. */
  lemma ComposeStopsAtReset(gate: Step, cred: Step, sess: Step)
    requires forall e :: e in gate.effects ==> e.Backend? && !e.call.GetSession?
    requires forall e :: e in cred.effects ==> e.Backend? && !e.call.GetSession?
    requires gate.stop != Some(ResetRequired) && cred.stop != Some(ResetRequired)
    requires sess.stop == Some(ResetRequired) ==>
      && sess.effects != [] && sess.effects[|sess.effects| - 1] == ResetRequiredToast
      && forall e :: e in sess.effects ==> (e.Backend? && !e.call.GetSession?) || e == ResetRequiredToast
    ensures var Attempt(effects, outcome) := Compose(gate, cred, sess);
      outcome == ResetRequired ==>
        && CancelQueries !in effects && ClearQueryCache !in effects
        && Backend(GetSession) !in effects
        && (forall e :: e in effects ==> !e.Navigate? && !e.Redirect?)
        && effects[|effects| - 1] == ResetRequiredToast
  {
  }

  /** The attempt logs in exactly when every stage passes and a session exists. */
  lemma LoggedInExactlyWhenAllChecksPass(memberNumber: string, password: string, isMobile: bool, w: LoginWorld)
    ensures Pipeline(memberNumber, password, isMobile, w).outcome == LoggedIn <==>
      && MaintenanceGate(memberNumber, password, w).stop.None?
      && Verify(memberNumber, w).Verified?
      && w.signIn.SignedIn?
      && w.resetRequired != Some(true)
      && w.session.SessionData? && w.session.session.Some?
    ensures var Attempt(effects, outcome) := Pipeline(memberNumber, password, isMobile, w);
      outcome == LoggedIn ==> effects[|effects| - 1] == (if isMobile then Redirect("/") else Navigate("/"))
  {
  }

  /** A missing session is reported as "Failed to establish session", with no navigation. */
  lemma MissingSessionFails(memberNumber: string, password: string, isMobile: bool, w: LoginWorld)
    requires MaintenanceGate(memberNumber, password, w).stop.None?
    requires CredentialStage(memberNumber, password, Verify(memberNumber, w), w).stop.None?
    requires w.resetRequired != Some(true) && w.session == SessionData(None)
    ensures var Attempt(effects, outcome) := Pipeline(memberNumber, password, isMobile, w);
      outcome == LoginFailed(NoSessionMessage) && effects[|effects| - 1] == Backend(GetSession)
  {
  }

  /** Every failed attempt shows exactly one "Login failed" toast, last, with a non-empty text. */
  lemma FailureEndsWithOneToast(memberNumber: string, password: string, isMobile: bool, w: LoginWorld)
    requires !Ignored(false, memberNumber, password)
    requires Pipeline(memberNumber, password, isMobile, w).outcome.LoginFailed?
    ensures var effects := LoginEffects(memberNumber, password, false, isMobile, w);
      var last := effects[|effects| - 1];
      last.Toast? && last.kind == Destructive && last.title == "Login failed" && last.description != ""
  {
  }

  /** The login form's state: the two fields, `loading`, and the trace. */
  class LoginFormState {
    var memberNumber: string
    var password: string
    var loading: bool
    var trace: seq<Effect>

    constructor ()
      ensures memberNumber == "" && password == "" && !loading && trace == []
    {
      memberNumber := "";
      password := "";
      loading := false;
      trace := [];
    }

    method RunMaintenanceGate(w: LoginWorld) returns (stop: Option<LoginOutcome>)
      modifies this
      ensures var gate := MaintenanceGate(memberNumber, password, w);
        trace == old(trace) + gate.effects && stop == gate.stop
      ensures memberNumber == old(memberNumber) && password == old(password) && loading == old(loading)
    {
      trace := trace + [Backend(ReadMaintenanceSettings)];
      if w.maintenance.MaintenanceFailed? {
        return Some(LoginFailed(StatusUnknownMessage));
      }
      var row := w.maintenance.row;
      if row.Some? && row.value.isEnabled {
        trace := trace + [Backend(SignInWithPassword(AuthEmail(memberNumber), password))];
        if w.maintenanceSignIn.SignInRejected? {
          return Some(LoginFailed(MaintenanceMessage(row.value)));
        }
        trace := trace + [Backend(SelectRoles(w.maintenanceSignIn.userId))];
        if !IsAdmin(w.roles) {
          return Some(LoginFailed(MaintenanceMessage(row.value)));
        }
      }
      return None;
    }

    method RunCredentialStage(w: LoginWorld) returns (stop: Option<LoginOutcome>)
      modifies this
      ensures var cred := CredentialStage(memberNumber, password, Verify(memberNumber, w), w);
        trace == old(trace) + cred.effects && stop == cred.stop
      ensures memberNumber == old(memberNumber) && password == old(password) && loading == old(loading)
    {
      trace := trace + [Backend(SelectActiveMember(memberNumber))];
      var member := Verify(memberNumber, w);
      if member.Rejected? {
        return Some(LoginFailed(member.error.message));
      }
      trace := trace + [Backend(SignInWithPassword(AuthEmail(memberNumber), Trim(password)))];
      if w.signIn.SignInRejected? {
        trace := trace + [Backend(HandleFailedLogin(memberNumber))];
        var message: string;
        match w.failedLogin {
          case FailedLoginErrored(e) =>
            message := e.message;
          case FailedLoginData(locked, duration) =>
            if locked {
              message := AccountLockedPrefix + duration;
            } else if Contains(w.signIn.error.message, InvalidCredentialsMarker) {
              message := InvalidCredentialsMessage;
            } else {
              message := w.signIn.error.message;
            }
        }
        return Some(LoginFailed(message));
      }
      return None;
    }

    method RunSessionStage(isMobile: bool, w: LoginWorld) returns (outcome: LoginOutcome)
      modifies this
      ensures var sess := SessionStage(memberNumber, isMobile, w);
        trace == old(trace) + sess.effects && outcome == sess.stop.GetOr(LoggedIn)
      ensures memberNumber == old(memberNumber) && password == old(password) && loading == old(loading)
    {
      trace := trace + [Backend(ResetFailedLogin(memberNumber)), Backend(SelectPasswordResetRequired(memberNumber))];
      if w.resetRequired == Some(true) {
        trace := trace + [ResetRequiredToast];
        return ResetRequired;
      }
      trace := trace + [CancelQueries, ClearQueryCache, Backend(GetSession)];
      match w.session {
        case SessionErrored(e) =>
          return LoginFailed(e.message);
        case SessionData(session) =>
          if session.None? {
            return LoginFailed(NoSessionMessage);
          }
      }
      trace := trace + [InvalidateQueries(None), WelcomeToast];
      if isMobile {
        trace := trace + [Redirect("/")];
      } else {
        trace := trace + [Navigate("/")];
      }
      return LoggedIn;
    }

    /** The body of the `try`: the three stages in order, stopping at the first that ends the attempt. */
    method RunAttempt(isMobile: bool, w: LoginWorld) returns (outcome: LoginOutcome)
      modifies this
      ensures var attempt := Pipeline(memberNumber, password, isMobile, w);
        trace == old(trace) + attempt.effects && outcome == attempt.outcome
      ensures memberNumber == old(memberNumber) && password == old(password) && loading == old(loading)
    {
      ghost var t0 := trace;
      ghost var gate := MaintenanceGate(memberNumber, password, w);
      ghost var cred := CredentialStage(memberNumber, password, Verify(memberNumber, w), w);
      ghost var sess := SessionStage(memberNumber, isMobile, w);
      var stop := RunMaintenanceGate(w);
      if stop.Some? {
        outcome := stop.value;
        return;
      }
      stop := RunCredentialStage(w);
      if stop.Some? {
        outcome := stop.value;
        AppendAssoc(t0, gate.effects, cred.effects);
        return;
      }
      outcome := RunSessionStage(isMobile, w);
      AppendAssoc(t0, gate.effects, cred.effects);
      AppendAssoc(t0, gate.effects + cred.effects, sess.effects);
    }

    /** `handleLogin`, on a device that is mobile or not, against the replies in `w`. */
    method HandleLogin(isMobile: bool, w: LoginWorld)
      modifies this
      ensures trace == old(trace) + LoginEffects(memberNumber, password, old(loading), isMobile, w)
      ensures loading == old(loading)
      ensures memberNumber == old(memberNumber) && password == old(password)
    {
      if loading || !Truthy(Trim(memberNumber)) || !Truthy(Trim(password)) {
        return;
      }
      loading := true;
      ghost var t0 := trace;
      ghost var attempt := Pipeline(memberNumber, password, isMobile, w);
      var outcome := RunAttempt(isMobile, w);
      ghost var tail := if outcome.LoginFailed? then [FailureToast(outcome.message)] else [];
      assert LoginEffects(memberNumber, password, false, isMobile, w) == attempt.effects + tail;
      if outcome.LoginFailed? {
        trace := trace + [FailureToast(outcome.message)];
      }
      assert trace == t0 + attempt.effects + tail;
      AppendAssoc(t0, attempt.effects, tail);
      loading := false;
    }
  }
}
