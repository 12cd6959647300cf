/**
 * `useAuthSession`: the session, loading and logging-out state of the application, the
 * sign-out teardown with its re-entrancy guard, the reaction to identity-provider events,
 * and the initial session fetch.
 */
module AuthSession {
  import opened Wrappers
  import opened Effects

  const LoginPath := "/login"
  const UserRolesKey := "userRoles"

  /** The hook's state; `mounted` is the effect's local flag, cleared by its cleanup. */
  datatype AuthState = AuthState(session: Option<Session>, loading: bool, isLoggingOut: bool, mounted: bool)

  /** How `getSession()` ends: an error (returned or thrown), or the current session, possibly null. */
  datatype SessionFetch = FetchFailed(error: Failure) | Fetched(session: Option<Session>)

  const SignedOutToast := Toast(Info, "Signed Out", "You have been signed out.")

  /**
   * The effects of a sign-out that is not skipped: reset then clear the query cache, clear
   * both storages unless told not to, call the provider's `signOut`, and redirect to the
   * login page. If resetting the queries rejects, the `catch` clears both storages,
   * redirects, and shows a toast instead.
   */
  function SignOutEffects(skipStorageClear: bool, resetFails: bool): seq<Effect> {
    if resetFails then
      [ResetQueries, ClearLocalStorage, ClearSessionStorage, Redirect(LoginPath), SignedOutToast]
    else
      [ResetQueries, ClearQueryCache]
      + (if skipStorageClear then [] else [ClearLocalStorage, ClearSessionStorage])
      + [Backend(SignOut), Redirect(LoginPath)]
  }

  /**
   * `handleSignOut(skipStorageClear)` on the state. The provider's own answer is only logged,
   * so it does not appear here. The session is cleared before the provider is called; the
   * `catch` path never reaches that point and keeps it.
   */
  function AfterSignOut(s: AuthState, skipStorageClear: bool, resetFails: bool): (AuthState, seq<Effect>) {
    if s.isLoggingOut then (s, [])
    else
      (AuthState(if resetFails then s.session else None, false, false, s.mounted),
       SignOutEffects(skipStorageClear, resetFails))
  }

  /** A sign-out started while one is in progress returns at once, with no effect. */
  lemma SignOutIsNotReentrant(s: AuthState, skipStorageClear: bool, resetFails: bool)
    requires s.isLoggingOut
    ensures AfterSignOut(s, skipStorageClear, resetFails) == (s, [])
  {
  }

  /**
   * Any sign-out that starts redirects to the login page and ends with both flags cleared,
   * whatever happens on the way; when the cache reset succeeds the session is cleared and
   * the redirect comes last, otherwise the session is kept and the toast follows the redirect.
   */
  lemma SignOutAlwaysFinishes(s: AuthState, skipStorageClear: bool, resetFails: bool)
    requires !s.isLoggingOut
    ensures var (r, effects) := AfterSignOut(s, skipStorageClear, resetFails);
      && Redirect(LoginPath) in effects
      && !r.isLoggingOut && !r.loading && r.mounted == s.mounted
      && (!resetFails ==> r.session.None? && effects[|effects| - 1] == Redirect(LoginPath))
      && (resetFails ==> r.session == s.session && effects[|effects| - 2..] == [Redirect(LoginPath), SignedOutToast])
  {
    var effects := SignOutEffects(skipStorageClear, resetFails);
    assert effects[|effects| - 2] == Redirect(LoginPath) || effects[|effects| - 1] == Redirect(LoginPath);
  }

  /** The provider's `signOut` is called once when the cache reset succeeds, and not at all otherwise. */
  lemma SignOutCallsProviderOnce(skipStorageClear: bool, resetFails: bool)
    ensures CallCount(SignOutEffects(skipStorageClear, resetFails)) == if resetFails then 0 else 1
  {
    var effects := SignOutEffects(skipStorageClear, resetFails);
    if resetFails {
      NoCallCounted(effects);
    } else {
      var head := [ResetQueries, ClearQueryCache] + (if skipStorageClear then [] else [ClearLocalStorage, ClearSessionStorage]);
      NoCallCounted(head);
      CallCountAppend(head, [Backend(SignOut), Redirect(LoginPath)]);
    }
  }

  /**
   * The query cache is reset before it is cleared, and storage (when it is cleared) is
   * cleared before the provider's `signOut` is called; with `skipStorageClear` neither
   * storage is touched.
   */
  lemma StorageClearedBeforeProviderSignOut(skipStorageClear: bool)
    ensures var effects := SignOutEffects(skipStorageClear, false);
      && effects[0] == ResetQueries && effects[1] == ClearQueryCache
      && (!skipStorageClear ==>
            Precedes(effects, ClearLocalStorage, Backend(SignOut)) && Precedes(effects, ClearSessionStorage, Backend(SignOut)))
      && (skipStorageClear ==> ClearLocalStorage !in effects && ClearSessionStorage !in effects)
  {
    if !skipStorageClear {
      var effects := SignOutEffects(false, false);
      assert effects == [ResetQueries, ClearQueryCache, ClearLocalStorage, ClearSessionStorage, Backend(SignOut), Redirect(LoginPath)];
      assert IndexOf(effects, ClearLocalStorage) == 2;
      assert IndexOf(effects, ClearSessionStorage) == 3;
      assert IndexOf(effects, Backend(SignOut)) == 4;
    }
  }

  /**
   * The auth-state listener. After unmount it does nothing. A sign-out, or a token refresh
   * without a session, redirects to the login page and returns, leaving the state alone.
   * A sign-in, or a refresh with a session, stores the session and invalidates the user's
   * roles; every event that does not redirect ends the loading state.
   */
  function OnAuthStateChange(s: AuthState, event: AuthEvent, current: Option<Session>): (AuthState, seq<Effect>) {
    if !s.mounted then (s, [])
    else if event.SignedOut? || (event.TokenRefreshed? && current.None?) then (s, [Redirect(LoginPath)])
    else if event.SignedIn? || event.TokenRefreshed? then
      (s.(session := current, loading := false), [InvalidateQueries(Some(UserRolesKey))])
    else (s.(loading := false), [])
  }

  /** Events after unmount are ignored. */
  lemma UnmountedIgnoresEvents(s: AuthState, event: AuthEvent, current: Option<Session>)
    requires !s.mounted
    ensures OnAuthStateChange(s, event, current) == (s, [])
  {
  }

  /**
   * While mounted: the redirecting events change no state, and exactly they redirect; the
   * session-bearing events replace the session (never redirecting); loading is cleared by
   * every event that does not redirect.
   */
  lemma EventsRedirectOrUpdate(s: AuthState, event: AuthEvent, current: Option<Session>)
    requires s.mounted
    ensures var (r, effects) := OnAuthStateChange(s, event, current);
      var redirects := event.SignedOut? || (event.TokenRefreshed? && current.None?);
      && (Redirect(LoginPath) in effects <==> redirects)
      && (redirects ==> r == s && effects == [Redirect(LoginPath)])
      && (!redirects ==> !r.loading && r.isLoggingOut == s.isLoggingOut && r.mounted)
      && (!redirects && (event.SignedIn? || event.TokenRefreshed?) ==>
            r.session == current && effects == [InvalidateQueries(Some(UserRolesKey))])
      && (event.OtherEvent? ==> r.session == s.session && effects == [])
  {
  }

  /**
   * `initializeSession()`: the session is fetched whatever the state; once unmounted the answer
   * is dropped; otherwise a fetched session (possibly null) is stored, and on an error the
   * session is kept. Loading ends either way.
   */
  function AfterInitialize(s: AuthState, fetch: SessionFetch): (AuthState, seq<Effect>) {
    var effects := [Backend(GetSession)];
    if !s.mounted then (s, effects)
    else match fetch
      case FetchFailed(_) => (s.(loading := false), effects)
      case Fetched(current) => (s.(session := current, loading := false), effects)
  }

  /** A failed initialisation leaves the session as it was and ends loading; a successful one stores the answer. */
  lemma InitializationFailureKeepsSession(s: AuthState, fetch: SessionFetch)
    requires s.mounted
    ensures var (r, effects) := AfterInitialize(s, fetch);
      && !r.loading && r.isLoggingOut == s.isLoggingOut && CallCount(effects) == 1
      && (fetch.FetchFailed? ==> r.session == s.session)
      && (fetch.Fetched? ==> r.session == fetch.session)
  {
    SingleEffect(Backend(GetSession));
  }

  /** The hook's state as fields, with the effects performed so far. */
  class Hook {
    var session: Option<Session>
    var loading: bool
    var isLoggingOut: bool
    var mounted: bool
    var trace: seq<Effect>

    function State(): AuthState
      reads this
    {
      AuthState(session, loading, isLoggingOut, mounted)
    }

    /** `useState(null)`, `useState(true)`, `useState(false)`, and the effect's `mounted = true`. */
    constructor ()
      ensures State() == AuthState(None, true, false, true) && trace == []
    {
      session := None;
      loading := true;
      isLoggingOut := false;
      mounted := true;
      trace := [];
    }

    /**
     * The provider's `signOut`, called once the session is cleared; its error, returned or
     * thrown, is only logged.
     */
    method SignOutOfProvider(reply: CallOutcome)
      requires session.None?
      modifies this
      ensures trace == old(trace) + [Backend(SignOut)]
      ensures State() == old(State())
    {
      trace := trace + [Backend(SignOut)];
      match reply {
        case Ok =>
        case ReturnedError(_) =>
        case Threw(_) =>
      }
    }

    /** `handleSignOut(skipStorageClear)`; `resetFails` says whether `resetQueries()` rejects. */
    method HandleSignOut(skipStorageClear: bool, resetFails: bool, reply: CallOutcome)
      modifies this
      ensures var (after, effects) := AfterSignOut(old(State()), skipStorageClear, resetFails);
        State() == after && trace == old(trace) + effects
    {
      if isLoggingOut {
        return;
      }
      isLoggingOut := true;
      loading := true;
      trace := trace + [ResetQueries];
      if resetFails {
        trace := trace + [ClearLocalStorage, ClearSessionStorage, Redirect(LoginPath), SignedOutToast];
      } else {
        trace := trace + [ClearQueryCache];
        if !skipStorageClear {
          trace := trace + [ClearLocalStorage, ClearSessionStorage];
        }
        session := None;
        SignOutOfProvider(reply);
        trace := trace + [Redirect(LoginPath)];
      }
      isLoggingOut := false;
      loading := false;
    }

    /** The listener registered with `onAuthStateChange`. */
    method HandleAuthEvent(event: AuthEvent, current: Option<Session>)
      modifies this
      ensures var (after, effects) := OnAuthStateChange(old(State()), event, current);
        State() == after && trace == old(trace) + effects
    {
      if !mounted {
        return;
      }
      if event.SignedOut? || (event.TokenRefreshed? && current.None?) {
        trace := trace + [Redirect(LoginPath)];
        return;
      }
      if event.SignedIn? || event.TokenRefreshed? {
        session := current;
        trace := trace + [InvalidateQueries(Some(UserRolesKey))];
      }
      loading := false;
    }

    /** `initializeSession()` with the provider's answer. */
    method InitializeSession(fetch: SessionFetch)
      modifies this
      ensures var (after, effects) := AfterInitialize(old(State()), fetch);
        State() == after && trace == old(trace) + effects
    {
      trace := trace + [Backend(GetSession)];
      if mounted {
        match fetch {
          case FetchFailed(_) =>
            loading := false;
          case Fetched(current) =>
            session := current;
            loading := false;
        }
      }
    }

    /** The effect's cleanup: `mounted = false` (the subscription is dropped). */
    method Unmount()
      modifies this
      ensures State() == old(State()).(mounted := false) && trace == old(trace)
    {
      mounted := false;
    }
  }
}
