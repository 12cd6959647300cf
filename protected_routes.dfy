/**
 * `ProtectedRoutes`: the tab derived from the location, the admin-only sections and the
 * opaque role check, the access-denied toast shown at most once per mount, the tab
 * change handler, the authentication check on mount, and the sign-out redirect.
 */
module ProtectedRoutes {
  import opened Wrappers
  import opened Text
  import opened Effects

  const DashboardTab := "dashboard"
  const LoginPath := "/login"
  const DashboardPath := "/dashboard"
  const AdminRole := "admin"
  const SyncRolesName := "syncRoles"
  const DeniedToast := Toast(Destructive, "Access Denied", "You don't have permission to access this section.")

  /** `pathToTab(path)`: the second piece of `path.split('/')`, or "dashboard" when it is missing or empty. */
  function PathToTab(path: string): (tab: string)
    ensures tab != "" && '/' !in tab
  {
    var parts := Split(path, '/');
    if |parts| > 1 && Truthy(parts[1]) then parts[1] else DashboardTab
  }

  /** The path `onTabChange` navigates to: "/" for the dashboard, "/" + tab otherwise. */
  function TabPath(tab: string): string {
    if tab == DashboardTab then "/" else "/" + tab
  }

  /** The first piece of a split stops at the first separator. */
  lemma {:induction false} SplitHead(seg: string, rest: string, sep: char)
    requires sep !in seg && (rest == [] || rest[0] == sep)
    ensures Split(seg + rest, sep)[0] == seg
  {
    if seg == [] {
      assert seg + rest == rest;
    } else {
      assert (seg + rest)[1..] == seg[1..] + rest;
      assert sep !in seg[1..] by {
        assert forall c :: c in seg[1..] ==> c in seg;
      }
      SplitHead(seg[1..], rest, sep);
    }
  }

  /**
   * The tab of a path is its first segment: "/members/42" is on the "members" tab, and a path
   * with an empty first segment ("/" or "") is on the dashboard.
   */
  lemma TabIsFirstSegment(seg: string, rest: string)
    requires '/' !in seg && (rest == [] || rest[0] == '/')
    ensures PathToTab("/" + seg + rest) == if seg == "" then DashboardTab else seg
  {
    var path := "/" + seg + rest;
    assert path == ['/'] + (seg + rest);
    assert Split(path, '/') == [""] + Split(seg + rest, '/');
    SplitHead(seg, rest, '/');
  }

  /** Navigating to a tab's path lands on that tab: `pathToTab` inverts the tab-to-path mapping. */
  lemma TabPathRoundTrip(tab: string)
    requires tab != "" && '/' !in tab
    ensures PathToTab(TabPath(tab)) == tab
  {
    if tab == DashboardTab {
      TabIsFirstSegment("", "");
      assert "/" + "" + "" == "/";
    } else {
      TabIsFirstSegment(tab, "");
      assert "/" + tab + "" == "/" + tab;
    }
  }

  /** The sections only an admin may open, whatever the role check says. */
  predicate AdminOnly(tab: string) {
    tab == "system" || tab == "financials"
  }

  /** A tab is refused to these roles: an admin-only section without the admin role, or one the role check rejects. */
  predicate Refused(tab: string, roles: seq<string>, canAccessTab: string -> bool) {
    (AdminOnly(tab) && AdminRole !in roles) || !canAccessTab(tab)
  }

  /** Admin-only sections are refused to every non-admin, even when the role check would allow them. */
  lemma AdminOnlySectionsNeedAdmin(tab: string, roles: seq<string>, canAccessTab: string -> bool)
    requires AdminOnly(tab) && AdminRole !in roles
    ensures Refused(tab, roles, canAccessTab)
  {
  }

  /** The component's state; `mounted` is the auth effect's local flag. */
  datatype RouteState = RouteState(activeTab: string, hasShownAccessDenied: bool, isAuthChecking: bool,
                                   isInitialLoad: bool, mounted: bool)

  /** The denied toast, unless it was shown already. */
  function DeniedToastOnce(shown: bool): seq<Effect> {
    if shown then [] else [DeniedToast]
  }

  /** Access is checked only once the roles have loaded, the initial load is over, and roles exist. */
  predicate ChecksPath(s: RouteState, roleLoading: bool, userRoles: Option<seq<string>>) {
    !roleLoading && !s.isInitialLoad && userRoles.Some?
  }

  /**
   * The location effect: a refused tab shows the toast (once) and navigates to the dashboard,
   * leaving the active tab; otherwise, and whenever the check does not run, the tab becomes active.
   */
  function PathChange(s: RouteState, pathname: string, roleLoading: bool, userRoles: Option<seq<string>>,
                      canAccessTab: string -> bool): (RouteState, seq<Effect>)
  {
    var tab := PathToTab(pathname);
    if ChecksPath(s, roleLoading, userRoles) && Refused(tab, userRoles.value, canAccessTab) then
      (s.(hasShownAccessDenied := true), DeniedToastOnce(s.hasShownAccessDenied) + [Navigate(DashboardPath)])
    else (s.(activeTab := tab), [])
  }

  /**
   * `onTabChange(tab)`: once roles are loaded and exist, a refused tab shows the toast (once)
   * and nothing else happens; otherwise the router goes to the tab's path and the tab becomes active.
   */
  function TabChange(s: RouteState, tab: string, roleLoading: bool, userRoles: Option<seq<string>>,
                     canAccessTab: string -> bool): (RouteState, seq<Effect>)
  {
    if !roleLoading && userRoles.Some? && Refused(tab, userRoles.value, canAccessTab) then
      (s.(hasShownAccessDenied := true), DeniedToastOnce(s.hasShownAccessDenied))
    else (s.(activeTab := tab), [Navigate(TabPath(tab))])
  }

  /**
   * A refused path navigates to the dashboard and keeps the active tab; an unchecked or permitted
   * path becomes the active tab with no effect.
   */
  lemma PathChangeRedirectsRefusedTabs(s: RouteState, pathname: string, roleLoading: bool,
                                       userRoles: Option<seq<string>>, canAccessTab: string -> bool)
    ensures var (r, effects) := PathChange(s, pathname, roleLoading, userRoles, canAccessTab);
      var refused := ChecksPath(s, roleLoading, userRoles) && Refused(PathToTab(pathname), userRoles.value, canAccessTab);
      && (refused ==> r.activeTab == s.activeTab && r.hasShownAccessDenied
                      && effects[|effects| - 1] == Navigate(DashboardPath))
      && (!refused ==> r == s.(activeTab := PathToTab(pathname)) && effects == [])
  {
  }

  /**
   * A tab change the handler permits navigates to a path on which the location check, with the
   * same roles and the initial load over, permits the same tab, so the tab stays active.
   */
  lemma PermittedTabChangeIsNotRedirected(s: RouteState, tab: string, roles: seq<string>, canAccessTab: string -> bool)
    requires tab != "" && '/' !in tab && !s.isInitialLoad
    requires !Refused(tab, roles, canAccessTab)
    ensures var (r, effects) := TabChange(s, tab, false, Some(roles), canAccessTab);
      && effects == [Navigate(TabPath(tab))] && r.activeTab == tab
      && PathChange(r, TabPath(tab), false, Some(roles), canAccessTab) == (r, [])
  {
    TabPathRoundTrip(tab);
  }

  /** An input the component reacts to: a new location, or a tab picked in the layout. */
  datatype RouteInput =
    | PathInput(pathname: string, roleLoading: bool, userRoles: Option<seq<string>>, canAccessTab: string -> bool)
    | TabInput(tab: string, roleLoading: bool, userRoles: Option<seq<string>>, canAccessTab: string -> bool)

  function React(s: RouteState, input: RouteInput): (RouteState, seq<Effect>) {
    match input
    case PathInput(p, loading, roles, check) => PathChange(s, p, loading, roles, check)
    case TabInput(t, loading, roles, check) => TabChange(s, t, loading, roles, check)
  }

  /** The state and effects after reacting to the inputs in order. */
  function ReactAll(s: RouteState, inputs: seq<RouteInput>): (RouteState, seq<Effect>)
    decreases |inputs|
  {
    if inputs == [] then (s, [])
    else
      var (s1, e1) := React(s, inputs[0]);
      var (s2, e2) := ReactAll(s1, inputs[1..]);
      (s2, e1 + e2)
  }

  /** A location change shows the toast exactly when it sets the flag, and never clears the flag. */
  lemma PathChangeShowsToastWhenFlagSet(s: RouteState, pathname: string, roleLoading: bool,
                                        userRoles: Option<seq<string>>, canAccessTab: string -> bool)
    ensures var (r, effects) := PathChange(s, pathname, roleLoading, userRoles, canAccessTab);
      && (s.hasShownAccessDenied ==> r.hasShownAccessDenied)
      && Occurrences(effects, DeniedToast) == (if !s.hasShownAccessDenied && r.hasShownAccessDenied then 1 else 0)
  {
    SingleEffect(DeniedToast);
    SingleEffect(Navigate(DashboardPath));
    OccurrencesAppend(DeniedToastOnce(s.hasShownAccessDenied), [Navigate(DashboardPath)], DeniedToast);
  }

  /** A tab change shows the toast exactly when it sets the flag, and never clears the flag. */
  lemma TabChangeShowsToastWhenFlagSet(s: RouteState, tab: string, roleLoading: bool,
                                       userRoles: Option<seq<string>>, canAccessTab: string -> bool)
    ensures var (r, effects) := TabChange(s, tab, roleLoading, userRoles, canAccessTab);
      && (s.hasShownAccessDenied ==> r.hasShownAccessDenied)
      && Occurrences(effects, DeniedToast) == (if !s.hasShownAccessDenied && r.hasShownAccessDenied then 1 else 0)
  {
    SingleEffect(DeniedToast);
    SingleEffect(Navigate(TabPath(tab)));
  }

  /** Over any run of location and tab changes, the denied toast appears at most once, and not at all once shown. */
  lemma {:induction false} DeniedToastAtMostOnce(s: RouteState, inputs: seq<RouteInput>)
    ensures var (r, effects) := ReactAll(s, inputs);
      && Occurrences(effects, DeniedToast) == (if !s.hasShownAccessDenied && r.hasShownAccessDenied then 1 else 0)
      && (s.hasShownAccessDenied ==> r.hasShownAccessDenied)
    decreases |inputs|
  {
    if inputs != [] {
      var (s1, e1) := React(s, inputs[0]);
      match inputs[0] {
        case PathInput(p, loading, roles, check) => PathChangeShowsToastWhenFlagSet(s, p, loading, roles, check);
        case TabInput(t, loading, roles, check) => TabChangeShowsToastWhenFlagSet(s, t, loading, roles, check);
      }
      DeniedToastAtMostOnce(s1, inputs[1..]);
      OccurrencesAppend(e1, ReactAll(s1, inputs[1..]).1, DeniedToast);
    }
  }

  /**
   * `checkAuth()`: without a session, navigate to the login page (the checking flag stays
   * set); with one and while mounted, start the role sync and end both the auth check and
   * the initial load.
   */
  function AfterCheckAuth(s: RouteState, session: Option<Session>): (RouteState, seq<Effect>) {
    if session.None? then (s, [Navigate(LoginPath)])
    else if s.mounted then (s.(isAuthChecking := false, isInitialLoad := false), [Callback(SyncRolesName)])
    else (s, [])
  }

  /** The auth listener: after unmount nothing; a sign-out, or a refresh without a session, goes to the login page. */
  function AfterAuthEvent(s: RouteState, event: AuthEvent, current: Option<Session>): seq<Effect> {
    if s.mounted && (event.SignedOut? || (event.TokenRefreshed? && current.None?)) then [Navigate(LoginPath)] else []
  }

  /** What the component renders before the route check: a spinner, a redirect to the login page, or the check. */
  datatype View = Spinner | LoginRedirect | RouteCheck

  function Render(s: RouteState, roleLoading: bool, session: Option<Session>): View {
    if s.isAuthChecking || (s.isInitialLoad && roleLoading) then Spinner
    else if session.None? then LoginRedirect
    else RouteCheck
  }

  /**
   * The route is reached only with a session and after a successful auth check; a check
   * without a session redirects to the login page and leaves the spinner up.
   */
  lemma RouteNeedsSessionAndFinishedCheck(s: RouteState, roleLoading: bool, session: Option<Session>)
    ensures Render(s, roleLoading, session) == RouteCheck ==> session.Some? && !s.isAuthChecking
    ensures s.isAuthChecking ==>
      AfterCheckAuth(s, None) == (s, [Navigate(LoginPath)]) && Render(AfterCheckAuth(s, None).0, roleLoading, None) == Spinner
    ensures s.mounted && session.Some? ==> Render(AfterCheckAuth(s, session).0, roleLoading, session) == RouteCheck
  {
  }

  /** Appending an effect other than the denied toast leaves the toast count as it was. */
  lemma KeepsToastCount(trace: seq<Effect>, e: Effect)
    requires e != DeniedToast
    ensures Occurrences(trace + [e], DeniedToast) == Occurrences(trace, DeniedToast)
  {
    SingleEffect(e);
    OccurrencesAppend(trace, [e], DeniedToast);
  }

  /** The component's state as fields, with the effects performed so far. */
  class Routes {
    var activeTab: string
    var hasShownAccessDenied: bool
    var isAuthChecking: bool
    var isInitialLoad: bool
    var mounted: bool
    var trace: seq<Effect>

    function State(): RouteState
      reads this
    {
      RouteState(activeTab, hasShownAccessDenied, isAuthChecking, isInitialLoad, mounted)
    }

    /** The denied toast has been shown exactly when the flag says so. */
    predicate ToastShownIffFlag()
      reads this
    {
      Occurrences(trace, DeniedToast) == if hasShownAccessDenied then 1 else 0
    }

    constructor (pathname: string)
      ensures State() == RouteState(PathToTab(pathname), false, true, true, true) && trace == []
      ensures ToastShownIffFlag()
    {
      activeTab := PathToTab(pathname);
      hasShownAccessDenied := false;
      isAuthChecking := true;
      isInitialLoad := true;
      mounted := true;
      trace := [];
    }

    /** Both refusal branches of the source behave alike: toast unless shown, then set the flag. */
    method Deny()
      requires ToastShownIffFlag()
      modifies this
      ensures ToastShownIffFlag()
      ensures trace == old(trace) + DeniedToastOnce(old(hasShownAccessDenied))
      ensures State() == old(State()).(hasShownAccessDenied := true)
    {
      if !hasShownAccessDenied {
        SingleEffect(DeniedToast);
        OccurrencesAppend(trace, [DeniedToast], DeniedToast);
        trace := trace + [DeniedToast];
        hasShownAccessDenied := true;
      }
    }

    /** The effect that runs when the location (or the roles) change. */
    method OnPathChange(pathname: string, roleLoading: bool, userRoles: Option<seq<string>>, canAccessTab: string -> bool)
      requires ToastShownIffFlag()
      modifies this
      ensures ToastShownIffFlag()
      ensures var (after, effects) := PathChange(old(State()), pathname, roleLoading, userRoles, canAccessTab);
        State() == after && trace == old(trace) + effects
    {
      var newTab := PathToTab(pathname);
      if !roleLoading && !isInitialLoad && userRoles.Some? {
        if (AdminOnly(newTab) && AdminRole !in userRoles.value) || !canAccessTab(newTab) {
          ghost var t0 := trace;
          Deny();
          KeepsToastCount(trace, Navigate(DashboardPath));
          trace := trace + [Navigate(DashboardPath)];
          assert trace == t0 + (DeniedToastOnce(old(hasShownAccessDenied)) + [Navigate(DashboardPath)]);
          return;
        }
      }
      activeTab := newTab;
    }

    /** `onTabChange(tab)` as passed to the layout. */
    method OnTabChange(tab: string, roleLoading: bool, userRoles: Option<seq<string>>, canAccessTab: string -> bool)
      requires ToastShownIffFlag()
      modifies this
      ensures ToastShownIffFlag()
      ensures var (after, effects) := TabChange(old(State()), tab, roleLoading, userRoles, canAccessTab);
        State() == after && trace == old(trace) + effects
    {
      if !roleLoading && userRoles.Some? {
        if (AdminOnly(tab) && AdminRole !in userRoles.value) || !canAccessTab(tab) {
          Deny();
          return;
        }
      }
      var path := if tab == DashboardTab then "/" else "/" + tab;
      KeepsToastCount(trace, Navigate(path));
      trace := trace + [Navigate(path)];
      activeTab := tab;
    }

    /** `checkAuth()` with the session prop. */
    method CheckAuth(session: Option<Session>)
      requires ToastShownIffFlag()
      modifies this
      ensures ToastShownIffFlag()
      ensures var (after, effects) := AfterCheckAuth(old(State()), session);
        State() == after && trace == old(trace) + effects
    {
      if session.None? {
        KeepsToastCount(trace, Navigate(LoginPath));
        trace := trace + [Navigate(LoginPath)];
        return;
      }
      if mounted {
        KeepsToastCount(trace, Callback(SyncRolesName));
        trace := trace + [Callback(SyncRolesName)];
        isAuthChecking := false;
        isInitialLoad := false;
      }
    }

    /** The listener registered with `onAuthStateChange`. */
    method HandleAuthEvent(event: AuthEvent, current: Option<Session>)
      requires ToastShownIffFlag()
      modifies this
      ensures ToastShownIffFlag()
      ensures State() == old(State()) && trace == old(trace) + AfterAuthEvent(old(State()), event, current)
    {
      if !mounted {
        return;
      }
      if event.SignedOut? || (event.TokenRefreshed? && current.None?) {
        KeepsToastCount(trace, Navigate(LoginPath));
        trace := trace + [Navigate(LoginPath)];
      }
    }

    /** The effect's cleanup. */
    method Unmount()
      requires ToastShownIffFlag()
      modifies this
      ensures ToastShownIffFlag()
      ensures State() == old(State()).(mounted := false) && trace == old(trace)
    {
      mounted := false;
    }
  }
}
