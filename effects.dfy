/**
 * The observable effects of the core, recorded as a trace instead of performed:
 * calls to the backend (database, RPCs, identity provider), toasts, router
 * navigations, `window.location` redirects, storage and query-cache clearing,
 * timers and sleeps, and calls of the callbacks a component was given.
 */
module Effects {
  import opened Wrappers

  /** An authenticated session of the identity provider; only its user id matters here. */
  datatype Session = Session(userId: string)

  /** The events the identity provider reports to its listeners; those the core never tests are `OtherEvent`. */
  datatype AuthEvent = SignedIn | SignedOut | TokenRefreshed | OtherEvent(name: string)

  /** A thrown or returned backend error: its `message` and its optional `code`. */
  datatype Failure = Failure(message: string, code: Option<string>)

  /** Backend operations, named after the RPC or table they reach. */
  datatype Call =
    | ResetPasswordWithToken(token: string, newPassword: string)
    | ResetPasswordSelfService(memberNumber: string, newPassword: string, currentPassword: Option<string>)
    | ValidateResetToken(token: string)
    | GenerateMagicLinkToken(memberNumber: string)
    | ReadMaintenanceSettings
    | SelectActiveMember(memberNumber: string)
    | SelectRoles(userId: string)
    | SelectPasswordResetRequired(memberNumber: string)
    | HandleFailedLogin(memberNumber: string)
    | ResetFailedLogin(memberNumber: string)
    | SignInWithPassword(email: string, password: string)
    | SignOut
    | GetSession
    | InsertSyncAudit(userId: string)
    | PerformUserRolesSync
    | UpdateMemberStatus(memberId: string, status: string)
    | UpdateMemberCollector(memberId: string, collector: string)
    | UpdateMemberProfile(memberId: string)
    | UpdateQueueConfig(configId: string, dailyLimit: int, autoProcessInterval: int)

  /**
   * How one awaited backend call ended: it resolved without an error, it resolved
   * with an `{ error }`, or its promise rejected.
   */
  datatype CallOutcome = Ok | ReturnedError(error: Failure) | Threw(error: Failure)

  datatype ToastKind = Info | Destructive | Success | Error | Loading

  datatype Effect =
    | Backend(call: Call)
    | Toast(kind: ToastKind, title: string, description: string)
    | DismissToast
    | Navigate(path: string)
    | Redirect(href: string)
    | Sleep(ms: nat)
    | StartTimer(ms: nat)
    | ClearLocalStorage
    | ClearSessionStorage
    | RemoveStorageItem(storageKey: string)
    | ResetQueries
    | CancelQueries
    | ClearQueryCache
    | ClearNewQueryClient  // `new QueryClient().clear()`: a client made on the spot, not the application's
    | InvalidateQueries(queryKey: Option<string>)
    | WriteClipboard(text: string)
    | Callback(name: string)

  /** The number of backend calls in a trace. */
  function CallCount(trace: seq<Effect>): (n: nat)
    ensures n <= |trace|
  {
    if trace == [] then 0
    else (if trace[0].Backend? then 1 else 0) + CallCount(trace[1..])
  }

  /** A trace counts no call exactly when none of its effects is a backend call. */
  lemma {:induction false} NoCallCounted(trace: seq<Effect>)
    ensures CallCount(trace) == 0 <==> forall e :: e in trace ==> !e.Backend?
  {
    if trace != [] {
      NoCallCounted(trace[1..]);
      assert forall e :: e in trace <==> e == trace[0] || e in trace[1..];
    }
  }

  lemma {:induction false} CallCountAppend(a: seq<Effect>, b: seq<Effect>)
    ensures CallCount(a + b) == CallCount(a) + CallCount(b)
  {
    if a == [] {
      assert a + b == b;
    } else {
      assert (a + b)[1..] == a[1..] + b;
      CallCountAppend(a[1..], b);
    }
  }

  /**
   * Concatenation of traces is associative. Called rather than asserted where a handler
   * appends a sub-trace to its running trace, so the fact enters the proof without search.
   */
  lemma AppendAssoc(a: seq<Effect>, b: seq<Effect>, c: seq<Effect>)
    ensures (a + b) + c == a + (b + c)
  {
  }

  /** Index of the first occurrence of `e` in `trace`, or |trace| when it does not occur. */
  function IndexOf(trace: seq<Effect>, e: Effect): (i: nat)
    ensures i <= |trace|
    ensures i < |trace| ==> trace[i] == e
    ensures forall j :: 0 <= j < i ==> trace[j] != e
  {
    if trace == [] then 0
    else if trace[0] == e then 0
    else 1 + IndexOf(trace[1..], e)
  }

  /** `a` occurs in `trace`, and strictly before any occurrence of `b`. */
  predicate Precedes(trace: seq<Effect>, a: Effect, b: Effect) {
    IndexOf(trace, a) < |trace| && IndexOf(trace, a) < IndexOf(trace, b)
  }

  /** Searching past a prefix that does not hold `e` shifts the index by the prefix's length. */
  lemma {:induction false} IndexOfAfterPrefix(prefix: seq<Effect>, rest: seq<Effect>, e: Effect)
    requires e !in prefix
    ensures IndexOf(prefix + rest, e) == |prefix| + IndexOf(rest, e)
  {
    if prefix != [] {
      assert (prefix + rest)[1..] == prefix[1..] + rest;
      IndexOfAfterPrefix(prefix[1..], rest, e);
    } else {
      assert prefix + rest == rest;
    }
  }

  /** An order between two effects survives a prefix that holds neither of them. */
  lemma PrecedesAfterPrefix(prefix: seq<Effect>, rest: seq<Effect>, a: Effect, b: Effect)
    requires a !in prefix && b !in prefix && Precedes(rest, a, b)
    ensures Precedes(prefix + rest, a, b)
  {
    IndexOfAfterPrefix(prefix, rest, a);
    IndexOfAfterPrefix(prefix, rest, b);
  }

  /** The number of occurrences of `e` in `trace`. */
  function Occurrences(trace: seq<Effect>, e: Effect): (n: nat)
    ensures n <= |trace|
  {
    if trace == [] then 0
    else (if trace[0] == e then 1 else 0) + Occurrences(trace[1..], e)
  }

  lemma {:induction false} OccurrencesAppend(a: seq<Effect>, b: seq<Effect>, e: Effect)
    ensures Occurrences(a + b, e) == Occurrences(a, e) + Occurrences(b, e)
  {
    if a == [] {
      assert a + b == b;
    } else {
      assert (a + b)[1..] == a[1..] + b;
      OccurrencesAppend(a[1..], b, e);
    }
  }

  /** The durations of the sleeps in a trace, in order. */
  function Sleeps(trace: seq<Effect>): (r: seq<nat>)
    ensures |r| <= |trace|
  {
    if trace == [] then []
    else (if trace[0].Sleep? then [trace[0].ms] else []) + Sleeps(trace[1..])
  }

  lemma {:induction false} SleepsAppend(a: seq<Effect>, b: seq<Effect>)
    ensures Sleeps(a + b) == Sleeps(a) + Sleeps(b)
  {
    if a == [] {
      assert a + b == b;
    } else {
      assert (a + b)[1..] == a[1..] + b;
      assert (a + b)[0] == a[0];
      SleepsAppend(a[1..], b);
      calc {
        Sleeps(a + b);
        (if a[0].Sleep? then [a[0].ms] else []) + Sleeps(a[1..] + b);
        (if a[0].Sleep? then [a[0].ms] else []) + (Sleeps(a[1..]) + Sleeps(b));
      }
    }
  }

  /** A one-effect trace: its calls, its sleeps, and how often each effect occurs in it. */
  lemma SingleEffect(x: Effect)
    ensures CallCount([x]) == if x.Backend? then 1 else 0
    ensures Sleeps([x]) == (if x.Sleep? then [x.ms] else [])
    ensures forall e :: Occurrences([x], e) == if x == e then 1 else 0
  {
    assert [x][1..] == [];
  }
}
