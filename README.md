# Membership platform: credential, session and role core in Dafny

This project models the front end of a membership platform built on a hosted database
and identity provider. Members sign in with a member number and a password. Several
components share the surrounding concerns:

- the login flow, with its maintenance gate, failed-login lockout and forced password reset;
- three password paths: self-service change, reset by emailed token, and a magic link issued by an admin;
- the session lifecycle (sign-in events, sign-out, logout);
- role synchronisation under bounded retry;
- role-based access to routes, links and rendered sections;
- the administrative screens for collectors, profiles, the email queue and payments.

Each source file of the core is one Dafny module in one file. `login_form.dfy`, for example,
models `useLoginForm.ts`. A few shared modules support them:

- `Wrappers`: `Option`.
- `Text`: JavaScript string operations on `seq<char>`, namely trim, ASCII case mapping,
  `includes`, first-occurrence `replace` and `split`.
- `Lists`: filter and count, with their algebra.
- `Effects`: the recorded effects of a component, such as backend calls, toasts,
  navigations, waits and storage clearing.
- `Records`: the `members` row and the row-level updates.

How the model is built:

- **Backend replies are parameters.** Supabase queries, RPCs and auth calls are not
  computed. A single call's answer is a value; a retry loop gets a function from the
  attempt number to that attempt's answer. The current time is an integer number of
  milliseconds.
- **Effects are a trace.** What a handler does to the outside world is a sequence of
  `Effect` values, in order.
- **Pure code becomes functions.** Schemas, filters, counters, access checks and render
  decisions are functions, with lemmas stating what the source promises.
- **Stateful code becomes classes.** Code that updates state step by step is a `class`
  whose fields are the component's state plus its trace; this covers hooks with
  `useState`, the form handlers and the edge function's table. Each method is proved
  against a pure specification function of the old state and the inputs, and the lemmas
  are stated about that function. The role-sync `while` loop and the email-queue update
  loop are `while` loops with invariants.

Some facts about the code that the model relies on:

- The new-password schema reports every failing rule, in the order the rules are declared,
  not just the first. A mismatch with the confirmation is reported even when other rules
  fail (src/components/auth/password/PasswordForm.tsx:13-25).
- In maintenance mode, login signs in with the typed password, then reads the user's
  roles, and only then decides whether to refuse.
- The failed-login count, the lockout threshold, token expiry and single use, and session
  invalidation after a reset all happen inside backend functions. The front end only
  reacts to their answers.
- Where the source's comments and its code differ, the model follows the code. The
  comment at src/hooks/useRoleSync.ts:74 says "Exponential backoff", but the waits there
  grow linearly: 2000 ms, then 3000 ms.

## Model

| member | source | states |
|---|---|---|
| PasswordPolicy.NewPasswordIssues | src/components/auth/password/PasswordForm.tsx:15-20 | the new password raises no issue exactly when it has at least 8 characters and one upper-case letter, one lower-case letter, one digit and one of the special characters; every issue is on `newPassword`, and a short password's first issue is the length message |
| PasswordPolicy.SchemaIssues | src/components/auth/password/PasswordForm.tsx:13-25 | the schema accepts exactly a policy-compliant new password equal to its confirmation; a mismatch always ends the list with "Passwords don't match" on `confirmPassword`, even when other rules failed |
| PasswordPolicy.CurrentPasswordNeverValidated | src/components/auth/password/PasswordForm.tsx:14 | the optional current password never changes the issues, so the token path validates without it |
| PasswordPolicy.MismatchIsTheOnlyIssue | src/components/auth/password/PasswordForm.tsx:21-25 | a compliant new password that differs from its confirmation fails with the mismatch issue alone |
| PasswordPolicy.ShortPasswordRejected | src/components/auth/password/PasswordForm.tsx:16 | "short1!" is rejected and its first issue is "Password must be at least 8 characters" |
| PasswordPolicy.ExamplePasswordAccepted | src/components/auth/password/PasswordForm.tsx:17-20 | "Valid1Pass!" passes every rule |
| PasswordForm.FailureMessage | src/components/auth/password/PasswordForm.tsx:98-106 | INVALID_CURRENT_PASSWORD gives "Current password is incorrect", MEMBER_NOT_FOUND gives "Member not found", any other result its non-empty error or "Failed to update password"; the message is never empty |
| PasswordForm.OnSubmitBypassesHook | src/components/auth/password/PasswordForm.tsx:83-86 | with an `onSubmit` prop no backend call and no toast happens; `onError` is called exactly when that promise rejects and the prop is given |
| PasswordForm.ReportMatchesResult | src/components/auth/password/PasswordForm.tsx:89-106 | without `onSubmit`, the success toast and the form reset happen exactly when the hook's result is a success; otherwise the error toast carries the mapped message |
| PasswordForm.NoFormToastInChain | src/components/auth/password/PasswordForm.tsx:92 | the hook's own chain, at any retry count, never shows the form's success toast, so that toast appears only from the form |
| PasswordForm.OnSuccessCalledTwiceOnSuccess | src/components/auth/password/PasswordForm.tsx:93-95 | on success `onSuccess` is called twice (by the hook and by the form); on any other outcome it is not called |
| PasswordForm.Form.constructor | src/components/auth/password/PasswordForm.tsx:57-69 | the form starts with three empty fields, no issues, an idle hook and nothing submitting |
| PasswordForm.Form.HandleFormSubmit | src/components/auth/password/PasswordForm.tsx:71-121 | the trace grows by exactly the submission's effects, the form is reset exactly on a reported success, and `isSubmitting` is false afterwards whatever happened |
| PasswordForm.Form.Dispatch | src/components/auth/password/PasswordForm.tsx:83-111 | the `onSubmit` prop when given, the hook otherwise; the hook is untouched on the `onSubmit` path |
| PasswordForm.Form.CallOnSubmit | src/components/auth/password/PasswordForm.tsx:83-84 | calls `onSubmit`, and `onError` when it rejects and the prop is given; the fields are untouched |
| PasswordForm.Form.ReportHookResult | src/components/auth/password/PasswordForm.tsx:86-110 | runs the hook from retry count 0 and appends its effects and the form's report; the fields are reset exactly on success |
| PasswordForm.Form.Submit | src/components/auth/password/PasswordForm.tsx:131 | the schema's issues are shown; invalid values change nothing else, valid ones run the handler and leave `isSubmitting` false |
| PasswordChange.RequestFor | src/components/auth/password/usePasswordChange.ts:40-63 | with a non-empty reset token the call goes to the token RPC with the token and the new password; otherwise it goes to the self-service RPC with the member number, the new and the current password (the audit metadata both also send is left out) |
| PasswordChange.Settle | src/components/auth/password/usePasswordChange.ts:79-122 | a settled reply is a success exactly when the RPC returned a response with `success`, then with code SUCCESS; a returned error keeps its message and code; an exception becomes UNEXPECTED_ERROR |
| PasswordChange.FirstSettled | src/components/auth/password/usePasswordChange.ts:75-76 | the first attempt below the ceiling whose reply is not a PGRST301 error, with every earlier attempt a contention error; none when all attempts up to the ceiling are |
| PasswordChange.RunSettlesOnFirstNonContention | src/components/auth/password/usePasswordChange.ts:23-126 | the handler resolves to the settled result of the first attempt without contention, or to null when every attempt up to the ceiling hit contention |
| PasswordChange.RunCalls | src/components/auth/password/usePasswordChange.ts:40-76 | the chain makes exactly one RPC call per attempt it reaches |
| PasswordChange.AtMostThreeCalls | src/components/auth/password/usePasswordChange.ts:17-28 | a chain started at any retry count makes at most 3 RPC calls |
| PasswordChange.CeilingReturnsNull | src/hooks/usePasswordChange.ts:36-40 | a call with retryCount of 3 or more resolves to null with the "Maximum retry attempts" toast and no backend call |
| PasswordChange.PersistentContentionGivesNull | src/hooks/usePasswordChange.ts:87-89 | when every attempt hits PGRST301, a fresh chain makes exactly 3 calls and resolves to null |
| PasswordChange.OtherErrorIsNotRetried | src/components/auth/password/usePasswordChange.ts:71-84 | any other returned error is reported at once with its message and code, after a single call |
| PasswordChange.EveryCallIsTheDispatchedRequest | src/components/auth/password/usePasswordChange.ts:40-63 | every RPC call of a chain, retries included, is the one the dispatch rule picks |
| PasswordChange.SuccessNavigatesOnlyForTokenResets | src/components/auth/password/usePasswordChange.ts:97-112 | a successful reply yields the SUCCESS record; `onSuccess` is called iff given, and the navigation to /login happens iff a reset token was used |
| PasswordChange.UnsuccessfulResponseIsFailure | src/components/auth/password/usePasswordChange.ts:88-95 | a missing response or `success: false` is a failure carrying the reply's code and its error or "Failed to change password", without navigation |
| PasswordChange.ExceptionIsUnexpectedError | src/components/auth/password/usePasswordChange.ts:114-122 | an exception resolves to UNEXPECTED_ERROR with the exception's message |
| PasswordChange.OnSuccessIffChainSucceeds | src/components/auth/password/usePasswordChange.ts:100-102 | across a whole chain, `onSuccess` is called exactly when the chain resolves to a success and the callback was given |
| PasswordChange.Hook.constructor | src/components/auth/password/usePasswordChange.ts:19-21 | the hook starts idle with an empty trace |
| PasswordChange.Hook.HandlePasswordChange | src/components/auth/password/usePasswordChange.ts:23-126 | the recursive handler's result and trace are those of the chain; `isSubmitting` is false after any call below the ceiling and untouched at the ceiling |
| PasswordChange.Hook.SettleReply | src/components/auth/password/usePasswordChange.ts:71-122 | a reply without contention yields its settled record and its effects, leaving `isSubmitting` to the `finally` |
| ResetPassword.Matches | src/pages/ResetPassword.tsx:27 | an anchored match of a string against a sequence of one-character classes accepts only strings of the pattern's length |
| ResetPassword.MatchesPositionwise | src/pages/ResetPassword.tsx:27 | the anchored match holds exactly when the lengths agree and every character is in its position's class |
| ResetPassword.PatternIsMemberNumberFormat | src/pages/ResetPassword.tsx:27-28 | `^[A-Z]{2}\d{5}$` accepts exactly seven characters: two capital letters, then five digits |
| ResetPassword.MemberNumberExamples | src/pages/ResetPassword.tsx:27 | "AB12345" has the format; "ab12345" and "AB123456" do not |
| ResetPassword.FieldError | src/pages/ResetPassword.tsx:36-44 | the field shows no error exactly when the (upper-cased) value is empty or has the format |
| ResetPassword.LowerCaseInputIsAccepted | src/pages/ResetPassword.tsx:37 | lower-case input is accepted because the field upper-cases it before validating |
| ResetPassword.FirstAnswered | src/pages/ResetPassword.tsx:46-68 | the first attempt of a chain that got data, with every earlier attempt an error; none when all attempts the chain reaches failed |
| ResetPassword.ValidationSettles | src/pages/ResetPassword.tsx:46-79 | a chain ends with the truthiness of the first answered attempt's data and records its 1-based number, or ends invalid with no attempt number when every attempt failed |
| ResetPassword.ValidationCalls | src/pages/ResetPassword.tsx:49-50 | the token RPC is called once per attempt: up to the first answered one, or up to the third attempt when none is answered |
| ResetPassword.AtMostThreeValidations | src/pages/ResetPassword.tsx:12 | from a fresh start the token RPC is called at most 3 times |
| ResetPassword.PersistentFailureSchedule | src/pages/ResetPassword.tsx:64-75 | three failures give waits of 1000 ms then 2000 ms, then the "Invalid Reset Link" toast and an invalid token |
| ResetPassword.Page.constructor | src/pages/ResetPassword.tsx:15-22 | the page starts loading, with no verdict, no attempts and an empty member-number field |
| ResetPassword.Page.ValidateMemberNumber | src/pages/ResetPassword.tsx:26-34 | returns whether the value has the format and sets the format error exactly when it does not; nothing else changes |
| ResetPassword.Page.HandleMemberNumberChange | src/pages/ResetPassword.tsx:36-44 | stores the upper-cased input and sets the field's error from it, leaving the token state alone |
| ResetPassword.Page.ValidateTokenWithRetry | src/pages/ResetPassword.tsx:46-79 | `isValidToken`, the attempt count and the trace follow the validation chain, and loading is over afterwards |
| ResetPassword.Page.OnMount | src/pages/ResetPassword.tsx:81-89 | without a non-empty token the link is invalid and no RPC is made; with one the chain runs from attempt 0 |
| AuthUtils.ActiveMatches | src/components/auth/login/utils/authUtils.ts:15-19 | the query keeps exactly the rows with that member number and status 'active', and is empty exactly when no such row exists |
| AuthUtils.VerifiedIsFirstUnlockedActiveRow | src/components/auth/login/utils/authUtils.ts:12-56 | a member is accepted exactly when the query succeeds, an active row with that number exists and the first such row is not locked now; the accepted member is that row |
| AuthUtils.MissingMemberIsNotFound | src/components/auth/login/utils/authUtils.ts:23-34 | no matching row, or the PGRST116 error, is reported as "Member not found or inactive" |
| AuthUtils.OtherQueryErrorIsRethrown | src/components/auth/login/utils/authUtils.ts:28 | any other query error is rethrown unchanged |
| AuthUtils.LockIsStrict | src/components/auth/login/utils/authUtils.ts:36-42 | at the instant `locked_until` is reached the member is accepted; one millisecond earlier the lock message with the formatted time is thrown, and it differs from the not-found message |
| AuthUtils.HandleSignInError | src/components/auth/login/utils/authUtils.ts:58-79 | a thrown error whose message lacks "refresh_token_not_found" is the original error, unchanged |
| AuthUtils.SignInRetriedOnlyForRefreshToken | src/components/auth/login/utils/authUtils.ts:60-78 | only a missing refresh token makes the helper clear the auth state (sign-out, a new query client, localStorage) and retry the sign-in once; a failed retry throws its error, and any other error is rethrown with no effect |
| LoginForm.AuthEmailShape | src/components/auth/login/useLoginForm.ts:45 | the auth email is the member number in lower case followed by "@temp.com", with no upper-case letter in the member-number part |
| LoginForm.MaintenanceErrorAborts | src/components/auth/login/useLoginForm.ts:33-41 | an unreadable maintenance setting ends the attempt with "Unable to verify system status" after that one read |
| LoginForm.MaintenanceRefusesBeforeLookup | src/components/auth/login/useLoginForm.ts:43-67 | in maintenance mode a failed sign-in or a user without the admin role is refused with the configured message, and the member is never looked up |
| LoginForm.MaintenanceMessageDefault | src/components/auth/login/useLoginForm.ts:54 | the maintenance message is never empty: an absent or empty configured message gives the default text |
| LoginForm.EverySignInUsesAuthEmail | src/components/auth/login/useLoginForm.ts:45-93 | every sign-in of the attempt, in the maintenance gate or the main one, uses the auth email built from the member number |
| LoginForm.GateSignInsUseAuthEmail | src/components/auth/login/useLoginForm.ts:45-50 | the maintenance gate signs in with the auth email |
| LoginForm.CredentialSignInsUseAuthEmail | src/components/auth/login/useLoginForm.ts:82-93 | the main sign-in uses the auth email |
| LoginForm.SessionStageHasNoSignIn | src/components/auth/login/useLoginForm.ts:125-178 | the steps after a successful sign-in never sign in again |
| LoginForm.FailedSignInIsRecorded | src/components/auth/login/useLoginForm.ts:95-123 | a failed main sign-in is followed by the failure recording and no reset of the failure count; a locked reply gives the lock message with the lockout duration, even when the error also says the credentials were invalid; otherwise an invalid-credentials error gives the friendly message |
| LoginForm.ResetPrecedesRequiredCheck | src/components/auth/login/useLoginForm.ts:125-134 | after a successful sign-in the failure count is reset before the reset-required flag is read |
| LoginForm.SessionStageResetsFirst | src/components/auth/login/useLoginForm.ts:126-132 | the session steps begin with the failure-count reset, then the reset-required read |
| LoginForm.GateOnlyCalls | src/components/auth/login/useLoginForm.ts:33-67 | the maintenance gate only reads the settings, signs in and reads roles |
| LoginForm.CredentialOnlyCalls | src/components/auth/login/useLoginForm.ts:73-123 | the credential steps only look the member up, sign in and record the failure |
| LoginForm.ResetRequiredStopsEarly | src/components/auth/login/useLoginForm.ts:134-141 | a required password reset ends the attempt with its toast, before the cache is cleared, the session is read or anything navigates |
| LoginForm.SessionStageOnReset | src/components/auth/login/useLoginForm.ts:134-141 | when the session steps stop for a reset, they have only called the backend and end with the reset toast |
| LoginForm.LoggedInExactlyWhenAllChecksPass | src/components/auth/login/useLoginForm.ts:19-178 | the attempt logs in exactly when the gate passes, the member is verified, the sign-in succeeds, no reset is required and a session exists; it then ends by redirecting (mobile) or navigating (desktop) to "/" |
| LoginForm.MissingSessionFails | src/components/auth/login/useLoginForm.ts:155-158 | a missing session fails with "Failed to establish session" right after the session read |
| LoginForm.FailureEndsWithOneToast | src/components/auth/login/useLoginForm.ts:179-191 | every failed attempt ends with one destructive "Login failed" toast whose text is not empty |
| LoginForm.LoginFormState.constructor | src/components/auth/login/useLoginForm.ts:12-14 | the fields start empty and `loading` false |
| LoginForm.LoginFormState.RunMaintenanceGate | src/components/auth/login/useLoginForm.ts:33-70 | the maintenance gate appends exactly its effects and stops as the gate says |
| LoginForm.LoginFormState.RunCredentialStage | src/components/auth/login/useLoginForm.ts:72-123 | verification, sign-in and failure recording append exactly their effects |
| LoginForm.LoginFormState.RunSessionStage | src/components/auth/login/useLoginForm.ts:125-178 | the steps after sign-in append exactly their effects and end the attempt as they say |
| LoginForm.LoginFormState.RunAttempt | src/components/auth/login/useLoginForm.ts:23-178 | the `try` body appends the attempt's effects, stopping at the first stage that ends it |
| LoginForm.LoginFormState.HandleLogin | src/components/auth/login/useLoginForm.ts:19-195 | `handleLogin` does nothing while loading or with a blank field; otherwise it performs the attempt plus the failure toast, and `loading` is false again at the end |
| RoleSync.AttemptFailure | src/hooks/useRoleSync.ts:53-84 | an attempt succeeds exactly when the audit insert does not throw and the sync RPC returns no error; a returned audit error does not count |
| RoleSync.FirstSynced | src/hooks/useRoleSync.ts:52-85 | the first successful attempt below the ceiling of three: every earlier one failed, and when there is none every attempt failed |
| RoleSync.LastAttempt | src/hooks/useRoleSync.ts:72-83 | the loop ends at the first successful attempt or at the third, with every earlier attempt failed |
| RoleSync.BackoffsBetween | src/hooks/useRoleSync.ts:73-74 | one wait per incremented counter value, each of 1000 × (counter + 1) ms |
| RoleSync.AttemptCalls | src/hooks/useRoleSync.ts:55-68 | an attempt makes exactly one audit insert, at most one sync RPC, and no wait |
| RoleSync.RetryStep | src/hooks/useRoleSync.ts:70-84 | a failed attempt below the ceiling is its calls, one wait, and the loop from the next counter value, with the same result |
| RoleSync.SyncStopsAtFirstSuccess | src/hooks/useRoleSync.ts:47-87 | the loop returns success at the first successful attempt after one audit insert per attempt made; when all three fail it throws the third attempt's error after three inserts |
| RoleSync.SyncWaits | src/hooks/useRoleSync.ts:73-83 | the waits are exactly the backoffs of the counter values passed on the way to the last attempt |
| RoleSync.PersistentFailureWaitsTwoThenThreeSeconds | src/hooks/useRoleSync.ts:72-83 | three failures wait 2000 ms and then 3000 ms (linear, despite the "exponential backoff" comment), make three inserts and throw the last error |
| RoleSync.AtMostOneRpcPerAudit | src/hooks/useRoleSync.ts:55-68 | the loop never makes more sync RPCs than audit inserts |
| RoleSync.AtMostThreeRpcCalls | src/hooks/useRoleSync.ts:50-52 | `perform_user_roles_sync` is called at most three times |
| RoleSync.AuditErrorIsIgnored | src/hooks/useRoleSync.ts:63-65 | a returned audit-insert error changes nothing about the run |
| RoleSync.SyncRetryStep | src/hooks/useRoleSync.ts:70-84 | a failed attempt below the ceiling, as a trace: its calls, the wait, then the rest of the loop |
| RoleSync.TryAttempt | src/hooks/useRoleSync.ts:55-68 | one pass makes the attempt's calls and reports its failure, if any |
| RoleSync.SyncRoles | src/hooks/useRoleSync.ts:47-88 | the `while` loop returns the result and calls of the bounded retry specification |
| RoleSync.RolesOf | src/hooks/useRoleSync.ts:38 | `map` keeps one role per row in the rows' order, and a role is listed exactly when some row carries it |
| RoleSync.StatusReportsNewestRole | src/hooks/useRoleSync.ts:20-39 | for rows in the query's `created_at` descending order, the status lists exactly the roles the user holds. A last-sync time, when present, is one row's creation time and no row was created later; it is null only with no rows or an empty newest creation time |
| RoleSync.RetryDelayIsCappedDoubling | src/hooks/useRoleSync.ts:41-42 | the status query's retry delay starts at 1 s, doubles, never decreases, is capped at 30 s from the sixth retry on, and its three retries wait 1, 2 and 4 s |
| CollectorSync.ErrorDeliveryIsIrrelevant | src/hooks/useCollectorSync.ts:18-40 | a returned RPC error and a thrown one are handled alike: replies that agree on success and on the error give the same run |
| CollectorSync.FirstOk | src/hooks/useCollectorSync.ts:12-40 | the first attempt below the ceiling whose call succeeds: every earlier one failed, and when there is none every attempt failed |
| CollectorSync.WaitsBetween | src/hooks/useCollectorSync.ts:24 | one wait per retry, of 1000 × (retryCount + 1) ms |
| CollectorSync.RetryStep | src/hooks/useCollectorSync.ts:22-26 | a failed attempt below the last is one call, one wait, and the recursion from the next count with the same result |
| CollectorSync.SyncStopsAtFirstOk | src/hooks/useCollectorSync.ts:12-41 | the recursion returns success at the first call without an error, after one call per attempt; when all fail it throws the last attempt's error after three calls; the waits follow every failed attempt but the last |
| CollectorSync.AtMostThreeCalls | src/hooks/useCollectorSync.ts:5 | `perform_user_roles_sync` is called at most three times |
| CollectorSync.PersistentFailureWaitsOneThenTwoSeconds | src/hooks/useCollectorSync.ts:22-39 | three failures wait 1000 ms and then 2000 ms and throw the third attempt's error |
| AuthSession.SignOutIsNotReentrant | src/hooks/useAuthSession.tsx:16-19 | a sign-out started while one is in progress returns at once with no effect |
| AuthSession.SignOutAlwaysFinishes | src/hooks/useAuthSession.tsx:21-71 | a sign-out that starts always redirects to the login page and ends with `loading` and `isLoggingOut` false; a successful cache reset clears the session and redirects last, a failed one keeps the session and shows the toast after the redirect |
| AuthSession.SignOutCallsProviderOnce | src/hooks/useAuthSession.tsx:39-52 | the provider's `signOut` is called once when the cache reset succeeds and not at all otherwise |
| AuthSession.StorageClearedBeforeProviderSignOut | src/hooks/useAuthSession.tsx:26-42 | the cache is reset then cleared; both storages are cleared before the provider's `signOut` unless `skipStorageClear`, and then neither is touched |
| AuthSession.UnmountedIgnoresEvents | src/hooks/useAuthSession.tsx:106 | auth events after unmount change nothing |
| AuthSession.EventsRedirectOrUpdate | src/hooks/useAuthSession.tsx:115-127 | exactly the sign-out and the session-less token refresh redirect, changing no state; a sign-in or refresh with a session stores it and invalidates the roles query; every other event only ends loading |
| AuthSession.InitializationFailureKeepsSession | src/hooks/useAuthSession.tsx:78-103 | initialisation fetches the session once; an error keeps the session, a reply stores it, and loading ends either way |
| AuthSession.Hook.constructor | src/hooks/useAuthSession.tsx:8-10 | no session, loading, not logging out, mounted |
| AuthSession.Hook.SignOutOfProvider | src/hooks/useAuthSession.tsx:39-52 | the provider's `signOut` is called once and its error, returned or thrown, changes no state |
| AuthSession.Hook.HandleSignOut | src/hooks/useAuthSession.tsx:14-72 | `handleSignOut` performs the sign-out's effects and leaves the state the sign-out specification gives |
| AuthSession.Hook.HandleAuthEvent | src/hooks/useAuthSession.tsx:105-128 | the listener performs exactly the event's effects and state change |
| AuthSession.Hook.InitializeSession | src/hooks/useAuthSession.tsx:78-103 | `initializeSession` performs the fetch and leaves the state the specification gives |
| AuthSession.Hook.Unmount | src/hooks/useAuthSession.tsx:132-135 | the cleanup only clears `mounted` |
| AuthLogout.LogoutToast | src/hooks/useAuthLogout.ts:25-47 | the toast is always an info "Signed Out"; its text is "Successfully logged out" exactly when `signOut` returned no error |
| AuthLogout.LogoutAlwaysNavigates | src/hooks/useAuthLogout.ts:8-53 | every outcome removes the token and clears both storages before the `signOut` call, shows one "Signed Out" toast, and ends by navigating to /login |
| AuthLogout.LogoutCallsProviderOnce | src/hooks/useAuthLogout.ts:23 | the provider's `signOut` is called exactly once, whatever it answers |
| AuthLogout.HandleLogout | src/hooks/useAuthLogout.ts:8-53 | `handleLogout` performs exactly the logout specification's effects |
| ProtectedRoutes.PathToTab | src/components/routing/ProtectedRoutes.tsx:27-30 | the tab of a path is never empty and never contains '/' |
| ProtectedRoutes.SplitHead | src/components/routing/ProtectedRoutes.tsx:28 | the first piece of a split stops at the first separator |
| ProtectedRoutes.TabIsFirstSegment | src/components/routing/ProtectedRoutes.tsx:27-30 | the tab is the path's first segment after the leading '/', or "dashboard" when that segment is empty |
| ProtectedRoutes.TabPathRoundTrip | src/components/routing/ProtectedRoutes.tsx:197 | navigating to a tab's path lands on that tab: the path-to-tab mapping inverts the tab-to-path one |
| ProtectedRoutes.AdminOnlySectionsNeedAdmin | src/components/routing/ProtectedRoutes.tsx:49 | "system" and "financials" are refused to every non-admin, whatever the role check says |
| ProtectedRoutes.PathChangeRedirectsRefusedTabs | src/components/routing/ProtectedRoutes.tsx:34-79 | once roles are loaded, the initial load is over and roles exist, a refused tab keeps the active tab, sets the shown flag and navigates to /dashboard; otherwise the path's tab becomes active with no effect |
| ProtectedRoutes.PermittedTabChangeIsNotRedirected | src/components/routing/ProtectedRoutes.tsx:169-200 | a permitted tab change navigates to the tab's path, and the location check then keeps that tab active without a redirect |
| ProtectedRoutes.PathChangeShowsToastWhenFlagSet | src/components/routing/ProtectedRoutes.tsx:49-75 | a location change shows the "Access Denied" toast exactly when it sets the shown flag, and never clears the flag |
| ProtectedRoutes.TabChangeShowsToastWhenFlagSet | src/components/routing/ProtectedRoutes.tsx:171-196 | a tab change shows the toast exactly when it sets the shown flag, and never clears the flag |
| ProtectedRoutes.DeniedToastAtMostOnce | src/components/routing/ProtectedRoutes.tsx:24 | over any run of location and tab changes the toast appears at most once per mount, and not at all once shown |
| ProtectedRoutes.RouteNeedsSessionAndFinishedCheck | src/components/routing/ProtectedRoutes.tsx:85-155 | the route is reached only with a session after the auth check ended; a check without a session navigates to /login and leaves the spinner up; with a session while mounted the check ends and the route is shown |
| ProtectedRoutes.Routes.constructor | src/components/routing/ProtectedRoutes.tsx:22-32 | the tab comes from the initial path; the check and the initial load are pending and no toast has been shown; the toast invariant holds from the start |
| ProtectedRoutes.Routes.Deny | src/components/routing/ProtectedRoutes.tsx:51-58 | a refusal shows the toast unless it was shown already, then sets the flag; the trace holds exactly one "Access Denied" toast when the flag is set and none otherwise, before and after |
| ProtectedRoutes.Routes.OnPathChange | src/components/routing/ProtectedRoutes.tsx:34-79 | the location effect performs exactly the location specification's effects and state change; the trace holds exactly one "Access Denied" toast when the flag is set and none otherwise, before and after |
| ProtectedRoutes.Routes.OnTabChange | src/components/routing/ProtectedRoutes.tsx:169-200 | `onTabChange` performs exactly the tab-change specification's effects and state change; the trace holds exactly one "Access Denied" toast when the flag is set and none otherwise, before and after |
| ProtectedRoutes.Routes.CheckAuth | src/components/routing/ProtectedRoutes.tsx:85-97 | `checkAuth` navigates to /login without a session, otherwise starts the role sync and ends the check and the initial load while mounted; the trace holds exactly one "Access Denied" toast when the flag is set and none otherwise, before and after |
| ProtectedRoutes.Routes.HandleAuthEvent | src/components/routing/ProtectedRoutes.tsx:114-128 | while mounted, exactly a sign-out or a session-less refresh navigates to /login; the state never changes; the trace holds exactly one "Access Denied" toast when the flag is set and none otherwise, before and after |
| ProtectedRoutes.Routes.Unmount | src/components/routing/ProtectedRoutes.tsx:130-133 | the cleanup only clears `mounted`; the trace holds exactly one "Access Denied" toast when the flag is set and none otherwise, before and after |
| RoleBasedRenderer.EveryMeansEachHeld | src/components/RoleBasedRenderer.tsx:30 | `every` holds exactly when each listed role is held |
| RoleBasedRenderer.HasAccess | src/components/RoleBasedRenderer.tsx:23-41 | an empty role list grants access; without `requireAllRoles` access is exactly `hasAnyRole` of the list |
| RoleBasedRenderer.RequireAllNeedsEveryRole | src/components/RoleBasedRenderer.tsx:29-30 | with `requireAllRoles` access holds exactly when the list is empty or every listed role is held |
| RoleBasedRenderer.AllRolesImpliesAnyRole | src/components/RoleBasedRenderer.tsx:29-31 | when `hasAnyRole` agrees with `hasRole`, whoever passes the all-roles check also passes the any-role check |
| RoleBasedRenderer.Render | src/components/RoleBasedRenderer.tsx:43 | the children are shown exactly when access holds (or the fallback is the children); without access the fallback is shown |
| RoleBasedRenderer.DefaultsShowChildren | src/components/RoleBasedRenderer.tsx:16-18 | with every prop at its default the children are shown |
| RoleBasedRenderer.DeniedWithoutFallbackShowsNothing | src/components/RoleBasedRenderer.tsx:18 | a denied user sees nothing when no fallback is given |
| SidePanel.FilteredLinks | src/components/SidePanel.tsx:46-55 | the shown links keep the fixed order of the four links, and a link is shown exactly when the role may see it |
| SidePanel.VisibilityTable | src/components/SidePanel.tsx:46-55 | Dashboard is visible to admins, collectors and members, Members and Financials to admins and collectors, System to admins only |
| SidePanel.LinksPerRole | src/components/SidePanel.tsx:15-55 | admins see all four links, collectors Dashboard, Members and Financials, members only Dashboard, and any other role or none sees nothing |
| SidePanel.AtMostOneActive | src/components/SidePanel.tsx:74-76 | the link targets are distinct, so two highlighted shown links are the same position: at most one is highlighted for any path |
| MembersListContent.IncludesMeansMember | src/components/members/MembersListContent.tsx:33-35 | `includes` holds exactly when the role is an element of the list |
| MembersListContent.PermissionsFollowRoles | src/components/members/MembersListContent.tsx:32-37 | each flag is set exactly when the role list is present and holds that role; `hasMultipleRoles` exactly when it is present with more than one entry |
| MembersListContent.OneRoleIsNotMultiple | src/components/members/MembersListContent.tsx:36 | a single role never counts as several, and an absent list sets no flag |
| MembersListContent.CardsFor | src/components/members/MembersListContent.tsx:48-57 | one card per member in list order, each passing its member's id to the edit and delete actions and sharing the page's role and flags |
| MembersListContent.RenderShowsCardsAndPagination | src/components/members/MembersListContent.tsx:39-72 | while loading only the spinner shows; otherwise one card per member with the derived flags; the pagination shows exactly when not loading, with members and more than one page, and gets the page numbers unchanged |
| SecurityHealth.AgePercentage | src/components/members/password/SecurityHealthPanel.tsx:28-30 | the password-age gauge is 0 when the password was never set, never above 100, full once ninety days have passed, and above 80 only when the exact age test says so |
| SecurityHealth.Score | src/components/members/password/SecurityHealthPanel.tsx:33-47 | the security score is never negative, and never above 100 for a non-negative count of failed attempts |
| SecurityHealth.ScoreIsDeductions | src/components/members/password/SecurityHealthPanel.tsx:34-46 | the score is 100 less ten per failed attempt and twenty per missing safeguard (unverified email, no 2FA, a password older than 80% of ninety days), floored at 0 |
| SecurityHealth.RecentOrUnsetPasswordIsNotDeducted | src/components/members/password/SecurityHealthPanel.tsx:28-44 | an unset password, or one set within the last 72 days, is not deducted and fills the gauge to at most 80 |
| SecurityHealth.ScoreIsMonotone | src/components/members/password/SecurityHealthPanel.tsx:37-41 | one more failed attempt never raises the score, and a missing 2FA or an unverified email never raises it either |
| SecurityHealth.BatteryThresholds | src/components/members/password/SecurityHealthPanel.tsx:49-54 | no failed attempts shows the full battery, one or two the medium, three or four the low, five or more the warning; more attempts never show a fuller battery |
| SecurityHealth.ScoreColour | src/components/members/password/SecurityHealthPanel.tsx:64-67 | the score shows green exactly above 80, red exactly at 60 or below, and yellow in between |
| SecurityHealth.ColourOfTypicalAccounts | src/components/members/password/SecurityHealthPanel.tsx:33-67 | a perfect account scores 100; one failed attempt still shows green, but a second one or a single missing safeguard shows yellow |
| StatusIndicators.AgeWarningAfterNinetyWholeDays | src/components/members/password/StatusIndicators.tsx:21-24 | the password-age badge warns exactly when a password is set and at least 91 whole days have passed; 90 days and 23 hours is still a success |
| StatusIndicators.BadgeVisibility | src/components/members/password/StatusIndicators.tsx:14-112 | Locked shows exactly while the lock ends strictly in the future; Reset Required exactly when the flag is set; the session badge reads Active Session only when the prop is true (it defaults to false); the last-login badge only with a login time; an unset password is a success |
| StatusIndicators.LockExpires | src/components/members/password/StatusIndicators.tsx:49 | a lock is shown before its end time and not from its end time on |
| MagicLink.LinkFor | src/components/auth/password/MagicLinkButton.tsx:30 | the link starts with the page origin followed by "/reset-password?token=" |
| MagicLink.LinkRoundTrip | src/components/auth/password/MagicLinkButton.tsx:30 | the token can be read back unchanged from the link built for it |
| MagicLink.GenerationOutcome | src/components/auth/password/MagicLinkButton.tsx:18-48 | every generation calls the RPC once for this member and ends with `isGenerating` false and one toast; a success stores the link built from origin and token, a failure keeps the previous link and shows the error's message |
| MagicLink.CopyOutcome | src/components/auth/password/MagicLinkButton.tsx:50-70 | without a link copying does nothing; with one the link is written to the clipboard; a successful write sets `isCopied` and starts the 3000 ms timer, a failed one only shows the error toast; the link never changes |
| MagicLink.GeneratedLinkCanBeCopied | src/components/auth/password/MagicLinkButton.tsx:30-54 | a generated link is never empty, so copying it always reaches the clipboard with that link |
| MagicLink.ButtonOf | src/components/auth/password/MagicLinkButton.tsx:74-111 | the generate button shows exactly while there is no link and is disabled while generating; the copy button shows "Copied!" exactly while `isCopied` |
| MagicLink.Component.constructor | src/components/auth/password/MagicLinkButton.tsx:13-15 | not generating, not copied, no link |
| MagicLink.Component.Generate | src/components/auth/password/MagicLinkButton.tsx:18-48 | `generateMagicLink` performs exactly the generation specification's effects and state change |
| MagicLink.Component.CopyToClipboard | src/components/auth/password/MagicLinkButton.tsx:50-70 | `copyToClipboard` performs exactly the copy specification's effects and state change |
| MagicLink.Component.CopiedTimerFires | src/components/auth/password/MagicLinkButton.tsx:62 | the timer only clears `isCopied` |
| Records.UpdateById | src/components/CollectorMembers.tsx:74-77 | the update keeps the table's length, patches every row with the given id and keeps every other row |
| Records.RowsOfCollector | src/components/CollectorMembers.tsx:41-44 | the select returns exactly the table's rows whose collector is the given name, in table order (a subsequence of the table) |
| CollectorMembers.IsAdmin | src/components/CollectorMembers.tsx:37 | the user is an administrator exactly when the role rows were returned and one of them is 'admin' |
| CollectorMembers.SomeAdminMeansMember | src/components/CollectorMembers.tsx:37 | `some(r => r.role === 'admin')` holds exactly when 'admin' is among the roles |
| CollectorMembers.VisibilityRule | src/components/CollectorMembers.tsx:27-68 | an administrator, or a collector whose own record carries the name, gets that collector's members or the select's error; anyone else gets an empty list without the members table being read; every returned row is in the table under that collector |
| CollectorMembers.NextStatus | src/components/CollectorMembers.tsx:192-195 | the toggle sets 'inactive' exactly for an active member and 'active' for any other status |
| CollectorMembers.ToggleTwiceRestores | src/components/CollectorMembers.tsx:192-195 | toggling an active or inactive member twice restores its status |
| CollectorMembers.StatusLabel | src/components/CollectorMembers.tsx:175 | the badge is never empty: a missing or empty status shows as 'pending', any other as itself |
| CollectorMembers.ItemOf | src/components/CollectorMembers.tsx:197 | the toggle reads "Deactivate" exactly when it would set 'inactive' |
| CollectorMembers.Render | src/components/CollectorMembers.tsx:127-154 | without a session nothing is rendered; a list is rendered only with members, one item per member |
| CollectorMembers.StatusChangeUpdatesOneMember | src/components/CollectorMembers.tsx:72-95 | a status change calls the backend once; a success gives the member's rows the new status, leaves the rest and refetches; a failure changes nothing and shows the error toast; the dialog is untouched |
| CollectorMembers.MoveNeedsMemberAndName | src/components/CollectorMembers.tsx:98 | without a selected member or with an empty collector name the move does nothing |
| CollectorMembers.MoveReassignsMember | src/components/CollectorMembers.tsx:97-125 | a move updates the selected member's collector; a success closes and clears the dialog, refetches, leaves every other row alone and takes the member off every other collector's list; a failure changes nothing but shows the error toast |
| CollectorMembers.Panel.constructor | src/components/CollectorMembers.tsx:21-23 | the dialog is closed with no selection and an empty name |
| CollectorMembers.Panel.ToggleStatus | src/components/CollectorMembers.tsx:192-195 | the toggle performs the status change with the next status |
| CollectorMembers.Panel.SelectForMove | src/components/CollectorMembers.tsx:200-203 | the move item selects the member and opens the dialog |
| CollectorMembers.Panel.EditNewCollector | src/components/CollectorMembers.tsx:227 | the input only sets the typed collector name |
| CollectorMembers.Panel.CancelMove | src/components/CollectorMembers.tsx:233 | Cancel only closes the dialog |
| CollectorMembers.Panel.MoveMember | src/components/CollectorMembers.tsx:97-125 | `handleMoveMember` performs exactly the move specification's effects and state change |
| EditProfile.Check | src/components/members/EditProfileDialog.tsx:23-41 | a rule gives no issue when it holds and one issue for its field when it fails |
| EditProfile.ProfileIssues | src/components/members/EditProfileDialog.tsx:22-42 | the schema reports no issue exactly when every rule holds, and at most one issue per field |
| EditProfile.PhoneIssueIffShort | src/components/members/EditProfileDialog.tsx:30-32 | the phone issue is reported exactly when the number has fewer than ten characters, whatever else is wrong |
| EditProfile.DateOfBirthIsOptional | src/components/members/EditProfileDialog.tsx:26 | the date of birth, present or absent, never changes the validation result |
| EditProfile.DefaultValues | src/components/members/EditProfileDialog.tsx:61-69 | each field starts as the member's value or "" when it is null; the date of birth is always present |
| EditProfile.ApplyProfileTouchesOnlyProfile | src/components/members/EditProfileDialog.tsx:77-88 | the update writes the profile fields and nothing else of the row; saving gives a row whose form defaults are the saved values |
| EditProfile.SubmitOutcome | src/components/members/EditProfileDialog.tsx:72-101 | `onProfileUpdated` and the closing call happen exactly when the update succeeds; a success patches the member's rows and nothing else, a failure keeps the table and shows the error's message or the fallback; `isSubmitting` ends false |
| EditProfile.Dialog.constructor | src/components/members/EditProfileDialog.tsx:57-70 | not submitting, with the given member and table |
| EditProfile.Dialog.Submit | src/components/members/EditProfileDialog.tsx:72-101 | `onSubmit`, reached through `handleSubmit` only with values the schema accepts, performs exactly the submit specification's effects and state change |
| EmailManagement.StatsOf | src/components/system/email/EmailManagementCard.tsx:27-33 | logs are counted by exact status and category, so pending + sent + failed and payment + general each stay within the number of logs |
| EmailManagement.StatsTally | src/components/system/email/EmailManagementCard.tsx:27-33 | no logs give zeros; one more log raises exactly the counter of its own status and of its own category by one |
| EmailManagement.StatsWindow | src/components/system/email/EmailManagementCard.tsx:20-23 | a log created more than 24 hours ago changes no counter; a recent one is tallied |
| EmailManagement.FilterEmails | src/components/system/email/EmailManagementCard.tsx:143-149 | the filtered list is absent exactly while the list is absent, and never longer than it |
| EmailManagement.AllShowsEverything | src/components/system/email/EmailManagementCard.tsx:143-145 | the filter 'all' shows the list unchanged |
| EmailManagement.OtherFilterKeepsCategory | src/components/system/email/EmailManagementCard.tsx:143-149 | any other filter keeps exactly the entries of that category, in their original order; entries without a category are hidden |
| EmailManagement.LeadingDigits | src/components/system/email/EmailManagementCard.tsx:130 | the longest run of decimal digits at the start of the text |
| EmailManagement.SkipSpaces | src/components/system/email/EmailManagementCard.tsx:130 | `parseInt` skips leading whitespace: the result is a suffix that does not start with whitespace, and everything dropped before it is whitespace. Whitespace is every ECMAScript WhiteSpace and LineTerminator code point, including all Zs space separators |
| EmailManagement.Unsigned | src/components/system/email/EmailManagementCard.tsx:130 | a number is read exactly when the text starts with a digit |
| EmailManagement.ValueOfShowNat | src/components/system/email/EmailManagementCard.tsx:130 | reading the decimal digits of a number gives the number back |
| EmailManagement.LeadingDigitsStopAtRest | src/components/system/email/EmailManagementCard.tsx:130 | the digit run stops at the first non-digit |
| EmailManagement.UnsignedShown | src/components/system/email/EmailManagementCard.tsx:130 | a written number followed by non-digit text reads as that number |
| EmailManagement.ParseShownNumber | src/components/system/email/EmailManagementCard.tsx:130 | `parseInt` of a written number followed by non-digit text ("12abc") gives the number |
| EmailManagement.ParseShownNegative | src/components/system/email/EmailManagementCard.tsx:130 | with a minus sign in front the same text gives the negated number |
| EmailManagement.NoDigitsIsNaN | src/components/system/email/EmailManagementCard.tsx:130-131 | a value without any digit, such as the empty field, is `NaN` |
| EmailManagement.AcceptedNumber | src/components/system/email/EmailManagementCard.tsx:130-131 | a value is accepted exactly when it parses to a number that is not negative, and that number is stored |
| EmailManagement.FindConfig | src/components/system/email/EmailManagementCard.tsx:133 | the config found has the requested id and comes from the list; none is found exactly when no config has that id |
| EmailManagement.ConfigPayloadRule | src/components/system/email/EmailManagementCard.tsx:129-141 | an update is issued exactly when the value is accepted and a config with that id is loaded; it replaces only the edited field with the number and copies the other from that config |
| EmailManagement.RejectedInputs | src/components/system/email/EmailManagementCard.tsx:130-134 | the empty value, a negative number, and an id with no loaded config issue no update |
| EmailManagement.AcceptedInputs | src/components/system/email/EmailManagementCard.tsx:130-140 | a written non-negative number for a config in the loaded list issues an update, and none while the configuration is not loaded |
| EmailManagement.ApplyConfig | src/components/system/email/EmailManagementCard.tsx:81-84 | the config update keeps the table's length, replaces the rows with the payload's id and keeps every other row |
| EmailManagement.ConfigUpdateOutcome | src/components/system/email/EmailManagementCard.tsx:79-102 | an ignored input changes nothing; a failed update shows the error's message and leaves the table; a successful one applies the payload, invalidates the queue-config query and shows the confirmation |
| EmailManagement.Card.constructor | src/components/system/email/EmailManagementCard.tsx:15 | the filter starts as 'all', with the configuration not yet loaded |
| EmailManagement.Card.SetFilter | src/components/system/email/EmailManagementCard.tsx:160 | the select only changes the filter |
| EmailManagement.Card.ConfigLoaded | src/components/system/email/EmailManagementCard.tsx:67-77 | the configuration query answers with the table's rows, which become the loaded configuration |
| EmailManagement.Card.HandleConfigUpdate | src/components/system/email/EmailManagementCard.tsx:129-141 | `handleConfigUpdate` with the mutation's outcome performs exactly the update specification's effects and state change |
| Text.ReplaceFirst | supabase/functions/process-email-queue/index.ts:33 | `replace` with a string pattern replaces only its first occurrence, and leaves the text unchanged when the pattern does not occur |
| Text.Trim | src/components/auth/login/useLoginForm.ts:21 | `trim` removes exactly the leading and trailing whitespace, and is empty exactly for all-whitespace text. Whitespace is every ECMAScript WhiteSpace and LineTerminator code point, including all Zs space separators such as U+3000 |
| Text.TrimIsInfix | src/components/auth/login/useLoginForm.ts:21 | what `trim` drops is whitespace at the two ends and nothing else: the result is an infix `s[i..j]` with only whitespace outside it |
| Text.TrimStripsUnicodeSpaces | src/components/auth/login/useLoginForm.ts:21 | a value typed with an ideographic space (U+3000) before it and an em space (U+2003) after it is trimmed to the bare value, as JavaScript `trim` does |
| Text.ToLower | src/components/auth/login/useLoginForm.ts:45 | lower-casing keeps the length and maps each character on its own |
| EmailQueue.Ids | supabase/functions/process-email-queue/index.ts:62 | the ids of the rows, one per row and in order |
| EmailQueue.MarkSent | supabase/functions/process-email-queue/index.ts:56-62 | the update marks every row whose id is listed as sent at the given time and keeps every other row |
| EmailQueue.PreflightTouchesNothing | supabase/functions/process-email-queue/index.ts:21-23 | an OPTIONS request is answered with status 200 and no body, makes no query and leaves the table alone |
| EmailQueue.MissingHeaderIsServerError | supabase/functions/process-email-queue/index.ts:27-30 | a missing or empty Authorization header is answered with status 500 and its message, with no query; only "Unauthorized" maps to 401 |
| EmailQueue.TokenIsHeaderWithoutBearer | supabase/functions/process-email-queue/index.ts:33-36 | the token checked is the header with its first "Bearer " removed; "Bearer t" gives t, and a header without "Bearer " is used whole |
| EmailQueue.BearerStripped | supabase/functions/process-email-queue/index.ts:33 | removing "Bearer " from "Bearer " + t leaves t |
| EmailQueue.StatusRule | supabase/functions/process-email-queue/index.ts:72-95 | the status is 200, 401 or 500; 401 exactly when the error message is "Unauthorized", 200 exactly when there is no error |
| EmailQueue.PendingIds | supabase/functions/process-email-queue/index.ts:42-62 | with unique ids, a row's id is among the pending ids exactly when the row is pending |
| EmailQueue.CompletedRunSendsPending | supabase/functions/process-email-queue/index.ts:42-83 | after a run answered with 200 every row that was pending is sent at that time, every other row is unchanged, none is still pending, and `processed` is the number of pending rows; any other answer leaves the table unchanged |
| EmailQueue.NothingPendingNoUpdate | supabase/functions/process-email-queue/index.ts:55 | with no pending rows no update is issued, the table is unchanged and a successful run reports 0 processed |
| EmailQueue.EmailLogs.constructor | supabase/functions/process-email-queue/index.ts:12-15 | the table holds the given rows |
| EmailQueue.EmailLogs.Serve | supabase/functions/process-email-queue/index.ts:17-97 | the handler answers, queries and updates the table exactly as the handler specification says |
| PaymentTracking.StatsOf | src/components/financials/PaymentTrackingSection.tsx:22-24 | `totalPayments` is the number of fetched records, and approved plus pending never exceed it |
| PaymentTracking.StatsTally | src/components/financials/PaymentTrackingSection.tsx:22-24 | one more record raises the total by one, and the approved or pending count by one exactly when its status is exactly 'approved' or 'pending' |
| PaymentTracking.SectionOf | src/components/financials/PaymentTrackingSection.tsx:35-60 | the spinner shows exactly while loading; missing stats show 0 for each count; otherwise the counters are the fetched totals |
| PaymentTracking.OtherStatusesCountOnlyInTotal | src/components/financials/PaymentTrackingSection.tsx:22-24 | records with any other status count towards the total only |
| Text.ToUpper | src/pages/ResetPassword.tsx:37 | upper-casing keeps the length and maps each character on its own |
| Text.Split | src/components/routing/ProtectedRoutes.tsx:28 | a split gives at least one piece, and no piece contains the separator |
| Text.JoinSplit | src/components/routing/ProtectedRoutes.tsx:28 | joining the pieces of a split with the separator gives the string back |
| Text.SplitWithoutSeparator | src/components/routing/ProtectedRoutes.tsx:28 | a string without the separator is its own single piece |

## Left out

- I/O and foreign calls: Supabase queries, RPCs and auth; the query client; `localStorage` and `sessionStorage`; `window.location`; the router; toasts; the clipboard. Each is recorded as an effect or supplied as a parameter.
- Backend functions are oracles: `handle_failed_login`, `reset_failed_login`, `handle_password_reset`, `handle_password_reset_with_token`, `validate_reset_token`, `generate_magic_link_token` and `perform_user_roles_sync`. The lockout counter, token expiry and single use, and role-ledger syncing live there and are not modelled. `handle_failed_login` is taken to answer with either an error or a data object: a null `data` would make `.locked` throw a TypeError (src/components/auth/login/useLoginForm.ts:111-114), whose message the failure toast would show. That case is not modelled.
- Real time is not modelled. Timers appear in two forms:
  - An awaited wait is recorded as a `Sleep` effect of its duration. These are the role-sync waits (src/hooks/useRoleSync.ts:74,83) and the collector-sync waits (src/hooks/useCollectorSync.ts:24,36).
  - A `setTimeout` callback is recorded as a `StartTimer` effect of its delay. The token-validation retry (src/pages/ResetPassword.tsx:66) is followed in the trace by the retry it schedules, as if the timer had fired. The 3000 ms reset of `isCopied` (src/components/auth/password/MagicLinkButton.tsx:62) runs as the separate method `MagicLink.Component.CopiedTimerFires`.
- Concurrency and React scheduling are not modelled. This covers:
  - interleaved handlers and stale closures, such as a second sign-out reading an old `isLoggingOut` (src/hooks/useAuthSession.tsx:16);
  - re-renders and effect dependency lists;
  - `isSubmitting` being cleared by an outer `finally` while a recursive retry is still running (src/components/auth/password/usePasswordChange.ts:123-125).
- Each handler runs to completion against its parameters. The `mounted` flags are fields that `Unmount` clears.
- Floating point is left out:
  - the password-age percentage is computed in integer milliseconds, rounded down, and compared exactly;
  - `totalAmount` and its `toFixed(2)` display are not modelled (src/components/financials/PaymentTrackingSection.tsx:21,63).
- Third-party semantics are parameters:
  - zod's `.email()` is the predicate `isEmail`;
  - `hasRole`, `hasAnyRole` and `canAccessTab` from the role hook are parameters;
  - date formatting for the lock message is the parameter `formatTime`.
- Lengths are counted in characters, not UTF-16 code units. Letter classes cover ASCII only.
- Text.ToUpper / Text.ToLower: only ASCII letters are mapped. JavaScript's full Unicode mappings differ in two ways that reach the core:
  - `"ß12345".toUpperCase()` is `"SS12345"`, which passes `^[A-Z]{2}\d{5}$` on the reset page (src/pages/ResetPassword.tsx:27,37); the model reports a format error for it.
  - The Kelvin sign U+212A lower-cases to `k` in the sign-in email (src/components/auth/login/useLoginForm.ts:45); the model leaves it unchanged.
- `EmailManagement.ParseInt`: decimal only. JavaScript's `parseInt` also reads a `0x` prefix as hexadecimal; that case is not modelled.
- PaymentTracking and EmailManagement date windows are parameters:
  - the 30-day window of the payment query is computed from the calendar, so the fetched rows are the input;
  - the 24-hour window of the email stats is an integer comparison against `now`.
- Query ordering (`order('created_at', …)`) is taken as given: the rows are passed in the order the query returns them.
- The render branch at src/components/routing/ProtectedRoutes.tsx:159-162 is not modelled. It calls `canAccessTab` and `getDefaultRoute`, which this file neither defines nor imports.
- The `catch` of `checkAuth` (src/components/routing/ProtectedRoutes.tsx:98-108) is not modelled. The role-sync `mutate` it awaits does not reject, so that branch is never reached.
- The final `throw` after the role-sync loop (src/hooks/useRoleSync.ts:87) is not modelled, because the loop always returns or throws first.
- The status query's own steps are not modelled: the user lookup and the rethrown query error (src/hooks/useRoleSync.ts:17-29). Only the mapping of its rows and its retry delays are.
- The mutation's `meta.onSuccess` and `meta.onError` callbacks are not modelled (src/hooks/useRoleSync.ts:89-114, src/hooks/useCollectorSync.ts:45-69). React Query does not invoke callbacks placed under `meta`.
- `handleSignInError` (src/components/auth/login/utils/authUtils.ts:58-79) is modelled on its own. `handleLogin` never calls it.
- `clearAuthState` clears a newly constructed query client, not the application's. Its effect is recorded as `ClearNewQueryClient`.
- In `handleSignOut`, only a rejection of `resetQueries` is modelled as the way into the outer `catch`. A throw from `clear()` or from storage clearing would take the same path.
- `EmailQueue.CompletedRunSendsPending` requires unique row ids, as the table's primary key guarantees. The update by id list is taken to be atomic.
- `processQueue` in src/components/system/email/EmailManagementCard.tsx:104-127 is not modelled. It invokes the edge function and reports its answer; the edge function itself is modelled in `EmailQueue`.
- The pending and sent email lists and their rendering are not modelled beyond the category filter.
- On the reset page, the submit handlers `handleSuccess` and `handleError` are not modelled (src/pages/ResetPassword.tsx:91-111). They only show toasts and navigate.
- `CollectorMembers` shows the query error's message only when it is an `Error` instance. The model always shows the message.
- PasswordChange.RequestFor: the audit metadata each password RPC also receives is not modelled (src/components/auth/password/usePasswordChange.ts:45-50,56-61). These are `ip_address: null`, `user_agent` and `client_info`, holding the time, browser and platform. They come from the browser and the clock, and the outcome the front end sees does not depend on them.
- The password form's `externalIsSubmitting` and `externalSetIsSubmitting` props are modelled as one flag: both are passed, or neither is (src/components/auth/password/PasswordForm.tsx:68-69). A form given only one of them is not modelled.
- Console logging is not modelled.
