/**
 * `useRoleSync`: the role-synchronisation mutation, a bounded `while` loop of audit
 * insert plus `perform_user_roles_sync` attempts, and the sync-status query's
 * derivation of the newest role timestamp and its retry delay.
 */
module RoleSync {
  import opened Wrappers
  import opened Text
  import opened Effects

  const MaxAttempts: nat := 3
  const ExhaustedMessage := "Failed to sync roles after multiple attempts"

  /** One attempt's two awaited calls: the audit-log insert, then the sync RPC. */
  datatype Attempt = Attempt(audit: CallOutcome, rpc: CallOutcome)

  /** How `syncRoles` ends: `{ success: true }`, or a thrown error. */
  datatype SyncResult = Synced | SyncThrew(error: Failure)

  datatype SyncRun = SyncRun(result: SyncResult, effects: seq<Effect>)

  /**
   * The error an attempt ends with, if any. A returned audit error is only logged; a
   * rejected audit insert skips the RPC and lands in the `catch`; an RPC error, returned
   * (and rethrown inside the `try`) or thrown, lands there too.
   */
  function AttemptFailure(a: Attempt): (f: Option<Failure>)
    ensures f.None? <==> !a.audit.Threw? && a.rpc.Ok?
  {
    if a.audit.Threw? then Some(a.audit.error)
    else if a.rpc.Ok? then None
    else Some(a.rpc.error)
  }

  /** The calls one attempt makes: the audit insert always, the RPC unless the insert rejected. */
  function AttemptEffects(userId: string, a: Attempt): seq<Effect> {
    [Backend(InsertSyncAudit(userId))] + (if a.audit.Threw? then [] else [Backend(PerformUserRolesSync)])
  }

  /** The wait before the next attempt, once `attempts` has been incremented to `next`. */
  function Backoff(next: nat): nat {
    1000 * (next + 1)
  }

  /** The loop from the attempt with counter `n` on; `attempts(i)` answers attempt i. */
  function SyncFrom(userId: string, attempts: nat -> Attempt, n: nat): SyncRun
    requires n < MaxAttempts
    decreases MaxAttempts - n
  {
    var tried := AttemptEffects(userId, attempts(n));
    match AttemptFailure(attempts(n))
    case None => SyncRun(Synced, tried)
    case Some(e) =>
      if n == MaxAttempts - 1 then SyncRun(SyncThrew(e), tried)
      else
        var rest := SyncFrom(userId, attempts, n + 1);
        SyncRun(rest.result, tried + [Sleep(Backoff(n + 1))] + rest.effects)
  }

  /** The first attempt at or after `n` that succeeds, if one does before the ceiling. */
  function FirstSynced(attempts: nat -> Attempt, n: nat): (k: Option<nat>)
    requires n < MaxAttempts
    ensures k.Some? ==> n <= k.value < MaxAttempts && AttemptFailure(attempts(k.value)).None?
    ensures k.Some? ==> forall i :: n <= i < k.value ==> AttemptFailure(attempts(i)).Some?
    ensures k.None? ==> forall i :: n <= i < MaxAttempts ==> AttemptFailure(attempts(i)).Some?
    decreases MaxAttempts - n
  {
    if AttemptFailure(attempts(n)).None? then Some(n)
    else if n == MaxAttempts - 1 then None
    else FirstSynced(attempts, n + 1)
  }

  /** The attempt the loop ends with: the first successful one, or the last. */
  function LastAttempt(attempts: nat -> Attempt, n: nat): (k: nat)
    requires n < MaxAttempts
    ensures n <= k < MaxAttempts
    ensures AttemptFailure(attempts(k)).None? || k == MaxAttempts - 1
    ensures forall i :: n <= i < k ==> AttemptFailure(attempts(i)).Some?
    decreases MaxAttempts - n
  {
    if AttemptFailure(attempts(n)).None? || n == MaxAttempts - 1 then n else LastAttempt(attempts, n + 1)
  }

  /** The waits made while the counter goes from `n` to `k`: one per incremented counter value. */
  function BackoffsBetween(n: nat, k: nat): (r: seq<nat>)
    requires n <= k
    ensures |r| == k - n
    ensures forall i :: 0 <= i < |r| ==> r[i] == Backoff(n + i + 1)
    decreases k - n
  {
    if n == k then [] else [Backoff(n + 1)] + BackoffsBetween(n + 1, k)
  }

  /** An attempt makes exactly one audit insert, at most one RPC, and no wait. */
  lemma AttemptCalls(userId: string, a: Attempt)
    ensures var tried := AttemptEffects(userId, a);
      && Occurrences(tried, Backend(InsertSyncAudit(userId))) == 1
      && Occurrences(tried, Backend(PerformUserRolesSync)) <= 1
      && Sleeps(tried) == []
  {
    var audit := Backend(InsertSyncAudit(userId));
    if a.audit.Threw? {
      assert AttemptEffects(userId, a) == [audit];
      SingleEffect(audit);
    } else {
      var rpc := Backend(PerformUserRolesSync);
      assert AttemptEffects(userId, a) == [audit] + [rpc];
      SingleEffect(audit);
      SingleEffect(rpc);
      OccurrencesAppend([audit], [rpc], audit);
      OccurrencesAppend([audit], [rpc], rpc);
      SleepsAppend([audit], [rpc]);
    }
  }

  /** A failed attempt below the ceiling: its calls, its wait, then the loop from the next counter value. */
  lemma RetryStep(userId: string, attempts: nat -> Attempt, n: nat)
    requires n < MaxAttempts - 1 && AttemptFailure(attempts(n)).Some?
    ensures var run := SyncFrom(userId, attempts, n);
      var rest := SyncFrom(userId, attempts, n + 1);
      var tried := AttemptEffects(userId, attempts(n));
      var audit := Backend(InsertSyncAudit(userId));
      var rpc := Backend(PerformUserRolesSync);
      && run.result == rest.result
      && Occurrences(run.effects, audit) == Occurrences(tried, audit) + Occurrences(rest.effects, audit)
      && Occurrences(run.effects, rpc) == Occurrences(tried, rpc) + Occurrences(rest.effects, rpc)
      && Sleeps(run.effects) == Sleeps(tried) + [Backoff(n + 1)] + Sleeps(rest.effects)
  {
    var tried := AttemptEffects(userId, attempts(n));
    var wait := [Sleep(Backoff(n + 1))];
    var rest := SyncFrom(userId, attempts, n + 1).effects;
    SingleEffect(wait[0]);
    OccurrencesAppend(tried, wait, Backend(InsertSyncAudit(userId)));
    OccurrencesAppend(tried + wait, rest, Backend(InsertSyncAudit(userId)));
    OccurrencesAppend(tried, wait, Backend(PerformUserRolesSync));
    OccurrencesAppend(tried + wait, rest, Backend(PerformUserRolesSync));
    SleepsAppend(tried, wait);
    SleepsAppend(tried + wait, rest);
  }

  /**
   * The loop stops at the first successful attempt with `{ success: true }`, having made
   * one audit insert per attempt up to it; when no attempt succeeds it throws the third
   * attempt's error after three inserts.
   */
  lemma {:induction false} SyncStopsAtFirstSuccess(userId: string, attempts: nat -> Attempt, n: nat)
    requires n < MaxAttempts
    ensures var run := SyncFrom(userId, attempts, n);
      var audits := Occurrences(run.effects, Backend(InsertSyncAudit(userId)));
      match FirstSynced(attempts, n)
      case Some(k) => run.result == Synced && audits == k - n + 1
      case None => run.result == SyncThrew(AttemptFailure(attempts(MaxAttempts - 1)).value) && audits == MaxAttempts - n
    decreases MaxAttempts - n
  {
    AttemptCalls(userId, attempts(n));
    if AttemptFailure(attempts(n)).Some? && n < MaxAttempts - 1 {
      SyncStopsAtFirstSuccess(userId, attempts, n + 1);
      RetryStep(userId, attempts, n);
    }
  }

  /** The waits between attempts: the backoffs of every counter value passed on the way to the end. */
  lemma {:induction false} SyncWaits(userId: string, attempts: nat -> Attempt, n: nat)
    requires n < MaxAttempts
    ensures Sleeps(SyncFrom(userId, attempts, n).effects) == BackoffsBetween(n, LastAttempt(attempts, n))
    decreases MaxAttempts - n
  {
    AttemptCalls(userId, attempts(n));
    if AttemptFailure(attempts(n)).Some? && n < MaxAttempts - 1 {
      SyncWaits(userId, attempts, n + 1);
      RetryStep(userId, attempts, n);
    }
  }

  /**
   * Despite the "exponential backoff" comment, three failed attempts wait 2000 ms and then
   * 3000 ms, make three audit inserts, and throw the last attempt's error.
   */
  lemma PersistentFailureWaitsTwoThenThreeSeconds(userId: string, attempts: nat -> Attempt)
    requires forall i :: 0 <= i < MaxAttempts ==> AttemptFailure(attempts(i)).Some?
    ensures var run := SyncFrom(userId, attempts, 0);
      && Sleeps(run.effects) == [2000, 3000]
      && Occurrences(run.effects, Backend(InsertSyncAudit(userId))) == 3
      && run.result == SyncThrew(AttemptFailure(attempts(2)).value)
  {
    SyncStopsAtFirstSuccess(userId, attempts, 0);
    SyncWaits(userId, attempts, 0);
  }

  /** Every attempt makes at most one RPC, always with its audit insert. */
  lemma {:induction false} AtMostOneRpcPerAudit(userId: string, attempts: nat -> Attempt, n: nat)
    requires n < MaxAttempts
    ensures var effects := SyncFrom(userId, attempts, n).effects;
      Occurrences(effects, Backend(PerformUserRolesSync)) <= Occurrences(effects, Backend(InsertSyncAudit(userId)))
    decreases MaxAttempts - n
  {
    AttemptCalls(userId, attempts(n));
    if AttemptFailure(attempts(n)).Some? && n < MaxAttempts - 1 {
      AtMostOneRpcPerAudit(userId, attempts, n + 1);
      RetryStep(userId, attempts, n);
    }
  }

  /** `perform_user_roles_sync` is called at most three times. */
  lemma AtMostThreeRpcCalls(userId: string, attempts: nat -> Attempt)
    ensures Occurrences(SyncFrom(userId, attempts, 0).effects, Backend(PerformUserRolesSync)) <= MaxAttempts
  {
    AtMostOneRpcPerAudit(userId, attempts, 0);
    SyncStopsAtFirstSuccess(userId, attempts, 0);
  }

  /** The attempts with every returned audit error replaced by a clean insert. */
  function WithoutAuditErrors(attempts: nat -> Attempt): nat -> Attempt {
    (i: nat) => if attempts(i).audit.ReturnedError? then Attempt(Ok, attempts(i).rpc) else attempts(i)
  }

  /** A returned audit-insert error changes nothing: the RPC is still called and the run is the same. */
  lemma {:induction false} AuditErrorIsIgnored(userId: string, attempts: nat -> Attempt, n: nat)
    requires n < MaxAttempts
    ensures SyncFrom(userId, WithoutAuditErrors(attempts), n) == SyncFrom(userId, attempts, n)
    decreases MaxAttempts - n
  {
    var clean := WithoutAuditErrors(attempts);
    assert AttemptFailure(clean(n)) == AttemptFailure(attempts(n));
    assert AttemptEffects(userId, clean(n)) == AttemptEffects(userId, attempts(n));
    if AttemptFailure(attempts(n)).Some? && n < MaxAttempts - 1 {
      AuditErrorIsIgnored(userId, attempts, n + 1);
    }
  }

  /** A failed attempt below the ceiling: its calls, the wait, then the loop from the next counter value. */
  lemma SyncRetryStep(userId: string, attempts: nat -> Attempt, n: nat, before: seq<Effect>)
    requires n < MaxAttempts - 1 && AttemptFailure(attempts(n)).Some?
    ensures var run := SyncFrom(userId, attempts, n);
      var rest := SyncFrom(userId, attempts, n + 1);
      && run.result == rest.result
      && before + run.effects == before + AttemptEffects(userId, attempts(n)) + [Sleep(Backoff(n + 1))] + rest.effects
  {
    var tried := AttemptEffects(userId, attempts(n));
    var rest := SyncFrom(userId, attempts, n + 1).effects;
    AppendAssoc(before + tried, [Sleep(Backoff(n + 1))], rest);
    AppendAssoc(before, tried + [Sleep(Backoff(n + 1))], rest);
    AppendAssoc(before, tried, [Sleep(Backoff(n + 1))]);
  }

  /** The body of one pass up to the decision: the audit insert, the RPC unless the insert rejected. */
  method TryAttempt(userId: string, a: Attempt) returns (failure: Option<Failure>, tried: seq<Effect>)
    ensures failure == AttemptFailure(a) && tried == AttemptEffects(userId, a)
  {
    tried := [Backend(InsertSyncAudit(userId))];
    if a.audit.Threw? {
      failure := Some(a.audit.error);
    } else {
      tried := tried + [Backend(PerformUserRolesSync)];
      failure := if a.rpc.Ok? then None else Some(a.rpc.error);
    }
  }

  /**
   * `syncRoles(userId)`, the mutation function: a `while` loop over the attempt counter.
   * Both the returned-error branch and the `catch` give up on the last attempt and otherwise
   * increment the counter and wait; they are one branch here.
   */
  method SyncRoles(userId: string, attempts: nat -> Attempt) returns (result: SyncResult, trace: seq<Effect>)
    ensures SyncRun(result, trace) == SyncFrom(userId, attempts, 0)
  {
    var n := 0;
    trace := [];
    while n < MaxAttempts
      invariant n < MaxAttempts
      invariant SyncFrom(userId, attempts, 0)
        == SyncRun(SyncFrom(userId, attempts, n).result, trace + SyncFrom(userId, attempts, n).effects)
      decreases MaxAttempts - n
    {
      var failure, tried := TryAttempt(userId, attempts(n));
      ghost var before := trace;
      trace := trace + tried;
      if failure.None? {
        result := Synced;
        return;
      }
      if n == MaxAttempts - 1 {
        result := SyncThrew(failure.value);
        return;
      }
      SyncRetryStep(userId, attempts, n, before);
      n := n + 1;
      trace := trace + [Sleep(Backoff(n))];
    }
    result := SyncThrew(Failure(ExhaustedMessage, None));
  }

  /** A row of `user_roles` as the status query selects it. */
  datatype RoleRow = RoleRow(role: string, createdAt: string)

  /** The sync status: the newest role's creation time (null when there is none) and the roles. */
  datatype SyncStatus = SyncStatus(lastSync: Option<string>, roles: seq<string>)

  /**
   * The roles of the rows, in the rows' order (`roles.map(r => r.role)`): one per row, and a
   * role is listed exactly when some row carries it.
   */
  function RolesOf(rows: seq<RoleRow>): (r: seq<string>)
    ensures |r| == |rows|
    ensures forall i :: 0 <= i < |rows| ==> r[i] == rows[i].role
    ensures forall role :: role in r <==> exists row :: row in rows && row.role == role
  {
    var r := seq(|rows|, i requires 0 <= i < |rows| => rows[i].role);
    assert forall row :: row in rows ==> row.role in r by {
      forall row | row in rows ensures row.role in r {
        var k :| 0 <= k < |rows| && rows[k] == row;
        assert r[k] == row.role;
      }
    }
    r
  }

  /**
   * The order the status query asks for, `.order('created_at', { ascending: false })`: reading
   * each creation time with `time`, no row is newer than a row before it.
   */
  predicate NewestFirst(rows: seq<RoleRow>, time: string -> int) {
    forall i, j :: 0 <= i < j < |rows| ==> time(rows[i].createdAt) >= time(rows[j].createdAt)
  }

  /**
   * The status query's result over the rows as returned: `lastSync` is the first row's
   * `created_at` unless it is absent or empty (falsy), when it is null.
   */
  function StatusOf(rows: seq<RoleRow>): SyncStatus {
    SyncStatus(if rows != [] && Truthy(rows[0].createdAt) then Some(rows[0].createdAt) else None, RolesOf(rows))
  }

  /**
   * Over rows in the query's newest-first order, the status lists exactly the roles the
   * user holds, and a last-sync time, when present, is a creation time of one of the rows
   * and no row was created later. It is missing only when there are no rows or the newest
   * row's creation time is empty.
   */
  lemma StatusReportsNewestRole(rows: seq<RoleRow>, time: string -> int)
    requires NewestFirst(rows, time)
    ensures var s := StatusOf(rows);
      && (forall role :: role in s.roles <==> exists row :: row in rows && row.role == role)
      && (s.lastSync.Some? ==>
            (exists row :: row in rows && row.createdAt == s.lastSync.value)
            && forall row :: row in rows ==> time(row.createdAt) <= time(s.lastSync.value))
      && (s.lastSync.None? <==> rows == [] || rows[0].createdAt == "")
  {
    var s := StatusOf(rows);
    if s.lastSync.Some? {
      assert rows[0] in rows;
      forall row | row in rows ensures time(row.createdAt) <= time(s.lastSync.value) {
        var k :| 0 <= k < |rows| && rows[k] == row;
        if k > 0 {
          assert time(rows[0].createdAt) >= time(rows[k].createdAt);
        }
      }
    }
  }

  /** The status query's `retry: 3`: up to three retries after the first try. */
  const StatusQueryRetries: nat := 3
  const MaxRetryDelay: nat := 30000

  function Pow2(i: nat): (r: nat)
    ensures r >= 1
  {
    if i == 0 then 1 else 2 * Pow2(i - 1)
  }

  /** The status query's `retryDelay(attemptIndex)`: `min(1000 * 2^i, 30000)`. */
  function RetryDelay(attemptIndex: nat): nat {
    if 1000 * Pow2(attemptIndex) < MaxRetryDelay then 1000 * Pow2(attemptIndex) else MaxRetryDelay
  }

  lemma {:induction false} Pow2Monotone(i: nat, j: nat)
    requires i <= j
    ensures Pow2(i) <= Pow2(j)
    decreases j
  {
    if i < j {
      Pow2Monotone(i, j - 1);
    }
  }

  /**
   * The delay doubles from one second, never decreases, never exceeds 30 s, and is 30 s
   * from the sixth retry on; the three retries of the status query wait 1, 2 and 4 s.
   */
  lemma RetryDelayIsCappedDoubling(i: nat, j: nat)
    requires i <= j
    ensures RetryDelay(i) <= RetryDelay(j) <= MaxRetryDelay
    ensures i >= 5 ==> RetryDelay(i) == MaxRetryDelay
    ensures RetryDelay(j) < MaxRetryDelay ==> RetryDelay(j + 1) == 2 * RetryDelay(j) || RetryDelay(j + 1) == MaxRetryDelay
    ensures [RetryDelay(0), RetryDelay(1), RetryDelay(2)] == [1000, 2000, 4000]
  {
    Pow2Monotone(i, j);
    if i >= 5 {
      Pow2Monotone(5, i);
      assert Pow2(5) == 32;
    }
    assert Pow2(2) == 4;
  }
}
