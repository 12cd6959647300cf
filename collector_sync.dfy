/**
 * `useCollectorSync`: the recursive `performSync(retryCount)` that calls the role-sync RPC
 * up to three times, waiting one second longer before each retry.
 */
module CollectorSync {
  import opened Wrappers
  import opened Effects

  const MaxRetries: nat := 3
  const RetryDelay: nat := 1000

  /** How `performSync` ends: `{ success: true }`, or a thrown error. */
  datatype SyncResult = Synced | SyncThrew(error: Failure)

  datatype SyncRun = SyncRun(result: SyncResult, effects: seq<Effect>)

  /** The wait before the retry that follows attempt `retryCount`. */
  function WaitAfter(retryCount: nat): nat {
    RetryDelay * (retryCount + 1)
  }

  /**
   * `performSync(retryCount)`; `replies(i)` is how the RPC call of attempt i ends. A returned
   * error below the last attempt waits and recurses; on the last attempt it is thrown inside the
   * `try`, and the `catch` rethrows it. A rejected call lands in the `catch` with the same rule.
   */
  function PerformSync(replies: nat -> CallOutcome, retryCount: nat): SyncRun
    decreases MaxRetries - retryCount
  {
    var call := [Backend(PerformUserRolesSync)];
    match replies(retryCount)
    case Ok => SyncRun(Synced, call)
    case ReturnedError(e) =>
      if retryCount < MaxRetries - 1 then
        var rest := PerformSync(replies, retryCount + 1);
        SyncRun(rest.result, call + [Sleep(WaitAfter(retryCount))] + rest.effects)
      else SyncRun(SyncThrew(e), call)
    case Threw(e) =>
      if retryCount < MaxRetries - 1 then
        var rest := PerformSync(replies, retryCount + 1);
        SyncRun(rest.result, call + [Sleep(WaitAfter(retryCount))] + rest.effects)
      else SyncRun(SyncThrew(e), call)
  }

  /** Two outcomes lead to the same decision: both succeed, or both fail with the same error. */
  predicate SameVerdict(a: CallOutcome, b: CallOutcome) {
    (a.Ok? <==> b.Ok?) && (!a.Ok? && !b.Ok? ==> a.error == b.error)
  }

  /**
   * A returned error and a thrown one are handled alike: replies that agree on success and on
   * the error give the same run, whichever way each error was delivered.
   */
  lemma {:induction false} ErrorDeliveryIsIrrelevant(replies: nat -> CallOutcome, other: nat -> CallOutcome, retryCount: nat)
    requires forall i :: SameVerdict(replies(i), other(i))
    ensures PerformSync(replies, retryCount) == PerformSync(other, retryCount)
    decreases MaxRetries - retryCount
  {
    assert SameVerdict(replies(retryCount), other(retryCount));
    if !replies(retryCount).Ok? && retryCount < MaxRetries - 1 {
      ErrorDeliveryIsIrrelevant(replies, other, retryCount + 1);
    }
  }

  /** The first attempt at or after `n` whose call succeeds, if one does before the ceiling. */
  function FirstOk(replies: nat -> CallOutcome, n: nat): (k: Option<nat>)
    requires n < MaxRetries
    ensures k.Some? ==> n <= k.value < MaxRetries && replies(k.value).Ok?
    ensures k.Some? ==> forall i :: n <= i < k.value ==> !replies(i).Ok?
    ensures k.None? ==> forall i :: n <= i < MaxRetries ==> !replies(i).Ok?
    decreases MaxRetries - n
  {
    if replies(n).Ok? then Some(n)
    else if n == MaxRetries - 1 then None
    else FirstOk(replies, n + 1)
  }

  /** The waits of the retries after attempts n .. k - 1. */
  function WaitsBetween(n: nat, k: nat): (r: seq<nat>)
    requires n <= k
    ensures |r| == k - n
    ensures forall i :: 0 <= i < |r| ==> r[i] == WaitAfter(n + i)
    decreases k - n
  {
    if n == k then [] else [WaitAfter(n)] + WaitsBetween(n + 1, k)
  }

  /** A failed attempt below the last: its call, its wait, then the rest of the recursion. */
  lemma RetryStep(replies: nat -> CallOutcome, n: nat)
    requires n < MaxRetries - 1 && !replies(n).Ok?
    ensures var run := PerformSync(replies, n);
      var rest := PerformSync(replies, n + 1);
      && run.result == rest.result
      && CallCount(run.effects) == 1 + CallCount(rest.effects)
      && Sleeps(run.effects) == [WaitAfter(n)] + Sleeps(rest.effects)
  {
    var call := [Backend(PerformUserRolesSync)];
    var wait := [Sleep(WaitAfter(n))];
    var rest := PerformSync(replies, n + 1).effects;
    SingleEffect(call[0]);
    SingleEffect(wait[0]);
    CallCountAppend(call, wait);
    CallCountAppend(call + wait, rest);
    SleepsAppend(call, wait);
    SleepsAppend(call + wait, rest);
  }

  /**
   * The recursion stops at the first attempt without an error, with `{ success: true }`, after
   * one call per attempt up to it; when every attempt fails it throws the last attempt's error
   * after three calls. The waits are those after every failed attempt but the last.
   */
  lemma {:induction false} SyncStopsAtFirstOk(replies: nat -> CallOutcome, n: nat)
    requires n < MaxRetries
    ensures var run := PerformSync(replies, n);
      match FirstOk(replies, n)
      case Some(k) =>
        run.result == Synced && CallCount(run.effects) == k - n + 1 && Sleeps(run.effects) == WaitsBetween(n, k)
      case None =>
        run.result == SyncThrew(replies(MaxRetries - 1).error)
        && CallCount(run.effects) == MaxRetries - n && Sleeps(run.effects) == WaitsBetween(n, MaxRetries - 1)
    decreases MaxRetries - n
  {
    SingleEffect(Backend(PerformUserRolesSync));
    if !replies(n).Ok? && n < MaxRetries - 1 {
      SyncStopsAtFirstOk(replies, n + 1);
      RetryStep(replies, n);
    }
  }

  /** `performSync()` calls the RPC at most three times. */
  lemma AtMostThreeCalls(replies: nat -> CallOutcome)
    ensures CallCount(PerformSync(replies, 0).effects) <= MaxRetries
  {
    SyncStopsAtFirstOk(replies, 0);
  }

  /** Three failures wait one and then two seconds and throw the third attempt's error. */
  lemma PersistentFailureWaitsOneThenTwoSeconds(replies: nat -> CallOutcome)
    requires forall i :: 0 <= i < MaxRetries ==> !replies(i).Ok?
    ensures var run := PerformSync(replies, 0);
      Sleeps(run.effects) == [1000, 2000] && CallCount(run.effects) == 3 && run.result == SyncThrew(replies(2).error)
  {
    SyncStopsAtFirstOk(replies, 0);
  }
}
