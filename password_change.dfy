/**
 * The password change / reset coordinator hook. A call with a reset token goes to the
 * token RPC with the token and the new password; any other call goes to the
 * self-service RPC with the member number, the new and the current password.
 * A contention error (code PGRST301) is retried by calling the handler again with
 * `retryCount + 1`; a call made with `retryCount >= 3` gives up with `null`.
 * Both copies of the hook behave alike (they differ only in logging), so one model serves both.
 * The backend is an oracle: `backend(k)` is the reply to the attempt with retry count `k`.
 */
module PasswordChange {
  import opened Wrappers
  import opened Text
  import opened Effects
  import opened PasswordPolicy

  const MaxRetries: nat := 3
  const ContentionCode := "PGRST301"
  const DefaultFailure := "Failed to change password"
  const ChangedMessage := "Password changed successfully"
  const MaxRetriesMessage := "Maximum retry attempts reached. Please try again later."
  const UnexpectedMessage := "An unexpected error occurred"

  /** The JSON object an RPC returns (`success`, `error`, `code`). */
  datatype RpcResponse = RpcResponse(success: bool, error: Option<string>, code: Option<string>)

  /** One reply of the backend: a returned error, returned data (possibly null), or an exception. */
  datatype RpcReply =
    | Errored(failure: Failure)
    | Replied(data: Option<RpcResponse>)
    | Threw(message: string)

  /** The result record handed back to the form. */
  datatype ChangeData = ChangeData(success: bool, message: Option<string>, error: Option<string>, code: Option<string>)

  /** The value the handler resolves to, with the effects it performed on the way. */
  datatype ChangeRun = ChangeRun(result: Option<ChangeData>, effects: seq<Effect>)

  /** A reset token counts only when it is present and non-empty (JavaScript truthiness). */
  predicate UsesToken(resetToken: Option<string>) {
    resetToken.Some? && Truthy(resetToken.value)
  }

  /**
   * The RPC a call is dispatched to, with the arguments the reset logic depends on. The
   * audit metadata every call also carries (a null IP address, the user agent and the
   * client's time, browser and platform) is not part of this model.
   */
  function RequestFor(memberNumber: string, values: PasswordFormValues, resetToken: Option<string>): (c: Call)
    ensures UsesToken(resetToken) ==> c == ResetPasswordWithToken(resetToken.value, values.newPassword)
    ensures !UsesToken(resetToken) ==>
      c == ResetPasswordSelfService(memberNumber, values.newPassword, values.currentPassword)
  {
    if UsesToken(resetToken) then ResetPasswordWithToken(resetToken.value, values.newPassword)
    else ResetPasswordSelfService(memberNumber, values.newPassword, values.currentPassword)
  }

  predicate IsContention(reply: RpcReply) {
    reply.Errored? && reply.failure.code == Some(ContentionCode)
  }

  /** The result of an attempt whose reply is not a contention error. */
  function Settle(reply: RpcReply): (d: ChangeData)
    requires !IsContention(reply)
    ensures d.success <==> reply.Replied? && reply.data.Some? && reply.data.value.success
    ensures d.success ==> d.code == Some("SUCCESS")
    ensures reply.Threw? ==> d.code == Some("UNEXPECTED_ERROR")
    ensures reply.Errored? ==> d.error == Some(reply.failure.message) && d.code == reply.failure.code
  {
    match reply
    case Errored(f) => ChangeData(false, None, Some(f.message), f.code)
    case Replied(None) => ChangeData(false, None, Some(DefaultFailure), None)
    case Replied(Some(resp)) =>
      if !resp.success then
        ChangeData(false, None,
                   Some(if resp.error.Some? && Truthy(resp.error.value) then resp.error.value else DefaultFailure),
                   resp.code)
      else ChangeData(true, Some(ChangedMessage), None, Some("SUCCESS"))
    case Threw(m) => ChangeData(false, None, Some(m), Some("UNEXPECTED_ERROR"))
  }

  /** The effects after the RPC returned with a reply that is not a contention error. */
  function SettleEffects(reply: RpcReply, usesToken: bool, hasOnSuccess: bool): seq<Effect>
    requires !IsContention(reply)
  {
    if reply.Threw? then [DismissToast, Toast(Error, UnexpectedMessage, "")]
    else if !Settle(reply).success then [DismissToast]
    else [DismissToast, Toast(Success, ChangedMessage, "")]
         + (if hasOnSuccess then [Callback("onSuccess")] else [])
         + (if usesToken then [Navigate("/login")] else [])
  }

  /** The effects of starting an attempt: the loading toast and the dispatched RPC call. */
  function StartEffects(memberNumber: string, values: PasswordFormValues, resetToken: Option<string>): seq<Effect> {
    [Toast(Loading, "Changing password...", ""), Backend(RequestFor(memberNumber, values, resetToken))]
  }

  /** `handlePasswordChange(values, resetToken, retryCount)`: the handler with its retry recursion. */
  function Run(memberNumber: string, values: PasswordFormValues, resetToken: Option<string>,
               retryCount: nat, backend: nat -> RpcReply, hasOnSuccess: bool): (run: ChangeRun)
    decreases if retryCount < MaxRetries then MaxRetries - retryCount else 0
  {
    if retryCount >= MaxRetries then ChangeRun(None, [Toast(Error, MaxRetriesMessage, "")])
    else
      var start := StartEffects(memberNumber, values, resetToken);
      var reply := backend(retryCount);
      if IsContention(reply) then
        var retry := Run(memberNumber, values, resetToken, retryCount + 1, backend, hasOnSuccess);
        ChangeRun(retry.result, start + [DismissToast] + retry.effects)
      else
        ChangeRun(Some(Settle(reply)), start + SettleEffects(reply, UsesToken(resetToken), hasOnSuccess))
  }

  /** The first attempt at or after `from`, below the ceiling, whose reply is not a contention error. */
  function FirstSettled(backend: nat -> RpcReply, from: nat): (k: Option<nat>)
    ensures k.Some? ==> from <= k.value < MaxRetries && !IsContention(backend(k.value))
    ensures k.Some? ==> forall j :: from <= j < k.value ==> IsContention(backend(j))
    ensures k.None? ==> forall j :: from <= j < MaxRetries ==> IsContention(backend(j))
    decreases if from < MaxRetries then MaxRetries - from else 0
  {
    if from >= MaxRetries then None
    else if !IsContention(backend(from)) then Some(from)
    else FirstSettled(backend, from + 1)
  }

  /**
   * The retry chain as a whole: the handler resolves to the settled result of the first
   * attempt that did not hit contention, or to null when every attempt up to the ceiling did.
   */
  lemma {:induction false} RunSettlesOnFirstNonContention(memberNumber: string, values: PasswordFormValues,
      resetToken: Option<string>, retryCount: nat, backend: nat -> RpcReply, hasOnSuccess: bool)
    ensures var run := Run(memberNumber, values, resetToken, retryCount, backend, hasOnSuccess);
      match FirstSettled(backend, retryCount)
      case None => run.result == None
      case Some(k) => run.result == Some(Settle(backend(k)))
    decreases if retryCount < MaxRetries then MaxRetries - retryCount else 0
  {
    if retryCount < MaxRetries && IsContention(backend(retryCount)) {
      RunSettlesOnFirstNonContention(memberNumber, values, resetToken, retryCount + 1, backend, hasOnSuccess);
      assert FirstSettled(backend, retryCount) == FirstSettled(backend, retryCount + 1);
    }
  }

  /** The number of attempts a chain started at `from` makes before it settles or reaches the ceiling. */
  function AttemptsReached(backend: nat -> RpcReply, from: nat): nat
    decreases if from < MaxRetries then MaxRetries - from else 0
  {
    if from >= MaxRetries then 0
    else if !IsContention(backend(from)) then 1
    else 1 + AttemptsReached(backend, from + 1)
  }

  /**
   * The attempts reached are those up to the first one without contention, or all of them
   * up to the ceiling when there is none.
   */
  lemma {:induction false} AttemptsReachedFirstSettled(backend: nat -> RpcReply, from: nat)
    ensures match FirstSettled(backend, from)
      case None => AttemptsReached(backend, from) == (if from < MaxRetries then MaxRetries - from else 0)
      case Some(k) => AttemptsReached(backend, from) == k - from + 1
    decreases if from < MaxRetries then MaxRetries - from else 0
  {
    if from < MaxRetries && IsContention(backend(from)) {
      AttemptsReachedFirstSettled(backend, from + 1);
    }
  }

  /** The chain makes one RPC call per attempt it reaches. */
  lemma {:induction false} RunCalls(memberNumber: string, values: PasswordFormValues,
      resetToken: Option<string>, retryCount: nat, backend: nat -> RpcReply, hasOnSuccess: bool)
    ensures CallCount(Run(memberNumber, values, resetToken, retryCount, backend, hasOnSuccess).effects)
            == AttemptsReached(backend, retryCount)
    decreases if retryCount < MaxRetries then MaxRetries - retryCount else 0
  {
    if retryCount < MaxRetries {
      if IsContention(backend(retryCount)) {
        var retry := Run(memberNumber, values, resetToken, retryCount + 1, backend, hasOnSuccess);
        RunRetryStep(memberNumber, values, resetToken, retryCount, backend, hasOnSuccess);
        RetryPrefixCalls(memberNumber, values, resetToken, retry.effects);
        RunCalls(memberNumber, values, resetToken, retryCount + 1, backend, hasOnSuccess);
      } else {
        RunSettleStep(memberNumber, values, resetToken, retryCount, backend, hasOnSuccess);
        SettledAttemptCalls(memberNumber, values, resetToken, backend(retryCount), hasOnSuccess);
      }
    } else {
      var giveUp := [Toast(Error, MaxRetriesMessage, "")];
      assert Run(memberNumber, values, resetToken, retryCount, backend, hasOnSuccess).effects == giveUp;
      assert CallCount(giveUp) == 0 by { assert giveUp[1..] == []; }
    }
  }

  /** An attempt that hit contention adds one call in front of the retry's calls. */
  lemma RetryPrefixCalls(memberNumber: string, values: PasswordFormValues, resetToken: Option<string>,
                         rest: seq<Effect>)
    ensures CallCount(StartEffects(memberNumber, values, resetToken) + [DismissToast] + rest) == 1 + CallCount(rest)
  {
    var start := StartEffects(memberNumber, values, resetToken);
    StartMakesOneCall(memberNumber, values, resetToken);
    NoCallCounted([DismissToast]);
    CallCountAppend(start, [DismissToast]);
    CallCountAppend(start + [DismissToast], rest);
  }

  /** A settled attempt makes exactly one call. */
  lemma SettledAttemptCalls(memberNumber: string, values: PasswordFormValues, resetToken: Option<string>,
                            reply: RpcReply, hasOnSuccess: bool)
    requires !IsContention(reply)
    ensures CallCount(StartEffects(memberNumber, values, resetToken)
                      + SettleEffects(reply, UsesToken(resetToken), hasOnSuccess)) == 1
  {
    var start := StartEffects(memberNumber, values, resetToken);
    var tail := SettleEffects(reply, UsesToken(resetToken), hasOnSuccess);
    StartMakesOneCall(memberNumber, values, resetToken);
    NoCallCounted(tail);
    CallCountAppend(start, tail);
  }

  /** Starting an attempt makes exactly one call. */
  lemma StartMakesOneCall(memberNumber: string, values: PasswordFormValues, resetToken: Option<string>)
    ensures CallCount(StartEffects(memberNumber, values, resetToken)) == 1
  {
    var start := StartEffects(memberNumber, values, resetToken);
    assert start[1..][1..] == [];
  }

  /** At most 3 RPC calls are made by a chain started at any retry count. */
  lemma AtMostThreeCalls(memberNumber: string, values: PasswordFormValues, resetToken: Option<string>,
                         retryCount: nat, backend: nat -> RpcReply, hasOnSuccess: bool)
    ensures CallCount(Run(memberNumber, values, resetToken, retryCount, backend, hasOnSuccess).effects) <= MaxRetries
  {
    RunCalls(memberNumber, values, resetToken, retryCount, backend, hasOnSuccess);
    AttemptsReachedFirstSettled(backend, retryCount);
  }

  /** A call made at the ceiling returns null and contacts no backend. */
  lemma CeilingReturnsNull(memberNumber: string, values: PasswordFormValues, resetToken: Option<string>,
                           retryCount: nat, backend: nat -> RpcReply, hasOnSuccess: bool)
    requires retryCount >= MaxRetries
    ensures Run(memberNumber, values, resetToken, retryCount, backend, hasOnSuccess)
            == ChangeRun(None, [Toast(Error, MaxRetriesMessage, "")])
  {
  }

  /** A contention error on every attempt ends, after exactly 3 calls from a fresh start, in null. */
  lemma PersistentContentionGivesNull(memberNumber: string, values: PasswordFormValues,
      resetToken: Option<string>, backend: nat -> RpcReply, hasOnSuccess: bool)
    requires forall k :: IsContention(backend(k))
    ensures Run(memberNumber, values, resetToken, 0, backend, hasOnSuccess).result == None
    ensures CallCount(Run(memberNumber, values, resetToken, 0, backend, hasOnSuccess).effects) == MaxRetries
  {
    assert FirstSettled(backend, 0) == None by {
      assert IsContention(backend(0)) && IsContention(backend(1)) && IsContention(backend(2));
    }
    RunSettlesOnFirstNonContention(memberNumber, values, resetToken, 0, backend, hasOnSuccess);
    RunCalls(memberNumber, values, resetToken, 0, backend, hasOnSuccess);
    AttemptsReachedFirstSettled(backend, 0);
  }

  /** Any other error is returned at once, with its message and code, after a single call. */
  lemma OtherErrorIsNotRetried(memberNumber: string, values: PasswordFormValues, resetToken: Option<string>,
                               retryCount: nat, backend: nat -> RpcReply, hasOnSuccess: bool)
    requires retryCount < MaxRetries
    requires backend(retryCount).Errored? && !IsContention(backend(retryCount))
    ensures var run := Run(memberNumber, values, resetToken, retryCount, backend, hasOnSuccess);
      var f := backend(retryCount).failure;
      run.result == Some(ChangeData(false, None, Some(f.message), f.code)) && CallCount(run.effects) == 1
  {
    RunCalls(memberNumber, values, resetToken, retryCount, backend, hasOnSuccess);
    AttemptsReachedFirstSettled(backend, retryCount);
  }

  /** Every RPC call in a chain is the one the dispatch rule picks: the token RPC iff a token is used. */
  lemma {:induction false} EveryCallIsTheDispatchedRequest(memberNumber: string, values: PasswordFormValues,
      resetToken: Option<string>, retryCount: nat, backend: nat -> RpcReply, hasOnSuccess: bool)
    ensures var run := Run(memberNumber, values, resetToken, retryCount, backend, hasOnSuccess);
      forall i :: 0 <= i < |run.effects| && run.effects[i].Backend? ==>
        run.effects[i].call == RequestFor(memberNumber, values, resetToken)
    decreases if retryCount < MaxRetries then MaxRetries - retryCount else 0
  {
    if retryCount < MaxRetries {
      var request := RequestFor(memberNumber, values, resetToken);
      var start := StartEffects(memberNumber, values, resetToken);
      var run := Run(memberNumber, values, resetToken, retryCount, backend, hasOnSuccess);
      if IsContention(backend(retryCount)) {
        var retry := Run(memberNumber, values, resetToken, retryCount + 1, backend, hasOnSuccess);
        RunRetryStep(memberNumber, values, resetToken, retryCount, backend, hasOnSuccess);
        EveryCallIsTheDispatchedRequest(memberNumber, values, resetToken, retryCount + 1, backend, hasOnSuccess);
        forall i | 0 <= i < |run.effects| && run.effects[i].Backend?
          ensures run.effects[i].call == request
        {
          if i >= 3 {
            assert run.effects[i] == retry.effects[i - 3];
          }
        }
      } else {
        RunSettleStep(memberNumber, values, resetToken, retryCount, backend, hasOnSuccess);
        SettleMakesNoCall(backend(retryCount), UsesToken(resetToken), hasOnSuccess);
      }
    }
  }

  /** The effects after a settled reply call no backend. */
  lemma SettleMakesNoCall(reply: RpcReply, usesToken: bool, hasOnSuccess: bool)
    requires !IsContention(reply)
    ensures forall i :: 0 <= i < |SettleEffects(reply, usesToken, hasOnSuccess)| ==>
      !SettleEffects(reply, usesToken, hasOnSuccess)[i].Backend?
  {
  }

  /**
   * Success is reported with code SUCCESS; the success toast, the onSuccess callback and,
   * only for a token reset, the navigation to /login come last, in that order.
   */
  lemma SuccessNavigatesOnlyForTokenResets(memberNumber: string, values: PasswordFormValues,
      resetToken: Option<string>, retryCount: nat, backend: nat -> RpcReply, hasOnSuccess: bool)
    requires retryCount < MaxRetries
    requires backend(retryCount).Replied? && backend(retryCount).data.Some?
    requires backend(retryCount).data.value.success
    ensures var run := Run(memberNumber, values, resetToken, retryCount, backend, hasOnSuccess);
      && run.result == Some(ChangeData(true, Some(ChangedMessage), None, Some("SUCCESS")))
      && (Navigate("/login") in run.effects <==> UsesToken(resetToken))
      && (Callback("onSuccess") in run.effects <==> hasOnSuccess)
  {
  }

  /** A missing response or `success = false` is a failure with the reply's error or the default message. */
  lemma UnsuccessfulResponseIsFailure(memberNumber: string, values: PasswordFormValues,
      resetToken: Option<string>, retryCount: nat, backend: nat -> RpcReply, hasOnSuccess: bool)
    requires retryCount < MaxRetries
    requires backend(retryCount).Replied?
    requires backend(retryCount).data.None? || !backend(retryCount).data.value.success
    ensures var run := Run(memberNumber, values, resetToken, retryCount, backend, hasOnSuccess);
      var data := backend(retryCount).data;
      && run.result.Some? && !run.result.value.success
      && run.result.value.code == (if data.Some? then data.value.code else None)
      && ((data.None? || data.value.error.None? || data.value.error == Some(""))
            ==> run.result.value.error == Some(DefaultFailure))
      && Navigate("/login") !in run.effects
  {
  }

  /** An exception is reported as UNEXPECTED_ERROR with its message. */
  lemma ExceptionIsUnexpectedError(memberNumber: string, values: PasswordFormValues,
      resetToken: Option<string>, retryCount: nat, backend: nat -> RpcReply, hasOnSuccess: bool)
    requires retryCount < MaxRetries && backend(retryCount).Threw?
    ensures Run(memberNumber, values, resetToken, retryCount, backend, hasOnSuccess).result
            == Some(ChangeData(false, None, Some(backend(retryCount).message), Some("UNEXPECTED_ERROR")))
  {
  }

  /** Across a whole chain, onSuccess is called exactly when the chain resolves to a success record. */
  lemma {:induction false} OnSuccessIffChainSucceeds(memberNumber: string, values: PasswordFormValues,
      resetToken: Option<string>, retryCount: nat, backend: nat -> RpcReply, hasOnSuccess: bool)
    ensures var run := Run(memberNumber, values, resetToken, retryCount, backend, hasOnSuccess);
      Callback("onSuccess") in run.effects <==> hasOnSuccess && run.result.Some? && run.result.value.success
    decreases if retryCount < MaxRetries then MaxRetries - retryCount else 0
  {
    if retryCount < MaxRetries {
      var start := StartEffects(memberNumber, values, resetToken);
      assert Callback("onSuccess") !in start;
      if IsContention(backend(retryCount)) {
        RunRetryStep(memberNumber, values, resetToken, retryCount, backend, hasOnSuccess);
        OnSuccessIffChainSucceeds(memberNumber, values, resetToken, retryCount + 1, backend, hasOnSuccess);
      } else {
        RunSettleStep(memberNumber, values, resetToken, retryCount, backend, hasOnSuccess);
        SettleCallsOnSuccess(backend(retryCount), UsesToken(resetToken), hasOnSuccess);
      }
    }
  }

  /** The settling effects call onSuccess exactly when the reply is a success and a callback was given. */
  lemma SettleCallsOnSuccess(reply: RpcReply, usesToken: bool, hasOnSuccess: bool)
    requires !IsContention(reply)
    ensures Callback("onSuccess") in SettleEffects(reply, usesToken, hasOnSuccess) <==> hasOnSuccess && Settle(reply).success
  {
  }

  /** One step of the chain below the ceiling, for a contention reply. */
  lemma RunRetryStep(memberNumber: string, values: PasswordFormValues, resetToken: Option<string>,
                     retryCount: nat, backend: nat -> RpcReply, hasOnSuccess: bool)
    requires retryCount < MaxRetries && IsContention(backend(retryCount))
    ensures var retry := Run(memberNumber, values, resetToken, retryCount + 1, backend, hasOnSuccess);
      Run(memberNumber, values, resetToken, retryCount, backend, hasOnSuccess)
      == ChangeRun(retry.result, StartEffects(memberNumber, values, resetToken) + [DismissToast] + retry.effects)
  {
  }

  /** One step of the chain below the ceiling, for a reply that settles it. */
  lemma RunSettleStep(memberNumber: string, values: PasswordFormValues, resetToken: Option<string>,
                      retryCount: nat, backend: nat -> RpcReply, hasOnSuccess: bool)
    requires retryCount < MaxRetries && !IsContention(backend(retryCount))
    ensures Run(memberNumber, values, resetToken, retryCount, backend, hasOnSuccess)
      == ChangeRun(Some(Settle(backend(retryCount))),
                   StartEffects(memberNumber, values, resetToken)
                   + SettleEffects(backend(retryCount), UsesToken(resetToken), hasOnSuccess))
  {
  }

  /**
   * The hook's state: `isSubmitting`, set when an attempt starts and cleared in the
   * `finally` of every attempt, and the trace of the effects performed so far.
   */
  class Hook {
    const memberNumber: string
    const hasOnSuccess: bool
    var isSubmitting: bool
    var trace: seq<Effect>

    constructor (memberNumber: string, hasOnSuccess: bool)
      ensures this.memberNumber == memberNumber && this.hasOnSuccess == hasOnSuccess
      ensures !isSubmitting && trace == []
    {
      this.memberNumber := memberNumber;
      this.hasOnSuccess := hasOnSuccess;
      isSubmitting := false;
      trace := [];
    }

    method HandlePasswordChange(values: PasswordFormValues, resetToken: Option<string>, retryCount: nat,
                                backend: nat -> RpcReply) returns (result: Option<ChangeData>)
      modifies this
      decreases if retryCount < MaxRetries then MaxRetries - retryCount else 0
      ensures result == Run(memberNumber, values, resetToken, retryCount, backend, hasOnSuccess).result
      ensures trace == old(trace) + Run(memberNumber, values, resetToken, retryCount, backend, hasOnSuccess).effects
      ensures retryCount < MaxRetries ==> !isSubmitting
      ensures retryCount >= MaxRetries ==> isSubmitting == old(isSubmitting)
    {
      if retryCount >= MaxRetries {
        trace := trace + [Toast(Error, MaxRetriesMessage, "")];
        return None;
      }
      isSubmitting := true;
      ghost var t0 := trace;
      var start := StartEffects(memberNumber, values, resetToken);
      trace := trace + start;
      var reply := backend(retryCount);
      if IsContention(reply) {
        trace := trace + [DismissToast];
        ghost var pre := start + [DismissToast];
        assert trace == t0 + pre;
        result := HandlePasswordChange(values, resetToken, retryCount + 1, backend);
        ghost var retry := Run(memberNumber, values, resetToken, retryCount + 1, backend, hasOnSuccess).effects;
        RunRetryStep(memberNumber, values, resetToken, retryCount, backend, hasOnSuccess);
        AppendAssoc(t0, pre, retry);
      } else {
        RunSettleStep(memberNumber, values, resetToken, retryCount, backend, hasOnSuccess);
        result := SettleReply(reply, resetToken);
        ghost var settled := SettleEffects(reply, UsesToken(resetToken), hasOnSuccess);
        AppendAssoc(t0, start, settled);
      }
      isSubmitting := false;
    }

    /** What the handler does once the RPC returned or threw without a contention error. */
    method SettleReply(reply: RpcReply, resetToken: Option<string>) returns (result: Option<ChangeData>)
      requires !IsContention(reply)
      modifies this
      ensures result == Some(Settle(reply))
      ensures trace == old(trace) + SettleEffects(reply, UsesToken(resetToken), hasOnSuccess)
      ensures isSubmitting == old(isSubmitting)
    {
      trace := trace + SettleEffects(reply, UsesToken(resetToken), hasOnSuccess);
      result := Some(Settle(reply));
    }
  }
}
