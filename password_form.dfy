/**
 * The password form's submit handler. After the schema accepts the values, the form
 * either hands them to the `onSubmit` prop or runs the password-change hook's chain
 * (from retry count 0) and reports its result: on success the form is reset, a success
 * toast is shown and `onSuccess` is called; otherwise an error toast carries a message
 * chosen from the result's code and `onError` is called. The `isSubmitting` setter
 * (when the parent supplies one) is set before and cleared in `finally`.
 */
module PasswordForm {
  import opened Wrappers
  import opened Text
  import opened Effects
  import opened PasswordPolicy
  import opened PasswordChange

  const UpdatedMessage := "Password updated successfully"
  const WrongCurrentMessage := "Current password is incorrect"
  const NotFoundMessage := "Member not found"
  const FallbackMessage := "Failed to update password"

  /** The form's default values: three empty fields. */
  const EmptyValues := PasswordFormValues(Some(""), "", "")

  /** How the `onSubmit` prop's promise ends, when that prop is given. */
  datatype SubmitOutcome = Resolved | Rejected(error: string)

  predicate Succeeded(result: Option<ChangeData>) {
    result.Some? && result.value.success
  }

  /** The error toast's text for a result that is not a success. */
  function FailureMessage(result: Option<ChangeData>): (m: string)
    ensures m != ""
    ensures result.Some? && result.value.code == Some("INVALID_CURRENT_PASSWORD") ==> m == WrongCurrentMessage
    ensures result.Some? && result.value.code == Some("MEMBER_NOT_FOUND") ==> m == NotFoundMessage
    ensures (result.None? || result.value.code !in {Some("INVALID_CURRENT_PASSWORD"), Some("MEMBER_NOT_FOUND")}) ==>
      m == (if result.Some? && result.value.error.Some? && Truthy(result.value.error.value)
            then result.value.error.value else FallbackMessage)
  {
    var code := if result.Some? then result.value.code else None;
    var error := if result.Some? then result.value.error else None;
    if code == Some("INVALID_CURRENT_PASSWORD") then WrongCurrentMessage
    else if code == Some("MEMBER_NOT_FOUND") then NotFoundMessage
    else if error.Some? && Truthy(error.value) then error.value
    else FallbackMessage
  }

  /** What the form itself does with the hook's result. */
  function ReportEffects(result: Option<ChangeData>, hasOnSuccess: bool, hasOnError: bool): seq<Effect> {
    if Succeeded(result) then
      [Toast(Success, UpdatedMessage, "")] + (if hasOnSuccess then [Callback("onSuccess")] else [])
    else
      [Toast(Error, FailureMessage(result), "")] + (if hasOnError then [Callback("onError")] else [])
  }

  /** The effects of one accepted submission, the hook's included. */
  function SubmitEffects(memberNumber: string, resetToken: Option<string>, hasOnSubmit: bool, hasOnSuccess: bool,
                         hasOnError: bool, values: PasswordFormValues, outcome: SubmitOutcome,
                         backend: nat -> RpcReply): seq<Effect>
  {
    if hasOnSubmit then
      [Callback("onSubmit")] + (if outcome.Rejected? && hasOnError then [Callback("onError")] else [])
    else
      var run := Run(memberNumber, values, resetToken, 0, backend, hasOnSuccess);
      run.effects + ReportEffects(run.result, hasOnSuccess, hasOnError)
  }

  /** The form is reset exactly when the hook was used and resolved to a success record. */
  predicate ResetsForm(memberNumber: string, resetToken: Option<string>, hasOnSubmit: bool, hasOnSuccess: bool,
                       values: PasswordFormValues, backend: nat -> RpcReply)
  {
    !hasOnSubmit && Succeeded(Run(memberNumber, values, resetToken, 0, backend, hasOnSuccess).result)
  }

  /** With an `onSubmit` prop the hook is never used: no RPC call and no hook effect. */
  lemma OnSubmitBypassesHook(memberNumber: string, resetToken: Option<string>, hasOnSuccess: bool, hasOnError: bool,
                             values: PasswordFormValues, outcome: SubmitOutcome, backend: nat -> RpcReply)
    ensures var effects := SubmitEffects(memberNumber, resetToken, true, hasOnSuccess, hasOnError, values, outcome, backend);
      CallCount(effects) == 0 && effects[0] == Callback("onSubmit")
      && (forall i :: 0 <= i < |effects| ==> !effects[i].Toast?)
      && (Callback("onError") in effects <==> outcome.Rejected? && hasOnError)
  {
    var effects := SubmitEffects(memberNumber, resetToken, true, hasOnSuccess, hasOnError, values, outcome, backend);
    assert effects[1..] == [] || effects[1..] == [Callback("onError")];
    assert CallCount(effects[1..]) == 0;
  }

  /**
   * Without `onSubmit`, the success toast is shown (and the form reset) exactly when the chain
   * succeeded; otherwise the error toast with the mapped message is shown instead.
   */
  lemma ReportMatchesResult(memberNumber: string, resetToken: Option<string>, hasOnSuccess: bool, hasOnError: bool,
                            values: PasswordFormValues, outcome: SubmitOutcome, backend: nat -> RpcReply)
    ensures var run := Run(memberNumber, values, resetToken, 0, backend, hasOnSuccess);
      var effects := SubmitEffects(memberNumber, resetToken, false, hasOnSuccess, hasOnError, values, outcome, backend);
      && (Toast(Success, UpdatedMessage, "") in effects <==> Succeeded(run.result))
      && (!Succeeded(run.result) ==> Toast(Error, FailureMessage(run.result), "") in effects)
      && (ResetsForm(memberNumber, resetToken, false, hasOnSuccess, values, backend) <==> Succeeded(run.result))
  {
    var run := Run(memberNumber, values, resetToken, 0, backend, hasOnSuccess);
    NoFormToastInChain(memberNumber, values, resetToken, 0, backend, hasOnSuccess);
    var report := ReportEffects(run.result, hasOnSuccess, hasOnError);
    assert report[0] in run.effects + report;
  }

  /** The hook never shows the form's own success toast. */
  lemma {:induction false} NoFormToastInChain(memberNumber: string, values: PasswordFormValues,
      resetToken: Option<string>, retryCount: nat, backend: nat -> RpcReply, hasOnSuccess: bool)
    ensures Toast(Success, UpdatedMessage, "") !in Run(memberNumber, values, resetToken, retryCount, backend, hasOnSuccess).effects
    decreases if retryCount < MaxRetries then MaxRetries - retryCount else 0
  {
    if retryCount < MaxRetries {
      if IsContention(backend(retryCount)) {
        NoFormToastInChain(memberNumber, values, resetToken, retryCount + 1, backend, hasOnSuccess);
        NoFormToastAfterRetry(memberNumber, values, resetToken, retryCount, backend, hasOnSuccess);
      } else {
        NoFormToastWhenSettled(memberNumber, values, resetToken, retryCount, backend, hasOnSuccess);
      }
    }
  }

  lemma NoFormToastAfterRetry(memberNumber: string, values: PasswordFormValues,
      resetToken: Option<string>, retryCount: nat, backend: nat -> RpcReply, hasOnSuccess: bool)
    requires retryCount < MaxRetries && IsContention(backend(retryCount))
    requires Toast(Success, UpdatedMessage, "") !in Run(memberNumber, values, resetToken, retryCount + 1, backend, hasOnSuccess).effects
    ensures Toast(Success, UpdatedMessage, "") !in Run(memberNumber, values, resetToken, retryCount, backend, hasOnSuccess).effects
  {
    RunRetryStep(memberNumber, values, resetToken, retryCount, backend, hasOnSuccess);
    var start := StartEffects(memberNumber, values, resetToken);
    assert Toast(Success, UpdatedMessage, "") !in start + [DismissToast];
  }

  lemma NoFormToastWhenSettled(memberNumber: string, values: PasswordFormValues,
      resetToken: Option<string>, retryCount: nat, backend: nat -> RpcReply, hasOnSuccess: bool)
    requires retryCount < MaxRetries && !IsContention(backend(retryCount))
    ensures Toast(Success, UpdatedMessage, "") !in Run(memberNumber, values, resetToken, retryCount, backend, hasOnSuccess).effects
  {
    RunSettleStep(memberNumber, values, resetToken, retryCount, backend, hasOnSuccess);
    assert UpdatedMessage != ChangedMessage;
    assert Toast(Success, UpdatedMessage, "") !in StartEffects(memberNumber, values, resetToken);
    assert Toast(Success, UpdatedMessage, "") !in SettleEffects(backend(retryCount), UsesToken(resetToken), hasOnSuccess);
  }

  /**
   * On success `onSuccess` is called twice, once inside the hook and once by the form;
   * on any other outcome it is not called at all.
   */
  lemma OnSuccessCalledTwiceOnSuccess(memberNumber: string, resetToken: Option<string>, hasOnSuccess: bool,
                                      hasOnError: bool, values: PasswordFormValues, outcome: SubmitOutcome,
                                      backend: nat -> RpcReply)
    ensures var run := Run(memberNumber, values, resetToken, 0, backend, hasOnSuccess);
      var effects := SubmitEffects(memberNumber, resetToken, false, hasOnSuccess, hasOnError, values, outcome, backend);
      && (hasOnSuccess && Succeeded(run.result) ==>
            exists i, j :: 0 <= i < j < |effects| && effects[i] == Callback("onSuccess") && effects[j] == Callback("onSuccess"))
      && (!Succeeded(run.result) ==> Callback("onSuccess") !in effects)
  {
    var run := Run(memberNumber, values, resetToken, 0, backend, hasOnSuccess);
    var effects := SubmitEffects(memberNumber, resetToken, false, hasOnSuccess, hasOnError, values, outcome, backend);
    OnSuccessIffChainSucceeds(memberNumber, values, resetToken, 0, backend, hasOnSuccess);
    if hasOnSuccess && Succeeded(run.result) {
      var i :| 0 <= i < |run.effects| && run.effects[i] == Callback("onSuccess");
      var j := |run.effects| + 1;
      assert effects[i] == Callback("onSuccess") && effects[j] == Callback("onSuccess");
    }
  }

  /**
   * The form: its field values and validation issues, the parent's `isSubmitting` state
   * (present when the parent passes both `isSubmitting` and its setter), the hook it uses,
   * and the trace of effects. Without the parent's state, the hook's flag is the one shown.
   */
  class Form {
    const memberNumber: string
    const resetToken: Option<string>
    const hasOnSubmit: bool
    const hasOnSuccess: bool
    const hasOnError: bool
    /**
     * Both `externalIsSubmitting` and `externalSetIsSubmitting` are passed: the flag and its
     * setter come from the parent together, or neither does. A form given only one of the two
     * is not part of this model.
     */
    const external: bool
    const hook: Hook
    var values: PasswordFormValues
    var issues: seq<Issue>
    var externalSubmitting: bool
    var trace: seq<Effect>

    /** The hook was built for this form's member and callback, and is idle. */
    predicate Valid()
      reads this, hook
    {
      hook.memberNumber == memberNumber && hook.hasOnSuccess == hasOnSuccess && !hook.isSubmitting
    }

    /** `externalIsSubmitting ?? internalIsSubmitting`. */
    function IsSubmitting(): bool
      reads this, hook
    {
      if external then externalSubmitting else hook.isSubmitting
    }

    constructor (memberNumber: string, resetToken: Option<string>, hasOnSubmit: bool, hasOnSuccess: bool,
                 hasOnError: bool, external: bool)
      ensures this.memberNumber == memberNumber && this.resetToken == resetToken
      ensures this.hasOnSubmit == hasOnSubmit && this.hasOnSuccess == hasOnSuccess && this.hasOnError == hasOnError
      ensures this.external == external
      ensures values == EmptyValues && issues == [] && !externalSubmitting && trace == []
      ensures fresh(hook) && Valid() && !IsSubmitting()
    {
      this.memberNumber := memberNumber;
      this.resetToken := resetToken;
      this.hasOnSubmit := hasOnSubmit;
      this.hasOnSuccess := hasOnSuccess;
      this.hasOnError := hasOnError;
      this.external := external;
      hook := new Hook(memberNumber, hasOnSuccess);
      values := EmptyValues;
      issues := [];
      externalSubmitting := false;
      trace := [];
    }

    /** `handleFormSubmit(values)`, given how `onSubmit` ends and the backend's replies. */
    method HandleFormSubmit(submitted: PasswordFormValues, outcome: SubmitOutcome, backend: nat -> RpcReply)
      requires Valid()
      modifies this, hook
      ensures Valid() && !IsSubmitting()
      ensures trace == old(trace) + SubmitEffects(memberNumber, resetToken, hasOnSubmit, hasOnSuccess, hasOnError,
                                                  submitted, outcome, backend)
      ensures values == if ResetsForm(memberNumber, resetToken, hasOnSubmit, hasOnSuccess, submitted, backend)
                        then EmptyValues else old(values)
      ensures issues == old(issues)
      ensures hasOnSubmit ==> hook.trace == old(hook.trace)
    {
      if external {
        externalSubmitting := true;
      }
      Dispatch(submitted, outcome, backend);
      if external {
        externalSubmitting := false;
      }
    }

    /** The body of the handler: `onSubmit` when given, the hook otherwise. */
    method Dispatch(submitted: PasswordFormValues, outcome: SubmitOutcome, backend: nat -> RpcReply)
      requires Valid()
      modifies this, hook
      ensures Valid() && externalSubmitting == old(externalSubmitting) && issues == old(issues)
      ensures trace == old(trace) + SubmitEffects(memberNumber, resetToken, hasOnSubmit, hasOnSuccess, hasOnError,
                                                  submitted, outcome, backend)
      ensures values == if ResetsForm(memberNumber, resetToken, hasOnSubmit, hasOnSuccess, submitted, backend)
                        then EmptyValues else old(values)
      ensures hasOnSubmit ==> hook.trace == old(hook.trace)
    {
      if hasOnSubmit {
        CallOnSubmit(outcome);
      } else {
        ReportHookResult(submitted, backend);
      }
    }

    /** The branch with `onSubmit`: call it, and `onError` when it rejects. */
    method CallOnSubmit(outcome: SubmitOutcome)
      modifies this
      ensures trace == old(trace) + [Callback("onSubmit")] + (if outcome.Rejected? && hasOnError then [Callback("onError")] else [])
      ensures values == old(values) && issues == old(issues) && externalSubmitting == old(externalSubmitting)
    {
      trace := trace + [Callback("onSubmit")];
      if outcome.Rejected? && hasOnError {
        trace := trace + [Callback("onError")];
      }
    }

    /** The branch without `onSubmit`: run the hook's chain from retry count 0 and report its result. */
    method ReportHookResult(submitted: PasswordFormValues, backend: nat -> RpcReply)
      requires Valid() && !hasOnSubmit
      modifies this, hook
      ensures Valid() && externalSubmitting == old(externalSubmitting) && issues == old(issues)
      ensures var run := Run(memberNumber, submitted, resetToken, 0, backend, hasOnSuccess);
        && trace == old(trace) + run.effects + ReportEffects(run.result, hasOnSuccess, hasOnError)
        && values == if Succeeded(run.result) then EmptyValues else old(values)
    {
      var before := hook.trace;
      var result := hook.HandlePasswordChange(submitted, resetToken, 0, backend);
      trace := trace + hook.trace[|before|..];
      if result.Some? && result.value.success {
        values := EmptyValues;
        trace := trace + [Toast(Success, UpdatedMessage, "")];
        if hasOnSuccess {
          trace := trace + [Callback("onSuccess")];
        }
      } else {
        trace := trace + [Toast(Error, FailureMessage(result), "")];
        if hasOnError {
          trace := trace + [Callback("onError")];
        }
      }
    }

    /**
     * `form.handleSubmit(handleFormSubmit)`: the schema runs first; the handler is called
     * only with values it accepts, and otherwise the issues are shown and nothing else happens.
     */
    method Submit(outcome: SubmitOutcome, backend: nat -> RpcReply)
      requires Valid()
      modifies this, hook
      ensures Valid()
      ensures IsValid(old(values)) ==> !IsSubmitting()
      ensures !IsValid(old(values)) ==> externalSubmitting == old(externalSubmitting)
      ensures issues == SchemaIssues(old(values))
      ensures !IsValid(old(values)) ==> trace == old(trace) && values == old(values)
      ensures IsValid(old(values)) ==>
        trace == old(trace) + SubmitEffects(memberNumber, resetToken, hasOnSubmit, hasOnSuccess, hasOnError,
                                            old(values), outcome, backend)
    {
      issues := SchemaIssues(values);
      if issues == [] {
        HandleFormSubmit(values, outcome, backend);
      }
    }
  }
}
