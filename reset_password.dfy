/**
 * The reset-password page: the member-number field (upper-cased, then checked against
 * two capital letters followed by five digits) and the validation of the URL's reset
 * token, attempted at most three times with a growing delay between attempts.
 */
module ResetPassword {
  import opened Wrappers
  import opened Text
  import opened Effects

  const MaxValidationRetries: nat := 3
  const FormatError := "Member number must be in format XX00000"
  const InvalidLinkTitle := "Invalid Reset Link"
  const InvalidLinkText := "This password reset link is invalid or has expired."

  /** One character class of an anchored pattern. */
  datatype CharClass = UpperLetter | AsciiDigit

  predicate InClass(c: char, k: CharClass) {
    match k
    case UpperLetter => IsUpper(c)
    case AsciiDigit => IsDigit(c)
  }

  /** The pattern `^[A-Z]{2}\d{5}$` as a sequence of classes, one per character. */
  const MemberNumberPattern: seq<CharClass> :=
    [UpperLetter, UpperLetter, AsciiDigit, AsciiDigit, AsciiDigit, AsciiDigit, AsciiDigit]

  /** Anchored match of a string against a sequence of single-character classes. */
  function Matches(s: string, pattern: seq<CharClass>): (b: bool)
    ensures b ==> |s| == |pattern|
    decreases pattern
  {
    if pattern == [] then s == []
    else s != [] && InClass(s[0], pattern[0]) && Matches(s[1..], pattern[1..])
  }

  /** The member-number format, stated position by position. */
  predicate ValidMemberNumber(s: string) {
    |s| == 7 && IsUpper(s[0]) && IsUpper(s[1]) && forall i :: 2 <= i < 7 ==> IsDigit(s[i])
  }

  lemma {:induction false} MatchesPositionwise(s: string, pattern: seq<CharClass>)
    ensures Matches(s, pattern) <==> |s| == |pattern| && forall i :: 0 <= i < |s| ==> InClass(s[i], pattern[i])
    decreases pattern
  {
    if pattern != [] && s != [] {
      MatchesPositionwise(s[1..], pattern[1..]);
      if |s| == |pattern| && forall i :: 0 <= i < |s| ==> InClass(s[i], pattern[i]) {
        assert forall i :: 0 <= i < |s[1..]| ==> InClass(s[1..][i], pattern[1..][i]) by {
          forall i | 0 <= i < |s[1..]| ensures InClass(s[1..][i], pattern[1..][i]) {
            assert InClass(s[i + 1], pattern[i + 1]);
          }
        }
      }
    }
  }

  /** The regular expression and the position-wise statement accept the same strings. */
  lemma PatternIsMemberNumberFormat(s: string)
    ensures Matches(s, MemberNumberPattern) <==> ValidMemberNumber(s)
  {
    MatchesPositionwise(s, MemberNumberPattern);
    if ValidMemberNumber(s) {
      assert forall i :: 0 <= i < |s| ==> InClass(s[i], MemberNumberPattern[i]);
    }
  }

  /** "AB12345" has the format; its lower-case spelling and a six-digit tail do not. */
  lemma MemberNumberExamples()
    ensures ValidMemberNumber("AB12345")
    ensures !ValidMemberNumber("ab12345")
    ensures !ValidMemberNumber("AB123456")
  {
  }

  /** The field's error once `value` (already upper-cased) has been entered. */
  function FieldError(value: string): (e: string)
    ensures e == "" <==> value == "" || ValidMemberNumber(value)
  {
    if value == "" then "" else if ValidMemberNumber(value) then "" else FormatError
  }

  /** Lower-case input is accepted: the field upper-cases before it validates. */
  lemma LowerCaseInputIsAccepted()
    ensures FieldError(ToUpper("ab12345")) == ""
  {
    var u := ToUpper("ab12345");
    assert u[0] == 'A' && u[1] == 'B';
    assert u == "AB12345";
  }

  /** A reply of `validate_reset_token`: a returned or thrown error, or data (truthy or not). */
  datatype TokenReply = TokenError(message: string) | TokenData(truthy: bool)

  /** How a validation chain ends: `isValidToken`, the attempt number it records, the effects. */
  datatype Validation = Validation(valid: bool, attempts: Option<nat>, effects: seq<Effect>)

  /**
   * `validateTokenWithRetry(retryCount)` with the timer's callback run when it fires:
   * a failed attempt below the last schedules the next one after 1000·(retryCount+1) ms.
   */
  function Validate(token: string, retryCount: nat, replies: nat -> TokenReply): Validation
    decreases if retryCount < MaxValidationRetries - 1 then MaxValidationRetries - 1 - retryCount else 0
  {
    var call := [Backend(ValidateResetToken(token))];
    match replies(retryCount)
    case TokenData(truthy) => Validation(truthy, Some(retryCount + 1), call)
    case TokenError(_) =>
      if retryCount < MaxValidationRetries - 1 then
        var next := Validate(token, retryCount + 1, replies);
        Validation(next.valid, next.attempts, call + [StartTimer(1000 * (retryCount + 1))] + next.effects)
      else
        Validation(false, None, call + [Toast(Destructive, InvalidLinkTitle, InvalidLinkText)])
  }

  /** The first attempt at or after `from` whose reply is data, among the attempts a chain reaches. */
  function FirstAnswered(replies: nat -> TokenReply, from: nat): (k: Option<nat>)
    ensures k.Some? ==> from <= k.value && replies(k.value).TokenData?
    ensures k.Some? ==> forall j :: from <= j < k.value ==> replies(j).TokenError?
    ensures k.Some? ==> k.value < MaxValidationRetries || k.value == from
    ensures k.None? ==> forall j :: from <= j < MaxValidationRetries ==> replies(j).TokenError?
    ensures k.None? ==> replies(from).TokenError?
    decreases if from < MaxValidationRetries - 1 then MaxValidationRetries - 1 - from else 0
  {
    if replies(from).TokenData? then Some(from)
    else if from < MaxValidationRetries - 1 then FirstAnswered(replies, from + 1)
    else None
  }

  /**
   * A chain from `retryCount` ends with the answer of the first attempt that got data,
   * recording its 1-based number, or invalid with no attempt number when every attempt failed.
   */
  lemma {:induction false} ValidationSettles(token: string, retryCount: nat, replies: nat -> TokenReply)
    ensures var v := Validate(token, retryCount, replies);
      match FirstAnswered(replies, retryCount)
      case Some(k) => v.valid == replies(k).truthy && v.attempts == Some(k + 1)
      case None => !v.valid && v.attempts == None
    decreases if retryCount < MaxValidationRetries - 1 then MaxValidationRetries - 1 - retryCount else 0
  {
    if replies(retryCount).TokenError? && retryCount < MaxValidationRetries - 1 {
      ValidationSettles(token, retryCount + 1, replies);
      assert FirstAnswered(replies, retryCount) == FirstAnswered(replies, retryCount + 1);
    }
  }

  /**
   * A chain calls the RPC once per attempt: up to the first answered one, or until the
   * third attempt (once when started past it) when none is answered.
   */
  lemma {:induction false} ValidationCalls(token: string, retryCount: nat, replies: nat -> TokenReply)
    ensures var v := Validate(token, retryCount, replies);
      match FirstAnswered(replies, retryCount)
      case Some(k) => CallCount(v.effects) == k - retryCount + 1
      case None => CallCount(v.effects) == (if retryCount < MaxValidationRetries then MaxValidationRetries - retryCount else 1)
    decreases if retryCount < MaxValidationRetries - 1 then MaxValidationRetries - 1 - retryCount else 0
  {
    var call := Backend(ValidateResetToken(token));
    if replies(retryCount).TokenData? {
      assert Validate(token, retryCount, replies).effects == [call];
      assert CallCount([call]) == 1 by { assert [call][1..] == []; }
    } else if retryCount < MaxValidationRetries - 1 {
      var prefix := [call, StartTimer(1000 * (retryCount + 1))];
      var next := Validate(token, retryCount + 1, replies);
      assert Validate(token, retryCount, replies).effects == prefix + next.effects;
      ValidationCalls(token, retryCount + 1, replies);
      assert CallCount(prefix) == 1 by { assert prefix[1..][1..] == []; }
      CallCountAppend(prefix, next.effects);
      assert FirstAnswered(replies, retryCount) == FirstAnswered(replies, retryCount + 1);
    } else {
      var ending := [call, Toast(Destructive, InvalidLinkTitle, InvalidLinkText)];
      assert Validate(token, retryCount, replies).effects == ending;
      assert CallCount(ending) == 1 by { assert ending[1..][1..] == []; }
    }
  }

  /** From a fresh start the token RPC is called at most three times. */
  lemma AtMostThreeValidations(token: string, replies: nat -> TokenReply)
    ensures CallCount(Validate(token, 0, replies).effects) <= MaxValidationRetries
  {
    ValidationCalls(token, 0, replies);
  }

  /** Three failures: the waits are 1000 ms then 2000 ms, and the chain ends invalid with the toast. */
  lemma PersistentFailureSchedule(token: string, replies: nat -> TokenReply)
    requires replies(0).TokenError? && replies(1).TokenError? && replies(2).TokenError?
    ensures Validate(token, 0, replies) ==
      Validation(false, None,
        [Backend(ValidateResetToken(token)), StartTimer(1000),
         Backend(ValidateResetToken(token)), StartTimer(2000),
         Backend(ValidateResetToken(token)), Toast(Destructive, InvalidLinkTitle, InvalidLinkText)])
  {
  }

  /** The page state: the URL's token, the validation result, and the member-number field. */
  class Page {
    const token: Option<string>
    var isValidToken: Option<bool>
    var isLoading: bool
    var validationAttempts: nat
    var memberNumber: string
    var memberNumberError: string
    var trace: seq<Effect>

    constructor (token: Option<string>)
      ensures this.token == token
      ensures isValidToken == None && isLoading && validationAttempts == 0
      ensures memberNumber == "" && memberNumberError == "" && trace == []
    {
      this.token := token;
      isValidToken := None;
      isLoading := true;
      validationAttempts := 0;
      memberNumber := "";
      memberNumberError := "";
      trace := [];
    }

    /** `validateMemberNumber(value)`: sets the field error and reports whether the format holds. */
    method ValidateMemberNumber(value: string) returns (ok: bool)
      modifies this
      ensures ok == ValidMemberNumber(value)
      ensures memberNumberError == (if ok then "" else FormatError)
      ensures memberNumber == old(memberNumber) && trace == old(trace)
      ensures isValidToken == old(isValidToken) && isLoading == old(isLoading)
      ensures validationAttempts == old(validationAttempts)
    {
      if !ValidMemberNumber(value) {
        memberNumberError := FormatError;
        return false;
      }
      memberNumberError := "";
      return true;
    }

    /** `handleMemberNumberChange`: upper-case the input, store it, validate it unless it is empty. */
    method HandleMemberNumberChange(input: string)
      modifies this
      ensures memberNumber == ToUpper(input)
      ensures memberNumberError == FieldError(ToUpper(input))
      ensures trace == old(trace) && isValidToken == old(isValidToken) && isLoading == old(isLoading)
      ensures validationAttempts == old(validationAttempts)
    {
      var value := ToUpper(input);
      memberNumber := value;
      if value != "" {
        var _ := ValidateMemberNumber(value);
      } else {
        memberNumberError := "";
      }
    }

    /** `validateTokenWithRetry(retryCount)`; `isLoading` is cleared in the `finally` of every attempt. */
    method ValidateTokenWithRetry(retryCount: nat, replies: nat -> TokenReply)
      requires token.Some?
      modifies this
      decreases if retryCount < MaxValidationRetries - 1 then MaxValidationRetries - 1 - retryCount else 0
      ensures var v := Validate(token.value, retryCount, replies);
        && isValidToken == Some(v.valid)
        && validationAttempts == (if v.attempts.Some? then v.attempts.value else old(validationAttempts))
        && trace == old(trace) + v.effects
      ensures !isLoading
      ensures memberNumber == old(memberNumber) && memberNumberError == old(memberNumberError)
    {
      ghost var t0 := trace;
      var call := [Backend(ValidateResetToken(token.value))];
      trace := trace + call;
      var reply := replies(retryCount);
      if reply.TokenData? {
        isValidToken := Some(reply.truthy);
        validationAttempts := retryCount + 1;
        isLoading := false;
      } else if retryCount < MaxValidationRetries - 1 {
        var timer := [StartTimer(1000 * (retryCount + 1))];
        trace := trace + timer;
        isLoading := false;
        ghost var t1 := trace;
        ValidateTokenWithRetry(retryCount + 1, replies);
        ghost var next := Validate(token.value, retryCount + 1, replies);
        assert t1 == t0 + (call + timer);
        AppendAssoc(t0, call + timer, next.effects);
      } else {
        trace := trace + [Toast(Destructive, InvalidLinkTitle, InvalidLinkText)];
        isValidToken := Some(false);
        isLoading := false;
      }
    }

    /** The mount effect: without a (non-empty) token the link is invalid and no RPC is made. */
    method OnMount(replies: nat -> TokenReply)
      modifies this
      ensures !isLoading && isValidToken.Some?
      ensures !(token.Some? && Truthy(token.value)) ==>
        isValidToken == Some(false) && trace == old(trace) && validationAttempts == old(validationAttempts)
      ensures token.Some? && Truthy(token.value) ==>
        trace == old(trace) + Validate(token.value, 0, replies).effects
        && isValidToken == Some(Validate(token.value, 0, replies).valid)
    {
      if token.None? || token.value == "" {
        isValidToken := Some(false);
        isLoading := false;
        return;
      }
      ValidateTokenWithRetry(0, replies);
    }
  }
}
