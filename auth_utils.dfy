/**
 * Login helpers: the active-member lookup with its lock check, the sign-in error
 * recovery for a missing refresh token, and the clearing of the auth state.
 */
module AuthUtils {
  import opened Wrappers
  import opened Text
  import opened Effects
  import opened Records

  const NotFoundCode := "PGRST116"
  const NotFoundMessage := "Member not found or inactive"
  const LockedPrefix := "Account is locked until "
  const RefreshTokenMarker := "refresh_token_not_found"

  /** The outcome of `verifyMember`: the member row, or the error it throws. */
  datatype Verification = Verified(member: MemberRow) | Rejected(error: Failure)

  predicate IsActiveMatch(m: MemberRow, memberNumber: string) {
    m.memberNumber == memberNumber && m.status == Some("active")
  }

  /** `eq('member_number', n).eq('status', 'active')`: the matching rows in table order. */
  function ActiveMatches(rows: seq<MemberRow>, memberNumber: string): (r: seq<MemberRow>)
    ensures forall m :: m in r <==> m in rows && IsActiveMatch(m, memberNumber)
    ensures r == [] <==> forall m :: m in rows ==> !IsActiveMatch(m, memberNumber)
  {
    if rows == [] then []
    else (if IsActiveMatch(rows[0], memberNumber) then [rows[0]] else [])
         + ActiveMatches(rows[1..], memberNumber)
  }

  /** A lock is in force only while `locked_until` is strictly later than now. */
  predicate LockedAt(m: MemberRow, now: int) {
    m.lockedUntil.Some? && m.lockedUntil.value > now
  }

  /**
   * `verifyMember(memberNumber)` over the table, the query's own error (if any), the clock,
   * and the locale's date formatting. `.limit(1).single()` yields the first matching row,
   * or the PGRST116 error when there is none.
   */
  function VerifyMember(rows: seq<MemberRow>, memberNumber: string, queryError: Option<Failure>,
                        now: int, formatTime: int -> string): Verification
  {
    var matches := ActiveMatches(rows, memberNumber);
    if queryError.Some? then
      if queryError.value.code == Some(NotFoundCode) then Rejected(Failure(NotFoundMessage, None))
      else Rejected(queryError.value)
    else if matches == [] then Rejected(Failure(NotFoundMessage, None))
    else if LockedAt(matches[0], now) then
      Rejected(Failure(LockedPrefix + formatTime(matches[0].lockedUntil.value), None))
    else Verified(matches[0])
  }

  /**
   * A member is accepted exactly when the query succeeds, some active row has the number
   * and the first such row is not locked; the accepted member is that row.
   */
  lemma VerifiedIsFirstUnlockedActiveRow(rows: seq<MemberRow>, memberNumber: string, queryError: Option<Failure>,
                                          now: int, formatTime: int -> string)
    ensures var v := VerifyMember(rows, memberNumber, queryError, now, formatTime);
      && (v.Verified? ==> v.member in rows && IsActiveMatch(v.member, memberNumber) && !LockedAt(v.member, now))
      && (v.Verified? <==>
            queryError.None? && ActiveMatches(rows, memberNumber) != [] && !LockedAt(ActiveMatches(rows, memberNumber)[0], now))
  {
    var matches := ActiveMatches(rows, memberNumber);
    if matches != [] {
      assert matches[0] in matches;
    }
  }

  /** No active row with that number, or the PGRST116 error, is reported as "not found or inactive". */
  lemma MissingMemberIsNotFound(rows: seq<MemberRow>, memberNumber: string, queryError: Option<Failure>,
                                now: int, formatTime: int -> string)
    requires (queryError.None? && forall m :: m in rows ==> !IsActiveMatch(m, memberNumber))
          || (queryError.Some? && queryError.value.code == Some(NotFoundCode))
    ensures VerifyMember(rows, memberNumber, queryError, now, formatTime) == Rejected(Failure(NotFoundMessage, None))
  {
  }

  /** Any other query error is rethrown unchanged. */
  lemma OtherQueryErrorIsRethrown(rows: seq<MemberRow>, memberNumber: string, error: Failure,
                                  now: int, formatTime: int -> string)
    requires error.code != Some(NotFoundCode)
    ensures VerifyMember(rows, memberNumber, Some(error), now, formatTime) == Rejected(error)
  {
  }

  /**
   * A lock ends exactly at `locked_until`: at that instant the member is accepted,
   * one millisecond earlier it is refused with the lock message, which is never the not-found one.
   */
  lemma LockIsStrict(m: MemberRow, memberNumber: string, until: int, formatTime: int -> string)
    requires IsActiveMatch(m, memberNumber) && m.lockedUntil == Some(until)
    ensures VerifyMember([m], memberNumber, None, until, formatTime) == Verified(m)
    ensures var v := VerifyMember([m], memberNumber, None, until - 1, formatTime);
      v.Rejected? && v.error.message == LockedPrefix + formatTime(until) && v.error.message != NotFoundMessage
  {
    assert ActiveMatches([m], memberNumber) == [m] by {
      assert [m][1..] == [];
    }
    var msg := LockedPrefix + formatTime(until);
    assert msg[0] == 'A' && NotFoundMessage[0] == 'M';
  }

  /** `clearAuthState()`: sign out, clear a freshly made query client, clear localStorage. */
  const ClearAuthStateEffects: seq<Effect> := [Backend(SignOut), ClearNewQueryClient, ClearLocalStorage]

  /** How `handleSignInError` ends: it returns, or it throws an error. */
  datatype Recovery = Recovered | Throws(error: Failure)

  /** `handleSignInError(error, email, password)`, with the retried sign-in's error (if any). */
  function HandleSignInError(error: Failure, email: string, password: string, retryError: Option<Failure>): (r: (Recovery, seq<Effect>))
    ensures r.0.Throws? && !Contains(error.message, RefreshTokenMarker) ==> r.0.error == error
  {
    if Contains(error.message, RefreshTokenMarker) then
      (if retryError.Some? then Throws(retryError.value) else Recovered,
       ClearAuthStateEffects + [Backend(SignInWithPassword(email, password))])
    else (Throws(error), [])
  }

  /**
   * The sign-in is retried, exactly once and after the auth state is cleared, only for a
   * missing refresh token; any other error is rethrown unchanged with no effect, and a
   * failed retry throws the retry's error.
   */
  lemma SignInRetriedOnlyForRefreshToken(error: Failure, email: string, password: string, retryError: Option<Failure>)
    ensures var (recovery, effects) := HandleSignInError(error, email, password, retryError);
      && (Contains(error.message, RefreshTokenMarker) ==>
            CallCount(effects) == 2 && effects[..3] == ClearAuthStateEffects
            && effects[3] == Backend(SignInWithPassword(email, password))
            && recovery == (if retryError.Some? then Throws(retryError.value) else Recovered))
      && (!Contains(error.message, RefreshTokenMarker) ==> effects == [] && recovery == Throws(error))
  {
    if Contains(error.message, RefreshTokenMarker) {
      var retry := [Backend(SignInWithPassword(email, password))];
      assert CallCount(ClearAuthStateEffects) == 1 by {
        assert ClearAuthStateEffects[1..][1..][1..] == [];
      }
      assert CallCount(retry) == 1 by {
        assert retry[1..] == [];
      }
      CallCountAppend(ClearAuthStateEffects, retry);
    }
  }
}
