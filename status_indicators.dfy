/**
 * `StatusIndicators`: the badges shown for a member's password and session state. Times are
 * integer milliseconds and `now` stands for the current time.
 */
module StatusIndicators {
  import opened Wrappers

  const DayMs := 1000 * 60 * 60 * 24
  const SessionActiveLabel := "Active Session"
  const NoSessionLabel := "No Active Session"

  datatype AgeStatus = Success | Warning

  /**
   * `passwordAgeStatus`: whole days elapsed, rounded down (`Math.floor` of a quotient by a
   * positive divisor, which Dafny's `/` also computes), compared with 90.
   */
  function PasswordAgeStatus(passwordSetAt: Option<int>, now: int): AgeStatus {
    if passwordSetAt.Some? && (now - passwordSetAt.value) / DayMs > 90 then Warning else Success
  }

  /**
   * The warning shows exactly when a password is set and at least 91 full days have passed:
   * 90 days and 23 hours is still a success.
   */
  lemma AgeWarningAfterNinetyWholeDays(passwordSetAt: Option<int>, now: int)
    ensures PasswordAgeStatus(passwordSetAt, now) == Warning
        <==> passwordSetAt.Some? && now - passwordSetAt.value >= 91 * DayMs
  {
  }

  /** Which badges show, and the session badge's text. */
  datatype Badges = Badges(ageStatus: AgeStatus, passwordSet: bool, locked: bool, resetRequired: bool,
                           sessionLabel: string, lastLogin: bool)

  /** The component's badges; `isSessionActive` is optional and defaults to false. */
  function Indicators(passwordSetAt: Option<int>, lockedUntil: Option<int>, passwordResetRequired: bool,
                      lastLoginAt: Option<int>, isSessionActive: Option<bool>, now: int): Badges
  {
    Badges(
      PasswordAgeStatus(passwordSetAt, now),
      passwordSetAt.Some?,
      lockedUntil.Some? && lockedUntil.value > now,
      passwordResetRequired,
      if isSessionActive.GetOr(false) then SessionActiveLabel else NoSessionLabel,
      lastLoginAt.Some?)
  }

  /**
   * Locked shows exactly while the lock lies strictly in the future (a lock ending now is
   * over); Reset Required exactly when the flag is set; the session badge reads Active
   * Session only when the prop is given as true; the last-login badge only with a login
   * time. The age badge follows `PasswordAgeStatus` and an unset password is a success.
   */
  lemma BadgeVisibility(passwordSetAt: Option<int>, lockedUntil: Option<int>, passwordResetRequired: bool,
                        lastLoginAt: Option<int>, isSessionActive: Option<bool>, now: int)
    ensures var b := Indicators(passwordSetAt, lockedUntil, passwordResetRequired, lastLoginAt, isSessionActive, now);
      && (b.locked <==> exists until :: lockedUntil == Some(until) && until > now)
      && (b.resetRequired <==> passwordResetRequired)
      && (b.sessionLabel == SessionActiveLabel <==> isSessionActive == Some(true))
      && (b.lastLogin <==> lastLoginAt.Some?)
      && (passwordSetAt.None? ==> b.ageStatus == Success && !b.passwordSet)
      && (b.ageStatus == Warning <==> passwordSetAt.Some? && now - passwordSetAt.value >= 91 * DayMs)
  {
    AgeWarningAfterNinetyWholeDays(passwordSetAt, now);
    assert SessionActiveLabel != NoSessionLabel by { assert SessionActiveLabel[0] != NoSessionLabel[0]; }
    if lockedUntil.Some? && lockedUntil.value > now {
      assert lockedUntil == Some(lockedUntil.value);
    }
  }

  /** A lock stays shown until its end time and disappears from then on. */
  lemma LockExpires(until: int, now: int, later: int)
    requires now < until <= later
    ensures Indicators(None, Some(until), false, None, None, now).locked
    ensures !Indicators(None, Some(until), false, None, None, later).locked
  {
  }
}
