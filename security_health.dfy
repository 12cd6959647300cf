/**
 * `SecurityHealthPanel`: the password-age gauge, the 0–100 security score, the battery icon
 * for failed sign-in attempts, and the score's colour band. Times are integer milliseconds;
 * `now` stands for `Date.now()`.
 */
module SecurityHealth {
  import opened Wrappers

  /** Ninety days in milliseconds: the password age that fills the gauge. */
  const FullAgeMs := 90 * 24 * 60 * 60 * 1000

  /**
   * `passwordAgePercentage > 80`, decided exactly on integers: `elapsed / FullAgeMs * 100 > 80`
   * is `elapsed * 100 > 80 * FullAgeMs`, and the cap at 100 does not change the answer.
   * An unset password has percentage 0.
   */
  predicate AgeAboveEighty(passwordSetAt: Option<int>, now: int) {
    passwordSetAt.Some? && (now - passwordSetAt.value) * 100 > 80 * FullAgeMs
  }

  /** The gauge's value in whole percent (rounded down): 0 when unset, capped at 100. */
  function AgePercentage(passwordSetAt: Option<int>, now: int): (p: int)
    ensures p <= 100
    ensures passwordSetAt.None? ==> p == 0
    ensures p > 80 ==> AgeAboveEighty(passwordSetAt, now)
    ensures passwordSetAt.Some? && now - passwordSetAt.value >= FullAgeMs ==> p == 100
  {
    match passwordSetAt
    case None => 0
    case Some(setAt) =>
      var whole := (now - setAt) * 100 / FullAgeMs;
      if whole < 100 then whole else 100
  }

  /** `securityScore`: the straight-line deductions of the memo, floored at 0. */
  function Score(failedLoginAttempts: int, isEmailVerified: bool, is2FAEnabled: bool,
                 passwordSetAt: Option<int>, now: int): (score: int)
    ensures score >= 0
    ensures failedLoginAttempts >= 0 ==> score <= 100
  {
    var s0 := 100 - failedLoginAttempts * 10;
    var s1 := if !isEmailVerified then s0 - 20 else s0;
    var s2 := if !is2FAEnabled then s1 - 20 else s1;
    var s3 := if AgeAboveEighty(passwordSetAt, now) then s2 - 20 else s2;
    if s3 > 0 then s3 else 0
  }

  /** How many of the flags are set. */
  function CountSet(flags: seq<bool>): (n: nat)
    ensures n <= |flags|
  {
    if |flags| == 0 then 0 else (if flags[0] then 1 else 0) + CountSet(flags[1..])
  }

  /** The weaknesses that each cost twenty points: unverified email, no 2FA, an old password. */
  function MissingSafeguards(isEmailVerified: bool, is2FAEnabled: bool, passwordSetAt: Option<int>, now: int): (n: nat)
    ensures n <= 3
  {
    CountSet([!isEmailVerified, !is2FAEnabled, AgeAboveEighty(passwordSetAt, now)])
  }

  /** The score is 100 less ten per failed attempt and twenty per missing safeguard, never below 0. */
  lemma ScoreIsDeductions(failedLoginAttempts: int, isEmailVerified: bool, is2FAEnabled: bool,
                          passwordSetAt: Option<int>, now: int)
    ensures var raw := 100 - 10 * failedLoginAttempts - 20 * MissingSafeguards(isEmailVerified, is2FAEnabled, passwordSetAt, now);
      Score(failedLoginAttempts, isEmailVerified, is2FAEnabled, passwordSetAt, now) == if raw > 0 then raw else 0
  {
    var oldPassword := AgeAboveEighty(passwordSetAt, now);
    var flags := [!isEmailVerified, !is2FAEnabled, oldPassword];
    assert flags[1..] == [!is2FAEnabled, oldPassword] && flags[1..][1..] == [oldPassword] && flags[1..][1..][1..] == [];
    assert CountSet([oldPassword]) == if oldPassword then 1 else 0;
    assert CountSet(flags[1..]) == (if !is2FAEnabled then 1 else 0) + CountSet([oldPassword]);
    assert CountSet(flags) == (if !isEmailVerified then 1 else 0) + (if !is2FAEnabled then 1 else 0) + (if oldPassword then 1 else 0);
  }

  /** A password that was never set costs nothing, and one set within the last 72 days costs nothing either. */
  lemma RecentOrUnsetPasswordIsNotDeducted(passwordSetAt: Option<int>, now: int)
    requires passwordSetAt.None? || now - passwordSetAt.value <= FullAgeMs * 8 / 10
    ensures !AgeAboveEighty(passwordSetAt, now)
    ensures AgePercentage(passwordSetAt, now) <= 80
  {
  }

  /** Another failed attempt never raises the score, and a further safeguard never lowers it. */
  lemma ScoreIsMonotone(failed: int, isEmailVerified: bool, is2FAEnabled: bool, passwordSetAt: Option<int>, now: int)
    ensures Score(failed + 1, isEmailVerified, is2FAEnabled, passwordSetAt, now)
         <= Score(failed, isEmailVerified, is2FAEnabled, passwordSetAt, now)
    ensures Score(failed, isEmailVerified, false, passwordSetAt, now)
         <= Score(failed, isEmailVerified, true, passwordSetAt, now)
    ensures Score(failed, false, is2FAEnabled, passwordSetAt, now)
         <= Score(failed, true, is2FAEnabled, passwordSetAt, now)
  {
  }

  datatype Battery = Full | Medium | Low | Warning

  /** `getBatteryIcon()`. */
  function BatteryIcon(failedLoginAttempts: int): Battery {
    if failedLoginAttempts == 0 then Full
    else if failedLoginAttempts <= 2 then Medium
    else if failedLoginAttempts <= 4 then Low
    else Warning
  }

  function BatteryLevel(b: Battery): nat {
    match b
    case Full => 0
    case Medium => 1
    case Low => 2
    case Warning => 3
  }

  /**
   * For a count of failed attempts: none is full, one or two medium, three or four low,
   * five or more the warning; more attempts never show a fuller battery.
   */
  lemma BatteryThresholds(failed: nat, more: nat)
    requires failed <= more
    ensures BatteryIcon(failed) == Full <==> failed == 0
    ensures BatteryIcon(failed) == Medium <==> 1 <= failed <= 2
    ensures BatteryIcon(failed) == Low <==> 3 <= failed <= 4
    ensures BatteryIcon(failed) == Warning <==> failed >= 5
    ensures BatteryLevel(BatteryIcon(failed)) <= BatteryLevel(BatteryIcon(more))
  {
  }

  datatype Colour = Green | Yellow | Red

  /** The score's text colour. */
  function ScoreColour(score: int): (c: Colour)
    ensures c == Green <==> score > 80
    ensures c == Red <==> score <= 60
  {
    if score > 80 then Green else if score > 60 then Yellow else Red
  }

  /**
   * A perfect account (no failed attempts, verified email, 2FA, a recent or unset password)
   * scores 100 and shows green; one failed attempt still shows green, but a second one
   * (a score of exactly 80) or any one missing safeguard alone drops it to yellow.
   */
  lemma ColourOfTypicalAccounts(passwordSetAt: Option<int>, now: int)
    requires !AgeAboveEighty(passwordSetAt, now)
    ensures Score(0, true, true, passwordSetAt, now) == 100
    ensures ScoreColour(Score(1, true, true, passwordSetAt, now)) == Green
    ensures ScoreColour(Score(2, true, true, passwordSetAt, now)) == Yellow
    ensures ScoreColour(Score(0, false, true, passwordSetAt, now)) == Yellow
    ensures ScoreColour(Score(0, true, false, passwordSetAt, now)) == Yellow
  {
  }
}
