/**
 * The validation schema of the password form: an optional current password,
 * a new password that must meet the policy, and a confirmation that must equal it.
 * Every failing rule yields an issue; issues come in the order the rules are declared.
 */
module PasswordPolicy {
  import opened Wrappers
  import opened Text

  datatype PasswordFormValues = PasswordFormValues(
    currentPassword: Option<string>,
    newPassword: string,
    confirmPassword: string)

  /** A validation message attached to a form field. */
  datatype Issue = Issue(path: string, message: string)

  const MinLength: nat := 8
  const SpecialChars: string := "!@#$%^&*(),.?\":{}|<>"

  const TooShort := "Password must be at least 8 characters"
  const NoUpper := "Password must contain at least one uppercase letter"
  const NoLower := "Password must contain at least one lowercase letter"
  const NoDigit := "Password must contain at least one number"
  const NoSpecial := "Password must contain at least one special character"
  const Mismatch := "Passwords don't match"

  predicate IsSpecial(c: char) { c in SpecialChars }

  predicate HasUpper(s: string) { exists i :: 0 <= i < |s| && IsUpper(s[i]) }
  predicate HasLower(s: string) { exists i :: 0 <= i < |s| && IsLower(s[i]) }
  predicate HasDigit(s: string) { exists i :: 0 <= i < |s| && IsDigit(s[i]) }
  predicate HasSpecial(s: string) { exists i :: 0 <= i < |s| && IsSpecial(s[i]) }

  /** The password policy: length at least 8 and one character of each of the four classes. */
  predicate MeetsPolicy(p: string) {
    |p| >= MinLength && HasUpper(p) && HasLower(p) && HasDigit(p) && HasSpecial(p)
  }

  /** The issues the `newPassword` field raises, in declaration order. */
  function NewPasswordIssues(p: string): (issues: seq<Issue>)
    ensures issues == [] <==> MeetsPolicy(p)
    ensures forall i :: 0 <= i < |issues| ==> issues[i].path == "newPassword"
    ensures |p| < MinLength ==> issues != [] && issues[0].message == TooShort
    ensures |p| >= MinLength && !HasUpper(p) ==> issues[0].message == NoUpper
  {
    (if |p| < MinLength then [Issue("newPassword", TooShort)] else [])
    + (if !HasUpper(p) then [Issue("newPassword", NoUpper)] else [])
    + (if !HasLower(p) then [Issue("newPassword", NoLower)] else [])
    + (if !HasDigit(p) then [Issue("newPassword", NoDigit)] else [])
    + (if !HasSpecial(p) then [Issue("newPassword", NoSpecial)] else [])
  }

  /**
   * All issues of the schema. The confirmation check is an object-level refinement;
   * it still runs when the new password failed a rule, so both kinds can be reported.
   */
  function SchemaIssues(v: PasswordFormValues): (issues: seq<Issue>)
    ensures issues == [] <==> MeetsPolicy(v.newPassword) && v.newPassword == v.confirmPassword
    ensures v.newPassword != v.confirmPassword ==> issues[|issues| - 1] == Issue("confirmPassword", Mismatch)
    ensures v.newPassword == v.confirmPassword ==> forall i :: 0 <= i < |issues| ==> issues[i].path == "newPassword"
  {
    NewPasswordIssues(v.newPassword)
    + (if v.newPassword != v.confirmPassword then [Issue("confirmPassword", Mismatch)] else [])
  }

  predicate IsValid(v: PasswordFormValues) { SchemaIssues(v) == [] }

  /** The current password is optional: it never affects validation (the token path hides it). */
  lemma CurrentPasswordNeverValidated(v: PasswordFormValues, current: Option<string>)
    ensures SchemaIssues(v.(currentPassword := current)) == SchemaIssues(v)
    ensures IsValid(PasswordFormValues(None, v.newPassword, v.confirmPassword)) <==> IsValid(v)
  {
  }

  /** A password that meets the policy but differs from its confirmation fails only on the confirmation. */
  lemma MismatchIsTheOnlyIssue(v: PasswordFormValues)
    requires MeetsPolicy(v.newPassword) && v.newPassword != v.confirmPassword
    ensures SchemaIssues(v) == [Issue("confirmPassword", Mismatch)]
  {
  }

  /** "short1!" has seven characters: the first issue is the length rule. */
  lemma ShortPasswordRejected()
    ensures SchemaIssues(PasswordFormValues(None, "short1!", "short1!"))[0] == Issue("newPassword", TooShort)
    ensures !IsValid(PasswordFormValues(None, "short1!", "short1!"))
  {
  }

  /** "Valid1Pass!" satisfies every rule. */
  lemma ExamplePasswordAccepted()
    ensures IsValid(PasswordFormValues(None, "Valid1Pass!", "Valid1Pass!"))
  {
    var p := "Valid1Pass!";
    assert IsUpper(p[0]) && IsLower(p[1]) && IsDigit(p[5]) && IsSpecial(p[10]);
  }
}
