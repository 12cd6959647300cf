/**
 * `EditProfileDialog`: the profile form's validation rules, its initial values taken from the
 * member row, and the submit handler that writes the profile fields back to that row.
 * Lengths are counted in characters; email syntax is a parameter (`isEmail`).
 */
module EditProfile {
  import opened Wrappers
  import opened Effects
  import opened Text
  import opened Records

  /** The validated fields, named as in the form. */
  datatype Field = FullName | Email | Phone | Address | Town | Postcode

  /** A validation message attached to a field. */
  datatype Issue = Issue(field: Field, message: string)

  datatype ProfileValues = ProfileValues(
    fullName: string,
    dateOfBirth: Option<string>,
    email: string,
    phone: string,
    address: string,
    town: string,
    postcode: string)

  const NameMin := 2
  const PhoneMin := 10
  const AddressMin := 5
  const TownMin := 2
  const PostcodeMin := 5

  const NameMessage := "Name must be at least 2 characters."
  const EmailMessage := "Please enter a valid email address."
  const PhoneMessage := "Phone number must be at least 10 digits."
  const AddressMessage := "Address must be at least 5 characters."
  const TownMessage := "Town must be at least 2 characters."
  const PostcodeMessage := "Postcode must be at least 5 characters."

  /** The rules every field must meet; `date_of_birth` is optional and unchecked. */
  predicate ProfileRules(v: ProfileValues, isEmail: string -> bool) {
    |v.fullName| >= NameMin && isEmail(v.email) && |v.phone| >= PhoneMin
    && |v.address| >= AddressMin && |v.town| >= TownMin && |v.postcode| >= PostcodeMin
  }

  /** One issue for a failing rule, none for a passing one. */
  function Check(ok: bool, field: Field, message: string): (issues: seq<Issue>)
    ensures issues == [] <==> ok
    ensures forall x :: x in issues ==> x.field == field
  {
    if ok then [] else [Issue(field, message)]
  }

  /** The schema's issues, one per failing field, in the order the fields are declared. */
  function ProfileIssues(v: ProfileValues, isEmail: string -> bool): (issues: seq<Issue>)
    ensures issues == [] <==> ProfileRules(v, isEmail)
    ensures |issues| <= 6
  {
    Check(|v.fullName| >= NameMin, FullName, NameMessage)
    + Check(isEmail(v.email), Email, EmailMessage)
    + Check(|v.phone| >= PhoneMin, Phone, PhoneMessage)
    + Check(|v.address| >= AddressMin, Address, AddressMessage)
    + Check(|v.town| >= TownMin, Town, TownMessage)
    + Check(|v.postcode| >= PostcodeMin, Postcode, PostcodeMessage)
  }

  /**
   * The phone rule alone decides whether the phone field is reported: a short number is
   * reported with its message whatever else is wrong, and a long enough one never is. The
   * rule counts characters, so ten spaces pass although the message speaks of digits.
   */
  lemma PhoneIssueIffShort(v: ProfileValues, isEmail: string -> bool)
    ensures Issue(Phone, PhoneMessage) in ProfileIssues(v, isEmail) <==> |v.phone| < PhoneMin
  {
    var x := Issue(Phone, PhoneMessage);
    assert x !in Check(|v.fullName| >= NameMin, FullName, NameMessage);
    assert x !in Check(isEmail(v.email), Email, EmailMessage);
    assert x !in Check(|v.address| >= AddressMin, Address, AddressMessage);
    assert x !in Check(|v.town| >= TownMin, Town, TownMessage);
    assert x !in Check(|v.postcode| >= PostcodeMin, Postcode, PostcodeMessage);
  }

  /** The date of birth, present or not, never changes the verdict. */
  lemma DateOfBirthIsOptional(v: ProfileValues, isEmail: string -> bool, dob: Option<string>)
    ensures ProfileIssues(v.(dateOfBirth := dob), isEmail) == ProfileIssues(v, isEmail)
  {
  }

  /** `defaultValues`: each `member.field || ""`. */
  function DefaultValues(m: MemberRow): (v: ProfileValues)
    ensures v.dateOfBirth.Some?
    ensures m.fullName.Some? ==> v.fullName == m.fullName.value
    ensures m.fullName.None? ==> v.fullName == ""
  {
    ProfileValues(m.fullName.GetOr(""), Some(m.dateOfBirth.GetOr("")), m.email.GetOr(""), m.phone.GetOr(""),
                  m.address.GetOr(""), m.town.GetOr(""), m.postcode.GetOr(""))
  }

  /**
   * The update payload applied to a row. A date of birth the form leaves undefined is dropped
   * from the JSON body, so that column is only written when a value is present.
   */
  function ApplyProfile(row: MemberRow, v: ProfileValues): MemberRow {
    row.(fullName := Some(v.fullName),
         dateOfBirth := if v.dateOfBirth.Some? then v.dateOfBirth else row.dateOfBirth,
         email := Some(v.email), phone := Some(v.phone), address := Some(v.address),
         town := Some(v.town), postcode := Some(v.postcode))
  }

  /**
   * The update writes the profile fields and nothing else: id, member number, status,
   * collector, lock, reset flag, verification and note are untouched. Saving the form's
   * unedited defaults gives a row whose profile reads back as the same defaults.
   */
  lemma ApplyProfileTouchesOnlyProfile(row: MemberRow, v: ProfileValues)
    ensures var r := ApplyProfile(row, v);
      && r.id == row.id && r.memberNumber == row.memberNumber && r.status == row.status
      && r.collector == row.collector && r.lockedUntil == row.lockedUntil
      && r.passwordResetRequired == row.passwordResetRequired && r.verified == row.verified
      && r.adminNote == row.adminNote
      && (v.dateOfBirth.Some? ==> DefaultValues(r) == v)
  {
  }

  /** The dialog's state and the `members` table it writes to. */
  datatype DialogState = DialogState(isSubmitting: bool, table: seq<MemberRow>)

  const UpdatedMessage := "Profile updated successfully"
  const FallbackMessage := "Failed to update profile"

  /** `onSubmit(values)` for the member with id `memberId`; `error` is the update's error, if any. */
  function AfterSubmit(s: DialogState, memberId: string, v: ProfileValues, error: Option<Failure>): (DialogState, seq<Effect>) {
    var call := Backend(UpdateMemberProfile(memberId));
    match error
    case Some(e) =>
      (s.(isSubmitting := false), [call, Toast(Error, if Truthy(e.message) then e.message else FallbackMessage, "")])
    case None =>
      (DialogState(false, UpdateById(s.table, memberId, (row: MemberRow) => ApplyProfile(row, v))),
       [call, Toast(Success, UpdatedMessage, ""), Callback("onProfileUpdated"), Callback("onOpenChange(false)")])
  }

  /**
   * `onProfileUpdated` runs and the dialog asks to close exactly when the update succeeds; a
   * failure leaves the table as it was and reports the error's message (or the fallback when
   * it is empty). `isSubmitting` is false afterwards either way.
   */
  lemma SubmitOutcome(s: DialogState, memberId: string, v: ProfileValues, error: Option<Failure>)
    ensures var (r, effects) := AfterSubmit(s, memberId, v, error);
      && !r.isSubmitting && |r.table| == |s.table|
      && (Callback("onProfileUpdated") in effects <==> error.None?)
      && (Callback("onOpenChange(false)") in effects <==> error.None?)
      && (error.Some? ==> r.table == s.table)
      && (error.Some? && error.value.message == "" ==> effects[1] == Toast(Error, FallbackMessage, ""))
      && (error.None? ==> forall i :: 0 <= i < |s.table| ==>
            r.table[i] == if s.table[i].id == memberId then ApplyProfile(s.table[i], v) else s.table[i])
  {
    var (r, effects) := AfterSubmit(s, memberId, v, error);
    if error.Some? {
      assert effects == [effects[0], effects[1]];
      assert Callback("onProfileUpdated") != effects[0] && Callback("onProfileUpdated") != effects[1];
      assert Callback("onOpenChange(false)") != effects[0] && Callback("onOpenChange(false)") != effects[1];
    }
  }

  /** The dialog's state as fields, with the `members` table and the effects performed so far. */
  class Dialog {
    const member: MemberRow
    var isSubmitting: bool
    var table: seq<MemberRow>
    var trace: seq<Effect>

    function State(): DialogState
      reads this
    {
      DialogState(isSubmitting, table)
    }

    constructor (m: MemberRow, rows: seq<MemberRow>)
      ensures member == m && State() == DialogState(false, rows) && trace == []
    {
      member := m;
      isSubmitting := false;
      table := rows;
      trace := [];
    }

    /** The form's submit, reached only with values the schema accepts. */
    method Submit(v: ProfileValues, isEmail: string -> bool, error: Option<Failure>)
      requires ProfileRules(v, isEmail)
      modifies this
      ensures var (after, effects) := AfterSubmit(old(State()), member.id, v, error);
        State() == after && trace == old(trace) + effects
    {
      isSubmitting := true;
      trace := trace + [Backend(UpdateMemberProfile(member.id))];
      match error {
        case Some(e) =>
          trace := trace + [Toast(Error, if Truthy(e.message) then e.message else FallbackMessage, "")];
        case None =>
          table := UpdateById(table, member.id, (row: MemberRow) => ApplyProfile(row, v));
          trace := trace + [Toast(Success, UpdatedMessage, ""), Callback("onProfileUpdated"), Callback("onOpenChange(false)")];
      }
      isSubmitting := false;
    }
  }
}
