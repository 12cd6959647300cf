/**
 * `CollectorMembers`: the members assigned to one collector, who may see them, and the two
 * row actions (activate/deactivate, move to another collector). The `members` table is a
 * field the actions update in place; the reads the query makes are answered by parameters.
 */
module CollectorMembers {
  import opened Wrappers
  import opened Effects
  import opened Text
  import opened Records

  const Admin := "admin"
  const Active := "active"
  const Inactive := "inactive"
  const Pending := "pending"

  /** `roles?.some(r => r.role === 'admin')`, scanning from the front. */
  function SomeAdmin(roles: seq<string>): bool {
    if |roles| == 0 then false else roles[0] == Admin || SomeAdmin(roles[1..])
  }

  /** The user is an administrator exactly when the role rows were returned and one of them is `admin`. */
  function IsAdmin(roles: Option<seq<string>>): (admin: bool)
    ensures admin <==> roles.Some? && Admin in roles.value
  {
    match roles
    case None => false
    case Some(rs) => SomeAdminMeansMember(rs); SomeAdmin(rs)
  }

  lemma {:induction false} SomeAdminMeansMember(roles: seq<string>)
    ensures SomeAdmin(roles) <==> Admin in roles
  {
    if |roles| > 0 {
      SomeAdminMeansMember(roles[1..]);
      assert roles == [roles[0]] + roles[1..];
    }
  }

  /** The tables the query reads, in order. */
  datatype Read = UserRoles | CollectorRecord | MembersOfCollector(name: string)

  /** What the query function resolves to, or the error it throws. */
  datatype QueryResult = Rows(rows: seq<MemberRow>) | QueryThrew(error: Failure)

  /**
   * The query function. `roles` is the caller's `user_roles` rows (null on failure),
   * `ownCollector` the name on the caller's own collector record (null when there is none),
   * `table` the `members` table and `membersError` the error of the final select, if any.
   */
  function FetchMembers(collectorName: string, roles: Option<seq<string>>, ownCollector: Option<string>,
                        table: seq<MemberRow>, membersError: Option<Failure>): (QueryResult, seq<Read>)
  {
    var fetch := if membersError.Some? then QueryThrew(membersError.value) else Rows(RowsOfCollector(table, collectorName));
    if IsAdmin(roles) then (fetch, [UserRoles, MembersOfCollector(collectorName)])
    else if ownCollector != Some(collectorName) then (Rows([]), [UserRoles, CollectorRecord])
    else (fetch, [UserRoles, CollectorRecord, MembersOfCollector(collectorName)])
  }

  /**
   * An administrator gets every member whose collector is `collectorName`, in table order. Anyone
   * else gets that same list only when their own collector record carries that name, and
   * otherwise an empty list without the members table being read at all. A failing members
   * select is thrown.
   */
  lemma VisibilityRule(collectorName: string, roles: Option<seq<string>>, ownCollector: Option<string>,
                       table: seq<MemberRow>, membersError: Option<Failure>)
    ensures var (r, tables) := FetchMembers(collectorName, roles, ownCollector, table, membersError);
      var sees := IsAdmin(roles) || ownCollector == Some(collectorName);
      && (sees && membersError.None? ==> r == Rows(RowsOfCollector(table, collectorName)))
      && (sees && membersError.Some? ==> r == QueryThrew(membersError.value))
      && (!sees ==> r == Rows([]) && MembersOfCollector(collectorName) !in tables)
      && (sees <==> MembersOfCollector(collectorName) in tables)
      && (r.Rows? ==> forall m :: m in r.rows ==> m in table && m.collector == Some(collectorName))
  {
  }

  /** `enabled: !!collectorName && !!session`. */
  predicate QueryEnabled(collectorName: string, session: Option<Session>) {
    Truthy(collectorName) && session.Some?
  }

  /** The status the row action sets: `inactive` for an active member, `active` for any other status. */
  function NextStatus(status: Option<string>): (next: string)
    ensures next == Inactive <==> status == Some(Active)
    ensures next == Active || next == Inactive
  {
    if status == Some(Active) then Inactive else Active
  }

  /** Toggling twice returns an active or inactive member to where it started. */
  lemma ToggleTwiceRestores(status: string)
    requires status == Active || status == Inactive
    ensures NextStatus(Some(NextStatus(Some(status)))) == status
  {
  }

  /** `member.status || 'pending'`: a missing or empty status is shown as pending. */
  function StatusLabel(status: Option<string>): (shown: string)
    ensures shown != ""
    ensures status.Some? && status.value != "" ==> shown == status.value
  {
    if status.Some? && Truthy(status.value) then status.value else Pending
  }

  /** One row of the list: name, member number, status badge, and the toggle's label. */
  datatype Item = Item(fullName: Option<string>, memberNumber: string, statusLabel: string, toggleLabel: string, note: Option<string>)

  function ItemOf(m: MemberRow): (item: Item)
    ensures item.toggleLabel == "Deactivate" <==> NextStatus(m.status) == Inactive
  {
    Item(m.fullName, m.memberNumber, StatusLabel(m.status),
         if m.status == Some(Active) then "Deactivate" else "Activate",
         if m.adminNote.Some? && Truthy(m.adminNote.value) then m.adminNote else None)
  }

  datatype View = Nothing | Spinner | ErrorText(message: string) | NoMembers(collectorName: string) | List(items: seq<Item>)

  /** The render branches, checked in the order the source writes them. */
  function Render(collectorName: string, session: Option<Session>, isLoading: bool, error: Option<Failure>,
                  members: Option<seq<MemberRow>>): (v: View)
    ensures session.None? ==> v == Nothing
    ensures v.List? ==> members.Some? && |v.items| == |members.value| > 0
  {
    if session.None? then Nothing
    else if isLoading then Spinner
    else if error.Some? then ErrorText(error.value.message)
    else if members.None? || |members.value| == 0 then NoMembers(collectorName)
    else List(seq(|members.value|, i requires 0 <= i < |members.value| => ItemOf(members.value[i])))
  }

  /** The dialog state and the table the actions write to. */
  datatype PanelState = PanelState(moveDialogOpen: bool, selectedMember: Option<MemberRow>, newCollector: string,
                                   table: seq<MemberRow>)

  /** The toast text of a successful status change. */
  function StatusToast(m: MemberRow, newStatus: string): Effect {
    Toast(Info, "Status Updated",
          "Member " + m.fullName.GetOr("null") + " has been " + (if newStatus == Active then "activated" else "deactivated") + ".")
  }

  const StatusErrorToast := Toast(Destructive, "Error", "Failed to update member status.")
  const MoveErrorToast := Toast(Destructive, "Error", "Failed to move member to new collector.")
  const Refetch := Callback("refetch")

  /** `handleStatusChange(member, newStatus)`; `error` is the update's error, if any. */
  function AfterStatusChange(s: PanelState, m: MemberRow, newStatus: string, error: Option<Failure>): (PanelState, seq<Effect>) {
    var call := Backend(UpdateMemberStatus(m.id, newStatus));
    if error.Some? then (s, [call, StatusErrorToast])
    else (s.(table := UpdateById(s.table, m.id, (row: MemberRow) => row.(status := Some(newStatus)))), [call, StatusToast(m, newStatus), Refetch])
  }

  /**
   * A successful change gives every row with the member's id the new status and leaves the
   * other rows and the dialog alone, then refetches; a failed one changes nothing and shows
   * the error toast.
   */
  lemma StatusChangeUpdatesOneMember(s: PanelState, m: MemberRow, newStatus: string, error: Option<Failure>)
    ensures var (r, effects) := AfterStatusChange(s, m, newStatus, error);
      && r.moveDialogOpen == s.moveDialogOpen && r.selectedMember == s.selectedMember && r.newCollector == s.newCollector
      && |r.table| == |s.table| && CallCount(effects) == 1
      && (error.Some? ==> r.table == s.table && effects[1] == StatusErrorToast)
      && (error.None? ==> Refetch in effects && forall i :: 0 <= i < |s.table| ==>
            r.table[i] == if s.table[i].id == m.id then s.table[i].(status := Some(newStatus)) else s.table[i])
  {
    var call := Backend(UpdateMemberStatus(m.id, newStatus));
    SingleEffect(call);
    if error.Some? {
      CallCountAppend([call], [StatusErrorToast]);
      SingleEffect(StatusErrorToast);
    } else {
      CallCountAppend([call], [StatusToast(m, newStatus), Refetch]);
      NoCallCounted([StatusToast(m, newStatus), Refetch]);
    }
  }

  /** `handleMoveMember()`; `error` is the update's error, if any. */
  function AfterMove(s: PanelState, error: Option<Failure>): (PanelState, seq<Effect>) {
    if s.selectedMember.None? || !Truthy(s.newCollector) then (s, [])
    else
      var m := s.selectedMember.value;
      var call := Backend(UpdateMemberCollector(m.id, s.newCollector));
      if error.Some? then (s, [call, MoveErrorToast])
      else
        (PanelState(false, None, "", UpdateById(s.table, m.id, (row: MemberRow) => row.(collector := Some(s.newCollector)))),
         [call, Toast(Info, "Member Moved", m.fullName.GetOr("null") + " has been moved to collector " + s.newCollector + "."), Refetch])
  }

  /** Without a selected member or with an empty collector name the handler returns at once. */
  lemma MoveNeedsMemberAndName(s: PanelState, error: Option<Failure>)
    requires s.selectedMember.None? || s.newCollector == ""
    ensures AfterMove(s, error) == (s, [])
  {
  }

  /**
   * A successful move closes the dialog, clears the name and the selection, and reassigns the
   * selected member's rows to the new collector, leaving every other row alone; after it, the
   * member is no longer listed under any other collector. A failed move changes nothing.
   */
  lemma MoveReassignsMember(s: PanelState, error: Option<Failure>, otherCollector: string)
    requires s.selectedMember.Some? && s.newCollector != ""
    requires otherCollector != s.newCollector
    ensures var (r, effects) := AfterMove(s, error);
      var id := s.selectedMember.value.id;
      && effects[0] == Backend(UpdateMemberCollector(id, s.newCollector))
      && (error.Some? ==> r == s && effects == [effects[0], MoveErrorToast])
      && (error.None? ==> !r.moveDialogOpen && r.newCollector == "" && r.selectedMember.None? && Refetch in effects)
      && (error.None? ==> |r.table| == |s.table| && forall i :: 0 <= i < |s.table| && s.table[i].id != id ==> r.table[i] == s.table[i])
      && (error.None? ==> forall row :: row in RowsOfCollector(r.table, otherCollector) ==> row.id != id)
  {
  }

  /** The component's state as fields, with the `members` table and the effects performed so far. */
  class Panel {
    var moveDialogOpen: bool
    var selectedMember: Option<MemberRow>
    var newCollector: string
    var table: seq<MemberRow>
    var trace: seq<Effect>

    function State(): PanelState
      reads this
    {
      PanelState(moveDialogOpen, selectedMember, newCollector, table)
    }

    constructor (rows: seq<MemberRow>)
      ensures State() == PanelState(false, None, "", rows) && trace == []
    {
      moveDialogOpen := false;
      selectedMember := None;
      newCollector := "";
      table := rows;
      trace := [];
    }

    /** The row's toggle: `handleStatusChange(member, member.status === 'active' ? 'inactive' : 'active')`. */
    method ToggleStatus(m: MemberRow, error: Option<Failure>)
      modifies this
      ensures var (after, effects) := AfterStatusChange(old(State()), m, NextStatus(m.status), error);
        State() == after && trace == old(trace) + effects
    {
      var newStatus := if m.status == Some(Active) then Inactive else Active;
      trace := trace + [Backend(UpdateMemberStatus(m.id, newStatus))];
      if error.Some? {
        trace := trace + [StatusErrorToast];
        return;
      }
      table := UpdateById(table, m.id, (row: MemberRow) => row.(status := Some(newStatus)));
      trace := trace + [StatusToast(m, newStatus), Refetch];
    }

    /** "Move to Different Collector": select the member and open the dialog. */
    method SelectForMove(m: MemberRow)
      modifies this
      ensures State() == old(State()).(selectedMember := Some(m), moveDialogOpen := true) && trace == old(trace)
    {
      selectedMember := Some(m);
      moveDialogOpen := true;
    }

    /** The dialog's input. */
    method EditNewCollector(text: string)
      modifies this
      ensures State() == old(State()).(newCollector := text) && trace == old(trace)
    {
      newCollector := text;
    }

    /** Cancel: only the dialog closes; the selection and the typed name stay. */
    method CancelMove()
      modifies this
      ensures State() == old(State()).(moveDialogOpen := false) && trace == old(trace)
    {
      moveDialogOpen := false;
    }

    /** "Move Member": `handleMoveMember()`. */
    method MoveMember(error: Option<Failure>)
      modifies this
      ensures var (after, effects) := AfterMove(old(State()), error);
        State() == after && trace == old(trace) + effects
    {
      if selectedMember.None? || !Truthy(newCollector) {
        return;
      }
      var m := selectedMember.value;
      var target := newCollector;
      trace := trace + [Backend(UpdateMemberCollector(m.id, target))];
      if error.Some? {
        trace := trace + [MoveErrorToast];
        return;
      }
      trace := trace + [Toast(Info, "Member Moved", m.fullName.GetOr("null") + " has been moved to collector " + target + "."), Refetch];
      moveDialogOpen := false;
      newCollector := "";
      selectedMember := None;
      table := UpdateById(table, m.id, (row: MemberRow) => row.(collector := Some(target)));
    }
  }
}
