/**
 * `MembersListContent`: the permission flags derived from the signed-in user's roles, one
 * member card per member, and when the pagination controls appear.
 */
module MembersListContent {
  import opened Wrappers
  import opened Records

  datatype RolePermissions = RolePermissions(isAdmin: bool, isCollector: bool, isMember: bool, hasMultipleRoles: bool)

  /** `roles.includes(role)`, scanning from the front. */
  function Includes(roles: seq<string>, role: string): bool {
    if |roles| == 0 then false else roles[0] == role || Includes(roles[1..], role)
  }

  /** `includes` holds exactly when the role is one of the list's elements. */
  lemma {:induction false} IncludesMeansMember(roles: seq<string>, role: string)
    ensures Includes(roles, role) <==> role in roles
  {
    if |roles| > 0 {
      IncludesMeansMember(roles[1..], role);
      assert roles == [roles[0]] + roles[1..];
    }
  }

  /** `userRoles?.includes(role) || false`: an absent list holds no role. */
  function Holds(userRoles: Option<seq<string>>, role: string): bool {
    match userRoles
    case None => false
    case Some(roles) => Includes(roles, role)
  }

  /** `rolePermissions`, from the role list (absent while the roles are unknown). */
  function Permissions(userRoles: Option<seq<string>>): RolePermissions {
    RolePermissions(
      Holds(userRoles, "admin"),
      Holds(userRoles, "collector"),
      Holds(userRoles, "member"),
      (if userRoles.Some? then |userRoles.value| else 0) > 1)
  }

  /**
   * Each flag is set exactly when the list is present and contains that role, and
   * `hasMultipleRoles` exactly when it is present with more than one entry.
   */
  lemma PermissionsFollowRoles(userRoles: Option<seq<string>>)
    ensures var p := Permissions(userRoles);
      && (p.isAdmin <==> userRoles.Some? && "admin" in userRoles.value)
      && (p.isCollector <==> userRoles.Some? && "collector" in userRoles.value)
      && (p.isMember <==> userRoles.Some? && "member" in userRoles.value)
      && (p.hasMultipleRoles <==> userRoles.Some? && |userRoles.value| > 1)
  {
    if userRoles.Some? {
      IncludesMeansMember(userRoles.value, "admin");
      IncludesMeansMember(userRoles.value, "collector");
      IncludesMeansMember(userRoles.value, "member");
    }
  }

  /** A single role can never count as several. */
  lemma OneRoleIsNotMultiple(role: string)
    ensures !Permissions(Some([role])).hasMultipleRoles
    ensures Permissions(None) == RolePermissions(false, false, false, false)
  {
  }

  /** One `MemberCard`: its member, the page's `userRole`, the shared flags, and the id its edit and delete buttons pass on. */
  datatype Card = Card(member: MemberRow, userRole: Option<string>, permissions: RolePermissions, actionId: string)

  datatype Pagination = Pagination(currentPage: int, totalPages: int)

  /** What the component shows: a spinner or the cards, and optionally the pagination controls. */
  datatype Screen = Screen(cards: Option<seq<Card>>, pagination: Option<Pagination>)

  /** `members.map(member => <MemberCard …/>)`. */
  function CardsFor(members: seq<MemberRow>, userRole: Option<string>, permissions: RolePermissions): (cards: seq<Card>)
    ensures |cards| == |members|
    ensures forall i :: 0 <= i < |members| ==> cards[i].member == members[i] && cards[i].actionId == members[i].id
    ensures forall c :: c in cards ==> c.userRole == userRole && c.permissions == permissions
  {
    if |members| == 0 then []
    else [Card(members[0], userRole, permissions, members[0].id)] + CardsFor(members[1..], userRole, permissions)
  }

  /** The rendered content. */
  function Render(members: seq<MemberRow>, isLoading: bool, userRole: Option<string>, userRoles: Option<seq<string>>,
                  currentPage: int, totalPages: int): Screen
  {
    Screen(
      if isLoading then None else Some(CardsFor(members, userRole, Permissions(userRoles))),
      if !isLoading && |members| > 0 && totalPages > 1 then Some(Pagination(currentPage, totalPages)) else None)
  }

  /**
   * While loading only the spinner shows; otherwise there is one card per member, in list
   * order, all with the flags derived from the user's roles. The pagination controls show
   * exactly when not loading, with at least one member and more than one page, and they get
   * the page numbers unchanged.
   */
  lemma RenderShowsCardsAndPagination(members: seq<MemberRow>, isLoading: bool, userRole: Option<string>,
                                      userRoles: Option<seq<string>>, currentPage: int, totalPages: int)
    ensures var s := Render(members, isLoading, userRole, userRoles, currentPage, totalPages);
      && (s.cards.None? <==> isLoading)
      && (s.cards.Some? ==> |s.cards.value| == |members|)
      && (s.cards.Some? ==> forall i :: 0 <= i < |members| ==>
            s.cards.value[i].member == members[i] && s.cards.value[i].permissions == Permissions(userRoles))
      && (s.pagination.Some? <==> !isLoading && |members| > 0 && totalPages > 1)
      && (s.pagination.Some? ==> s.pagination.value == Pagination(currentPage, totalPages))
  {
    var s := Render(members, isLoading, userRole, userRoles, currentPage, totalPages);
    if s.cards.Some? {
      assert forall i :: 0 <= i < |members| ==> s.cards.value[i] in s.cards.value;
    }
  }
}
