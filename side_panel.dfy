/**
 * `SidePanel`: the navigation links a role may see, in their fixed order, and which one is
 * highlighted for the current location.
 */
module SidePanel {
  import opened Wrappers
  import opened Lists

  datatype NavLink = NavLink(title: string, href: string)

  const Dashboard := NavLink("Dashboard", "/dashboard")
  const Members := NavLink("Members", "/users")
  const Financials := NavLink("Financials", "/financials")
  const System := NavLink("System", "/system")

  const Links: seq<NavLink> := [Dashboard, Members, Financials, System]

  /** The filter's predicate for one link. */
  predicate Visible(userRole: Option<string>, link: NavLink) {
    if userRole == Some("admin") then true
    else if userRole == Some("collector") then link.title in ["Dashboard", "Members", "Financials"]
    else if userRole == Some("member") then link.title in ["Dashboard"]
    else false
  }

  /** The links shown to a role. */
  function FilteredLinks(userRole: Option<string>): (r: seq<NavLink>)
    ensures IsSubsequence(r, Links)
    ensures forall l :: l in r <==> l in Links && Visible(userRole, l)
  {
    var keep := l => Visible(userRole, l);
    FilterPreservesOrder(Links, keep);
    FilterSelects(Links, keep);
    Filter(Links, keep)
  }

  /** Which role sees which of the four links. */
  lemma VisibilityTable(userRole: Option<string>)
    ensures Visible(userRole, Dashboard) <==> userRole in {Some("admin"), Some("collector"), Some("member")}
    ensures Visible(userRole, Members) <==> userRole in {Some("admin"), Some("collector")}
    ensures Visible(userRole, Financials) <==> userRole in {Some("admin"), Some("collector")}
    ensures Visible(userRole, System) <==> userRole == Some("admin")
  {
    assert "Members" != "Dashboard" by { assert "Members"[0] != "Dashboard"[0]; }
    assert "Financials" != "Dashboard" && "Financials" != "Members" by {
      assert "Financials"[0] != "Dashboard"[0] && "Financials"[0] != "Members"[0];
    }
    assert "System" !in ["Dashboard", "Members", "Financials"] by {
      assert "System"[0] != "Dashboard"[0] && "System"[0] != "Members"[0] && "System"[0] != "Financials"[0];
    }
  }

  /** `FilteredLinks` as the four visibility answers, in link order. */
  lemma FilteredLinksUnfold(userRole: Option<string>)
    ensures FilteredLinks(userRole)
         == (if Visible(userRole, Dashboard) then [Dashboard] else [])
          + ((if Visible(userRole, Members) then [Members] else [])
          + ((if Visible(userRole, Financials) then [Financials] else [])
          + (if Visible(userRole, System) then [System] else [])))
  {
    var keep := l => Visible(userRole, l);
    var l1, l2, l3 := [Members, Financials, System], [Financials, System], [System];
    assert Links[1..] == l1 && l1[1..] == l2 && l2[1..] == l3 && l3[1..] == [];
    assert Filter(l3, keep) == (if keep(System) then [System] else []);
    assert Filter(l2, keep) == (if keep(Financials) then [Financials] else []) + Filter(l3, keep);
    assert Filter(l1, keep) == (if keep(Members) then [Members] else []) + Filter(l2, keep);
  }

  /**
   * Admins see all four links, collectors exactly Dashboard, Members and Financials,
   * members only Dashboard, and any other role or no role nothing.
   */
  lemma LinksPerRole(userRole: Option<string>)
    ensures userRole == Some("admin") ==> FilteredLinks(userRole) == Links
    ensures userRole == Some("collector") ==> FilteredLinks(userRole) == [Dashboard, Members, Financials]
    ensures userRole == Some("member") ==> FilteredLinks(userRole) == [Dashboard]
    ensures userRole !in {Some("admin"), Some("collector"), Some("member")} ==> FilteredLinks(userRole) == []
  {
    VisibilityTable(userRole);
    FilteredLinksUnfold(userRole);
    if userRole == Some("admin") {
      assert FilteredLinks(userRole) == [Dashboard] + ([Members] + ([Financials] + [System]));
    } else if userRole == Some("collector") {
      assert FilteredLinks(userRole) == [Dashboard] + ([Members] + ([Financials] + []));
    } else if userRole == Some("member") {
      assert FilteredLinks(userRole) == [Dashboard] + ([] + ([] + []));
    }
  }

  /** A link is highlighted exactly when the current path is its target. */
  predicate IsActive(pathname: string, link: NavLink) {
    pathname == link.href
  }

  /** The targets are distinct, so at most one shown link is highlighted, whatever the role. */
  lemma AtMostOneActive(pathname: string, userRole: Option<string>, i: nat, j: nat)
    requires i < |FilteredLinks(userRole)| && j < |FilteredLinks(userRole)|
    requires IsActive(pathname, FilteredLinks(userRole)[i]) && IsActive(pathname, FilteredLinks(userRole)[j])
    ensures i == j
  {
    LinksPerRole(userRole);
    var r := FilteredLinks(userRole);
    assert r[i].href == r[j].href;
    assert Dashboard.href[1] == 'd' && Members.href[1] == 'u' && Financials.href[1] == 'f' && System.href[1] == 's';
    assert r[i].href[1] == r[j].href[1];
  }
}
