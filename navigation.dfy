/**
 * The role-dependent parts of the navigation bar (`getDashboardPath`, the menu
 * role label) and of the dashboard sidebar (`getLinks`, `getRoleLabel`, the
 * `end` flag of each link).
 */
module Navigation {
  import opened Wrappers
  import opened JsValues
  import opened Roles
  import opened Gates
  import opened Routes

  /** Navbar `getDashboardPath`: the overview of the stored role, the member overview otherwise. */
  function DashboardPath(dbUser: Option<DbUser>): Path {
    if RoleOf(dbUser) == Some(AdminRole) then ["dashboard", "admin"]
    else if RoleOf(dbUser) == Some(ManagerRole) then ["dashboard", "manager"]
    else ["dashboard", "member"]
  }

  /** Navbar menu label: `dbUser?.role || "Member"`. */
  function MenuRoleLabel(dbUser: Option<DbUser>): string {
    TextOr(RoleOf(dbUser), "Member")
  }

  /** A sidebar entry: target path and label. */
  datatype NavItem = NavItem(to: Path, text: string)

  const AdminLinks: seq<NavItem> := [
    NavItem(["dashboard", "admin"], "Overview"),
    NavItem(["dashboard", "admin", "users"], "Manage Users"),
    NavItem(["dashboard", "admin", "clubs"], "Manage Clubs"),
    NavItem(["dashboard", "admin", "payments"], "Payments")
  ]

  const ManagerLinks: seq<NavItem> := [
    NavItem(["dashboard", "manager"], "Overview"),
    NavItem(["dashboard", "manager", "clubs"], "My Clubs"),
    NavItem(["dashboard", "manager", "clubs", "create"], "Create Club"),
    NavItem(["dashboard", "manager", "events"], "Events")
  ]

  const MemberLinks: seq<NavItem> := [
    NavItem(["dashboard", "member"], "Overview"),
    NavItem(["dashboard", "member", "memberships"], "My Clubs"),
    NavItem(["dashboard", "member", "events"], "My Events"),
    NavItem(["dashboard", "member", "payments"], "Payment History")
  ]

  /** Sidebar `getLinks`: admin first, then manager, member otherwise. */
  function GetLinks(info: RoleInfo): seq<NavItem> {
    if info.isAdmin then AdminLinks
    else if info.isManager then ManagerLinks
    else MemberLinks
  }

  /** Sidebar `getRoleLabel`, in the same order as `getLinks`. */
  function GetRoleLabel(info: RoleInfo): string {
    if info.isAdmin then "Admin"
    else if info.isManager then "Club Manager"
    else "Member"
  }

  /** The `end` flag of a link: `link.to.split("/").length <= 3`. */
  predicate EndFlag(link: NavItem) {
    SplitLength(Href(link.to)) <= 3
  }

  /** The dashboard section a sidebar label belongs to. */
  function SectionOfLabel(roleLabel: string): string {
    if roleLabel == "Admin" then "admin" else if roleLabel == "Club Manager" then "manager" else "member"
  }

  /** The navbar's dashboard target renders the overview of the stored role. */
  lemma DashboardPathPage(dbUser: Option<DbUser>)
    ensures Resolve(DashboardPath(dbUser)).page == AdminOverviewPage <==> RoleOf(dbUser) == Some(AdminRole)
    ensures Resolve(DashboardPath(dbUser)).page == ManagerOverviewPage <==> RoleOf(dbUser) == Some(ManagerRole)
    ensures Resolve(DashboardPath(dbUser)).page == MemberOverviewPage
      <==> RoleOf(dbUser) != Some(AdminRole) && RoleOf(dbUser) != Some(ManagerRole)
  {
    var p := DashboardPath(dbUser);
    if RoleOf(dbUser) == Some(AdminRole) {
      ResolveEntry(9, p);
    } else if RoleOf(dbUser) == Some(ManagerRole) {
      ResolveEntry(13, p);
    } else {
      ResolveEntry(22, p);
    }
  }

  /** The navbar's dashboard target is admitted by its own role guards for the same settled session. */
  lemma DashboardPathAdmitted(dbUser: Option<DbUser>)
    ensures RoleGuardsAdmit(Resolve(DashboardPath(dbUser)).guards, UseRole(dbUser, false))
  {
    var p := DashboardPath(dbUser);
    var info := UseRole(dbUser, false);
    GatesByRole(dbUser);
    if RoleOf(dbUser) == Some(AdminRole) {
      ResolveEntry(9, p);
      AdmittedUnder(Table[9].guards, info);
    } else if RoleOf(dbUser) == Some(ManagerRole) {
      ResolveEntry(13, p);
      AdmittedUnder(Table[13].guards, info);
    } else {
      ResolveEntry(22, p);
      AdmittedUnder(Table[22].guards, info);
    }
  }

  /** The three guard lists the dashboard uses, and when each admits a session. */
  lemma AdmittedUnder(guards: seq<Guard>, info: RoleInfo)
    requires guards == [PrivateGuard] || guards == [PrivateGuard, AdminGuard] || guards == [PrivateGuard, ManagerGuard]
    ensures guards == [PrivateGuard] ==> RoleGuardsAdmit(guards, info)
    ensures guards == [PrivateGuard, AdminGuard] ==> (RoleGuardsAdmit(guards, info) <==> AdminGate(info) == Children)
    ensures guards == [PrivateGuard, ManagerGuard] ==> (RoleGuardsAdmit(guards, info) <==> ManagerGate(info) == Children)
  {
    assert guards[0] == PrivateGuard;
    if guards == [PrivateGuard, AdminGuard] {
      assert guards[1] == AdminGuard;
    } else if guards == [PrivateGuard, ManagerGuard] {
      assert guards[1] == ManagerGuard;
    }
  }

  /** The navbar label shows the stored role verbatim, "Member" when it is missing or empty. */
  lemma MenuLabelFollowsRole(dbUser: Option<DbUser>)
    ensures RoleOf(dbUser) == None || RoleOf(dbUser) == Some("") ==> MenuRoleLabel(dbUser) == "Member"
    ensures MenuRoleLabel(dbUser) != "Member" ==> MenuRoleLabel(dbUser) == UseRole(dbUser, false).role
    ensures RoleOf(dbUser).Some? && RoleOf(dbUser).value != "" ==> MenuRoleLabel(dbUser) == RoleOf(dbUser).value
  {
  }

  /** The sidebar label names exactly the link list it shows. */
  lemma RoleLabelMatchesLinks(info: RoleInfo)
    ensures GetRoleLabel(info) == "Admin" <==> GetLinks(info) == AdminLinks
    ensures GetRoleLabel(info) == "Club Manager" <==> GetLinks(info) == ManagerLinks
    ensures GetRoleLabel(info) == "Member" <==> GetLinks(info) == MemberLinks
    ensures info.isAdmin ==> GetLinks(info) == AdminLinks
  {
    assert AdminLinks[0].to != ManagerLinks[0].to && AdminLinks[0].to != MemberLinks[0].to;
    assert ManagerLinks[0].to != MemberLinks[0].to;
  }

  /** Every list has four links, all under the `/dashboard/<section>` prefix its label names. */
  lemma LinksUnderOwnSection(info: RoleInfo)
    ensures |GetLinks(info)| == 4
    ensures forall k :: 0 <= k < 4 ==>
      |GetLinks(info)[k].to| >= 2 && GetLinks(info)[k].to[..2] == ["dashboard", SectionOfLabel(GetRoleLabel(info))]
  {
  }

  /** A link's `end` flag holds exactly for the overview, the first link of each list. */
  lemma EndFlagOnlyOverview(info: RoleInfo)
    ensures forall k :: 0 <= k < |GetLinks(info)| ==> (EndFlag(GetLinks(info)[k]) <==> k == 0)
  {
    var links := GetLinks(info);
    forall k | 0 <= k < |links|
      ensures EndFlag(links[k]) <==> k == 0
    {
      assert PlainSegments(links[k].to);
      SplitLengthOfHref(links[k].to);
    }
  }

  /** Every sidebar link of a settled session resolves to a page whose role guards admit that session. */
  lemma SidebarLinksAdmitted(dbUser: Option<DbUser>)
    ensures forall k :: 0 <= k < |GetLinks(UseRole(dbUser, false))| ==>
      var route := Resolve(GetLinks(UseRole(dbUser, false))[k].to);
      route.page != NotFoundPage && RoleGuardsAdmit(route.guards, UseRole(dbUser, false))
  {
    var info := UseRole(dbUser, false);
    if info.isAdmin {
      AdminSidebarAdmitted(info);
    } else if info.isManager {
      ManagerSidebarAdmitted(info);
    } else {
      MemberSidebarAdmitted(info);
    }
  }

  lemma AdminSidebarAdmitted(info: RoleInfo)
    requires !info.loading && info.isAdmin
    ensures forall k :: 0 <= k < |AdminLinks| ==>
      Resolve(AdminLinks[k].to).page != NotFoundPage && RoleGuardsAdmit(Resolve(AdminLinks[k].to).guards, info)
  {
    assert AdminGate(info) == Children;
    ListAdmitted(AdminLinks, [9, 10, 11, 12], info);
  }

  lemma ManagerSidebarAdmitted(info: RoleInfo)
    requires !info.loading && info.isManager
    ensures forall k :: 0 <= k < |ManagerLinks| ==>
      Resolve(ManagerLinks[k].to).page != NotFoundPage && RoleGuardsAdmit(Resolve(ManagerLinks[k].to).guards, info)
  {
    assert ManagerGate(info) == Children;
    ListAdmitted(ManagerLinks, [13, 14, 15, 18], info);
  }

  lemma MemberSidebarAdmitted(info: RoleInfo)
    ensures forall k :: 0 <= k < |MemberLinks| ==>
      Resolve(MemberLinks[k].to).page != NotFoundPage && RoleGuardsAdmit(Resolve(MemberLinks[k].to).guards, info)
  {
    ListAdmitted(MemberLinks, [22, 23, 24, 25], info);
  }

  /** Links that match the given table entries, whose guards all admit the session, are admitted. */
  lemma ListAdmitted(links: seq<NavItem>, entries: seq<nat>, info: RoleInfo)
    requires |links| == |entries|
    requires forall k :: 0 <= k < |entries| ==> entries[k] < |Table| && Matches(Table[entries[k]].pattern, links[k].to)
    requires forall k :: 0 <= k < |entries| ==> RoleGuardsAdmit(Table[entries[k]].guards, info)
    ensures forall k :: 0 <= k < |links| ==>
      Resolve(links[k].to).page != NotFoundPage && RoleGuardsAdmit(Resolve(links[k].to).guards, info)
  {
    forall k | 0 <= k < |links|
      ensures Resolve(links[k].to).page != NotFoundPage && RoleGuardsAdmit(Resolve(links[k].to).guards, info)
    {
      ResolveEntry(entries[k], links[k].to);
      EntryIsAPage(entries[k]);
    }
  }
}
