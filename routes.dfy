/**
 * The client's route table: which URL patterns exist, which guards wrap them
 * and which page they render. A path is the list of its non-empty segments
 * (`/dashboard/admin` is `["dashboard", "admin"]`).
 */
module Routes {
  import opened Wrappers
  import opened Roles
  import opened Gates

  type Path = seq<string>

  /** A pattern segment: a literal, or a dynamic `:id` that matches any non-empty segment. */
  datatype Segment = Lit(name: string) | Param

  /** The wrappers around a route element, outermost first. */
  datatype Guard = PrivateGuard | AdminGuard | ManagerGuard

  datatype Page =
    | Home | ClubsPage | ClubDetailsPage | EventsPage | EventDetailsPage | LoginPage | RegisterPage
    | DashboardShell | ProfilePage
    | AdminOverviewPage | ManageUsersPage | ManageClubsPage | AdminPaymentsPage
    | ManagerOverviewPage | MyClubsPage | CreateClubPage | EditClubPage | ClubMembersPage
    | ManagerEventsPage | CreateEventPage | EditEventPage | EventRegistrationsPage
    | MemberOverviewPage | MyMembershipsPage | MyEventsPage | PaymentHistoryPage
    | NotFoundPage

  datatype Route = Route(pattern: seq<Segment>, guards: seq<Guard>, page: Page)

  /** The table in declaration order; `/dashboard` itself renders the layout with an empty outlet. */
  const Table: seq<Route> := [
    Route([], [], Home),
    Route([Lit("clubs")], [], ClubsPage),
    Route([Lit("clubs"), Param], [], ClubDetailsPage),
    Route([Lit("events")], [], EventsPage),
    Route([Lit("events"), Param], [], EventDetailsPage),
    Route([Lit("login")], [], LoginPage),
    Route([Lit("register")], [], RegisterPage),
    Route([Lit("dashboard")], [PrivateGuard], DashboardShell),
    Route([Lit("dashboard"), Lit("profile")], [PrivateGuard], ProfilePage),
    Route([Lit("dashboard"), Lit("admin")], [PrivateGuard, AdminGuard], AdminOverviewPage),
    Route([Lit("dashboard"), Lit("admin"), Lit("users")], [PrivateGuard, AdminGuard], ManageUsersPage),
    Route([Lit("dashboard"), Lit("admin"), Lit("clubs")], [PrivateGuard, AdminGuard], ManageClubsPage),
    Route([Lit("dashboard"), Lit("admin"), Lit("payments")], [PrivateGuard, AdminGuard], AdminPaymentsPage),
    Route([Lit("dashboard"), Lit("manager")], [PrivateGuard, ManagerGuard], ManagerOverviewPage),
    Route([Lit("dashboard"), Lit("manager"), Lit("clubs")], [PrivateGuard, ManagerGuard], MyClubsPage),
    Route([Lit("dashboard"), Lit("manager"), Lit("clubs"), Lit("create")], [PrivateGuard, ManagerGuard], CreateClubPage),
    Route([Lit("dashboard"), Lit("manager"), Lit("clubs"), Param, Lit("edit")], [PrivateGuard, ManagerGuard], EditClubPage),
    Route([Lit("dashboard"), Lit("manager"), Lit("clubs"), Param, Lit("members")], [PrivateGuard, ManagerGuard], ClubMembersPage),
    Route([Lit("dashboard"), Lit("manager"), Lit("events")], [PrivateGuard, ManagerGuard], ManagerEventsPage),
    Route([Lit("dashboard"), Lit("manager"), Lit("events"), Lit("create")], [PrivateGuard, ManagerGuard], CreateEventPage),
    Route([Lit("dashboard"), Lit("manager"), Lit("events"), Param, Lit("edit")], [PrivateGuard, ManagerGuard], EditEventPage),
    Route([Lit("dashboard"), Lit("manager"), Lit("events"), Param, Lit("registrations")], [PrivateGuard, ManagerGuard], EventRegistrationsPage),
    Route([Lit("dashboard"), Lit("member")], [PrivateGuard], MemberOverviewPage),
    Route([Lit("dashboard"), Lit("member"), Lit("memberships")], [PrivateGuard], MyMembershipsPage),
    Route([Lit("dashboard"), Lit("member"), Lit("events")], [PrivateGuard], MyEventsPage),
    Route([Lit("dashboard"), Lit("member"), Lit("payments")], [PrivateGuard], PaymentHistoryPage)
  ]

  predicate SegmentMatches(s: Segment, name: string) {
    match s
    case Lit(n) => name == n
    case Param => name != ""
  }

  predicate Matches(pattern: seq<Segment>, path: Path) {
    |pattern| == |path| && forall k :: 0 <= k < |path| ==> SegmentMatches(pattern[k], path[k])
  }

  /** The first route of `routes` whose pattern matches `path`. */
  function FirstMatch(routes: seq<Route>, path: Path): (r: Option<Route>)
    ensures r.None? <==> forall k :: 0 <= k < |routes| ==> !Matches(routes[k].pattern, path)
    ensures r.Some? ==> exists k :: (0 <= k < |routes| && routes[k] == r.value && Matches(r.value.pattern, path)
      && forall j :: 0 <= j < k ==> !Matches(routes[j].pattern, path))
  {
    if |routes| == 0 then None
    else if Matches(routes[0].pattern, path) then Some(routes[0])
    else
      var rest := FirstMatch(routes[1..], path);
      assert forall j :: 1 <= j < |routes| ==> routes[j] == routes[1..][j - 1];
      rest
  }

  /** The route a path renders: the matching table entry, or the `*` catch-all `NotFound`. */
  function Resolve(path: Path): Route {
    match FirstMatch(Table, path)
    case Some(r) => r
    case None => Route([], [], NotFoundPage)
  }

  /**
   * The position of the table entry for a path, found from its literal
   * segments instead of by scanning; `None` where the table has no entry.
   */
  function Dispatch(path: Path): Option<nat> {
    if |path| == 0 then Some(0)
    else if |path| == 1 then
      if path[0] == "clubs" then Some(1)
      else if path[0] == "events" then Some(3)
      else if path[0] == "login" then Some(5)
      else if path[0] == "register" then Some(6)
      else if path[0] == "dashboard" then Some(7)
      else None
    else if path[0] == "clubs" && |path| == 2 && path[1] != "" then Some(2)
    else if path[0] == "events" && |path| == 2 && path[1] != "" then Some(4)
    else if path[0] != "dashboard" then None
    else if |path| == 2 then
      if path[1] == "profile" then Some(8)
      else if path[1] == "admin" then Some(9)
      else if path[1] == "manager" then Some(13)
      else if path[1] == "member" then Some(22)
      else None
    else if |path| == 3 then
      if path[1] == "admin" then
        if path[2] == "users" then Some(10)
        else if path[2] == "clubs" then Some(11)
        else if path[2] == "payments" then Some(12)
        else None
      else if path[1] == "manager" then
        if path[2] == "clubs" then Some(14)
        else if path[2] == "events" then Some(18)
        else None
      else if path[1] == "member" then
        if path[2] == "memberships" then Some(23)
        else if path[2] == "events" then Some(24)
        else if path[2] == "payments" then Some(25)
        else None
      else None
    else if path[1] != "manager" then None
    else if |path| == 4 then
      if path[2] == "clubs" && path[3] == "create" then Some(15)
      else if path[2] == "events" && path[3] == "create" then Some(19)
      else None
    else if |path| == 5 && path[3] != "" then
      if path[2] == "clubs" && path[4] == "edit" then Some(16)
      else if path[2] == "clubs" && path[4] == "members" then Some(17)
      else if path[2] == "events" && path[4] == "edit" then Some(20)
      else if path[2] == "events" && path[4] == "registrations" then Some(21)
      else None
    else None
  }

  /** Every table entry that matches a path is the one `Dispatch` picks for it. */
  lemma DispatchFindsEveryMatch(k: nat, path: Path)
    requires k < |Table| && Matches(Table[k].pattern, path)
    ensures Dispatch(path) == Some(k)
  {
    assert forall j :: 0 <= j < |path| ==> SegmentMatches(Table[k].pattern[j], path[j]);
    if k < 8 {
      DispatchPublic(k, path);
    } else if k < 13 {
      DispatchAdmin(k, path);
    } else if k < 22 {
      DispatchManager(k, path);
    } else {
      DispatchMember(k, path);
    }
  }

  lemma DispatchPublic(k: nat, path: Path)
    requires 0 <= k < 8 && Matches(Table[k].pattern, path)
    ensures Dispatch(path) == Some(k)
  {
    assert |path| == |Table[k].pattern|;
    assert forall j :: 0 <= j < |path| ==> SegmentMatches(Table[k].pattern[j], path[j]);
    if k == 0 {
      assert |path| == 0;
    }
    else if k == 1 {
      assert |path| == 1 && path[0] == "clubs";
    }
    else if k == 2 {
      assert |path| == 2 && path[0] == "clubs" && path[1] != "";
    }
    else if k == 3 {
      assert |path| == 1 && path[0] == "events";
    }
    else if k == 4 {
      assert |path| == 2 && path[0] == "events" && path[1] != "";
    }
    else if k == 5 {
      assert |path| == 1 && path[0] == "login";
    }
    else if k == 6 {
      assert |path| == 1 && path[0] == "register";
    }
    else if k == 7 {
      assert |path| == 1 && path[0] == "dashboard";
    }
  }

  lemma DispatchAdmin(k: nat, path: Path)
    requires 8 <= k < 13 && Matches(Table[k].pattern, path)
    ensures Dispatch(path) == Some(k)
  {
    assert |path| == |Table[k].pattern|;
    assert forall j :: 0 <= j < |path| ==> SegmentMatches(Table[k].pattern[j], path[j]);
    if k == 8 {
      assert |path| == 2 && path[0] == "dashboard" && path[1] == "profile";
    }
    else if k == 9 {
      assert |path| == 2 && path[0] == "dashboard" && path[1] == "admin";
    }
    else if k == 10 {
      assert |path| == 3 && path[0] == "dashboard" && path[1] == "admin" && path[2] == "users";
    }
    else if k == 11 {
      assert |path| == 3 && path[0] == "dashboard" && path[1] == "admin" && path[2] == "clubs";
    }
    else if k == 12 {
      assert |path| == 3 && path[0] == "dashboard" && path[1] == "admin" && path[2] == "payments";
    }
  }

  lemma DispatchManager(k: nat, path: Path)
    requires 13 <= k < 22 && Matches(Table[k].pattern, path)
    ensures Dispatch(path) == Some(k)
  {
    assert |path| == |Table[k].pattern|;
    assert forall j :: 0 <= j < |path| ==> SegmentMatches(Table[k].pattern[j], path[j]);
    if k == 13 {
      assert |path| == 2 && path[0] == "dashboard" && path[1] == "manager";
    }
    else if k == 14 {
      assert |path| == 3 && path[0] == "dashboard" && path[1] == "manager" && path[2] == "clubs";
    }
    else if k == 15 {
      assert |path| == 4 && path[0] == "dashboard" && path[1] == "manager" && path[2] == "clubs" && path[3] == "create";
    }
    else if k == 16 {
      assert |path| == 5 && path[0] == "dashboard" && path[1] == "manager" && path[2] == "clubs" && path[3] != "" && path[4] == "edit";
    }
    else if k == 17 {
      assert |path| == 5 && path[0] == "dashboard" && path[1] == "manager" && path[2] == "clubs" && path[3] != "" && path[4] == "members";
    }
    else if k == 18 {
      assert |path| == 3 && path[0] == "dashboard" && path[1] == "manager" && path[2] == "events";
    }
    else if k == 19 {
      assert |path| == 4 && path[0] == "dashboard" && path[1] == "manager" && path[2] == "events" && path[3] == "create";
    }
    else if k == 20 {
      assert |path| == 5 && path[0] == "dashboard" && path[1] == "manager" && path[2] == "events" && path[3] != "" && path[4] == "edit";
    }
    else if k == 21 {
      assert |path| == 5 && path[0] == "dashboard" && path[1] == "manager" && path[2] == "events" && path[3] != "" && path[4] == "registrations";
    }
  }

  lemma DispatchMember(k: nat, path: Path)
    requires 22 <= k < 26 && Matches(Table[k].pattern, path)
    ensures Dispatch(path) == Some(k)
  {
    assert |path| == |Table[k].pattern|;
    assert forall j :: 0 <= j < |path| ==> SegmentMatches(Table[k].pattern[j], path[j]);
    if k == 22 {
      assert |path| == 2 && path[0] == "dashboard" && path[1] == "member";
    }
    else if k == 23 {
      assert |path| == 3 && path[0] == "dashboard" && path[1] == "member" && path[2] == "memberships";
    }
    else if k == 24 {
      assert |path| == 3 && path[0] == "dashboard" && path[1] == "member" && path[2] == "events";
    }
    else if k == 25 {
      assert |path| == 3 && path[0] == "dashboard" && path[1] == "member" && path[2] == "payments";
    }
  }

  /** No concrete path matches two entries of the table. */
  lemma NoOverlap(i: nat, j: nat, path: Path)
    requires i < |Table| && j < |Table|
    requires Matches(Table[i].pattern, path) && Matches(Table[j].pattern, path)
    ensures i == j
  {
    DispatchFindsEveryMatch(i, path);
    DispatchFindsEveryMatch(j, path);
  }

  /** A path that matches an entry of the table renders that entry. */
  lemma ResolveEntry(k: nat, path: Path)
    requires k < |Table| && Matches(Table[k].pattern, path)
    ensures Resolve(path) == Table[k]
  {
    var i :| 0 <= i < |Table| && Table[i] == Resolve(path) && Matches(Table[i].pattern, path);
    NoOverlap(i, k, path);
  }

  /** A path renders `NotFound` exactly when no entry matches it, and then carries no guard. */
  lemma UnmatchedIsNotFound(path: Path)
    ensures Resolve(path).page == NotFoundPage <==> forall k :: 0 <= k < |Table| ==> !Matches(Table[k].pattern, path)
    ensures Resolve(path).page == NotFoundPage ==> Resolve(path).guards == []
  {
    if FirstMatch(Table, path).Some? {
      var k :| 0 <= k < |Table| && Table[k] == FirstMatch(Table, path).value;
      EntryIsAPage(k);
    }
  }

  lemma EntryIsAPage(k: nat)
    requires k < |Table|
    ensures Table[k].page != NotFoundPage
  {
  }

  predicate UnderDashboard(r: Route) {
    |r.pattern| >= 1 && r.pattern[0] == Lit("dashboard")
  }

  predicate UnderSection(r: Route, section: string) {
    |r.pattern| >= 2 && r.pattern[0] == Lit("dashboard") && r.pattern[1] == Lit(section)
  }

  /**
   * The guard layout: public pages carry no guard, every dashboard entry sits
   * under `PrivateRoute`, `admin` entries add `AdminRoute`, `manager` entries add
   * `ManagerRoute`, and `profile` and the `member` entries add nothing.
   */
  lemma GuardLayout(k: nat)
    requires k < |Table|
    ensures !UnderDashboard(Table[k]) ==> Table[k].guards == []
    ensures UnderDashboard(Table[k]) ==> |Table[k].guards| >= 1 && Table[k].guards[0] == PrivateGuard
    ensures UnderSection(Table[k], "admin") ==> Table[k].guards == [PrivateGuard, AdminGuard]
    ensures UnderSection(Table[k], "manager") ==> Table[k].guards == [PrivateGuard, ManagerGuard]
    ensures UnderSection(Table[k], "member") || UnderSection(Table[k], "profile") ==> Table[k].guards == [PrivateGuard]
  {
  }

  /** Whether the role guards of a route (`AdminRoute`, `ManagerRoute`) all render their children. */
  predicate RoleGuardsAdmit(guards: seq<Guard>, info: RoleInfo) {
    forall k :: 0 <= k < |guards| ==>
      (guards[k] == AdminGuard ==> AdminGate(info) == Children) &&
      (guards[k] == ManagerGuard ==> ManagerGate(info) == Children)
  }

  /** The URL text of a path: `/` for the root, else each segment after a `/`. */
  function Href(path: Path): string {
    if path == [] then "/" else Join(path)
  }

  function Join(path: Path): string {
    if |path| == 0 then "" else "/" + path[0] + Join(path[1..])
  }

  /** The number of `/` characters in `s`. */
  function Slashes(s: string): nat {
    if |s| == 0 then 0 else (if s[0] == '/' then 1 else 0) + Slashes(s[1..])
  }

  /** `s.split("/").length`: one piece more than there are separators. */
  function SplitLength(s: string): nat {
    Slashes(s) + 1
  }

  predicate PlainSegments(path: Path) {
    forall k :: 0 <= k < |path| ==> '/' !in path[k]
  }

  lemma {:induction false} SlashesAppend(a: string, b: string)
    ensures Slashes(a + b) == Slashes(a) + Slashes(b)
  {
    if |a| == 0 {
      assert a + b == b;
    } else {
      assert (a + b)[1..] == a[1..] + b;
      SlashesAppend(a[1..], b);
    }
  }

  lemma {:induction false} SlashesOfPlain(s: string)
    requires '/' !in s
    ensures Slashes(s) == 0
  {
    if |s| > 0 {
      assert s[0] != '/';
      assert forall c :: c in s[1..] ==> c in s;
      SlashesOfPlain(s[1..]);
    }
  }

  /** A path of n segments without `/` in them is written with n separators. */
  lemma {:induction false} SlashesOfJoin(path: Path)
    requires PlainSegments(path)
    ensures Slashes(Join(path)) == |path|
  {
    if |path| > 0 {
      assert Join(path) == "/" + path[0] + Join(path[1..]);
      SlashesAppend("/" + path[0], Join(path[1..]));
      SlashesAppend("/", path[0]);
      SlashesOfPlain(path[0]);
      SlashesOfJoin(path[1..]);
    }
  }

  /** Splitting the URL of a non-root path on `/` yields one piece more than it has segments. */
  lemma SplitLengthOfHref(path: Path)
    requires |path| > 0 && PlainSegments(path)
    ensures SplitLength(Href(path)) == |path| + 1
  {
    SlashesOfJoin(path);
  }

  /** The path both guards redirect a refused session to. */
  const MemberDashboardPath: Path := ["dashboard", "member"]

  /**
   * The guards' redirect target is the member overview, which carries no role
   * guard: a refused session is never redirected again by a role guard.
   */
  lemma RedirectTargetUnguarded()
    ensures Href(MemberDashboardPath) == MemberDashboard
    ensures Resolve(MemberDashboardPath).page == MemberOverviewPage
    ensures Resolve(MemberDashboardPath).guards == [PrivateGuard]
  {
    assert MemberDashboardPath[1..] == ["member"] && ["member"][1..] == [];
    assert Join(["member"]) == "/" + "member" + "";
    assert "/" + "member" + "" == "/member";
    assert Join(MemberDashboardPath) == "/" + "dashboard" + "/member";
    assert "/" + "dashboard" + "/member" == "/dashboard/member";
    ResolveEntry(22, MemberDashboardPath);
  }
}
