/** `AdminRoute` and `ManagerRoute`: what a role-guarded route renders. */
module Gates {
  import opened Wrappers
  import opened Roles

  datatype GateOutcome = Spinner | Redirect(to: string, replace: bool) | Children

  /** Where both guards send a session they refuse. */
  const MemberDashboard := "/dashboard/member"

  /** `AdminRoute`: the spinner while loading, else the children for an admin, else a redirect. */
  function AdminGate(info: RoleInfo): (g: GateOutcome)
    ensures info.loading ==> g == Spinner
    ensures g == Children <==> !info.loading && info.isAdmin
    ensures !info.loading && !info.isAdmin ==> g == Redirect(MemberDashboard, true)
  {
    if info.loading then Spinner
    else if !info.isAdmin then Redirect(MemberDashboard, true)
    else Children
  }

  /** `ManagerRoute`: like `AdminRoute`, but managers and admins are both admitted. */
  function ManagerGate(info: RoleInfo): (g: GateOutcome)
    ensures info.loading ==> g == Spinner
    ensures g == Children <==> !info.loading && (info.isManager || info.isAdmin)
    ensures !info.loading && !info.isManager && !info.isAdmin ==> g == Redirect(MemberDashboard, true)
  {
    if info.loading then Spinner
    else if !info.isManager && !info.isAdmin then Redirect(MemberDashboard, true)
    else Children
  }

  /** Every session the admin guard admits, the manager guard admits too. */
  lemma AdminAdmittedByManagerGate(info: RoleInfo)
    ensures AdminGate(info) == Children ==> ManagerGate(info) == Children
  {
  }

  /** Once the session has settled, the guards admit exactly by the stored role. */
  lemma GatesByRole(dbUser: Option<DbUser>)
    ensures AdminGate(UseRole(dbUser, false)) == Children <==> RoleOf(dbUser) == Some(AdminRole)
    ensures ManagerGate(UseRole(dbUser, false)) == Children
      <==> RoleOf(dbUser) == Some(AdminRole) || RoleOf(dbUser) == Some(ManagerRole)
  {
    FlagsExact(dbUser, false);
  }

  /** The default member role (no record, no role, or "member") is refused by the manager guard. */
  lemma MemberRefusedByManagerGate(dbUser: Option<DbUser>)
    requires UseRole(dbUser, false).role == MemberRole
    ensures ManagerGate(UseRole(dbUser, false)) == Redirect(MemberDashboard, true)
  {
  }
}
