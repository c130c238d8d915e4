/** `useRole`: the role string and the three role flags derived from the backend user record. */
module Roles {
  import opened Wrappers
  import opened JsValues

  const AdminRole := "admin"
  const ManagerRole := "clubManager"
  const MemberRole := "member"

  /** The backend user record (`dbUser`). */
  datatype DbUser = DbUser(name: string, email: string, photoURL: string, role: Option<string>)

  /** `dbUser?.role`. */
  function RoleOf(dbUser: Option<DbUser>): Option<string> {
    match dbUser
    case Some(u) => u.role
    case None => None
  }

  datatype RoleInfo = RoleInfo(role: string, isAdmin: bool, isManager: bool, isMember: bool, loading: bool)

  /**
   * The hook's result: `role` falls back to "member", each flag compares the
   * stored role with one role name, and `loading` comes from the session.
   */
  function UseRole(dbUser: Option<DbUser>, loading: bool): (info: RoleInfo)
    ensures info.loading == loading
    ensures info.role != ""
    ensures info.isAdmin ==> info.role == AdminRole
    ensures info.isManager ==> info.role == ManagerRole
    ensures info.isMember ==> info.role == MemberRole
  {
    var r := RoleOf(dbUser);
    RoleInfo(TextOr(r, MemberRole), r == Some(AdminRole), r == Some(ManagerRole), r == Some(MemberRole), loading)
  }

  /** A missing record, a missing role and an empty role all read as "member"; any other role is kept. */
  lemma RoleDefault(dbUser: Option<DbUser>, loading: bool)
    ensures RoleOf(dbUser) == None || RoleOf(dbUser) == Some("") ==> UseRole(dbUser, loading).role == MemberRole
    ensures RoleOf(dbUser).Some? && RoleOf(dbUser).value != "" ==> UseRole(dbUser, loading).role == RoleOf(dbUser).value
  {
  }

  /** Each flag holds exactly when the stored role is that role's name. */
  lemma FlagsExact(dbUser: Option<DbUser>, loading: bool)
    ensures UseRole(dbUser, loading).isAdmin <==> RoleOf(dbUser) == Some(AdminRole)
    ensures UseRole(dbUser, loading).isManager <==> RoleOf(dbUser) == Some(ManagerRole)
    ensures UseRole(dbUser, loading).isMember <==> RoleOf(dbUser) == Some(MemberRole)
  {
  }

  /** At most one flag holds, and a role outside the three names sets none of them. */
  lemma AtMostOneFlag(dbUser: Option<DbUser>, loading: bool)
    ensures var info := UseRole(dbUser, loading);
      !(info.isAdmin && info.isManager) && !(info.isAdmin && info.isMember) && !(info.isManager && info.isMember)
    ensures RoleOf(dbUser) != Some(AdminRole) && RoleOf(dbUser) != Some(ManagerRole) && RoleOf(dbUser) != Some(MemberRole)
      ==> var info := UseRole(dbUser, loading); !info.isAdmin && !info.isManager && !info.isMember
  {
  }

  /** Without a record the role reads "member" while `isMember` is false. */
  lemma NoRecordReadsMember(loading: bool)
    ensures UseRole(None, loading).role == MemberRole && !UseRole(None, loading).isMember
  {
  }
}
