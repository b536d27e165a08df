/**
 * Role-based access control of the API: the per-organisation permission
 * table, the 403 guard built on it, and the role checkers that admit a user
 * holding an allowed role in any organisation. The `organization_members`
 * node of the database is a parameter: organisation id to username to
 * member record.
 */
module AuthManager {
  import opened Common
  import MultiTenant

  /** A member record: its `role`, if any, and the names of its other keys. */
  datatype MemberData = MemberData(role: Option<string>, otherKeys: set<string>)

  type Memberships = map<string, map<string, MemberData>>

  /** A record with no key at all is falsy in Python. */
  predicate IsEmpty(d: MemberData) { d.role.None? && d.otherKeys == {} }

  /** `member_data.get('role', 'member')` */
  function RoleIn(d: MemberData): string { d.role.GetOr("member") }

  const AdminPermissions: set<string> := {"read", "write", "delete", "moderate", "admin", "manage_members"}

  /** The permissions of a role; an unknown role has none. */
  function Permissions(role: string): (r: set<string>)
    ensures r <= AdminPermissions + {"delete_own"}
    ensures r == {} <==> role !in {"admin", "moderator", "member"}
    ensures role == "admin" ==> r == AdminPermissions
  {
    if role == "admin" then AdminPermissions
    else if role == "moderator" then {"read", "write", "moderate", "delete_own"}
    else if role == "member" then {"read", "write", "delete_own"}
    else {}
  }

  /**
   * A moderator may do all a member may do and more;
   * an admin may do all a moderator may do except delete their own content,
   * which only moderators and members may.
   */
  lemma PermissionLadder()
    ensures Permissions("member") < Permissions("moderator")
    ensures Permissions("moderator") - {"delete_own"} < Permissions("admin")
    ensures "delete_own" !in Permissions("admin")
  {
    assert "moderate" in Permissions("moderator") - Permissions("member");
    assert "delete" in Permissions("admin") - Permissions("moderator");
  }

  /**
   * The organisation table's permissions are, role by role, among those of
   * this table.
   */
  lemma OrganisationTableWithinApiTable(role: string)
    ensures MultiTenant.RoleActions(role) <= Permissions(role)
  {
  }

  /**
   * `check_org_permission`: the user has a non-empty record in the
   * organisation and its role carries the permission; a failed lookup denies.
   */
  function CheckOrgPermission(members: Memberships, username: string, orgId: string, permission: string,
                              lookupFails: bool): (ok: bool)
    ensures ok ==> !lookupFails && orgId in members && username in members[orgId]
    ensures ok ==> permission in AdminPermissions + {"delete_own"}
    ensures !lookupFails && orgId in members && username in members[orgId] && !IsEmpty(members[orgId][username]) ==>
              (ok <==> permission in Permissions(RoleIn(members[orgId][username])))
  {
    if lookupFails || orgId !in members || username !in members[orgId] then false
    else
      var data := members[orgId][username];
      if IsEmpty(data) then false
      else permission in Permissions(RoleIn(data))
  }

  /** An empty record denies everything, like no record at all. */
  lemma EmptyRecordDenied(members: Memberships, username: string, orgId: string, permission: string)
    requires orgId in members && username in members[orgId] && IsEmpty(members[orgId][username])
    ensures !CheckOrgPermission(members, username, orgId, permission, false)
  {
  }

  /** A record without a role grants exactly the member's permissions. */
  lemma RolelessRecordIsMember(members: Memberships, username: string, orgId: string, permission: string)
    requires orgId in members && username in members[orgId]
    requires members[orgId][username].role.None? && members[orgId][username].otherKeys != {}
    ensures CheckOrgPermission(members, username, orgId, permission, false) <==>
              permission in {"read", "write", "delete_own"}
  {
  }

  /** Only the admin role may delete, administer or manage members. */
  lemma OnlyAdminsManage(members: Memberships, username: string, orgId: string, permission: string)
    requires permission in {"delete", "admin", "manage_members"}
    requires CheckOrgPermission(members, username, orgId, permission, false)
    ensures members[orgId][username].role == Some("admin")
  {
  }

  datatype Response = Allowed | HttpError(status: int, detail: string)

  /** `verify_org_access`: 403 exactly when the permission check denies. */
  function VerifyOrgAccess(members: Memberships, username: string, orgId: string, permission: string,
                           lookupFails: bool): (r: Response)
    ensures r.Allowed? <==> CheckOrgPermission(members, username, orgId, permission, lookupFails)
    ensures r.HttpError? ==>
              r.status == 403 &&
              r.detail == "You don't have '" + permission + "' permission in this organization"
  {
    if !CheckOrgPermission(members, username, orgId, permission, lookupFails) then
      HttpError(403, "You don't have '" + permission + "' permission in this organization")
    else Allowed
  }

  /** The access check's default permission is "read". */
  const DefaultPermission: string := "read"

  /** A roleless, non-empty record passes the default access check. */
  lemma RolelessRecordMayRead(members: Memberships, username: string, orgId: string)
    requires orgId in members && username in members[orgId]
    requires members[orgId][username].role.None? && members[orgId][username].otherKeys != {}
    ensures VerifyOrgAccess(members, username, orgId, DefaultPermission, false) == Allowed
  {
  }

  // ---------------------------------------------------------------------
  // Role checkers
  // ---------------------------------------------------------------------

  /** The roles a user holds across all organisations, "member" for a record without one. */
  function UserRoles(members: Memberships, username: string): (roles: set<string>)
    ensures forall r :: r in roles <==>
              exists o :: o in members && username in members[o] && RoleIn(members[o][username]) == r
  {
    set o | o in members && username in members[o] :: RoleIn(members[o][username])
  }

  /** `user_roles.intersection(allowed_roles)` is non-empty. */
  predicate Admits(allowed: seq<string>, roles: set<string>) {
    exists r :: r in allowed && r in roles
  }

  /** Python's `str` of a list of role names, as in `['admin', 'moderator']`. */
  function ListText(items: seq<string>): string {
    "[" + Join(seq(|items|, i requires 0 <= i < |items| => "'" + items[i] + "'"), ", ") + "]"
  }

  const AdminRoles: seq<string> := ["admin"]
  const ModeratorRoles: seq<string> := ["admin", "moderator"]
  const MemberRoles: seq<string> := ["admin", "moderator", "member"]

  class RoleChecker {
    const allowedRoles: seq<string>

    /** `require_roles(*roles)` */
    constructor (roles: seq<string>)
      ensures allowedRoles == roles
    {
      allowedRoles := roles;
    }

    /**
     * Admit the user when a role they hold in some organisation is allowed;
     * 403 when none is, 500 when the lookup fails with the given message.
     */
    method Call(username: string, members: Memberships, lookupError: Option<string>) returns (r: Response)
      ensures lookupError.Some? ==> r == HttpError(500, "Role check failed: " + lookupError.value)
      ensures lookupError.None? ==> (r.Allowed? <==> Admits(allowedRoles, UserRoles(members, username)))
      ensures lookupError.None? && r.HttpError? ==>
                r == HttpError(403, "Insufficient permissions. Required roles: " + ListText(allowedRoles))
    {
      if lookupError.Some? {
        return HttpError(500, "Role check failed: " + lookupError.value);
      }
      var roles := CollectRoles(members, username);
      var granted := false;
      var i := 0;
      while i < |allowedRoles|
        invariant 0 <= i <= |allowedRoles|
        invariant granted <==> exists k :: 0 <= k < i && allowedRoles[k] in roles
      {
        if allowedRoles[i] in roles {
          granted := true;
        }
        i := i + 1;
      }
      if !granted {
        return HttpError(403, "Insufficient permissions. Required roles: " + ListText(allowedRoles));
      }
      r := Allowed;
    }
  }

  /** The role-collecting loop over every organisation's members. */
  method CollectRoles(members: Memberships, username: string) returns (roles: set<string>)
    ensures roles == UserRoles(members, username)
  {
    roles := {};
    var remaining := members.Keys;
    ghost var seen: set<string> := {};
    while remaining != {}
      invariant remaining + seen == members.Keys && remaining !! seen
      invariant forall r :: r in roles <==>
                  exists o :: o in seen && username in members[o] && RoleIn(members[o][username]) == r
      decreases remaining
    {
      var o :| o in remaining;
      if username in members[o] {
        roles := roles + {RoleIn(members[o][username])};
      }
      remaining := remaining - {o};
      seen := seen + {o};
    }
  }

  /** `require_moderator` admits exactly admins and moderators. */
  lemma ModeratorCheckerAdmits(roles: set<string>)
    ensures Admits(ModeratorRoles, roles) <==> "admin" in roles || "moderator" in roles
  {
    if "admin" in roles {
      assert ModeratorRoles[0] in roles;
    } else if "moderator" in roles {
      assert ModeratorRoles[1] in roles;
    }
  }

  /** Whoever `require_admin` admits `require_moderator` admits, and whoever that admits `require_member` admits. */
  lemma CheckersNested(roles: set<string>)
    ensures Admits(AdminRoles, roles) ==> Admits(ModeratorRoles, roles)
    ensures Admits(ModeratorRoles, roles) ==> Admits(MemberRoles, roles)
  {
    if Admits(AdminRoles, roles) {
      assert ModeratorRoles[0] in roles;
    }
    if Admits(ModeratorRoles, roles) {
      var r :| r in ModeratorRoles && r in roles;
      assert r == MemberRoles[0] || r == MemberRoles[1];
    }
  }

  /** A user `require_admin` admits has the "admin" permission in some organisation. */
  lemma AdminCheckerImpliesAdminPermission(members: Memberships, username: string)
    requires Admits(AdminRoles, UserRoles(members, username))
    ensures exists o :: o in members && CheckOrgPermission(members, username, o, "admin", false)
  {
    assert "admin" in UserRoles(members, username);
    var o :| o in members && username in members[o] && RoleIn(members[o][username]) == "admin";
    assert !IsEmpty(members[o][username]);
    assert CheckOrgPermission(members, username, o, "admin", false);
  }

  /**
   * The two checks disagree on an empty record: the role checker reads it as
   * the member role and admits the user, the permission check denies.
   */
  lemma EmptyRecordCheckersDisagree(members: Memberships, username: string, orgId: string)
    requires orgId in members && username in members[orgId] && IsEmpty(members[orgId][username])
    ensures Admits(MemberRoles, UserRoles(members, username))
    ensures !CheckOrgPermission(members, username, orgId, DefaultPermission, false)
  {
    assert RoleIn(members[orgId][username]) == "member";
    assert MemberRoles[2] in UserRoles(members, username);
  }
}
