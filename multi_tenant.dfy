/**
 * Organisations (tenants): id derivation, settings, membership with roles,
 * the role -> permission table, invite codes with a use counter and an
 * expiry, and the per-tenant data paths.
 */
module MultiTenant {
  import opened Common

  // ---------------------------------------------------------------------
  // Organisation ids
  // ---------------------------------------------------------------------

  /** `name.lower().replace(" ", "_")` */
  function OrgId(name: string): (id: string)
    ensures |id| == |name|
    ensures forall i :: 0 <= i < |name| ==>
              id[i] == (if name[i] == ' ' then '_' else LowerChar(name[i]))
    ensures ' ' !in id
  {
    seq(|name|, i requires 0 <= i < |name| => if name[i] == ' ' then '_' else LowerChar(name[i]))
  }

  /** Names that differ only in letter case name the same organisation. */
  lemma OrgIdIgnoresCase(a: string, b: string)
    requires Lower(a) == Lower(b)
    ensures OrgId(a) == OrgId(b)
  {
    assert |a| == |Lower(a)|;
    forall i | 0 <= i < |a|
      ensures OrgId(a)[i] == OrgId(b)[i]
    {
      assert Lower(a)[i] == Lower(b)[i];
    }
  }

  /** An id is its own id: deriving it again changes nothing. */
  lemma OrgIdIdempotent(name: string)
    ensures OrgId(OrgId(name)) == OrgId(name)
  {
    var id := OrgId(name);
    forall i | 0 <= i < |id|
      ensures OrgId(id)[i] == id[i]
    {
      assert id[i] != ' ';
    }
  }

  /** A space and an underscore give the same id, so "a b" and "a_b" clash. */
  lemma SpaceAndUnderscoreClash(prefix: string, suffix: string)
    ensures OrgId(prefix + " " + suffix) == OrgId(prefix + "_" + suffix)
  {
    var a, b := prefix + " " + suffix, prefix + "_" + suffix;
    forall i | 0 <= i < |a|
      ensures OrgId(a)[i] == OrgId(b)[i]
    {
      if i != |prefix| {
        assert a[i] == b[i];
      }
    }
  }

  // ---------------------------------------------------------------------
  // Entities
  // ---------------------------------------------------------------------

  /** A value of the free-form settings dictionary. */
  datatype SettingValue = Flag(flag: bool) | Number(number: int) | Toggles(toggles: map<string, bool>) | Text(text: string)

  const DefaultSettings: map<string, SettingValue> := map[
    "is_private" := Flag(false),
    "require_approval" := Flag(true),
    "max_members" := Number(1000),
    "features_enabled" := Toggles(map["chat" := true, "kb" := true, "opportunities" := true,
                                      "templates" := true, "analytics" := true])
  ]

  datatype Organization = Organization(
    id: string,
    name: string,
    description: string,
    admin: string,
    members: seq<string>,
    settings: map<string, SettingValue>,
    createdAt: int,
    updatedAt: int)

  /** organization_members/{org}/{user}; `role` is `None` on a record without one. */
  datatype MemberRecord = MemberRecord(username: string, role: Option<string>, joinedAt: int)

  datatype Invite = Invite(
    code: string,
    orgId: string,
    createdBy: string,
    maxUses: int,
    uses: int,
    expiresAt: int,
    createdAt: int)

  /** Instants are seconds. */
  const SecondsPerDay: int := 86400
  const DefaultMaxUses: int := 1
  const DefaultInviteDays: int := 7

  /** A fresh invite: not used yet, expiring `expiresInDays` days after its creation. */
  function NewInvite(code: string, orgId: string, createdBy: string, maxUses: int, expiresInDays: int, now: int)
    : (i: Invite)
    ensures i.code == code && i.orgId == orgId && i.maxUses == maxUses
    ensures i.uses == 0 && i.createdAt == now && i.expiresAt - i.createdAt == expiresInDays * SecondsPerDay
  {
    Invite(code, orgId, createdBy, maxUses, 0, now + expiresInDays * SecondsPerDay, now)
  }

  /** With the default arguments an invite admits a single use and expires a week after its creation. */
  lemma DefaultInviteIsSingleUseForAWeek(code: string, orgId: string, createdBy: string, now: int)
    ensures NewInvite(code, orgId, createdBy, DefaultMaxUses, DefaultInviteDays, now).maxUses == 1
    ensures NewInvite(code, orgId, createdBy, DefaultMaxUses, DefaultInviteDays, now).expiresAt == now + 604800
  {
  }

  /**
   * The settings of a new organisation: the four known keys, each taken from
   * the given settings when present and from the defaults otherwise.
   */
  function InitialSettings(given: map<string, SettingValue>): (r: map<string, SettingValue>)
    ensures r.Keys == DefaultSettings.Keys
    ensures forall k :: k in given && k in DefaultSettings ==> r[k] == given[k]
    ensures forall k :: k in DefaultSettings && k !in given ==> r[k] == DefaultSettings[k]
    ensures forall k :: k in given && k !in DefaultSettings ==> k !in r
  {
    map k | k in DefaultSettings :: if k in given then given[k] else DefaultSettings[k]
  }

  /** With no settings given, a new organisation gets exactly the defaults. */
  lemma NoSettingsMeansDefaults()
    ensures InitialSettings(map[]) == DefaultSettings
  {
  }

  /** `current.update(given)`: the given keys win, the others are kept. */
  function MergeSettings(current: map<string, SettingValue>, given: map<string, SettingValue>)
    : (r: map<string, SettingValue>)
    ensures r.Keys == current.Keys + given.Keys
    ensures forall k :: k in given ==> r[k] == given[k]
    ensures forall k :: k in current && k !in given ==> r[k] == current[k]
  {
    current + given
  }

  /** Merging the same settings twice is merging them once. */
  lemma MergeSettingsIdempotent(current: map<string, SettingValue>, given: map<string, SettingValue>)
    ensures MergeSettings(MergeSettings(current, given), given) == MergeSettings(current, given)
  {
  }

  /** The record a new organisation is stored as. */
  function NewOrganization(name: string, admin: string, description: string,
                           settings: map<string, SettingValue>, now: int): (o: Organization)
    ensures o.id == OrgId(name) && o.admin == admin && o.members == [admin]
    ensures o.settings == InitialSettings(settings)
  {
    Organization(OrgId(name), name, description, admin, [admin], InitialSettings(settings), now, now)
  }

  // ---------------------------------------------------------------------
  // Membership lists
  // ---------------------------------------------------------------------

  /** `list.remove(x)`: drop the first occurrence of `x`, if any. */
  function RemoveFirst<T(==)>(s: seq<T>, x: T): (r: seq<T>)
    ensures x in s ==> |r| == |s| - 1
    ensures x !in s ==> r == s
    ensures multiset(r) == multiset(s) - multiset{x}
  {
    if s == [] then []
    else if s[0] == x then
      assert s == [s[0]] + s[1..];
      s[1..]
    else
      assert s == [s[0]] + s[1..];
      [s[0]] + RemoveFirst(s[1..], x)
  }

  /** The tail of a list without repeats has none, and does not hold the head. */
  lemma DistinctTail<T>(s: seq<T>)
    requires Distinct(s) && s != []
    ensures Distinct(s[1..]) && s[0] !in s[1..]
  {
    forall i, j | 0 <= i < j < |s[1..]| ensures s[1..][i] != s[1..][j] {
      assert s[1..][i] == s[i + 1] && s[1..][j] == s[j + 1];
    }
    forall k | 0 <= k < |s[1..]| ensures s[1..][k] != s[0] {
      assert s[1..][k] == s[k + 1];
    }
  }

  /** Putting a new element in front of a list without repeats keeps it without repeats. */
  lemma DistinctCons<T>(x: T, rest: seq<T>)
    requires Distinct(rest) && x !in rest
    ensures Distinct([x] + rest)
  {
    var r := [x] + rest;
    forall i, j | 0 <= i < j < |r| ensures r[i] != r[j] {
      assert r[j] == rest[j - 1];
      if i > 0 {
        assert r[i] == rest[i - 1];
      }
    }
  }

  /** On a list without repeats, removing `x` removes exactly `x` and keeps the list repeat-free. */
  lemma {:induction false} RemoveFirstDistinct<T>(s: seq<T>, x: T)
    requires Distinct(s)
    ensures Distinct(RemoveFirst(s, x))
    ensures forall y :: y in RemoveFirst(s, x) <==> y in s && y != x
  {
    if s != [] {
      DistinctTail(s);
      assert s == [s[0]] + s[1..];
      if s[0] != x {
        RemoveFirstDistinct(s[1..], x);
        DistinctCons(s[0], RemoveFirst(s[1..], x));
      }
    }
  }

  /** The organisations with `orgId`'s member list extended by `username`. */
  function WithMember(orgs: map<string, Organization>, orgId: string, username: string): map<string, Organization>
    requires orgId in orgs
  {
    orgs[orgId := orgs[orgId].(members := orgs[orgId].members + [username])]
  }

  /** The role records of one organisation; none when it has no entry. */
  function RecordsIn(records: map<string, map<string, MemberRecord>>, orgId: string): map<string, MemberRecord> {
    if orgId in records then records[orgId] else map[]
  }

  /** The role records with one record written for `orgId`. */
  function WithRecord(records: map<string, map<string, MemberRecord>>, orgId: string, rec: MemberRecord)
    : map<string, map<string, MemberRecord>>
  {
    records[orgId := RecordsIn(records, orgId)[rec.username := rec]]
  }

  // ---------------------------------------------------------------------
  // Roles and permissions
  // ---------------------------------------------------------------------

  const KnownRoles: set<string> := {"admin", "moderator", "member"}

  /** The actions a role allows; an unknown role allows none. */
  function RoleActions(role: string): (r: set<string>)
    ensures r <= {"read", "write", "delete", "admin", "moderate"}
    ensures r == {} <==> role !in KnownRoles
  {
    if role == "admin" then {"read", "write", "delete", "admin", "moderate"}
    else if role == "moderator" then {"read", "write", "moderate"}
    else if role == "member" then {"read", "write"}
    else {}
  }

  /** Every action a member may take a moderator may take, and every action a moderator may take an admin may take. */
  lemma RoleHierarchy()
    ensures RoleActions("member") <= RoleActions("moderator") <= RoleActions("admin")
    ensures RoleActions("member") != RoleActions("moderator") && RoleActions("moderator") != RoleActions("admin")
  {
  }

  /** Only the admin role may delete or administer. */
  lemma OnlyAdminsDeleteOrAdminister(role: string)
    ensures "delete" in RoleActions(role) || "admin" in RoleActions(role) <==> role == "admin"
  {
  }

  /** The stored role of a user, `"member"` for a record without one; `None` without a record. */
  function RoleOf(records: map<string, map<string, MemberRecord>>, orgId: string, username: string): (r: Option<string>)
    ensures r.Some? <==> username in RecordsIn(records, orgId)
    ensures r.Some? && RecordsIn(records, orgId)[username].role.None? ==> r.value == "member"
  {
    var recs := RecordsIn(records, orgId);
    if username in recs then Some(recs[username].role.GetOr("member")) else None
  }

  /** `check_permission` on a given state of the store. */
  function Permitted(orgs: map<string, Organization>, records: map<string, map<string, MemberRecord>>,
                     orgId: string, username: string, action: string): (ok: bool)
    ensures ok ==> orgId in orgs && username in orgs[orgId].members
    ensures ok ==> RoleOf(records, orgId, username).Some?
    ensures orgId in orgs && username in orgs[orgId].members && RoleOf(records, orgId, username).Some? ==>
              (ok <==> action in RoleActions(RoleOf(records, orgId, username).value))
  {
    if orgId !in orgs || username !in orgs[orgId].members then false
    else match RoleOf(records, orgId, username)
      case None => false
      case Some(role) => role != "" && action in RoleActions(role)
  }

  /** A member whose record carries no role has exactly the member's permissions. */
  lemma RolelessRecordActsAsMember(orgs: map<string, Organization>, records: map<string, map<string, MemberRecord>>,
                                   orgId: string, username: string, action: string)
    requires orgId in orgs && username in orgs[orgId].members
    requires username in RecordsIn(records, orgId) && RecordsIn(records, orgId)[username].role.None?
    ensures Permitted(orgs, records, orgId, username, action) <==> action in {"read", "write"}
  {
  }

  /**
   * The admin of an organisation created by `create_organization` has no
   * role record, so every permission check denies them.
   */
  lemma NewOrganizationLocksOutAdmin(orgs: map<string, Organization>, records: map<string, map<string, MemberRecord>>,
                                     name: string, admin: string, description: string,
                                     settings: map<string, SettingValue>, now: int, action: string)
    requires OrgId(name) !in records
    ensures admin in NewOrganization(name, admin, description, settings, now).members
    ensures !Permitted(orgs[OrgId(name) := NewOrganization(name, admin, description, settings, now)],
                       records, OrgId(name), admin, action)
  {
  }

  /** Writing the admin's role record with the organisation grants the admin every admin action. */
  lemma NewOrganizationWithRecordAdmitsAdmin(orgs: map<string, Organization>,
                                             records: map<string, map<string, MemberRecord>>,
                                             name: string, admin: string, description: string,
                                             settings: map<string, SettingValue>, now: int, action: string)
    requires action in RoleActions("admin")
    ensures Permitted(orgs[OrgId(name) := NewOrganization(name, admin, description, settings, now)],
                      WithRecord(records, OrgId(name), MemberRecord(admin, Some("admin"), now)),
                      OrgId(name), admin, action)
  {
  }

  // ---------------------------------------------------------------------
  // Per-tenant data paths
  // ---------------------------------------------------------------------

  const DataTypes: seq<string> := ["chats", "knowledgebase", "opportunities", "templates", "analytics"]

  datatype PathResult = Path(path: string) | InvalidDataType(message: string)

  /** `"{data_type}/{org_id}"` for a known data type; the `ValueError` otherwise. */
  function GetOrganizationDataPath(orgId: string, dataType: string): (r: PathResult)
    ensures r.Path? <==> dataType in DataTypes
    ensures r.Path? ==> |r.path| == |dataType| + 1 + |orgId| && r.path[..|dataType|] == dataType &&
                        r.path[|dataType|] == '/' && r.path[|dataType| + 1..] == orgId
    ensures r.InvalidDataType? ==> r.message == "Invalid data type: " + dataType
  {
    if dataType in DataTypes then
      var p := dataType + "/" + orgId;
      assert p[..|dataType|] == dataType && p[|dataType| + 1..] == orgId;
      Path(p)
    else InvalidDataType("Invalid data type: " + dataType)
  }

  lemma DataTypesHaveNoSlash(t: string)
    requires t in DataTypes
    ensures '/' !in t
  {
  }

  /** In `t/o` with a slash-free `t`, the first slash is at position `|t|`. */
  lemma FirstSlashAt(t: string, o: string)
    requires '/' !in t
    ensures (t + "/" + o)[|t|] == '/'
    ensures forall i :: 0 <= i < |t| ==> (t + "/" + o)[i] != '/'
  {
    forall i | 0 <= i < |t| ensures (t + "/" + o)[i] != '/' {
      assert (t + "/" + o)[i] == t[i];
    }
  }

  /** `t1/o1 == t2/o2` with slash-free `t1`, `t2` splits back into the same parts. */
  lemma SplitAtFirstSlash(t1: string, o1: string, t2: string, o2: string)
    requires '/' !in t1 && '/' !in t2
    requires t1 + "/" + o1 == t2 + "/" + o2
    ensures t1 == t2 && o1 == o2
  {
    var p := t1 + "/" + o1;
    var q := t2 + "/" + o2;
    FirstSlashAt(t1, o1);
    FirstSlashAt(t2, o2);
    assert t1 == p[..|t1|] && t2 == q[..|t2|];
    assert o1 == p[|t1| + 1..] && o2 == q[|t2| + 1..];
  }

  /** Two organisations, or two data types, never share a data path. */
  lemma DataPathsIsolated(o1: string, t1: string, o2: string, t2: string)
    requires GetOrganizationDataPath(o1, t1).Path? && GetOrganizationDataPath(o2, t2).Path?
    requires GetOrganizationDataPath(o1, t1).path == GetOrganizationDataPath(o2, t2).path
    ensures o1 == o2 && t1 == t2
  {
    DataTypesHaveNoSlash(t1);
    DataTypesHaveNoSlash(t2);
    SplitAtFirstSlash(t1, o1, t2, o2);
  }

  // ---------------------------------------------------------------------
  // The store
  // ---------------------------------------------------------------------

  /** Organisations read under distinct keys of a map that files each under its own id have distinct ids. */
  lemma KeyedOrganizationsDistinct(orgs: seq<Organization>, keys: seq<string>, m: map<string, Organization>)
    requires |keys| == |orgs|
    requires forall i :: 0 <= i < |keys| ==> keys[i] in m && orgs[i] == m[keys[i]]
    requires forall i, j :: 0 <= i < j < |keys| ==> keys[i] != keys[j]
    requires forall k :: k in m ==> m[k].id == k
    ensures forall i, j :: 0 <= i < j < |orgs| ==> orgs[i].id != orgs[j].id
  {
    forall i, j | 0 <= i < j < |orgs|
      ensures orgs[i].id != orgs[j].id
    {
      assert orgs[i].id == keys[i] && orgs[j].id == keys[j];
    }
  }

  /**
   * The loop of `get_user_organizations`: one pass over the organisations,
   * keeping those that list `username`; `keys` records under which key each
   * was found.
   */
  method CollectMemberships(all: map<string, Organization>, username: string)
    returns (orgs: seq<Organization>, ghost keys: seq<string>)
    ensures |orgs| <= |all| && |keys| == |orgs|
    ensures forall i :: 0 <= i < |keys| ==> keys[i] in all && orgs[i] == all[keys[i]] && username in orgs[i].members
    ensures forall i, j :: 0 <= i < j < |keys| ==> keys[i] != keys[j]
    ensures forall k :: k in all && username in all[k].members ==> all[k] in orgs
  {
    orgs, keys := [], [];
    var remaining := all.Keys;
    while remaining != {}
      invariant remaining <= all.Keys
      invariant |keys| == |orgs|
      invariant forall i :: 0 <= i < |keys| ==>
                  keys[i] in all && keys[i] !in remaining && orgs[i] == all[keys[i]] && username in orgs[i].members
      invariant Distinct(keys)
      invariant forall k :: k in all && k !in remaining && username in all[k].members ==> k in keys
      decreases remaining
    {
      var k :| k in remaining;
      var org := all[k];
      if username in org.members {
        DistinctAppend(keys, k);
        orgs := orgs + [org];
        keys := keys + [k];
      }
      remaining := remaining - {k};
    }
    DistinctKeysWithin(keys, all);
    forall k | k in all && username in all[k].members
      ensures all[k] in orgs
    {
      var i :| 0 <= i < |keys| && keys[i] == k;
      assert orgs[i] == all[k];
    }
  }

  class TenantStore {
    /** organizations/{org_id} */
    var organizations: map<string, Organization>
    /** organization_members/{org_id}/{username} */
    var memberRecords: map<string, map<string, MemberRecord>>
    /** invite_codes/{code} */
    var invites: map<string, Invite>

    constructor ()
      ensures organizations == map[] && memberRecords == map[] && invites == map[]
      ensures Valid()
    {
      organizations := map[];
      memberRecords := map[];
      invites := map[];
    }

    /**
     * What every operation keeps: an organisation is stored under its id,
     * its admin is a member and no member is listed twice; role records
     * exist only for members of stored organisations; an invite is stored
     * under its code and has not been used more than it allows.
     */
    ghost predicate Valid()
      reads this
    {
      (forall k :: k in organizations ==>
         organizations[k].id == k && organizations[k].admin in organizations[k].members &&
         Distinct(organizations[k].members)) &&
      (forall k :: k in memberRecords ==>
         k in organizations &&
         forall u :: u in memberRecords[k] ==> u in organizations[k].members && memberRecords[k][u].username == u) &&
      (forall c :: c in invites ==> invites[c].code == c && invites[c].uses <= Max(invites[c].maxUses, 0))
    }

    function IsMember(orgId: string, username: string, storeDown: bool): (r: bool)
      reads this
      ensures r ==> orgId in organizations && username in organizations[orgId].members
      ensures !storeDown && orgId in organizations && username in organizations[orgId].members ==> r
      ensures storeDown ==> !r
    {
      !storeDown && orgId in organizations && username in organizations[orgId].members
    }

    function IsAdmin(orgId: string, username: string, storeDown: bool): (r: bool)
      reads this
      ensures r ==> orgId in organizations && organizations[orgId].admin == username
      ensures !storeDown && orgId in organizations && organizations[orgId].admin == username ==> r
      ensures storeDown ==> !r
    {
      !storeDown && orgId in organizations && organizations[orgId].admin == username
    }

    /** The admin of an organisation is always one of its members. */
    lemma AdminIsMember(orgId: string, username: string, storeDown: bool)
      requires Valid()
      ensures IsAdmin(orgId, username, storeDown) ==> IsMember(orgId, username, storeDown)
    {
    }

    function GetMemberRole(orgId: string, username: string, storeDown: bool): (r: Option<string>)
      reads this
      ensures storeDown ==> r == None
      ensures !storeDown ==> r == RoleOf(memberRecords, orgId, username)
    {
      if storeDown then None else RoleOf(memberRecords, orgId, username)
    }

    function CheckPermission(orgId: string, username: string, action: string, storeDown: bool): (ok: bool)
      reads this
      ensures ok ==> IsMember(orgId, username, storeDown) && GetMemberRole(orgId, username, storeDown).Some?
      ensures IsMember(orgId, username, storeDown) && GetMemberRole(orgId, username, storeDown).Some? ==>
                (ok <==> action in RoleActions(GetMemberRole(orgId, username, storeDown).value))
    {
      !storeDown && Permitted(organizations, memberRecords, orgId, username, action)
    }

    /**
     * Create the organisation with id `OrgId(orgName)` and `admin` as its
     * only member; `None` when that id is taken or the store fails. No role
     * record is written for the admin.
     */
    method CreateOrganization(orgName: string, admin: string, description: string,
                              settings: Option<map<string, SettingValue>>, now: int, storeDown: bool)
      returns (id: Option<string>)
      modifies this
      ensures memberRecords == old(memberRecords) && invites == old(invites)
      ensures id.Some? <==> !storeDown && OrgId(orgName) !in old(organizations)
      ensures id.Some? ==> (id.value == OrgId(orgName) &&
                organizations == old(organizations)[id.value :=
                  NewOrganization(orgName, admin, description, settings.GetOr(map[]), now)])
      ensures id.None? ==> organizations == old(organizations)
      ensures old(Valid()) ==> Valid()
      ensures old(Valid()) && id.Some? ==>
                IsAdmin(id.value, admin, false) && forall action :: !CheckPermission(id.value, admin, action, false)
    {
      var orgId := OrgId(orgName);
      var org := NewOrganization(orgName, admin, description, settings.GetOr(map[]), now);
      if storeDown || orgId in organizations {
        return None;
      }
      organizations := organizations[orgId := org];
      id := Some(orgId);
    }

    /**
     * `CreateOrganization` with the admin's role record written as well, so
     * that the admin holds every admin permission in the new organisation.
     */
    method CreateOrganizationWithAdminRole(orgName: string, admin: string, description: string,
                                           settings: Option<map<string, SettingValue>>, now: int, storeDown: bool)
      returns (id: Option<string>)
      modifies this
      ensures invites == old(invites)
      ensures id.Some? <==> !storeDown && OrgId(orgName) !in old(organizations)
      ensures id.Some? ==> (id.value == OrgId(orgName) &&
                organizations == old(organizations)[id.value :=
                  NewOrganization(orgName, admin, description, settings.GetOr(map[]), now)] &&
                memberRecords == WithRecord(old(memberRecords), id.value, MemberRecord(admin, Some("admin"), now)))
      ensures id.None? ==> organizations == old(organizations) && memberRecords == old(memberRecords)
      ensures old(Valid()) ==> Valid()
      ensures id.Some? ==> forall action :: action in RoleActions("admin") ==>
                CheckPermission(id.value, admin, action, false)
    {
      var orgId := OrgId(orgName);
      var org := NewOrganization(orgName, admin, description, settings.GetOr(map[]), now);
      if storeDown || orgId in organizations {
        return None;
      }
      organizations := organizations[orgId := org];
      memberRecords := WithRecord(memberRecords, orgId, MemberRecord(admin, Some("admin"), now));
      id := Some(orgId);
    }

    /** Merge `settings` into the organisation's settings; false when it does not exist. */
    method UpdateOrganizationSettings(orgId: string, settings: map<string, SettingValue>, now: int, storeDown: bool)
      returns (ok: bool)
      modifies this
      ensures memberRecords == old(memberRecords) && invites == old(invites)
      ensures ok == (!storeDown && orgId in old(organizations))
      ensures ok ==> organizations == old(organizations)[orgId := old(organizations)[orgId].(
                       settings := MergeSettings(old(organizations)[orgId].settings, settings), updatedAt := now)]
      ensures !ok ==> organizations == old(organizations)
      ensures old(Valid()) ==> Valid()
    {
      if storeDown || orgId !in organizations {
        return false;
      }
      var org := organizations[orgId];
      var current := MergeSettings(org.settings, settings);
      organizations := organizations[orgId := org.(settings := current, updatedAt := now)];
      return true;
    }

    /**
     * Append `username` to the members and write their role record; false
     * when the organisation does not exist or they are already a member.
     */
    method AddMemberToOrganization(orgId: string, username: string, role: string, now: int, storeDown: bool)
      returns (ok: bool)
      modifies this
      ensures invites == old(invites)
      ensures ok == (!storeDown && orgId in old(organizations) && username !in old(organizations)[orgId].members)
      ensures ok ==> organizations == WithMember(old(organizations), orgId, username) &&
                     memberRecords == WithRecord(old(memberRecords), orgId, MemberRecord(username, Some(role), now))
      ensures !ok ==> organizations == old(organizations) && memberRecords == old(memberRecords)
      ensures ok ==> IsMember(orgId, username, false) && GetMemberRole(orgId, username, false) == Some(role)
      ensures old(Valid()) ==> Valid()
    {
      if storeDown || orgId !in organizations {
        return false;
      }
      var org := organizations[orgId];
      if username in org.members {
        return false;
      }
      organizations := WithMember(organizations, orgId, username);
      memberRecords := WithRecord(memberRecords, orgId, MemberRecord(username, Some(role), now));
      ok := true;
      assert old(Valid()) ==> Distinct(org.members + [username]);
    }

    /**
     * Remove `username` from the members and delete their role record; false
     * when they are not a member, and false for the organisation's admin.
     */
    method RemoveMemberFromOrganization(orgId: string, username: string, storeDown: bool)
      returns (ok: bool)
      modifies this
      ensures invites == old(invites)
      ensures ok == (!storeDown && orgId in old(organizations) && username in old(organizations)[orgId].members &&
                     username != old(organizations)[orgId].admin)
      ensures ok ==> organizations == old(organizations)[orgId := old(organizations)[orgId].(
                       members := RemoveFirst(old(organizations)[orgId].members, username))] &&
                     memberRecords == old(memberRecords)[orgId := RecordsIn(old(memberRecords), orgId) - {username}]
      ensures !ok ==> organizations == old(organizations) && memberRecords == old(memberRecords)
      ensures ok && old(Valid()) ==> !IsMember(orgId, username, false) && IsMember(orgId, old(organizations)[orgId].admin, false)
      ensures old(Valid()) ==> Valid()
    {
      if storeDown || orgId !in organizations {
        return false;
      }
      var org := organizations[orgId];
      if username !in org.members || username == org.admin {
        return false;
      }
      var members := RemoveFirst(org.members, username);
      organizations := organizations[orgId := org.(members := members)];
      memberRecords := memberRecords[orgId := RecordsIn(memberRecords, orgId) - {username}];
      ok := true;
      if old(Valid()) {
        RemoveFirstDistinct(org.members, username);
      }
    }

    /** The organisations that list `username` as a member, each once, in no particular order. */
    method GetUserOrganizations(username: string, storeDown: bool) returns (orgs: seq<Organization>)
      ensures storeDown ==> orgs == []
      ensures |orgs| <= |organizations|
      ensures forall o :: o in orgs ==> IsMember(o.id, username, false) || !Valid()
      ensures forall o :: o in orgs ==> o in organizations.Values && username in o.members
      ensures forall k :: IsMember(k, username, storeDown) ==> organizations[k] in orgs
      ensures Valid() ==> forall i, j :: 0 <= i < j < |orgs| ==> orgs[i].id != orgs[j].id
    {
      orgs := [];
      if storeDown {
        return;
      }
      ghost var keys;
      orgs, keys := CollectMemberships(organizations, username);
      forall o | o in orgs
        ensures o in organizations.Values && username in o.members
        ensures IsMember(o.id, username, false) || !Valid()
      {
        var i :| 0 <= i < |orgs| && orgs[i] == o;
        assert organizations[keys[i]] == o;
      }
      if Valid() {
        KeyedOrganizationsDistinct(orgs, keys, organizations);
      }
    }

    /**
     * Store a new invite for the organisation under the given code, with no
     * uses and an expiry `expiresInDays` days from now; `None` when the write
     * fails.
     */
    method CreateInviteCode(orgId: string, createdBy: string, maxUses: int, expiresInDays: int,
                            code: string, now: int, storeDown: bool)
      returns (r: Option<string>)
      modifies this
      ensures organizations == old(organizations) && memberRecords == old(memberRecords)
      ensures r.Some? <==> !storeDown
      ensures r.Some? ==> (r.value == code &&
                invites == old(invites)[code := NewInvite(code, orgId, createdBy, maxUses, expiresInDays, now)])
      ensures r.None? ==> invites == old(invites)
      ensures old(Valid()) ==> Valid()
    {
      var invite := NewInvite(code, orgId, createdBy, maxUses, expiresInDays, now);
      if storeDown {
        return None;
      }
      invites := invites[code := invite];
      r := Some(code);
    }

    /**
     * Join the invite's organisation as a "member". Rejected when the code is
     * unknown, the invite has expired or has been used `maxUses` times; the
     * use is counted only when the membership is added.
     */
    method UseInviteCode(code: string, username: string, now: int, storeDown: bool)
      returns (ok: bool)
      modifies this
      ensures ok == (!storeDown && code in old(invites) && now <= old(invites)[code].expiresAt &&
                     old(invites)[code].uses < old(invites)[code].maxUses &&
                     old(invites)[code].orgId in old(organizations) &&
                     username !in old(organizations)[old(invites)[code].orgId].members)
      ensures ok ==> invites == old(invites)[code := old(invites)[code].(uses := old(invites)[code].uses + 1)]
      ensures ok ==> organizations == WithMember(old(organizations), old(invites)[code].orgId, username) &&
                     memberRecords == WithRecord(old(memberRecords), old(invites)[code].orgId,
                                                 MemberRecord(username, Some("member"), now))
      ensures !ok ==> invites == old(invites) && organizations == old(organizations) &&
                      memberRecords == old(memberRecords)
      ensures old(Valid()) ==> Valid()
    {
      if storeDown || code !in invites {
        return false;
      }
      var invite := invites[code];
      if now > invite.expiresAt {
        return false;
      }
      if invite.uses >= invite.maxUses {
        return false;
      }
      var success := AddMemberToOrganization(invite.orgId, username, "member", now, false);
      if success {
        invites := invites[code := invite.(uses := invite.uses + 1)];
        return true;
      }
      return false;
    }
  }
}
