/** The identity and access tables: refresh tokens, role assignments and the
    privileges they grant, identity providers and the user list. Each table is
    a sequence of rows in storage order; a query is its relational meaning and
    an update replaces the table it writes. */
module UserRepository {
  import opened Wrappers

  datatype User = User(id: string, username: string, email: string, role: string, status: string)

  datatype RefreshToken = RefreshToken(id: string, userId: string, token: string, expiresAt: int, isRevoked: bool)

  datatype Role = Role(id: string, name: string)
  datatype Privilege = Privilege(id: string, name: string)
  datatype RolePrivilege = RolePrivilege(roleId: string, privilegeId: string)

  /** A role assignment; its generated id and timestamp are not modelled. */
  datatype UserRole = UserRole(userId: string, roleId: string, assignedBy: Option<string>)

  datatype IdentityProvider = IdentityProvider(id: string, name: string, enabled: bool, isDefault: bool)

  // ------------------------------------------------------------ refresh tokens

  /** The WHERE clause of `get_valid_token`. */
  predicate ValidFor(t: RefreshToken, token: string, now: int) {
    t.token == token && t.expiresAt > now && !t.isRevoked
  }

  /** `get_valid_token(token, current_time)`: the first row carrying `token`
      that has not expired and is not revoked, if any. */
  function GetValidToken(rows: seq<RefreshToken>, token: string, now: int): (r: Option<RefreshToken>)
    ensures r.Some? ==> r.value in rows && ValidFor(r.value, token, now)
    ensures r.None? <==> forall i :: 0 <= i < |rows| ==> !ValidFor(rows[i], token, now)
  {
    if rows == [] then None
    else if ValidFor(rows[0], token, now) then Some(rows[0])
    else
      assert forall i :: 1 <= i < |rows| ==> rows[i] == rows[1..][i - 1];
      GetValidToken(rows[1..], token, now)
  }

  /** `UPDATE refresh_tokens SET is_revoked = true WHERE <where>`. */
  function RevokeWhere(rows: seq<RefreshToken>, where: RefreshToken -> bool): (r: seq<RefreshToken>)
    ensures |r| == |rows|
    ensures forall i :: 0 <= i < |rows| ==> r[i] == if where(rows[i]) then rows[i].(isRevoked := true) else rows[i]
  {
    if rows == [] then []
    else [if where(rows[0]) then rows[0].(isRevoked := true) else rows[0]] + RevokeWhere(rows[1..], where)
  }

  function TokenIs(token: string): RefreshToken -> bool {
    (t: RefreshToken) => t.token == token
  }

  function OwnedBy(userId: string): RefreshToken -> bool {
    (t: RefreshToken) => t.userId == userId
  }

  /** A revoked token is no longer valid at any time. */
  lemma RevokedTokenInvalid(rows: seq<RefreshToken>, token: string, now: int)
    ensures GetValidToken(RevokeWhere(rows, TokenIs(token)), token, now).None?
  {
  }

  /** After revoking every token of a user, no valid token belongs to that user,
      and every row of another user stays exactly as it was. */
  lemma RevokedUserHasNoValidToken(rows: seq<RefreshToken>, userId: string, token: string, now: int)
    ensures var r := GetValidToken(RevokeWhere(rows, OwnedBy(userId)), token, now);
            r.Some? ==> r.value.userId != userId
    ensures forall i :: 0 <= i < |rows| && rows[i].userId != userId ==> RevokeWhere(rows, OwnedBy(userId))[i] == rows[i]
    ensures (forall i :: 0 <= i < |rows| ==> rows[i].userId != userId) ==>
              RevokeWhere(rows, OwnedBy(userId)) == rows
  {
    var revoked := RevokeWhere(rows, OwnedBy(userId));
    if forall i :: 0 <= i < |rows| ==> rows[i].userId != userId {
      assert forall i :: 0 <= i < |rows| ==> revoked[i] == rows[i];
    }
  }

  // ---------------------------------------------------------- roles and grants

  /** Some row of `roles` has this id and name. */
  function RoleNamed(roles: seq<Role>, roleId: string, name: string): (b: bool)
    ensures b <==> exists j :: 0 <= j < |roles| && roles[j].id == roleId && roles[j].name == name
  {
    if roles == [] then false
    else
      assert forall j :: 1 <= j < |roles| ==> roles[j] == roles[1..][j - 1];
      (roles[0].id == roleId && roles[0].name == name) || RoleNamed(roles[1..], roleId, name)
  }

  /** `has_role(user_id, role_name)`: the join of the user's assignments with
      the roles table holds a role of that name. */
  function HasRole(userRoles: seq<UserRole>, roles: seq<Role>, userId: string, roleName: string): (b: bool)
    ensures b <==> exists i, j :: 0 <= i < |userRoles| && 0 <= j < |roles| &&
                                  userRoles[i].userId == userId && userRoles[i].roleId == roles[j].id &&
                                  roles[j].name == roleName
  {
    if userRoles == [] then false
    else
      var ur := userRoles[0];
      var rest := HasRole(userRoles[1..], roles, userId, roleName);
      assert forall i :: 1 <= i < |userRoles| ==> userRoles[i] == userRoles[1..][i - 1];
      (ur.userId == userId && RoleNamed(roles, ur.roleId, roleName)) || rest
  }

  /** The first assignment of `roleId` to `userId`, if any. */
  function FindAssignment(userRoles: seq<UserRole>, userId: string, roleId: string): (r: Option<UserRole>)
    ensures r.Some? ==> r.value in userRoles && r.value.userId == userId && r.value.roleId == roleId
    ensures r.None? <==> !Assigned(userRoles, userId, roleId)
  {
    if userRoles == [] then None
    else if userRoles[0].userId == userId && userRoles[0].roleId == roleId then Some(userRoles[0])
    else
      assert forall i :: 1 <= i < |userRoles| ==> userRoles[i] == userRoles[1..][i - 1];
      FindAssignment(userRoles[1..], userId, roleId)
  }

  ghost predicate Assigned(userRoles: seq<UserRole>, userId: string, roleId: string) {
    exists i :: 0 <= i < |userRoles| && userRoles[i].userId == userId && userRoles[i].roleId == roleId
  }

  /** No (user, role) pair is assigned twice. */
  ghost predicate UniqueAssignments(userRoles: seq<UserRole>) {
    forall i, j :: 0 <= i < j < |userRoles| ==>
      !(userRoles[i].userId == userRoles[j].userId && userRoles[i].roleId == userRoles[j].roleId)
  }

  /** `delete from user_roles where user_id = u and role_id = r`, keeping the
      order of the remaining rows. */
  function WithoutAssignment(userRoles: seq<UserRole>, userId: string, roleId: string): (r: seq<UserRole>)
    ensures |r| <= |userRoles|
    ensures forall x :: x in r <==> x in userRoles && !(x.userId == userId && x.roleId == roleId)
  {
    if userRoles == [] then []
    else
      var rest := WithoutAssignment(userRoles[1..], userId, roleId);
      assert forall x :: x in userRoles <==> x == userRoles[0] || x in userRoles[1..];
      if userRoles[0].userId == userId && userRoles[0].roleId == roleId then rest
      else [userRoles[0]] + rest
  }

  /** No assignment of the removed pair is left. */
  lemma WithoutAssignmentGone(userRoles: seq<UserRole>, userId: string, roleId: string)
    ensures !Assigned(WithoutAssignment(userRoles, userId, roleId), userId, roleId)
  {
    var r := WithoutAssignment(userRoles, userId, roleId);
    forall i | 0 <= i < |r| ensures !(r[i].userId == userId && r[i].roleId == roleId) {
      assert r[i] in r;
    }
  }

  /** One row of the join behind the privilege queries: assignment `i` of
      `userId` names role `j`, and grant `k` gives that role privilege `p`. */
  predicate JoinRow(userRoles: seq<UserRole>, roles: seq<Role>, rolePrivileges: seq<RolePrivilege>,
                    userId: string, p: Privilege, i: int, j: int, k: int) {
    && 0 <= i < |userRoles| && 0 <= j < |roles| && 0 <= k < |rolePrivileges|
    && userRoles[i].userId == userId && userRoles[i].roleId == roles[j].id
    && rolePrivileges[k].roleId == roles[j].id && rolePrivileges[k].privilegeId == p.id
  }

  /** The privileges the join reaches from an assignment of `userId`. */
  ghost predicate Reachable(userRoles: seq<UserRole>, roles: seq<Role>, rolePrivileges: seq<RolePrivilege>,
                            userId: string, p: Privilege) {
    exists i, j, k :: JoinRow(userRoles, roles, rolePrivileges, userId, p, i, j, k)
  }

  /** Some existing role with id `roleId` is assigned to `userId`. */
  function HoldsRole(userRoles: seq<UserRole>, roles: seq<Role>, userId: string, roleId: string): (b: bool)
    ensures b <==> exists i, j :: 0 <= i < |userRoles| && 0 <= j < |roles| &&
                                  userRoles[i].userId == userId && userRoles[i].roleId == roleId &&
                                  roles[j].id == roleId
  {
    RoleExists(roles, roleId) && FindAssignment(userRoles, userId, roleId).Some?
  }

  function RoleExists(roles: seq<Role>, roleId: string): (b: bool)
    ensures b <==> exists j :: 0 <= j < |roles| && roles[j].id == roleId
  {
    if roles == [] then false
    else
      assert forall j :: 1 <= j < |roles| ==> roles[j] == roles[1..][j - 1];
      roles[0].id == roleId || RoleExists(roles[1..], roleId)
  }

  /** Some grant of privilege `privilegeId` is to a role that `userId` holds. */
  function Granted(userRoles: seq<UserRole>, roles: seq<Role>, rolePrivileges: seq<RolePrivilege>,
                   userId: string, privilegeId: string): (b: bool)
    ensures b <==> exists k :: 0 <= k < |rolePrivileges| && rolePrivileges[k].privilegeId == privilegeId &&
                               HoldsRole(userRoles, roles, userId, rolePrivileges[k].roleId)
    decreases |rolePrivileges|
  {
    if rolePrivileges == [] then false
    else
      var rp := rolePrivileges[0];
      assert forall k :: 1 <= k < |rolePrivileges| ==> rolePrivileges[k] == rolePrivileges[1..][k - 1];
      (rp.privilegeId == privilegeId && HoldsRole(userRoles, roles, userId, rp.roleId)) ||
      Granted(userRoles, roles, rolePrivileges[1..], userId, privilegeId)
  }

  /** The computed grant check is the join. */
  lemma GrantedIsReachable(userRoles: seq<UserRole>, roles: seq<Role>, rolePrivileges: seq<RolePrivilege>,
                           userId: string, p: Privilege)
    ensures Granted(userRoles, roles, rolePrivileges, userId, p.id) <==> Reachable(userRoles, roles, rolePrivileges, userId, p)
  {
    if Granted(userRoles, roles, rolePrivileges, userId, p.id) {
      var k :| 0 <= k < |rolePrivileges| && rolePrivileges[k].privilegeId == p.id &&
               HoldsRole(userRoles, roles, userId, rolePrivileges[k].roleId);
      var i, j :| 0 <= i < |userRoles| && 0 <= j < |roles| &&
                  userRoles[i].userId == userId && userRoles[i].roleId == rolePrivileges[k].roleId &&
                  roles[j].id == rolePrivileges[k].roleId;
      assert JoinRow(userRoles, roles, rolePrivileges, userId, p, i, j, k);
    }
    if Reachable(userRoles, roles, rolePrivileges, userId, p) {
      var i, j, k :| JoinRow(userRoles, roles, rolePrivileges, userId, p, i, j, k);
      assert HoldsRole(userRoles, roles, userId, rolePrivileges[k].roleId);
    }
  }

  /** `get_user_privileges(user_id)`: the privilege rows the join reaches, in
      storage order. */
  function GetUserPrivileges(privileges: seq<Privilege>, userRoles: seq<UserRole>, roles: seq<Role>,
                             rolePrivileges: seq<RolePrivilege>, userId: string): (r: seq<Privilege>)
    ensures forall p :: p in r <==> p in privileges && Granted(userRoles, roles, rolePrivileges, userId, p.id)
  {
    if privileges == [] then []
    else
      var rest := GetUserPrivileges(privileges[1..], userRoles, roles, rolePrivileges, userId);
      assert forall p :: p in privileges <==> p == privileges[0] || p in privileges[1..];
      if Granted(userRoles, roles, rolePrivileges, userId, privileges[0].id) then [privileges[0]] + rest
      else rest
  }

  /** `has_privilege(user_id, privilege_name)`: some privilege of that name is
      reached by the join. */
  function HasPrivilege(privileges: seq<Privilege>, userRoles: seq<UserRole>, roles: seq<Role>,
                        rolePrivileges: seq<RolePrivilege>, userId: string, privilegeName: string): (b: bool)
    ensures b <==> exists m :: 0 <= m < |privileges| && privileges[m].name == privilegeName &&
                               Granted(userRoles, roles, rolePrivileges, userId, privileges[m].id)
  {
    if privileges == [] then false
    else
      assert forall m :: 1 <= m < |privileges| ==> privileges[m] == privileges[1..][m - 1];
      (privileges[0].name == privilegeName && Granted(userRoles, roles, rolePrivileges, userId, privileges[0].id)) ||
      HasPrivilege(privileges[1..], userRoles, roles, rolePrivileges, userId, privilegeName)
  }

  /** A user has a privilege exactly when a privilege of that name is among
      the user's privileges. */
  lemma HasPrivilegeListed(privileges: seq<Privilege>, userRoles: seq<UserRole>, roles: seq<Role>,
                           rolePrivileges: seq<RolePrivilege>, userId: string, privilegeName: string)
    ensures HasPrivilege(privileges, userRoles, roles, rolePrivileges, userId, privilegeName) <==>
            exists p :: p in GetUserPrivileges(privileges, userRoles, roles, rolePrivileges, userId) && p.name == privilegeName
  {
    var r := GetUserPrivileges(privileges, userRoles, roles, rolePrivileges, userId);
    if HasPrivilege(privileges, userRoles, roles, rolePrivileges, userId, privilegeName) {
      var m :| 0 <= m < |privileges| && privileges[m].name == privilegeName &&
               Granted(userRoles, roles, rolePrivileges, userId, privileges[m].id);
      assert privileges[m] in r;
    }
    if exists p :: p in r && p.name == privilegeName {
      var p :| p in r && p.name == privilegeName;
      var m :| 0 <= m < |privileges| && privileges[m] == p;
    }
  }

  /** A user has a privilege exactly when the join reaches a privilege of that name. */
  lemma HasPrivilegeReachable(privileges: seq<Privilege>, userRoles: seq<UserRole>, roles: seq<Role>,
                              rolePrivileges: seq<RolePrivilege>, userId: string, privilegeName: string)
    ensures HasPrivilege(privileges, userRoles, roles, rolePrivileges, userId, privilegeName) <==>
            exists p :: p in privileges && p.name == privilegeName && Reachable(userRoles, roles, rolePrivileges, userId, p)
  {
    if HasPrivilege(privileges, userRoles, roles, rolePrivileges, userId, privilegeName) {
      var m :| 0 <= m < |privileges| && privileges[m].name == privilegeName &&
               Granted(userRoles, roles, rolePrivileges, userId, privileges[m].id);
      GrantedIsReachable(userRoles, roles, rolePrivileges, userId, privileges[m]);
      assert privileges[m] in privileges;
    }
    if exists p :: p in privileges && p.name == privilegeName && Reachable(userRoles, roles, rolePrivileges, userId, p) {
      var p :| p in privileges && p.name == privilegeName && Reachable(userRoles, roles, rolePrivileges, userId, p);
      GrantedIsReachable(userRoles, roles, rolePrivileges, userId, p);
      var m :| 0 <= m < |privileges| && privileges[m] == p;
    }
  }

  /** Every privilege listed for a user is reached by the join, and every
      privilege row the join reaches is listed. */
  lemma UserPrivilegesReachable(privileges: seq<Privilege>, userRoles: seq<UserRole>, roles: seq<Role>,
                                rolePrivileges: seq<RolePrivilege>, userId: string, p: Privilege)
    ensures p in GetUserPrivileges(privileges, userRoles, roles, rolePrivileges, userId) <==>
            p in privileges && Reachable(userRoles, roles, rolePrivileges, userId, p)
  {
    GrantedIsReachable(userRoles, roles, rolePrivileges, userId, p);
  }

  // -------------------------------------------------------- identity providers

  /** `update identity_providers set is_default = false` */
  function ClearDefaults(providers: seq<IdentityProvider>): (r: seq<IdentityProvider>)
    ensures |r| == |providers|
    ensures forall i :: 0 <= i < |r| ==> r[i] == providers[i].(isDefault := false)
  {
    if providers == [] then [] else [providers[0].(isDefault := false)] + ClearDefaults(providers[1..])
  }

  /** `update identity_providers set is_default = true where id = provider_id` */
  function MarkDefault(providers: seq<IdentityProvider>, providerId: string): (r: seq<IdentityProvider>)
    ensures |r| == |providers|
    ensures forall i :: 0 <= i < |r| ==>
              r[i] == if providers[i].id == providerId then providers[i].(isDefault := true) else providers[i]
  {
    if providers == [] then []
    else
      [if providers[0].id == providerId then providers[0].(isDefault := true) else providers[0]] +
      MarkDefault(providers[1..], providerId)
  }

  /** After both updates a provider is default exactly when it has the given
      id, and nothing else about any provider changed. */
  lemma SetAsDefaultMarks(providers: seq<IdentityProvider>, providerId: string)
    ensures |MarkDefault(ClearDefaults(providers), providerId)| == |providers|
    ensures forall i :: 0 <= i < |providers| ==>
              MarkDefault(ClearDefaults(providers), providerId)[i] == providers[i].(isDefault := providers[i].id == providerId)
  {
  }

  /** With unique ids there is at most one default afterwards, and there is
      one exactly when a provider with that id exists. */
  lemma SetAsDefaultUnique(providers: seq<IdentityProvider>, providerId: string)
    requires forall i, j :: 0 <= i < j < |providers| ==> providers[i].id != providers[j].id
    ensures var r := MarkDefault(ClearDefaults(providers), providerId);
            forall i, j :: 0 <= i < j < |r| && r[i].isDefault ==> !r[j].isDefault
    ensures var r := MarkDefault(ClearDefaults(providers), providerId);
            (exists i :: 0 <= i < |r| && r[i].isDefault) <==> exists i :: 0 <= i < |providers| && providers[i].id == providerId
  {
    SetAsDefaultMarks(providers, providerId);
  }

  // --------------------------------------------------------------------- users

  /** The WHERE clauses of `list_with_filters`: each of "role" and "status"
      present among the filters must match. An absent or empty filter
      dictionary filters nothing. */
  predicate MatchesFilters(u: User, filters: map<string, string>) {
    && ("role" in filters ==> u.role == filters["role"])
    && ("status" in filters ==> u.status == filters["status"])
  }

  function FilterUsers(users: seq<User>, filters: map<string, string>): (r: seq<User>)
    ensures |r| <= |users|
    ensures forall u :: u in r <==> u in users && MatchesFilters(u, filters)
  {
    if users == [] then []
    else
      var rest := FilterUsers(users[1..], filters);
      assert forall u :: u in users <==> u == users[0] || u in users[1..];
      if MatchesFilters(users[0], filters) then [users[0]] + rest else rest
  }

  /** `list_with_filters(skip, limit, filters)`: at most `limit` matching users,
      after skipping `skip` of them. */
  function ListWithFilters(users: seq<User>, skip: nat, limit: nat, filters: map<string, string>): (r: seq<User>)
    ensures |r| <= limit
    ensures forall u :: u in r ==> u in users && MatchesFilters(u, filters)
    ensures |r| == if |FilterUsers(users, filters)| <= skip then 0
                   else if |FilterUsers(users, filters)| - skip < limit then |FilterUsers(users, filters)| - skip
                   else limit
  {
    var matching := FilterUsers(users, filters);
    if |matching| <= skip then []
    else
      var tail := matching[skip..];
      assert forall u :: u in tail ==> u in matching;
      if |tail| <= limit then tail else tail[..limit]
  }

  // ------------------------------------------------------------------ sessions

  /** The tables as one session sees them. */
  class Session {
    var users: seq<User>
    var tokens: seq<RefreshToken>
    var roles: seq<Role>
    var privileges: seq<Privilege>
    var rolePrivileges: seq<RolePrivilege>
    var userRoles: seq<UserRole>
    var providers: seq<IdentityProvider>

    /** A repository session over the rows already stored. */
    constructor (users: seq<User>, tokens: seq<RefreshToken>, roles: seq<Role>, privileges: seq<Privilege>,
                 rolePrivileges: seq<RolePrivilege>, userRoles: seq<UserRole>, providers: seq<IdentityProvider>)
      ensures this.users == users && this.tokens == tokens && this.roles == roles && this.privileges == privileges
      ensures this.rolePrivileges == rolePrivileges && this.userRoles == userRoles && this.providers == providers
    {
      this.users, this.tokens, this.roles, this.privileges := users, tokens, roles, privileges;
      this.rolePrivileges, this.userRoles, this.providers := rolePrivileges, userRoles, providers;
    }

    /** `revoke_token(token)`: every row with that token becomes revoked. */
    method RevokeToken(token: string)
      modifies this
      ensures tokens == RevokeWhere(old(tokens), TokenIs(token))
      ensures forall now :: GetValidToken(tokens, token, now).None?
      ensures users == old(users) && roles == old(roles) && privileges == old(privileges)
      ensures rolePrivileges == old(rolePrivileges) && userRoles == old(userRoles) && providers == old(providers)
    {
      tokens := RevokeWhere(tokens, TokenIs(token));
      forall now | true ensures GetValidToken(tokens, token, now).None? {
        RevokedTokenInvalid(old(tokens), token, now);
      }
    }

    /** `revoke_all_for_user(user_id)`: every token of that user becomes revoked. */
    method RevokeAllForUser(userId: string)
      modifies this
      ensures tokens == RevokeWhere(old(tokens), OwnedBy(userId))
      ensures forall i :: 0 <= i < |tokens| ==> (tokens[i].userId == userId ==> tokens[i].isRevoked)
      ensures forall i :: 0 <= i < |tokens| ==> (tokens[i].userId != userId ==> tokens[i] == old(tokens)[i])
      ensures users == old(users) && roles == old(roles) && privileges == old(privileges)
      ensures rolePrivileges == old(rolePrivileges) && userRoles == old(userRoles) && providers == old(providers)
    {
      tokens := RevokeWhere(tokens, OwnedBy(userId));
    }

    /** `assign_role(user_id, role_id, assigned_by)`: an existing assignment
        adds nothing; otherwise exactly one row is added. The new row is
        returned; `None` stands for the existing-assignment path. */
    method AssignRole(userId: string, roleId: string, assignedBy: Option<string>) returns (r: Option<UserRole>)
      modifies this
      ensures old(Assigned(userRoles, userId, roleId)) ==> userRoles == old(userRoles) && r.None?
      ensures !old(Assigned(userRoles, userId, roleId)) ==>
                r == Some(UserRole(userId, roleId, assignedBy)) && userRoles == old(userRoles) + [r.value]
      ensures Assigned(userRoles, userId, roleId)
      ensures old(UniqueAssignments(userRoles)) ==> UniqueAssignments(userRoles)
      ensures users == old(users) && tokens == old(tokens) && roles == old(roles) && privileges == old(privileges)
      ensures rolePrivileges == old(rolePrivileges) && providers == old(providers)
    {
      if FindAssignment(userRoles, userId, roleId).Some? {
        return None;
      }
      var row := UserRole(userId, roleId, assignedBy);
      userRoles := userRoles + [row];
      r := Some(row);
      assert userRoles[|userRoles| - 1] == row;
    }

    /** `remove_role(user_id, role_id)`: no assignment of the pair is left and
        every other assignment stays. */
    method RemoveRole(userId: string, roleId: string)
      modifies this
      ensures userRoles == WithoutAssignment(old(userRoles), userId, roleId)
      ensures !Assigned(userRoles, userId, roleId)
      ensures users == old(users) && tokens == old(tokens) && roles == old(roles) && privileges == old(privileges)
      ensures rolePrivileges == old(rolePrivileges) && providers == old(providers)
    {
      WithoutAssignmentGone(userRoles, userId, roleId);
      userRoles := WithoutAssignment(userRoles, userId, roleId);
    }

    /** `set_as_default(provider_id)`: clear every default, then mark the rows
        of `provider_id`. */
    method SetAsDefault(providerId: string)
      modifies this
      ensures providers == MarkDefault(ClearDefaults(old(providers)), providerId)
      ensures |providers| == |old(providers)|
      ensures forall i :: 0 <= i < |providers| ==>
                providers[i] == old(providers)[i].(isDefault := old(providers)[i].id == providerId)
      ensures users == old(users) && tokens == old(tokens) && roles == old(roles) && privileges == old(privileges)
      ensures rolePrivileges == old(rolePrivileges) && userRoles == old(userRoles)
    {
      SetAsDefaultMarks(providers, providerId);
      providers := ClearDefaults(providers);
      providers := MarkDefault(providers, providerId);
    }
  }
}
