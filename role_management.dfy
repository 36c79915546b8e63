/** Role administration (backend/internal/services/role_management.go):
    creating, updating and deleting roles and their team restrictions. */
module RoleManagement {
  import opened Common
  import opened Admin
  import Permissions

  datatype RoleError =
    | RoleNameExists
    | RoleNotFound
    | NotEditable
    | DefaultRolePermissions
    | NoFieldsToUpdate
    | DefaultRoleUndeletable
    | RoleInUse

  datatype CreateRoleRequest = CreateRoleRequest(
    name: string,
    description: Option<string>,
    codeNames: seq<string>,
    allowedTeamIds: seq<int>)

  /** `None` is a field left out of the JSON body (a nil pointer or slice). */
  datatype UpdateRoleRequest = UpdateRoleRequest(
    name: Option<string>,
    description: Option<string>,
    codeNames: Option<seq<string>>,
    allowedTeamIds: Option<seq<int>>)

  /** A role of the tenant other than `except` is called `name`. */
  predicate NameTaken(roles: map<int, Role>, tenantId: int, name: string, except: Option<int>)
  {
    exists id :: id in roles && roles[id].tenantId == tenantId && roles[id].name == name &&
                 (except.None? || id != except.value)
  }

  /** The `role_teams` rows that restrict `roleId` to `teamIds`. */
  function Restrictions(roleId: int, teamIds: seq<int>): set<(int, int)>
  {
    set t | t in teamIds :: (roleId, t)
  }

  lemma RestrictionsAppend(roleId: int, teamIds: seq<int>, t: int)
    ensures Restrictions(roleId, teamIds + [t]) == Restrictions(roleId, teamIds) + {(roleId, t)}
  {
    var a, b := Restrictions(roleId, teamIds + [t]), Restrictions(roleId, teamIds) + {(roleId, t)};
    forall p | p in b
      ensures p in a
    {
      if p != (roleId, t) {
        var u :| u in teamIds && p == (roleId, u);
        assert u in teamIds + [t];
      }
    }
  }

  /** `role_teams` without the rows of `roleId`. */
  function WithoutRole(roleTeams: set<(int, int)>, roleId: int): (r: set<(int, int)>)
    ensures forall p :: p in r <==> p in roleTeams && p.0 != roleId
  {
    set p | p in roleTeams && p.0 != roleId
  }

  /** The teams `roleId` is restricted to. */
  function TeamsOf(roleTeams: set<(int, int)>, roleId: int): set<int>
  {
    set p | p in roleTeams && p.0 == roleId :: p.1
  }

  /** Replacing a role's restrictions by a list leaves it restricted to exactly
      the teams of the list, and every other role's restrictions as they were. */
  lemma ReplaceRestrictions(roleTeams: set<(int, int)>, roleId: int, teamIds: seq<int>, other: int)
    ensures TeamsOf(WithoutRole(roleTeams, roleId) + Restrictions(roleId, teamIds), roleId) ==
            set t | t in teamIds
    ensures other != roleId ==>
            TeamsOf(WithoutRole(roleTeams, roleId) + Restrictions(roleId, teamIds), other) ==
            TeamsOf(roleTeams, other)
  {
    var after := WithoutRole(roleTeams, roleId) + Restrictions(roleId, teamIds);
    forall t | t in teamIds
      ensures t in TeamsOf(after, roleId)
    {
      assert (roleId, t) in after;
    }
    if other != roleId {
      forall t | t in TeamsOf(roleTeams, other)
        ensures t in TeamsOf(after, other)
      {
        assert (other, t) in roleTeams;
        assert (other, t) in after;
      }
    }
  }

  /** Inserts one `role_teams` row per listed team; a row already present is
      kept once (`ON CONFLICT DO NOTHING`, or the failed duplicate insert that
      the update path logs and skips). */
  method AddRestrictions(db: AdminStore, roleId: int, teamIds: seq<int>)
    modifies db`roleTeams
    ensures db.roleTeams == old(db.roleTeams) + Restrictions(roleId, teamIds)
  {
    ghost var start := db.roleTeams;
    for i := 0 to |teamIds|
      invariant db.roleTeams == start + Restrictions(roleId, teamIds[..i])
    {
      db.roleTeams := db.roleTeams + {(roleId, teamIds[i])};
      assert teamIds[..i + 1] == teamIds[..i] + [teamIds[i]];
      RestrictionsAppend(roleId, teamIds[..i], teamIds[i]);
    }
    assert teamIds[..|teamIds|] == teamIds;
  }

  /** `CreateRole`: a name already used in the tenant is refused; otherwise
      the role is stored editable and not default, with its restrictions. */
  method CreateRole(db: AdminStore, tenantId: int, req: CreateRoleRequest) returns (r: Result<Role, RoleError>)
    requires db.Valid()
    modifies db`roles, db`roleTeams, db`nextRoleId
    ensures db.Valid()
    ensures r.Err? <==> NameTaken(old(db.roles), tenantId, req.name, None)
    ensures r.Err? ==> r.error == RoleNameExists && db.roles == old(db.roles) &&
                       db.roleTeams == old(db.roleTeams) && db.nextRoleId == old(db.nextRoleId)
    ensures r.Ok? ==>
      r.value == Role(old(db.nextRoleId), tenantId, req.name, req.description, req.codeNames, true, false) &&
      old(db.nextRoleId) !in old(db.roles) &&
      db.roles == old(db.roles)[r.value.id := r.value] &&
      db.roleTeams == old(db.roleTeams) + Restrictions(r.value.id, req.allowedTeamIds) &&
      db.nextRoleId == old(db.nextRoleId) + 1
  {
    if exists id :: id in db.roles && db.roles[id].tenantId == tenantId && db.roles[id].name == req.name {
      return Err(RoleNameExists);
    }
    var role := Role(db.nextRoleId, tenantId, req.name, req.description, req.codeNames, true, false);
    db.roles := db.roles[role.id := role];
    db.nextRoleId := db.nextRoleId + 1;
    AddRestrictions(db, role.id, req.allowedTeamIds);
    return Ok(role);
  }

  /** The role after an update: the supplied name, description and code names
      replace the stored ones. */
  function Updated(role: Role, req: UpdateRoleRequest): (r: Role)
    ensures r.id == role.id && r.tenantId == role.tenantId
    ensures r.canBeEdited == role.canBeEdited && r.isDefault == role.isDefault
    ensures r.name == (if req.name.Some? then req.name.value else role.name)
    ensures r.description == (if req.description.Some? then req.description else role.description)
    ensures r.codeNames == (if req.codeNames.Some? then req.codeNames.value else role.codeNames)
  {
    var role1 := if req.name.Some? then role.(name := req.name.value) else role;
    var role2 := if req.description.Some? then role1.(description := req.description) else role1;
    if req.codeNames.Some? then role2.(codeNames := req.codeNames.value) else role2
  }

  /** `UpdateRole`. The checks come in the source's order: the role exists in
      the tenant, it can be edited, a default role's code names are not
      changed, the new name is not another role's, and some field among name,
      description and code names is supplied (team ids alone do not count). */
  method UpdateRole(db: AdminStore, tenantId: int, roleId: int, req: UpdateRoleRequest)
    returns (r: Result<Role, RoleError>)
    requires db.Valid()
    modifies db`roles, db`roleTeams
    ensures db.Valid()
    ensures RoleInTenant(old(db.roles), tenantId, roleId).None? ==> r == Err(RoleNotFound)
    ensures RoleInTenant(old(db.roles), tenantId, roleId).Some? ==>
      var role := old(db.roles)[roleId];
      if !role.canBeEdited then r == Err(NotEditable)
      else if role.isDefault && req.codeNames.Some? then r == Err(DefaultRolePermissions)
      else if req.name.Some? && NameTaken(old(db.roles), tenantId, req.name.value, Some(roleId)) then
        r == Err(RoleNameExists)
      else if req.name.None? && req.description.None? && req.codeNames.None? then r == Err(NoFieldsToUpdate)
      else r == Ok(Updated(role, req))
    ensures r.Err? ==> db.roles == old(db.roles) && db.roleTeams == old(db.roleTeams)
    ensures r.Ok? ==> db.roles == old(db.roles)[roleId := r.value]
    ensures r.Ok? && req.allowedTeamIds.Some? ==>
      db.roleTeams == WithoutRole(old(db.roleTeams), roleId) + Restrictions(roleId, req.allowedTeamIds.value)
    ensures r.Ok? && req.allowedTeamIds.None? ==> db.roleTeams == old(db.roleTeams)
  {
    if roleId !in db.roles || db.roles[roleId].tenantId != tenantId {
      return Err(RoleNotFound);
    }
    var role := db.roles[roleId];
    if !role.canBeEdited {
      return Err(NotEditable);
    }
    if role.isDefault && req.codeNames.Some? {
      return Err(DefaultRolePermissions);
    }
    var fields := 0;
    if req.name.Some? {
      if exists id :: id in db.roles && db.roles[id].tenantId == tenantId &&
                      db.roles[id].name == req.name.value && id != roleId {
        return Err(RoleNameExists);
      }
      fields := fields + 1;
    }
    if req.description.Some? {
      fields := fields + 1;
    }
    if req.codeNames.Some? {
      fields := fields + 1;
    }
    if fields == 0 {
      return Err(NoFieldsToUpdate);
    }
    var updated := Updated(role, req);
    db.roles := db.roles[roleId := updated];
    if req.allowedTeamIds.Some? {
      db.roleTeams := WithoutRole(db.roleTeams, roleId);
      AddRestrictions(db, roleId, req.allowedTeamIds.value);
    }
    return Ok(updated);
  }

  /** Some user, in any tenant, is assigned the role. */
  predicate Assigned(users: map<int, User>, roleId: int)
  {
    exists id :: id in users && users[id].roleId == Some(roleId)
  }

  /** `DeleteRole`: a missing, non-editable, default or assigned role is kept;
      otherwise its restrictions and the role itself are removed. */
  method DeleteRole(db: AdminStore, tenantId: int, roleId: int) returns (r: Result<(), RoleError>)
    requires db.Valid()
    modifies db`roles, db`roleTeams
    ensures db.Valid()
    ensures RoleInTenant(old(db.roles), tenantId, roleId).None? ==> r == Err(RoleNotFound)
    ensures RoleInTenant(old(db.roles), tenantId, roleId).Some? ==>
      var role := old(db.roles)[roleId];
      if !role.canBeEdited then r == Err(NotEditable)
      else if role.isDefault then r == Err(DefaultRoleUndeletable)
      else if Assigned(db.users, roleId) then r == Err(RoleInUse)
      else r == Ok(())
    ensures r.Err? ==> db.roles == old(db.roles) && db.roleTeams == old(db.roleTeams)
    ensures r.Ok? ==> db.roles == old(db.roles) - {roleId} &&
                      db.roleTeams == WithoutRole(old(db.roleTeams), roleId)
  {
    if roleId !in db.roles || db.roles[roleId].tenantId != tenantId {
      return Err(RoleNotFound);
    }
    var role := db.roles[roleId];
    if !role.canBeEdited {
      return Err(NotEditable);
    }
    if role.isDefault {
      return Err(DefaultRoleUndeletable);
    }
    if exists id :: id in db.users && db.users[id].roleId == Some(roleId) {
      return Err(RoleInUse);
    }
    db.roleTeams := WithoutRole(db.roleTeams, roleId);
    db.roles := db.roles - {roleId};
    return Ok(());
  }

  /** Deleting a role nobody holds changes no user's permissions: the deletion
      rules are what keeps the permission lookups from failing afterwards. */
  lemma DeleteKeepsPermissions(users: map<int, User>, roles: map<int, Role>, roleId: int, userId: int)
    requires !Assigned(users, roleId)
    ensures Permissions.GetUserPermissionsFixed(users, roles - {roleId}, userId) ==
            Permissions.GetUserPermissionsFixed(users, roles, userId)
    ensures forall codeName :: Permissions.CheckPermission(users, roles - {roleId}, userId, codeName) ==
                               Permissions.CheckPermission(users, roles, userId, codeName)
  {
    if userId in users && users[userId].roleId.Some? {
      assert users[userId].roleId.value != roleId;
    }
  }
}
