/** Permission checks (backend/internal/services/permissions.go): a user's
    permissions are the code names of their role, behind a chain of gates. */
module Permissions {
  import opened Common
  import opened Admin

  datatype PermissionError = UserNotFound | RoleNotFound | ArrayScanFailed

  /** The gates both lookups apply, in the source's order: the user is active,
      is not an observer, is a product user, and holds a role. */
  predicate PassesGates(u: User)
  {
    u.isActive && u.userType != Observer && u.userType == ProductUser && u.roleId.Some?
  }

  /** The role lookup fails: the user passes the gates but the role is not a
      role of the user's tenant. */
  predicate RoleMissing(users: map<int, User>, roles: map<int, Role>, userId: int)
    requires userId in users
  {
    var u := users[userId];
    PassesGates(u) && RoleInTenant(roles, u.tenantId, u.roleId.value).None?
  }

  /** `CheckPermission`: does the user hold the permission `codeName`? The
      role query answers `$1 = ANY(code_names)` as a boolean. */
  function CheckPermission(users: map<int, User>, roles: map<int, Role>, userId: int,
                           codeName: string): (r: Result<bool, PermissionError>)
    ensures r == Err(UserNotFound) <==> userId !in users
    ensures r == Err(RoleNotFound) <==> userId in users && RoleMissing(users, roles, userId)
    ensures r == Ok(true) <==>
      userId in users && PassesGates(users[userId]) && !RoleMissing(users, roles, userId) &&
      codeName in roles[users[userId].roleId.value].codeNames
  {
    if userId !in users then Err(UserNotFound)
    else
      var u := users[userId];
      if !u.isActive then Ok(false)
      else if u.userType == Observer then Ok(false)
      else if u.userType != ProductUser then Ok(false)
      else if u.roleId.None? then Ok(false)
      else
        match RoleInTenant(roles, u.tenantId, u.roleId.value)
        case None => Err(RoleNotFound)
        case Some(role) => Ok(codeName in role.codeNames)
  }

  /** `GetUserPermissions` as written: the role's `code_names`, a Postgres
      `text[]`, are read into a plain `[]string`, and database/sql cannot
      scan the driver's array text into one. So every user past the gates
      gets an error: the scan failure, or no row when the role is missing. */
  function GetUserPermissions(users: map<int, User>, roles: map<int, Role>,
                              userId: int): (r: Result<seq<string>, PermissionError>)
    ensures r == Err(UserNotFound) <==> userId !in users
    ensures r.Ok? <==> userId in users && !PassesGates(users[userId])
    ensures r.Ok? ==> r.value == []
    ensures r == Err(RoleNotFound) <==> userId in users && RoleMissing(users, roles, userId)
  {
    if userId !in users then Err(UserNotFound)
    else
      var u := users[userId];
      if !u.isActive then Ok([])
      else if u.userType == Observer then Ok([])
      else if u.userType != ProductUser then Ok([])
      else if u.roleId.None? then Ok([])
      else
        match RoleInTenant(roles, u.tenantId, u.roleId.value)
        case None => Err(RoleNotFound)
        case Some(_) => Err(ArrayScanFailed)
  }

  /** `GetUserPermissions` as evidently intended, reading `code_names` into a
      `pq.StringArray` as the role service does: the role's code names. */
  function GetUserPermissionsFixed(users: map<int, User>, roles: map<int, Role>,
                                   userId: int): (r: Result<seq<string>, PermissionError>)
    ensures r == Err(UserNotFound) <==> userId !in users
    ensures r == Err(RoleNotFound) <==> userId in users && RoleMissing(users, roles, userId)
    ensures r.Ok? && !PassesGates(users[userId]) ==> r.value == []
    ensures r.Ok? && PassesGates(users[userId]) ==> r.value == roles[users[userId].roleId.value].codeNames
  {
    if userId !in users then Err(UserNotFound)
    else
      var u := users[userId];
      if !u.isActive then Ok([])
      else if u.userType == Observer then Ok([])
      else if u.userType != ProductUser then Ok([])
      else if u.roleId.None? then Ok([])
      else
        match RoleInTenant(roles, u.tenantId, u.roleId.value)
        case None => Err(RoleNotFound)
        case Some(role) => Ok(role.codeNames)
  }

  /** As written, the two lookups disagree for every user past the gates
      whose role exists: `CheckPermission` answers, `GetUserPermissions`
      fails, and the fixed lookup lists the role's code names. */
  lemma PermissionsUnreadable(users: map<int, User>, roles: map<int, Role>, userId: int, codeName: string)
    requires userId in users && PassesGates(users[userId]) && !RoleMissing(users, roles, userId)
    ensures CheckPermission(users, roles, userId, codeName).Ok?
    ensures GetUserPermissions(users, roles, userId) == Err(ArrayScanFailed)
    ensures GetUserPermissionsFixed(users, roles, userId) == Ok(roles[users[userId].roleId.value].codeNames)
  {
  }

  /** Both lookups apply the same gates, so checking one permission agrees
      with looking it up among all of the user's permissions, once they are
      read as an array. */
  lemma CheckAgreesWithPermissions(users: map<int, User>, roles: map<int, Role>,
                                   userId: int, codeName: string)
    ensures CheckPermission(users, roles, userId, codeName).Ok? <==>
            GetUserPermissionsFixed(users, roles, userId).Ok?
    ensures GetUserPermissionsFixed(users, roles, userId).Ok? ==>
            CheckPermission(users, roles, userId, codeName).value ==
            (codeName in GetUserPermissionsFixed(users, roles, userId).value)
  {
  }

  /** An inactive user, an observer, any user type other than `product_user`
      and a user without a role hold no permission, whatever their role says. */
  lemma ClosedGate(users: map<int, User>, roles: map<int, Role>, userId: int, codeName: string)
    requires userId in users
    requires var u := users[userId];
      !u.isActive || u.userType == Observer || u.userType != ProductUser || u.roleId.None?
    ensures CheckPermission(users, roles, userId, codeName) == Ok(false)
    ensures GetUserPermissions(users, roles, userId) == Ok([])
    ensures GetUserPermissionsFixed(users, roles, userId) == Ok([])
  {
  }

  /** Some code name of `required` is among `held`. */
  predicate HoldsAny(held: seq<string>, required: seq<string>)
  {
    exists i :: 0 <= i < |required| && required[i] in held
  }

  /** The scan of `HasAnyPermission`: the held code names are first put in
      a lookup map, then `required` is scanned in order. */
  method AnyHeld(held: seq<string>, required: seq<string>) returns (found: bool)
    ensures found <==> HoldsAny(held, required)
  {
    var permMap: map<string, bool> := map[];
    for k := 0 to |held|
      invariant forall s :: s in permMap <==> s in held[..k]
      invariant forall s :: s in permMap ==> permMap[s]
    {
      permMap := permMap[held[k] := true];
    }
    assert held[..|held|] == held;
    for i := 0 to |required|
      invariant forall j :: 0 <= j < i ==> required[j] !in held
    {
      if required[i] in permMap && permMap[required[i]] {
        return true;
      }
    }
    return false;
  }

  /** `HasAnyPermission`: does the user hold at least one of `required`? It
      passes on the error of `GetUserPermissions`, so as written it fails for
      every user past the gates. */
  method HasAnyPermission(users: map<int, User>, roles: map<int, Role>, userId: int,
                          required: seq<string>) returns (r: Result<bool, PermissionError>)
    ensures GetUserPermissions(users, roles, userId).Err? ==>
            r == Err(GetUserPermissions(users, roles, userId).error)
    ensures GetUserPermissions(users, roles, userId).Ok? ==>
            r.Ok? && (r.value <==> HoldsAny(GetUserPermissions(users, roles, userId).value, required))
    ensures r.Ok? <==> userId in users && !PassesGates(users[userId])
    ensures r != Ok(true)
  {
    var permissions := GetUserPermissions(users, roles, userId);
    if permissions.Err? {
      return Err(permissions.error);
    }
    var found := AnyHeld(permissions.value, required);
    return Ok(found);
  }
}
