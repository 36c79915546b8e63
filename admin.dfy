/** The administration tables shared by the permission, role, team and user
    services (backend/internal/models/models.go): users, roles and their team
    restrictions, teams, use cases and the vendor table that teams point to. */
module Admin {
  import opened Common

  /** A `users` row. `password` stands for the stored credential: the model
      keeps the password the bcrypt hash was made from, not the hash. */
  datatype User = User(
    id: int,
    tenantId: int,
    email: string,
    name: Option<string>,
    firstName: Option<string>,
    lastName: Option<string>,
    password: string,
    phone: Option<string>,
    roleId: Option<int>,
    managerId: Option<int>,
    auditorId: Option<int>,
    teamId: Option<int>,
    userType: string,
    location: Option<string>,
    timezone: Option<string>,
    isActive: bool)

  /** A `roles` row; `codeNames` is the Postgres text array of permission code names. */
  datatype Role = Role(
    id: int,
    tenantId: int,
    name: string,
    description: Option<string>,
    codeNames: seq<string>,
    canBeEdited: bool,
    isDefault: bool)

  /** A `teams` row; `groupId` is the parent team. */
  datatype Team = Team(
    id: int,
    tenantId: int,
    vendorId: Option<int>,
    groupId: Option<int>,
    name: string,
    description: Option<string>,
    managerId: Option<int>,
    useCaseId: Option<int>)

  datatype UseCase = UseCase(id: int, tenantId: int, name: string, description: string)

  /** The user type that permissions are granted to, and the one that never
      holds a role. */
  const ProductUser := "product_user"
  const Observer := "observer"

  /** Some user of the tenant has this email (`SELECT id FROM users WHERE
      tenant_id = $1 AND email = $2` finds a row). */
  predicate EmailTaken(users: map<int, User>, tenantId: int, email: string)
  {
    exists id :: id in users && users[id].tenantId == tenantId && users[id].email == email
  }


  /** The user with this id if it belongs to the tenant (`WHERE tenant_id = $1 AND id = $2`). */
  function UserInTenant(users: map<int, User>, tenantId: int, userId: int): (r: Option<User>)
    ensures r.Some? <==> userId in users && users[userId].tenantId == tenantId
    ensures r.Some? ==> r.value == users[userId]
  {
    if userId in users && users[userId].tenantId == tenantId then Some(users[userId]) else None
  }

  /** The role with this id if it belongs to the tenant. */
  function RoleInTenant(roles: map<int, Role>, tenantId: int, roleId: int): (r: Option<Role>)
    ensures r.Some? <==> roleId in roles && roles[roleId].tenantId == tenantId
    ensures r.Some? ==> r.value == roles[roleId]
  {
    if roleId in roles && roles[roleId].tenantId == tenantId then Some(roles[roleId]) else None
  }

  /** The team with this id if it belongs to the tenant. */
  function TeamInTenant(teams: map<int, Team>, tenantId: int, teamId: int): (r: Option<Team>)
    ensures r.Some? <==> teamId in teams && teams[teamId].tenantId == tenantId
    ensures r.Some? ==> r.value == teams[teamId]
  {
    if teamId in teams && teams[teamId].tenantId == tenantId then Some(teams[teamId]) else None
  }

  /** The administration tables. Serial ids are handed out from the `next*`
      counters. */
  class AdminStore {
    var users: map<int, User>
    var nextUserId: int
    var roles: map<int, Role>
    var nextRoleId: int
    /** `role_teams`: (role id, team id) pairs, the primary key of the table. */
    var roleTeams: set<(int, int)>
    var teams: map<int, Team>
    var nextTeamId: int
    var useCases: map<int, UseCase>
    /** `vendors`: vendor id to tenant id; read-only here. */
    var vendors: map<int, int>

    /** Rows are stored under their own ids, below the next serial value. */
    ghost predicate Valid()
      reads this
    {
      (forall id :: id in users ==> users[id].id == id && id < nextUserId) &&
      (forall id :: id in roles ==> roles[id].id == id && id < nextRoleId) &&
      (forall id :: id in teams ==> teams[id].id == id && id < nextTeamId)
    }

    constructor(vendors: map<int, int>)
      ensures Valid()
      ensures users == map[] && roles == map[] && roleTeams == {} && teams == map[] && useCases == map[]
      ensures this.vendors == vendors
    {
      users := map[];
      nextUserId := 1;
      roles := map[];
      nextRoleId := 1;
      roleTeams := {};
      teams := map[];
      nextTeamId := 1;
      useCases := map[];
      this.vendors := vendors;
    }
  }
}
