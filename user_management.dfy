/** User administration (backend/internal/services/user_management.go):
    request validation, full-name construction, creating, updating and
    soft-deleting users. Password hashing is not modelled: a stored password
    stands for its bcrypt hash. */
module UserManagement {
  import opened Common
  import opened Admin
  import Permissions

  datatype UserError = FirstNameRequired | EmailExists | NoFieldsToUpdate | UpdateFailed

  datatype CreateUserRequest = CreateUserRequest(
    email: string,
    name: Option<string>,
    firstName: string,
    lastName: Option<string>,
    password: string,
    phone: Option<string>,
    roleId: Option<int>,
    managerId: Option<int>,
    auditorId: Option<int>,
    teamId: Option<int>,
    userType: string,
    location: Option<string>)

  /** `None` is a field left out of the JSON body (a nil pointer). */
  datatype UpdateUserRequest = UpdateUserRequest(
    name: Option<string>,
    firstName: Option<string>,
    lastName: Option<string>,
    phone: Option<string>,
    roleId: Option<int>,
    managerId: Option<int>,
    auditorId: Option<int>,
    teamId: Option<int>,
    userType: Option<string>,
    location: Option<string>,
    timezone: Option<string>,
    isActive: Option<bool>,
    password: Option<string>)

  /** A nil or empty optional string. */
  predicate Blank(s: Option<string>)
  {
    s.None? || s.value == ""
  }

  /** `Validate`: a first name, or failing that a name, is required. */
  function Validate(req: CreateUserRequest): (r: Result<(), UserError>)
    ensures r.Err? <==> req.firstName == "" && Blank(req.name)
    ensures r.Err? ==> r.error == FirstNameRequired
  {
    if req.firstName == "" && (req.name.None? || req.name.value == "") then Err(FirstNameRequired) else Ok(())
  }

  /** `getOrDefault`: the value, or the default in place of an empty value. */
  function GetOrDefault(value: string, default: string): (r: string)
    ensures value != "" ==> r == value
    ensures value == "" ==> r == default
  {
    if value == "" then default else value
  }

  /** The user type stored for a request: never empty, and `product_user`
      exactly when the request asks for it or leaves it empty. */
  lemma StoredUserType(userType: string)
    ensures GetOrDefault(userType, ProductUser) != ""
    ensures GetOrDefault(userType, ProductUser) == ProductUser <==> userType == "" || userType == ProductUser
    ensures GetOrDefault(GetOrDefault(userType, ProductUser), ProductUser) == GetOrDefault(userType, ProductUser)
  {
  }

  /** The full name stored on create: the first name, then a space and the
      last name when one is given; a non-empty `name` takes precedence. */
  function FullName(firstName: string, lastName: Option<string>, name: Option<string>): (r: string)
  {
    if !Blank(name) then name.value
    else if !Blank(lastName) then firstName + " " + lastName.value
    else firstName
  }

  /** A request that passes `Validate` gets a non-empty full name, which
      starts with the first name unless a name is given. */
  lemma {:induction false} ValidRequestIsNamed(req: CreateUserRequest)
    requires Validate(req).Ok?
    ensures FullName(req.firstName, req.lastName, req.name) != ""
    ensures Blank(req.name) ==>
      |req.firstName| <= |FullName(req.firstName, req.lastName, req.name)| &&
      FullName(req.firstName, req.lastName, req.name)[..|req.firstName|] == req.firstName
  {
    if Blank(req.name) {
      var full := FullName(req.firstName, req.lastName, req.name);
      assert req.firstName != "";
      if !Blank(req.lastName) {
        assert full == req.firstName + (" " + req.lastName.value);
      }
      assert full[..|req.firstName|] == req.firstName;
    }
  }

  /** The full name written by an update: "" without a first name, else the
      first name, then a space and the last name when that is non-empty. */
  function UpdatedFullName(firstName: Option<string>, lastName: Option<string>): (r: string)
  {
    if Blank(firstName) then ""
    else if !Blank(lastName) then firstName.value + " " + lastName.value
    else firstName.value
  }

  /** Create and update build the same name from a non-empty first name, and
      the update's name is empty exactly when the first name is. */
  lemma NameRulesAgree(firstName: string, lastName: Option<string>)
    ensures firstName != "" ==> UpdatedFullName(Some(firstName), lastName) == FullName(firstName, lastName, None)
    ensures UpdatedFullName(Some(firstName), lastName) == "" <==> firstName == ""
  {
  }

  /** The request with `role_id` dropped when the user type is `observer`. */
  function ObservedCreate(req: CreateUserRequest): (r: CreateUserRequest)
    ensures r.userType == Observer ==> r.roleId.None?
    ensures r.(roleId := req.roleId) == req
  {
    if req.userType == Observer then req.(roleId := None) else req
  }

  /** The password handed back and stored: the requested one, or the
      generated one when none was requested. */
  function ChosenPassword(req: CreateUserRequest, generated: string): (r: string)
    ensures req.password != "" ==> r == req.password
    ensures req.password == "" ==> r == generated
  {
    if req.password == "" then generated else req.password
  }

  /** The row `CreateUser` inserts. */
  function NewUser(id: int, tenantId: int, req: CreateUserRequest, password: string): (u: User)
    ensures u.id == id && u.tenantId == tenantId && u.email == req.email && u.isActive
    ensures u.name == Some(FullName(req.firstName, req.lastName, req.name))
    ensures u.firstName == Some(req.firstName) && u.password == password
    ensures u.lastName == (if Blank(req.lastName) then None else req.lastName)
    ensures u.roleId == (if req.userType == Observer then None else req.roleId)
    ensures u.userType == GetOrDefault(req.userType, ProductUser)
  {
    var r := ObservedCreate(req);
    User(id, tenantId, r.email, Some(FullName(r.firstName, r.lastName, r.name)), Some(r.firstName),
         if r.lastName.Some? && r.lastName.value != "" then r.lastName else None,
         password, r.phone, r.roleId, r.managerId, r.auditorId, r.teamId,
         GetOrDefault(r.userType, ProductUser), r.location, None, true)
  }

  /** `CreateUser`: validate, refuse an email the tenant already has, then
      insert the user, active, with the requested or the generated password
      (`generated` stands for the random `generatePassword`). */
  method CreateUser(db: AdminStore, tenantId: int, req: CreateUserRequest, generated: string)
    returns (r: Result<(User, string), UserError>)
    requires db.Valid()
    modifies db`users, db`nextUserId
    ensures db.Valid()
    ensures Validate(req).Err? ==> r == Err(FirstNameRequired)
    ensures Validate(req).Ok? && EmailTaken(old(db.users), tenantId, req.email) ==> r == Err(EmailExists)
    ensures r.Ok? <==> Validate(req).Ok? && !EmailTaken(old(db.users), tenantId, req.email)
    ensures r.Err? ==> db.users == old(db.users) && db.nextUserId == old(db.nextUserId)
    ensures r.Ok? ==>
      var password := ChosenPassword(req, generated);
      r.value == (NewUser(old(db.nextUserId), tenantId, req, password), password) &&
      old(db.nextUserId) !in old(db.users) &&
      db.users == old(db.users)[old(db.nextUserId) := r.value.0] &&
      db.nextUserId == old(db.nextUserId) + 1
  {
    var valid := Validate(req);
    if valid.Err? {
      return Err(valid.error);
    }
    if EmailTaken(db.users, tenantId, req.email) {
      return Err(EmailExists);
    }
    var password := req.password;
    if password == "" {
      password := generated;
    }
    var user := NewUser(db.nextUserId, tenantId, req, password);
    db.users := db.users[user.id := user];
    db.nextUserId := db.nextUserId + 1;
    return Ok((user, password));
  }

  /** A created observer holds no permission, whatever role was requested;
      a created user's email is then taken in the tenant. */
  lemma CreatedUser(users: map<int, User>, roles: map<int, Role>, id: int, tenantId: int,
                    req: CreateUserRequest, password: string, codeName: string)
    ensures var u := NewUser(id, tenantId, req, password);
      EmailTaken(users[id := u], tenantId, req.email) &&
      (req.userType == Observer ==>
        Permissions.GetUserPermissions(users[id := u], roles, id) == Ok([]) &&
        Permissions.CheckPermission(users[id := u], roles, id, codeName) == Ok(false))
  {
    var u := NewUser(id, tenantId, req, password);
    assert users[id := u][id] == u;
    if req.userType == Observer {
      Permissions.ClosedGate(users[id := u], roles, id, codeName);
    }
  }

  // ----- UpdateUser: the SET clause builder and what the statement does -----

  /** The columns an update can set. `updated_at` is set to the current time
      and is not modelled further. */
  datatype Column =
    | NameCol | FirstNameCol | LastNameCol | PhoneCol | RoleCol | ManagerCol | AuditorCol
    | TeamCol | UserTypeCol | LocationCol | TimezoneCol | ActiveCol | PasswordCol | UpdatedAtCol

  /** A bound argument: a string, a nullable string (a Go `*string`), an id or a flag. */
  datatype Value = Text(s: string) | MaybeText(t: Option<string>) | Id(n: int) | Flag(b: bool)

  /** One `column = $k` clause; `updated_at = CURRENT_TIMESTAMP` has no placeholder. */
  datatype Clause = Clause(column: Column, placeholder: Option<nat>)

  /** The UPDATE statement: SET clauses, the placeholders of the WHERE clause
      (`tenant_id = $t AND id = $i`) and the argument list. */
  datatype UpdateStatement = UpdateStatement(clauses: seq<Clause>, tenantPos: nat, idPos: nat, args: seq<Value>)

  /** The request with `role_id` dropped when the user type is set to `observer`. */
  function ObservedUpdate(req: UpdateUserRequest): (r: UpdateUserRequest)
    ensures r.userType == Some(Observer) ==> r.roleId.None?
    ensures r.(roleId := req.roleId) == req
  {
    if req.userType == Some(Observer) then req.(roleId := None) else req
  }

  function Field(column: Column, v: Option<Value>): seq<(Column, Value)>
  {
    if v.Some? then [(column, v.value)] else []
  }

  function TextOf(s: Option<string>): Option<Value>
  {
    if s.Some? then Some(Text(s.value)) else None
  }

  function IdOf(n: Option<int>): Option<Value>
  {
    if n.Some? then Some(Id(n.value)) else None
  }

  /** The name columns. A supplied first or last name sets name, first and
      last name from the stored row (`current`, absent when the row is not
      found), where the request does not override them; failing to find the
      row sets nothing. Otherwise a supplied name sets the name alone. */
  function NameAssignments(req: UpdateUserRequest, current: Option<User>): seq<(Column, Value)>
  {
    if req.firstName.Some? || req.lastName.Some? then
      if current.Some? then
        var first := if req.firstName.Some? then req.firstName else current.value.firstName;
        var last := if req.lastName.Some? then req.lastName else current.value.lastName;
        [(NameCol, Text(UpdatedFullName(first, last))), (FirstNameCol, MaybeText(first)), (LastNameCol, MaybeText(last))]
      else []
    else Field(NameCol, TextOf(req.name))
  }

  /** The password column, set only to a non-empty password. */
  function PasswordValue(req: UpdateUserRequest): Option<Value>
  {
    if req.password.Some? && req.password.value != "" then Some(Text(req.password.value)) else None
  }

  /** The `column = value` pairs the update sets, in the order the clauses are built. */
  function Assignments(req: UpdateUserRequest, current: Option<User>): seq<(Column, Value)>
  {
    NameAssignments(req, current) + Field(PhoneCol, TextOf(req.phone)) + Field(RoleCol, IdOf(req.roleId)) +
    Field(ManagerCol, IdOf(req.managerId)) + Field(AuditorCol, IdOf(req.auditorId)) +
    Field(TeamCol, IdOf(req.teamId)) + Field(UserTypeCol, TextOf(req.userType)) +
    Field(LocationCol, TextOf(req.location)) + Field(TimezoneCol, TextOf(req.timezone)) +
    Field(ActiveCol, if req.isActive.Some? then Some(Flag(req.isActive.value)) else None) +
    Field(PasswordCol, PasswordValue(req))
  }

  /** The request supplies nothing the update sets: the `no fields to
      update` case. A supplied empty password does not count. */
  predicate NothingSupplied(req: UpdateUserRequest)
  {
    req.name.None? && req.firstName.None? && req.lastName.None? && req.phone.None? && req.roleId.None? &&
    req.managerId.None? && req.auditorId.None? && req.teamId.None? && req.userType.None? &&
    req.location.None? && req.timezone.None? && req.isActive.None? && PasswordValue(req).None?
  }

  /** For a row that is found, there is nothing to set exactly when the
      request supplies nothing. */
  lemma NoAssignmentsIff(req: UpdateUserRequest, current: User)
    ensures |Assignments(req, Some(current))| == 0 <==> NothingSupplied(req)
  {
  }

  /** The clauses for `pairs` with placeholders numbered from `start`. */
  function Placeholders(pairs: seq<(Column, Value)>, start: nat): (r: seq<Clause>)
    ensures |r| == |pairs|
  {
    seq(|pairs|, k requires 0 <= k < |pairs| => Clause(pairs[k].0, Some(start + k)))
  }

  function ValuesOf(pairs: seq<(Column, Value)>): (r: seq<Value>)
    ensures |r| == |pairs|
  {
    seq(|pairs|, k requires 0 <= k < |pairs| => pairs[k].1)
  }

  /** Appends `column = $argPos` and its value, and moves to the next placeholder. */
  method Push(clauses: seq<Clause>, args: seq<Value>, argPos: nat, ghost done: seq<(Column, Value)>,
              more: seq<(Column, Value)>) returns (clauses': seq<Clause>, args': seq<Value>, argPos': nat)
    requires |more| <= 1
    requires clauses == Placeholders(done, 1) && args == ValuesOf(done) && argPos == |done| + 1
    ensures clauses' == Placeholders(done + more, 1) && args' == ValuesOf(done + more)
    ensures argPos' == |done + more| + 1
  {
    clauses', args', argPos' := clauses, args, argPos;
    if |more| == 1 {
      clauses' := clauses' + [Clause(more[0].0, Some(argPos'))];
      args' := args' + [more[0].1];
      argPos' := argPos' + 1;
    }
  }

  /** The name clauses of `UpdateUser`, numbered from 1. */
  method NameClauses(req: UpdateUserRequest, current: Option<User>)
    returns (clauses: seq<Clause>, args: seq<Value>, argPos: nat)
    ensures clauses == Placeholders(NameAssignments(req, current), 1)
    ensures args == ValuesOf(NameAssignments(req, current))
    ensures argPos == |args| + 1
  {
    clauses, args, argPos := [], [], 1;
    if req.firstName.Some? || req.lastName.Some? {
      if current.Some? {
        var first := if req.firstName.Some? then req.firstName else current.value.firstName;
        var last := if req.lastName.Some? then req.lastName else current.value.lastName;
        var full := UpdatedFullName(first, last);
        clauses := [Clause(NameCol, Some(1)), Clause(FirstNameCol, Some(2)), Clause(LastNameCol, Some(3))];
        args := [Text(full), MaybeText(first), MaybeText(last)];
        argPos := 4;
      }
    } else if req.name.Some? {
      clauses, args, argPos := [Clause(NameCol, Some(1))], [Text(req.name.value)], 2;
    }
  }

  /** The clause builder of `UpdateUser`: one `column = $k` clause per
      supplied field, numbered 1, 2, ... in order, with its value at the same
      position of the argument list; `argPos` is the next free number. */
  method BuildAssignments(req: UpdateUserRequest, current: Option<User>)
    returns (clauses: seq<Clause>, args: seq<Value>, argPos: nat)
    ensures clauses == Placeholders(Assignments(req, current), 1)
    ensures args == ValuesOf(Assignments(req, current))
    ensures argPos == |args| + 1
  {
    clauses, args, argPos := NameClauses(req, current);
    ghost var done := NameAssignments(req, current);
    clauses, args, argPos := Push(clauses, args, argPos, done, Field(PhoneCol, TextOf(req.phone)));
    done := done + Field(PhoneCol, TextOf(req.phone));
    clauses, args, argPos := Push(clauses, args, argPos, done, Field(RoleCol, IdOf(req.roleId)));
    done := done + Field(RoleCol, IdOf(req.roleId));
    clauses, args, argPos := Push(clauses, args, argPos, done, Field(ManagerCol, IdOf(req.managerId)));
    done := done + Field(ManagerCol, IdOf(req.managerId));
    clauses, args, argPos := Push(clauses, args, argPos, done, Field(AuditorCol, IdOf(req.auditorId)));
    done := done + Field(AuditorCol, IdOf(req.auditorId));
    clauses, args, argPos := Push(clauses, args, argPos, done, Field(TeamCol, IdOf(req.teamId)));
    done := done + Field(TeamCol, IdOf(req.teamId));
    clauses, args, argPos := Push(clauses, args, argPos, done, Field(UserTypeCol, TextOf(req.userType)));
    done := done + Field(UserTypeCol, TextOf(req.userType));
    clauses, args, argPos := Push(clauses, args, argPos, done, Field(LocationCol, TextOf(req.location)));
    done := done + Field(LocationCol, TextOf(req.location));
    clauses, args, argPos := Push(clauses, args, argPos, done, Field(TimezoneCol, TextOf(req.timezone)));
    done := done + Field(TimezoneCol, TextOf(req.timezone));
    var active := if req.isActive.Some? then Some(Flag(req.isActive.value)) else None;
    clauses, args, argPos := Push(clauses, args, argPos, done, Field(ActiveCol, active));
    done := done + Field(ActiveCol, active);
    clauses, args, argPos := Push(clauses, args, argPos, done, Field(PasswordCol, PasswordValue(req)));
    done := done + Field(PasswordCol, PasswordValue(req));
  }

  /** The whole statement: the SET clauses, `updated_at` without a
      placeholder, and the tenant and user ids at the next two numbers. */
  function Statement(clauses: seq<Clause>, args: seq<Value>, argPos: nat, tenantId: int, userId: int): UpdateStatement
  {
    UpdateStatement(clauses + [Clause(UpdatedAtCol, None)], argPos, argPos + 1, args + [Id(tenantId), Id(userId)])
  }

  /** The argument a placeholder refers to (`$k` is the k-th argument). */
  function Bind(args: seq<Value>, placeholder: Option<nat>): Option<Value>
  {
    if placeholder.Some? && 1 <= placeholder.value <= |args| then Some(args[placeholder.value - 1]) else None
  }

  /** One assignment applied to a row; a value of the wrong kind leaves the
      row as it is. */
  function SetColumn(u: User, column: Column, v: Option<Value>): User
  {
    if v.None? then u
    else
      var x := v.value;
      match column
      case NameCol => if x.Text? then u.(name := Some(x.s)) else u
      case FirstNameCol => if x.MaybeText? then u.(firstName := x.t) else u
      case LastNameCol => if x.MaybeText? then u.(lastName := x.t) else u
      case PhoneCol => if x.Text? then u.(phone := Some(x.s)) else u
      case RoleCol => if x.Id? then u.(roleId := Some(x.n)) else u
      case ManagerCol => if x.Id? then u.(managerId := Some(x.n)) else u
      case AuditorCol => if x.Id? then u.(auditorId := Some(x.n)) else u
      case TeamCol => if x.Id? then u.(teamId := Some(x.n)) else u
      case UserTypeCol => if x.Text? then u.(userType := x.s) else u
      case LocationCol => if x.Text? then u.(location := Some(x.s)) else u
      case TimezoneCol => if x.Text? then u.(timezone := Some(x.s)) else u
      case ActiveCol => if x.Flag? then u.(isActive := x.b) else u
      case PasswordCol => if x.Text? then u.(password := x.s) else u
      case UpdatedAtCol => u
  }

  /** The SET clauses applied in order, each bound to its argument. */
  function ApplyClauses(u: User, clauses: seq<Clause>, args: seq<Value>): User
    decreases |clauses|
  {
    if |clauses| == 0 then u
    else ApplyClauses(SetColumn(u, clauses[0].column, Bind(args, clauses[0].placeholder)), clauses[1..], args)
  }

  /** The pairs applied in order. */
  function ApplyPairs(u: User, pairs: seq<(Column, Value)>): User
    decreases |pairs|
  {
    if |pairs| == 0 then u else ApplyPairs(SetColumn(u, pairs[0].0, Some(pairs[0].1)), pairs[1..])
  }

  /** Running the statement: the row with the bound tenant and id, updated;
      no row when none matches. */
  function Execute(users: map<int, User>, stmt: UpdateStatement): Option<User>
  {
    match (Bind(stmt.args, Some(stmt.tenantPos)), Bind(stmt.args, Some(stmt.idPos)))
    case (Some(Id(t)), Some(Id(id))) =>
      if id in users && users[id].tenantId == t then Some(ApplyClauses(users[id], stmt.clauses, stmt.args)) else None
    case _ => None
  }

  /** The name, first name and last name after an update: a supplied first
      or last name rebuilds all three from the stored ones it does not
      override; otherwise a supplied name replaces the name alone. */
  function NameColumns(u: User, req: UpdateUserRequest): (Option<string>, Option<string>, Option<string>)
  {
    if req.firstName.Some? || req.lastName.Some? then
      var first := if req.firstName.Some? then req.firstName else u.firstName;
      var last := if req.lastName.Some? then req.lastName else u.lastName;
      (Some(UpdatedFullName(first, last)), first, last)
    else if req.name.Some? then (req.name, u.firstName, u.lastName)
    else (u.name, u.firstName, u.lastName)
  }

  /** `after` keeps the identity of `before` and takes every other supplied
      column of the update; unsupplied columns keep their values. */
  predicate OthersSet(before: User, after: User, req: UpdateUserRequest)
  {
    after.id == before.id && after.tenantId == before.tenantId && after.email == before.email &&
    after.phone == (if req.phone.Some? then req.phone else before.phone) &&
    after.roleId == (if req.roleId.Some? then req.roleId else before.roleId) &&
    after.managerId == (if req.managerId.Some? then req.managerId else before.managerId) &&
    after.auditorId == (if req.auditorId.Some? then req.auditorId else before.auditorId) &&
    after.teamId == (if req.teamId.Some? then req.teamId else before.teamId) &&
    after.userType == (if req.userType.Some? then req.userType.value else before.userType) &&
    after.location == (if req.location.Some? then req.location else before.location) &&
    after.timezone == (if req.timezone.Some? then req.timezone else before.timezone) &&
    after.isActive == (if req.isActive.Some? then req.isActive.value else before.isActive) &&
    after.password == (if PasswordValue(req).Some? then req.password.value else before.password)
  }

  /** The row after an update, column by column: the reference the
      statement is checked against. */
  predicate Updated(before: User, after: User, req: UpdateUserRequest)
  {
    (after.name, after.firstName, after.lastName) == NameColumns(before, req) && OthersSet(before, after, req)
  }

  lemma {:induction false} ApplyPairsAppend(u: User, a: seq<(Column, Value)>, b: seq<(Column, Value)>)
    ensures ApplyPairs(u, a + b) == ApplyPairs(ApplyPairs(u, a), b)
    decreases |a|
  {
    if |a| > 0 {
      assert (a + b)[0] == a[0] && (a + b)[1..] == a[1..] + b;
      ApplyPairsAppend(SetColumn(u, a[0].0, Some(a[0].1)), a[1..], b);
    } else {
      assert a + b == b;
    }
  }

  /** Clauses numbered from `start` whose arguments sit at those positions do
      what their pairs say. */
  lemma {:induction false} BoundClauses(u: User, pairs: seq<(Column, Value)>, start: nat, args: seq<Value>)
    requires 1 <= start && start + |pairs| - 1 <= |args|
    requires forall k :: 0 <= k < |pairs| ==> args[start + k - 1] == pairs[k].1
    ensures ApplyClauses(u, Placeholders(pairs, start), args) == ApplyPairs(u, pairs)
    decreases |pairs|
  {
    if |pairs| > 0 {
      var cs := Placeholders(pairs, start);
      assert cs[1..] == Placeholders(pairs[1..], start + 1);
      assert Bind(args, cs[0].placeholder) == Some(pairs[0].1);
      BoundClauses(SetColumn(u, pairs[0].0, Some(pairs[0].1)), pairs[1..], start + 1, args);
    }
  }

  /** A field of at most one pair sets its column when it is supplied
      (`SetColumn` leaves the row alone for a missing value). */
  lemma FieldStep(u: User, column: Column, v: Option<Value>)
    ensures ApplyPairs(u, Field(column, v)) == SetColumn(u, column, v)
  {
    if v.Some? {
      assert Field(column, v)[1..] == [];
    }
  }

  // What each optional assignment does to a row, as a record update.

  lemma PhoneEffect(w: User, req: UpdateUserRequest)
    ensures SetColumn(w, PhoneCol, TextOf(req.phone)) == w.(phone := if req.phone.Some? then req.phone else w.phone)
  {
  }

  lemma RoleEffect(w: User, req: UpdateUserRequest)
    ensures SetColumn(w, RoleCol, IdOf(req.roleId)) == w.(roleId := if req.roleId.Some? then req.roleId else w.roleId)
  {
  }

  lemma ManagerEffect(w: User, req: UpdateUserRequest)
    ensures SetColumn(w, ManagerCol, IdOf(req.managerId)) == w.(managerId := if req.managerId.Some? then req.managerId else w.managerId)
  {
  }

  lemma AuditorEffect(w: User, req: UpdateUserRequest)
    ensures SetColumn(w, AuditorCol, IdOf(req.auditorId)) == w.(auditorId := if req.auditorId.Some? then req.auditorId else w.auditorId)
  {
  }

  lemma TeamEffect(w: User, req: UpdateUserRequest)
    ensures SetColumn(w, TeamCol, IdOf(req.teamId)) == w.(teamId := if req.teamId.Some? then req.teamId else w.teamId)
  {
  }

  lemma UserTypeEffect(w: User, req: UpdateUserRequest)
    ensures SetColumn(w, UserTypeCol, TextOf(req.userType)) == w.(userType := if req.userType.Some? then req.userType.value else w.userType)
  {
  }

  lemma LocationEffect(w: User, req: UpdateUserRequest)
    ensures SetColumn(w, LocationCol, TextOf(req.location)) == w.(location := if req.location.Some? then req.location else w.location)
  {
  }

  lemma TimezoneEffect(w: User, req: UpdateUserRequest)
    ensures SetColumn(w, TimezoneCol, TextOf(req.timezone)) == w.(timezone := if req.timezone.Some? then req.timezone else w.timezone)
  {
  }

  lemma ActiveEffect(w: User, req: UpdateUserRequest)
    ensures SetColumn(w, ActiveCol, if req.isActive.Some? then Some(Flag(req.isActive.value)) else None) == w.(isActive := if req.isActive.Some? then req.isActive.value else w.isActive)
  {
  }

  lemma PasswordEffect(w: User, req: UpdateUserRequest)
    ensures SetColumn(w, PasswordCol, PasswordValue(req)) == w.(password := if PasswordValue(req).Some? then req.password.value else w.password)
  {
  }

  /** The name clauses do what the reference says of the name columns. */
  lemma NameStep(u: User, req: UpdateUserRequest)
    ensures var w := ApplyPairs(u, NameAssignments(req, Some(u)));
      (w.name, w.firstName, w.lastName) == NameColumns(u, req) &&
      w.(name := u.name, firstName := u.firstName, lastName := u.lastName) == u
  {
    var a := NameAssignments(req, Some(u));
    if req.firstName.Some? || req.lastName.Some? {
      var u1 := SetColumn(u, a[0].0, Some(a[0].1));
      var u2 := SetColumn(u1, a[1].0, Some(a[1].1));
      var u3 := SetColumn(u2, a[2].0, Some(a[2].1));
      assert a[1..][1..][1..] == [];
      assert ApplyPairs(u2, a[1..][1..]) == u3;
      assert ApplyPairs(u1, a[1..]) == u3;
    } else {
      FieldStep(u, NameCol, TextOf(req.name));
    }
  }

  /** The assignments after the name columns set the other columns, each
      to its supplied value. */
  lemma OtherColumns(u: User, a0: seq<(Column, Value)>, req: UpdateUserRequest)
    ensures var w := ApplyPairs(u, a0);
      var r := ApplyPairs(u, a0 + Field(PhoneCol, TextOf(req.phone)) + Field(RoleCol, IdOf(req.roleId)) +
                                  Field(ManagerCol, IdOf(req.managerId)) + Field(AuditorCol, IdOf(req.auditorId)) +
                                  Field(TeamCol, IdOf(req.teamId)) + Field(UserTypeCol, TextOf(req.userType)) +
                                  Field(LocationCol, TextOf(req.location)) + Field(TimezoneCol, TextOf(req.timezone)) +
                                  Field(ActiveCol, if req.isActive.Some? then Some(Flag(req.isActive.value)) else None) +
                                  Field(PasswordCol, PasswordValue(req)));
      OthersSet(w, r, req) && (r.name, r.firstName, r.lastName) == (w.name, w.firstName, w.lastName)
  {
    var w := ApplyPairs(u, a0);
    var a := a0;
    ApplyPairsAppend(u, a, Field(PhoneCol, TextOf(req.phone)));
    FieldStep(ApplyPairs(u, a), PhoneCol, TextOf(req.phone));
    PhoneEffect(ApplyPairs(u, a), req);
    a := a + Field(PhoneCol, TextOf(req.phone));
    ApplyPairsAppend(u, a, Field(RoleCol, IdOf(req.roleId)));
    FieldStep(ApplyPairs(u, a), RoleCol, IdOf(req.roleId));
    RoleEffect(ApplyPairs(u, a), req);
    a := a + Field(RoleCol, IdOf(req.roleId));
    ApplyPairsAppend(u, a, Field(ManagerCol, IdOf(req.managerId)));
    FieldStep(ApplyPairs(u, a), ManagerCol, IdOf(req.managerId));
    ManagerEffect(ApplyPairs(u, a), req);
    a := a + Field(ManagerCol, IdOf(req.managerId));
    ApplyPairsAppend(u, a, Field(AuditorCol, IdOf(req.auditorId)));
    FieldStep(ApplyPairs(u, a), AuditorCol, IdOf(req.auditorId));
    AuditorEffect(ApplyPairs(u, a), req);
    a := a + Field(AuditorCol, IdOf(req.auditorId));
    ApplyPairsAppend(u, a, Field(TeamCol, IdOf(req.teamId)));
    FieldStep(ApplyPairs(u, a), TeamCol, IdOf(req.teamId));
    TeamEffect(ApplyPairs(u, a), req);
    a := a + Field(TeamCol, IdOf(req.teamId));
    ApplyPairsAppend(u, a, Field(UserTypeCol, TextOf(req.userType)));
    FieldStep(ApplyPairs(u, a), UserTypeCol, TextOf(req.userType));
    UserTypeEffect(ApplyPairs(u, a), req);
    a := a + Field(UserTypeCol, TextOf(req.userType));
    ApplyPairsAppend(u, a, Field(LocationCol, TextOf(req.location)));
    FieldStep(ApplyPairs(u, a), LocationCol, TextOf(req.location));
    LocationEffect(ApplyPairs(u, a), req);
    a := a + Field(LocationCol, TextOf(req.location));
    ApplyPairsAppend(u, a, Field(TimezoneCol, TextOf(req.timezone)));
    FieldStep(ApplyPairs(u, a), TimezoneCol, TextOf(req.timezone));
    TimezoneEffect(ApplyPairs(u, a), req);
    a := a + Field(TimezoneCol, TextOf(req.timezone));
    ApplyPairsAppend(u, a, Field(ActiveCol, if req.isActive.Some? then Some(Flag(req.isActive.value)) else None));
    FieldStep(ApplyPairs(u, a), ActiveCol, if req.isActive.Some? then Some(Flag(req.isActive.value)) else None);
    ActiveEffect(ApplyPairs(u, a), req);
    a := a + Field(ActiveCol, if req.isActive.Some? then Some(Flag(req.isActive.value)) else None);
    ApplyPairsAppend(u, a, Field(PasswordCol, PasswordValue(req)));
    FieldStep(ApplyPairs(u, a), PasswordCol, PasswordValue(req));
    PasswordEffect(ApplyPairs(u, a), req);
    a := a + Field(PasswordCol, PasswordValue(req));
  }

  /** Applying the assignments gives the reference row. */
  lemma AssignmentsUpdate(u: User, req: UpdateUserRequest)
    ensures Updated(u, ApplyPairs(u, Assignments(req, Some(u))), req)
  {
    NameStep(u, req);
    OtherColumns(u, NameAssignments(req, Some(u)), req);
  }

  lemma {:induction false} ApplyClausesAppend(u: User, a: seq<Clause>, b: seq<Clause>, args: seq<Value>)
    ensures ApplyClauses(u, a + b, args) == ApplyClauses(ApplyClauses(u, a, args), b, args)
    decreases |a|
  {
    if |a| > 0 {
      assert (a + b)[0] == a[0] && (a + b)[1..] == a[1..] + b;
      ApplyClausesAppend(SetColumn(u, a[0].column, Bind(args, a[0].placeholder)), a[1..], b, args);
    } else {
      assert a + b == b;
    }
  }

  /** The statement `UpdateUser` runs for a request, given the stored row
      it read (if any). */
  function StatementFor(req: UpdateUserRequest, current: Option<User>, tenantId: int, userId: int): UpdateStatement
  {
    var a := Assignments(req, current);
    Statement(Placeholders(a, 1), ValuesOf(a), |a| + 1, tenantId, userId)
  }

  /** The placeholders of the statement: the k-th SET clause is `$k` and
      binds the k-th value, `updated_at` comes last without a placeholder,
      the WHERE clause uses the next two numbers, bound to the tenant and
      user ids, and there is exactly one argument per placeholder. */
  lemma StatementPlaceholders(req: UpdateUserRequest, current: Option<User>, tenantId: int, userId: int)
    ensures var a := Assignments(req, current);
      var stmt := StatementFor(req, current, tenantId, userId);
      |stmt.clauses| == |a| + 1 && stmt.clauses[|a|] == Clause(UpdatedAtCol, None) &&
      (forall k :: 0 <= k < |a| ==>
        stmt.clauses[k] == Clause(a[k].0, Some(k + 1)) && Bind(stmt.args, Some(k + 1)) == Some(a[k].1)) &&
      stmt.tenantPos == |a| + 1 && stmt.idPos == |a| + 2 && |stmt.args| == |a| + 2 &&
      Bind(stmt.args, Some(stmt.tenantPos)) == Some(Id(tenantId)) &&
      Bind(stmt.args, Some(stmt.idPos)) == Some(Id(userId))
  {
  }

  /** Running the statement updates the user of the tenant exactly as the
      reference says, and matches no row for a user outside the tenant. */
  lemma ExecuteUpdates(users: map<int, User>, tenantId: int, userId: int, req: UpdateUserRequest)
    ensures var found := UserInTenant(users, tenantId, userId);
      var row := Execute(users, StatementFor(req, found, tenantId, userId));
      (found.None? ==> row.None?) &&
      (found.Some? ==> row.Some? && Updated(found.value, row.value, req))
  {
    var found := UserInTenant(users, tenantId, userId);
    var a := Assignments(req, found);
    var stmt := StatementFor(req, found, tenantId, userId);
    StatementPlaceholders(req, found, tenantId, userId);
    if found.Some? {
      var u := found.value;
      ApplyClausesAppend(u, Placeholders(a, 1), [Clause(UpdatedAtCol, None)], stmt.args);
      BoundClauses(u, a, 1, stmt.args);
      AssignmentsUpdate(u, req);
      assert ApplyClauses(ApplyPairs(u, a), [Clause(UpdatedAtCol, None)], stmt.args) == ApplyPairs(u, a);
    }
  }

  /** What `UpdateUser` answers for an already observed request. */
  ghost function UpdateOutcome(users: map<int, User>, tenantId: int, userId: int, req: UpdateUserRequest): Result<User, UserError>
  {
    var found := UserInTenant(users, tenantId, userId);
    if |Assignments(req, found)| == 0 then Err(NoFieldsToUpdate)
    else
      var row := Execute(users, StatementFor(req, found, tenantId, userId));
      if row.None? then Err(UpdateFailed) else Ok(row.value)
  }

  /** The outcome in the system's terms: nothing to set is an error, a user
      outside the tenant is not updated, and otherwise the row is updated
      column by column as the request says. */
  lemma UpdateOutcomeCases(users: map<int, User>, tenantId: int, userId: int, req: UpdateUserRequest)
    ensures var found := UserInTenant(users, tenantId, userId);
      var r := UpdateOutcome(users, tenantId, userId, req);
      (|Assignments(req, found)| == 0 ==> r == Err(NoFieldsToUpdate)) &&
      (|Assignments(req, found)| > 0 && found.None? ==> r == Err(UpdateFailed)) &&
      (|Assignments(req, found)| > 0 && found.Some? ==> r.Ok? && Updated(found.value, r.value, req))
  {
    ExecuteUpdates(users, tenantId, userId, req);
  }

  /** `UpdateUser`. Setting the type to `observer` drops a supplied role.
      The stored names are read only when a first or last name is supplied. */
  method UpdateUser(db: AdminStore, tenantId: int, userId: int, req: UpdateUserRequest) returns (r: Result<User, UserError>)
    requires db.Valid()
    modifies db`users
    ensures db.Valid()
    ensures r == UpdateOutcome(old(db.users), tenantId, userId, ObservedUpdate(req))
    ensures r.Err? ==> db.users == old(db.users)
    ensures r.Ok? ==> userId in old(db.users) && db.users == old(db.users)[userId := r.value]
  {
    var request := ObservedUpdate(req);
    var current: Option<User> := None;
    if request.firstName.Some? || request.lastName.Some? {
      current := UserInTenant(db.users, tenantId, userId);
    }
    ghost var found := UserInTenant(db.users, tenantId, userId);
    assert NameAssignments(request, current) == NameAssignments(request, found);
    var clauses, args, argPos := BuildAssignments(request, current);
    if |clauses| == 0 {
      return Err(NoFieldsToUpdate);
    }
    var stmt := Statement(clauses, args, argPos, tenantId, userId);
    assert stmt == StatementFor(request, found, tenantId, userId);
    var row := Execute(db.users, stmt);
    if row.None? {
      return Err(UpdateFailed);
    }
    ExecuteUpdates(db.users, tenantId, userId, request);
    db.users := db.users[userId := row.value];
    return Ok(row.value);
  }

  /** Setting the type to `observer` does not clear a stored role: it only
      drops a role supplied with it. The user still holds no permission,
      because observers never do. */
  lemma ObserverUpdate(users: map<int, User>, roles: map<int, Role>, userId: int, after: User,
                       req: UpdateUserRequest, codeName: string)
    requires userId in users && req.userType == Some(Observer)
    requires Updated(users[userId], after, ObservedUpdate(req))
    ensures after.roleId == users[userId].roleId
    ensures Permissions.GetUserPermissions(users[userId := after], roles, userId) == Ok([])
    ensures Permissions.CheckPermission(users[userId := after], roles, userId, codeName) == Ok(false)
  {
    Permissions.ClosedGate(users[userId := after], roles, userId, codeName);
  }

  /** `DeleteUser`: a soft delete, which marks the tenant's user inactive;
      an id outside the tenant changes nothing and is not an error. */
  method DeleteUser(db: AdminStore, tenantId: int, userId: int)
    requires db.Valid()
    modifies db`users
    ensures db.Valid()
    ensures UserInTenant(old(db.users), tenantId, userId).Some? ==>
      db.users == old(db.users)[userId := old(db.users)[userId].(isActive := false)]
    ensures UserInTenant(old(db.users), tenantId, userId).None? ==> db.users == old(db.users)
  {
    if userId in db.users && db.users[userId].tenantId == tenantId {
      db.users := db.users[userId := db.users[userId].(isActive := false)];
    }
  }

  /** A deleted user holds no permission and keeps every other column. */
  lemma DeletedUser(users: map<int, User>, roles: map<int, Role>, userId: int, codeName: string)
    requires userId in users
    ensures var after := users[userId := users[userId].(isActive := false)];
      Permissions.GetUserPermissions(after, roles, userId) == Ok([]) &&
      Permissions.CheckPermission(after, roles, userId, codeName) == Ok(false) &&
      after[userId].(isActive := true) == users[userId].(isActive := true)
  {
    var after := users[userId := users[userId].(isActive := false)];
    Permissions.ClosedGate(after, roles, userId, codeName);
  }
}
