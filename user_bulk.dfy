// Bulk creation of users from uploaded rows (`BulkCreateUsers` in
// backend/internal/services/user_management.go): every row either refreshes
// the tenant's user with that email, inserts a new one, or records an error
// tagged with its 1-based row number, and the loop goes on. All rows run in
// one transaction, and in PostgreSQL the first statement that fails aborts
// it: every later statement fails too, the commit fails, and nothing is
// stored. `BulkCreateUsers` models that; `BulkCreateUsersPerRow` models the
// evidently intended behaviour, where a failing row costs only itself.
module UserBulk {
  import opened Common
  import opened Admin
  import opened UserManagement

  /** Why a row failed: the UPDATE of an existing user or the INSERT of a new one. */
  datatype RowFailure = UpdateRowFailed | CreateRowFailed

  /** The error recorded for a row, numbered from 1 like the upload's rows. */
  datatype RowError = RowError(row: nat, failure: RowFailure)

  /** What happened to one row: an error, an inserted user with its generated
      password, or a refresh of the existing user(s) with that email. */
  datatype Outcome = Failed(error: RowError) | Inserted(user: User, password: string) | Refreshed(req: CreateUserRequest)

  /** The store and the outcomes after some prefix of the rows. */
  datatype BulkState = BulkState(users: map<int, User>, next: int, outcomes: seq<Outcome>)

  /** An existing user after a bulk row refreshed it: name, phone, role,
      manager, auditor, team, user type and location come from the row; the
      other columns stay. */
  function RefreshedUser(u: User, req: CreateUserRequest): (r: User)
    ensures r.id == u.id && r.tenantId == u.tenantId && r.email == u.email && HoldsRow(r, req)
    ensures r.firstName == u.firstName && r.lastName == u.lastName && r.password == u.password
    ensures r.timezone == u.timezone && r.isActive == u.isActive
  {
    u.(name := req.name, phone := req.phone, roleId := req.roleId, managerId := req.managerId,
       auditorId := req.auditorId, teamId := req.teamId, userType := GetOrDefault(req.userType, ProductUser),
       location := req.location)
  }

  /** The columns a bulk row writes hold the row's values. */
  predicate HoldsRow(u: User, req: CreateUserRequest)
  {
    u.name == req.name && u.phone == req.phone && u.roleId == req.roleId && u.managerId == req.managerId &&
    u.auditorId == req.auditorId && u.teamId == req.teamId && u.userType == GetOrDefault(req.userType, ProductUser) &&
    u.location == req.location
  }

  /** The UPDATE for an existing email: every user of the tenant with that
      email is refreshed. */
  function Refresh(users: map<int, User>, tenantId: int, req: CreateUserRequest): (r: map<int, User>)
    ensures r.Keys == users.Keys
  {
    map id | id in users ::
      if users[id].tenantId == tenantId && users[id].email == req.email then RefreshedUser(users[id], req) else users[id]
  }

  /** The row a bulk insert writes: the row's name as given (possibly null),
      no first or last name, active. */
  function InsertedUser(id: int, tenantId: int, req: CreateUserRequest, password: string): (u: User)
    ensures u.id == id && u.tenantId == tenantId && u.email == req.email && u.isActive
    ensures u.name == req.name && u.firstName.None? && u.lastName.None? && u.password == password
    ensures u.userType == GetOrDefault(req.userType, ProductUser)
  {
    User(id, tenantId, req.email, req.name, None, None, password, req.phone, req.roleId, req.managerId,
         req.auditorId, req.teamId, GetOrDefault(req.userType, ProductUser), req.location, None, true)
  }

  /** The store after one row, and what happened to the row. */
  datatype RowResult = RowResult(users: map<int, User>, next: int, outcome: Outcome)

  /** One row `i` (0-based) with its generated password. Its UPDATE or
      INSERT fails when the database does (`fault`) or when the row has no
      name, since the `name` column refuses NULL. */
  function Row(users: map<int, User>, next: int, tenantId: int, i: nat, req: CreateUserRequest, password: string,
               fault: bool): RowResult
  {
    var req := ObservedCreate(req);
    var faulty := fault || req.name.None?;
    if EmailTaken(users, tenantId, req.email) then
      if faulty then RowResult(users, next, Failed(RowError(i + 1, UpdateRowFailed)))
      else RowResult(Refresh(users, tenantId, req), next, Refreshed(req))
    else if faulty then RowResult(users, next, Failed(RowError(i + 1, CreateRowFailed)))
    else
      var u := InsertedUser(next, tenantId, req, password);
      RowResult(users[next := u], next + 1, Inserted(u, password))
  }

  /** Whether row `i`'s statement fails when it runs on a live transaction. */
  predicate Fails(reqs: seq<CreateUserRequest>, faults: set<nat>, i: nat)
    requires i < |reqs|
  {
    i in faults || reqs[i].name.None?
  }

  /** The first `n` rows folded over the store, each row on its own: a
      failing row leaves the store as it was and the others go on. */
  function Bulk(users: map<int, User>, next: int, tenantId: int, reqs: seq<CreateUserRequest>,
                generated: seq<string>, faults: set<nat>, n: nat): (st: BulkState)
    requires n <= |reqs| && |generated| == |reqs|
    ensures |st.outcomes| == n
  {
    if n == 0 then BulkState(users, next, [])
    else
      var st := Bulk(users, next, tenantId, reqs, generated, faults, n - 1);
      var r := Row(st.users, st.next, tenantId, n - 1, reqs[n - 1], generated[n - 1], n - 1 in faults);
      BulkState(r.users, r.next, st.outcomes + [r.outcome])
  }

  /** The errors, in row order. */
  function ErrorsOf(outcomes: seq<Outcome>): seq<RowError>
  {
    if |outcomes| == 0 then []
    else ErrorsOf(outcomes[..|outcomes| - 1]) +
         (if outcomes[|outcomes| - 1].Failed? then [outcomes[|outcomes| - 1].error] else [])
  }

  /** The rows that did not fail, in row order. */
  function SuccessesOf(outcomes: seq<Outcome>): seq<Outcome>
  {
    if |outcomes| == 0 then []
    else SuccessesOf(outcomes[..|outcomes| - 1]) +
         (if outcomes[|outcomes| - 1].Failed? then [] else [outcomes[|outcomes| - 1]])
  }

  /** The password handed back for a successful row: the generated one for
      an insert, none for a refresh. */
  function PasswordOf(o: Outcome): string
  {
    if o.Inserted? then o.password else ""
  }

  /** The user returned for a successful row: the inserted row, or a user of
      the tenant with the row's email whose refreshed columns are the row's. */
  predicate Reports(u: User, tenantId: int, o: Outcome)
  {
    match o
    case Inserted(v, _) => u == v
    case Refreshed(req) => u.tenantId == tenantId && u.email == req.email && HoldsRow(u, req)
    case Failed(_) => false
  }

  /** The users and passwords handed back for the successful rows, one each, in order. */
  predicate Returned(created: seq<User>, passwords: seq<string>, tenantId: int, successes: seq<Outcome>)
  {
    |created| == |passwords| == |successes| &&
    forall k :: 0 <= k < |created| ==> passwords[k] == PasswordOf(successes[k]) && Reports(created[k], tenantId, successes[k])
  }

  lemma ReturnedAppend(created: seq<User>, passwords: seq<string>, tenantId: int, successes: seq<Outcome>,
                       user: User, o: Outcome)
    requires Returned(created, passwords, tenantId, successes) && Reports(user, tenantId, o)
    ensures Returned(created + [user], passwords + [PasswordOf(o)], tenantId, successes + [o])
  {
  }

  lemma RefreshKeepsRows(users: map<int, User>, next: int, tenantId: int, req: CreateUserRequest, found: int)
    requires forall id :: id in users ==> users[id].id == id && id < next
    requires found in users && users[found].tenantId == tenantId && users[found].email == req.email
    ensures var r := Refresh(users, tenantId, req);
      (forall id :: id in r ==> r[id].id == id && id < next) &&
      found in r && r[found] == RefreshedUser(users[found], req)
  {
  }

  lemma OutcomesAppend(outcomes: seq<Outcome>, o: Outcome)
    ensures ErrorsOf(outcomes + [o]) == ErrorsOf(outcomes) + (if o.Failed? then [o.error] else [])
    ensures SuccessesOf(outcomes + [o]) == SuccessesOf(outcomes) + (if o.Failed? then [] else [o])
  {
    assert (outcomes + [o])[..|outcomes|] == outcomes;
  }

  /** The UPDATE of an existing email, then the re-select, which returns
      one of the refreshed users. The UPDATE fails when the database
      refuses it (`fault`) or the row has no name, and the row's error is
      recorded instead. */
  method RefreshRow(db: AdminStore, tenantId: int, i: nat, req: CreateUserRequest, fault: bool)
    returns (o: Outcome, user: User)
    requires db.Valid() && EmailTaken(db.users, tenantId, req.email)
    modifies db`users
    ensures db.Valid()
    ensures fault || req.name.None? ==> o == Failed(RowError(i + 1, UpdateRowFailed)) && db.users == old(db.users)
    ensures !fault && req.name.Some? ==>
      o == Refreshed(req) && db.users == Refresh(old(db.users), tenantId, req) &&
      user.tenantId == tenantId && user.email == req.email && HoldsRow(user, req)
  {
    if fault || req.name.None? {
      return Failed(RowError(i + 1, UpdateRowFailed)), InsertedUser(0, tenantId, req, "");
    }
    var found :| found in db.users && db.users[found].tenantId == tenantId && db.users[found].email == req.email;
    RefreshKeepsRows(db.users, db.nextUserId, tenantId, req, found);
    db.users := Refresh(db.users, tenantId, req);
    user := db.users[found];
    o := Refreshed(req);
  }

  /** One row of the loop on a live transaction: refresh or insert, or
      record the row's error when its statement fails. */
  method BulkRow(db: AdminStore, tenantId: int, i: nat, req: CreateUserRequest, password: string, fault: bool)
    returns (o: Outcome, user: User)
    requires db.Valid()
    modifies db`users, db`nextUserId
    ensures db.Valid()
    ensures var r := Row(old(db.users), old(db.nextUserId), tenantId, i, req, password, fault);
      db.users == r.users && db.nextUserId == r.next && o == r.outcome && (!o.Failed? ==> Reports(user, tenantId, o))
  {
    var req := ObservedCreate(req);
    if EmailTaken(db.users, tenantId, req.email) {
      o, user := RefreshRow(db, tenantId, i, req, fault);
      return;
    } else if fault || req.name.None? {
      return Failed(RowError(i + 1, CreateRowFailed)), InsertedUser(0, tenantId, req, password);
    }
    user := InsertedUser(db.nextUserId, tenantId, req, password);
    db.users := db.users[user.id := user];
    db.nextUserId := db.nextUserId + 1;
    o := Inserted(user, password);
  }

  /** The bulk upload as evidently intended, each row in a savepoint of its
      own: each row drops its role for an observer, then refreshes the
      tenant's user(s) with its email or inserts a new user with the row's
      generated password; a failing statement records an error for the row,
      and the loop continues with the other rows' work kept. `generated[i]`
      stands for the random password generated for row `i`, and `faults`
      for the rows whose statement the database refuses. */
  method BulkCreateUsersPerRow(db: AdminStore, tenantId: int, reqs: seq<CreateUserRequest>, generated: seq<string>,
                               faults: set<nat>)
    returns (created: seq<User>, passwords: seq<string>, errors: seq<RowError>)
    requires db.Valid() && |generated| == |reqs|
    modifies db`users, db`nextUserId
    ensures db.Valid()
    ensures var st := Bulk(old(db.users), old(db.nextUserId), tenantId, reqs, generated, faults, |reqs|);
      db.users == st.users && db.nextUserId == st.next && errors == ErrorsOf(st.outcomes) &&
      Returned(created, passwords, tenantId, SuccessesOf(st.outcomes))
  {
    created, passwords, errors := [], [], [];
    ghost var st := BulkState(db.users, db.nextUserId, []);
    for i := 0 to |reqs|
      invariant st == Bulk(old(db.users), old(db.nextUserId), tenantId, reqs, generated, faults, i)
      invariant db.users == st.users && db.nextUserId == st.next && db.Valid()
      invariant errors == ErrorsOf(st.outcomes)
      invariant Returned(created, passwords, tenantId, SuccessesOf(st.outcomes))
    {
      var o, user := BulkRow(db, tenantId, i, reqs[i], generated[i], i in faults);
      OutcomesAppend(st.outcomes, o);
      if o.Failed? {
        errors := errors + [o.error];
      } else {
        ReturnedAppend(created, passwords, tenantId, SuccessesOf(st.outcomes), user, o);
        created := created + [user];
        passwords := passwords + [PasswordOf(o)];
      }
      st := BulkState(db.users, db.nextUserId, st.outcomes + [o]);
    }
  }

  // ----- The upload as written: one transaction -----

  /** The store, the next serial value, whether the transaction has been
      aborted, and the outcomes after a prefix of the rows. */
  datatype TxState = TxState(users: map<int, User>, next: int, aborted: bool, outcomes: seq<Outcome>)

  /** One row inside the shared transaction. Once a statement has failed,
      PostgreSQL refuses every later one: the email lookup fails, the loop
      falls through to the INSERT, and that fails too. */
  function TxRow(t: TxState, tenantId: int, i: nat, req: CreateUserRequest, password: string, fault: bool): TxState
  {
    if t.aborted then TxState(t.users, t.next, true, t.outcomes + [Failed(RowError(i + 1, CreateRowFailed))])
    else
      var r := Row(t.users, t.next, tenantId, i, req, password, fault);
      TxState(r.users, r.next, r.outcome.Failed?, t.outcomes + [r.outcome])
  }

  /** The first `n` rows run in one transaction. */
  function TxBulk(users: map<int, User>, next: int, tenantId: int, reqs: seq<CreateUserRequest>,
                  generated: seq<string>, faults: set<nat>, n: nat): (t: TxState)
    requires n <= |reqs| && |generated| == |reqs|
    ensures |t.outcomes| == n
  {
    if n == 0 then TxState(users, next, false, [])
    else TxRow(TxBulk(users, next, tenantId, reqs, generated, faults, n - 1), tenantId, n - 1, reqs[n - 1],
               generated[n - 1], n - 1 in faults)
  }

  /** An error handed back by the upload: a row's, or the failed commit. */
  datatype BulkError = InRow(error: RowError) | CommitFailed

  /** `BulkCreateUsers` as written: the rows run as in
      `BulkCreateUsersPerRow`, but in one transaction. When no statement
      failed, the commit stores every row and the rows' users come back with
      no error. Otherwise the commit fails, the transaction is rolled back,
      and only the commit's error comes back; the serial values the inserts
      drew stay drawn, as a rollback does not return them. */
  method BulkCreateUsers(db: AdminStore, tenantId: int, reqs: seq<CreateUserRequest>, generated: seq<string>,
                         faults: set<nat>)
    returns (created: seq<User>, passwords: seq<string>, errors: seq<BulkError>)
    requires db.Valid() && |generated| == |reqs|
    modifies db`users, db`nextUserId
    ensures db.Valid()
    ensures var t := TxBulk(old(db.users), old(db.nextUserId), tenantId, reqs, generated, faults, |reqs|);
      db.nextUserId == t.next &&
      (t.aborted ==> db.users == old(db.users) && created == [] && passwords == [] && errors == [CommitFailed]) &&
      (!t.aborted ==> db.users == t.users && errors == [] && |created| == |reqs| &&
                      Returned(created, passwords, tenantId, t.outcomes))
  {
    var before := db.users;
    created, passwords, errors := [], [], [];
    var aborted := false;
    ghost var t := TxState(db.users, db.nextUserId, false, []);
    for i := 0 to |reqs|
      invariant t == TxBulk(old(db.users), old(db.nextUserId), tenantId, reqs, generated, faults, i)
      invariant db.users == t.users && db.nextUserId == t.next && aborted == t.aborted && db.Valid()
      invariant old(db.nextUserId) <= db.nextUserId
      invariant !aborted ==> errors == [] && Returned(created, passwords, tenantId, SuccessesOf(t.outcomes))
    {
      if aborted {
        errors := errors + [InRow(RowError(i + 1, CreateRowFailed))];
        t := TxState(t.users, t.next, true, t.outcomes + [Failed(RowError(i + 1, CreateRowFailed))]);
      } else {
        var o, user := BulkRow(db, tenantId, i, reqs[i], generated[i], i in faults);
        OutcomesAppend(t.outcomes, o);
        if o.Failed? {
          errors := errors + [InRow(o.error)];
          aborted := true;
        } else {
          ReturnedAppend(created, passwords, tenantId, SuccessesOf(t.outcomes), user, o);
          created := created + [user];
          passwords := passwords + [PasswordOf(o)];
        }
        t := TxState(db.users, db.nextUserId, aborted, t.outcomes + [o]);
      }
    }
    if aborted {
      db.users := before;
      return [], [], [CommitFailed];
    }
    TxCommitted(old(db.users), old(db.nextUserId), tenantId, reqs, generated, faults, |reqs|);
  }

  /** A row on a live transaction that so far matches the rows run on
      their own runs as it does on its own, and aborts the transaction
      exactly when it fails. */
  lemma TxRowStep(t: TxState, b: BulkState, tenantId: int, i: nat, req: CreateUserRequest, password: string,
                  fault: bool)
    requires !t.aborted && t.users == b.users && t.next == b.next && t.outcomes == b.outcomes
    ensures var t' := TxRow(t, tenantId, i, req, password, fault);
      var r := Row(b.users, b.next, tenantId, i, req, password, fault);
      t'.users == r.users && t'.next == r.next && t'.outcomes == b.outcomes + [r.outcome] &&
      (t'.aborted <==> fault || req.name.None?)
  {
    RowFails(b.users, b.next, tenantId, i, req, password, fault);
  }

  /** Whether some row among the first `n` fails. */
  predicate AnyFails(reqs: seq<CreateUserRequest>, faults: set<nat>, n: nat)
    requires n <= |reqs|
  {
    n > 0 && (AnyFails(reqs, faults, n - 1) || Fails(reqs, faults, n - 1))
  }

  lemma {:induction false} AnyFailsExists(reqs: seq<CreateUserRequest>, faults: set<nat>, n: nat)
    requires n <= |reqs|
    ensures AnyFails(reqs, faults, n) <==> exists i :: 0 <= i < n && Fails(reqs, faults, i)
    decreases n
  {
    if n > 0 {
      AnyFailsExists(reqs, faults, n - 1);
      if Fails(reqs, faults, n - 1) {
        assert 0 <= n - 1 < n;
      }
    }
  }

  lemma {:induction false} TxAborts(users: map<int, User>, next: int, tenantId: int, reqs: seq<CreateUserRequest>,
                                    generated: seq<string>, faults: set<nat>, n: nat)
    requires n <= |reqs| && |generated| == |reqs|
    ensures TxBulk(users, next, tenantId, reqs, generated, faults, n).aborted == AnyFails(reqs, faults, n)
    decreases n
  {
    if n > 0 {
      TxAborts(users, next, tenantId, reqs, generated, faults, n - 1);
      var t := TxBulk(users, next, tenantId, reqs, generated, faults, n - 1);
      if !t.aborted {
        RowFails(t.users, t.next, tenantId, n - 1, reqs[n - 1], generated[n - 1], n - 1 in faults);
      }
    }
  }

  lemma {:induction false} TxFaultFree(users: map<int, User>, next: int, tenantId: int, reqs: seq<CreateUserRequest>,
                                       generated: seq<string>, faults: set<nat>, n: nat)
    requires n <= |reqs| && |generated| == |reqs|
    ensures var t := TxBulk(users, next, tenantId, reqs, generated, faults, n);
      var b := Bulk(users, next, tenantId, reqs, generated, faults, n);
      !t.aborted ==> t.users == b.users && t.next == b.next && t.outcomes == b.outcomes
    decreases n
  {
    if n > 0 {
      TxFaultFree(users, next, tenantId, reqs, generated, faults, n - 1);
      var t := TxBulk(users, next, tenantId, reqs, generated, faults, n - 1);
      if !t.aborted {
        var b := Bulk(users, next, tenantId, reqs, generated, faults, n - 1);
        TxRowStep(t, b, tenantId, n - 1, reqs[n - 1], generated[n - 1], n - 1 in faults);
        var r := Row(b.users, b.next, tenantId, n - 1, reqs[n - 1], generated[n - 1], n - 1 in faults);
        assert Bulk(users, next, tenantId, reqs, generated, faults, n) ==
               BulkState(r.users, r.next, b.outcomes + [r.outcome]);
        assert TxBulk(users, next, tenantId, reqs, generated, faults, n) ==
               TxRow(t, tenantId, n - 1, reqs[n - 1], generated[n - 1], n - 1 in faults);
      }
    }
  }

  /** The transaction is aborted exactly when some row's statement fails;
      until then it runs exactly as the rows do on their own. */
  lemma TxMatchesPerRow(users: map<int, User>, next: int, tenantId: int, reqs: seq<CreateUserRequest>,
                        generated: seq<string>, faults: set<nat>, n: nat)
    requires n <= |reqs| && |generated| == |reqs|
    ensures var t := TxBulk(users, next, tenantId, reqs, generated, faults, n);
      var b := Bulk(users, next, tenantId, reqs, generated, faults, n);
      (t.aborted <==> exists i :: 0 <= i < n && Fails(reqs, faults, i)) &&
      (!t.aborted ==> t.users == b.users && t.next == b.next && t.outcomes == b.outcomes)
  {
    TxAborts(users, next, tenantId, reqs, generated, faults, n);
    AnyFailsExists(reqs, faults, n);
    TxFaultFree(users, next, tenantId, reqs, generated, faults, n);
  }

  /** A committed run failed no row: there are no row errors, and every
      row's outcome is a success. */
  lemma {:induction false} TxCommitted(users: map<int, User>, next: int, tenantId: int,
                                       reqs: seq<CreateUserRequest>, generated: seq<string>, faults: set<nat>, n: nat)
    requires n <= |reqs| && |generated| == |reqs|
    ensures var t := TxBulk(users, next, tenantId, reqs, generated, faults, n);
      !t.aborted ==> ErrorsOf(t.outcomes) == [] && SuccessesOf(t.outcomes) == t.outcomes
    decreases n
  {
    if n > 0 {
      TxCommitted(users, next, tenantId, reqs, generated, faults, n - 1);
      var t := TxBulk(users, next, tenantId, reqs, generated, faults, n - 1);
      var t' := TxBulk(users, next, tenantId, reqs, generated, faults, n);
      if !t'.aborted {
        OutcomesAppend(t.outcomes, t'.outcomes[n - 1]);
        assert t'.outcomes == t.outcomes + [t'.outcomes[n - 1]];
      }
    }
  }

  /** The source's transaction discards work the intended upload keeps:
      one failing row `i` aborts the whole upload, while on its own another
      row `j` that does not fail leaves its email registered. */
  lemma RowFailureDiscardsOthers(users: map<int, User>, next: int, tenantId: int, reqs: seq<CreateUserRequest>,
                                 generated: seq<string>, faults: set<nat>, i: nat, j: nat)
    requires |generated| == |reqs| && i < |reqs| && j < |reqs|
    requires Fails(reqs, faults, i) && !Fails(reqs, faults, j) && IdsBelow(users, next)
    ensures TxBulk(users, next, tenantId, reqs, generated, faults, |reqs|).aborted
    ensures EmailTaken(Bulk(users, next, tenantId, reqs, generated, faults, |reqs|).users, tenantId, reqs[j].email)
  {
    TxMatchesPerRow(users, next, tenantId, reqs, generated, faults, |reqs|);
    BulkRegistersEmails(users, next, tenantId, reqs, generated, faults, |reqs|, j);
  }

  /** Two rows into an empty store, the first without a name: the source's
      run aborts, so its commit fails and no user is stored, while the
      intended run stores the second row's user. */
  lemma NamelessRowDiscardsUpload()
    ensures var a := CreateUserRequest("a@example.com", None, "", None, "", None, None, None, None, None, "", None);
      var b := a.(email := "b@example.com", name := Some("B"));
      TxBulk(map[], 1, 1, [a, b], ["p", "q"], {}, 2).aborted &&
      Bulk(map[], 1, 1, [a, b], ["p", "q"], {}, 2).users.Keys == {1}
  {
    var a := CreateUserRequest("a@example.com", None, "", None, "", None, None, None, None, None, "", None);
    var b := a.(email := "b@example.com", name := Some("B"));
    assert Fails([a, b], {}, 0);
    TxMatchesPerRow(map[], 1, 1, [a, b], ["p", "q"], {}, 2);
    assert Bulk(map[], 1, 1, [a, b], ["p", "q"], {}, 0) == BulkState(map[], 1, []);
    RowFails(map[], 1, 1, 0, a, "p", false);
    var st := Bulk(map[], 1, 1, [a, b], ["p", "q"], {}, 1);
    assert st.users == map[] && st.next == 1;
    assert !EmailTaken(st.users, 1, b.email);
  }

  // ----- What the rows promise when they run on their own -----

  /** A row fails exactly when the database refuses its statement or it
      has no name, and its error carries its 1-based number. */
  lemma RowFails(users: map<int, User>, next: int, tenantId: int, i: nat, req: CreateUserRequest, password: string,
                 fault: bool)
    ensures var o := Row(users, next, tenantId, i, req, password, fault).outcome;
      (o.Failed? <==> fault || req.name.None?) && (o.Failed? ==> o.error.row == i + 1)
  {
  }

  /** A row refreshes exactly when it does not fail and its email is
      already taken in the tenant; an inserted user gets the row's password,
      email and the next id. */
  lemma RowKind(users: map<int, User>, next: int, tenantId: int, i: nat, req: CreateUserRequest, password: string,
                fault: bool)
    ensures var o := Row(users, next, tenantId, i, req, password, fault).outcome;
      (o.Refreshed? <==> !fault && req.name.Some? && EmailTaken(users, tenantId, req.email)) &&
      (o.Refreshed? ==> o.req == ObservedCreate(req)) &&
      (o.Inserted? ==> o.password == password && o.user.email == req.email && o.user.tenantId == tenantId &&
                       o.user.id == next)
  {
  }

  /** An observer row keeps no role, whether it inserts or refreshes. */
  lemma RowObserver(users: map<int, User>, next: int, tenantId: int, i: nat, req: CreateUserRequest, password: string,
                    fault: bool)
    requires req.userType == Observer
    ensures var o := Row(users, next, tenantId, i, req, password, fault).outcome;
      (o.Inserted? ==> o.user.roleId.None?) && (o.Refreshed? ==> o.req.roleId.None?)
  {
  }

  /** Every stored id is below the next serial value. */
  predicate IdsBelow(users: map<int, User>, next: int)
  {
    forall id :: id in users ==> id < next
  }

  /** Rows stay stored under ids below the next serial value. */
  lemma RowIds(users: map<int, User>, next: int, tenantId: int, i: nat, req: CreateUserRequest, password: string,
               fault: bool)
    requires IdsBelow(users, next)
    ensures var r := Row(users, next, tenantId, i, req, password, fault);
      IdsBelow(r.users, r.next) && r.next >= next
  {
  }

  /** A row never frees an email: whatever was taken stays taken, and the
      row's own email is taken unless the row failed. */
  lemma RowKeepsEmails(users: map<int, User>, next: int, tenantId: int, i: nat, req: CreateUserRequest,
                       password: string, fault: bool, email: string)
    requires IdsBelow(users, next)
    ensures var r := Row(users, next, tenantId, i, req, password, fault);
      (EmailTaken(users, tenantId, email) ==> EmailTaken(r.users, tenantId, email)) &&
      (!fault && req.name.Some? ==> EmailTaken(r.users, tenantId, req.email))
  {
    var faulty := fault || req.name.None?;
    var r := Row(users, next, tenantId, i, req, password, fault);
    if EmailTaken(users, tenantId, email) {
      var id :| id in users && users[id].tenantId == tenantId && users[id].email == email;
      assert id in r.users && r.users[id].tenantId == tenantId && r.users[id].email == email;
    }
    if !faulty && EmailTaken(users, tenantId, req.email) {
      var id :| id in users && users[id].tenantId == tenantId && users[id].email == req.email;
      assert id in r.users && r.users[id].tenantId == tenantId && r.users[id].email == req.email;
    } else if !faulty {
      assert next in r.users && r.users[next].tenantId == tenantId && r.users[next].email == req.email;
    }
  }

  lemma {:induction false} BulkIds(users: map<int, User>, next: int, tenantId: int, reqs: seq<CreateUserRequest>,
                                   generated: seq<string>, faults: set<nat>, n: nat)
    requires n <= |reqs| && |generated| == |reqs|
    requires IdsBelow(users, next)
    ensures var st := Bulk(users, next, tenantId, reqs, generated, faults, n);
      IdsBelow(st.users, st.next)
    decreases n
  {
    if n > 0 {
      BulkIds(users, next, tenantId, reqs, generated, faults, n - 1);
      var st := Bulk(users, next, tenantId, reqs, generated, faults, n - 1);
      RowIds(st.users, st.next, tenantId, n - 1, reqs[n - 1], generated[n - 1], n - 1 in faults);
    }
  }

  /** Later rows leave the outcome of an earlier row as it was. */
  lemma {:induction false} BulkPrefix(users: map<int, User>, next: int, tenantId: int, reqs: seq<CreateUserRequest>,
                                      generated: seq<string>, faults: set<nat>, i: nat, n: nat)
    requires i < n <= |reqs| && |generated| == |reqs|
    ensures var st := Bulk(users, next, tenantId, reqs, generated, faults, i);
      Bulk(users, next, tenantId, reqs, generated, faults, n).outcomes[i] ==
      Row(st.users, st.next, tenantId, i, reqs[i], generated[i], i in faults).outcome
    decreases n
  {
    var st := Bulk(users, next, tenantId, reqs, generated, faults, n - 1);
    var r := Row(st.users, st.next, tenantId, n - 1, reqs[n - 1], generated[n - 1], n - 1 in faults);
    assert Bulk(users, next, tenantId, reqs, generated, faults, n).outcomes == st.outcomes + [r.outcome];
    if i < n - 1 {
      BulkPrefix(users, next, tenantId, reqs, generated, faults, i, n - 1);
    }
  }

  /** Every row that did not fail leaves its email taken in the tenant, so
      that a later row with the same email refreshes that user instead of
      inserting a second one. */
  lemma {:induction false} BulkRegistersEmails(users: map<int, User>, next: int, tenantId: int,
                                               reqs: seq<CreateUserRequest>, generated: seq<string>,
                                               faults: set<nat>, n: nat, i: nat)
    requires n <= |reqs| && |generated| == |reqs| && i < n && !Fails(reqs, faults, i)
    requires IdsBelow(users, next)
    ensures EmailTaken(Bulk(users, next, tenantId, reqs, generated, faults, n).users, tenantId, reqs[i].email)
    decreases n
  {
    var st := Bulk(users, next, tenantId, reqs, generated, faults, n - 1);
    BulkIds(users, next, tenantId, reqs, generated, faults, n - 1);
    if i < n - 1 {
      BulkRegistersEmails(users, next, tenantId, reqs, generated, faults, n - 1, i);
    }
    RowKeepsEmails(st.users, st.next, tenantId, n - 1, reqs[n - 1], generated[n - 1], n - 1 in faults, reqs[i].email);
    assert ObservedCreate(reqs[n - 1]).email == reqs[n - 1].email;
  }

  /** An email repeated in the upload is inserted at most once: once a row
      with it succeeded, a later row with it that does not fail refreshes. */
  lemma RepeatedEmailRefreshes(users: map<int, User>, next: int, tenantId: int, reqs: seq<CreateUserRequest>,
                               generated: seq<string>, faults: set<nat>, i: nat, j: nat)
    requires |generated| == |reqs| && i < j < |reqs| && !Fails(reqs, faults, i) && !Fails(reqs, faults, j)
    requires reqs[i].email == reqs[j].email
    requires IdsBelow(users, next)
    ensures Bulk(users, next, tenantId, reqs, generated, faults, |reqs|).outcomes[j].Refreshed?
  {
    var st := Bulk(users, next, tenantId, reqs, generated, faults, j);
    BulkRegistersEmails(users, next, tenantId, reqs, generated, faults, j, i);
    BulkPrefix(users, next, tenantId, reqs, generated, faults, j, |reqs|);
    RowKind(st.users, st.next, tenantId, j, reqs[j], generated[j], j in faults);
  }

  /** The row numbers the errors carry. */
  function ErrorRows(e: seq<RowError>): (rows: seq<nat>)
    ensures |rows| == |e|
  {
    if |e| == 0 then [] else ErrorRows(e[..|e| - 1]) + [e[|e| - 1].row]
  }

  /** The 1-based numbers of the failing rows among the first `n`, ascending. */
  function FailingRowNumbers(reqs: seq<CreateUserRequest>, faults: set<nat>, n: nat): seq<nat>
    requires n <= |reqs|
  {
    if n == 0 then [] else FailingRowNumbers(reqs, faults, n - 1) + (if Fails(reqs, faults, n - 1) then [n] else [])
  }

  /** The numbers are between 1 and `n` and name failing rows. */
  lemma {:induction false} FailingRowNumbersFail(reqs: seq<CreateUserRequest>, faults: set<nat>, n: nat)
    requires n <= |reqs|
    ensures forall k :: 0 <= k < |FailingRowNumbers(reqs, faults, n)| ==>
      1 <= FailingRowNumbers(reqs, faults, n)[k] <= n && Fails(reqs, faults, FailingRowNumbers(reqs, faults, n)[k] - 1)
    decreases n
  {
    if n > 0 {
      FailingRowNumbersFail(reqs, faults, n - 1);
      var s0 := FailingRowNumbers(reqs, faults, n - 1);
      assert forall k :: 0 <= k < |s0| ==> FailingRowNumbers(reqs, faults, n)[k] == s0[k];
    }
  }

  /** The numbers are strictly ascending. */
  lemma {:induction false} FailingRowNumbersAscending(reqs: seq<CreateUserRequest>, faults: set<nat>, n: nat)
    requires n <= |reqs|
    ensures forall k, l :: 0 <= k < l < |FailingRowNumbers(reqs, faults, n)| ==>
      FailingRowNumbers(reqs, faults, n)[k] < FailingRowNumbers(reqs, faults, n)[l]
    decreases n
  {
    if n > 0 {
      FailingRowNumbersAscending(reqs, faults, n - 1);
      FailingRowNumbersFail(reqs, faults, n - 1);
      var s0 := FailingRowNumbers(reqs, faults, n - 1);
      assert forall k :: 0 <= k < |s0| ==> FailingRowNumbers(reqs, faults, n)[k] == s0[k];
    }
  }

  /** Every failing row among the first `n` is listed. */
  lemma {:induction false} FailingRowListed(reqs: seq<CreateUserRequest>, faults: set<nat>, n: nat, i: nat)
    requires i < n <= |reqs| && Fails(reqs, faults, i)
    ensures i + 1 in FailingRowNumbers(reqs, faults, n)
    decreases n
  {
    var s0 := FailingRowNumbers(reqs, faults, n - 1);
    if i < n - 1 {
      FailingRowListed(reqs, faults, n - 1, i);
      var k :| 0 <= k < |s0| && s0[k] == i + 1;
      assert FailingRowNumbers(reqs, faults, n)[k] == i + 1;
    } else {
      assert FailingRowNumbers(reqs, faults, n)[|s0|] == i + 1;
    }
  }

  /** The errors of the first `n` rows carry exactly the failing rows'
      1-based numbers, in row order. */
  lemma {:induction false} BulkErrorRows(users: map<int, User>, next: int, tenantId: int,
                                         reqs: seq<CreateUserRequest>, generated: seq<string>, faults: set<nat>,
                                         n: nat)
    requires n <= |reqs| && |generated| == |reqs|
    ensures ErrorRows(ErrorsOf(Bulk(users, next, tenantId, reqs, generated, faults, n).outcomes)) ==
            FailingRowNumbers(reqs, faults, n)
    decreases n
  {
    if n > 0 {
      var st := Bulk(users, next, tenantId, reqs, generated, faults, n - 1);
      BulkErrorRows(users, next, tenantId, reqs, generated, faults, n - 1);
      var r := Row(st.users, st.next, tenantId, n - 1, reqs[n - 1], generated[n - 1], n - 1 in faults);
      assert Bulk(users, next, tenantId, reqs, generated, faults, n).outcomes == st.outcomes + [r.outcome];
      RowFails(st.users, st.next, tenantId, n - 1, reqs[n - 1], generated[n - 1], n - 1 in faults);
      OutcomesAppend(st.outcomes, r.outcome);
      if Fails(reqs, faults, n - 1) {
        var e := ErrorsOf(st.outcomes) + [r.outcome.error];
        assert e[..|e| - 1] == ErrorsOf(st.outcomes);
        assert ErrorRows(e) == ErrorRows(ErrorsOf(st.outcomes)) + [n];
      } else {
        assert ErrorsOf(st.outcomes + [r.outcome]) == ErrorsOf(st.outcomes);
        assert FailingRowNumbers(reqs, faults, n) == FailingRowNumbers(reqs, faults, n - 1);
      }
    }
  }

  /** Every row is accounted for: it is either an error or a returned user. */
  lemma {:induction false} OutcomeCount(outcomes: seq<Outcome>)
    ensures |ErrorsOf(outcomes)| + |SuccessesOf(outcomes)| == |outcomes|
    decreases |outcomes|
  {
    if |outcomes| > 0 {
      OutcomeCount(outcomes[..|outcomes| - 1]);
    }
  }
}
