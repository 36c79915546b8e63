/** Team administration (backend/internal/services/team_management.go):
    creating team trees inside one transaction, assigning members, updating,
    deleting with member transfer, and deleting use cases. */
module TeamManagement {
  import opened Common
  import opened Admin

  datatype TeamError =
    | MembersWithSubteams
    | VendorNotInTenant
    | NoFieldsToUpdate
    | TeamNotFound
    | HasSubteams
    | HasMembers
    | UseCaseInUse
    | MembersUpdateFailed
    | AddMembersFailed

  /** A team to create, with the users to put in it and the subteams to create
      under it. `groupId` is the parent team. */
  datatype CreateTeamRequest = CreateTeamRequest(
    name: string,
    description: string,
    vendorId: Option<int>,
    groupId: Option<int>,
    members: seq<int>,
    subteams: seq<CreateTeamRequest>)

  /** `None` is a field left out of the JSON body. */
  datatype UpdateTeamRequest = UpdateTeamRequest(
    name: Option<string>,
    description: Option<string>,
    members: Option<seq<int>>,
    subteams: Option<seq<CreateTeamRequest>>)

  /** The tables a transaction works on: nothing reaches the store until commit. */
  datatype Tx = Tx(teams: map<int, Team>, users: map<int, User>, nextTeamId: int)

  /** One team a request writes: its row and the users it takes as members. */
  datatype Planned = Planned(team: Team, members: seq<int>)

  /** The number of teams a request creates. */
  function Size(req: CreateTeamRequest): nat
  {
    1 + SizeAll(req.subteams)
  }

  function SizeAll(reqs: seq<CreateTeamRequest>): nat
  {
    if |reqs| == 0 then 0 else Size(reqs[0]) + SizeAll(reqs[1..])
  }

  /** The row a request inserts: no manager and no use case yet. */
  function NewRow(tenantId: int, req: CreateTeamRequest, parent: Option<int>, id: int): Team
  {
    Team(id, tenantId, req.vendorId, parent, req.name, Some(req.description), None, None)
  }

  /** The teams a request creates, in insertion order (the team, then each
      subteam's tree in turn), with ids from `id` on and `parent` as the
      group of the first. */
  function Plan(tenantId: int, req: CreateTeamRequest, parent: Option<int>, id: int): (p: seq<Planned>)
    ensures |p| == Size(req)
    decreases req
  {
    [Planned(NewRow(tenantId, req, parent, id), req.members)] + PlanAll(tenantId, req.subteams, id, id + 1)
  }

  /** The trees of `reqs`, one after the other, each placed under `parent`. */
  function PlanAll(tenantId: int, reqs: seq<CreateTeamRequest>, parent: int, id: int): (p: seq<Planned>)
    ensures |p| == SizeAll(reqs)
    decreases reqs
  {
    if |reqs| == 0 then []
    else Plan(tenantId, reqs[0], Some(parent), id) + PlanAll(tenantId, reqs[1..], parent, id + Size(reqs[0]))
  }

  /** The planned teams carry consecutive ids from `id` on, in the tenant. */
  ghost predicate Numbered(p: seq<Planned>, tenantId: int, id: int)
  {
    forall k :: 0 <= k < |p| ==> p[k].team.id == id + k && p[k].team.tenantId == tenantId
  }

  /** Each planned team hangs under `parent` or under a team planned before it. */
  ghost predicate HungUnder(p: seq<Planned>, parent: int, id: int)
  {
    forall k :: 0 <= k < |p| ==>
      p[k].team.groupId.Some? && (p[k].team.groupId.value == parent || id <= p[k].team.groupId.value < id + k)
  }

  lemma NumberedAppend(a: seq<Planned>, b: seq<Planned>, tenantId: int, id: int)
    requires Numbered(a, tenantId, id) && Numbered(b, tenantId, id + |a|)
    ensures Numbered(a + b, tenantId, id)
  {
    forall k | |a| <= k < |a + b|
      ensures (a + b)[k].team.id == id + k && (a + b)[k].team.tenantId == tenantId
    {
      assert (a + b)[k] == b[k - |a|];
    }
  }

  lemma HungUnderAppend(a: seq<Planned>, b: seq<Planned>, parent: int, id: int)
    requires HungUnder(a, parent, id) && HungUnder(b, parent, id + |a|)
    ensures HungUnder(a + b, parent, id)
  {
    forall k | |a| <= k < |a + b|
      ensures (a + b)[k].team.groupId.Some? &&
              ((a + b)[k].team.groupId.value == parent || id <= (a + b)[k].team.groupId.value < id + k)
    {
      assert (a + b)[k] == b[k - |a|];
    }
  }

  /** The shape of a plan: consecutive ids, the first team under `parent` with
      the request's members, and every later team under a team planned
      before it. */
  lemma {:induction false} PlanShape(tenantId: int, req: CreateTeamRequest, parent: Option<int>, id: int)
    ensures var p := Plan(tenantId, req, parent, id);
      Numbered(p, tenantId, id) &&
      p[0].team.groupId == parent && p[0].members == req.members &&
      HungUnder(p[1..], id, id + 1)
    decreases req, 1
  {
    var p := Plan(tenantId, req, parent, id);
    var rest := PlanAll(tenantId, req.subteams, id, id + 1);
    PlanAllShape(tenantId, req.subteams, id, id + 1);
    assert p[1..] == rest;
    assert Numbered([p[0]], tenantId, id);
    NumberedAppend([p[0]], rest, tenantId, id);
  }

  lemma {:induction false} PlanAllShape(tenantId: int, reqs: seq<CreateTeamRequest>, parent: int, id: int)
    ensures Numbered(PlanAll(tenantId, reqs, parent, id), tenantId, id)
    ensures HungUnder(PlanAll(tenantId, reqs, parent, id), parent, id)
    decreases reqs, 0
  {
    if |reqs| > 0 {
      var first := Plan(tenantId, reqs[0], Some(parent), id);
      var rest := PlanAll(tenantId, reqs[1..], parent, id + Size(reqs[0]));
      PlanShape(tenantId, reqs[0], Some(parent), id);
      PlanAllShape(tenantId, reqs[1..], parent, id + Size(reqs[0]));
      forall k | 0 <= k < |first|
        ensures first[k].team.groupId.Some? &&
                (first[k].team.groupId.value == parent || id <= first[k].team.groupId.value < id + k)
      {
        if k > 0 {
          assert first[k] == first[1..][k - 1];
        }
      }
      NumberedAppend(first, rest, tenantId, id);
      HungUnderAppend(first, rest, parent, id);
    }
  }

  /** Every team a request creates after the first has as group the id of a
      team created before it: subteams at any depth hang under their parent's
      new id. */
  lemma SubteamsUnderParents(tenantId: int, req: CreateTeamRequest, parent: Option<int>, id: int, k: nat)
    requires 1 <= k < Size(req)
    ensures var p := Plan(tenantId, req, parent, id);
      exists j :: 0 <= j < k && p[k].team.groupId == Some(p[j].team.id)
  {
    var p := Plan(tenantId, req, parent, id);
    PlanShape(tenantId, req, parent, id);
    assert p[k] == p[1..][k - 1];
    var j := p[k].team.groupId.value - id;
    assert 0 <= j < k;
    assert p[j].team.id == id + j;
    assert p[k].team.groupId == Some(p[j].team.id);
  }

  lemma {:induction false} PlanAllSplit(tenantId: int, reqs: seq<CreateTeamRequest>, parent: int, id: int, i: nat)
    requires i < |reqs|
    ensures PlanAll(tenantId, reqs[..i + 1], parent, id) ==
            PlanAll(tenantId, reqs[..i], parent, id) +
            Plan(tenantId, reqs[i], Some(parent), id + SizeAll(reqs[..i]))
    ensures SizeAll(reqs[..i + 1]) == SizeAll(reqs[..i]) + Size(reqs[i])
  {
    var first := Plan(tenantId, reqs[0], Some(parent), id);
    var id' := id + Size(reqs[0]);
    if i > 0 {
      var tail := reqs[1..];
      assert reqs[..i + 1][0] == reqs[0] && reqs[..i + 1][1..] == tail[..i];
      assert reqs[..i][0] == reqs[0] && reqs[..i][1..] == tail[..i - 1];
      PlanAllSplit(tenantId, tail, parent, id', i - 1);
      var mid := PlanAll(tenantId, tail[..i - 1], parent, id');
      var last := Plan(tenantId, reqs[i], Some(parent), id' + SizeAll(tail[..i - 1]));
      assert tail[i - 1] == reqs[i];
      assert PlanAll(tenantId, reqs[..i + 1], parent, id) == first + (mid + last);
      assert PlanAll(tenantId, reqs[..i], parent, id) == first + mid;
      assert SizeAll(reqs[..i]) == Size(reqs[0]) + SizeAll(tail[..i - 1]);
      AppendAssociative(first, mid, last);
    } else {
      assert reqs[..1][0] == reqs[0] && reqs[..1][1..] == [];
      assert reqs[..0] == [];
    }
  }

  /** Users whose id is listed (and, with a tenant filter, who belong to that
      tenant) join the team under its manager; everyone else is untouched. */
  function AssignMembers(users: map<int, User>, members: seq<int>, teamId: int, managerId: Option<int>,
                         tenant: Option<int>): (r: map<int, User>)
    ensures r.Keys == users.Keys
    ensures forall id :: id in users ==>
      if id in members && (tenant.None? || users[id].tenantId == tenant.value) then
        r[id] == users[id].(teamId := Some(teamId), managerId := managerId)
      else r[id] == users[id]
  {
    map id | id in users ::
      if id in members && (tenant.None? || users[id].tenantId == tenant.value) then
        users[id].(teamId := Some(teamId), managerId := managerId)
      else users[id]
  }

  /** What one planned team does to the transaction: insert the row, assign
      its members (`updateMembers`, which has no tenant filter) under the
      team's manager, and use up one serial id. */
  function Step(tx: Tx, pl: Planned): Tx
  {
    Tx(tx.teams[pl.team.id := pl.team],
       AssignMembers(tx.users, pl.members, pl.team.id, pl.team.managerId, None),
       tx.nextTeamId + 1)
  }

  function Apply(tx: Tx, p: seq<Planned>): Tx
    decreases |p|
  {
    if |p| == 0 then tx else Apply(Step(tx, p[0]), p[1..])
  }

  lemma {:induction false} ApplyAppend(tx: Tx, a: seq<Planned>, b: seq<Planned>)
    ensures Apply(tx, a + b) == Apply(Apply(tx, a), b)
    decreases |a|
  {
    if |a| > 0 {
      assert (a + b)[0] == a[0] && (a + b)[1..] == a[1..] + b;
      ApplyAppend(Step(tx, a[0]), a[1..], b);
    } else {
      assert a + b == b;
    }
  }

  /** The team rows are stored under their ids, below the next serial value. */
  ghost predicate TxValid(tx: Tx)
  {
    forall id :: id in tx.teams ==> tx.teams[id].id == id && id < tx.nextTeamId
  }

  /** The users keep their ids, tenants and emails. */
  ghost predicate SameIdentity(before: map<int, User>, after: map<int, User>)
  {
    before.Keys == after.Keys &&
    forall id :: id in before ==>
      after[id].id == before[id].id && after[id].tenantId == before[id].tenantId &&
      after[id].email == before[id].email
  }

  /** Applying a plan whose ids start at the next serial value keeps the rows
      valid, keeps every existing team, moves the counter past the plan and
      only changes users' team and manager. */
  lemma {:induction false} ApplyKeeps(tx: Tx, p: seq<Planned>)
    requires TxValid(tx)
    requires forall k :: 0 <= k < |p| ==> p[k].team.id == tx.nextTeamId + k
    ensures TxValid(Apply(tx, p))
    ensures Apply(tx, p).nextTeamId == tx.nextTeamId + |p|
    ensures forall id :: id in tx.teams ==> id in Apply(tx, p).teams && Apply(tx, p).teams[id] == tx.teams[id]
    ensures SameIdentity(tx.users, Apply(tx, p).users)
    decreases |p|
  {
    if |p| > 0 {
      var next := Step(tx, p[0]);
      ApplyKeeps(next, p[1..]);
    }
  }

  /** The vendor is absent or is one of the tenant's vendors. */
  predicate VendorOk(vendors: map<int, int>, tenantId: int, vendorId: Option<int>)
  {
    vendorId.None? || (vendorId.value in vendors && vendors[vendorId.value] == tenantId)
  }

  predicate AllVendorsOk(vendors: map<int, int>, tenantId: int, p: seq<Planned>)
  {
    forall k :: 0 <= k < |p| ==> VendorOk(vendors, tenantId, p[k].team.vendorId)
  }

  /** No planned team has members to assign. */
  predicate NoMembers(p: seq<Planned>)
  {
    forall k :: 0 <= k < |p| ==> |p[k].members| == 0
  }

  /** The error of the first planned team that fails, in creation order: its
      vendor is not the tenant's, or its members are handed to the driver as a
      bare slice. */
  function FirstFault(vendors: map<int, int>, tenantId: int, p: seq<Planned>, arg: SliceArg): Option<TeamError>
    decreases |p|
  {
    if |p| == 0 then None
    else if !VendorOk(vendors, tenantId, p[0].team.vendorId) then Some(VendorNotInTenant)
    else if arg == Bare && |p[0].members| > 0 then Some(MembersUpdateFailed)
    else FirstFault(vendors, tenantId, p[1..], arg)
  }

  /** A plan fails exactly when a vendor is foreign or, with a bare slice, when
      some team has members; with `pq.Array` only a vendor can fail it. */
  lemma {:induction false} FaultMeaning(vendors: map<int, int>, tenantId: int, p: seq<Planned>, arg: SliceArg)
    ensures FirstFault(vendors, tenantId, p, arg).None? <==>
            AllVendorsOk(vendors, tenantId, p) && (arg == Bare ==> NoMembers(p))
    ensures arg == PqArray && FirstFault(vendors, tenantId, p, arg).Some? ==>
            FirstFault(vendors, tenantId, p, arg) == Some(VendorNotInTenant)
    ensures AllVendorsOk(vendors, tenantId, p) && FirstFault(vendors, tenantId, p, arg).Some? ==>
            FirstFault(vendors, tenantId, p, arg) == Some(MembersUpdateFailed)
    decreases |p|
  {
    if |p| > 0 {
      FaultMeaning(vendors, tenantId, p[1..], arg);
      if AllVendorsOk(vendors, tenantId, p[1..]) && VendorOk(vendors, tenantId, p[0].team.vendorId) {
        forall k | 0 <= k < |p|
          ensures VendorOk(vendors, tenantId, p[k].team.vendorId)
        {
          if k > 0 {
            assert p[k] == p[1..][k - 1];
          }
        }
      }
      if NoMembers(p[1..]) && |p[0].members| == 0 {
        forall k | 0 <= k < |p|
          ensures |p[k].members| == 0
        {
          if k > 0 {
            assert p[k] == p[1..][k - 1];
          }
        }
      }
    }
  }

  /** The first fault of two batches is the first batch's, or else the second's. */
  lemma {:induction false} FirstFaultAppend(vendors: map<int, int>, tenantId: int, a: seq<Planned>, b: seq<Planned>,
                                            arg: SliceArg)
    ensures FirstFault(vendors, tenantId, a + b, arg) ==
            if FirstFault(vendors, tenantId, a, arg).Some? then FirstFault(vendors, tenantId, a, arg)
            else FirstFault(vendors, tenantId, b, arg)
    decreases |a|
  {
    if |a| > 0 {
      assert (a + b)[0] == a[0] && (a + b)[1..] == a[1..] + b;
      FirstFaultAppend(vendors, tenantId, a[1..], b, arg);
    } else {
      assert a + b == b;
    }
  }

  /** A plan with no members to assign leaves every user as it was. */
  lemma {:induction false} NoMembersKeepUsers(tx: Tx, p: seq<Planned>)
    requires NoMembers(p)
    ensures Apply(tx, p).users == tx.users
    decreases |p|
  {
    if |p| > 0 {
      NoMembersNoChange(tx.users, p[0].team.id, p[0].team.managerId, None);
      assert p[0].members == [];
      assert NoMembers(p[1..]) by {
        forall k | 0 <= k < |p[1..]|
          ensures |p[1..][k].members| == 0
        {
          assert p[1..][k] == p[k + 1];
        }
      }
      NoMembersKeepUsers(Step(tx, p[0]), p[1..]);
    }
  }

  /** What a create request does to a transaction: fail with the first
      failing team of the tree, or apply the whole plan and return the first team. */
  ghost function CreateOutcome(vendors: map<int, int>, tx: Tx, tenantId: int, req: CreateTeamRequest,
                               arg: SliceArg): Result<(Tx, Team), TeamError>
  {
    var p := Plan(tenantId, req, req.groupId, tx.nextTeamId);
    var fault := FirstFault(vendors, tenantId, p, arg);
    if fault.None? then Ok((Apply(tx, p), p[0].team)) else Err(fault.value)
  }

  /** The member update as written against the one meant: a tree whose
      vendors all pass but which assigns some members is refused with the bare
      slice, and created with `pq.Array`. */
  lemma MembersRefusedAsWritten(vendors: map<int, int>, tx: Tx, tenantId: int, req: CreateTeamRequest)
    requires AllVendorsOk(vendors, tenantId, Plan(tenantId, req, req.groupId, tx.nextTeamId))
    requires !NoMembers(Plan(tenantId, req, req.groupId, tx.nextTeamId))
    ensures CreateOutcome(vendors, tx, tenantId, req, Bare) == Err(MembersUpdateFailed)
    ensures CreateOutcome(vendors, tx, tenantId, req, PqArray).Ok?
  {
    var p := Plan(tenantId, req, req.groupId, tx.nextTeamId);
    FaultMeaning(vendors, tenantId, p, Bare);
    FaultMeaning(vendors, tenantId, p, PqArray);
  }

  /** `updateMembers`: an empty list changes nothing. Otherwise the listed
      users (of any tenant) join the team under its manager, when the id list
      reaches the driver as an array; handed over as a bare `[]int64`, as
      written, it is refused and the update fails. */
  function UpdateMembers(users: map<int, User>, members: seq<int>, teamId: int, managerId: Option<int>,
                         arg: SliceArg): (r: Result<map<int, User>, TeamError>)
    ensures r.Err? <==> arg == Bare && |members| > 0
    ensures r.Err? ==> r.error == MembersUpdateFailed
    ensures r.Ok? ==> r.value == AssignMembers(users, members, teamId, managerId, None)
  {
    if |members| == 0 then NoMembersNoChange(users, teamId, managerId, None); Ok(users)
    else if arg == Bare then Err(MembersUpdateFailed)
    else Ok(AssignMembers(users, members, teamId, managerId, None))
  }

  /** `createTeamInTx`: check the vendor, insert the team, assign its members,
      then create each subteam under it. A failure anywhere fails the request;
      the caller then discards the transaction. */
  method CreateTeamInTx(vendors: map<int, int>, tx: Tx, tenantId: int, req: CreateTeamRequest, arg: SliceArg)
    returns (r: Result<(Tx, Team), TeamError>)
    ensures r == CreateOutcome(vendors, tx, tenantId, req, arg)
    decreases Size(req), 0
  {
    ghost var p := Plan(tenantId, req, req.groupId, tx.nextTeamId);
    assert p[1..] == PlanAll(tenantId, req.subteams, tx.nextTeamId, tx.nextTeamId + 1);
    if req.vendorId.Some? && !VendorOk(vendors, tenantId, req.vendorId) {
      assert !VendorOk(vendors, tenantId, p[0].team.vendorId);
      return Err(VendorNotInTenant);
    }
    var team := NewRow(tenantId, req, req.groupId, tx.nextTeamId);
    var cur := Tx(tx.teams[team.id := team], tx.users, tx.nextTeamId + 1);
    if |req.members| > 0 {
      var updated := UpdateMembers(cur.users, req.members, team.id, team.managerId, arg);
      if updated.Err? {
        return Err(updated.error);
      }
      cur := cur.(users := updated.value);
    } else {
      NoMembersNoChange(tx.users, team.id, team.managerId, None);
    }
    assert cur == Step(tx, p[0]);
    var sub := CreateSubteams(vendors, cur, tenantId, team.id, req.subteams, arg);
    if sub.Err? {
      return Err(sub.error);
    }
    return Ok((sub.value, team));
  }

  /** What a list of subteam requests does to a transaction. */
  ghost function SubteamsOutcome(vendors: map<int, int>, tx: Tx, tenantId: int, parent: int,
                                 reqs: seq<CreateTeamRequest>, arg: SliceArg): Result<Tx, TeamError>
  {
    var p := PlanAll(tenantId, reqs, parent, tx.nextTeamId);
    var fault := FirstFault(vendors, tenantId, p, arg);
    if fault.None? then Ok(Apply(tx, p)) else Err(fault.value)
  }

  /** Creates each request's tree in turn under `parent` (the subteam loop of
      `createTeamInTx` and of `UpdateTeam`, which set each request's group
      to the parent before creating it). */
  method CreateSubteams(vendors: map<int, int>, tx: Tx, tenantId: int, parent: int,
                        reqs: seq<CreateTeamRequest>, arg: SliceArg) returns (r: Result<Tx, TeamError>)
    ensures r == SubteamsOutcome(vendors, tx, tenantId, parent, reqs, arg)
    decreases SizeAll(reqs), 1
  {
    var cur := tx;
    for i := 0 to |reqs|
      invariant cur == Apply(tx, PlanAll(tenantId, reqs[..i], parent, tx.nextTeamId))
      invariant cur.nextTeamId == tx.nextTeamId + SizeAll(reqs[..i])
      invariant FirstFault(vendors, tenantId, PlanAll(tenantId, reqs[..i], parent, tx.nextTeamId), arg).None?
    {
      PlanAllSplit(tenantId, reqs, parent, tx.nextTeamId, i);
      SizeAllPrefix(reqs, i);
      var req := reqs[i].(groupId := Some(parent));
      ghost var before := PlanAll(tenantId, reqs[..i], parent, tx.nextTeamId);
      ghost var here := Plan(tenantId, reqs[i], Some(parent), cur.nextTeamId);
      assert Plan(tenantId, req, req.groupId, cur.nextTeamId) == here;
      var res := CreateTeamInTx(vendors, cur, tenantId, req, arg);
      FirstFaultAppend(vendors, tenantId, before, here, arg);
      if res.Err? {
        PlanAllPrefixFails(vendors, tenantId, reqs, parent, tx.nextTeamId, i + 1, arg);
        return Err(res.error);
      }
      ApplyAppend(tx, before, here);
      PlanShape(tenantId, reqs[i], Some(parent), cur.nextTeamId);
      ApplyNext(cur, here);
      cur := res.value.0;
    }
    assert reqs[..|reqs|] == reqs;
    return Ok(cur);
  }

  lemma ApplyNext(tx: Tx, p: seq<Planned>)
    requires forall k :: 0 <= k < |p| ==> p[k].team.id == tx.nextTeamId + k
    ensures Apply(tx, p).nextTeamId == tx.nextTeamId + |p|
    decreases |p|
  {
    if |p| > 0 {
      ApplyNext(Step(tx, p[0]), p[1..]);
    }
  }

  /** A subteam creates no more teams than the list it belongs to. */
  lemma {:induction false} SizeAllPrefix(reqs: seq<CreateTeamRequest>, i: nat)
    requires i < |reqs|
    ensures Size(reqs[i]) <= SizeAll(reqs)
  {
    if i > 0 {
      SizeAllPrefix(reqs[1..], i - 1);
    }
  }

  /** A failure among a prefix of the requests is the failure of the whole list. */
  lemma {:induction false} PlanAllPrefixFails(vendors: map<int, int>, tenantId: int, reqs: seq<CreateTeamRequest>,
                                              parent: int, id: int, i: nat, arg: SliceArg)
    requires i <= |reqs|
    requires FirstFault(vendors, tenantId, PlanAll(tenantId, reqs[..i], parent, id), arg).Some?
    ensures FirstFault(vendors, tenantId, PlanAll(tenantId, reqs, parent, id), arg) ==
            FirstFault(vendors, tenantId, PlanAll(tenantId, reqs[..i], parent, id), arg)
  {
    if i > 0 {
      var first := Plan(tenantId, reqs[0], Some(parent), id);
      var next := id + Size(reqs[0]);
      assert reqs[..i][1..] == reqs[1..][..i - 1];
      assert PlanAll(tenantId, reqs[..i], parent, id) == first + PlanAll(tenantId, reqs[1..][..i - 1], parent, next);
      FirstFaultAppend(vendors, tenantId, first, PlanAll(tenantId, reqs[1..][..i - 1], parent, next), arg);
      FirstFaultAppend(vendors, tenantId, first, PlanAll(tenantId, reqs[1..], parent, next), arg);
      if FirstFault(vendors, tenantId, first, arg).None? {
        PlanAllPrefixFails(vendors, tenantId, reqs[1..], parent, next, i - 1, arg);
      }
    }
  }

  /** An empty member list changes nobody (`updateMembers` returns at once). */
  lemma NoMembersNoChange(users: map<int, User>, teamId: int, managerId: Option<int>, tenant: Option<int>)
    ensures AssignMembers(users, [], teamId, managerId, tenant) == users
  {
  }

  /** Changing only users' teams and managers keeps the user table valid. */
  lemma UsersStayValid(before: map<int, User>, after: map<int, User>, nextUserId: int)
    requires forall id :: id in before ==> before[id].id == id && id < nextUserId
    requires SameIdentity(before, after)
    ensures forall id :: id in after ==> after[id].id == id && id < nextUserId
  {
  }

  /** `CreateTeam`: a request with both members and subteams is refused (at
      the top level only); otherwise the whole tree is created in one
      transaction, which the first failing team of the tree discards: a vendor
      outside the tenant or, with the bare slice the code passes, any member
      list at all. */
  method CreateTeam(db: AdminStore, tenantId: int, req: CreateTeamRequest, arg: SliceArg) returns (r: Result<Team, TeamError>)
    requires db.Valid()
    modifies db`teams, db`users, db`nextTeamId
    ensures db.Valid()
    ensures |req.subteams| > 0 && |req.members| > 0 ==> r == Err(MembersWithSubteams)
    ensures !(|req.subteams| > 0 && |req.members| > 0) ==>
      var p := Plan(tenantId, req, req.groupId, old(db.nextTeamId));
      (r.Ok? <==> AllVendorsOk(db.vendors, tenantId, p) && (arg == Bare ==> NoMembers(p))) &&
      (r.Err? ==> Some(r.error) == FirstFault(db.vendors, tenantId, p, arg)) &&
      (r.Err? && arg == PqArray ==> r.error == VendorNotInTenant)
    ensures r.Err? ==> db.teams == old(db.teams) && db.users == old(db.users) && db.nextTeamId == old(db.nextTeamId)
    ensures r.Ok? ==>
      var p := Plan(tenantId, req, req.groupId, old(db.nextTeamId));
      var after := Apply(Tx(old(db.teams), old(db.users), old(db.nextTeamId)), p);
      r.value == p[0].team && db.teams == after.teams && db.users == after.users && db.nextTeamId == after.nextTeamId
    ensures r.Ok? && arg == Bare ==> db.users == old(db.users)
  {
    if |req.subteams| > 0 && |req.members| > 0 {
      return Err(MembersWithSubteams);
    }
    var tx := Tx(db.teams, db.users, db.nextTeamId);
    ghost var p := Plan(tenantId, req, req.groupId, tx.nextTeamId);
    FaultMeaning(db.vendors, tenantId, p, arg);
    var res := CreateTeamInTx(db.vendors, tx, tenantId, req, arg);
    if res.Err? {
      return Err(res.error);
    }
    if arg == Bare {
      NoMembersKeepUsers(tx, p);
    }
    PlanShape(tenantId, req, req.groupId, tx.nextTeamId);
    ApplyKeeps(tx, p);
    UsersStayValid(db.users, res.value.0.users, db.nextUserId);
    Commit(db, res.value.0);
    return Ok(res.value.1);
  }

  /** Commits a transaction whose rows are valid to the store. */
  method Commit(db: AdminStore, tx: Tx)
    requires db.Valid() && TxValid(tx)
    requires forall id :: id in tx.users ==> tx.users[id].id == id && id < db.nextUserId
    modifies db`teams, db`users, db`nextTeamId
    ensures db.Valid()
    ensures db.teams == tx.teams && db.users == tx.users && db.nextTeamId == tx.nextTeamId
  {
    db.teams, db.users, db.nextTeamId := tx.teams, tx.users, tx.nextTeamId;
  }

  /** The team after an update: the supplied name and description replace the stored ones. */
  function Renamed(team: Team, req: UpdateTeamRequest): (r: Team)
    ensures r.name == (if req.name.Some? then req.name.value else team.name)
    ensures r.description == (if req.description.Some? then req.description else team.description)
    ensures r.(name := team.name, description := team.description) == team
  {
    var t1 := if req.name.Some? then team.(name := req.name.value) else team;
    if req.description.Some? then t1.(description := req.description) else t1
  }

  /** The subteams an update creates under the team. */
  function UpdatePlan(tenantId: int, teamId: int, req: UpdateTeamRequest, id: int): seq<Planned>
  {
    if req.subteams.Some? then PlanAll(tenantId, req.subteams.value, teamId, id) else []
  }

  /** The update's member list is refused: it is non-empty and handed to the
      driver as a bare slice. */
  predicate MembersRefused(req: UpdateTeamRequest, arg: SliceArg)
  {
    arg == Bare && req.members.Some? && |req.members.value| > 0
  }

  /** The users after an update's member list is applied. */
  function UpdatedMembers(users: map<int, User>, req: UpdateTeamRequest, teamId: int, managerId: Option<int>): map<int, User>
  {
    if req.members.Some? then AssignMembers(users, req.members.value, teamId, managerId, None) else users
  }

  /** The part of `UpdateTeam` after the team row is updated: assign the
      supplied members, then create the supplied subteams under the team. */
  method UpdateInTx(vendors: map<int, int>, start: Tx, tenantId: int, teamId: int, managerId: Option<int>,
                    req: UpdateTeamRequest, arg: SliceArg) returns (r: Result<Tx, TeamError>)
    ensures MembersRefused(req, arg) ==> r == Err(MembersUpdateFailed)
    ensures !MembersRefused(req, arg) ==>
      var p := UpdatePlan(tenantId, teamId, req, start.nextTeamId);
      (r.Ok? <==> FirstFault(vendors, tenantId, p, arg).None?) &&
      (r.Err? ==> Some(r.error) == FirstFault(vendors, tenantId, p, arg)) &&
      (r.Ok? ==> r.value == Apply(start.(users := UpdatedMembers(start.users, req, teamId, managerId)), p))
  {
    var tx := start;
    if req.members.Some? {
      var updated := UpdateMembers(tx.users, req.members.value, teamId, managerId, arg);
      if updated.Err? {
        return Err(updated.error);
      }
      tx := tx.(users := updated.value);
    }
    assert tx == start.(users := UpdatedMembers(start.users, req, teamId, managerId));
    if req.subteams.Some? {
      var res := CreateSubteams(vendors, tx, tenantId, teamId, req.subteams.value, arg);
      if res.Err? {
        return Err(res.error);
      }
      tx := res.value;
    }
    return Ok(tx);
  }

  /** Committing an applied plan whose ids start at the next serial value
      keeps the store valid. */
  lemma CommitValid(tx: Tx, p: seq<Planned>, users: map<int, User>, nextUserId: int)
    requires TxValid(tx)
    requires forall k :: 0 <= k < |p| ==> p[k].team.id == tx.nextTeamId + k
    requires forall id :: id in users ==> users[id].id == id && id < nextUserId
    requires SameIdentity(users, tx.users)
    ensures TxValid(Apply(tx, p))
    ensures forall id :: id in Apply(tx, p).users ==> Apply(tx, p).users[id].id == id && id < nextUserId
  {
    ApplyKeeps(tx, p);
    UsersStayValid(users, Apply(tx, p).users, nextUserId);
  }

  /** An update applied to valid rows leaves them valid. */
  lemma UpdateValid(start: Tx, tenantId: int, teamId: int, managerId: Option<int>, req: UpdateTeamRequest, nextUserId: int)
    requires TxValid(start)
    requires forall id :: id in start.users ==> start.users[id].id == id && id < nextUserId
    ensures var after := Apply(start.(users := UpdatedMembers(start.users, req, teamId, managerId)),
                               UpdatePlan(tenantId, teamId, req, start.nextTeamId));
      TxValid(after) && forall id :: id in after.users ==> after.users[id].id == id && id < nextUserId
  {
    if req.subteams.Some? {
      PlanAllShape(tenantId, req.subteams.value, teamId, start.nextTeamId);
    }
    CommitValid(start.(users := UpdatedMembers(start.users, req, teamId, managerId)),
                UpdatePlan(tenantId, teamId, req, start.nextTeamId), start.users, nextUserId);
  }

  /** `UpdateTeam`, in one transaction: some of name and description must be
      supplied and the team must exist in the tenant; supplied members join
      the team under its manager and supplied subteams are created under it.
      With the bare slice the code passes, any non-empty member list, the
      update's own or a new subteam's, discards the transaction. */
  method UpdateTeam(db: AdminStore, tenantId: int, teamId: int, req: UpdateTeamRequest, arg: SliceArg)
    returns (r: Result<Team, TeamError>)
    requires db.Valid()
    modifies db`teams, db`users, db`nextTeamId
    ensures db.Valid()
    ensures req.name.None? && req.description.None? ==> r == Err(NoFieldsToUpdate)
    ensures (req.name.Some? || req.description.Some?) && TeamInTenant(old(db.teams), tenantId, teamId).None? ==>
      r == Err(TeamNotFound)
    ensures (req.name.Some? || req.description.Some?) && TeamInTenant(old(db.teams), tenantId, teamId).Some? ==>
      var p := UpdatePlan(tenantId, teamId, req, old(db.nextTeamId));
      (MembersRefused(req, arg) ==> r == Err(MembersUpdateFailed)) &&
      (r.Ok? <==> !MembersRefused(req, arg) && AllVendorsOk(db.vendors, tenantId, p) && (arg == Bare ==> NoMembers(p))) &&
      (r.Err? && arg == PqArray ==> r.error == VendorNotInTenant)
    ensures r.Err? ==> db.teams == old(db.teams) && db.users == old(db.users) && db.nextTeamId == old(db.nextTeamId)
    ensures r.Ok? ==>
      var team := Renamed(old(db.teams)[teamId], req);
      var after := Apply(Tx(old(db.teams)[teamId := team], UpdatedMembers(old(db.users), req, teamId, team.managerId),
                            old(db.nextTeamId)),
                         UpdatePlan(tenantId, teamId, req, old(db.nextTeamId)));
      r.value == team && db.teams == after.teams && db.users == after.users && db.nextTeamId == after.nextTeamId
  {
    if req.name.None? && req.description.None? {
      return Err(NoFieldsToUpdate);
    }
    if TeamInTenant(db.teams, tenantId, teamId).None? {
      return Err(TeamNotFound);
    }
    var team := Renamed(db.teams[teamId], req);
    var start := Tx(db.teams[teamId := team], db.users, db.nextTeamId);
    FaultMeaning(db.vendors, tenantId, UpdatePlan(tenantId, teamId, req, start.nextTeamId), arg);
    var res := UpdateInTx(db.vendors, start, tenantId, teamId, team.managerId, req, arg);
    if res.Err? {
      return Err(res.error);
    }
    assert team.id == teamId;
    UpdateValid(start, tenantId, teamId, team.managerId, req, db.nextUserId);
    Commit(db, res.value);
    return Ok(team);
  }

  /** Some team of the tenant has `teamId` as its group. */
  predicate HasSubteamsIn(teams: map<int, Team>, tenantId: int, teamId: int)
  {
    exists id :: id in teams && teams[id].groupId == Some(teamId) && teams[id].tenantId == tenantId
  }

  /** Some user of the tenant is in the team. */
  predicate HasMembersIn(users: map<int, User>, tenantId: int, teamId: int)
  {
    exists id :: id in users && users[id].teamId == Some(teamId) && users[id].tenantId == tenantId
  }

  /** The tenant's members of `from` move to `to`; their manager stays. */
  function Transfer(users: map<int, User>, tenantId: int, from: int, to: int): (r: map<int, User>)
    ensures r.Keys == users.Keys
    ensures forall id :: id in users ==>
      r[id] == if users[id].tenantId == tenantId && users[id].teamId == Some(from)
               then users[id].(teamId := Some(to)) else users[id]
  {
    map id | id in users ::
      if users[id].tenantId == tenantId && users[id].teamId == Some(from) then users[id].(teamId := Some(to))
      else users[id]
  }

  /** After a transfer to another team, the team has no member left in the
      tenant; a transfer to the team itself moves nobody. */
  lemma TransferEmpties(users: map<int, User>, tenantId: int, from: int, to: int)
    ensures to != from ==> !HasMembersIn(Transfer(users, tenantId, from, to), tenantId, from)
    ensures to == from ==> Transfer(users, tenantId, from, to) == users
  {
  }

  /** `DeleteTeam`: refused while the team has subteams, or members and no
      transfer target; otherwise the members move to the target and the team
      row (if the tenant has it) is removed. */
  method DeleteTeam(db: AdminStore, tenantId: int, teamId: int, transferTo: Option<int>) returns (r: Result<(), TeamError>)
    requires db.Valid()
    modifies db`teams, db`users
    ensures db.Valid()
    ensures HasSubteamsIn(old(db.teams), tenantId, teamId) ==> r == Err(HasSubteams)
    ensures (!HasSubteamsIn(old(db.teams), tenantId, teamId) && HasMembersIn(old(db.users), tenantId, teamId) &&
             transferTo.None?) ==> r == Err(HasMembers)
    ensures r.Ok? <==> !HasSubteamsIn(old(db.teams), tenantId, teamId) &&
                       (!HasMembersIn(old(db.users), tenantId, teamId) || transferTo.Some?)
    ensures r.Err? ==> db.teams == old(db.teams) && db.users == old(db.users)
    ensures r.Ok? ==>
      db.users == (if HasMembersIn(old(db.users), tenantId, teamId)
                   then Transfer(old(db.users), tenantId, teamId, transferTo.value) else old(db.users)) &&
      db.teams == (if TeamInTenant(old(db.teams), tenantId, teamId).Some? then old(db.teams) - {teamId}
                   else old(db.teams))
  {
    if HasSubteamsIn(db.teams, tenantId, teamId) {
      return Err(HasSubteams);
    }
    var users := db.users;
    if HasMembersIn(users, tenantId, teamId) {
      if transferTo.None? {
        return Err(HasMembers);
      }
      users := Transfer(users, tenantId, teamId, transferTo.value);
    }
    var teams := db.teams;
    if teamId in teams && teams[teamId].tenantId == tenantId {
      teams := teams - {teamId};
    }
    UsersStayValid(db.users, users, db.nextUserId);
    db.teams, db.users := teams, users;
    return Ok(());
  }

  /** `AddTeamMembers`: the listed users of the tenant join the team under
      its manager; a team missing from the tenant is an error. The update has
      no early return for an empty list, so with the bare slice the code
      passes it fails for every team that exists, whatever the list. */
  method AddTeamMembers(db: AdminStore, tenantId: int, teamId: int, members: seq<int>, arg: SliceArg)
    returns (r: Result<(), TeamError>)
    requires db.Valid()
    modifies db`users
    ensures db.Valid()
    ensures r == Err(TeamNotFound) <==> TeamInTenant(db.teams, tenantId, teamId).None?
    ensures TeamInTenant(db.teams, tenantId, teamId).Some? ==> (r.Err? <==> arg == Bare)
    ensures r.Err? ==> (r.error == TeamNotFound || r.error == AddMembersFailed) && db.users == old(db.users)
    ensures r.Ok? ==>
      db.users == AssignMembers(old(db.users), members, teamId, db.teams[teamId].managerId, Some(tenantId))
  {
    if teamId !in db.teams || db.teams[teamId].tenantId != tenantId {
      return Err(TeamNotFound);
    }
    if arg == Bare {
      return Err(AddMembersFailed);
    }
    var managerId := db.teams[teamId].managerId;
    var users := AssignMembers(db.users, members, teamId, managerId, Some(tenantId));
    UsersStayValid(db.users, users, db.nextUserId);
    db.users := users;
    return Ok(());
  }

  /** Some team of the tenant uses the use case. */
  predicate UseCaseUsed(teams: map<int, Team>, tenantId: int, useCaseId: int)
  {
    exists id :: id in teams && teams[id].useCaseId == Some(useCaseId) && teams[id].tenantId == tenantId
  }

  /** `DeleteUseCase`: refused while a team of the tenant uses it; otherwise
      the tenant's use case (if any) is removed. */
  method DeleteUseCase(db: AdminStore, tenantId: int, useCaseId: int) returns (r: Result<(), TeamError>)
    modifies db`useCases
    ensures r.Err? <==> UseCaseUsed(db.teams, tenantId, useCaseId)
    ensures r.Err? ==> r.error == UseCaseInUse && db.useCases == old(db.useCases)
    ensures r.Ok? ==>
      db.useCases == if useCaseId in old(db.useCases) && old(db.useCases)[useCaseId].tenantId == tenantId
                     then old(db.useCases) - {useCaseId} else old(db.useCases)
  {
    if exists id :: id in db.teams && db.teams[id].useCaseId == Some(useCaseId) && db.teams[id].tenantId == tenantId {
      return Err(UseCaseInUse);
    }
    if useCaseId in db.useCases && db.useCases[useCaseId].tenantId == tenantId {
      db.useCases := db.useCases - {useCaseId};
    }
    return Ok(());
  }
}
