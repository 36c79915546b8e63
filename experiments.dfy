// Feature flags and experiment assignment
// (backend/internal/services/experiments.go): whether a flag is on, and the
// look-up-or-insert that gives a customer or session its variant.
module Experiments {
  import opened Common

  /** A `feature_flags` row, as far as the decision reads it. */
  datatype FeatureFlag = FeatureFlag(tenantId: int, flagKey: string, isEnabled: bool, rolloutPercentage: int)

  /** An `experiment_assignments` row. The zero value (id 0, no customer, no
      session, empty variant) is what the service returns when it is given
      neither a customer nor a session. */
  datatype Assignment = Assignment(id: int, experimentId: int, customerId: Option<int>, sessionId: Option<string>,
                                   variant: string)

  datatype ExperimentError = FlagNotFound | ExperimentNotFound

  const Control := "control"

  const EmptyAssignment := Assignment(0, 0, None, None, "")

  /** `GetFeatureFlag`: the tenant's flag with this key. */
  function FindFlag(flags: seq<FeatureFlag>, tenantId: int, flagKey: string): (r: Option<FeatureFlag>)
    ensures r.Some? ==> r.value in flags && r.value.tenantId == tenantId && r.value.flagKey == flagKey
    ensures r.None? ==> forall f :: f in flags ==> f.tenantId != tenantId || f.flagKey != flagKey
  {
    if |flags| == 0 then None
    else if flags[0].tenantId == tenantId && flags[0].flagKey == flagKey then Some(flags[0])
    else FindFlag(flags[1..], tenantId, flagKey)
  }

  /** `IsFeatureEnabled`. The customer is passed but not consulted: the
      rollout check is a stub, so any rollout above 0 turns the flag on for
      everyone. */
  function IsFeatureEnabled(flags: seq<FeatureFlag>, tenantId: int, flagKey: string, customerId: Option<int>)
    : (r: Result<bool, ExperimentError>)
    ensures FindFlag(flags, tenantId, flagKey).None? <==> r == Err(FlagNotFound)
  {
    var flag := FindFlag(flags, tenantId, flagKey);
    if flag.None? then Err(FlagNotFound)
    else if !flag.value.isEnabled then Ok(false)
    else if flag.value.rolloutPercentage >= 100 then Ok(true)
    else if flag.value.rolloutPercentage <= 0 then Ok(false)
    else Ok(true)
  }

  /** A found flag is on exactly when it is enabled with a positive rollout:
      a disabled flag is never on, rollout 100 or more is on, 0 or less is
      off, and anything in between is on. */
  lemma FlagDecision(flags: seq<FeatureFlag>, tenantId: int, flagKey: string, customerId: Option<int>)
    requires FindFlag(flags, tenantId, flagKey).Some?
    ensures var flag := FindFlag(flags, tenantId, flagKey).value;
      IsFeatureEnabled(flags, tenantId, flagKey, customerId) == Ok(flag.isEnabled && flag.rolloutPercentage > 0)
  {
  }

  /** The decision is the same for every customer. */
  lemma SameForEveryCustomer(flags: seq<FeatureFlag>, tenantId: int, flagKey: string, a: Option<int>, b: Option<int>)
    ensures IsFeatureEnabled(flags, tenantId, flagKey, a) == IsFeatureEnabled(flags, tenantId, flagKey, b)
  {
  }

  /** The assignment looked up for the request: by customer when one is
      given, else by session; the first matching row. */
  function FindAssignment(rows: seq<Assignment>, experimentId: int, customerId: Option<int>, sessionId: Option<string>)
    : (r: Option<Assignment>)
    requires customerId.Some? || sessionId.Some?
    ensures r.Some? ==> r.value in rows && r.value.experimentId == experimentId
    ensures r.Some? && customerId.Some? ==> r.value.customerId == customerId
    ensures r.Some? && customerId.None? ==> r.value.sessionId == sessionId
  {
    if |rows| == 0 then None
    else if rows[0].experimentId == experimentId &&
            (if customerId.Some? then rows[0].customerId == customerId else rows[0].sessionId == sessionId)
    then Some(rows[0])
    else FindAssignment(rows[1..], experimentId, customerId, sessionId)
  }

  /** The experiments and their assignments. */
  class ExperimentStore {
    var experiments: set<int>
    var assignments: seq<Assignment>
    var nextAssignmentId: int

    constructor(experiments: set<int>)
      ensures this.experiments == experiments && assignments == [] && nextAssignmentId == 1
    {
      this.experiments := experiments;
      assignments := [];
      nextAssignmentId := 1;
    }

    /** `AssignVariant`: an unknown experiment fails; with neither a customer
        nor a session the empty assignment is returned and nothing stored;
        an existing assignment is returned as it is; otherwise a `control`
        assignment recording whichever ids were given is stored. */
    method AssignVariant(experimentId: int, customerId: Option<int>, sessionId: Option<string>)
      returns (r: Result<Assignment, ExperimentError>)
      modifies this`assignments, this`nextAssignmentId
      ensures experimentId !in experiments ==> r == Err(ExperimentNotFound)
      ensures experimentId in experiments && customerId.None? && sessionId.None? ==> r == Ok(EmptyAssignment)
      ensures experimentId in experiments && (customerId.Some? || sessionId.Some?) ==>
        r == Ok(Assigned(old(assignments), old(nextAssignmentId), experimentId, customerId, sessionId)) &&
        assignments == AssignedRows(old(assignments), old(nextAssignmentId), experimentId, customerId, sessionId) &&
        nextAssignmentId == old(nextAssignmentId) +
          (if FindAssignment(old(assignments), experimentId, customerId, sessionId).None? then 1 else 0)
      ensures experimentId !in experiments || (customerId.None? && sessionId.None?) ==>
        assignments == old(assignments) && nextAssignmentId == old(nextAssignmentId)
    {
      if experimentId !in experiments {
        return Err(ExperimentNotFound);
      }
      if customerId.None? && sessionId.None? {
        return Ok(EmptyAssignment);
      }
      var existing := FindAssignment(assignments, experimentId, customerId, sessionId);
      if existing.Some? {
        return Ok(existing.value);
      }
      var assignment := Assignment(nextAssignmentId, experimentId, customerId, sessionId, Control);
      assignments := assignments + [assignment];
      nextAssignmentId := nextAssignmentId + 1;
      return Ok(assignment);
    }
  }

  /** What `AssignVariant` hands back for a customer or session: the
      existing assignment, or the new `control` one with the next id. */
  function Assigned(rows: seq<Assignment>, next: int, experimentId: int, customerId: Option<int>,
                    sessionId: Option<string>): (a: Assignment)
    requires customerId.Some? || sessionId.Some?
    ensures FindAssignment(rows, experimentId, customerId, sessionId).None? ==>
      a == Assignment(next, experimentId, customerId, sessionId, Control)
  {
    var existing := FindAssignment(rows, experimentId, customerId, sessionId);
    if existing.Some? then existing.value else Assignment(next, experimentId, customerId, sessionId, Control)
  }

  /** The rows after `AssignVariant` for a customer or session. */
  function AssignedRows(rows: seq<Assignment>, next: int, experimentId: int, customerId: Option<int>,
                        sessionId: Option<string>): seq<Assignment>
    requires customerId.Some? || sessionId.Some?
  {
    if FindAssignment(rows, experimentId, customerId, sessionId).Some? then rows
    else rows + [Assignment(next, experimentId, customerId, sessionId, Control)]
  }

  lemma {:induction false} FindAppended(rows: seq<Assignment>, a: Assignment, experimentId: int,
                                        customerId: Option<int>, sessionId: Option<string>)
    requires customerId.Some? || sessionId.Some?
    requires FindAssignment(rows, experimentId, customerId, sessionId).None?
    requires a.experimentId == experimentId
    requires if customerId.Some? then a.customerId == customerId else a.sessionId == sessionId
    ensures FindAssignment(rows + [a], experimentId, customerId, sessionId) == Some(a)
    decreases |rows|
  {
    if |rows| > 0 {
      assert (rows + [a])[1..] == rows[1..] + [a];
      FindAppended(rows[1..], a, experimentId, customerId, sessionId);
    } else {
      assert rows + [a] == [a];
    }
  }

  /** Assignment is idempotent: asking again with the same ids returns the
      same assignment and stores nothing more. */
  lemma AssignIdempotent(rows: seq<Assignment>, next: int, experimentId: int, customerId: Option<int>,
                         sessionId: Option<string>)
    requires customerId.Some? || sessionId.Some?
    ensures var rows' := AssignedRows(rows, next, experimentId, customerId, sessionId);
      var a := Assigned(rows, next, experimentId, customerId, sessionId);
      Assigned(rows', next + 1, experimentId, customerId, sessionId) == a &&
      AssignedRows(rows', next + 1, experimentId, customerId, sessionId) == rows'
  {
    if FindAssignment(rows, experimentId, customerId, sessionId).None? {
      FindAppended(rows, Assignment(next, experimentId, customerId, sessionId, Control), experimentId, customerId,
                   sessionId);
    }
  }

  /** A new assignment is always `control`, records whichever ids were
      given, and is appended to the rows. */
  lemma NewAssignmentIsControl(rows: seq<Assignment>, next: int, experimentId: int, customerId: Option<int>,
                               sessionId: Option<string>)
    requires customerId.Some? || sessionId.Some?
    requires FindAssignment(rows, experimentId, customerId, sessionId).None?
    ensures var a := Assigned(rows, next, experimentId, customerId, sessionId);
      a.variant == Control && a.customerId == customerId && a.sessionId == sessionId
    ensures AssignedRows(rows, next, experimentId, customerId, sessionId) ==
            rows + [Assigned(rows, next, experimentId, customerId, sessionId)]
  {
  }
}
