/** Customer identity resolution (backend/internal/services/identity.go): a
    customer is found by any one of its `(type, value)` identifiers within the
    tenant, or created with all the supplied identifiers attached in one
    transaction. The tables are in-memory; failures of individual identifier
    inserts are a parameter (`faults`, the indices whose insert fails). */
module Identity {
  import opened Common
  import opened Schema

  datatype IdentityError = NoIdentifiers | IdentifierInsertFailed

  /** The row holds one of the supplied `(type, value)` pairs. */
  predicate MatchesAny(row: IdentifierRow, ids: seq<CustomerIdentifier>)
  {
    exists k :: 0 <= k < |ids| && row.kind == ids[k].kind && row.value == ids[k].value
  }

  /** The row belongs to a customer of the tenant and holds a supplied pair:
      the join and WHERE clause of the lookup query. */
  predicate RowMatches(customers: map<int, int>, row: IdentifierRow, tenantId: int,
                       ids: seq<CustomerIdentifier>)
  {
    row.customerId in customers && customers[row.customerId] == tenantId && MatchesAny(row, ids)
  }

  /** The customer of the first matching row in table order. */
  function FirstMatch(customers: map<int, int>, rows: seq<IdentifierRow>, tenantId: int,
                      ids: seq<CustomerIdentifier>): (r: Option<int>)
    ensures r.None? <==> forall i :: 0 <= i < |rows| ==> !RowMatches(customers, rows[i], tenantId, ids)
    ensures r.Some? ==>
      exists i :: 0 <= i < |rows| && rows[i].customerId == r.value && RowMatches(customers, rows[i], tenantId, ids)
  {
    if |rows| == 0 then None
    else if RowMatches(customers, rows[0], tenantId, ids) then Some(rows[0].customerId)
    else
      var r := FirstMatch(customers, rows[1..], tenantId, ids);
      assert forall i :: 1 <= i < |rows| ==> rows[i] == rows[1..][i - 1];
      r
  }

  /** What the lookup query answers: an error for an empty identifier list,
      otherwise the customer of a matching row, or none. */
  function Lookup(customers: map<int, int>, rows: seq<IdentifierRow>, tenantId: int,
                  ids: seq<CustomerIdentifier>): (r: Result<Option<int>, IdentityError>)
    ensures r.Err? <==> |ids| == 0
    ensures r.Err? ==> r.error == NoIdentifiers
    ensures r == Ok(None) <==>
      |ids| > 0 && forall i :: 0 <= i < |rows| ==> !RowMatches(customers, rows[i], tenantId, ids)
    ensures r.Ok? && r.value.Some? ==>
      r.value.value in customers && customers[r.value.value] == tenantId &&
      exists i :: 0 <= i < |rows| && rows[i].customerId == r.value.value && MatchesAny(rows[i], ids)
  {
    if |ids| == 0 then Err(NoIdentifiers) else Ok(FirstMatch(customers, rows, tenantId, ids))
  }

  /** Two rows collide on the unique key `(customer_id, type, value)`. */
  predicate SameKey(a: IdentifierRow, b: IdentifierRow)
  {
    a.customerId == b.customerId && a.kind == b.kind && a.value == b.value
  }

  predicate KeysUnique(rows: seq<IdentifierRow>)
  {
    forall i, j :: 0 <= i < j < |rows| ==> !SameKey(rows[i], rows[j])
  }

  predicate HasKey(rows: seq<IdentifierRow>, customerId: int, kind: string, value: string)
  {
    exists i :: 0 <= i < |rows| && rows[i].customerId == customerId &&
      rows[i].kind == kind && rows[i].value == value
  }

  /** `INSERT ... ON CONFLICT (customer_id, type, value) DO NOTHING`. */
  function InsertIgnore(rows: seq<IdentifierRow>, r: IdentifierRow): (out: seq<IdentifierRow>)
    ensures HasKey(out, r.customerId, r.kind, r.value)
    ensures KeysUnique(rows) ==> KeysUnique(out)
    ensures HasKey(rows, r.customerId, r.kind, r.value) ==> out == rows
    ensures !HasKey(rows, r.customerId, r.kind, r.value) ==> out == rows + [r]
  {
    if HasKey(rows, r.customerId, r.kind, r.value) then rows
    else
      assert (rows + [r])[|rows|] == r;
      rows + [r]
  }

  /** Inserting the same key a second time writes nothing. */
  lemma InsertIgnoreTwice(rows: seq<IdentifierRow>, r: IdentifierRow, r': IdentifierRow)
    requires SameKey(r, r')
    ensures InsertIgnore(InsertIgnore(rows, r), r') == InsertIgnore(rows, r)
  {
    var once := InsertIgnore(rows, r);
    var i :| 0 <= i < |once| && once[i].customerId == r.customerId &&
      once[i].kind == r.kind && once[i].value == r.value;
    assert once[i].customerId == r'.customerId && once[i].kind == r'.kind && once[i].value == r'.value;
  }

  /** The row the creation inserts for one supplied identifier. */
  function Row(customerId: int, id: CustomerIdentifier, now: Time): IdentifierRow
  {
    IdentifierRow(customerId, id.kind, id.value, id.sourceSystem, id.isPrimary, now)
  }

  /** The identifier inserts of the creation transaction, in order: the old
      rows stay in front, every supplied pair ends up attached to `c`, only
      rows of `c` for supplied identifiers are added, and the key stays unique. */
  function AttachAll(rows: seq<IdentifierRow>, c: int, ids: seq<CustomerIdentifier>, now: Time): (out: seq<IdentifierRow>)
    ensures |rows| <= |out| && out[..|rows|] == rows
    ensures forall i :: |rows| <= i < |out| ==> out[i].customerId == c && MatchesAny(out[i], ids)
    ensures forall k :: 0 <= k < |ids| ==> HasKey(out, c, ids[k].kind, ids[k].value)
    ensures KeysUnique(rows) ==> KeysUnique(out)
  {
    if |ids| == 0 then rows
    else
      var prev := AttachAll(rows, c, ids[..|ids| - 1], now);
      var last := ids[|ids| - 1];
      var out := InsertIgnore(prev, Row(c, last, now));
      AttachAllStep(rows, prev, out, c, ids, now);
      out
  }

  lemma AttachAllStep(rows: seq<IdentifierRow>, prev: seq<IdentifierRow>, out: seq<IdentifierRow>,
                      c: int, ids: seq<CustomerIdentifier>, now: Time)
    requires |ids| > 0
    requires |rows| <= |prev| && prev[..|rows|] == rows
    requires forall i :: |rows| <= i < |prev| ==> prev[i].customerId == c && MatchesAny(prev[i], ids[..|ids| - 1])
    requires forall k :: 0 <= k < |ids| - 1 ==> HasKey(prev, c, ids[k].kind, ids[k].value)
    requires out == InsertIgnore(prev, Row(c, ids[|ids| - 1], now))
    ensures |rows| <= |out| && out[..|rows|] == rows
    ensures forall i :: |rows| <= i < |out| ==> out[i].customerId == c && MatchesAny(out[i], ids)
    ensures forall k :: 0 <= k < |ids| ==> HasKey(out, c, ids[k].kind, ids[k].value)
  {
    var n := |ids| - 1;
    forall i | |rows| <= i < |out|
      ensures out[i].customerId == c && MatchesAny(out[i], ids)
    {
      if i < |prev| {
        assert out[i] == prev[i];
        var k :| 0 <= k < n && prev[i].kind == ids[..n][k].kind && prev[i].value == ids[..n][k].value;
        assert ids[..n][k] == ids[k];
      } else {
        assert out[i] == Row(c, ids[n], now);
      }
    }
    forall k | 0 <= k < |ids|
      ensures HasKey(out, c, ids[k].kind, ids[k].value)
    {
      if k < n {
        var i :| 0 <= i < |prev| && prev[i].customerId == c && prev[i].kind == ids[k].kind && prev[i].value == ids[k].value;
        assert out[i] == prev[i];
      }
    }
  }

  /** After a creation, the same identifiers find the created customer: no
      row of the tenant matched before, so every match is a new row. */
  lemma FindAfterCreate(customers: map<int, int>, rows: seq<IdentifierRow>, tenantId: int,
                        ids: seq<CustomerIdentifier>, c: int, now: Time)
    requires Lookup(customers, rows, tenantId, ids) == Ok(None)
    requires c !in customers
    ensures Lookup(customers[c := tenantId], AttachAll(rows, c, ids, now), tenantId, ids) == Ok(Some(c))
  {
    var cs := customers[c := tenantId];
    var out := AttachAll(rows, c, ids, now);
    var i :| 0 <= i < |out| && out[i].customerId == c && out[i].kind == ids[0].kind && out[i].value == ids[0].value;
    assert RowMatches(cs, out[i], tenantId, ids);
    forall j | 0 <= j < |out| && RowMatches(cs, out[j], tenantId, ids)
      ensures out[j].customerId == c
    {
      if j < |rows| {
        assert out[j] == rows[j];
        assert !RowMatches(customers, rows[j], tenantId, ids);
      }
    }
    FirstMatchOwner(cs, out, tenantId, ids, c, i);
  }

  /** When every matching row belongs to `c` and one exists, the lookup finds `c`. */
  lemma FirstMatchOwner(customers: map<int, int>, rows: seq<IdentifierRow>, tenantId: int,
                        ids: seq<CustomerIdentifier>, c: int, i: nat)
    requires i < |rows| && RowMatches(customers, rows[i], tenantId, ids)
    requires forall j :: 0 <= j < |rows| && RowMatches(customers, rows[j], tenantId, ids) ==> rows[j].customerId == c
    ensures FirstMatch(customers, rows, tenantId, ids) == Some(c)
  {
  }

  /** `ORDER BY ... ASC` bounds of the journey queries: inclusive, each
      applied only when given. */
  predicate InBounds(t: Time, from: Option<Time>, to: Option<Time>)
  {
    (from.None? || from.value <= t) && (to.None? || t <= to.value)
  }

  datatype JourneyInteraction = JourneyInteraction(interaction: Interaction, participants: seq<Participant>)

  datatype CustomerJourney = CustomerJourney(
    customerId: int, identifiers: seq<IdentifierRow>, interactions: seq<JourneyInteraction>,
    conversions: seq<ConversionEvent>)

  function CreatedAt(r: IdentifierRow): int { r.createdAt }
  function StartedAt(i: Interaction): int { i.startedAt }
  function OccurredAt(c: ConversionEvent): int { c.occurredAt }

  /** `ORDER BY is_primary DESC, created_at ASC` over the customer's identifiers. */
  function CustomerIdentifiers(rows: seq<IdentifierRow>, customerId: int): (r: seq<IdentifierRow>)
    ensures forall x :: x in r <==> x in rows && x.customerId == customerId
    ensures forall i, j :: 0 <= i < j < |r| ==>
      (r[i].isPrimary && !r[j].isPrimary) ||
      (r[i].isPrimary == r[j].isPrimary && r[i].createdAt <= r[j].createdAt)
  {
    var primary := SelectSorted(rows, (x: IdentifierRow) => x.customerId == customerId && x.isPrimary, CreatedAt);
    var other := SelectSorted(rows, (x: IdentifierRow) => x.customerId == customerId && !x.isPrimary, CreatedAt);
    PrimaryFirst(primary, other);
    primary + other
  }

  lemma PrimaryFirst(primary: seq<IdentifierRow>, other: seq<IdentifierRow>)
    requires forall i :: 0 <= i < |primary| ==> primary[i].isPrimary
    requires forall i :: 0 <= i < |other| ==> !other[i].isPrimary
    requires SortedBy(primary, CreatedAt) && SortedBy(other, CreatedAt)
    ensures var r := primary + other;
      forall i, j :: 0 <= i < j < |r| ==>
        (r[i].isPrimary && !r[j].isPrimary) ||
        (r[i].isPrimary == r[j].isPrimary && r[i].createdAt <= r[j].createdAt)
  {
    var r := primary + other;
    forall i, j | 0 <= i < j < |r|
      ensures (r[i].isPrimary && !r[j].isPrimary) ||
        (r[i].isPrimary == r[j].isPrimary && r[i].createdAt <= r[j].createdAt)
    {
      if j < |primary| {
        assert r[i] == primary[i] && r[j] == primary[j];
        assert CreatedAt(primary[i]) <= CreatedAt(primary[j]);
      } else if i >= |primary| {
        assert r[i] == other[i - |primary|] && r[j] == other[j - |primary|];
        assert CreatedAt(other[i - |primary|]) <= CreatedAt(other[j - |primary|]);
      } else {
        assert r[i] == primary[i] && r[j] == other[j - |primary|];
      }
    }
  }

  /** The interactions the journey lists, each with its participants. */
  function WithParticipants(xs: seq<Interaction>, participants: seq<Participant>): (r: seq<JourneyInteraction>)
    ensures |r| == |xs|
    ensures forall k :: 0 <= k < |xs| ==>
      r[k].interaction == xs[k] &&
      (forall p :: p in r[k].participants <==> p in participants && p.interactionId == xs[k].id)
  {
    seq(|xs|, k requires 0 <= k < |xs| =>
      JourneyInteraction(xs[k], Filter(participants, (p: Participant) => p.interactionId == xs[k].id)))
  }

  /** `GetCustomerJourney`: the customer's identifiers, its interactions
      (each with its participants) within the bounds ascending by start, and
      its conversions within the bounds ascending by occurrence. */
  function GetCustomerJourney(customerId: int, from: Option<Time>, to: Option<Time>,
                              identifiers: seq<IdentifierRow>, interactions: seq<Interaction>,
                              participants: seq<Participant>, conversions: seq<ConversionEvent>): (j: CustomerJourney)
    ensures j.customerId == customerId
    ensures forall x :: x in j.identifiers <==> x in identifiers && x.customerId == customerId
    ensures |j.interactions| == |JourneyInteractions(interactions, customerId, from, to)|
    ensures forall k :: 0 <= k < |j.interactions| ==>
      j.interactions[k].interaction == JourneyInteractions(interactions, customerId, from, to)[k] &&
      (forall p :: p in j.interactions[k].participants <==>
        p in participants && p.interactionId == j.interactions[k].interaction.id)
    ensures forall x :: x in j.conversions <==>
      x in conversions && x.customerId == customerId && InBounds(x.occurredAt, from, to)
    ensures SortedBy(j.conversions, OccurredAt)
  {
    var xs := JourneyInteractions(interactions, customerId, from, to);
    var cs := SelectSorted(conversions, (x: ConversionEvent) => x.customerId == customerId && InBounds(x.occurredAt, from, to), OccurredAt);
    CustomerJourney(customerId, CustomerIdentifiers(identifiers, customerId), WithParticipants(xs, participants), cs)
  }

  /** The interaction query of the journey: the customer's interactions
      within the bounds, ascending by start. */
  function JourneyInteractions(interactions: seq<Interaction>, customerId: int, from: Option<Time>, to: Option<Time>): (r: seq<Interaction>)
    ensures forall x :: x in r <==> x in interactions && x.customerId == Some(customerId) && InBounds(x.startedAt, from, to)
    ensures SortedBy(r, StartedAt)
  {
    SelectSorted(interactions, (x: Interaction) => x.customerId == Some(customerId) && InBounds(x.startedAt, from, to), StartedAt)
  }

  class IdentityStore {
    /** `customers`: id to tenant. */
    var customers: map<int, int>
    var identifiers: seq<IdentifierRow>
    var nextCustomerId: int

    ghost predicate Valid()
      reads this
    {
      KeysUnique(identifiers) &&
      (forall i :: 0 <= i < |identifiers| ==> identifiers[i].customerId in customers) &&
      (forall id :: id in customers ==> id < nextCustomerId)
    }

    constructor ()
      ensures Valid() && customers == map[] && identifiers == []
    {
      customers, identifiers, nextCustomerId := map[], [], 1;
    }

    /** `FindCustomerByIdentifiers`: the lookup query, evaluated row by row
        and stopped at the first match (`LIMIT 1`). */
    method FindCustomerByIdentifiers(tenantId: int, ids: seq<CustomerIdentifier>)
      returns (r: Result<Option<int>, IdentityError>)
      ensures r == Lookup(customers, identifiers, tenantId, ids)
    {
      if |ids| == 0 {
        return Err(NoIdentifiers);
      }
      var i := 0;
      while i < |identifiers|
        invariant 0 <= i <= |identifiers|
        invariant FirstMatch(customers, identifiers, tenantId, ids) ==
          FirstMatch(customers, identifiers[i..], tenantId, ids)
      {
        var row := identifiers[i];
        assert identifiers[i..][0] == row && identifiers[i..][1..] == identifiers[i + 1..];
        if RowMatches(customers, row, tenantId, ids) {
          return Ok(Some(row.customerId));
        }
        i := i + 1;
      }
      return Ok(None);
    }

    /** `FindOrCreateCustomer`: a found customer is returned with nothing
        written; otherwise (no match, or the lookup failed as it does for an
        empty list) a customer is created and every identifier attached, all
        or nothing. */
    method FindOrCreateCustomer(tenantId: int, ids: seq<CustomerIdentifier>, now: Time, faults: set<nat>)
      returns (r: Result<int, IdentityError>)
      requires Valid()
      modifies this
      ensures Valid()
      ensures r.Ok? ==> r.value in customers && customers[r.value] == tenantId
      ensures var found := Lookup(old(customers), old(identifiers), tenantId, ids);
        if found.Ok? && found.value.Some? then
          r == Ok(found.value.value) && unchanged(this)
        else if exists k :: k in faults && k < |ids| then
          r == Err(IdentifierInsertFailed) && unchanged(this)
        else
          r == Ok(old(nextCustomerId)) && r.value !in old(customers) &&
          customers == old(customers)[r.value := tenantId] &&
          identifiers == AttachAll(old(identifiers), r.value, ids, now) &&
          nextCustomerId == old(nextCustomerId) + 1
    {
      var found := FindCustomerByIdentifiers(tenantId, ids);
      if found.Ok? && found.value.Some? {
        return Ok(found.value.value);
      }
      var c := nextCustomerId;
      var staged := StageIdentifiers(identifiers, c, ids, now, faults);
      if staged.None? {
        return Err(IdentifierInsertFailed);
      }
      var pending := staged.value;
      forall j | 0 <= j < |pending|
        ensures pending[j].customerId in customers[c := tenantId]
      {
        if j < |identifiers| {
          assert pending[j] == identifiers[j];
        }
      }
      customers := customers[c := tenantId];
      identifiers := pending;
      nextCustomerId := nextCustomerId + 1;
      return Ok(c);
    }
  
    /** The identifier inserts inside the creation transaction, applied to the
        transaction's own copy of the table; a failing insert abandons it. */
    static method StageIdentifiers(rows: seq<IdentifierRow>, c: int, ids: seq<CustomerIdentifier>,
                                   now: Time, faults: set<nat>)
      returns (staged: Option<seq<IdentifierRow>>)
      ensures staged.None? <==> exists k :: k in faults && k < |ids|
      ensures staged.Some? ==> staged.value == AttachAll(rows, c, ids, now)
    {
      var pending := rows;
      var i := 0;
      while i < |ids|
        invariant 0 <= i <= |ids|
        invariant forall k :: 0 <= k < i ==> k !in faults
        invariant pending == AttachAll(rows, c, ids[..i], now)
      {
        if i in faults {
          return None;
        }
        assert ids[..i + 1][..i] == ids[..i];
        pending := InsertIgnore(pending, Row(c, ids[i], now));
        i := i + 1;
      }
      assert ids[..i] == ids;
      return Some(pending);
    }
  }
}
