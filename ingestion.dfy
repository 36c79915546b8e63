/** Ingestion of interactions and conversion events
    (backend/internal/services/ingestion.go). Reference data is looked up by
    name or code: a missing channel, event source or currency fails the
    ingest, a missing vendor, product or agent leaves the column null. The
    customer is resolved through the identity store before the ingest's own
    transaction, so a customer created then stays even when the ingest fails. */
module Ingestion {
  import opened Common
  import opened Schema
  import opened Identity

  datatype ParticipantRequest = ParticipantRequest(
    participantType: string, externalAgentId: Option<string>, role: string)

  datatype InteractionRequest = InteractionRequest(
    externalId: string, channel: string, vendorCode: Option<string>,
    identifiers: seq<CustomerIdentifier>, startedAt: Time, endedAt: Option<Time>,
    direction: string, language: string, participants: seq<ParticipantRequest>,
    transcriptUrl: string, primaryIntent: string, secondaryIntents: seq<string>,
    outcomePrediction: string, purchaseProbability: Option<real>)

  datatype ConversionRequest = ConversionRequest(
    eventSource: string, externalEventId: string, identifiers: seq<CustomerIdentifier>,
    eventType: string, productExternalId: Option<string>, currency: string,
    amount: real, occurredAt: Time)

  datatype IngestError =
    | CustomerFailed(cause: IdentityError)
    | ChannelNotFound(channel: string)
    | EventSourceNotFound(eventSource: string)
    | CurrencyNotFound(currency: string)

  /** The ids an ingest returns: the new row's id and the resolved customer. */
  datatype Ingested = Ingested(id: int, customerId: Option<int>)

  /** `duration_seconds`: whole seconds of `ended_at - started_at`, truncated
      toward zero as Go's `int(d.Seconds())` does, when the end is known. */
  function DurationSeconds(startedAt: Time, endedAt: Option<Time>): (d: Option<int>)
    ensures d.None? <==> endedAt.None?
    ensures d.Some? && endedAt.value >= startedAt ==>
      0 <= d.value * NanosPerSecond <= endedAt.value - startedAt < (d.value + 1) * NanosPerSecond
    ensures d.Some? && endedAt.value < startedAt ==>
      (d.value - 1) * NanosPerSecond < endedAt.value - startedAt <= d.value * NanosPerSecond <= 0
  {
    if endedAt.None? then None else Some(TruncDiv(endedAt.value - startedAt, NanosPerSecond))
  }

  /** A lookup that degrades to null when the key is missing. */
  function Resolve<K>(table: map<K, int>, key: Option<K>): (r: Option<int>)
    ensures r.Some? <==> key.Some? && key.value in table
    ensures r.Some? ==> r.value == table[key.value]
  {
    if key.Some? && key.value in table then Some(table[key.value]) else None
  }

  /** The secondary intents column: stored only for a non-empty list. */
  function SecondaryIntents(intents: seq<string>): (r: Option<seq<string>>)
    ensures r.None? <==> |intents| == 0
    ensures r.Some? ==> r.value == intents
  {
    if |intents| > 0 then Some(intents) else None
  }

  /** The participant row for one request; an unknown external agent id gives
      a null agent. */
  function ParticipantRow(interactionId: int, agents: map<string, int>, p: ParticipantRequest): (row: Participant)
    ensures row.interactionId == interactionId
    ensures row.participantType == p.participantType && row.role == p.role
    ensures row.agentId.Some? <==> p.externalAgentId.Some? && p.externalAgentId.value in agents
  {
    Participant(interactionId, p.participantType, Resolve(agents, p.externalAgentId), p.role)
  }

  /** The participant rows of an interaction, one per request, in order. */
  function ParticipantRows(interactionId: int, agents: map<string, int>, ps: seq<ParticipantRequest>): (rows: seq<Participant>)
    ensures |rows| == |ps|
    ensures forall k :: 0 <= k < |ps| ==> rows[k] == ParticipantRow(interactionId, agents, ps[k])
  {
    seq(|ps|, k requires 0 <= k < |ps| => ParticipantRow(interactionId, agents, ps[k]))
  }

  /** The interaction row an ingest inserts once the references are resolved. */
  function InteractionRow(id: int, tenantId: int, customerId: Option<int>, channelId: int,
                          vendorId: Option<int>, req: InteractionRequest): Interaction
  {
    Interaction(id, tenantId, customerId, req.externalId, channelId, vendorId,
      req.startedAt, req.endedAt, DurationSeconds(req.startedAt, req.endedAt),
      req.direction, req.language, req.transcriptUrl, req.primaryIntent,
      SecondaryIntents(req.secondaryIntents), req.outcomePrediction, req.purchaseProbability)
  }

  /** The vendor lookup key: the tenant and the code, when a code is given. */
  function VendorKey(tenantId: int, code: Option<string>): Option<(int, string)>
  {
    if code.Some? then Some((tenantId, code.value)) else None
  }

  /** Every stored id is below the next one to be handed out. */
  predicate InteractionIdsBelow(xs: seq<Interaction>, next: int)
  {
    forall k :: 0 <= k < |xs| ==> xs[k].id < next
  }

  predicate ConversionIdsBelow(xs: seq<ConversionEvent>, next: int)
  {
    forall k :: 0 <= k < |xs| ==> xs[k].id < next
  }

  class IngestionStore {
    const identity: IdentityStore
    /** Reference tables, keyed as the lookups query them. */
    var channels: map<string, int>
    var vendors: map<(int, string), int>
    var agents: map<string, int>
    var eventSources: map<string, int>
    var currencies: map<string, int>
    var products: map<string, int>
    var interactions: seq<Interaction>
    var participants: seq<Participant>
    var conversions: seq<ConversionEvent>
    var nextInteractionId: int
    var nextConversionId: int

    ghost predicate Valid()
      reads this, identity
    {
      identity.Valid() &&
      InteractionIdsBelow(interactions, nextInteractionId) &&
      ConversionIdsBelow(conversions, nextConversionId)
    }

    constructor (identity: IdentityStore)
      requires identity.Valid()
      ensures Valid() && this.identity == identity
      ensures interactions == [] && participants == [] && conversions == []
    {
      this.identity := identity;
      channels, vendors, agents := map[], map[], map[];
      eventSources, currencies, products := map[], map[], map[];
      interactions, participants, conversions := [], [], [];
      nextInteractionId, nextConversionId := 1, 1;
    }

    /** The customer resolution both ingests begin with, through the
        identity store and outside their own transaction. */
    method ResolveCustomer(tenantId: int, ids: seq<CustomerIdentifier>, now: Time, faults: set<nat>)
      returns (r: Result<int, IdentityError>)
      requires identity.Valid()
      modifies identity
      ensures identity.Valid()
      ensures r.Ok? ==> r.value in identity.customers && identity.customers[r.value] == tenantId
      ensures r.Err? ==> r.error == IdentifierInsertFailed && unchanged(identity)
      ensures |ids| == 0 ==> r == Ok(old(identity.nextCustomerId))
      ensures var found := Lookup(old(identity.customers), old(identity.identifiers), tenantId, ids);
        if found.Ok? && found.value.Some? then
          r == Ok(found.value.value) && unchanged(identity)
        else if exists k :: k in faults && k < |ids| then
          r == Err(IdentifierInsertFailed) && unchanged(identity)
        else
          r == Ok(old(identity.nextCustomerId)) && r.value !in old(identity.customers) &&
          identity.customers == old(identity.customers)[r.value := tenantId] &&
          identity.identifiers == AttachAll(old(identity.identifiers), r.value, ids, now) &&
          identity.nextCustomerId == old(identity.nextCustomerId) + 1
    {
      r := identity.FindOrCreateCustomer(tenantId, ids, now, faults);
    }

    /** The participant inserts of `IngestInteraction`, one row per request
        in order, staged in the transaction. */
    static method StageParticipants(interactionId: int, agents: map<string, int>, ps: seq<ParticipantRequest>)
      returns (rows: seq<Participant>)
      ensures rows == ParticipantRows(interactionId, agents, ps)
    {
      rows := [];
      for k := 0 to |ps|
        invariant |rows| == k
        invariant forall q :: 0 <= q < k ==> rows[q] == ParticipantRow(interactionId, agents, ps[q])
      {
        var p := ps[k];
        var agentId: Option<int> := None;
        if p.externalAgentId.Some? && p.externalAgentId.value in agents {
          agentId := Some(agents[p.externalAgentId.value]);
        }
        rows := rows + [Participant(interactionId, p.participantType, agentId, p.role)];
      }
    }

    /** `IngestInteraction`: resolve the customer (only when identifiers are
        given), then record the interaction in its own transaction. */
    method IngestInteraction(tenantId: int, req: InteractionRequest, now: Time, faults: set<nat>)
      returns (r: Result<Ingested, IngestError>)
      requires Valid()
      modifies this`interactions, this`participants, this`nextInteractionId, identity
      ensures Valid()
      ensures |req.identifiers| == 0 ==> unchanged(identity)
      ensures |req.identifiers| == 0 ==> (r.Err? <==> req.channel !in channels)
      ensures r.Err? ==> r.error.CustomerFailed? || r.error == ChannelNotFound(req.channel)
      ensures r.Err? && r.error.ChannelNotFound? ==> req.channel !in channels
      ensures req.channel !in channels ==> r.Err?
      ensures r.Err? ==> interactions == old(interactions) && participants == old(participants)
      ensures var found := Lookup(old(identity.customers), old(identity.identifiers), tenantId, req.identifiers);
        |req.identifiers| > 0 && found.Ok? && found.value.Some? ==>
          unchanged(identity) && (r.Ok? ==> r.value.customerId == Some(found.value.value))
      ensures r.Ok? ==>
        (r.value.customerId.None? <==> |req.identifiers| == 0) &&
        (r.value.customerId.Some? ==>
          r.value.customerId.value in identity.customers &&
          identity.customers[r.value.customerId.value] == tenantId) &&
        r.value.id == old(nextInteractionId) && req.channel in channels &&
        interactions == old(interactions) + [InteractionRow(r.value.id, tenantId, r.value.customerId,
          channels[req.channel], Resolve(vendors, VendorKey(tenantId, req.vendorCode)), req)] &&
        participants == old(participants) + ParticipantRows(r.value.id, agents, req.participants)
    {
      var customerId: Option<int> := None;
      if |req.identifiers| > 0 {
        var found := ResolveCustomer(tenantId, req.identifiers, now, faults);
        if found.Err? {
          return Err(CustomerFailed(found.error));
        }
        customerId := Some(found.value);
      }
      r := RecordInteraction(tenantId, customerId, req);
    }

    /** The transaction of `IngestInteraction`: the channel (or fail) and the
        vendor (or null) are resolved, then the interaction and its
        participants are inserted together. */
    method RecordInteraction(tenantId: int, customerId: Option<int>, req: InteractionRequest)
      returns (r: Result<Ingested, IngestError>)
      requires InteractionIdsBelow(interactions, nextInteractionId)
      modifies this`interactions, this`participants, this`nextInteractionId
      ensures InteractionIdsBelow(interactions, nextInteractionId)
      ensures r.Err? <==> req.channel !in channels
      ensures r.Err? ==>
        r.error == ChannelNotFound(req.channel) &&
        interactions == old(interactions) && participants == old(participants)
      ensures r.Ok? ==>
        r.value.customerId == customerId && r.value.id == old(nextInteractionId) &&
        interactions == old(interactions) + [InteractionRow(r.value.id, tenantId, customerId,
          channels[req.channel], Resolve(vendors, VendorKey(tenantId, req.vendorCode)), req)] &&
        participants == old(participants) + ParticipantRows(r.value.id, agents, req.participants)
    {
      if req.channel !in channels {
        return Err(ChannelNotFound(req.channel));
      }
      var channelId := channels[req.channel];
      var vendorId: Option<int> := None;
      if req.vendorCode.Some? && (tenantId, req.vendorCode.value) in vendors {
        vendorId := Some(vendors[(tenantId, req.vendorCode.value)]);
      }
      var duration: Option<int> := None;
      if req.endedAt.Some? {
        duration := Some(TruncDiv(req.endedAt.value - req.startedAt, NanosPerSecond));
      }
      var intents: Option<seq<string>> := None;
      if |req.secondaryIntents| > 0 {
        intents := Some(req.secondaryIntents);
      }
      assert vendorId == Resolve(vendors, VendorKey(tenantId, req.vendorCode));
      assert duration == DurationSeconds(req.startedAt, req.endedAt);
      assert intents == SecondaryIntents(req.secondaryIntents);
      var id := nextInteractionId;
      var x := Interaction(id, tenantId, customerId, req.externalId, channelId, vendorId,
        req.startedAt, req.endedAt, duration, req.direction, req.language, req.transcriptUrl,
        req.primaryIntent, intents, req.outcomePrediction, req.purchaseProbability);
      assert x == InteractionRow(id, tenantId, customerId, channelId, Resolve(vendors, VendorKey(tenantId, req.vendorCode)), req);
      var staged := StageParticipants(id, agents, req.participants);
      assert InteractionIdsBelow(interactions + [x], id + 1);
      interactions := interactions + [x];
      participants := participants + staged;
      nextInteractionId := nextInteractionId + 1;
      return Ok(Ingested(id, customerId));
    }

    /** `IngestConversion`: always resolve a customer (even from an empty
        identifier list), then the event source and currency (or fail) and
        the product (or null), and insert the event. */
    method IngestConversion(tenantId: int, req: ConversionRequest, now: Time, faults: set<nat>)
      returns (r: Result<Ingested, IngestError>)
      requires Valid()
      modifies this`conversions, this`nextConversionId, identity
      ensures Valid()
      ensures r.Err? ==> conversions == old(conversions)
      ensures r.Err? ==>
        (r.error.CustomerFailed? ||
         (r.error == EventSourceNotFound(req.eventSource) && req.eventSource !in eventSources) ||
         (r.error == CurrencyNotFound(req.currency) && req.eventSource in eventSources && req.currency !in currencies))
      ensures r.Ok? ==>
        r.value.customerId.Some? && r.value.id == old(nextConversionId) &&
        r.value.customerId.value in identity.customers &&
        identity.customers[r.value.customerId.value] == tenantId &&
        req.eventSource in eventSources && req.currency in currencies &&
        conversions == old(conversions) + [ConversionEvent(r.value.id, tenantId,
          r.value.customerId.value, eventSources[req.eventSource], req.externalEventId,
          req.eventType, Resolve(products, req.productExternalId), currencies[req.currency],
          req.amount, req.occurredAt)]
      ensures |req.identifiers| == 0 && r.Ok? ==>
        r.value.customerId.value == old(identity.nextCustomerId)
      ensures var found := Lookup(old(identity.customers), old(identity.identifiers), tenantId, req.identifiers);
        found.Ok? && found.value.Some? ==>
          unchanged(identity) && (r.Ok? ==> r.value.customerId == Some(found.value.value))
    {
      var found := ResolveCustomer(tenantId, req.identifiers, now, faults);
      if found.Err? {
        return Err(CustomerFailed(found.error));
      }
      r := RecordConversion(tenantId, found.value, req);
    }

    /** The rest of `IngestConversion`, on its own transaction once the
        customer is resolved: the event source and currency (or fail) and
        the product (or null) are looked up, then the event is inserted. */
    method RecordConversion(tenantId: int, customerId: int, req: ConversionRequest)
      returns (r: Result<Ingested, IngestError>)
      requires ConversionIdsBelow(conversions, nextConversionId)
      modifies this`conversions, this`nextConversionId
      ensures ConversionIdsBelow(conversions, nextConversionId)
      ensures r.Err? <==> req.eventSource !in eventSources || req.currency !in currencies
      ensures r.Err? ==>
        conversions == old(conversions) &&
        ((r.error == EventSourceNotFound(req.eventSource) && req.eventSource !in eventSources) ||
         (r.error == CurrencyNotFound(req.currency) && req.eventSource in eventSources && req.currency !in currencies))
      ensures r.Ok? ==>
        r.value.customerId == Some(customerId) && r.value.id == old(nextConversionId) &&
        conversions == old(conversions) + [ConversionEvent(r.value.id, tenantId, customerId,
          eventSources[req.eventSource], req.externalEventId, req.eventType, Resolve(products, req.productExternalId),
          currencies[req.currency], req.amount, req.occurredAt)]
    {
      if req.eventSource !in eventSources {
        return Err(EventSourceNotFound(req.eventSource));
      }
      var eventSourceId := eventSources[req.eventSource];
      if req.currency !in currencies {
        return Err(CurrencyNotFound(req.currency));
      }
      var currencyId := currencies[req.currency];
      var productId: Option<int> := None;
      if req.productExternalId.Some? && req.productExternalId.value in products {
        productId := Some(products[req.productExternalId.value]);
      }
      var id := nextConversionId;
      conversions := conversions + [ConversionEvent(id, tenantId, customerId, eventSourceId,
        req.externalEventId, req.eventType, productId, currencyId, req.amount, req.occurredAt)];
      nextConversionId := nextConversionId + 1;
      return Ok(Ingested(id, Some(customerId)));
    }
  }
}
