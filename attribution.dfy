/** Attribution runs (backend/internal/services/attribution.go): a run is
    created `pending` for a known model, and executing it walks the tenant's
    selected conversions, credits each conversion's amount over the customer's
    interactions inside the time window and appends one result row per touch.
    The database is an in-memory store; `time.Now()` is a parameter. */
module Attribution {
  import opened Common
  import opened Schema
  import opened AttributionWeights

  /** The JSON values a JSONB config column decodes to (numbers are float64). */
  datatype Json = JNull | JBool(b: bool) | JNum(num: real) | JStr(str: string) | JArr(items: seq<Json>)

  datatype AttributionConfig = AttributionConfig(
    timeWindowHours: int, includeChannels: seq<string>, eventTypes: seq<string>,
    minPurchaseAmount: real)

  /** What a run uses when its stored config lacks a key. */
  const DefaultConfig := AttributionConfig(72, [], [], 0.0)

  function JStrs(s: seq<string>): (js: seq<Json>)
    ensures |js| == |s|
  {
    if |s| == 0 then [] else [JStr(s[0])] + JStrs(s[1..])
  }

  /** The strings of a decoded JSON array, in order; other elements are skipped. */
  function StringsOf(items: seq<Json>): (s: seq<string>)
    ensures |s| <= |items|
  {
    if |items| == 0 then []
    else if items[0].JStr? then [items[0].str] + StringsOf(items[1..])
    else StringsOf(items[1..])
  }

  /** Go's `int(f)` for a float64 that fits: truncation toward zero. */
  function TruncReal(x: real): (i: int)
    ensures x >= 0.0 ==> i as real <= x < i as real + 1.0
    ensures x < 0.0 ==> i as real - 1.0 < x <= i as real
  {
    if x >= 0.0 then x.Floor else -((-x).Floor)
  }

  /** The config map `CreateAttributionRun` stores. */
  function Serialize(c: AttributionConfig): map<string, Json>
  {
    map["time_window_hours" := JNum(c.timeWindowHours as real),
        "include_channels" := JArr(JStrs(c.includeChannels)),
        "event_types" := JArr(JStrs(c.eventTypes)),
        "min_purchase_amount" := JNum(c.minPurchaseAmount)]
  }

  /** The config parsing of `ExecuteAttributionRun`: start from the defaults and
      take each key only when it holds a value of the expected JSON type. */
  function ParseConfig(stored: Option<map<string, Json>>): (c: AttributionConfig)
    ensures stored.None? ==> c == DefaultConfig
    ensures stored.Some? && "time_window_hours" !in stored.value ==> c.timeWindowHours == 72
    ensures stored.Some? && "min_purchase_amount" !in stored.value ==> c.minPurchaseAmount == 0.0
  {
    match stored
    case None => DefaultConfig
    case Some(m) =>
      AttributionConfig(
        if "time_window_hours" in m && m["time_window_hours"].JNum?
        then TruncReal(m["time_window_hours"].num) else 72,
        if "include_channels" in m && m["include_channels"].JArr?
        then StringsOf(m["include_channels"].items) else [],
        if "event_types" in m && m["event_types"].JArr?
        then StringsOf(m["event_types"].items) else [],
        if "min_purchase_amount" in m && m["min_purchase_amount"].JNum?
        then m["min_purchase_amount"].num else 0.0)
  }

  lemma {:induction false} StringsOfJStrs(s: seq<string>)
    ensures StringsOf(JStrs(s)) == s
  {
    if |s| > 0 {
      StringsOfJStrs(s[1..]);
    }
  }

  /** A run executes with exactly the config it was created with. */
  lemma ConfigRoundTrip(c: AttributionConfig)
    ensures ParseConfig(Some(Serialize(c))) == c
  {
    StringsOfJStrs(c.includeChannels);
    StringsOfJStrs(c.eventTypes);
  }

  datatype RunStatus = Pending | Running | Completed

  datatype Run = Run(
    id: int, tenantId: int, modelId: int, name: string,
    config: Option<map<string, Json>>, status: RunStatus,
    startedAt: Option<Time>, completedAt: Option<Time>)

  /** An agent's team and vendor, as the LEFT JOINs find them. */
  datatype Agent = Agent(teamId: Option<int>, vendorId: Option<int>)

  datatype AttributionResult = AttributionResult(
    tenantId: int, runId: int, conversionId: int, interactionId: int,
    customerId: int, agentId: Option<int>, teamId: Option<int>, vendorId: Option<int>,
    modelId: int, weight: real, amount: real, isPrimaryTouch: bool)

  datatype RunError =
    | ModelNotFound(code: string)
    | RunNotFound(runId: int)
    | ModelCodeMissing(modelId: int)
    | ConversionQueryFailed

  /** The per-conversion failure: the interaction query is malformed whenever
      the channel allow-list is non-empty. */
  datatype AttributionError = InteractionQueryFailed

  /** The tables a run reads and never writes. */
  datatype Tables = Tables(
    interactions: seq<Interaction>, participants: seq<Participant>, agents: map<int, Agent>)

  /** SQL `MAX` over a column, NULLs ignored; NULL when every value is NULL. */
  function MaxOf(xs: seq<Option<int>>): (m: Option<int>)
    ensures m.None? <==> forall k :: 0 <= k < |xs| ==> xs[k].None?
    ensures m.Some? ==> Some(m.value) in xs
    ensures m.Some? ==> forall k :: 0 <= k < |xs| && xs[k].Some? ==> xs[k].value <= m.value
  {
    if |xs| == 0 then None
    else
      var rest := MaxOf(xs[1..]);
      assert forall k :: 1 <= k < |xs| ==> xs[k] == xs[1..][k - 1];
      if xs[0].None? then rest
      else if rest.None? || rest.value <= xs[0].value then xs[0]
      else rest
  }

  /** The agent participants of one interaction. */
  function AgentParticipants(t: Tables, interactionId: int): seq<Participant>
  {
    Filter(t.participants, (p: Participant) => p.interactionId == interactionId && p.participantType == "agent")
  }

  function TeamOf(t: Tables, p: Participant): Option<int>
  {
    if p.agentId.Some? && p.agentId.value in t.agents then t.agents[p.agentId.value].teamId else None
  }

  function VendorOf(t: Tables, p: Participant): Option<int>
  {
    if p.agentId.Some? && p.agentId.value in t.agents then t.agents[p.agentId.value].vendorId else None
  }

  /** The customer's interactions with `from <= started_at <= to`, oldest first. */
  function Journey(t: Tables, customerId: int, from: Time, to: Time): seq<Interaction>
  {
    SortBy(Filter(t.interactions, (x: Interaction) =>
                    x.customerId == Some(customerId) && from <= x.startedAt <= to),
           (x: Interaction) => x.startedAt)
  }

  /** The start of a conversion's look-back window. */
  function WindowStart(c: ConversionEvent, config: AttributionConfig): Time
  {
    c.occurredAt - config.timeWindowHours * NanosPerHour
  }

  /** The result row for touch `i` of journey `j` with weight `w` and
      attributed amount `amount`. */
  function ResultRow(t: Tables, runId: int, run: Run, c: ConversionEvent, k: ModelKind,
                     j: seq<Interaction>, w: real, amount: real, i: nat): AttributionResult
    requires i < |j|
  {
    var agents := AgentParticipants(t, j[i].id);
    AttributionResult(
      c.tenantId, runId, c.id, j[i].id, c.customerId,
      MaxOf(seq(|agents|, q requires 0 <= q < |agents| => agents[q].agentId)),
      MaxOf(seq(|agents|, q requires 0 <= q < |agents| => TeamOf(t, agents[q]))),
      MaxOf(seq(|agents|, q requires 0 <= q < |agents| => VendorOf(t, agents[q]))),
      run.modelId, w, amount, IsPrimaryTouch(|j|, k, i))
  }

  /** What attributing one conversion writes: an error when the channel
      allow-list is non-empty, nothing for an empty journey, else one row per touch. */
  function ConversionRows(t: Tables, runId: int, run: Run, c: ConversionEvent, code: string,
                          config: AttributionConfig): Result<seq<AttributionResult>, AttributionError>
  {
    if |config.includeChannels| > 0 then Err(InteractionQueryFailed)
    else
      var j := Journey(t, c.customerId, WindowStart(c, config), c.occurredAt);
      var w := Weights(|j|, KindOf(code), DecayRatio);
      Ok(Rows(t, runId, run, c, KindOf(code), j, w, Credits(c.amount, w)))
  }

  /** The attributed amounts: `a` times each weight. */
  function Credits(a: real, w: seq<real>): (cs: seq<real>)
    ensures |cs| == |w|
  {
    if |w| == 0 then [] else Credits(a, w[..|w| - 1]) + [a * w[|w| - 1]]
  }

  lemma {:induction false} CreditsAt(a: real, w: seq<real>, i: nat)
    requires i < |w|
    ensures Scaled(w[i], Credits(a, w)[i], a)
  {
    if i < |w| - 1 {
      CreditsAt(a, w[..|w| - 1], i);
    }
  }

  /** The credits add up to `a` times the total weight. */
  lemma {:induction false} CreditsSum(a: real, w: seq<real>)
    ensures Scaled(Sum(w), Sum(Credits(a, w)), a)
  {
    if |w| > 0 {
      var init := w[..|w| - 1];
      CreditsSum(a, init);
      assert Credits(a, w) == Credits(a, init) + [a * w[|w| - 1]];
      assert Credits(a, w)[..|w| - 1] == Credits(a, init);
      Distribute(a, Sum(init), Sum(Credits(a, init)), w[|w| - 1]);
    }
  }

  lemma Distribute(a: real, s: real, cs: real, x: real)
    requires Scaled(s, cs, a)
    ensures Scaled(s + x, cs + a * x, a)
  {
  }

  /** One result row per touch of journey `j`, touch `i` weighted `w[i]` and
      credited `amounts[i]`. */
  function Rows(t: Tables, runId: int, run: Run, c: ConversionEvent, k: ModelKind,
                j: seq<Interaction>, w: seq<real>, amounts: seq<real>): (rows: seq<AttributionResult>)
    requires |w| == |j| && |amounts| == |j|
    ensures |rows| == |j|
  {
    seq(|j|, i requires 0 <= i < |j| => ResultRow(t, runId, run, c, k, j, w[i], amounts[i], i))
  }

  function RowsOrNone(o: Result<seq<AttributionResult>, AttributionError>): seq<AttributionResult>
  {
    if o.Ok? then o.value else []
  }

  /** The conversions a run selects: the tenant's, of a listed event type when
      the list is non-empty, of at least the minimum amount when that is positive. */
  predicate Selected(c: ConversionEvent, tenantId: int, config: AttributionConfig)
  {
    c.tenantId == tenantId &&
    (|config.eventTypes| == 0 || c.eventType in config.eventTypes) &&
    (config.minPurchaseAmount <= 0.0 || c.amount >= config.minPurchaseAmount)
  }

  function SelectConversions(cs: seq<ConversionEvent>, tenantId: int, config: AttributionConfig): seq<ConversionEvent>
  {
    Filter(cs, (c: ConversionEvent) => Selected(c, tenantId, config))
  }

  /** All rows a run appends for the conversions `cs`, in order. */
  function RunRows(t: Tables, runId: int, run: Run, code: string, config: AttributionConfig,
                   cs: seq<ConversionEvent>): seq<AttributionResult>
  {
    if |cs| == 0 then []
    else RunRows(t, runId, run, code, config, cs[..|cs| - 1]) +
         RowsOrNone(ConversionRows(t, runId, run, cs[|cs| - 1], code, config))
  }

  /** The ids of the conversions among `cs` whose attribution failed, in order. */
  function RunFailures(t: Tables, runId: int, run: Run, code: string, config: AttributionConfig,
                       cs: seq<ConversionEvent>): seq<int>
  {
    if |cs| == 0 then []
    else RunFailures(t, runId, run, code, config, cs[..|cs| - 1]) +
         (if ConversionRows(t, runId, run, cs[|cs| - 1], code, config).Err? then [cs[|cs| - 1].id] else [])
  }

  /** Attributing one more conversion extends the rows and failures of a run. */
  lemma RunStep(t: Tables, runId: int, run: Run, code: string, config: AttributionConfig,
                cs: seq<ConversionEvent>, i: nat)
    requires i < |cs|
    ensures var o := ConversionRows(t, runId, run, cs[i], code, config);
      RunRows(t, runId, run, code, config, cs[..i + 1]) ==
        RunRows(t, runId, run, code, config, cs[..i]) + RowsOrNone(o) &&
      RunFailures(t, runId, run, code, config, cs[..i + 1]) ==
        RunFailures(t, runId, run, code, config, cs[..i]) + (if o.Err? then [cs[i].id] else [])
  {
    assert cs[..i + 1][..i] == cs[..i];
  }

  lemma DecayRatioInRange()
    ensures 0.0 < DecayRatio < 1.0
  {
  }

  /** The journey holds exactly the customer's interactions inside the window,
      oldest first. */
  lemma JourneyExact(t: Tables, customerId: int, from: Time, to: Time)
    ensures var j := Journey(t, customerId, from, to);
      (forall x :: x in j <==>
         x in t.interactions && x.customerId == Some(customerId) && from <= x.startedAt <= to) &&
      (forall i, i' :: 0 <= i < i' < |j| ==> j[i].startedAt <= j[i'].startedAt)
  {
    var j := Journey(t, customerId, from, to);
    var f := Filter(t.interactions, (x: Interaction) =>
                      x.customerId == Some(customerId) && from <= x.startedAt <= to);
    assert j == SortBy(f, (x: Interaction) => x.startedAt);
    assert multiset(j) == multiset(f);
    forall x
      ensures x in j <==> x in f
    {
      assert x in j <==> x in multiset(j);
      assert x in f <==> x in multiset(f);
    }
  }

  /** One conversion's rows, touch by touch: the interaction, its weight, the
      conversion amount times that weight, and the primary flag. */
  lemma ConversionRowsShape(t: Tables, runId: int, run: Run, c: ConversionEvent, code: string,
                            config: AttributionConfig)
    requires |config.includeChannels| == 0
    ensures var o := ConversionRows(t, runId, run, c, code, config);
      var j := Journey(t, c.customerId, WindowStart(c, config), c.occurredAt);
      var w := Weights(|j|, KindOf(code), DecayRatio);
      o.Ok? && |o.value| == |j| &&
      forall i :: 0 <= i < |j| ==>
        o.value[i].interactionId == j[i].id && o.value[i].conversionId == c.id &&
        o.value[i].runId == runId && o.value[i].weight == w[i] &&
        o.value[i].isPrimaryTouch == IsPrimaryTouch(|j|, KindOf(code), i)
  {
  }

  /** Each touch is credited the conversion amount times its weight, and the
      amounts of a conversion add up to its amount. */
  lemma ConversionAmountsSum(t: Tables, runId: int, run: Run, c: ConversionEvent, code: string,
                             config: AttributionConfig)
    requires |config.includeChannels| == 0
    ensures var rows := ConversionRows(t, runId, run, c, code, config).value;
      (forall i :: 0 <= i < |rows| ==> Scaled(rows[i].weight, rows[i].amount, c.amount)) &&
      (|rows| > 0 ==> Sum(seq(|rows|, i requires 0 <= i < |rows| => rows[i].amount)) == c.amount)
  {
    var rows := ConversionRows(t, runId, run, c, code, config).value;
    var j := Journey(t, c.customerId, WindowStart(c, config), c.occurredAt);
    var w := Weights(|j|, KindOf(code), DecayRatio);
    var amounts := seq(|rows|, i requires 0 <= i < |rows| => rows[i].amount);
    assert amounts == Credits(c.amount, w);
    forall i | 0 <= i < |rows|
      ensures Scaled(rows[i].weight, rows[i].amount, c.amount)
    {
      CreditsAt(c.amount, w, i);
    }
    if |rows| > 0 {
      WeightsSumToOne(|j|, KindOf(code), DecayRatio);
      CreditsSum(c.amount, w);
    }
  }

  /** Only a FIRST_TOUCH or LAST_TOUCH run marks a primary touch, and it is the
      touch holding the whole credit. */
  lemma ConversionPrimaryTouch(t: Tables, runId: int, run: Run, c: ConversionEvent, code: string,
                               config: AttributionConfig)
    requires |config.includeChannels| == 0
    ensures var rows := ConversionRows(t, runId, run, c, code, config).value;
      forall i :: 0 <= i < |rows| ==>
        (rows[i].isPrimaryTouch <==> IsSingleTouch(KindOf(code)) && rows[i].weight == 1.0)
  {
    var rows := ConversionRows(t, runId, run, c, code, config).value;
    var j := Journey(t, c.customerId, WindowStart(c, config), c.occurredAt);
    ConversionRowsShape(t, runId, run, c, code, config);
    forall i | 0 <= i < |rows|
      ensures rows[i].isPrimaryTouch <==> IsSingleTouch(KindOf(code)) && rows[i].weight == 1.0
    {
      PrimaryTouch(|j|, KindOf(code), DecayRatio, i);
    }
  }

  /** A non-empty channel allow-list fails every conversion, so a run with one
      writes no rows and reports every selected conversion as failed. */
  lemma {:induction false} ChannelFilterFailsAll(t: Tables, runId: int, run: Run, code: string,
                                                 config: AttributionConfig, cs: seq<ConversionEvent>)
    requires |config.includeChannels| > 0
    ensures RunRows(t, runId, run, code, config, cs) == []
    ensures RunFailures(t, runId, run, code, config, cs) == seq(|cs|, i requires 0 <= i < |cs| => cs[i].id)
  {
    if |cs| > 0 {
      ChannelFilterFailsAll(t, runId, run, code, config, cs[..|cs| - 1]);
    }
  }

  /** The event-type filter as written: a config that lists event types keeps
      them through storage, so its run reaches the conversion query, which the
      bare slice fails and `pq.Array` does not. */
  lemma EventTypesSurviveStorage(c: AttributionConfig)
    requires |c.eventTypes| > 0
    ensures ParseConfig(Some(Serialize(c))).eventTypes == c.eventTypes
    ensures EventTypesRefused(ParseConfig(Some(Serialize(c))), Bare)
    ensures !EventTypesRefused(ParseConfig(Some(Serialize(c))), PqArray)
  {
    ConfigRoundTrip(c);
  }

  /** The event-type filter as meant: a run selects exactly the tenant's
      conversions of a listed type (and of the minimum amount, when positive). */
  lemma EventTypeSelection(c: AttributionConfig, cs: seq<ConversionEvent>, tenantId: int)
    requires |c.eventTypes| > 0
    ensures forall e :: e in SelectConversions(cs, tenantId, c) <==>
      e in cs && e.tenantId == tenantId && e.eventType in c.eventTypes &&
      (c.minPurchaseAmount <= 0.0 || e.amount >= c.minPurchaseAmount)
  {
  }

  /** With the default config a run selects exactly the tenant's conversions. */
  lemma DefaultSelectsTenant(cs: seq<ConversionEvent>, tenantId: int)
    ensures forall c :: c in SelectConversions(cs, tenantId, DefaultConfig) <==>
      c in cs && c.tenantId == tenantId
  {
  }

  /** The conversion query is refused: the config lists event types and they
      reach the driver as a bare slice. */
  predicate EventTypesRefused(config: AttributionConfig, arg: SliceArg)
  {
    arg == Bare && |config.eventTypes| > 0
  }

  /** A run set `running` at `startedAt`. */
  function Started(run: Run, startedAt: Time): (r: Run)
    ensures r.status == Running && r.startedAt == Some(startedAt)
    ensures r.(status := run.status, startedAt := run.startedAt) == run
  {
    run.(status := Running, startedAt := Some(startedAt))
  }

  class AttributionStore {
    /** `attribution_models`: id to code. */
    var models: map<int, string>
    var runs: map<int, Run>
    var nextRunId: int
    var conversions: seq<ConversionEvent>
    var interactions: seq<Interaction>
    var participants: seq<Participant>
    var agents: map<int, Agent>
    var results: seq<AttributionResult>

    ghost predicate Valid()
      reads this
    {
      forall id :: id in runs ==> runs[id].id == id && id < nextRunId
    }

    /** The tables a run only reads. */
    function Data(): Tables
      reads this`interactions, this`participants, this`agents
    {
      Tables(interactions, participants, agents)
    }

    constructor ()
      ensures Valid() && runs == map[] && results == [] && models == map[]
    {
      models, runs, nextRunId := map[], map[], 1;
      conversions, interactions, participants, agents, results := [], [], [], map[], [];
    }

    /** `CreateAttributionRun`: an unknown model code fails; otherwise a new
        `pending` run with the serialised config is stored. */
    method CreateAttributionRun(tenantId: int, modelCode: string, name: string, config: AttributionConfig)
      returns (res: Result<Run, RunError>)
      requires Valid()
      modifies this
      ensures Valid()
      ensures models == old(models) && conversions == old(conversions) && Data() == old(Data())
      ensures results == old(results)
      ensures (forall id :: id in models ==> models[id] != modelCode) <==> res.Err?
      ensures res.Err? ==>
        (res.error == ModelNotFound(modelCode) && runs == old(runs) && nextRunId == old(nextRunId))
      ensures res.Ok? ==>
        var run := res.value;
        run.id == old(nextRunId) && run.id !in old(runs) &&
        run.modelId in models && models[run.modelId] == modelCode &&
        run == Run(run.id, tenantId, run.modelId, name, Some(Serialize(config)), Pending, None, None) &&
        runs == old(runs)[run.id := run] && nextRunId == old(nextRunId) + 1
    {
      if forall id :: id in models ==> models[id] != modelCode {
        return Err(ModelNotFound(modelCode));
      }
      var modelId :| modelId in models && models[modelId] == modelCode;
      var run := Run(nextRunId, tenantId, modelId, name, Some(Serialize(config)), Pending, None, None);
      runs := runs[run.id := run];
      nextRunId := nextRunId + 1;
      return Ok(run);
    }

    /** `attributeConversion`: appends the conversion's rows in one
        transaction, or nothing when the journey query fails or the journey is
        empty. */
    method AttributeConversion(runId: int, run: Run, c: ConversionEvent, code: string,
                               config: AttributionConfig)
      returns (res: Result<nat, AttributionError>)
      modifies this`results
      ensures var o := ConversionRows(Data(), runId, run, c, code, config);
        (res.Ok? <==> o.Ok?) && (res.Ok? ==> res.value == |o.value|) &&
        results == old(results) + RowsOrNone(o)
    {
      if |config.includeChannels| > 0 {
        return Err(InteractionQueryFailed);
      }
      var j := Journey(Data(), c.customerId, WindowStart(c, config), c.occurredAt);
      ghost var o := ConversionRows(Data(), runId, run, c, code, config);
      if |j| == 0 {
        return Ok(0);
      }
      DecayRatioInRange();
      var k := KindOf(code);
      var w := CalculateWeights(|j|, code, DecayRatio);
      var rows := BuildRows(Data(), runId, run, c, k, j, w);
      results := results + rows;
      return Ok(|j|);
    }

    /** The insert loop of `attributeConversion`, one row per touch. */
    static method BuildRows(t: Tables, runId: int, run: Run, c: ConversionEvent, k: ModelKind,
                            j: seq<Interaction>, w: seq<real>)
      returns (rows: seq<AttributionResult>)
      requires |w| == |j|
      ensures rows == Rows(t, runId, run, c, k, j, w, Credits(c.amount, w))
    {
      rows := [];
      var i := 0;
      while i < |j|
        invariant 0 <= i <= |j| && |rows| == i
        invariant forall q :: 0 <= q < i ==> rows[q] == Rows(t, runId, run, c, k, j, w, Credits(c.amount, w))[q]
      {
        var attributed := c.amount * w[i];
        CreditsAt(c.amount, w, i);
        rows := rows + [ResultRow(t, runId, run, c, k, j, w[i], attributed, i)];
        i := i + 1;
      }
    }

    /** The conversion loop of `ExecuteAttributionRun`: each conversion is
        attributed in turn and the ids of the failed ones are collected. */
    method AttributeAll(runId: int, run: Run, code: string, config: AttributionConfig,
                        cs: seq<ConversionEvent>)
      returns (failed: seq<int>)
      modifies this`results
      ensures results == old(results) + RunRows(Data(), runId, run, code, config, cs)
      ensures failed == RunFailures(Data(), runId, run, code, config, cs)
    {
      failed := [];
      ghost var base := results;
      assert cs[..0] == [];
      var i := 0;
      while i < |cs|
        invariant 0 <= i <= |cs|
        invariant results == base + RunRows(Data(), runId, run, code, config, cs[..i])
        invariant failed == RunFailures(Data(), runId, run, code, config, cs[..i])
      {
        failed := AttributeNext(runId, run, code, config, cs, i, base, failed);
        i := i + 1;
      }
      assert cs[..i] == cs;
    }

    /** One turn of the conversion loop: attribute `cs[i]` and extend the run's
        rows and failures by its outcome. */
    method AttributeNext(runId: int, run: Run, code: string, config: AttributionConfig,
                         cs: seq<ConversionEvent>, i: nat, ghost base: seq<AttributionResult>,
                         failed: seq<int>)
      returns (failed': seq<int>)
      requires i < |cs|
      requires results == base + RunRows(Data(), runId, run, code, config, cs[..i])
      requires failed == RunFailures(Data(), runId, run, code, config, cs[..i])
      modifies this`results
      ensures results == base + RunRows(Data(), runId, run, code, config, cs[..i + 1])
      ensures failed' == RunFailures(Data(), runId, run, code, config, cs[..i + 1])
    {
      ghost var t := Data();
      ghost var o := ConversionRows(t, runId, run, cs[i], code, config);
      ghost var prefix := RunRows(t, runId, run, code, config, cs[..i]);
      RunStep(t, runId, run, code, config, cs, i);
      var outcome := AttributeConversion(runId, run, cs[i], code, config);
      assert Data() == t;
      ghost var added := RowsOrNone(o);
      assert results == base + prefix + added;
      AppendAssociative(base, prefix, added);
      assert outcome.Err? <==> o.Err?;
      failed' := failed;
      if outcome.Err? {
        failed' := failed + [cs[i].id];
      }
    }

    /** `ExecuteAttributionRun`: an unknown run fails before any change; the run
        is set `running`, its config parsed, its selected conversions attributed
        one by one with failures skipped (their ids are returned, as the log
        lines would name them), and the run ends `completed`. The conversion
        query fails, leaving the run `running`, when the config lists event
        types and the code hands them to the driver as a bare slice. */
    method ExecuteAttributionRun(runId: int, startedAt: Time, completedAt: Time, arg: SliceArg)
      returns (res: Result<seq<int>, RunError>)
      requires Valid()
      modifies this`runs, this`results
      ensures Valid()
      ensures runId !in old(runs) ==>
        res == Err(RunNotFound(runId)) && runs == old(runs) && results == old(results)
      ensures runId in old(runs) && old(runs)[runId].modelId !in models ==>
        res == Err(ModelCodeMissing(old(runs)[runId].modelId)) &&
        runs == old(runs)[runId := Started(old(runs)[runId], startedAt)] && results == old(results)
      ensures runId in old(runs) && old(runs)[runId].modelId in models &&
              EventTypesRefused(ParseConfig(old(runs)[runId].config), arg) ==>
        res == Err(ConversionQueryFailed) &&
        runs == old(runs)[runId := Started(old(runs)[runId], startedAt)] && results == old(results)
      ensures runId in old(runs) && old(runs)[runId].modelId in models &&
              !EventTypesRefused(ParseConfig(old(runs)[runId].config), arg) ==>
        var run := old(runs)[runId];
        var code := models[run.modelId];
        var config := ParseConfig(run.config);
        var cs := SelectConversions(conversions, run.tenantId, config);
        res == Ok(RunFailures(Data(), runId, run, code, config, cs)) &&
        runs == old(runs)[runId := Started(run, startedAt).(status := Completed, completedAt := Some(completedAt))] &&
        results == old(results) + RunRows(Data(), runId, run, code, config, cs)
    {
      if runId !in runs {
        return Err(RunNotFound(runId));
      }
      var run := runs[runId];
      var running := Started(run, startedAt);
      runs := runs[runId := running];
      var config := ParseConfig(run.config);
      if run.modelId !in models {
        return Err(ModelCodeMissing(run.modelId));
      }
      var code := models[run.modelId];
      if EventTypesRefused(config, arg) {
        return Err(ConversionQueryFailed);
      }
      var failed := CompleteRun(runId, run, code, config, completedAt);
      return Ok(failed);
    }

    /** The end of a run that reaches its conversions: the selected ones are
        attributed and the run is marked `completed`. */
    method CompleteRun(runId: int, run: Run, code: string, config: AttributionConfig, completedAt: Time)
      returns (failed: seq<int>)
      requires Valid() && runId in runs
      modifies this`runs, this`results
      ensures Valid()
      ensures var cs := SelectConversions(conversions, run.tenantId, config);
        failed == RunFailures(Data(), runId, run, code, config, cs) &&
        results == old(results) + RunRows(Data(), runId, run, code, config, cs)
      ensures runs == old(runs)[runId := old(runs)[runId].(status := Completed, completedAt := Some(completedAt))]
    {
      var cs := SelectConversions(conversions, run.tenantId, config);
      failed := AttributeAll(runId, run, code, config, cs);
      runs := runs[runId := runs[runId].(status := Completed, completedAt := Some(completedAt))];
    }
  }
}
