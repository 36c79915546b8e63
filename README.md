# Corporate Wellbeing attribution backend: a Dafny model

This project models the rule-carrying core of a multi-tenant customer-attribution and
marketing-analytics service, written in Go with a React front end.
- **Attribution.** Conversions (purchases and other events) are credited to the customer
  interactions (calls, chats, visits) that preceded them. Attribution runs use one of five
  weighting models.
- **Identity and ingestion.** Identity resolution finds or creates the customer behind a set
  of identifiers. Ingestion stores interactions and conversions and resolves their
  reference data.
- **Administration.** Permission gates, role, team and user administration rules guard the
  admin pages.
- **Small rule services.** Lead-scoring rules, feature flags and experiment assignment, the
  marketing-mix recommendations and a per-IP token-bucket rate limiter.
- **Front end.** Two pages carry logic: the Settings page (CSV bulk-user upload, permission
  toggle, password field) and the Profile page (initials, name split, password-change checks).

Database tables are in-memory sequences and maps held by store classes. Their methods
update them in place. A transaction is modelled as all or nothing: a failing step leaves
the store as it was. The bulk user upload is the one place where a failing statement does
not end its transaction at once. There, PostgreSQL refuses every later statement and the
commit, so the whole upload is lost (see Findings). Where the code hands a Go slice to the
driver bare instead of through `pq.Array` (team members, attribution event types), the
statement fails before it is sent; those operations take a `SliceArg` that is `Bare` as
written and `PqArray` as meant (see Findings). SQL `ORDER BY` is a stable sort, and `LIMIT 1` takes the first
matching row. Faults that do not come from the data, such as a failing insert, are a
`faults` set of step numbers passed in by the caller, and only where a property is about
them. Times are integer nanoseconds given as parameters. Money, weights and scores are
`real`.

Files (one module each):
- `common.dfy`: `Option`, `Result` and `SliceArg`, Go's truncating division, and `Sum` with its lemmas.
- `text.dfy`: JavaScript-style `split`, `join`, `trim` and ASCII case mapping.
- `schema.dfy`: shared row types and the stable sort used for `ORDER BY`.
- `admin.dfy`: the user, role and team tables shared by the admin services.
- `permissions.dfy`, `role_management.dfy`, `team_management.dfy`,
  `user_management.dfy` and `user_bulk.dfy`: access control and administration.
- `attribution_weights.dfy` and `attribution.dfy`: weights and attribution runs.
- `identity.dfy` and `ingestion.dfy`: customers, identifiers and ingestion.
- `lead_scoring.dfy`, `experiments.dfy`, `mmm.dfy` and `ratelimit.dfy`: the rule services.
- `settings.dfy` and `profile.dfy`: the two front-end pages.

## Model

| member | source | states |
|---|---|---|
| AttributionWeights.KindOf | backend/internal/services/attribution.go:255-309 | each of the codes "FIRST_TOUCH", "LAST_TOUCH", "LINEAR", "TIME_DECAY" and "AI_WEIGHTED" selects its own model, and only that code does; every other code, and only such a code, is `Other`, the linear default |
| AttributionWeights.CalculateWeights | backend/internal/services/attribution.go:252-312 | `calculateWeights` fills the weights index by index and returns exactly `Weights(n, model, r)`; the single-touch models need `n >= 1`, as the caller guarantees |
| AttributionWeights.FillFirstTouch | backend/internal/services/attribution.go:256-260 | the FIRST_TOUCH loop yields the specified weights (1 at index 0, 0 elsewhere) |
| AttributionWeights.FillLastTouch | backend/internal/services/attribution.go:262-266 | the LAST_TOUCH loop yields the specified weights (1 at index n-1, 0 elsewhere) |
| AttributionWeights.FillTimeDecay | backend/internal/services/attribution.go:274-286 | the two TIME_DECAY loops (accumulate the decay terms and their total, then divide) yield the specified weights |
| AttributionWeights.FillAiWeighted | backend/internal/services/attribution.go:288-301 | the AI_WEIGHTED loops (terms 1/n, total, divide) yield the specified weights |
| AttributionWeights.FillLinear | backend/internal/services/attribution.go:268-272 | LINEAR and the default branch give every index 1/n |
| AttributionWeights.SingleTouchWeights | backend/internal/services/attribution.go:256-266 | under FIRST_TOUCH and LAST_TOUCH a weight is 1 at the primary touch and 0 at every other index |
| AttributionWeights.UniformWeights | backend/internal/services/attribution.go:268-272 | LINEAR, AI_WEIGHTED and any unrecognised code give every index exactly 1/n |
| AttributionWeights.TimeDecayWeightAt | backend/internal/services/attribution.go:281-285 | a TIME_DECAY weight is its decay term `r^(n-i-1)` divided by the (positive) total of the terms |
| AttributionWeights.TimeDecayWeights | backend/internal/services/attribution.go:274-286 | TIME_DECAY weights are positive, strictly increasing with the index (later touches earn more) and sum to 1 |
| AttributionWeights.DecayTermsPositive | backend/internal/services/attribution.go:281-282 | every decay term is positive, so their total is positive whenever there is a touch |
| AttributionWeights.PowStrictlyDecreasing | backend/internal/services/attribution.go:281 | with the decay ratio between 0 and 1, a higher power is strictly smaller (why earlier touches weigh less) |
| AttributionWeights.UniformSum | backend/internal/services/attribution.go:293-297 | the `n` copies of 1/n that AI_WEIGHTED starts from sum to 1 |
| AttributionWeights.WeightsSumToOne | backend/internal/services/attribution.go:252-312 | for `n >= 1` the weights of every model sum to 1 |
| AttributionWeights.OneHotSum | backend/internal/services/attribution.go:256-266 | a sequence that is 1 at one index and 0 elsewhere sums to 1 (the single-touch case of the sum) |
| AttributionWeights.PrimaryTouch | backend/internal/services/attribution.go:226-231 | `is_primary_touch` holds exactly at the touch that gets weight 1 under FIRST_TOUCH or LAST_TOUCH, and never under any other model |
| Attribution.TruncReal | backend/internal/services/attribution.go:90 | Go's `int(tw)` truncates the stored float toward zero |
| Attribution.ParseConfig | backend/internal/services/attribution.go:82-109 | a run without config gets the defaults (72 hours, no channel or event filter, minimum 0); a stored config without the window or minimum key keeps that key's default |
| Attribution.StringsOfJStrs | backend/internal/services/attribution.go:92-105 | reading a stored list of strings back keeps every string, in order |
| Attribution.ConfigRoundTrip | backend/internal/services/attribution.go:38-109 | the config stored at creation parses back to exactly the config given (a run executes with the settings it was created with) |
| Attribution.MaxOf | backend/internal/services/attribution.go:172-174 | SQL `MAX` over the agent columns ignores NULLs: NULL exactly when all are NULL, otherwise one of the values and no smaller than any |
| Attribution.CreditsAt | backend/internal/services/attribution.go:222-223 | each attributed amount is the conversion amount times that touch's weight |
| Attribution.CreditsSum | backend/internal/services/attribution.go:221-223 | the attributed amounts sum to the conversion amount times the total weight |
| Attribution.JourneyExact | backend/internal/services/attribution.go:168-192 | the journey holds exactly the customer's interactions with `occurred_at - hours <= started_at <= occurred_at`, ascending by `started_at` |
| Attribution.ConversionRowsShape | backend/internal/services/attribution.go:207-246 | without a channel allow-list, one row per journey interaction in journey order, carrying the run, the conversion, the interaction, the model's weight and the primary-touch flag; an empty journey writes no rows and is not an error |
| Attribution.ConversionAmountsSum | backend/internal/services/attribution.go:221-223 | each row's amount is the conversion amount times its weight, and a non-empty journey's amounts sum to the conversion amount |
| Attribution.ConversionPrimaryTouch | backend/internal/services/attribution.go:226-231 | a row is a primary touch exactly when the model is FIRST_TOUCH or LAST_TOUCH and the row carries the whole weight |
| Attribution.ChannelFilterFailsAll | backend/internal/services/attribution.go:183-190 | a non-empty channel allow-list is appended after `GROUP BY`, so every conversion's query fails: the run writes no rows and every conversion is reported failed |
| Attribution.DefaultSelectsTenant | backend/internal/services/attribution.go:119-136 | with the default config (no event types, minimum 0) a run selects exactly the tenant's conversions |
| Attribution.RunStep | backend/internal/services/attribution.go:145-151 | attributing one more conversion appends its rows, or on failure records its id and appends nothing |
| Attribution.AttributionStore.CreateAttributionRun | backend/internal/services/attribution.go:29-60 | an unknown model code fails and stores nothing; otherwise a new `pending` run with the next id, the model's id, the name and the serialised config is stored and nothing else changes |
| Attribution.AttributionStore.AttributeConversion | backend/internal/services/attribution.go:166-249 | `attributeConversion` succeeds exactly when its query does, appends exactly the conversion's rows in one step, and appends nothing on failure |
| Attribution.AttributionStore.AttributeAll | backend/internal/services/attribution.go:145-151 | the loop over conversions appends every successful conversion's rows in order and collects the ids of the failed ones without stopping |
| Attribution.Started | backend/internal/services/attribution.go:71-79 | the run becomes `running` with the start time and keeps every other field |
| Attribution.AttributionStore.ExecuteAttributionRun | backend/internal/services/attribution.go:63-163 | an unknown run id fails before any change; otherwise the run is set `running`; a missing model code stops it there, and so does the conversion query when event types are listed and passed bare; else it ends `completed`, whatever the per-conversion failures, with the rows of every selected conversion appended |
| Attribution.AttributionStore.CompleteRun | backend/internal/services/attribution.go:136-160 | the selected conversions' rows are appended, their failures returned, and the run alone is marked `completed` |
| Attribution.EventTypesSurviveStorage | backend/internal/services/attribution.go:105-131 | a config listing event types keeps them through storage, so its run reaches the conversion query, which is refused with a bare slice and not with `pq.Array` |
| Attribution.EventTypeSelection | backend/internal/services/attribution.go:120-136 | as meant, the run selects exactly the tenant's conversions of a listed type, of the minimum amount when that is positive |
| Identity.FirstMatch | backend/internal/services/identity.go:80-98 | the first identifier row of a tenant customer holding any of the supplied `(type, value)` pairs; none exactly when no row matches |
| Identity.Lookup | backend/internal/services/identity.go:74-110 | `FindCustomerByIdentifiers` errors exactly on an empty list, returns nil exactly when nothing matches, and otherwise one tenant customer holding one of the pairs |
| Identity.InsertIgnore | backend/internal/services/identity.go:52-54 | `ON CONFLICT (customer_id, type, value) DO NOTHING`: the key is present afterwards, an existing key leaves the rows unchanged, and keys stay unique |
| Identity.InsertIgnoreTwice | backend/internal/services/identity.go:52-54 | inserting the same `(customer, type, value)` twice leaves one row |
| Identity.AttachAll | backend/internal/services/identity.go:49-64 | attaching the identifiers keeps the old rows, adds only rows of the new customer for supplied pairs, and leaves every supplied pair on the customer |
| Identity.FindAfterCreate | backend/internal/services/identity.go:21-71 | after a creation the same identifiers find the new customer |
| Identity.FirstMatchOwner | backend/internal/services/identity.go:80-98 | when every matching row belongs to one customer, that customer is the one found |
| Identity.CustomerIdentifiers | backend/internal/services/identity.go:122-128 | a customer's identifiers: exactly its rows, primary ones first, each group by ascending `created_at` |
| Identity.PrimaryFirst | backend/internal/services/identity.go:126 | primary rows sorted by time followed by the other rows sorted by time satisfy `ORDER BY is_primary DESC, created_at ASC` |
| Identity.JourneyInteractions | backend/internal/services/identity.go:134-153 | the journey's interactions: exactly the customer's interactions within the inclusive from/to bounds given, ascending by `started_at` |
| Identity.WithParticipants | backend/internal/services/identity.go:160-173 | each journey interaction carries exactly its own participants |
| Identity.GetCustomerJourney | backend/internal/services/identity.go:113-204 | the journey lists the customer's identifiers, the bounded interactions (ascending, with participants) and the bounded conversions ascending by `occurred_at` |
| Identity.IdentityStore.FindCustomerByIdentifiers | backend/internal/services/identity.go:74-110 | the store lookup returns exactly `Lookup` of the current tables |
| Identity.IdentityStore.FindOrCreateCustomer | backend/internal/services/identity.go:21-71 | a match is returned with nothing written; otherwise (no match, or the empty-list error) a failing identifier insert leaves the store unchanged, and success creates one tenant customer with the next id and attaches every identifier |
| Ingestion.DurationSeconds | backend/internal/services/ingestion.go:90-94 | `duration_seconds` is null exactly when `ended_at` is absent, else the whole seconds of `ended_at - started_at` truncated toward zero |
| Ingestion.Resolve | backend/internal/services/ingestion.go:80-87 | a soft lookup: null when the key is absent or unknown, else the table's id |
| Ingestion.SecondaryIntents | backend/internal/services/ingestion.go:97-101 | secondary intents are stored only when the list is non-empty, and then unchanged |
| Ingestion.ParticipantRow | backend/internal/services/ingestion.go:129-149 | a participant row keeps type and role, and has an agent exactly when the external agent id is given and known |
| Ingestion.ParticipantRows | backend/internal/services/ingestion.go:129-153 | one participant row per request, in order |
| Ingestion.IngestionStore.ResolveCustomer | backend/internal/services/ingestion.go:62-70 | the outcome of `FindOrCreateCustomer`: a customer found by the identifiers is returned with nothing written; otherwise a failing identifier insert is an error that changes nothing; otherwise a new tenant customer is created with every identifier attached (for an empty list, a customer with none) |
| Ingestion.IngestionStore.RecordInteraction | backend/internal/services/ingestion.go:72-153 | an unknown channel fails with nothing stored; otherwise one interaction row (vendor resolved softly, duration derived) and its participant rows are appended |
| Ingestion.IngestionStore.IngestInteraction | backend/internal/services/ingestion.go:55-163 | the customer is null exactly when no identifiers are given; an unknown channel always fails the ingest and stores no interaction; success appends the interaction and its participants; a customer found by the identifiers is the one recorded, with nothing written to the identity tables |
| Ingestion.IngestionStore.IngestConversion | backend/internal/services/ingestion.go:184-250 | a customer is always resolved, even for an empty identifier list; an unknown event source, then an unknown currency, fails with nothing stored; an unknown product degrades to null; a customer found by the identifiers is the one recorded, with nothing written to the identity tables |
| Ingestion.IngestionStore.RecordConversion | backend/internal/services/ingestion.go:196-239 | the ingest fails exactly when the event source or the currency is unknown, the event source checked first, with nothing stored; otherwise the event is appended with the next id, the resolved customer, and the product or null |
| Permissions.CheckPermission | backend/internal/services/permissions.go:20-64 | an unknown user or a missing role is an error; otherwise the answer is true exactly when the user is active, not an observer, a `product_user`, has a role, and the code name is among the role's code names |
| Permissions.GetUserPermissions | backend/internal/services/permissions.go:68-112 | as written: an unknown user or a missing role is an error; a user failing a gate (inactive, observer, other user type, no role) has no permissions; every other user gets the scan error, because the `text[]` column is read into a plain string slice |
| Permissions.GetUserPermissionsFixed | backend/internal/services/permissions.go:68-112 | as intended, with the array read as `pq.StringArray`: the same errors and gates, and otherwise exactly the role's code names |
| Permissions.PermissionsUnreadable | backend/internal/services/permissions.go:20-112 | for every user past the gates whose role exists, `CheckPermission` answers while `GetUserPermissions` fails with the scan error, and the intended version returns the role's code names |
| Permissions.CheckAgreesWithPermissions | backend/internal/services/permissions.go:20-112 | `CheckPermission(u, p)` succeeds exactly when `GetUserPermissionsFixed(u)` does, and then answers `p in GetUserPermissionsFixed(u)` |
| Permissions.ClosedGate | backend/internal/services/permissions.go:33-50 | an inactive user, an observer, any user type other than `product_user`, or a user without role has no permission at all |
| Permissions.AnyHeld | backend/internal/services/permissions.go:122-134 | the lookup map and scan answer true exactly when some required code name is held (so an empty list gives false) |
| Permissions.HasAnyPermission | backend/internal/services/permissions.go:116-135 | as written: the error of `GetUserPermissions` is passed on, otherwise the answer is `AnyHeld` of the user's permissions; it succeeds exactly for a gated user, with false, so it never answers true |
| RoleManagement.CreateRole | backend/internal/services/role_management.go:22-66 | a name already used in the tenant fails and stores nothing; otherwise the role is stored editable and non-default with the next id, and its team restrictions are added |
| RoleManagement.AddRestrictions | backend/internal/services/role_management.go:48-60 | the loop adds a restriction `(role, team)` for every listed team |
| RoleManagement.Updated | backend/internal/services/role_management.go:92-113 | the updated role takes each supplied field and keeps the rest, id, tenant and flags included |
| RoleManagement.UpdateRole | backend/internal/services/role_management.go:69-177 | in order: missing role, not editable, code names of a default role, name held by another tenant role, nothing to update (team ids alone do not count) each fail with nothing changed; otherwise the role is updated and supplied team ids replace its restrictions exactly |
| RoleManagement.WithoutRole | backend/internal/services/role_management.go:150 | deleting a role's restrictions removes exactly the pairs of that role |
| RoleManagement.ReplaceRestrictions | backend/internal/services/role_management.go:148-166 | after replacement the role's teams are exactly the supplied list, and every other role's teams are unchanged |
| RoleManagement.DeleteRole | backend/internal/services/role_management.go:273-310 | a missing, non-editable, default, or assigned role cannot be deleted and nothing changes; otherwise the role and all its restrictions are removed |
| RoleManagement.DeleteKeepsPermissions | backend/internal/services/role_management.go:290-307 | deleting an unassigned role changes no user's permission list (as intended) and no `CheckPermission` answer |
| LeadScoring.ByteLength | backend/internal/services/lead_scoring.go:288 | Go's `len` counts UTF-8 bytes: between one and four per character |
| LeadScoring.ContainsIff | backend/internal/services/lead_scoring.go:287-289 | `contains(s, sub)` holds exactly when `s == sub` or `s` is longer in bytes |
| LeadScoring.ContainsIsNotSubstring | backend/internal/services/lead_scoring.go:287-289 | `contains("ab", "z")` holds although "z" does not occur in "ab" |
| LeadScoring.EvaluateRule | backend/internal/services/lead_scoring.go:249-284 | a missing field or an unknown condition scores 0; a matched rule scores `score * weight`, an unmatched one 0 |
| LeadScoring.TypeMismatchScoresZero | backend/internal/services/lead_scoring.go:260-278 | `greater_than`/`less_than` on a non-float, and `contains` on a non-string, never match |
| LeadScoring.IntegerColumnNeverEquals | backend/internal/services/lead_scoring.go:258-259 | an integer column never `equals` a JSON value, which always decodes as a float |
| LeadScoring.ScoreRules | backend/internal/services/lead_scoring.go:143-159 | the loop's total, per-category breakdown and factor list are the specified sums and list |
| LeadScoring.TotalIsBreakdownSum | backend/internal/services/lead_scoring.go:147-151 | the total score equals the sum of the per-category breakdown |
| LeadScoring.CategoryIsKey | backend/internal/services/lead_scoring.go:150 | the breakdown has a key for exactly the categories of the rules, scored or not |
| LeadScoring.FactorsScored | backend/internal/services/lead_scoring.go:152-158 | every factor comes from a rule with a positive contribution |
| LeadScoring.FactorsComplete | backend/internal/services/lead_scoring.go:152-158 | every rule with a positive contribution is listed as a factor |
| LeadScoring.NoDataScoresNothing | backend/internal/services/lead_scoring.go:250-253 | with no customer data every rule scores 0: total 0, every category 0, no factors |
| LeadScoring.StoredFactors | backend/internal/services/lead_scoring.go:168-171 | the stored factors object is empty when no rule scored and holds the list under "factors" otherwise |
| LeadScoring.CalculateLeadScore | backend/internal/services/lead_scoring.go:116-199 | without an active model the call fails; otherwise the score carries the model id, the total, the breakdown and the stored factors |
| Experiments.FindFlag | backend/internal/services/experiments.go:261-266 | the flag found belongs to the tenant and has the key; none exactly when no such flag exists |
| Experiments.IsFeatureEnabled | backend/internal/services/experiments.go:296-317 | an unknown flag is an error, and only an unknown flag |
| Experiments.FlagDecision | backend/internal/services/experiments.go:302-316 | a found flag is on exactly when enabled with rollout above 0: disabled is off, rollout >= 100 on, rollout <= 0 off, anything between on |
| Experiments.SameForEveryCustomer | backend/internal/services/experiments.go:306-316 | the rollout check is a stub: the answer does not depend on the customer |
| Experiments.FindAssignment | backend/internal/services/experiments.go:140-149 | the existing assignment is looked up by customer when one is given, else by session |
| Experiments.Assigned | backend/internal/services/experiments.go:156-170 | without an existing assignment, the new one has the next id, variant `control` and whichever ids were given |
| Experiments.ExperimentStore.AssignVariant | backend/internal/services/experiments.go:132-185 | an unknown experiment fails; neither id returns the empty assignment and stores nothing; an existing assignment is returned unchanged; otherwise a new `control` assignment is stored and returned |
| Experiments.AssignIdempotent | backend/internal/services/experiments.go:140-154 | assigning again with the same ids returns the same assignment and stores nothing more |
| Experiments.NewAssignmentIsControl | backend/internal/services/experiments.go:156-170 | a new assignment is `control`, records the ids given and is appended |
| TeamManagement.Plan | backend/internal/services/team_management.go:114-164 | the teams a request creates, pre-order: one per team in the request tree |
| TeamManagement.PlanShape | backend/internal/services/team_management.go:130-161 | the planned teams take consecutive ids from the next id; the root hangs under the given parent and carries the request's members, and everything after it hangs under the root's subtree |
| TeamManagement.PlanAllShape | backend/internal/services/team_management.go:153-161 | a list of subteam requests takes consecutive ids and every planned team hangs under the parent |
| TeamManagement.SubteamsUnderParents | backend/internal/services/team_management.go:153-161 | every created subteam, at any depth, has as `group_id` the id of a team created before it in the same call (its parent) |
| TeamManagement.PlanAllSplit | backend/internal/services/team_management.go:154-160 | creating one more subteam request extends the plan by that request's teams, numbered after the earlier ones |
| TeamManagement.AssignMembers | backend/internal/services/team_management.go:167-178 | `updateMembers`: each listed user (of the tenant, where the query restricts it) gets the team and the team's manager; every other user is unchanged |
| TeamManagement.NoMembersNoChange | backend/internal/services/team_management.go:168-170 | an empty member list changes nothing |
| TeamManagement.UpdateMembers | backend/internal/services/team_management.go:167-179 | `updateMembers`: an empty list changes nothing; a non-empty list fails exactly when it is passed as a bare slice, and otherwise assigns exactly the listed users to the team and its manager |
| TeamManagement.FaultMeaning | backend/internal/services/team_management.go:116-128 | a tree fails exactly when some team's vendor is outside the tenant or, with a bare slice, some team has members; with `pq.Array` only the vendor error is possible, and with every vendor valid only the member error |
| TeamManagement.FirstFaultAppend | backend/internal/services/team_management.go:153-161 | the first failure of two batches of teams is the first batch's, else the second's |
| TeamManagement.PlanAllPrefixFails | backend/internal/services/team_management.go:154-159 | once a subteam fails (vendor or members) the whole creation fails with that error |
| TeamManagement.MembersRefusedAsWritten | backend/internal/services/team_management.go:167-179 | as written against as meant: a tree whose vendors all pass but which assigns members fails with the member error when the ids go bare, and is created with `pq.Array` |
| TeamManagement.NoMembersKeepUsers | backend/internal/services/team_management.go:86-91 | creating teams without member lists changes no user |
| TeamManagement.CreateTeamInTx | backend/internal/services/team_management.go:114-164 | `createTeamInTx` (recursive, with `CreateSubteams` for its loop) returns exactly the specified outcome: all planned teams and member updates applied, or the first failing team's error |
| TeamManagement.CreateSubteams | backend/internal/services/team_management.go:153-161 | the subteam loop returns exactly the specified outcome for the list |
| TeamManagement.CreateTeam | backend/internal/services/team_management.go:43-111 | members together with subteams are refused (top level only); otherwise it succeeds exactly when every vendor of the tree is the tenant's and, as written, no team has members; a failure commits nothing and returns the first failing team's error; success commits every planned team and member update (as written, no user changes) and returns the root |
| TeamManagement.Renamed | backend/internal/services/team_management.go:252-262 | the updated team takes the supplied name and description and keeps every other field |
| TeamManagement.UpdateInTx | backend/internal/services/team_management.go:285-305 | the member and subteam updates inside the update's transaction: a refused member list fails at once; otherwise applied together, or the first failing subteam's error |
| TeamManagement.UpdateTeam | backend/internal/services/team_management.go:239-313 | neither name nor description fails; a team outside the tenant fails; a non-empty member list passed bare fails; otherwise the rename, member updates and new subteams are committed together exactly when every new subteam passes (vendor, and as written no members), or nothing is |
| TeamManagement.Transfer | backend/internal/services/team_management.go:348-351 | the tenant's members of the team move to the target team; no other user changes |
| TeamManagement.TransferEmpties | backend/internal/services/team_management.go:342-355 | after a transfer to another team the deleted team has no members left |
| TeamManagement.DeleteTeam | backend/internal/services/team_management.go:316-369 | a team with subteams cannot be deleted; one with members needs a transfer target; otherwise the members move to the target and the team is removed |
| TeamManagement.AddTeamMembers | backend/internal/services/team_management.go:372-390 | a team outside the tenant fails; for a tenant team the update fails exactly when the ids go bare (even an empty list), changing nothing; otherwise the listed tenant users get the team and its manager |
| TeamManagement.DeleteUseCase | backend/internal/services/team_management.go:428-447 | a use case referenced by a tenant team cannot be deleted; otherwise the tenant's use case is removed |
| UserManagement.Validate | backend/internal/services/user_management.go:465-470 | a create request fails exactly when `first_name` is empty and `name` is absent or empty |
| UserManagement.GetOrDefault | backend/internal/services/user_management.go:441-446 | the default replaces exactly the empty value |
| UserManagement.StoredUserType | backend/internal/services/user_management.go:81 | the stored user type is never empty; it is `product_user` exactly when the request's type is empty or `product_user`; defaulting twice changes nothing |
| UserManagement.ValidRequestIsNamed | backend/internal/services/user_management.go:58-65 | a valid request always gets a non-empty full name, which starts with `first_name` unless `name` is given |
| UserManagement.NameRulesAgree | backend/internal/services/user_management.go:209-216 | the update's name rule agrees with the create's for a non-empty first name, and gives "" exactly when the first name is empty |
| UserManagement.ObservedCreate | backend/internal/services/user_management.go:41-44 | an observer's role is cleared; nothing else in the request changes |
| UserManagement.ChosenPassword | backend/internal/services/user_management.go:47-50 | the given password is used, or the generated one when it is empty |
| UserManagement.NewUser | backend/internal/services/user_management.go:58-86 | the inserted row: full name (first, plus " " and last when non-empty, overridden by a non-empty `name`), last name only when non-empty, no role for an observer, type defaulted, active |
| UserManagement.CreateUser | backend/internal/services/user_management.go:28-92 | an invalid request, then an email taken in the tenant, fails with nothing stored; otherwise the new user with the next id is stored and returned with its password |
| UserManagement.CreatedUser | backend/internal/services/user_management.go:41-86 | a created user's email is taken afterwards, and a created observer has no permission |
| UserManagement.ObservedUpdate | backend/internal/services/user_management.go:184-187 | setting the type to observer drops a supplied role; nothing else in the request changes |
| UserManagement.NoAssignmentsIff | backend/internal/services/user_management.go:291-293 | there is nothing to update exactly when no field is supplied (`updated_at` does not count) |
| UserManagement.BuildAssignments | backend/internal/services/user_management.go:189-289 | the clause builder emits one `col = $k` per supplied field with `k = 1, 2, ...` consecutive and one argument per placeholder, and ends with `argPos` one past the last |
| UserManagement.NameClauses | backend/internal/services/user_management.go:194-235 | the name part emits `name`, `first_name`, `last_name` when either part is supplied (and the user is found), or `name` alone when only it is supplied |
| UserManagement.Push | backend/internal/services/user_management.go:236-289 | one supplied field appends one clause with the next placeholder and its argument |
| UserManagement.StatementPlaceholders | backend/internal/services/user_management.go:295-307 | the statement ends with the `updated_at` clause without placeholder; the WHERE clause uses the next two numbers for tenant and id; args holds exactly one value per placeholder |
| UserManagement.BoundClauses | backend/internal/services/user_management.go:302-314 | executing clauses whose placeholders bind to the right arguments sets exactly the listed columns |
| UserManagement.NameStep | backend/internal/services/user_management.go:195-229 | the name columns become first (plus " " and last when non-empty), or "" when first is absent or empty; the other columns are untouched |
| UserManagement.OtherColumns | backend/internal/services/user_management.go:236-289 | each other supplied field sets its column (the password only when non-empty) and leaves the name columns alone |
| UserManagement.AssignmentsUpdate | backend/internal/services/user_management.go:189-289 | applying the assignments gives exactly the specified updated user |
| UserManagement.ExecuteUpdates | backend/internal/services/user_management.go:302-317 | the statement updates the tenant's user as specified, and finds no row for another tenant's or a missing user |
| UserManagement.UpdateOutcomeCases | backend/internal/services/user_management.go:291-319 | nothing supplied gives "no fields to update"; a missing user gives the update failure; otherwise the updated user |
| UserManagement.UpdateUser | backend/internal/services/user_management.go:183-320 | the update returns the specified outcome and stores the updated user, or changes nothing on failure |
| UserManagement.ObserverUpdate | backend/internal/services/user_management.go:184-187 | an update to observer keeps the stored role but leaves the user with no permission |
| UserManagement.DeleteUser | backend/internal/services/user_management.go:421-431 | deleting deactivates the tenant's user and changes nothing else; another tenant's or a missing user is left alone |
| UserManagement.DeletedUser | backend/internal/services/user_management.go:421-431 | a deleted user has no permission, and deactivation is the only change |
| UserBulk.RefreshedUser | backend/internal/services/user_management.go:127-135 | an existing email's row takes the row's name, phone, ids, defaulted type and location, and keeps id, email, first/last name, password and active flag |
| UserBulk.Refresh | backend/internal/services/user_management.go:127-135 | the refresh rewrites rows in place and adds none |
| UserBulk.InsertedUser | backend/internal/services/user_management.go:150-165 | a new bulk row has the next id, the row's name, no first or last name, the generated password, defaulted type, active |
| UserBulk.RefreshRow | backend/internal/services/user_management.go:124-146 | an existing email is updated instead of inserted: a refused UPDATE, or one for a row without a name, records the row's update error and changes nothing; otherwise every tenant user with that email is refreshed and the re-selected user holds the row's fields |
| UserBulk.BulkRow | backend/internal/services/user_management.go:106-172 | one row on a live transaction: a refused statement or a missing name records the row's error and changes nothing; otherwise the row refreshes or inserts and its user is reported |
| UserBulk.BulkCreateUsers | backend/internal/services/user_management.go:93-180 | as written: when no row fails, the commit stores every row, no error comes back and every row returns its user (an empty password for a refreshed one); once a row fails, every later row fails too, the commit fails, the users are rolled back and only the commit error comes back |
| UserBulk.BulkCreateUsersPerRow | backend/internal/services/user_management.go:93-180 | as intended, each row on its own: the store after all rows, the failed rows' errors in order, and each other row's user, with an empty password for a refreshed user |
| UserBulk.TxMatchesPerRow | backend/internal/services/user_management.go:100-177 | the transaction is aborted exactly when some row's statement fails; until then the source's run equals the per-row run, so the per-row lemmas below hold for every upload in which no row fails |
| UserBulk.TxRowStep | backend/internal/services/user_management.go:106-172 | a row on a live transaction has the effect it has on its own, and aborts the transaction exactly when it fails |
| UserBulk.TxAborts | backend/internal/services/user_management.go:100-173 | after `n` rows the transaction is aborted exactly when one of them failed |
| UserBulk.TxFaultFree | backend/internal/services/user_management.go:100-173 | while the transaction is live, the source's store, serial value and outcomes equal the per-row run's |
| UserBulk.TxCommitted | backend/internal/services/user_management.go:175-180 | a committed upload has no row error, and every row's outcome is a success |
| UserBulk.RowFailureDiscardsOthers | backend/internal/services/user_management.go:100-177 | one failing row aborts the source's whole upload, while the per-row run keeps any other working row's email registered |
| UserBulk.NamelessRowDiscardsUpload | backend/internal/services/user_management.go:100-177 | two rows, the first without a name: the source's transaction aborts, while the per-row run stores the second user |
| UserBulk.RowFails | backend/internal/services/user_management.go:117-168 | a row fails exactly when the database refuses its statement or the row has no name, and its error carries its 1-based row number |
| UserBulk.RowKind | backend/internal/services/user_management.go:122-172 | a working row updates exactly when the email is taken in the tenant; a new user gets the generated password and the next id |
| UserBulk.RowObserver | backend/internal/services/user_management.go:107-110 | an observer row gets no role, inserted or updated |
| UserBulk.RowKeepsEmails | backend/internal/services/user_management.go:122-172 | a row never frees an email, and a working row leaves its email taken |
| UserBulk.BulkPrefix | backend/internal/services/user_management.go:106-173 | in the per-row run each row's outcome depends only on the rows before it |
| UserBulk.BulkRegistersEmails | backend/internal/services/user_management.go:106-173 | in the per-row run, and so in the source's run when no row fails, every working row's email is taken after the loop |
| UserBulk.RepeatedEmailRefreshes | backend/internal/services/user_management.go:122-148 | in the per-row run, and so in the source's run when no row fails, a later working row with an email seen earlier updates instead of inserting |
| UserBulk.BulkErrorRows | backend/internal/services/user_management.go:117-168 | in the per-row run the errors name exactly the failing rows (a refused statement or no name), by 1-based number, in row order |
| UserBulk.FailingRowNumbersAscending | backend/internal/services/user_management.go:106-173 | the failing row numbers (a refused statement or no name) are ascending |
| UserBulk.FailingRowListed | backend/internal/services/user_management.go:117-168 | every failing row is among the numbers the per-row run reports |
| UserBulk.OutcomeCount | backend/internal/services/user_management.go:106-173 | in the per-row run every row is either reported as an error or returned |
| MarketingMix.UniqueChannelNames | backend/internal/services/mmm.go:278-292 | the result has no duplicates and holds exactly the prefixes of the keys longer than 6 characters that end in `_spend` |
| MarketingMix.SpendChannelsAdd | backend/internal/services/mmm.go:281-289 | one more key adds its channel exactly when it is a spend key |
| MarketingMix.SumValues | backend/internal/services/mmm.go:294-300 | the loop's total is the sum of the values |
| MarketingMix.SumShape | backend/internal/services/mmm.go:294-300 | the sum of an empty list is 0, and of a list is its head plus the sum of its tail |
| MarketingMix.NormalizeContributions | backend/internal/services/mmm.go:330-341 | the slice is rewritten in place to the normalised contributions |
| MarketingMix.NormalizedSumsTo100 | backend/internal/services/mmm.go:330-341 | with a positive total the contributions afterwards sum to 100 |
| MarketingMix.NormalizedKeepsProportions | backend/internal/services/mmm.go:336-340 | normalising keeps the contributions' proportions and changes no other field |
| MarketingMix.NonPositiveTotalUnchanged | backend/internal/services/mmm.go:336 | with a total of 0 or less the contributions are left unchanged |
| MarketingMix.Extremes | backend/internal/services/mmm.go:378-391 | the scan returns the channels at the best and worst index |
| MarketingMix.BestIsFirstMaximum | backend/internal/services/mmm.go:382-386 | the best channel has the highest ROI, and every channel before it a strictly lower one (ties go to the earliest, as `>` is strict) |
| MarketingMix.WorstIsFirstMinimum | backend/internal/services/mmm.go:387-390 | the worst channel has the lowest ROI, and every channel before it a strictly higher one |
| MarketingMix.DiversifyRecommendations | backend/internal/services/mmm.go:399-404 | the loop yields the specified diversify recommendations |
| MarketingMix.DiversifyOnly | backend/internal/services/mmm.go:399-404 | every diversify entry names a channel with contribution above 40 |
| MarketingMix.DiversifyComplete | backend/internal/services/mmm.go:399-404 | every channel with contribution above 40 gets a diversify entry |
| MarketingMix.GenerateRecommendations | backend/internal/services/mmm.go:373-408 | the method returns exactly the specified recommendations |
| MarketingMix.RecommendationShape | backend/internal/services/mmm.go:374-396 | no channels give no recommendations; otherwise the first increases the budget of the highest-ROI channel, and a reduce-spend entry follows exactly when some ROI is below 50 |
| RateLimit.Min | backend/internal/middleware/ratelimit.go:96-101 | `min(a, b)` is one of its arguments and no larger than either |
| RateLimit.TokensToAdd | backend/internal/middleware/ratelimit.go:79-80 | the tokens earned are the whole tokens of `elapsed * rate`, truncated: never negative, never more than earned |
| RateLimit.NothingEarnedAtOnce | backend/internal/middleware/ratelimit.go:79-80 | no time elapsed earns no token, whatever the rate |
| RateLimit.RefillEffect | backend/internal/middleware/ratelimit.go:78-86 | a positive refill sets tokens to `min(tokens + earned, burst)` and moves `lastSeen` to now; otherwise the bucket is unchanged; tokens never drop and stay at most `burst` |
| RateLimit.DecideEffect | backend/internal/middleware/ratelimit.go:88-93 | a request is allowed exactly when the refilled bucket holds a token; an allowed request takes exactly one, a denied one none |
| RateLimit.DecideKeepsRange | backend/internal/middleware/ratelimit.go:78-93 | requests keep the tokens between `min(0, burst)` and `burst` |
| RateLimit.TokensStayBounded | backend/internal/middleware/ratelimit.go:81-93 | starting from `0 <= tokens <= burst`, tokens stay in `[0, burst]` |
| RateLimit.BurstThenDeny | backend/internal/middleware/ratelimit.go:78-93 | `k` requests at the instant of the last refill take one token each until none is left, after which the bucket stays empty |
| RateLimit.Visitor.Request | backend/internal/middleware/ratelimit.go:78-93 | the visitor's fields are refilled and a token taken exactly as specified, and the decision is returned |
| RateLimit.RateLimiter.constructor | backend/internal/middleware/ratelimit.go:26-38 | a new limiter has no visitors and keeps rate and burst |
| RateLimit.RateLimiter.GetVisitor | backend/internal/middleware/ratelimit.go:55-71 | a known IP's visitor is returned; a new IP gets a fresh visitor with `burst` tokens, seen now |
| RateLimit.RateLimiter.Allow | backend/internal/middleware/ratelimit.go:73-94 | the IP's bucket (a full one on first sight) makes the specified decision; every other visitor is unchanged and every bucket stays in range |
| SettingsPage.LeadingDigits | frontend/src/pages/Settings.js:409-412 | `parseInt` reads the longest run of digits of the radix from the front |
| SettingsPage.ParseIntDecimal | frontend/src/pages/Settings.js:409-412 | `parseInt` of a decimal numeral, signed or not, gives back its number |
| SettingsPage.ParseIntNumeral | frontend/src/pages/Settings.js:409-412 | a numeral followed by text that is not a digit stops at the text, with either sign |
| SettingsPage.ParseIntNoDigit | frontend/src/pages/Settings.js:409-412 | text that starts with no digit or sign parses to NaN |
| SettingsPage.HeaderKeyShape | frontend/src/pages/Settings.js:395-403 | a header key holds no whitespace and no upper-case ASCII letter |
| SettingsPage.UnderscoreUnchangedChars | frontend/src/pages/Settings.js:403 | replacing whitespace runs only introduces `_` |
| SettingsPage.RowObject | frontend/src/pages/Settings.js:401-404 | a row object has a key for exactly the header keys |
| SettingsPage.RowObjectCell | frontend/src/pages/Settings.js:402-404 | each key holds the trimmed cell under its last header, or "" when the line is short |
| SettingsPage.NullIfEmpty | frontend/src/pages/Settings.js:408-414 | an empty value becomes null and nothing else does |
| SettingsPage.UserOf | frontend/src/pages/Settings.js:405-415 | a line fails (the `split` of an undefined email throws) exactly when it has no name and there is no email column |
| SettingsPage.NameFallback | frontend/src/pages/Settings.js:407 | without a name, the name is the email up to its first `@` |
| SettingsPage.UserDefaults | frontend/src/pages/Settings.js:407-414 | a given name is kept; an empty type becomes `product_user`; empty phone and location become null; an id is present only when its cell is not empty |
| SettingsPage.ParseUpload | frontend/src/pages/Settings.js:393-416 | the loop over the lines returns exactly the specified upload |
| SettingsPage.ParseLine | frontend/src/pages/Settings.js:399-415 | one iteration of the loop extends the users, or stops with the line's error |
| SettingsPage.ErrorStops | frontend/src/pages/Settings.js:405-407 | an error aborts the whole upload |
| SettingsPage.OnePerLine | frontend/src/pages/Settings.js:398-416 | one user record per non-blank line after the header |
| SettingsPage.EmailColumnSucceeds | frontend/src/pages/Settings.js:398-416 | with an email column every line parses |
| SettingsPage.Without | frontend/src/pages/Settings.js:487 | the filter removes every occurrence of the code name and keeps all others |
| SettingsPage.ToggleFlips | frontend/src/pages/Settings.js:483-490 | toggling flips the code name's membership and keeps every other one |
| SettingsPage.WithoutAbsent | frontend/src/pages/Settings.js:487 | filtering out an absent name changes nothing |
| SettingsPage.ToggleTwiceAbsent | frontend/src/pages/Settings.js:483-490 | toggling an absent name twice restores the list |
| SettingsPage.ToggleTwicePresent | frontend/src/pages/Settings.js:483-490 | toggling a present name twice gives the same members, with the name moved to the end |
| SettingsPage.ToggleTwiceReorders | frontend/src/pages/Settings.js:483-490 | `["a", "b"]` toggled twice on "a" becomes `["b", "a"]` |
| SettingsPage.SavedPassword | frontend/src/pages/Settings.js:341-365 | an edit sends the password exactly when it is non-empty; a create always sends the form's password |
| ProfilePage.InitialsDefault | frontend/src/pages/Profile.js:192 | an empty or absent name gives `U` |
| ProfilePage.InitialsOfParts | frontend/src/pages/Profile.js:193-196 | with two or more space-separated parts, the initials are the upper-cased first characters of the first and the last part |
| ProfilePage.OuterPartsNonEmpty | frontend/src/pages/Profile.js:193-195 | the outer parts of a trimmed name are never empty |
| ProfilePage.InitialsOfOnePart | frontend/src/pages/Profile.js:197 | with one part, the initial is the upper-cased first character of the name as given |
| ProfilePage.InitialsOfPaddedWord | frontend/src/pages/Profile.js:193-197 | the untrimmed first character is used: " bo" gives a blank initial |
| ProfilePage.NameSplitRoundTrip | frontend/src/pages/Profile.js:86-87 | without stored names, first name, a space and last name give the name back; a name without a space is all first name |
| ProfilePage.StoredNamesWin | frontend/src/pages/Profile.js:86-87 | stored first and last names win over the split |
| ProfilePage.CheckPasswordChange | frontend/src/pages/Profile.js:133-141 | a change is accepted exactly when the two passwords match and have at least 6 characters |
| ProfilePage.MismatchFirst | frontend/src/pages/Profile.js:133-141 | a mismatch is reported whatever the length; too short only when they match |

## Findings

| source | as written | input that shows it | evidently intended | confidence | as-written member | corrected member |
|---|---|---|---|---|---|---|
| backend/internal/services/permissions.go:101-107 | the role's `code_names` (`text[]`) is read into a plain `[]string`, which `database/sql` cannot scan, so the call fails | any active `product_user` whose role exists | read it as `pq.StringArray`, as the role service does, and return the role's code names | high, not executed | Permissions.PermissionsUnreadable | Permissions.GetUserPermissionsFixed |
| backend/internal/services/user_management.go:100-177 | all rows share one transaction; after a row's statement fails, PostgreSQL refuses the later statements and the commit, so nothing is stored and only the commit error comes back | two rows into an empty tenant, the first without a name | each row in a savepoint of its own: a failing row records its error and the others are stored | high, not executed | UserBulk.RowFailureDiscardsOthers | UserBulk.BulkCreateUsersPerRow |
| backend/internal/services/team_management.go:167-179, 372-390 | the member ids go to `ANY($3)` as a bare `[]int64`, which the driver refuses, so every non-empty member list fails `CreateTeam` and `UpdateTeam`, and `AddTeamMembers` fails for every existing team, even with an empty list | `CreateTeam` of one team with members `[7]` and no vendor | pass `pq.Array(memberIDs)`, as the role service does, and assign the listed users | high, not executed | TeamManagement.MembersRefusedAsWritten | TeamManagement.UpdateMembers |
| backend/internal/services/attribution.go:127-141 | the event types go to `ANY($2)` as a bare `[]string`, so the conversion query fails and the run stays `running` with no rows | a run whose stored config is `{"event_types":["purchase"]}` | pass `pq.Array(config.EventTypes)` and attribute the tenant's conversions of those types | high, not executed | Attribution.EventTypesSurviveStorage | Attribution.EventTypeSelection |

Where the code and the documented intent of the service differ, the model follows the code:
- `GetUserPermissions` and `HasAnyPermission` fail for every user past the gates, and `BulkCreateUsers` loses the whole upload after one failing row. Team member lists and attribution event-type filters fail at the driver. All are modelled as written, with the intended versions beside them (see Findings).
- `IngestConversion` with no identifiers still calls `FindOrCreateCustomer`, whose failed lookup falls through to creating a customer with no identifiers; it is not rejected as invalid input.
- A run created from a config without `time_window_hours` stores 0, the Go zero value. The 72-hour default applies only when the stored JSON lacks the key.
- `togglePermission` applied twice restores the list only when the code name was absent. A present name comes back at the end of the list (`ToggleTwiceReorders`).
- Setting `user_type` to `observer` in `UpdateUser` drops a supplied `role_id` from the request, which leaves the stored role in place rather than clearing it. The user still holds no permission.

## Left out
- SQL text, drivers and database I/O: tables are in-memory maps and sequences, transactions are all or nothing (in the bulk upload's single transaction, PostgreSQL refuses every statement after the first failing one), and a database fault that does not come from the data is modelled only where a property is about it (identifier inserts and bulk-create rows).
- BulkCreateUsers: the `name` column is taken to refuse NULL, since `User.Name` is a plain string (backend/internal/models/models.go:263) and `UpdateUser` writes "" rather than NULL; if it accepted NULL, a nameless row would be stored while its re-select or `RETURNING` scan failed, so its user would be missing from the result or reported as an error.
- BulkCreateUsers: a refused INSERT still draws a serial value in PostgreSQL; the model draws one only for a stored row. Failures of BEGIN, of the password hash and of the commit of an upload with no failing row are not modelled.
- Password hashing: bcrypt hashing and comparison are not modelled. A stored password stands for its hash, and `AuthenticateUser` is not part of this model.
- Randomness: `generatePassword` reads crypto/rand. The generated password is a parameter of `CreateUser` and `BulkCreateUsers`.
- Clocks: `time.Now` is a parameter (integer nanoseconds) wherever a timestamp is stored or a refill computed. `updated_at` columns are not modelled.
- Concurrency: the rate limiter's mutex and its cleanup goroutine, and races between concurrent `FindOrCreateCustomer` calls, are not modelled. Each method runs alone.
- Floating point: money, weights, ROI and scores are `real`, so rounding, NaN and infinities are not modelled. `TokensToAdd` truncates the exact product of elapsed seconds and rate; the source truncates a float64 product, whose rounding can land just below or above a whole token. `exp(-0.5)` in TIME_DECAY is an abstract ratio strictly between 0 and 1.
- MarketingMix: `runRegression`, `correlation` (a square root), the constant model-fit values, `getMarketingData` and the result persistence are not part of this model. `GenerateRecommendations` returns structured recommendations rather than the formatted English sentences, and the order of Go map iteration in `getUniqueChannelNames` is not fixed (only the set of names is stated).
- CalculateLeadScore: the active model arrives with its rules decoded, so the model states the score for any list of rules. The source cannot load such a list. `scoring_rules` is read into the services package's own `JSONB` type (backend/internal/services/lead_scoring.go:29), a map type (it is built with `make(JSONB)` and indexed by string at backend/internal/services/lead_scoring.go:162-164) whose definition is not part of this model. A stored JSON array cannot be read into a map. A stored JSON object is read, but its `json.Unmarshal` into `[]ScoringRule` fails (backend/internal/services/lead_scoring.go:124-133). Only NULL rules get through, and then the loop runs over no rules at all.
- CreateRole: an omitted `code_names` is a nil slice, which `pq.Array` sends as NULL; whether the INSERT then fails or stores a NULL that `CheckPermission` cannot scan depends on the `roles` schema, which is not part of this model. The model's request always carries a list (the Settings page always sends one).
- AddRestrictions: the source logs and skips a `role_teams` insert that fails (a team id with no team row, say); the model adds every listed restriction (a repeated id still gives one row, as the source does), so it does not capture a skipped row, while the returned role still lists every requested team id.
- LeadScoring: `getCustomerDataForScoring` (the customer's columns are a parameter) and the INSERT of the score are not modelled, nor are predictions and the read-only listing queries.
- Experiments: experiment and flag creation, updates and results queries are not modelled.
- IsFeatureEnabled: the customer id is passed but not consulted, because the source's rollout check returns true for any rollout strictly between 0 and 100.
- Read-only listing and detail queries (`GetTeam`, `ListTeams`, `GetRole`, `ListRoles`, `ListPermissions`, `GetUser`, `ListUsers`, `ListUseCases`) and `CreateUseCase`, a plain insert, are not part of this model.
- GetCustomerJourney: only the filtering and ordering of interactions and conversions are modelled, not the customer and identifier columns returned with them.
- Interaction metadata, raw conversion payloads and other JSONB columns are left out of the row types.
- Text: strings are sequences of characters, so JavaScript's UTF-16 lengths and Unicode case mapping are not modelled (case mapping is ASCII only; whitespace is JavaScript's full set). `parseInt` is modelled with an optional sign and either `0x`/`0X` hexadecimal or decimal digits, read as far as they go; its lemmas are about decimal numerals. Precision loss on very large numbers is not modelled.
- SettingsPage.SavedPassword: only the password key of the `handleSaveUser` payload is modelled; the other fields and the HTTP calls are not.
- SettingsPage.UserOf: the `TypeError` thrown when a line has neither a name nor an email column is modelled as an error that stops the upload.
- The HTTP handlers, middleware other than the rate limiter, configuration, the other analytics services and the React rendering, hooks and axios calls of the front end are not part of this model.
