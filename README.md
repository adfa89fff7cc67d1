# Governed infrastructure platform — a Dafny model

The platform lets an AI operations agent (and human operators) act on a
simulated infrastructure: restart, scale, shut down and deploy services;
create and resolve alerts; back up, restore and purge databases; and manage
users. Every governed action passes two gates. First, the caller's
authenticated name must equal the request's `agent_id`. Second, the policy
engine's `allow` must permit the action. The policy engine works like this:

- it binds the request to the caller's identity;
- administrators may do anything;
- a junior may restart a given service at most once per hour;
- juniors may manage users;
- anyone may create alerts and run data operations;
- everything else is denied.

A second, token-gated route runs registered tools by name, through a tool
registry. An orchestrator loop asks an agent for a plan, has it approved by a
governance service, and runs the plan's steps in order, stopping at the first
failure. Two helpers pull the JSON object out of the language model's text
output.

The model is split into one module per concern:

| file | module | models |
|---|---|---|
| common.dfy | `Common` | dictionary values and Python truthiness, `dict.get`, `str(n)`, list comprehensions as `Filter` |
| policy.dfy | `Policy` | `allow` and `consume_quota` over the restart history (a class holding that history) |
| governance.dfy | `Governance` | the identity check followed by `allow` that opens every governed endpoint |
| state.dfy | `Store` | the in-memory store: users, services, databases and alerts, with their add, update, delete, resolve and clear operations |
| registry.dfy | `Registry` | the tool registry: register, look up, list and execute |
| gateway.dfy | `McpServer` | token verification, the manifest, tool listing and token-gated tool execution |
| tools.dfy | `Tools` | the two registered tools, the simulated alert feed and alert listing |
| infra_endpoints.dfy | `InfraEndpoints` | restart, scale, shutdown, deploy and service lookup |
| alert_endpoints.dfy | `AlertEndpoints` | governed alert creation and resolution, typed listing and alert lookup |
| data_endpoints.dfy | `DataEndpoints` | backup, restore and purge |
| user_endpoints.dfy | `UserEndpoints` | create, revoke, change role and reset password |
| runner.dfy | `Orchestrator` | one orchestrator cycle and its step loop |
| extract.dfy | `Extraction` | the two JSON-extraction helpers |

Conventions:

- **Records.** A Python dictionary record is a `map<string, Value>`; `Value`
  holds strings, integers, booleans and `None`. `dict.update` is map union.
- **Errors.** An `HTTPException` is an `Err(HttpError(code, detail))`. A
  policy refusal carries its reason as data (`Reason`), not as a formatted
  string.
- **Clock.** The clock is a parameter. `now` is the time in seconds used by
  the policy window, and `stamp` is the ISO timestamp written into records.
- **Shared state.** The store and the policy engine are classes whose
  methods change their fields. Each endpoint method states the whole new
  state of both:
  - on a refusal, nothing in the store changes;
  - on success, the history is exactly what `consume_quota` makes of what
    the gate left.
- **Pure specifications.** `Policy.Decide` and `AllowedHistory` /
  `ConsumedHistory` specify the engine's methods. `Governance.Gate` and
  `GatedHistory` specify the gate. The policy lemmas are proved about these
  functions.

## Model

| member | source | states |
|---|---|---|
| Common.Get | backend/policy/engine.py:27 | `d.get(k)`: the stored value when the key is present, `None` otherwise |
| Common.GetOr | backend/policy/engine.py:44 | `d.get(k, default)`: the stored value when present, the default otherwise |
| Common.NatToString | backend/system/state.py:193 | `str(n)` for a natural number: a non-empty string of decimal digits, one digit exactly when `n < 10` |
| Common.NatToStringInjective | backend/system/state.py:193 | distinct numbers print differently, so distinct alert counts give distinct alert ids |
| Common.Filter | backend/system/state.py:211 | a list comprehension with a condition: what it keeps passes the test and comes from the input, and it is no longer than the input |
| Policy.PolicyEngine.constructor | backend/policy/engine.py:5 | the restart history starts empty |
| Policy.PolicyEngine.Allow | backend/policy/engine.py:7-88 | the decision and reason are `Decide` of the history before the call; the new history is `AllowedHistory` (only the junior restart path writes, the pruned list) |
| Policy.PolicyEngine.ConsumeQuota | backend/policy/engine.py:91-126 | the new history is `ConsumedHistory`: for a junior's restart of a named service, the pruned list plus `now`; otherwise unchanged |
| Policy.IdentityCheckedFirst | backend/policy/engine.py:25-29 | a given `agent_id` that differs from a present username is denied with an identity-mismatch reason, whatever the roles, and nothing is written |
| Policy.AdminBypass | backend/policy/engine.py:31-33 | without a mismatch, an admin or superadmin is permitted every action, a restart without `service_id` included, and nothing is written |
| Policy.JuniorRateLimit | backend/policy/engine.py:41-63 | a junior's restart is denied exactly when the key has an entry younger than 3600 seconds; a denial carries the junior-limit reason naming the service, and a permit carries the junior-access reason |
| Policy.AllowOnlyPrunes | backend/policy/engine.py:44-54 | after `allow`, the key's list is the old list's entries younger than the window, in order; every other key is unchanged |
| Policy.ConsumeRecords | backend/policy/engine.py:106-126 | consuming a junior restart sets the key's list to the pruned old list followed by `now`, leaving other keys alone |
| Policy.AllowThenConsume | backend/policy/engine.py:119-125 | pruning again in `consume_quota` is harmless: consuming after `allow`, at the same clock reading or a later one, gives what consuming alone gives |
| Policy.RecentTwice | backend/policy/engine.py:120-123 | pruning at one time and then at a later time keeps exactly what pruning at the later time keeps |
| Policy.ConsumeThenDenied | backend/policy/engine.py:42-58 | right after a recorded junior restart, another restart of the same key less than a window later is denied |
| Policy.ConsumeNoOp | backend/policy/engine.py:106-112 | `consume_quota` records nothing for other actions, a missing `service_id`, or a caller who is not a junior |
| Policy.DecisionTable | backend/policy/engine.py:35-88 | the per-action table for callers who are neither mismatched nor admins: a restart without `service_id` is denied as missing it, and a non-junior's restart is denied with the default per-role reason; alert creation and data actions are allowed; user actions are allowed for juniors only; everything else is denied by default |
| Policy.WindowExpiry | backend/policy/engine.py:46-63 | once every entry of the key is at least a window old, the junior's restart is permitted again |
| Policy.ServicesIndependent | backend/policy/engine.py:43-44 | the history is keyed per service: recording or pruning one service leaves the decision for another service unchanged |
| Governance.Authorize | mcp/infra.py:55-68 | a mismatched `agent_id` is a 403 "Identity mismatch" before `allow` runs; otherwise a refusal is a 403 "Policy denied" carrying the reason; the result and history are `Gate` and `GatedHistory` |
| Governance.GateOutcomes | mcp/infra.py:55-68 | which callers pass each action's gate: a mismatch never does; admins always do; anyone passes alert creation and data actions; user actions admit exactly juniors and admins and write no history |
| Governance.GateOnlyPrunes | backend/policy/engine.py:46-54 | the gate never adds history: every key keeps a subsequence of its old entries |
| Store.SystemState.constructor | backend/system/state.py:34-101 | the store starts with the sample users, services and database, and no alerts; every record carries its id |
| Store.SampleUsersFacts | backend/system/state.py:34-55 | the sample users are root (superadmin), alice (admin) and bob (junior) |
| Store.SampleServicesFacts | backend/system/state.py:58-97 | the sample services auth, payments and db are running and healthy; the one sample database is prod_db |
| Store.SampleRecordsCarryIds | backend/system/state.py:34-97 | every sample user, service and database record carries its `id` |
| Store.SystemState.AddUser | backend/system/state.py:110-115 | the id now maps to the data with its id and `created_at` written in, replacing any earlier entry; the other tables are unchanged |
| Store.SystemState.UpdateUser | backend/system/state.py:117-122 | a present user's record is merged with the updates and returned; an absent id returns `None` and changes nothing |
| Store.SystemState.DeleteUser | backend/system/state.py:124-129 | the id is removed; the result says whether it was present |
| Store.SystemState.AddService | backend/system/state.py:138-143 | as `AddUser`, stamping `started_at` |
| Store.SystemState.UpdateService | backend/system/state.py:145-150 | as `UpdateUser`, for services |
| Store.SystemState.DeleteService | backend/system/state.py:152-157 | as `DeleteUser`, for services |
| Store.SystemState.AddDatabase | backend/system/state.py:166-171 | as `AddUser`, for databases |
| Store.SystemState.UpdateDatabase | backend/system/state.py:173-178 | as `UpdateUser`, for databases |
| Store.SystemState.DeleteDatabase | backend/system/state.py:180-185 | as `DeleteUser`, for databases |
| Store.AddOverwrites | backend/system/state.py:110-115 | after an add, the id holds the caller's data plus its id and timestamp, whatever was stored before; other ids are untouched |
| Store.UpdateMerges | backend/system/state.py:117-122 | an update overwrites exactly the given keys of the one record, keeps its other keys, and touches no other record; an absent id changes nothing |
| Store.DeleteRemoves | backend/system/state.py:124-129 | a delete leaves the id absent and every other entry as it was |
| Store.AddMergeDeleteRestores | backend/system/state.py:110-129 | adding a new id, updating it and deleting it gives back the original table |
| Store.SystemState.AddAlert | backend/system/state.py:191-197 | the alert is appended with id `alert_<count+1>`, `created_at`, and `resolved` false; the other tables are unchanged |
| Store.FirstWithId | backend/system/state.py:201-205 | the position the resolve loop stops at: the first alert with the id, or none when no alert has it |
| Store.SystemState.ResolveAlert | backend/system/state.py:199-206 | the first alert with the id gets `resolved` true and `resolved_at`, and is returned; with no match, `None` and no change |
| Store.SystemState.ClearResolvedAlerts | backend/system/state.py:208-212 | the alert list becomes its open alerts, in order; the result is how many were dropped |
| Store.ClearKeepsOpen | backend/system/state.py:208-212 | clearing keeps an alert exactly when it is open, keeps the order, and drops as many alerts as are resolved |
| Store.AlertIdInjective | backend/system/state.py:193 | two counts give the same alert id only when they are equal |
| Store.NumberedIdsDistinct | backend/system/state.py:193 | in a list built by `add_alert`, no two alerts share an id |
| Store.NumberedAfterAdd | backend/system/state.py:191-197 | `add_alert` keeps position i holding `alert_<i+1>` |
| Store.NumberedAfterResolve | backend/system/state.py:199-206 | resolving keeps the numbering |
| Store.ClearThenAddRepeatsId | backend/system/state.py:193 | after a resolved `alert_1` is cleared while `alert_2` stays open, the next alert is numbered `alert_2` again, because ids come from the current length |
| Registry.ToolRegistry.constructor | backend/mcp/registry.py:19-21 | the registry starts with no tools and no definitions |
| Registry.ToolRegistry.Register | backend/mcp/registry.py:23-32 | the name maps to the handler and its definition, replacing an earlier one; a new name joins the end of the listing order; the decorator returns the function unchanged |
| Registry.ToolRegistry.GetTool | backend/mcp/registry.py:34-35 | the handler when registered, `None` otherwise |
| Registry.ValuesInOrder | backend/mcp/registry.py:37-38 | the dictionary's values in key-insertion order, one per key |
| Registry.ToolRegistry.ListTools | backend/mcp/registry.py:37-38 | every definition exactly once, in first-registration order; a name is listed exactly when it is registered |
| Registry.ToolRegistry.Execute | backend/mcp/registry.py:40-44 | an unknown name raises `ValueError("Tool '<name>' not found")`; a known one runs its handler on the parameters |
| Registry.ReRegisterReplaces | backend/mcp/registry.py:23-32 | registering a name twice keeps the second handler and lists the name once, with the second definition |
| McpServer.VerifyToken | backend/mcp/main.py:53-62 | a token passes exactly when it is non-empty and not `invalid-token` |
| McpServer.GetMeta | backend/mcp/main.py:70-79 | the manifest names the server and version, the scopes infra and alerts, and lists the registry's tools |
| McpServer.ListToolsEndpoint | backend/mcp/main.py:81-86 | one entry per registered definition, covering exactly the registered names |
| McpServer.ExecuteTool | backend/mcp/main.py:88-123 | `execute_tool`: a rejected token is a 401 or 403; a success means the tool is registered and its handler returned exactly that value; the full response table is `ExecuteToolResponses` |
| McpServer.ExecuteToolResponses | backend/mcp/main.py:88-123 | for each case, exactly which response comes back: 401 for a missing token; 403 for an invalid one; 404 for an unknown tool; success with the handler's value; 400 with a `ValueError`'s message; 500 for any other error |
| McpServer.RejectedTokenRunsNothing | backend/mcp/main.py:96-101 | a rejected token gets a 401 or 403 that no registry or handler can change |
| McpServer.UnknownToolRunsNothing | backend/mcp/main.py:104-107 | an unknown tool gets a 404 whatever the handlers would do |
| McpServer.EndpointAgreesWithRegistry | backend/mcp/main.py:104-123 | with a valid token and a registered tool, the endpoint's answer is exactly the registry's `execute` outcome translated to HTTP (an unknown name is `UnknownToolRunsNothing`'s 404) |
| Tools.DeclaredParameters | backend/mcp/infra.py:19-26 | restart declares a required `service_id` and an optional `user_email`; resolve requires `alert_id` and `resolution_note`, and `user_email` is optional |
| Tools.RegisterTools | backend/mcp/infra.py:19-26 | loading the two tool modules registers the restart and resolve handlers, listed in that order |
| Tools.RestartServiceTool | backend/mcp/infra.py:27-49 | a missing `service_id` is an argument error; an unknown service raises `ValueError("Service <id> not found")`; otherwise the service becomes running and healthy, and the reply carries the message and the stored record; extra parameters are ignored |
| Tools.RestartToolEffect | backend/mcp/infra.py:36-40 | a restarted service is running and healthy, keeps its other fields, and no other service changes |
| Tools.ResolveAlertTool | backend/mcp/alerts.py:28-53 | corrected tool: a missing argument is an argument error; an unknown alert raises "Alert <id> not found", an already resolved one "Alert <id> already resolved"; otherwise the first matching alert is resolved with status, resolver and note |
| Tools.ResolveToolEffect | backend/mcp/alerts.py:40-44 | a tool-resolved alert keeps its id and records resolved, `status` "resolved", the resolver's email and the note |
| Tools.ResolveAlertToolAsWritten | backend/mcp/alerts.py:32 | as written, the tool's first store call raises an error that is not a `ValueError`, for every input |
| Tools.ResolveAsWrittenAlwaysFails | backend/mcp/alerts.py:32 | through the execute endpoint, every valid-token call of the resolve tool as written ends in a 500 |
| Tools.CreateSimulatedAlert | backend/mcp/alerts.py:66-87 | with no identity or policy check, the simulator's alert is appended with the next id; the reply names that id and carries the stored alert |
| Tools.SimulatedAlertShape | backend/mcp/alerts.py:72-79 | a simulated alert is open, unresolved, created by the simulator, and carries the request's type, message and severity |
| Tools.ListAlerts | backend/mcp/alerts.py:91-104 | the listing keeps exactly the alerts that pass the status and the severity tests, in store order; `total` is its length |
| Tools.ListingIsOneFilter | backend/mcp/alerts.py:96-102 | the two successive comprehensions keep what the single combined test keeps |
| Tools.ListAlertsSpec | backend/mcp/alerts.py:91-104 | an alert is listed exactly when it is in the store and passes both tests; with no filters every alert is listed |
| Tools.OpenAndResolvedPartition | backend/mcp/alerts.py:96-99 | the open listing and the resolved listing together count every alert once |
| InfraEndpoints.RestartService | mcp/infra.py:50-95 | gate refusal or unknown service: the error, and the store unchanged; otherwise the service is merged with running, healthy and `restarted_at`; the quota is consumed; the reply carries the stored record |
| InfraEndpoints.ScaleService | mcp/infra.py:98-131 | as restart, writing the replica count and reporting the old one; no quota is recorded |
| InfraEndpoints.ShutdownService | mcp/infra.py:134-165 | as restart, writing stopped and offline |
| InfraEndpoints.DeployService | mcp/infra.py:168-204 | an id already in use is a 400 and nothing is overwritten; otherwise the new service is added running, healthy, with one replica and the requested version |
| InfraEndpoints.GetService | mcp/infra.py:214-220 | the stored service record, or a 404 exactly when the id is absent |
| InfraEndpoints.RestartedServiceState | mcp/infra.py:75-79 | a restarted service is running and healthy and keeps every other field |
| InfraEndpoints.ShutdownServiceState | mcp/infra.py:134-165 | a shut-down service is stopped and offline |
| InfraEndpoints.DeployedServiceState | mcp/infra.py:168-204 | a deployed service carries its id, name, port and version, with one replica, running and healthy |
| InfraEndpoints.DeployVersionDefault | mcp/infra.py:46 | a deploy request without a version asks for "1.0.0" |
| InfraEndpoints.ScaleDefaultsToOne | mcp/infra.py:98-131 | scaling reports one old replica for a service that never recorded a count |
| InfraEndpoints.JuniorRestartGates | backend/policy/engine.py:42-58 | on an empty history, the junior's first restart of db passes the gate and a second one within the hour meets the junior limit |
| InfraEndpoints.JuniorSecondRestartBlocked | test_auth_and_policy.py:155-169 | the junior's first restart of db succeeds and the second, within the hour, is a 403 junior-limit refusal |
| InfraEndpoints.SpoofedRestartBlocked | test_auth_and_policy.py:178-193 | a junior's token used with the admin's `agent_id` is a 403 identity mismatch, and no history is written |
| AlertEndpoints.FindAlert | mcp/alerts.py:91-96 | the search loop's result is the first alert with the id, or none |
| AlertEndpoints.CreateAlert | mcp/alerts.py:36-74 | under the gate: on a mismatch, a 403 and no change; otherwise the caller's alert is appended with the next id; every matching caller passes and no quota is recorded |
| AlertEndpoints.ResolveAlert | mcp/alerts.py:77-124 | a gate refusal, an unknown alert (404) or an already resolved alert (400) changes nothing; otherwise the first matching alert is resolved by the caller, with the note only when one was given |
| AlertEndpoints.ResolveAt | backend/system/state.py:199-206 | the store resolves the first matching alert in place, and the endpoint's own fields are written into that same alert; nothing else changes |
| AlertEndpoints.EndpointResolutionShape | mcp/alerts.py:104-110 | an endpoint-resolved alert is resolved, carries the resolver's name, and has a note exactly when one was given |
| AlertEndpoints.ListAlerts | mcp/alerts.py:127-148 | the typed listing is exactly the store's alerts that pass the typed status and severity tests, in store order and with repeats kept; `total` is its length |
| AlertEndpoints.TypedFiltersAgree | mcp/alerts.py:127-148 | passing the typed filters by their names to the untyped listing tests the same alerts |
| AlertEndpoints.GetAlert | mcp/alerts.py:151-157 | the first alert with the id, or a 404 exactly when none has it |
| AlertEndpoints.CreateThenResolve | mcp/alerts.py:36-124 | the create-then-resolve sequence that test_system.py runs as root, here with the admin alice: the created alert is `alert_1` and resolves to resolved by alice; a second resolve of it is a 400 "already resolved" |
| DataEndpoints.BackupDatabase | mcp/data.py:39-81 | a gate refusal or an unknown database changes nothing; otherwise the backup count goes up by one and the backup name and time are recorded; a stored count that is not a number raises, and nothing changes |
| DataEndpoints.RestoreDatabase | mcp/data.py:84-126 | a gate refusal or an unknown database changes nothing; otherwise the database is healthy and records the restored backup |
| DataEndpoints.PurgeDatabase | mcp/data.py:129-177 | a gate refusal, an unknown database (404), or an unconfirmed purge (400, checked only after existence) changes nothing; otherwise the database is emptied and the reply reports the old size |
| DataEndpoints.DataActionsOpenToAll | backend/policy/engine.py:69-71 | every caller whose identity matches passes the gate of a data action, and no data action records quota |
| DataEndpoints.BackupCountsUp | mcp/data.py:64 | the backup count starts at zero and goes up by one |
| DataEndpoints.BackupNameChoice | mcp/data.py:58 | the backup name is the requested one when it is non-empty, the generated one otherwise |
| DataEndpoints.RestoredState | mcp/data.py:106-110 | a restored database is healthy and remembers its backup |
| DataEndpoints.PurgedState | mcp/data.py:153-161 | a purged database is empty with zero megabytes; the reported old size is zero when none was stored |
| DataEndpoints.PurgeConfirmDefault | mcp/data.py:32-35 | a purge request without `confirm` does not confirm |
| DataEndpoints.UnconfirmedPurgeRefused | mcp/data.py:147-151 | an unconfirmed purge of prod_db is a 400 and leaves prod_db as it was |
| DataEndpoints.UnknownDatabaseBeforeConfirmation | mcp/data.py:143-151 | an unconfirmed purge of an absent database is a 404, because existence is checked first |
| UserEndpoints.CreateUser | backend/mcp/users.py:50-85 | a gate refusal or an id in use (400) changes nothing; otherwise the user is added with the requested role and `created_at` |
| UserEndpoints.RevokeUser | backend/mcp/users.py:88-118 | a gate refusal or an unknown user (404) changes nothing; otherwise the user is removed |
| UserEndpoints.ChangeRole | backend/mcp/users.py:121-156 | a gate refusal or an unknown user changes nothing; otherwise the role is replaced and the reply reports the old role |
| UserEndpoints.ResetPassword | backend/mcp/users.py:159-183 | a simulated reset: a gate refusal or an unknown user is an error, otherwise success; the store never changes and no quota is recorded |
| UserEndpoints.UserActionsGate | backend/policy/engine.py:73-85 | with matching identity, a user action passes the gate exactly when the caller is a junior or an admin; no history is written |
| UserEndpoints.ReadOnlyRefused | backend/policy/engine.py:85 | a read-only caller's user action is a 403 carrying the default denial reason |
| UserEndpoints.CreateRoleDefault | backend/mcp/users.py:19-24 | a create request without a role creates a junior |
| UserEndpoints.OldRoleDefault | backend/mcp/users.py:140 | change-role reports "unknown" for a user with no recorded role |
| UserEndpoints.JuniorManagesUser | backend/mcp/users.py:50-156 | the junior sample user creates, re-roles and revokes a user, all three succeed, and the user table ends as it began |
| Orchestrator.Normalise | backend/orchestrator/runner.py:116-119 | a reply that is not a dictionary becomes the "Error" plan with no steps and the raw text; a dictionary is kept |
| Orchestrator.RunFrom | backend/orchestrator/runner.py:152-187 | the step log: every entry but the last succeeded; every entry has a truthy action; there are at most as many entries as actionable steps |
| Orchestrator.ExecuteSteps | backend/orchestrator/runner.py:148-187 | the execution loop produces exactly `RunFrom` from the first step |
| Orchestrator.ExecuteCycle | backend/orchestrator/runner.py:92-192 | the four exits. A token failure is "Authentication failed: ..."; a plan without steps is "No steps" with nothing run; a governance failure is "blocked" with the error recorded; otherwise the status is success with approval recorded and the log of the plan's steps |
| Orchestrator.SkippedStepAddsNothing | backend/orchestrator/runner.py:153-155 | a step without an action adds nothing to the log |
| Orchestrator.NothingRunsAfterFailure | backend/orchestrator/runner.py:178-185 | once a step fails, later invocations make no difference to the log, and the log ends in a failure |
| Orchestrator.AllAnsweredRunsAll | backend/orchestrator/runner.py:152-187 | when every actionable step answers, each one is logged as a success, one entry per actionable step |
| Orchestrator.FirstStepFails | backend/orchestrator/runner.py:178-185 | a failing first step is the only log entry |
| Orchestrator.MalformedReplyRunsNothing | backend/orchestrator/runner.py:117-126 | a malformed reply has no steps, so the cycle stops at "No steps" |
| Orchestrator.MissingParamsAreEmpty | backend/orchestrator/runner.py:161 | a step without params is invoked with an empty dictionary |
| Orchestrator.FailureStillSucceeds | backend/orchestrator/runner.py:178-192 | a cycle whose first step fails still ends with status "success", and the one failure is in its log |
| Extraction.DropSpaces | agent_basic.py:119 | leading-whitespace strip: removes a prefix made only of whitespace and leaves no whitespace in front |
| Extraction.DropTrailingSpaces | agent_basic.py:119 | trailing-whitespace strip: the mirror of `DropSpaces` |
| Extraction.RemoveEvery | backend/agent/llm.py:17-18 | removing every occurrence of a fence (and, for the regular expressions, the whitespace after it) never lengthens the text |
| Extraction.FirstIndex | backend/agent/llm.py:21 | `find`: the first position of the character, or none exactly when it is absent |
| Extraction.LastIndex | backend/agent/llm.py:22 | `rfind`: the last position of the character, or none exactly when it is absent |
| Extraction.Backtrack | agent_basic.py:120 | the greedy `.*`: the last `}` after the opening brace, or none if there is none |
| Extraction.SearchFrom | agent_basic.py:120 | `re.search`: the leftmost start of a match and its greedy end, or none exactly when no `{` is followed by a `}` |
| Extraction.ExtractJson | backend/agent/llm.py:14-27 | `extract_json`: a failure carries "No JSON object found in output", and an extracted object is no longer than the text; its lemmas add that it runs from the first `{` to the last `}` of the cleaned text and fails exactly when the text has no `{` before a `}` |
| Extraction.ExtractJsonBasic | agent_basic.py:117-123 | the second `extract_json`: the same failure message and length bound; its lemmas prove it equal to first-`{`-to-last-`}` slicing of its own cleaning, failing exactly when the first helper does |
| Extraction.SliceBracesSpec | backend/agent/llm.py:20-27 | the slice exists exactly when some `{` comes before some `}`; it runs from the first `{` to the last `}`; otherwise `ValueError("No JSON object found in output")` |
| Extraction.FoundIsBraced | backend/agent/llm.py:14-27 | an extracted object starts with `{` and ends with `}` |
| Extraction.BasicFoundIsBraced | agent_basic.py:117-123 | the same for the second helper |
| Extraction.SearchAgreesWithSlice | agent_basic.py:120 | the regular-expression search finds the same text as first-`{`-to-last-`}` slicing |
| Extraction.BasicIsSlice | agent_basic.py:117-123 | the second helper is first-`{`-to-last-`}` slicing applied to its own cleaning |
| Extraction.FoundIsSubstring | backend/agent/llm.py:27 | what either helper returns is a contiguous piece of its cleaned text |
| Extraction.CleaningKeepsBraces | backend/agent/llm.py:17-18 | neither cleaning adds or removes a brace: the braces of the text, in order, are unchanged |
| Extraction.ExtractorsFailAlike | agent_basic.py:121-122 | both helpers raise exactly when the original text has no `{` before a `}`, with the same message |
| Extraction.CleanKeepsBare | backend/agent/llm.py:17-18 | text without backticks or surrounding whitespace is left unchanged by both cleanings |
| Extraction.BareObjectUnchanged | backend/agent/llm.py:14-27 | a bare object from `{` to `}` with no backticks is returned unchanged by both helpers |

## Left out

- Authentication: JWT decoding and the identity provider are not modelled.
  The authenticated caller is the `CurrentUser` parameter. The orchestrator's
  token request is a parameter, an answer or a failure.
- No capability-token authority: intent tokens are checked only as
  `verify_armoriq_token` checks them, by value.
- Network, language-model and governance-service calls are parameters, as
  are the agent's plan and each step's invocation outcome. The orchestrator's
  `get_state`, the state summary and the prompt are not modelled: they only
  feed one plan, and the plan is a parameter.
- The orchestrator's `cycle_id` and timestamps are left out. The `stages`
  entries for auth and state are not recorded.
- Orchestrator.ExecuteCycle: a plan step that is not a dictionary would crash
  `step.get`. Steps are always records here, so that crash is not modelled.
- Logging and the audit log (`log_action`) are not modelled. Neither are the
  store's lock and the module-level singleton; the model is sequential.
- The clock is left out: `datetime.now()` becomes the parameters `now`
  (seconds) and `stamp` (the ISO string written into records). An endpoint
  passes one `now` to both `allow` and `consume_quota`, where the source reads
  the clock in each; `Policy.AllowThenConsume` shows a later second reading
  gives the same history.
- Pydantic request validation (the `Literal` alert types and severities, and
  `extra = "ignore"`) is not modelled. Typed requests are datatypes, and the
  typed alert endpoint uses enumerations for status and severity.
- The read-only listing endpoints (`list_services`, `list_users`, `get_user`,
  `list_databases`, `get_database`, `get_users`, `get_services`,
  `get_databases`, `get_alerts`) return a table unchanged and are not modelled
  as separate members. The store's `get_*` lookups are modelled as functions
  without contracts. The health endpoint is left out.
- Policy.PolicyEngine.Allow: the reason is the datatype `Reason` rather than
  the formatted sentence, and denial details carry it the same way.
- Policy.PolicyEngine.Allow: the history key is `(Option<string>, Value)`.
  The username may be absent for a dictionary actor, and the `service_id` is
  whatever value the parameters hold.
- Policy.PolicyEngine.Allow: timestamps are integer seconds, so the strict
  `< 3600` test is exact. Python's `total_seconds()` is a float with
  sub-second precision.
- Extraction.DropSpaces: whitespace is the set of characters Python's
  `str.isspace` accepts. `\s` in the regular expressions is taken to be the
  same set.
- Extraction.SearchFrom: only the one pattern `\{.*\}` with `DOTALL` is
  modelled, not a general regular-expression engine.
- Tools.RestartServiceTool and Tools.ResolveAlertTool: positional calling and
  type errors from wrongly typed arguments are not modelled. Keyword
  arguments are the parameter dictionary, and a missing required one is the
  argument error.

## Findings

| source | as written | input that shows it | evidently intended | confidence | as-written member | corrected member |
|---|---|---|---|---|---|---|
| backend/mcp/alerts.py:32 | the `alert.resolve` tool calls `state.get_alert`; the store has no such method, so every call raises `AttributeError` and the execute endpoint answers 500 | any call of `alert.resolve` with a valid token, e.g. `alert_id` "alert_1" and note "fixed" | look the alert up by id in the store's alert list (first match), as `resolve_alert` itself does | not executed | Tools.ResolveAsWrittenAlwaysFails | Tools.ResolveAlertTool |
