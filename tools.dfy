/**
 * The registered MCP tools (backend/mcp/infra.py, backend/mcp/alerts.py):
 * `infra.restart` and `alert.resolve`, called with keyword arguments taken
 * from the request's parameter dictionary, plus the simulated alert
 * creation and the alert listing of the same router.
 */
module Tools {
  import opened Common
  import opened Store
  import opened Registry
  import opened McpServer

  /** A tool's result dictionary: its status, its message and the record it acted on. */
  datatype ToolReply = ToolReply(status: string, message: string, record: Record)

  /** The two handlers the tool modules register. */
  datatype Handler = RestartHandler | ResolveHandler

  /** Calling a handler without one of its required keyword arguments. */
  const MissingArgument := Raised(OtherError("TypeError"))

  // ----- Registration -----

  const RestartDefinition := ToolDefinition("infra.restart", "Restart a service by ID", [
    ToolParameter("service_id", "string", "ID of the service to restart"),
    ToolParameter("user_email", "string", "Email of the user performing the action", required := false)
  ])

  const ResolveDefinition := ToolDefinition("alert.resolve", "Resolve an alert by ID", [
    ToolParameter("alert_id", "string", "ID of the alert to resolve"),
    ToolParameter("resolution_note", "string", "Note explaining the resolution"),
    ToolParameter("user_email", "string", "Email of the user performing the action", required := false)
  ])

  /** The parameters each tool declares, and which of them are required. */
  lemma DeclaredParameters()
    ensures RestartDefinition.parameters[0].name == "service_id" && RestartDefinition.parameters[0].required
    ensures RestartDefinition.parameters[1].name == "user_email" && !RestartDefinition.parameters[1].required
    ensures forall k :: 0 <= k < 2 ==> ResolveDefinition.parameters[k].required
    ensures ResolveDefinition.parameters[2].name == "user_email" && !ResolveDefinition.parameters[2].required
  {
  }

  /** Importing the infrastructure module and then the alerts module registers both tools, in that order. */
  method RegisterTools() returns (reg: ToolRegistry<Handler>)
    ensures fresh(reg) && reg.Valid()
    ensures reg.tools == map["infra.restart" := RestartHandler, "alert.resolve" := ResolveHandler]
    ensures reg.ListTools() == [RestartDefinition, ResolveDefinition]
  {
    reg := new ToolRegistry<Handler>();
    var r := reg.Register(RestartDefinition.name, RestartDefinition.description, RestartDefinition.parameters, RestartHandler);
    var a := reg.Register(ResolveDefinition.name, ResolveDefinition.description, ResolveDefinition.parameters, ResolveHandler);
    assert reg.order == ["infra.restart", "alert.resolve"];
    TwoValuesInOrder(reg.definitions, "infra.restart", "alert.resolve");
  }

  lemma TwoValuesInOrder(defs: map<string, ToolDefinition>, a: string, b: string)
    requires a in defs && b in defs
    ensures ValuesInOrder(defs, [a, b]) == [defs[a], defs[b]]
  {
    assert [a, b][1..] == [b];
  }

  // ----- infra.restart -----

  /** The service a `service_id` argument names: services are keyed by strings only. */
  function ServiceKey(services: Table, serviceId: Value): Option<string> {
    if serviceId.VStr? && serviceId.s in services then Some(serviceId.s) else None
  }

  function RestartToolUpdates(stamp: string): Record {
    map["status" := VStr("running"), "health" := VStr("healthy"), "restarted_at" := VStr(stamp)]
  }

  /** `restart_service(service_id, user_email="unknown", **kwargs)`; extra arguments are ignored. */
  method RestartServiceTool(st: SystemState, params: Params, stamp: string) returns (o: Outcome<ToolReply>)
    requires st.Valid()
    modifies st
    ensures st.Valid()
    ensures "service_id" !in params ==> o == MissingArgument && unchanged(st)
    ensures "service_id" in params && ServiceKey(old(st.services), params["service_id"]).None? ==>
      o == Raised(ValueError("Service " + Show(params["service_id"]) + " not found")) && unchanged(st)
    ensures "service_id" in params && ServiceKey(old(st.services), params["service_id"]).Some? ==>
      var id := ServiceKey(old(st.services), params["service_id"]).value;
      && st.services == Merged(old(st.services), id, RestartToolUpdates(stamp))
      && st.users == old(st.users) && st.databases == old(st.databases) && st.alerts == old(st.alerts)
      && o == Returned(ToolReply("success", "Service '" + id + "' restarted", st.services[id]))
  {
    if "service_id" !in params {
      return MissingArgument;
    }
    var serviceId := params["service_id"];
    var key := ServiceKey(st.services, serviceId);
    if key.None? {
      return Raised(ValueError("Service " + Show(serviceId) + " not found"));
    }
    var id := key.value;
    var updated := st.UpdateService(id, RestartToolUpdates(stamp));
    return Returned(ToolReply("success", "Service '" + id + "' restarted", st.services[id]));
  }

  /** A restarted service is running and healthy; its other fields and the other services are untouched. */
  lemma RestartToolEffect(services: Table, id: string, stamp: string)
    requires id in services
    ensures var t := Merged(services, id, RestartToolUpdates(stamp));
      && t.Keys == services.Keys
      && t[id]["status"] == VStr("running") && t[id]["health"] == VStr("healthy")
      && (forall k :: k in services[id] && k !in {"status", "health", "restarted_at"} ==> t[id][k] == services[id][k])
      && (forall other :: other in services && other != id ==> t[other] == services[other])
  {
  }

  // ----- alert.resolve -----

  /** What the tool writes into the alert after `resolve_alert` has marked it. */
  function ToolResolution(alert: Record, userEmail: Value, note: Value): Record {
    alert["status" := VStr("resolved")]["resolved_by" := userEmail]["resolution_note" := note]
  }

  /**
   * `resolve_alert(alert_id, resolution_note, user_email="unknown", **kwargs)`.
   * The alert is looked up as the first alert whose id matches.
   */
  method ResolveAlertTool(st: SystemState, params: Params, stamp: string) returns (o: Outcome<ToolReply>)
    requires st.Valid()
    modifies st
    ensures st.Valid()
    ensures !("alert_id" in params && "resolution_note" in params) ==> o == MissingArgument && unchanged(st)
    ensures "alert_id" in params && "resolution_note" in params ==>
      var id := params["alert_id"];
      var found := FirstWithId(old(st.alerts), id);
      && (found.None? ==> o == Raised(ValueError("Alert " + Show(id) + " not found")) && unchanged(st))
      && (found.Some? && IsResolved(old(st.alerts)[found.value]) ==>
            o == Raised(ValueError("Alert " + Show(id) + " already resolved")) && unchanged(st))
      && (found.Some? && !IsResolved(old(st.alerts)[found.value]) ==>
            var i := found.value;
            && st.alerts == old(st.alerts)[i := ToolResolution(MarkResolved(old(st.alerts)[i], stamp),
                                                              GetOr(params, "user_email", VStr("unknown")),
                                                              params["resolution_note"])]
            && st.users == old(st.users) && st.services == old(st.services) && st.databases == old(st.databases)
            && o == Returned(ToolReply("success", "Alert " + Show(id) + " resolved", st.alerts[i])))
  {
    if "alert_id" !in params || "resolution_note" !in params {
      return MissingArgument;
    }
    var id := params["alert_id"];
    var note := params["resolution_note"];
    var userEmail := GetOr(params, "user_email", VStr("unknown"));
    var found := FirstWithId(st.alerts, id);
    if found.None? {
      return Raised(ValueError("Alert " + Show(id) + " not found"));
    }
    var i := found.value;
    if Truthy(Get(st.alerts[i], "resolved")) {
      return Raised(ValueError("Alert " + Show(id) + " already resolved"));
    }
    var resolved := st.ResolveAlert(id, stamp);
    st.alerts := st.alerts[i := ToolResolution(st.alerts[i], userEmail, note)];
    return Returned(ToolReply("success", "Alert " + Show(id) + " resolved", st.alerts[i]));
  }

  /** A resolved alert carries the resolver, the note and the resolved flags; its id is kept. */
  lemma ResolveToolEffect(alert: Record, stamp: string, userEmail: Value, note: Value)
    requires "id" in alert
    ensures var a := ToolResolution(MarkResolved(alert, stamp), userEmail, note);
      && a["id"] == alert["id"]
      && IsResolved(a) && a["status"] == VStr("resolved")
      && a["resolved_by"] == userEmail && a["resolution_note"] == note && a["resolved_at"] == VStr(stamp)
  {
  }

  /**
   * The same tool as the source writes it: its lookup calls a method the
   * store does not define, so every call that gets past argument binding
   * raises `AttributeError`.
   */
  function ResolveAlertToolAsWritten(params: Params): (o: Outcome<ToolReply>)
    ensures o.Raised? && o.error.OtherError?
  {
    if "alert_id" !in params || "resolution_note" !in params then MissingArgument
    else Raised(OtherError("AttributeError"))
  }

  /**
   * Through the execute endpoint, the tool as written answers every
   * accepted call with a 500, even for an open alert that the corrected
   * tool resolves.
   */
  lemma ResolveAsWrittenAlwaysFails(reg: ToolRegistry<Handler>, req: ExecuteRequest)
    requires VerifyToken(req.intentToken)
    requires req.toolName in reg.tools && reg.tools[req.toolName] == ResolveHandler
    ensures ExecuteTool(reg, req, (h: Handler, p: Params) => ResolveAlertToolAsWritten(p))
      == HttpFailure(500, ExecutionErrorDetail)
  {
    var run := (h: Handler, p: Params) => ResolveAlertToolAsWritten(p);
    ExecuteToolResponses(reg, req, run);
  }

  // ----- Simulated alert creation, not governed -----

  datatype SimulatedAlertRequest = SimulatedAlertRequest(
    kind: string, msg: string, severity: string,
    resourceId: Option<string> := None, agentId: Option<string> := None)

  datatype AlertReply = AlertReply(status: string, message: string, alert: Record)

  function OptionalString(v: Option<string>): Value {
    match v
    case None => VNone
    case Some(s) => VStr(s)
  }

  /** The fields `create_alert` hands to `add_alert`; the legacy `agent_id` is not among them. */
  function SimulatedAlertData(req: SimulatedAlertRequest): Record {
    map["type" := VStr(req.kind), "msg" := VStr(req.msg), "severity" := VStr(req.severity),
        "status" := VStr("open"), "resource_id" := OptionalString(req.resourceId),
        "created_by" := VStr("simulator")]
  }

  /** `POST /mcp/alerts/create` of the tool router: no identity or policy check applies. */
  method CreateSimulatedAlert(st: SystemState, req: SimulatedAlertRequest, stamp: string) returns (r: AlertReply)
    requires st.Valid()
    modifies st
    ensures st.Valid()
    ensures st.alerts == old(st.alerts) + [NewAlert(SimulatedAlertData(req), |old(st.alerts)|, stamp)]
    ensures st.users == old(st.users) && st.services == old(st.services) && st.databases == old(st.databases)
    ensures r == AlertReply("success", "Alert created with ID '" + AlertId(|old(st.alerts)| + 1) + "'", st.alerts[|st.alerts| - 1])
  {
    var count := |st.alerts|;
    var alert := st.AddAlert(SimulatedAlertData(req), stamp);
    return AlertReply("success", "Alert created with ID '" + AlertId(count + 1) + "'", alert);
  }

  /** A simulated alert is open, created by the simulator, and numbered after the existing ones. */
  lemma SimulatedAlertShape(req: SimulatedAlertRequest, count: nat, stamp: string)
    ensures var a := NewAlert(SimulatedAlertData(req), count, stamp);
      && IsOpen(a) && a["status"] == VStr("open") && a["created_by"] == VStr("simulator")
      && a["id"] == VStr(AlertId(count + 1)) && a["severity"] == VStr(req.severity)
  {
  }

  // ----- Listing -----

  datatype AlertList = AlertList(total: int, alerts: seq<Record>)

  /** The status filter: "open" and "resolved" filter, anything else keeps every alert. */
  predicate StatusPasses(status: Option<string>, a: Record) {
    if status == Some("open") then IsOpen(a)
    else if status == Some("resolved") then IsResolved(a)
    else true
  }

  /** The severity filter, which an absent or empty severity switches off. */
  predicate SeverityPasses(severity: Option<string>, a: Record) {
    if severity.Some? && severity.value != "" then Get(a, "severity") == VStr(severity.value) else true
  }

  predicate Listed(status: Option<string>, severity: Option<string>, a: Record) {
    StatusPasses(status, a) && SeverityPasses(severity, a)
  }

  /** The first comprehension: the status filter, when the status is "open" or "resolved". */
  function StatusStage(alerts: seq<Record>, status: Option<string>): seq<Record> {
    if status == Some("open") then Filter(alerts, IsOpen)
    else if status == Some("resolved") then Filter(alerts, IsResolved)
    else alerts
  }

  /** The second comprehension: the severity filter, when a severity is given. */
  function SeverityStage(alerts: seq<Record>, severity: Option<string>): seq<Record> {
    if severity.Some? && severity.value != "" then Filter(alerts, a => Get(a, "severity") == VStr(severity.value))
    else alerts
  }

  /** `GET /mcp/alerts/`: the status filter, then the severity filter, and the count of what is left. */
  function ListAlerts(alerts: seq<Record>, status: Option<string>, severity: Option<string>): (r: AlertList)
    ensures r.alerts == Filter(alerts, a => Listed(status, severity, a))
    ensures r.total == |r.alerts|
  {
    var listed := SeverityStage(StatusStage(alerts, status), severity);
    ListingIsOneFilter(alerts, status, severity);
    AlertList(|listed|, listed)
  }

  /** The status comprehension keeps what the status test passes. */
  lemma StatusStageIsFilter(alerts: seq<Record>, status: Option<string>)
    ensures StatusStage(alerts, status) == Filter(alerts, a => StatusPasses(status, a))
  {
    var statusTest := (a: Record) => StatusPasses(status, a);
    if status == Some("open") {
      FilterEquivalent(alerts, IsOpen, statusTest);
    } else if status == Some("resolved") {
      FilterEquivalent(alerts, IsResolved, statusTest);
    } else {
      FilterAllPass(alerts, statusTest);
    }
  }

  /** The two successive comprehensions keep what the one combined test keeps. */
  lemma ListingIsOneFilter(alerts: seq<Record>, status: Option<string>, severity: Option<string>)
    ensures SeverityStage(StatusStage(alerts, status), severity) == Filter(alerts, a => Listed(status, severity, a))
  {
    var statusTest := (a: Record) => StatusPasses(status, a);
    var listedTest := (a: Record) => Listed(status, severity, a);
    StatusStageIsFilter(alerts, status);
    if severity.Some? && severity.value != "" {
      var severityTest := (a: Record) => Get(a, "severity") == VStr(severity.value);
      FilterFilter(alerts, statusTest, severityTest, listedTest);
    } else {
      FilterEquivalent(alerts, statusTest, listedTest);
    }
  }

  /**
   * What the listing promises: the listed alerts keep the store's order,
   * an alert is listed exactly when it passes both filters, and with no
   * filters everything is listed.
   */
  lemma ListAlertsSpec(alerts: seq<Record>, status: Option<string>, severity: Option<string>)
    ensures var r := ListAlerts(alerts, status, severity);
      && IsSubsequence(r.alerts, alerts)
      && r.total <= |alerts|
      && (forall a :: a in alerts ==> (a in r.alerts <==> StatusPasses(status, a) && SeverityPasses(severity, a)))
      && (forall a :: a in r.alerts ==> a in alerts)
    ensures status.None? && severity.None? ==> ListAlerts(alerts, status, severity).alerts == alerts
  {
    var test := (a: Record) => Listed(status, severity, a);
    FilterIsSubsequence(alerts, test);
    forall a | a in alerts
      ensures a in Filter(alerts, test) <==> Listed(status, severity, a)
    {
      FilterMembership(alerts, test, a);
    }
    if status.None? && severity.None? {
      FilterAllPass(alerts, test);
    }
  }

  /** Listing open alerts and listing resolved ones splits the store between them. */
  lemma OpenAndResolvedPartition(alerts: seq<Record>)
    ensures |ListAlerts(alerts, Some("open"), None).alerts| + |ListAlerts(alerts, Some("resolved"), None).alerts| == |alerts|
  {
    var openTest := (a: Record) => Listed(Some("open"), None, a);
    var resolvedTest := (a: Record) => Listed(Some("resolved"), None, a);
    FilterSplitsLength(alerts, openTest, resolvedTest);
  }
}
