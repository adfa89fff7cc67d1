/**
 * The governed alert endpoints (mcp/alerts.py): creating and resolving an
 * alert behind the identity check and `allow`, and the read-only listing
 * and lookup.
 */
module AlertEndpoints {
  import opened Common
  import opened Policy
  import opened Store
  import opened Governance
  import Tools

  datatype CreateAlertRequest = CreateAlertRequest(agentId: string, kind: string, msg: string, severity: string,
                                                   resourceId: Option<string> := None)

  datatype ResolveAlertRequest = ResolveAlertRequest(agentId: string, alertId: string,
                                                     resolutionNote: Option<string> := None)

  /** A successful reply: its message and the alert as stored afterwards. */
  datatype AlertReply = AlertReply(message: string, alert: Record)

  const AlertNotFound := HttpError(404, Text("Alert not found"))
  const AlertAlreadyResolved := HttpError(400, Text("Alert already resolved"))

  function CreateParams(req: CreateAlertRequest): Params {
    map["type" := VStr(req.kind), "severity" := VStr(req.severity), "agent_id" := VStr(req.agentId)]
  }

  function ResolveParams(req: ResolveAlertRequest): Params {
    map["alert_id" := VStr(req.alertId), "agent_id" := VStr(req.agentId)]
  }

  /** The fields the endpoint hands to `add_alert`: an open alert created by the caller. */
  function CreatedAlertData(req: CreateAlertRequest, user: CurrentUser): Record {
    map["type" := VStr(req.kind), "msg" := VStr(req.msg), "severity" := VStr(req.severity),
        "status" := VStr("open"), "resource_id" := Tools.OptionalString(req.resourceId),
        "created_by" := VStr(user.username)]
  }

  /** What the endpoint writes into the alert after `resolve_alert`: the note only when one was given. */
  function EndpointResolution(alert: Record, username: string, note: Option<string>): Record {
    var a := alert["status" := VStr("resolved")]["resolved_by" := VStr(username)];
    if note.Some? && note.value != "" then a["resolution_note" := VStr(note.value)] else a
  }

  /** The search loop over the alert list: the position of the first alert with the id. */
  method FindAlert(alerts: seq<Record>, id: Value) returns (found: Option<nat>)
    requires forall k :: 0 <= k < |alerts| ==> "id" in alerts[k]
    ensures found == FirstWithId(alerts, id)
  {
    var i := 0;
    while i < |alerts|
      invariant 0 <= i <= |alerts|
      invariant forall k :: 0 <= k < i ==> !HasId(alerts[k], id)
    {
      if alerts[i]["id"] == id {
        return Some(i);
      }
      i := i + 1;
    }
    return None;
  }

  /** `POST /mcp/alerts/create`. */
  method CreateAlert(st: SystemState, pe: PolicyEngine, user: CurrentUser, req: CreateAlertRequest, now: int, stamp: string)
    returns (r: Result<AlertReply>)
    requires st.Valid()
    modifies st, pe
    ensures st.Valid()
    ensures var params := CreateParams(req);
      var gate := Gate(user, req.agentId, "alert.create", params, old(pe.history), now);
      var h1 := GatedHistory(user, req.agentId, "alert.create", params, old(pe.history), now);
      && (gate.Some? ==> r == Err(gate.value) && unchanged(st) && pe.history == h1)
      && (gate.None? ==>
            var alert := NewAlert(CreatedAlertData(req, user), |old(st.alerts)|, stamp);
            && st.alerts == old(st.alerts) + [alert]
            && st.users == old(st.users) && st.services == old(st.services) && st.databases == old(st.databases)
            && pe.history == ConsumedHistory(AsActor(user), "alert.create", params, h1, now)
            && r == Ok(AlertReply("Alert created with ID '" + AlertId(|old(st.alerts)| + 1) + "'", alert)))
    ensures req.agentId != user.username ==> r == Err(IdentityMismatchError) && pe.history == old(pe.history)
    ensures req.agentId == user.username ==> r.Ok? && pe.history == old(pe.history)
  {
    var params := CreateParams(req);
    GateOutcomes(user, req.agentId, "alert.create", params, pe.history, now);
    var denied := Authorize(pe, user, req.agentId, "alert.create", params, now);
    if denied.Some? {
      return Err(denied.value);
    }
    var count := |st.alerts|;
    var alert := st.AddAlert(CreatedAlertData(req, user), stamp);
    pe.ConsumeQuota(AsActor(user), "alert.create", params, now);
    return Ok(AlertReply("Alert created with ID '" + AlertId(count + 1) + "'", alert));
  }

  /** `POST /mcp/alerts/resolve`. */
  method ResolveAlert(st: SystemState, pe: PolicyEngine, user: CurrentUser, req: ResolveAlertRequest, now: int, stamp: string)
    returns (r: Result<AlertReply>)
    requires st.Valid()
    modifies st, pe
    ensures st.Valid()
    ensures var params := ResolveParams(req);
      var gate := Gate(user, req.agentId, "alert.resolve", params, old(pe.history), now);
      var h1 := GatedHistory(user, req.agentId, "alert.resolve", params, old(pe.history), now);
      var found := FirstWithId(old(st.alerts), VStr(req.alertId));
      && (gate.Some? ==> r == Err(gate.value) && unchanged(st) && pe.history == h1)
      && (gate.None? && found.None? ==> r == Err(AlertNotFound) && unchanged(st) && pe.history == h1)
      && (gate.None? && found.Some? && IsResolved(old(st.alerts)[found.value]) ==>
            r == Err(AlertAlreadyResolved) && unchanged(st) && pe.history == h1)
      && (gate.None? && found.Some? && !IsResolved(old(st.alerts)[found.value]) ==>
            var i := found.value;
            && st.alerts == old(st.alerts)[i := EndpointResolution(MarkResolved(old(st.alerts)[i], stamp),
                                                                   user.username, req.resolutionNote)]
            && st.users == old(st.users) && st.services == old(st.services) && st.databases == old(st.databases)
            && pe.history == ConsumedHistory(AsActor(user), "alert.resolve", params, h1, now)
            && r == Ok(AlertReply("Alert '" + req.alertId + "' resolved", st.alerts[i])))
  {
    var params := ResolveParams(req);
    var denied := Authorize(pe, user, req.agentId, "alert.resolve", params, now);
    if denied.Some? {
      return Err(denied.value);
    }
    var found := FindAlert(st.alerts, VStr(req.alertId));
    if found.None? {
      return Err(AlertNotFound);
    }
    var i := found.value;
    if Truthy(Get(st.alerts[i], "resolved")) {
      return Err(AlertAlreadyResolved);
    }
    var alert := ResolveAt(st, i, req.alertId, user.username, req.resolutionNote, stamp);
    pe.ConsumeQuota(AsActor(user), "alert.resolve", params, now);
    return Ok(AlertReply("Alert '" + req.alertId + "' resolved", st.alerts[i]));
  }

  /** The store's `resolve_alert` on the first alert with the id, then the endpoint's own fields. */
  method ResolveAt(st: SystemState, i: nat, alertId: string, username: string, note: Option<string>, stamp: string)
    returns (alert: Record)
    requires st.Valid()
    requires FirstWithId(st.alerts, VStr(alertId)) == Some(i)
    modifies st
    ensures st.Valid()
    ensures alert == EndpointResolution(MarkResolved(old(st.alerts)[i], stamp), username, note)
    ensures st.alerts == old(st.alerts)[i := alert]
    ensures st.users == old(st.users) && st.services == old(st.services) && st.databases == old(st.databases)
  {
    ghost var before := st.alerts;
    var resolved := st.ResolveAlert(VStr(alertId), stamp);
    alert := EndpointResolution(st.alerts[i], username, note);
    assert WellFormedAlert(alert);
    st.alerts := st.alerts[i := alert];
    assert st.alerts == before[i := alert];
  }

  /** A resolved alert is resolved by the caller; the note is recorded only when one was given. */
  lemma EndpointResolutionShape(alert: Record, stamp: string, username: string, note: Option<string>)
    ensures var a := EndpointResolution(MarkResolved(alert, stamp), username, note);
      && IsResolved(a) && a["status"] == VStr("resolved") && a["resolved_by"] == VStr(username)
      && (note.Some? && note.value != "" ==> a["resolution_note"] == VStr(note.value))
      && (!(note.Some? && note.value != "") ==> GetOr(a, "resolution_note", VNone) == GetOr(alert, "resolution_note", VNone))
  {
  }

  // ----- Read-only endpoints -----

  datatype StatusFilter = OpenAlerts | ResolvedAlerts
  datatype Severity = Low | Medium | High | Critical

  function StatusName(s: StatusFilter): string {
    match s
    case OpenAlerts => "open"
    case ResolvedAlerts => "resolved"
  }

  function SeverityName(s: Severity): string {
    match s
    case Low => "low"
    case Medium => "medium"
    case High => "high"
    case Critical => "critical"
  }

  function OptionMap<A, B>(o: Option<A>, f: A -> B): Option<B> {
    match o
    case None => None
    case Some(a) => Some(f(a))
  }

  /** The typed status and severity tests an alert must pass to be listed. */
  predicate TypedListed(status: Option<StatusFilter>, severity: Option<Severity>, a: Record) {
    && (status == Some(OpenAlerts) ==> IsOpen(a))
    && (status == Some(ResolvedAlerts) ==> IsResolved(a))
    && (severity.Some? ==> Get(a, "severity") == VStr(SeverityName(severity.value)))
  }

  /**
   * `GET /mcp/alerts/` with the query parameters restricted to their
   * literal values: the same two comprehensions as the tool router's listing.
   */
  function ListAlerts(alerts: seq<Record>, status: Option<StatusFilter>, severity: Option<Severity>): (r: Tools.AlertList)
    ensures r.total == |r.alerts|
    ensures r.alerts == Filter(alerts, a => TypedListed(status, severity, a))
    ensures IsSubsequence(r.alerts, alerts)
    ensures forall a :: a in alerts ==> (a in r.alerts <==> TypedListed(status, severity, a))
  {
    var statusName := OptionMap(status, StatusName);
    var severityName := OptionMap(severity, SeverityName);
    Tools.ListAlertsSpec(alerts, statusName, severityName);
    TypedFiltersAgree(status, severity);
    FilterEquivalent(alerts, a => Tools.Listed(statusName, severityName, a), a => TypedListed(status, severity, a));
    Tools.ListAlerts(alerts, statusName, severityName)
  }

  /** The typed filters, spelled as strings, pass the same alerts as the typed tests. */
  lemma TypedFiltersAgree(status: Option<StatusFilter>, severity: Option<Severity>)
    ensures forall a: Record ::
      && (Tools.StatusPasses(OptionMap(status, StatusName), a) <==>
            (status == Some(OpenAlerts) ==> IsOpen(a)) && (status == Some(ResolvedAlerts) ==> IsResolved(a)))
      && (Tools.SeverityPasses(OptionMap(severity, SeverityName), a) <==>
            (severity.Some? ==> Get(a, "severity") == VStr(SeverityName(severity.value))))
  {
    if status.Some? {
      assert StatusName(status.value) == "open" <==> status.value == OpenAlerts;
      assert StatusName(status.value) == "resolved" <==> status.value == ResolvedAlerts;
    }
    if severity.Some? {
      assert SeverityName(severity.value) != "";
    }
  }

  /** `GET /mcp/alerts/{alert_id}`: the first alert with the id. */
  method GetAlert(alerts: seq<Record>, alertId: string) returns (r: Result<Record>)
    requires forall k :: 0 <= k < |alerts| ==> "id" in alerts[k]
    ensures FirstWithId(alerts, VStr(alertId)).None? ==> r == Err(AlertNotFound)
    ensures FirstWithId(alerts, VStr(alertId)).Some? ==> r == Ok(alerts[FirstWithId(alerts, VStr(alertId)).value])
    ensures r.Ok? ==> r.value in alerts && HasId(r.value, VStr(alertId))
  {
    var found := FindAlert(alerts, VStr(alertId));
    if found.None? {
      return Err(AlertNotFound);
    }
    return Ok(alerts[found.value]);
  }

  // ----- Scenarios -----

  lemma FirstAlertId()
    ensures AlertId(1) == "alert_1"
  {
    assert NatToString(1) == "1";
  }

  /**
   * An administrator creates an alert and resolves it by its new id; a
   * second resolve of the same id is refused.
   */
  method CreateThenResolve(stamp: string, lastBackup: string, now: int)
    returns (created: Result<AlertReply>, resolved: Result<AlertReply>, again: Result<AlertReply>)
    ensures created.Ok? && HasId(created.value.alert, VStr("alert_1"))
    ensures resolved.Ok? && IsResolved(resolved.value.alert) && Get(resolved.value.alert, "resolved_by") == VStr("alice")
    ensures again == Err(AlertAlreadyResolved)
  {
    var st := new SystemState(stamp, lastBackup);
    var pe := new PolicyEngine();
    var alice := CurrentUser("alice", ["admin"]);
    created := CreateAlert(st, pe, alice, CreateAlertRequest("alice", "cpu", "high load", "high"), now, stamp);
    FirstAlertId();
    assert |st.alerts| == 1 && HasId(st.alerts[0], VStr("alert_1"));
    assert FirstWithId(st.alerts, VStr("alert_1")) == Some(0);
    var req := ResolveAlertRequest("alice", "alert_1");
    GateOutcomes(alice, "alice", "alert.resolve", ResolveParams(req), pe.history, now);
    resolved := ResolveAlert(st, pe, alice, req, now, stamp);
    assert |st.alerts| == 1 && HasId(st.alerts[0], VStr("alert_1")) && IsResolved(st.alerts[0]);
    assert FirstWithId(st.alerts, VStr("alert_1")) == Some(0);
    GateOutcomes(alice, "alice", "alert.resolve", ResolveParams(req), pe.history, now);
    again := ResolveAlert(st, pe, alice, req, now, stamp);
  }
}
