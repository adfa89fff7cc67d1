/**
 * The governed service endpoints (mcp/infra.py): restart, scale, shutdown
 * and deploy, each opening with the identity check and `allow`, and the
 * read-only service lookup. Only restart records quota, after the restart.
 */
module InfraEndpoints {
  import opened Common
  import opened Policy
  import opened Store
  import opened Governance

  datatype RestartRequest = RestartRequest(agentId: string, serviceId: string)
  datatype ScaleRequest = ScaleRequest(agentId: string, serviceId: string, replicas: int)
  datatype ShutdownRequest = ShutdownRequest(agentId: string, serviceId: string)
  datatype DeployRequest = DeployRequest(agentId: string, serviceId: string, name: string, port: int,
                                         version: Option<string> := Some("1.0.0"))

  /** A successful reply: its message and the service record as stored afterwards. */
  datatype ServiceReply = ServiceReply(message: string, service: Record)

  const ServiceNotFound := HttpError(404, Text("Service not found"))
  const ServiceExists := HttpError(400, Text("Service already exists"))

  function OptionalString(v: Option<string>): Value {
    match v
    case None => VNone
    case Some(s) => VStr(s)
  }

  function RestartParams(req: RestartRequest): Params {
    map["service_id" := VStr(req.serviceId), "agent_id" := VStr(req.agentId)]
  }

  function ScaleParams(req: ScaleRequest): Params {
    map["service_id" := VStr(req.serviceId), "replicas" := VInt(req.replicas), "agent_id" := VStr(req.agentId)]
  }

  function ShutdownParams(req: ShutdownRequest): Params {
    map["service_id" := VStr(req.serviceId), "agent_id" := VStr(req.agentId)]
  }

  function DeployParams(req: DeployRequest): Params {
    map["service_id" := VStr(req.serviceId), "name" := VStr(req.name), "port" := VInt(req.port),
        "agent_id" := VStr(req.agentId)]
  }

  function RestartUpdates(stamp: string): Record {
    map["status" := VStr("running"), "health" := VStr("healthy"), "restarted_at" := VStr(stamp)]
  }

  function ScaleUpdates(replicas: int, stamp: string): Record {
    map["replicas" := VInt(replicas), "scaled_at" := VStr(stamp)]
  }

  function ShutdownUpdates(stamp: string): Record {
    map["status" := VStr("stopped"), "health" := VStr("offline"), "stopped_at" := VStr(stamp)]
  }

  /** The data `deploy` hands to `add_service`. */
  function DeployedData(req: DeployRequest): Record {
    map["name" := VStr(req.name), "status" := VStr("running"), "port" := VInt(req.port),
        "health" := VStr("healthy"), "version" := OptionalString(req.version), "replicas" := VInt(1)]
  }

  /** The replica count a scale reports as the old one. */
  function OldReplicas(service: Record): Value {
    GetOr(service, "replicas", VInt(1))
  }

  /** `POST /mcp/infra/restart`. */
  method RestartService(st: SystemState, pe: PolicyEngine, user: CurrentUser, req: RestartRequest, now: int, stamp: string)
    returns (r: Result<ServiceReply>)
    requires st.Valid()
    modifies st, pe
    ensures st.Valid()
    ensures var params := RestartParams(req);
      var gate := Gate(user, req.agentId, "infra.restart", params, old(pe.history), now);
      var h1 := GatedHistory(user, req.agentId, "infra.restart", params, old(pe.history), now);
      && (gate.Some? ==> r == Err(gate.value) && unchanged(st) && pe.history == h1)
      && (gate.None? && req.serviceId !in old(st.services) ==>
            r == Err(ServiceNotFound) && unchanged(st) && pe.history == h1)
      && (gate.None? && req.serviceId in old(st.services) ==>
            && st.services == Merged(old(st.services), req.serviceId, RestartUpdates(stamp))
            && st.users == old(st.users) && st.databases == old(st.databases) && st.alerts == old(st.alerts)
            && pe.history == ConsumedHistory(AsActor(user), "infra.restart", params, h1, now)
            && r == Ok(ServiceReply("Service '" + req.serviceId + "' restarted", st.services[req.serviceId])))
  {
    var params := RestartParams(req);
    var denied := Authorize(pe, user, req.agentId, "infra.restart", params, now);
    if denied.Some? {
      return Err(denied.value);
    }
    var service := st.GetService(req.serviceId);
    if service.None? {
      return Err(ServiceNotFound);
    }
    var updated := st.UpdateService(req.serviceId, RestartUpdates(stamp));
    pe.ConsumeQuota(AsActor(user), "infra.restart", params, now);
    return Ok(ServiceReply("Service '" + req.serviceId + "' restarted", st.services[req.serviceId]));
  }

  /** `POST /mcp/infra/scale`: records no quota. */
  method ScaleService(st: SystemState, pe: PolicyEngine, user: CurrentUser, req: ScaleRequest, now: int, stamp: string)
    returns (r: Result<ServiceReply>)
    requires st.Valid()
    modifies st, pe
    ensures st.Valid()
    ensures var params := ScaleParams(req);
      var gate := Gate(user, req.agentId, "infra.scale", params, old(pe.history), now);
      && pe.history == GatedHistory(user, req.agentId, "infra.scale", params, old(pe.history), now)
      && (gate.Some? ==> r == Err(gate.value) && unchanged(st))
      && (gate.None? && req.serviceId !in old(st.services) ==> r == Err(ServiceNotFound) && unchanged(st))
      && (gate.None? && req.serviceId in old(st.services) ==>
            && st.services == Merged(old(st.services), req.serviceId, ScaleUpdates(req.replicas, stamp))
            && st.users == old(st.users) && st.databases == old(st.databases) && st.alerts == old(st.alerts)
            && r == Ok(ServiceReply(
                 "Service '" + req.serviceId + "' scaled from " + Show(OldReplicas(old(st.services)[req.serviceId]))
                 + " to " + Show(VInt(req.replicas)) + " replicas",
                 st.services[req.serviceId])))
  {
    var params := ScaleParams(req);
    var denied := Authorize(pe, user, req.agentId, "infra.scale", params, now);
    if denied.Some? {
      return Err(denied.value);
    }
    var service := st.GetService(req.serviceId);
    if service.None? {
      return Err(ServiceNotFound);
    }
    var oldReplicas := OldReplicas(service.value);
    var updated := st.UpdateService(req.serviceId, ScaleUpdates(req.replicas, stamp));
    return Ok(ServiceReply(
      "Service '" + req.serviceId + "' scaled from " + Show(oldReplicas) + " to " + Show(VInt(req.replicas)) + " replicas",
      st.services[req.serviceId]));
  }

  /** `POST /mcp/infra/shutdown`. */
  method ShutdownService(st: SystemState, pe: PolicyEngine, user: CurrentUser, req: ShutdownRequest, now: int, stamp: string)
    returns (r: Result<ServiceReply>)
    requires st.Valid()
    modifies st, pe
    ensures st.Valid()
    ensures var params := ShutdownParams(req);
      var gate := Gate(user, req.agentId, "infra.shutdown", params, old(pe.history), now);
      && pe.history == GatedHistory(user, req.agentId, "infra.shutdown", params, old(pe.history), now)
      && (gate.Some? ==> r == Err(gate.value) && unchanged(st))
      && (gate.None? && req.serviceId !in old(st.services) ==> r == Err(ServiceNotFound) && unchanged(st))
      && (gate.None? && req.serviceId in old(st.services) ==>
            && st.services == Merged(old(st.services), req.serviceId, ShutdownUpdates(stamp))
            && st.users == old(st.users) && st.databases == old(st.databases) && st.alerts == old(st.alerts)
            && r == Ok(ServiceReply("Service '" + req.serviceId + "' has been shut down", st.services[req.serviceId])))
  {
    var params := ShutdownParams(req);
    var denied := Authorize(pe, user, req.agentId, "infra.shutdown", params, now);
    if denied.Some? {
      return Err(denied.value);
    }
    var service := st.GetService(req.serviceId);
    if service.None? {
      return Err(ServiceNotFound);
    }
    var updated := st.UpdateService(req.serviceId, ShutdownUpdates(stamp));
    return Ok(ServiceReply("Service '" + req.serviceId + "' has been shut down", st.services[req.serviceId]));
  }

  /** `POST /mcp/infra/deploy`: an id already in use is refused, so nothing is overwritten. */
  method DeployService(st: SystemState, pe: PolicyEngine, user: CurrentUser, req: DeployRequest, now: int, stamp: string)
    returns (r: Result<ServiceReply>)
    requires st.Valid()
    modifies st, pe
    ensures st.Valid()
    ensures var params := DeployParams(req);
      var gate := Gate(user, req.agentId, "infra.deploy", params, old(pe.history), now);
      && pe.history == GatedHistory(user, req.agentId, "infra.deploy", params, old(pe.history), now)
      && (gate.Some? ==> r == Err(gate.value) && unchanged(st))
      && (gate.None? && req.serviceId in old(st.services) ==> r == Err(ServiceExists) && unchanged(st))
      && (gate.None? && req.serviceId !in old(st.services) ==>
            && st.services == old(st.services)[req.serviceId := Stamped(DeployedData(req), req.serviceId, "started_at", stamp)]
            && st.users == old(st.users) && st.databases == old(st.databases) && st.alerts == old(st.alerts)
            && r == Ok(ServiceReply("Service '" + req.serviceId + "' deployed successfully", st.services[req.serviceId])))
  {
    var params := DeployParams(req);
    var denied := Authorize(pe, user, req.agentId, "infra.deploy", params, now);
    if denied.Some? {
      return Err(denied.value);
    }
    var existing := st.GetService(req.serviceId);
    if existing.Some? {
      return Err(ServiceExists);
    }
    var added := st.AddService(req.serviceId, DeployedData(req), stamp);
    return Ok(ServiceReply("Service '" + req.serviceId + "' deployed successfully", st.services[req.serviceId]));
  }

  /** `GET /mcp/infra/{service_id}`. */
  function GetService(st: SystemState, serviceId: string): (r: Result<Record>)
    reads st
    ensures r.Ok? <==> serviceId in st.services
    ensures r.Ok? ==> r.value == st.services[serviceId]
    ensures r.Err? ==> r.error == ServiceNotFound
  {
    match st.GetService(serviceId)
    case None => Err(ServiceNotFound)
    case Some(service) => Ok(service)
  }

  // ----- What the updates leave behind -----

  /** A restarted service is running and healthy and keeps every other field. */
  lemma RestartedServiceState(services: Table, id: string, stamp: string)
    requires id in services
    ensures var s := Merged(services, id, RestartUpdates(stamp))[id];
      && s["status"] == VStr("running") && s["health"] == VStr("healthy")
      && (forall k :: k in services[id] && k !in {"status", "health", "restarted_at"} ==> s[k] == services[id][k])
  {
  }

  /** A shut-down service is stopped and offline. */
  lemma ShutdownServiceState(services: Table, id: string, stamp: string)
    requires id in services
    ensures var s := Merged(services, id, ShutdownUpdates(stamp))[id];
      s["status"] == VStr("stopped") && s["health"] == VStr("offline")
  {
  }

  /** A deployed service starts running, healthy, with one replica and the requested version. */
  lemma DeployedServiceState(req: DeployRequest, stamp: string)
    ensures var s := Stamped(DeployedData(req), req.serviceId, "started_at", stamp);
      && s["id"] == VStr(req.serviceId) && s["status"] == VStr("running") && s["health"] == VStr("healthy")
      && s["replicas"] == VInt(1) && s["version"] == OptionalString(req.version) && s["started_at"] == VStr(stamp)
  {
  }

  /** A deploy request that leaves out the version asks for "1.0.0". */
  lemma DeployVersionDefault(agentId: string, serviceId: string, name: string, port: int)
    ensures DeployedData(DeployRequest(agentId, serviceId, name, port))["version"] == VStr("1.0.0")
  {
  }

  /** Scaling reports one old replica for a service that never recorded a count. */
  lemma ScaleDefaultsToOne(service: Record)
    requires "replicas" !in service
    ensures OldReplicas(service) == VInt(1)
  {
  }

  // ----- The scenarios the platform's tests exercise -----

  /** The gate the junior's two restarts of "db" meet, starting from an empty history. */
  lemma JuniorRestartGates(now: int, later: int)
    requires later - now < Window
    ensures var bob := CurrentUser("bob", ["junior"]);
      var params := RestartParams(RestartRequest("bob", "db"));
      var h1 := GatedHistory(bob, "bob", "infra.restart", params, map[], now);
      && Gate(bob, "bob", "infra.restart", params, map[], now) == None
      && Gate(bob, "bob", "infra.restart", params, ConsumedHistory(AsActor(bob), "infra.restart", params, h1, now), later)
         == Some(HttpError(403, PolicyDenied(JuniorLimit(VStr("db")))))
  {
    var bob := CurrentUser("bob", ["junior"]);
    var params := RestartParams(RestartRequest("bob", "db"));
    assert Decide(AsActor(bob), "infra.restart", params, map[], now).permitted;
    ConsumeThenDenied(AsActor(bob), params, GatedHistory(bob, "bob", "infra.restart", params, map[], now), now, later);
  }

  /** The reply message of a restart of "db". */
  lemma RestartMessageForDb()
    ensures "Service '" + "db" + "' restarted" == "Service 'db' restarted"
  {
  }

  /** A junior's second restart of the same service within the hour is refused by the rate limit. */
  method JuniorSecondRestartBlocked(stamp: string, lastBackup: string, now: int, later: int)
    returns (first: Result<ServiceReply>, second: Result<ServiceReply>)
    requires later - now < Window
    ensures first == Ok(ServiceReply("Service 'db' restarted", SampleServices(stamp)["db"] + RestartUpdates(stamp)))
    ensures second == Err(HttpError(403, PolicyDenied(JuniorLimit(VStr("db")))))
  {
    var st := new SystemState(stamp, lastBackup);
    var pe := new PolicyEngine();
    var bob := CurrentUser("bob", ["junior"]);
    var req := RestartRequest("bob", "db");
    JuniorRestartGates(now, later);
    assert "db" in st.services;
    first := RestartService(st, pe, bob, req, now, stamp);
    RestartMessageForDb();
    second := RestartService(st, pe, bob, req, later, stamp);
  }

  /** A junior's token used with the admin's name as `agent_id` is refused before the policy runs. */
  method SpoofedRestartBlocked(stamp: string, lastBackup: string, now: int) returns (r: Result<ServiceReply>, historyAfter: History)
    ensures r == Err(IdentityMismatchError)
    ensures historyAfter == map[]
  {
    var st := new SystemState(stamp, lastBackup);
    var pe := new PolicyEngine();
    r := RestartService(st, pe, CurrentUser("bob", ["junior"]), RestartRequest("alice", "auth"), now, stamp);
    historyAfter := pe.history;
  }
}
