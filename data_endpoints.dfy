/**
 * The governed database endpoints (mcp/data.py): backup, restore and purge.
 * Each checks identity, then policy, then that the database exists, and
 * records quota only after its update.
 */
module DataEndpoints {
  import opened Common
  import opened Policy
  import opened Store
  import opened Governance

  datatype BackupRequest = BackupRequest(agentId: string, dbId: string, backupName: Option<string> := None)
  datatype RestoreRequest = RestoreRequest(agentId: string, dbId: string, backupName: string)
  datatype PurgeRequest = PurgeRequest(agentId: string, dbId: string, confirm: bool := false)

  /** A successful reply, with the database record as stored afterwards. */
  datatype DataReply =
    | BackedUp(message: string, backupName: string, timestamp: string, database: Record)
    | Restored(message: string, timestamp: string, database: Record)
    | Purged(message: string, purgedSizeMb: Value, timestamp: string, database: Record)

  const DatabaseNotFound := HttpError(404, Text("Database not found"))
  const PurgeNeedsConfirmation := HttpError(400, Text("Purge requires confirmation. Set 'confirm': true"))
  /** An exception the endpoint does not catch. */
  const InternalError := HttpError(500, Text("Internal Server Error"))

  function BackupParams(req: BackupRequest): Params {
    map["db_id" := VStr(req.dbId), "agent_id" := VStr(req.agentId)]
  }

  function RestoreParams(req: RestoreRequest): Params {
    map["db_id" := VStr(req.dbId), "backup_name" := VStr(req.backupName), "agent_id" := VStr(req.agentId)]
  }

  function PurgeParams(req: PurgeRequest): Params {
    map["db_id" := VStr(req.dbId), "agent_id" := VStr(req.agentId)]
  }

  /** `req.backup_name or <generated>`: an absent or empty name gives the generated one. */
  function BackupName(req: BackupRequest, generated: string): string {
    if req.backupName.Some? && req.backupName.value != "" then req.backupName.value else generated
  }

  /** `db.get("backup_count", 0) + 1`, which raises `TypeError` unless the count is an int or a bool. */
  function NextBackupCount(db: Record): Option<int> {
    match GetOr(db, "backup_count", VInt(0))
    case VInt(n) => Some(n + 1)
    case VBool(b) => Some(if b then 2 else 1)
    case _ => None
  }

  function BackupUpdates(stamp: string, name: string, count: int): Record {
    map["last_backup" := VStr(stamp), "last_backup_name" := VStr(name), "backup_count" := VInt(count)]
  }

  function RestoreUpdates(stamp: string, backupName: string): Record {
    map["status" := VStr("healthy"), "last_restore" := VStr(stamp), "restored_from" := VStr(backupName)]
  }

  function PurgeUpdates(stamp: string): Record {
    map["size_mb" := VInt(0), "last_purge" := VStr(stamp), "status" := VStr("empty")]
  }

  /** The size a purge reports as cleared. */
  function OldSize(db: Record): Value {
    GetOr(db, "size_mb", VInt(0))
  }

  /**
   * `POST /mcp/data/backup`. The clock reading is `stamp`, and `generated`
   * is the name formatted from it.
   */
  method BackupDatabase(st: SystemState, pe: PolicyEngine, user: CurrentUser, req: BackupRequest, now: int,
                        stamp: string, generated: string)
    returns (r: Result<DataReply>)
    requires st.Valid()
    modifies st, pe
    ensures st.Valid()
    ensures var params := BackupParams(req);
      var gate := Gate(user, req.agentId, "data.backup", params, old(pe.history), now);
      var h1 := GatedHistory(user, req.agentId, "data.backup", params, old(pe.history), now);
      && (gate.Some? ==> r == Err(gate.value) && unchanged(st) && pe.history == h1)
      && (gate.None? && req.dbId !in old(st.databases) ==> r == Err(DatabaseNotFound) && unchanged(st) && pe.history == h1)
      && (gate.None? && req.dbId in old(st.databases) && NextBackupCount(old(st.databases)[req.dbId]).None? ==>
            r == Err(InternalError) && unchanged(st) && pe.history == h1)
      && (gate.None? && req.dbId in old(st.databases) && NextBackupCount(old(st.databases)[req.dbId]).Some? ==>
            var name := BackupName(req, generated);
            var count := NextBackupCount(old(st.databases)[req.dbId]).value;
            && st.databases == Merged(old(st.databases), req.dbId, BackupUpdates(stamp, name, count))
            && st.users == old(st.users) && st.services == old(st.services) && st.alerts == old(st.alerts)
            && pe.history == ConsumedHistory(AsActor(user), "data.backup", params, h1, now)
            && r == Ok(BackedUp("Database '" + req.dbId + "' backed up as '" + name + "'", name, stamp,
                                st.databases[req.dbId])))
  {
    var params := BackupParams(req);
    var denied := Authorize(pe, user, req.agentId, "data.backup", params, now);
    if denied.Some? {
      return Err(denied.value);
    }
    var db := st.GetDatabase(req.dbId);
    if db.None? {
      return Err(DatabaseNotFound);
    }
    var name := BackupName(req, generated);
    var count := NextBackupCount(db.value);
    if count.None? {
      return Err(InternalError);
    }
    var updated := st.UpdateDatabase(req.dbId, BackupUpdates(stamp, name, count.value));
    pe.ConsumeQuota(AsActor(user), "data.backup", params, now);
    return Ok(BackedUp("Database '" + req.dbId + "' backed up as '" + name + "'", name, stamp, st.databases[req.dbId]));
  }

  /** `POST /mcp/data/restore`. */
  method RestoreDatabase(st: SystemState, pe: PolicyEngine, user: CurrentUser, req: RestoreRequest, now: int, stamp: string)
    returns (r: Result<DataReply>)
    requires st.Valid()
    modifies st, pe
    ensures st.Valid()
    ensures var params := RestoreParams(req);
      var gate := Gate(user, req.agentId, "data.restore", params, old(pe.history), now);
      var h1 := GatedHistory(user, req.agentId, "data.restore", params, old(pe.history), now);
      && (gate.Some? ==> r == Err(gate.value) && unchanged(st) && pe.history == h1)
      && (gate.None? && req.dbId !in old(st.databases) ==> r == Err(DatabaseNotFound) && unchanged(st) && pe.history == h1)
      && (gate.None? && req.dbId in old(st.databases) ==>
            && st.databases == Merged(old(st.databases), req.dbId, RestoreUpdates(stamp, req.backupName))
            && st.users == old(st.users) && st.services == old(st.services) && st.alerts == old(st.alerts)
            && pe.history == ConsumedHistory(AsActor(user), "data.restore", params, h1, now)
            && r == Ok(Restored("Database '" + req.dbId + "' restored from '" + req.backupName + "'", stamp,
                                st.databases[req.dbId])))
  {
    var params := RestoreParams(req);
    var denied := Authorize(pe, user, req.agentId, "data.restore", params, now);
    if denied.Some? {
      return Err(denied.value);
    }
    var db := st.GetDatabase(req.dbId);
    if db.None? {
      return Err(DatabaseNotFound);
    }
    var updated := st.UpdateDatabase(req.dbId, RestoreUpdates(stamp, req.backupName));
    pe.ConsumeQuota(AsActor(user), "data.restore", params, now);
    return Ok(Restored("Database '" + req.dbId + "' restored from '" + req.backupName + "'", stamp, st.databases[req.dbId]));
  }

  /** `POST /mcp/data/purge`: the confirmation is checked only once the database is known to exist. */
  method PurgeDatabase(st: SystemState, pe: PolicyEngine, user: CurrentUser, req: PurgeRequest, now: int, stamp: string)
    returns (r: Result<DataReply>)
    requires st.Valid()
    modifies st, pe
    ensures st.Valid()
    ensures var params := PurgeParams(req);
      var gate := Gate(user, req.agentId, "data.purge", params, old(pe.history), now);
      var h1 := GatedHistory(user, req.agentId, "data.purge", params, old(pe.history), now);
      && (gate.Some? ==> r == Err(gate.value) && unchanged(st) && pe.history == h1)
      && (gate.None? && req.dbId !in old(st.databases) ==> r == Err(DatabaseNotFound) && unchanged(st) && pe.history == h1)
      && (gate.None? && req.dbId in old(st.databases) && !req.confirm ==>
            r == Err(PurgeNeedsConfirmation) && unchanged(st) && pe.history == h1)
      && (gate.None? && req.dbId in old(st.databases) && req.confirm ==>
            var oldSize := OldSize(old(st.databases)[req.dbId]);
            && st.databases == Merged(old(st.databases), req.dbId, PurgeUpdates(stamp))
            && st.users == old(st.users) && st.services == old(st.services) && st.alerts == old(st.alerts)
            && pe.history == ConsumedHistory(AsActor(user), "data.purge", params, h1, now)
            && r == Ok(Purged("Database '" + req.dbId + "' purged (" + Show(oldSize) + " MB cleared)", oldSize, stamp,
                              st.databases[req.dbId])))
  {
    var params := PurgeParams(req);
    var denied := Authorize(pe, user, req.agentId, "data.purge", params, now);
    if denied.Some? {
      return Err(denied.value);
    }
    var db := st.GetDatabase(req.dbId);
    if db.None? {
      return Err(DatabaseNotFound);
    }
    if !req.confirm {
      return Err(PurgeNeedsConfirmation);
    }
    var oldSize := OldSize(db.value);
    var updated := st.UpdateDatabase(req.dbId, PurgeUpdates(stamp));
    pe.ConsumeQuota(AsActor(user), "data.purge", params, now);
    return Ok(Purged("Database '" + req.dbId + "' purged (" + Show(oldSize) + " MB cleared)", oldSize, stamp,
                     st.databases[req.dbId]));
  }

  // ----- What the updates mean -----

  /** Every caller whose identity matches passes the gate of a data action, and no data action records quota. */
  lemma DataActionsOpenToAll(user: CurrentUser, agentId: string, action: string, params: Params, h: History, now: int)
    requires action in {"data.backup", "data.restore", "data.purge"}
    requires Get(params, "agent_id") == VStr(agentId) && agentId == user.username
    ensures Gate(user, agentId, action, params, h, now).None?
    ensures GatedHistory(user, agentId, action, params, h, now) == h
    ensures ConsumedHistory(AsActor(user), action, params, h, now) == h
  {
    assert "data." <= action;
    GateOutcomes(user, agentId, action, params, h, now);
  }

  /** A backup counts up by one from the stored count, which starts at zero. */
  lemma BackupCountsUp(db: Record, stamp: string, name: string)
    ensures "backup_count" !in db ==> NextBackupCount(db) == Some(1)
    ensures forall n :: GetOr(db, "backup_count", VInt(0)) == VInt(n) ==> NextBackupCount(db) == Some(n + 1)
    ensures NextBackupCount(db).Some? ==>
      var d := db + BackupUpdates(stamp, name, NextBackupCount(db).value);
      d["backup_count"] == VInt(NextBackupCount(db).value) && d["last_backup_name"] == VStr(name)
  {
  }

  /** The backup name is the requested one when given, the generated one otherwise. */
  lemma BackupNameChoice(agentId: string, dbId: string, name: string, generated: string)
    ensures name != "" ==> BackupName(BackupRequest(agentId, dbId, Some(name)), generated) == name
    ensures BackupName(BackupRequest(agentId, dbId), generated) == generated
    ensures BackupName(BackupRequest(agentId, dbId, Some("")), generated) == generated
  {
  }

  /** A restored database is healthy and remembers its backup. */
  lemma RestoredState(db: Record, stamp: string, backupName: string)
    ensures var d := db + RestoreUpdates(stamp, backupName);
      d["status"] == VStr("healthy") && d["restored_from"] == VStr(backupName)
  {
  }

  /** A purged database is empty, holds zero megabytes, and reports its old size, zero when none was stored. */
  lemma PurgedState(db: Record, stamp: string)
    ensures var d := db + PurgeUpdates(stamp);
      d["size_mb"] == VInt(0) && d["status"] == VStr("empty")
    ensures "size_mb" !in db ==> OldSize(db) == VInt(0)
    ensures "size_mb" in db ==> OldSize(db) == db["size_mb"]
  {
  }

  /** A purge request that leaves out `confirm` does not purge. */
  lemma PurgeConfirmDefault(agentId: string, dbId: string)
    ensures !PurgeRequest(agentId, dbId).confirm
  {
  }

  // ----- Scenarios -----

  /** An unconfirmed purge of the production database is refused and leaves it as it was. */
  method UnconfirmedPurgeRefused(stamp: string, lastBackup: string, now: int)
    returns (r: Result<DataReply>, after: Record)
    ensures r == Err(PurgeNeedsConfirmation)
    ensures after == SampleDatabases(stamp, lastBackup)["prod_db"]
  {
    var st := new SystemState(stamp, lastBackup);
    var pe := new PolicyEngine();
    var alice := CurrentUser("alice", ["admin"]);
    r := PurgeDatabase(st, pe, alice, PurgeRequest("alice", "prod_db"), now, stamp);
    after := st.databases["prod_db"];
  }

  /** An unconfirmed purge of a database that does not exist is a 404: existence is checked first. */
  method UnknownDatabaseBeforeConfirmation(stamp: string, lastBackup: string, now: int) returns (r: Result<DataReply>)
    ensures r == Err(DatabaseNotFound)
  {
    var st := new SystemState(stamp, lastBackup);
    var pe := new PolicyEngine();
    var alice := CurrentUser("alice", ["admin"]);
    r := PurgeDatabase(st, pe, alice, PurgeRequest("alice", "archive_db"), now, stamp);
  }
}
