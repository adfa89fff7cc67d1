/**
 * The in-memory platform state (backend/system/state.py): users, services and
 * databases as dictionaries keyed by id, with add / update / delete, and the
 * alert list, numbered `alert_<n>` on insertion, resolved in place and
 * cleared of resolved entries.
 */
module Store {
  import opened Common

  type Table = map<string, Record>

  // ----- Dictionary tables -----

  /** The record `add_*` stores: the caller's data with its id and a timestamp written in. */
  function Stamped(data: Record, id: string, stampKey: string, stamp: string): Record {
    data["id" := VStr(id)][stampKey := VStr(stamp)]
  }

  /** `table[id].update(updates)` when the id is present; nothing otherwise. */
  function Merged(table: Table, id: string, updates: Record): Table {
    if id in table then table[id := table[id] + updates] else table
  }

  /** Adding a new id, merging into it and deleting it leaves the table as it was. */
  lemma AddMergeDeleteRestores(table: Table, id: string, data: Record, updates: Record)
    requires id !in table
    ensures id in Merged(table[id := data], id, updates)
    ensures Merged(table[id := data], id, updates) - {id} == table
  {
    assert Merged(table[id := data], id, updates) == table[id := data + updates];
  }

  /** What `add_*` does to a table: the id now holds the stamped data, whatever was there before. */
  lemma AddOverwrites(table: Table, id: string, data: Record, stampKey: string, stamp: string)
    requires stampKey != "id"
    ensures var t' := table[id := Stamped(data, id, stampKey, stamp)];
      && t'.Keys == table.Keys + {id}
      && t'[id]["id"] == VStr(id) && t'[id][stampKey] == VStr(stamp)
      && (forall k :: k in data && k != "id" && k != stampKey ==> t'[id][k] == data[k])
      && (forall other :: other in table && other != id ==> t'[other] == table[other])
  {
  }

  /** `update_*` overwrites the given keys, keeps the others, and touches no other entry. */
  lemma UpdateMerges(table: Table, id: string, updates: Record)
    ensures id !in table ==> Merged(table, id, updates) == table
    ensures id in table ==> var t' := Merged(table, id, updates);
      && t'.Keys == table.Keys
      && (forall k :: k in updates ==> k in t'[id] && t'[id][k] == updates[k])
      && (forall k :: k in table[id] && k !in updates ==> k in t'[id] && t'[id][k] == table[id][k])
      && t'[id].Keys == table[id].Keys + updates.Keys
      && (forall other :: other in table && other != id ==> t'[other] == table[other])
  {
  }

  /** `delete_*` leaves the id absent and every other entry as it was. */
  lemma DeleteRemoves(table: Table, id: string)
    ensures var t' := table - {id};
      && id !in t'
      && t'.Keys == table.Keys - {id}
      && (forall other :: other in table && other != id ==> t'[other] == table[other])
  {
  }

  // ----- Alerts -----

  /** `alert_<n>`. */
  function AlertId(n: nat): string {
    "alert_" + NatToString(n)
  }

  lemma AlertIdInjective(a: nat, b: nat)
    requires AlertId(a) == AlertId(b)
    ensures a == b
  {
    assert AlertId(a)[6..] == NatToString(a);
    assert AlertId(b)[6..] == NatToString(b);
    NatToStringInjective(a, b);
  }

  /** The record `add_alert` appends when the list held `count` alerts. */
  function NewAlert(alert: Record, count: nat, stamp: string): Record {
    alert["id" := VStr(AlertId(count + 1))]["created_at" := VStr(stamp)]["resolved" := VBool(false)]
  }

  /** What `resolve_alert` writes into the matched alert. */
  function MarkResolved(alert: Record, stamp: string): Record {
    alert["resolved" := VBool(true)]["resolved_at" := VStr(stamp)]
  }

  /** `alert["id"] == alert_id`. */
  predicate HasId(alert: Record, id: Value) {
    "id" in alert && alert["id"] == id
  }

  /** Every alert has the keys the store's own loops index. */
  predicate WellFormedAlert(alert: Record) {
    "id" in alert && "resolved" in alert
  }

  /** `not a["resolved"]`. */
  predicate IsOpen(alert: Record) {
    !("resolved" in alert && Truthy(alert["resolved"]))
  }

  predicate IsResolved(alert: Record) {
    "resolved" in alert && Truthy(alert["resolved"])
  }

  /** The index of the first alert with the given id. */
  function FirstWithId(alerts: seq<Record>, id: Value): (r: Option<nat>)
    ensures r.Some? ==> r.value < |alerts| && HasId(alerts[r.value], id)
    ensures r.Some? ==> forall k :: 0 <= k < r.value ==> !HasId(alerts[k], id)
    ensures r.None? ==> forall k :: 0 <= k < |alerts| ==> !HasId(alerts[k], id)
    decreases |alerts|
  {
    if alerts == [] then None
    else if HasId(alerts[0], id) then Some(0)
    else match FirstWithId(alerts[1..], id)
      case None => None
      case Some(i) => Some(i + 1)
  }

  /** Position i holds `alert_<i+1>`: true of every list built by `add_alert` alone. */
  predicate Numbered(alerts: seq<Record>) {
    forall i :: 0 <= i < |alerts| ==> HasId(alerts[i], VStr(AlertId(i + 1)))
  }

  /** Numbered alerts have pairwise distinct ids. */
  lemma NumberedIdsDistinct(alerts: seq<Record>, i: nat, j: nat, id: Value)
    requires Numbered(alerts)
    requires i < |alerts| && j < |alerts|
    requires HasId(alerts[i], id) && HasId(alerts[j], id)
    ensures i == j
  {
    assert VStr(AlertId(i + 1)) == VStr(AlertId(j + 1));
    AlertIdInjective(i + 1, j + 1);
  }

  /** `add_alert` keeps the numbering. */
  lemma NumberedAfterAdd(alerts: seq<Record>, alert: Record, stamp: string)
    requires Numbered(alerts)
    ensures Numbered(alerts + [NewAlert(alert, |alerts|, stamp)])
  {
  }

  /** `resolve_alert` keeps the numbering. */
  lemma NumberedAfterResolve(alerts: seq<Record>, i: nat, stamp: string)
    requires Numbered(alerts) && i < |alerts|
    ensures Numbered(alerts[i := MarkResolved(alerts[i], stamp)])
  {
  }

  /**
   * After `clear_resolved_alerts`, the length-based numbering can hand out an
   * id that an alert still in the list carries.
   */
  lemma ClearThenAddRepeatsId(stamp: string)
    ensures var first := NewAlert(map[], 0, stamp)["resolved" := VBool(true)];
      var second := NewAlert(map[], 1, stamp);
      var cleared := Filter([first, second], IsOpen);
      var third := NewAlert(map[], |cleared|, stamp);
      && cleared == [second]
      && HasId(second, VStr("alert_2")) && HasId(third, VStr("alert_2"))
  {
    var first := NewAlert(map[], 0, stamp)["resolved" := VBool(true)];
    var second := NewAlert(map[], 1, stamp);
    assert NatToString(2) == "2";
    assert Filter([first, second], IsOpen) == [second] by {
      assert !IsOpen(first) && IsOpen(second);
      assert [first, second][1..] == [second];
    }
  }

  /** `clear_resolved_alerts` keeps exactly the open alerts, in order, and reports the resolved count. */
  lemma {:induction false} ClearKeepsOpen(alerts: seq<Record>)
    ensures IsSubsequence(Filter(alerts, IsOpen), alerts)
    ensures forall a :: a in alerts ==> (a in Filter(alerts, IsOpen) <==> IsOpen(a))
    ensures |alerts| - |Filter(alerts, IsOpen)| == |Filter(alerts, IsResolved)|
  {
    FilterIsSubsequence(alerts, IsOpen);
    forall a | a in alerts && IsOpen(a) ensures a in Filter(alerts, IsOpen) {
      FilterKeepsPassing(alerts, IsOpen, a);
    }
    FilterSplitsLength(alerts, IsOpen, IsResolved);
  }

  // ----- Sample data -----

  function SampleUsers(stamp: string): Table {
    map[
      "root" := map["id" := VStr("root"), "name" := VStr("Root"), "email" := VStr("root@platform.local"),
                    "role" := VStr("superadmin"), "created_at" := VStr(stamp)],
      "alice" := map["id" := VStr("alice"), "name" := VStr("Alice"), "email" := VStr("alice@platform.local"),
                     "role" := VStr("admin"), "created_at" := VStr(stamp)],
      "bob" := map["id" := VStr("bob"), "name" := VStr("Bob"), "email" := VStr("bob@platform.local"),
                   "role" := VStr("junior"), "created_at" := VStr(stamp)]
    ]
  }

  function SampleServices(stamp: string): Table {
    map[
      "auth" := map["id" := VStr("auth"), "name" := VStr("Authentication Service"), "status" := VStr("running"),
                    "port" := VInt(8001), "health" := VStr("healthy"), "started_at" := VStr(stamp)],
      "payments" := map["id" := VStr("payments"), "name" := VStr("Payments Service"), "status" := VStr("running"),
                        "port" := VInt(8002), "health" := VStr("healthy"), "started_at" := VStr(stamp)],
      "db" := map["id" := VStr("db"), "name" := VStr("Database Service"), "status" := VStr("running"),
                  "port" := VInt(5432), "health" := VStr("healthy"), "started_at" := VStr(stamp)]
    ]
  }

  function SampleDatabases(stamp: string, lastBackup: string): Table {
    map[
      "prod_db" := map["id" := VStr("prod_db"), "name" := VStr("Production Database"), "type" := VStr("postgresql"),
                       "status" := VStr("healthy"), "size_mb" := VInt(1024), "last_backup" := VStr(lastBackup),
                       "created_at" := VStr(stamp)]
    ]
  }

  /** The sample users: one per role. */
  lemma SampleUsersFacts(stamp: string)
    ensures SampleUsers(stamp).Keys == {"root", "alice", "bob"}
    ensures SampleUsers(stamp)["root"]["role"] == VStr("superadmin")
    ensures SampleUsers(stamp)["alice"]["role"] == VStr("admin")
    ensures SampleUsers(stamp)["bob"]["role"] == VStr("junior")
  {
  }

  /** The sample services are all running and healthy; there is one sample database. */
  lemma SampleServicesFacts(stamp: string, lastBackup: string)
    ensures SampleServices(stamp).Keys == {"auth", "payments", "db"}
    ensures forall s :: s in SampleServices(stamp) ==>
      SampleServices(stamp)[s]["status"] == VStr("running") && SampleServices(stamp)[s]["health"] == VStr("healthy")
    ensures SampleDatabases(stamp, lastBackup).Keys == {"prod_db"}
  {
    var services := SampleServices(stamp);
    assert services.Keys == {"auth", "payments", "db"};
  }

  /** Every sample record carries its "id". */
  lemma SampleRecordsCarryIds(stamp: string, lastBackup: string)
    ensures forall id :: id in SampleUsers(stamp) ==> "id" in SampleUsers(stamp)[id]
    ensures forall id :: id in SampleServices(stamp) ==> "id" in SampleServices(stamp)[id]
    ensures forall id :: id in SampleDatabases(stamp, lastBackup) ==> "id" in SampleDatabases(stamp, lastBackup)[id]
  {
    SampleUsersCarryIds(stamp);
    SampleServicesCarryIds(stamp);
    assert SampleDatabases(stamp, lastBackup).Keys == {"prod_db"};
  }

  lemma SampleUsersCarryIds(stamp: string)
    ensures forall id :: id in SampleUsers(stamp) ==> "id" in SampleUsers(stamp)[id]
  {
    var users := SampleUsers(stamp);
    assert users.Keys == {"root", "alice", "bob"};
    assert "id" in users["root"] && "id" in users["alice"] && "id" in users["bob"];
  }

  lemma SampleServicesCarryIds(stamp: string)
    ensures forall id :: id in SampleServices(stamp) ==> "id" in SampleServices(stamp)[id]
  {
    var services := SampleServices(stamp);
    assert services.Keys == {"auth", "payments", "db"};
    assert "id" in services["auth"] && "id" in services["payments"] && "id" in services["db"];
  }

  /** The platform state; a single instance, used sequentially. */
  class SystemState {
    var users: Table
    var services: Table
    var databases: Table
    var alerts: seq<Record>

    /** Every stored record carries its "id"; every alert its "id" and "resolved". */
    ghost predicate Valid()
      reads this
    {
      && (forall id :: id in users ==> "id" in users[id])
      && (forall id :: id in services ==> "id" in services[id])
      && (forall id :: id in databases ==> "id" in databases[id])
      && (forall k :: 0 <= k < |alerts| ==> WellFormedAlert(alerts[k]))
    }

    /** `_init_sample_data`, with `datetime.now()` and the backup time passed in. */
    constructor (stamp: string, lastBackup: string)
      ensures Valid()
      ensures users == SampleUsers(stamp)
      ensures services == SampleServices(stamp)
      ensures databases == SampleDatabases(stamp, lastBackup)
      ensures alerts == []
    {
      SampleRecordsCarryIds(stamp, lastBackup);
      users := SampleUsers(stamp);
      services := SampleServices(stamp);
      databases := SampleDatabases(stamp, lastBackup);
      alerts := [];
    }

    function GetUser(id: string): Option<Record>
      reads this
    {
      if id in users then Some(users[id]) else None
    }

    function GetService(id: string): Option<Record>
      reads this
    {
      if id in services then Some(services[id]) else None
    }

    function GetDatabase(id: string): Option<Record>
      reads this
    {
      if id in databases then Some(databases[id]) else None
    }

    // ----- Users -----

    method AddUser(id: string, data: Record, stamp: string) returns (r: Record)
      requires Valid()
      modifies this
      ensures Valid()
      ensures r == Stamped(data, id, "created_at", stamp)
      ensures users == old(users)[id := r]
      ensures services == old(services) && databases == old(databases) && alerts == old(alerts)
    {
      r := Stamped(data, id, "created_at", stamp);
      users := users[id := r];
    }

    method UpdateUser(id: string, updates: Record) returns (r: Option<Record>)
      requires Valid()
      modifies this
      ensures Valid()
      ensures users == Merged(old(users), id, updates)
      ensures r == if id in old(users) then Some(users[id]) else None
      ensures services == old(services) && databases == old(databases) && alerts == old(alerts)
    {
      if id !in users {
        return None;
      }
      users := users[id := users[id] + updates];
      return Some(users[id]);
    }

    method DeleteUser(id: string) returns (removed: bool)
      requires Valid()
      modifies this
      ensures Valid()
      ensures removed == (id in old(users))
      ensures users == old(users) - {id}
      ensures services == old(services) && databases == old(databases) && alerts == old(alerts)
    {
      removed := id in users;
      users := users - {id};
    }

    // ----- Services -----

    method AddService(id: string, data: Record, stamp: string) returns (r: Record)
      requires Valid()
      modifies this
      ensures Valid()
      ensures r == Stamped(data, id, "started_at", stamp)
      ensures services == old(services)[id := r]
      ensures users == old(users) && databases == old(databases) && alerts == old(alerts)
    {
      r := Stamped(data, id, "started_at", stamp);
      services := services[id := r];
    }

    method UpdateService(id: string, updates: Record) returns (r: Option<Record>)
      requires Valid()
      modifies this
      ensures Valid()
      ensures services == Merged(old(services), id, updates)
      ensures r == if id in old(services) then Some(services[id]) else None
      ensures users == old(users) && databases == old(databases) && alerts == old(alerts)
    {
      if id !in services {
        return None;
      }
      services := services[id := services[id] + updates];
      return Some(services[id]);
    }

    method DeleteService(id: string) returns (removed: bool)
      requires Valid()
      modifies this
      ensures Valid()
      ensures removed == (id in old(services))
      ensures services == old(services) - {id}
      ensures users == old(users) && databases == old(databases) && alerts == old(alerts)
    {
      removed := id in services;
      services := services - {id};
    }

    // ----- Databases -----

    method AddDatabase(id: string, data: Record, stamp: string) returns (r: Record)
      requires Valid()
      modifies this
      ensures Valid()
      ensures r == Stamped(data, id, "created_at", stamp)
      ensures databases == old(databases)[id := r]
      ensures users == old(users) && services == old(services) && alerts == old(alerts)
    {
      r := Stamped(data, id, "created_at", stamp);
      databases := databases[id := r];
    }

    method UpdateDatabase(id: string, updates: Record) returns (r: Option<Record>)
      requires Valid()
      modifies this
      ensures Valid()
      ensures databases == Merged(old(databases), id, updates)
      ensures r == if id in old(databases) then Some(databases[id]) else None
      ensures users == old(users) && services == old(services) && alerts == old(alerts)
    {
      if id !in databases {
        return None;
      }
      databases := databases[id := databases[id] + updates];
      return Some(databases[id]);
    }

    method DeleteDatabase(id: string) returns (removed: bool)
      requires Valid()
      modifies this
      ensures Valid()
      ensures removed == (id in old(databases))
      ensures databases == old(databases) - {id}
      ensures users == old(users) && services == old(services) && alerts == old(alerts)
    {
      removed := id in databases;
      databases := databases - {id};
    }

    // ----- Alerts -----

    method AddAlert(alert: Record, stamp: string) returns (r: Record)
      requires Valid()
      modifies this
      ensures Valid()
      ensures r == NewAlert(alert, |old(alerts)|, stamp)
      ensures alerts == old(alerts) + [r]
      ensures users == old(users) && services == old(services) && databases == old(databases)
    {
      r := NewAlert(alert, |alerts|, stamp);
      alerts := alerts + [r];
    }

    /** Marks the first alert with the id as resolved and returns it. */
    method ResolveAlert(alertId: Value, stamp: string) returns (r: Option<Record>)
      requires Valid()
      modifies this
      ensures Valid()
      ensures FirstWithId(old(alerts), alertId).None? ==> r == None && alerts == old(alerts)
      ensures FirstWithId(old(alerts), alertId).Some? ==>
        var i := FirstWithId(old(alerts), alertId).value;
        && alerts == old(alerts)[i := MarkResolved(old(alerts)[i], stamp)]
        && r == Some(alerts[i])
      ensures users == old(users) && services == old(services) && databases == old(databases)
    {
      var i := 0;
      while i < |alerts|
        invariant 0 <= i <= |alerts|
        invariant alerts == old(alerts)
        invariant forall k :: 0 <= k < i ==> !HasId(alerts[k], alertId)
      {
        if alerts[i]["id"] == alertId {
          var resolved := MarkResolved(alerts[i], stamp);
          alerts := alerts[i := resolved];
          return Some(resolved);
        }
        i := i + 1;
      }
      return None;
    }

    /** Drops the resolved alerts and returns how many were dropped. */
    method ClearResolvedAlerts() returns (removed: int)
      requires Valid()
      modifies this
      ensures Valid()
      ensures alerts == Filter(old(alerts), IsOpen)
      ensures removed == |old(alerts)| - |alerts|
      ensures users == old(users) && services == old(services) && databases == old(databases)
    {
      var before := |alerts|;
      alerts := Filter(alerts, IsOpen);
      removed := before - |alerts|;
    }
  }
}
