/**
 * The governed user-management endpoints (backend/mcp/users.py): create,
 * revoke, change role and reset password, each behind the identity check
 * and `allow`. Under the policy engine these are open to juniors and
 * administrators only.
 */
module UserEndpoints {
  import opened Common
  import opened Policy
  import opened Store
  import opened Governance

  datatype CreateUserRequest = CreateUserRequest(agentId: string, userId: string, name: string, email: string,
                                                 role: string := "junior")
  datatype RevokeUserRequest = RevokeUserRequest(agentId: string, userId: string)
  datatype ChangeRoleRequest = ChangeRoleRequest(agentId: string, userId: string, newRole: string)
  datatype ResetPasswordRequest = ResetPasswordRequest(agentId: string, userId: string)

  /** The `ActionResponse` body. */
  datatype ActionResponse = ActionResponse(status: string, message: string)

  const UserExists := HttpError(400, Text("User already exists"))
  const UserNotFound := HttpError(404, Text("User not found"))

  function TargetParams(agentId: string, userId: string): Params {
    map["target_user" := VStr(userId), "agent_id" := VStr(agentId)]
  }

  function ChangeRoleParams(req: ChangeRoleRequest): Params {
    map["target_user" := VStr(req.userId), "new_role" := VStr(req.newRole), "agent_id" := VStr(req.agentId)]
  }

  function NewUserData(req: CreateUserRequest): Record {
    map["name" := VStr(req.name), "email" := VStr(req.email), "role" := VStr(req.role)]
  }

  /** The role a change reports as the old one. */
  function OldRole(user: Record): Value {
    GetOr(user, "role", VStr("unknown"))
  }

  /** `POST /mcp/users/create`: an id already in use is refused, so nothing is overwritten. */
  method CreateUser(st: SystemState, pe: PolicyEngine, user: CurrentUser, req: CreateUserRequest, now: int, stamp: string)
    returns (r: Result<ActionResponse>)
    requires st.Valid()
    modifies st, pe
    ensures st.Valid()
    ensures var params := TargetParams(req.agentId, req.userId);
      var gate := Gate(user, req.agentId, "user.create", params, old(pe.history), now);
      var h1 := GatedHistory(user, req.agentId, "user.create", params, old(pe.history), now);
      && (gate.Some? ==> r == Err(gate.value) && unchanged(st) && pe.history == h1)
      && (gate.None? && req.userId in old(st.users) ==> r == Err(UserExists) && unchanged(st) && pe.history == h1)
      && (gate.None? && req.userId !in old(st.users) ==>
            && st.users == old(st.users)[req.userId := Stamped(NewUserData(req), req.userId, "created_at", stamp)]
            && st.services == old(st.services) && st.databases == old(st.databases) && st.alerts == old(st.alerts)
            && pe.history == ConsumedHistory(AsActor(user), "user.create", params, h1, now)
            && r == Ok(ActionResponse("success", "User '" + req.userId + "' created with role '" + req.role + "'")))
  {
    var params := TargetParams(req.agentId, req.userId);
    var denied := Authorize(pe, user, req.agentId, "user.create", params, now);
    if denied.Some? {
      return Err(denied.value);
    }
    var existing := st.GetUser(req.userId);
    if existing.Some? {
      return Err(UserExists);
    }
    var added := st.AddUser(req.userId, NewUserData(req), stamp);
    pe.ConsumeQuota(AsActor(user), "user.create", params, now);
    return Ok(ActionResponse("success", "User '" + req.userId + "' created with role '" + req.role + "'"));
  }

  /** `POST /mcp/users/revoke`. */
  method RevokeUser(st: SystemState, pe: PolicyEngine, user: CurrentUser, req: RevokeUserRequest, now: int)
    returns (r: Result<ActionResponse>)
    requires st.Valid()
    modifies st, pe
    ensures st.Valid()
    ensures var params := TargetParams(req.agentId, req.userId);
      var gate := Gate(user, req.agentId, "user.revoke", params, old(pe.history), now);
      var h1 := GatedHistory(user, req.agentId, "user.revoke", params, old(pe.history), now);
      && (gate.Some? ==> r == Err(gate.value) && unchanged(st) && pe.history == h1)
      && (gate.None? && req.userId !in old(st.users) ==> r == Err(UserNotFound) && unchanged(st) && pe.history == h1)
      && (gate.None? && req.userId in old(st.users) ==>
            && st.users == old(st.users) - {req.userId}
            && st.services == old(st.services) && st.databases == old(st.databases) && st.alerts == old(st.alerts)
            && pe.history == ConsumedHistory(AsActor(user), "user.revoke", params, h1, now)
            && r == Ok(ActionResponse("success", "User '" + req.userId + "' has been revoked")))
  {
    var params := TargetParams(req.agentId, req.userId);
    var denied := Authorize(pe, user, req.agentId, "user.revoke", params, now);
    if denied.Some? {
      return Err(denied.value);
    }
    var existing := st.GetUser(req.userId);
    if existing.None? {
      return Err(UserNotFound);
    }
    var removed := st.DeleteUser(req.userId);
    pe.ConsumeQuota(AsActor(user), "user.revoke", params, now);
    return Ok(ActionResponse("success", "User '" + req.userId + "' has been revoked"));
  }

  /** `POST /mcp/users/change-role`. */
  method ChangeRole(st: SystemState, pe: PolicyEngine, user: CurrentUser, req: ChangeRoleRequest, now: int)
    returns (r: Result<ActionResponse>)
    requires st.Valid()
    modifies st, pe
    ensures st.Valid()
    ensures var params := ChangeRoleParams(req);
      var gate := Gate(user, req.agentId, "user.change_role", params, old(pe.history), now);
      var h1 := GatedHistory(user, req.agentId, "user.change_role", params, old(pe.history), now);
      && (gate.Some? ==> r == Err(gate.value) && unchanged(st) && pe.history == h1)
      && (gate.None? && req.userId !in old(st.users) ==> r == Err(UserNotFound) && unchanged(st) && pe.history == h1)
      && (gate.None? && req.userId in old(st.users) ==>
            && st.users == Merged(old(st.users), req.userId, map["role" := VStr(req.newRole)])
            && st.services == old(st.services) && st.databases == old(st.databases) && st.alerts == old(st.alerts)
            && pe.history == ConsumedHistory(AsActor(user), "user.change_role", params, h1, now)
            && r == Ok(ActionResponse("success", "User '" + req.userId + "' role changed from '"
                                      + Show(OldRole(old(st.users)[req.userId])) + "' to '" + req.newRole + "'")))
  {
    var params := ChangeRoleParams(req);
    var denied := Authorize(pe, user, req.agentId, "user.change_role", params, now);
    if denied.Some? {
      return Err(denied.value);
    }
    var existing := st.GetUser(req.userId);
    if existing.None? {
      return Err(UserNotFound);
    }
    var oldRole := OldRole(existing.value);
    var updated := st.UpdateUser(req.userId, map["role" := VStr(req.newRole)]);
    pe.ConsumeQuota(AsActor(user), "user.change_role", params, now);
    return Ok(ActionResponse("success", "User '" + req.userId + "' role changed from '" + Show(oldRole) + "' to '"
                             + req.newRole + "'"));
  }

  /** `POST /mcp/users/reset-password`: a simulated reset that changes nothing and records no quota. */
  method ResetPassword(st: SystemState, pe: PolicyEngine, user: CurrentUser, req: ResetPasswordRequest, now: int)
    returns (r: Result<ActionResponse>)
    requires st.Valid()
    modifies pe
    ensures var params := TargetParams(req.agentId, req.userId);
      var gate := Gate(user, req.agentId, "user.reset_password", params, old(pe.history), now);
      && pe.history == GatedHistory(user, req.agentId, "user.reset_password", params, old(pe.history), now)
      && (gate.Some? ==> r == Err(gate.value))
      && (gate.None? && req.userId !in st.users ==> r == Err(UserNotFound))
      && (gate.None? && req.userId in st.users ==>
            r == Ok(ActionResponse("success", "Password reset for user '" + req.userId + "'")))
  {
    var params := TargetParams(req.agentId, req.userId);
    var denied := Authorize(pe, user, req.agentId, "user.reset_password", params, now);
    if denied.Some? {
      return Err(denied.value);
    }
    var existing := st.GetUser(req.userId);
    if existing.None? {
      return Err(UserNotFound);
    }
    return Ok(ActionResponse("success", "Password reset for user '" + req.userId + "'"));
  }

  // ----- What the policy makes of these actions -----

  /**
   * A caller whose identity matches passes the gate of every user action
   * exactly when they hold the junior role or an administrator role; the
   * gate never changes the history for these actions.
   */
  lemma UserActionsGate(user: CurrentUser, agentId: string, action: string, params: Params, h: History, now: int)
    requires action in {"user.create", "user.revoke", "user.change_role", "user.reset_password"}
    requires Get(params, "agent_id") == VStr(agentId) && agentId == user.username
    ensures Gate(user, agentId, action, params, h, now).None? <==> IsJunior(user.roles) || IsAdmin(user.roles)
    ensures GatedHistory(user, agentId, action, params, h, now) == h
    ensures ConsumedHistory(AsActor(user), action, params, h, now) == h
  {
    assert "user." <= action;
    GateOutcomes(user, agentId, action, params, h, now);
  }

  /** A read-only caller is refused with the policy's default reason. */
  lemma ReadOnlyRefused(username: string, userId: string, h: History, now: int)
    ensures Gate(CurrentUser(username, ["readonly"]), username, "user.revoke", TargetParams(username, userId), h, now)
      == Some(HttpError(403, PolicyDenied(DeniedForRoles("user.revoke", ["readonly"]))))
  {
    var user := CurrentUser(username, ["readonly"]);
    GateOutcomes(user, username, "user.revoke", TargetParams(username, userId), h, now);
    DecisionTable(AsActor(user), "user.revoke", TargetParams(username, userId), h, now);
  }

  /** A create request that leaves out the role creates a junior. */
  lemma CreateRoleDefault(agentId: string, userId: string, name: string, email: string)
    ensures NewUserData(CreateUserRequest(agentId, userId, name, email))["role"] == VStr("junior")
  {
  }

  /** Change-role reports "unknown" for a user that has no role recorded. */
  lemma OldRoleDefault(user: Record)
    ensures "role" !in user ==> OldRole(user) == VStr("unknown")
    ensures "role" in user ==> OldRole(user) == user["role"]
  {
  }

  // ----- Scenario -----

  /** The junior sample user creates a user, changes its role and revokes it; the store ends where it began. */
  method JuniorManagesUser(stamp: string, lastBackup: string, now: int)
    returns (created: Result<ActionResponse>, changed: Result<ActionResponse>, revoked: Result<ActionResponse>,
             users: Table)
    ensures created.Ok? && changed.Ok? && revoked.Ok?
    ensures users == SampleUsers(stamp)
  {
    var st := new SystemState(stamp, lastBackup);
    var pe := new PolicyEngine();
    var bob := CurrentUser("bob", ["junior"]);
    var create := CreateUserRequest("bob", "carol", "Carol", "carol@platform.local");
    var change := ChangeRoleRequest("bob", "carol", "readonly");
    assert "carol" !in st.users;
    AddMergeDeleteRestores(st.users, "carol", Stamped(NewUserData(create), "carol", "created_at", stamp),
                           map["role" := VStr("readonly")]);
    UserActionsGate(bob, "bob", "user.create", TargetParams("bob", "carol"), pe.history, now);
    created := CreateUser(st, pe, bob, create, now, stamp);
    UserActionsGate(bob, "bob", "user.change_role", ChangeRoleParams(change), pe.history, now);
    changed := ChangeRole(st, pe, bob, change, now);
    UserActionsGate(bob, "bob", "user.revoke", TargetParams("bob", "carol"), pe.history, now);
    revoked := RevokeUser(st, pe, bob, RevokeUserRequest("bob", "carol"), now);
    users := st.users;
  }
}
