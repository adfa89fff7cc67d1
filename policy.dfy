/**
 * The policy engine (backend/policy/engine.py): the authorisation decision
 * `allow`, taken in a fixed order (identity binding, administrator bypass,
 * per-action table), and the sliding-window restart quota of junior actors,
 * whose history `allow` prunes and `consume_quota` extends.
 */
module Policy {
  import opened Common

  /** Length of the sliding window, in seconds. */
  const Window: int := 3600
  /** Restarts a junior may make per (username, service) key inside the window. */
  const RestartLimit: int := 1

  /**
   * The actor handed to the engine: either a bare name (internal callers, no
   * roles) or the claims dictionary of an authenticated user, whose
   * "username" may be missing and whose missing "roles" reads as [].
   */
  datatype Actor = Bare(name: string) | Claims(username: Option<string>, roles: seq<string>)

  function Username(a: Actor): Option<string> {
    match a
    case Bare(n) => Some(n)
    case Claims(u, _) => u
  }

  function Roles(a: Actor): seq<string> {
    match a
    case Bare(_) => []
    case Claims(_, r) => r
  }

  /** The username is present and non-empty (Python truthiness). */
  predicate NamePresent(u: Option<string>) {
    u.Some? && u.value != ""
  }

  /** `params["agent_id"]` is given and names someone other than the actor. */
  predicate IdentityMismatch(actor: Actor, params: Params) {
    var agentId := Get(params, "agent_id");
    Truthy(agentId) && NamePresent(Username(actor)) && agentId != VStr(Username(actor).value)
  }

  predicate IsAdmin(roles: seq<string>) {
    "admin" in roles || "superadmin" in roles
  }

  predicate IsJunior(roles: seq<string>) {
    "junior" in roles
  }

  /** A restart-history key: (username, service_id) exactly as the engine builds it. */
  type Key = (Option<string>, Value)
  type History = map<Key, seq<int>>

  function RestartKey(actor: Actor, params: Params): Key {
    (Username(actor), Get(params, "service_id"))
  }

  /** `history.get(key, [])`. */
  function Entries(h: History, k: Key): seq<int> {
    if k in h then h[k] else []
  }

  /** The entries younger than the window at time `now` (strict `< 3600`). */
  function Recent(ts: seq<int>, now: int): seq<int> {
    Filter(ts, t => now - t < Window)
  }

  /** Why the engine decided as it did (the source's reason strings, as data). */
  datatype Reason =
    | IdentityMismatchReason(agentId: Value, username: string)
    | AdminAccess
    | MissingServiceId
    | JuniorLimit(serviceId: Value)
    | JuniorAccess
    | AlertCreationAllowed
    | DataOperationAllowed
    | AllowedForJunior
    | DeniedForRoles(action: string, roles: seq<string>)

  datatype Decision = Decision(permitted: bool, reason: Reason)

  /** The decision `allow` returns, given the history as it was before the call. */
  function Decide(actor: Actor, action: string, params: Params, history: History, now: int): Decision {
    var roles := Roles(actor);
    var serviceId := Get(params, "service_id");
    if IdentityMismatch(actor, params) then
      Decision(false, IdentityMismatchReason(Get(params, "agent_id"), Username(actor).value))
    else if IsAdmin(roles) then
      Decision(true, AdminAccess)
    else if action == "infra.restart" && !Truthy(serviceId) then
      Decision(false, MissingServiceId)
    else if action == "infra.restart" && IsJunior(roles) then
      if |Recent(Entries(history, RestartKey(actor, params)), now)| >= RestartLimit
      then Decision(false, JuniorLimit(serviceId))
      else Decision(true, JuniorAccess)
    else if action == "alert.create" then
      Decision(true, AlertCreationAllowed)
    else if "data." <= action then
      Decision(true, DataOperationAllowed)
    else if "user." <= action && IsJunior(roles) then
      Decision(true, AllowedForJunior)
    else
      Decision(false, DeniedForRoles(action, roles))
  }

  /** The call reaches the junior restart check, which writes the pruned list back. */
  predicate PrunesOnAllow(actor: Actor, action: string, params: Params) {
    && !IdentityMismatch(actor, params)
    && !IsAdmin(Roles(actor))
    && action == "infra.restart"
    && Truthy(Get(params, "service_id"))
    && IsJunior(Roles(actor))
  }

  /** The history after `allow`. */
  function AllowedHistory(actor: Actor, action: string, params: Params, history: History, now: int): History {
    if PrunesOnAllow(actor, action, params) then
      var key := RestartKey(actor, params);
      history[key := Recent(Entries(history, key), now)]
    else history
  }

  /** `consume_quota` records something: a junior's restart of a named service. */
  predicate Consumes(actor: Actor, action: string, params: Params) {
    action == "infra.restart" && Truthy(Get(params, "service_id")) && IsJunior(Roles(actor))
  }

  /** The history after `consume_quota`. */
  function ConsumedHistory(actor: Actor, action: string, params: Params, history: History, now: int): History {
    if Consumes(actor, action, params) then
      var key := RestartKey(actor, params);
      history[key := Recent(Entries(history, key), now) + [now]]
    else history
  }

  /** The engine's restart history (the module-level `_RESTART_HISTORY` dictionary). */
  class PolicyEngine {
    var history: History

    constructor ()
      ensures history == map[]
    {
      history := map[];
    }

    /** `allow`: decide, and on the junior restart path write the pruned list back. */
    method Allow(actor: Actor, action: string, params: Params, now: int) returns (permitted: bool, reason: Reason)
      modifies this
      ensures Decision(permitted, reason) == Decide(actor, action, params, old(history), now)
      ensures history == AllowedHistory(actor, action, params, old(history), now)
    {
      var username, roles := Username(actor), Roles(actor);
      var agentId := Get(params, "agent_id");
      if Truthy(agentId) && NamePresent(username) && agentId != VStr(username.value) {
        return false, IdentityMismatchReason(agentId, username.value);
      }
      if "admin" in roles || "superadmin" in roles {
        return true, AdminAccess;
      }
      if action == "infra.restart" {
        var serviceId := Get(params, "service_id");
        if !Truthy(serviceId) {
          return false, MissingServiceId;
        }
        if "junior" in roles {
          var key := (username, serviceId);
          var valid := Recent(Entries(history, key), now);
          history := history[key := valid];
          if |valid| >= RestartLimit {
            return false, JuniorLimit(serviceId);
          }
          return true, JuniorAccess;
        }
      }
      if action == "alert.create" {
        return true, AlertCreationAllowed;
      }
      if "data." <= action {
        return true, DataOperationAllowed;
      }
      if "user." <= action {
        if "junior" in roles {
          return true, AllowedForJunior;
        }
        return false, DeniedForRoles(action, roles);
      }
      return false, DeniedForRoles(action, roles);
    }

    /** `consume_quota`: after a successful junior restart, append `now` to the pruned list. */
    method ConsumeQuota(actor: Actor, action: string, params: Params, now: int)
      modifies this
      ensures history == ConsumedHistory(actor, action, params, old(history), now)
    {
      var username, roles := Username(actor), Roles(actor);
      if action == "infra.restart" {
        var serviceId := Get(params, "service_id");
        if !Truthy(serviceId) {
          return;
        }
        if "junior" in roles {
          var key := (username, serviceId);
          var valid := Recent(Entries(history, key), now);
          history := history[key := valid + [now]];
        }
      }
    }
  }

  // ----- Properties of the decision -----

  /** Identity binding runs first: a mismatch is denied whatever the roles, and nothing is written. */
  lemma IdentityCheckedFirst(actor: Actor, action: string, params: Params, h: History, now: int)
    requires IdentityMismatch(actor, params)
    ensures !Decide(actor, action, params, h, now).permitted
    ensures Decide(actor, action, params, h, now).reason.IdentityMismatchReason?
    ensures AllowedHistory(actor, action, params, h, now) == h
  {
  }

  /** Without a mismatch, admin or superadmin is permitted for every action, restart without service_id included. */
  lemma AdminBypass(actor: Actor, action: string, params: Params, h: History, now: int)
    requires !IdentityMismatch(actor, params) && IsAdmin(Roles(actor))
    ensures Decide(actor, action, params, h, now) == Decision(true, AdminAccess)
    ensures AllowedHistory(actor, action, params, h, now) == h
  {
  }

  /** A junior's restart is denied exactly when the key has an entry younger than the window. */
  lemma {:induction false} JuniorRateLimit(actor: Actor, params: Params, h: History, now: int)
    requires PrunesOnAllow(actor, "infra.restart", params)
    ensures !Decide(actor, "infra.restart", params, h, now).permitted
        <==> exists t :: t in Entries(h, RestartKey(actor, params)) && now - t < Window
    ensures !Decide(actor, "infra.restart", params, h, now).permitted ==>
      Decide(actor, "infra.restart", params, h, now) == Decision(false, JuniorLimit(Get(params, "service_id")))
    ensures Decide(actor, "infra.restart", params, h, now).permitted ==>
      Decide(actor, "infra.restart", params, h, now) == Decision(true, JuniorAccess)
  {
    var ts := Entries(h, RestartKey(actor, params));
    var young := t => now - t < Window;
    if exists t :: t in ts && now - t < Window {
      var t :| t in ts && now - t < Window;
      FilterKeepsPassing(ts, young, t);
    }
    if |Recent(ts, now)| >= 1 {
      var t := Recent(ts, now)[0];
      assert t in ts && now - t < Window;
    }
  }

  /** `allow` only prunes: the key's list becomes the old list's young entries, other keys stay. */
  lemma AllowOnlyPrunes(actor: Actor, action: string, params: Params, h: History, now: int)
    ensures var h' := AllowedHistory(actor, action, params, h, now);
      && (forall k :: k != RestartKey(actor, params) ==> Entries(h', k) == Entries(h, k))
      && (PrunesOnAllow(actor, action, params) ==>
            Entries(h', RestartKey(actor, params)) == Recent(Entries(h, RestartKey(actor, params)), now))
      && (!PrunesOnAllow(actor, action, params) ==> h' == h)
      && (forall k, t :: t in Entries(h', k) ==> t in Entries(h, k))
  {
  }

  /** `consume_quota` on a junior restart sets the key's list to the pruned old list plus `now`. */
  lemma ConsumeRecords(actor: Actor, params: Params, h: History, now: int)
    requires Consumes(actor, "infra.restart", params)
    ensures var h' := ConsumedHistory(actor, "infra.restart", params, h, now);
      && Entries(h', RestartKey(actor, params)) == Recent(Entries(h, RestartKey(actor, params)), now) + [now]
      && (forall k :: k != RestartKey(actor, params) ==> Entries(h', k) == Entries(h, k))
  {
  }

  /**
   * Consuming after `allow`, at the same time or later (each reads the clock
   * itself), gives the same list as consuming alone.
   */
  lemma {:induction false} AllowThenConsume(actor: Actor, action: string, params: Params, h: History,
                                            allowedAt: int, now: int)
    requires allowedAt <= now
    ensures ConsumedHistory(actor, action, params, AllowedHistory(actor, action, params, h, allowedAt), now)
         == ConsumedHistory(actor, action, params, h, now)
  {
    if PrunesOnAllow(actor, action, params) {
      var key := RestartKey(actor, params);
      RecentTwice(Entries(h, key), allowedAt, now);
    }
  }

  /** Pruning at one time and then at a later one keeps what pruning at the later time alone keeps. */
  lemma {:induction false} RecentTwice(ts: seq<int>, t1: int, t2: int)
    requires t1 <= t2
    ensures Recent(Recent(ts, t1), t2) == Recent(ts, t2)
  {
    FilterFilter(ts, t => t1 - t < Window, t => t2 - t < Window, t => t2 - t < Window);
  }

  /** Right after a recorded junior restart, another restart of the same key inside the window is denied. */
  lemma {:induction false} ConsumeThenDenied(actor: Actor, params: Params, h: History, now: int, later: int)
    requires PrunesOnAllow(actor, "infra.restart", params)
    requires later - now < Window
    ensures var h' := ConsumedHistory(actor, "infra.restart", params, h, now);
      Decide(actor, "infra.restart", params, h', later) == Decision(false, JuniorLimit(Get(params, "service_id")))
  {
    var h' := ConsumedHistory(actor, "infra.restart", params, h, now);
    var key := RestartKey(actor, params);
    assert now in Entries(h', key);
    FilterKeepsPassing(Entries(h', key), t => later - t < Window, now);
  }

  /** `consume_quota` records nothing for other actions, a missing service_id or a non-junior. */
  lemma ConsumeNoOp(actor: Actor, action: string, params: Params, h: History, now: int)
    requires action != "infra.restart" || !Truthy(Get(params, "service_id")) || !IsJunior(Roles(actor))
    ensures ConsumedHistory(actor, action, params, h, now) == h
  {
  }

  /** The per-action table for actors that are neither mismatched nor administrators. */
  lemma DecisionTable(actor: Actor, action: string, params: Params, h: History, now: int)
    requires !IdentityMismatch(actor, params) && !IsAdmin(Roles(actor))
    ensures var d := Decide(actor, action, params, h, now);
      && (action == "alert.create" ==> d.permitted)
      && ("data." <= action ==> d.permitted)
      && ("user." <= action ==> (d.permitted <==> IsJunior(Roles(actor))))
      && (action == "infra.restart" && !Truthy(Get(params, "service_id")) ==> d == Decision(false, MissingServiceId))
      && ((action == "infra.restart" && Truthy(Get(params, "service_id")) && !IsJunior(Roles(actor)))
            ==> d == Decision(false, DeniedForRoles(action, Roles(actor))))
      && ((action != "infra.restart" && action != "alert.create" && !("data." <= action) && !("user." <= action))
            ==> d == Decision(false, DeniedForRoles(action, Roles(actor))))
  {
    if "data." <= action || "user." <= action {
      // the families are told apart by their first letter
      assert action[0] != 'i' && action[0] != 'a';
      assert action != "infra.restart" && action != "alert.create";
    }
  }

  /** Once every entry of the key is at least a window old, the junior may restart again. */
  lemma {:induction false} WindowExpiry(actor: Actor, params: Params, h: History, now: int)
    requires PrunesOnAllow(actor, "infra.restart", params)
    requires forall t :: t in Entries(h, RestartKey(actor, params)) ==> now - t >= Window
    ensures Decide(actor, "infra.restart", params, h, now) == Decision(true, JuniorAccess)
  {
    var ts := Entries(h, RestartKey(actor, params));
    assert forall k :: 0 <= k < |ts| ==> now - ts[k] >= Window by {
      forall k | 0 <= k < |ts| ensures now - ts[k] >= Window {
        assert ts[k] in ts;
      }
    }
    FilterNonePass(ts, t => now - t < Window);
  }

  /** Recording a restart of one service leaves the decision for another service unchanged. */
  lemma ServicesIndependent(actor: Actor, p1: Params, p2: Params, h: History, t1: int, now: int)
    requires Get(p1, "service_id") != Get(p2, "service_id")
    ensures Decide(actor, "infra.restart", p2, ConsumedHistory(actor, "infra.restart", p1, h, t1), now)
         == Decide(actor, "infra.restart", p2, h, now)
    ensures Decide(actor, "infra.restart", p2, AllowedHistory(actor, "infra.restart", p1, h, t1), now)
         == Decide(actor, "infra.restart", p2, h, now)
  {
    assert RestartKey(actor, p1) != RestartKey(actor, p2);
  }
}
