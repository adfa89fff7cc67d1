/**
 * The check every governed endpoint makes before it touches the store: the
 * request's `agent_id` must be the authenticated username (403 "Identity
 * mismatch", before the policy engine is consulted), and then `allow` must
 * permit the action (403 carrying the policy's reason otherwise).
 * HTTP exceptions become the `Err` side of a `Result`.
 */
module Governance {
  import opened Common
  import opened Policy

  /** The authenticated caller, as the token dependency returns it. */
  datatype CurrentUser = CurrentUser(username: string, roles: seq<string>)

  /** The caller as the policy engine sees it. */
  function AsActor(u: CurrentUser): Actor {
    Claims(Some(u.username), u.roles)
  }

  /** An HTTP error's detail: a fixed text, or `Policy denied: <reason>`. */
  datatype Detail = Text(text: string) | PolicyDenied(reason: Reason)

  datatype HttpError = HttpError(code: int, detail: Detail)

  datatype Result<T> = Ok(value: T) | Err(error: HttpError)

  const IdentityMismatchError := HttpError(403, Text("Identity mismatch"))

  /** The error the identity check and `allow` produce, if any, given the history before the call. */
  function Gate(user: CurrentUser, agentId: string, action: string, params: Params, history: History, now: int): Option<HttpError> {
    if agentId != user.username then Some(IdentityMismatchError)
    else
      var d := Decide(AsActor(user), action, params, history, now);
      if d.permitted then None else Some(HttpError(403, PolicyDenied(d.reason)))
  }

  /** The history after the gate: `allow` runs only when the identities agree. */
  function GatedHistory(user: CurrentUser, agentId: string, action: string, params: Params, history: History, now: int): History {
    if agentId != user.username then history
    else AllowedHistory(AsActor(user), action, params, history, now)
  }

  /** The identity check followed by `allow`, as each governed endpoint opens. */
  method Authorize(pe: PolicyEngine, user: CurrentUser, agentId: string, action: string, params: Params, now: int)
    returns (denied: Option<HttpError>)
    modifies pe
    ensures denied == Gate(user, agentId, action, params, old(pe.history), now)
    ensures pe.history == GatedHistory(user, agentId, action, params, old(pe.history), now)
  {
    if agentId != user.username {
      return Some(IdentityMismatchError);
    }
    var allowed, reason := pe.Allow(AsActor(user), action, params, now);
    if !allowed {
      return Some(HttpError(403, PolicyDenied(reason)));
    }
    return None;
  }

  /**
   * What the gate decides for an endpoint that passes its own `agent_id`
   * to the engine: a mismatch is refused before `allow` (the history is
   * untouched), the engine's own identity check never fires after a match,
   * and the per-action table applies to everyone else.
   */
  lemma GateOutcomes(user: CurrentUser, agentId: string, action: string, params: Params, h: History, now: int)
    requires Get(params, "agent_id") == VStr(agentId)
    ensures agentId != user.username ==>
      && Gate(user, agentId, action, params, h, now) == Some(IdentityMismatchError)
      && GatedHistory(user, agentId, action, params, h, now) == h
    ensures agentId == user.username ==> !IdentityMismatch(AsActor(user), params)
    ensures agentId == user.username && IsAdmin(user.roles) ==>
      Gate(user, agentId, action, params, h, now).None?
    ensures agentId == user.username && (action == "alert.create" || "data." <= action) ==>
      Gate(user, agentId, action, params, h, now).None?
    ensures agentId == user.username && "user." <= action ==>
      (Gate(user, agentId, action, params, h, now).None? <==> IsAdmin(user.roles) || IsJunior(user.roles))
    ensures agentId == user.username && "user." <= action ==>
      GatedHistory(user, agentId, action, params, h, now) == h
  {
    if agentId == user.username {
      assert !IdentityMismatch(AsActor(user), params);
      if !IsAdmin(user.roles) {
        DecisionTable(AsActor(user), action, params, h, now);
      }
      if "user." <= action {
        assert action[0] == 'u';
        assert action != "infra.restart";
      }
    }
  }

  /** The gate never adds history: every key keeps at most its old entries. */
  lemma GateOnlyPrunes(user: CurrentUser, agentId: string, action: string, params: Params, h: History, now: int)
    ensures var h' := GatedHistory(user, agentId, action, params, h, now);
      && h'.Keys == h.Keys + (if h' == h then {} else {RestartKey(AsActor(user), params)})
      && forall k :: k in h' ==> IsSubsequence(h'[k], Entries(h, k))
  {
    var h' := GatedHistory(user, agentId, action, params, h, now);
    forall k | k in h'
      ensures IsSubsequence(h'[k], Entries(h, k))
    {
      if k in h && h'[k] == h[k] {
        SubsequenceRefl(h[k]);
      } else {
        FilterIsSubsequence(Entries(h, k), t => now - t < Window);
      }
    }
  }
}
