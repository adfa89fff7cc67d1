/**
 * One orchestrator cycle (backend/orchestrator/runner.py): authenticate,
 * obtain a plan from the agent, normalise it, have it approved, then run
 * its steps in order, skipping steps without an action and stopping at the
 * first failure. Everything behind the network is a parameter: the token
 * request, the agent's reply, the governance call and, per plan position,
 * what invoking that step returns.
 */
module Orchestrator {
  import opened Common

  /** A plan step: `step.get("action")` and `step.get("params")`. */
  datatype Step = Step(action: Value, params: Option<Params>)

  /** What the agent returned: a dictionary, or something else. */
  datatype AgentReply =
    | PlanObject(goal: Value, steps: Option<seq<Step>>, raw: Option<string>)
    | Malformed(text: string)

  /** A call across the network that either answers or raises. */
  datatype Attempt<T> = Answered(value: T) | Failed(error: string)

  /** One entry of the execution log. */
  datatype StepLog =
    | StepSucceeded(action: Value, params: Params, output: Value)
    | StepFailed(action: Value, params: Params, error: string)

  /** What the cycle returns. */
  datatype ResultLog = ResultLog(status: string, plan: AgentReply, governance: Option<string>, execution: seq<StepLog>)

  datatype CycleResult =
    | AuthError(message: string)
    | NoSteps(message: string, log: ResultLog)
    | Blocked(error: string, log: ResultLog)
    | Completed(log: ResultLog)

  /** A reply that is not a dictionary is replaced by an error plan with no steps. */
  function Normalise(reply: AgentReply): (plan: AgentReply)
    ensures plan.PlanObject?
    ensures reply.PlanObject? ==> plan == reply
    ensures reply.Malformed? ==> plan.goal == VStr("Error") && plan.steps == Some([])
  {
    match reply
    case PlanObject(_, _, _) => reply
    case Malformed(text) => PlanObject(VStr("Error"), Some([]), Some(text))
  }

  /** `plan["steps"]` once the plan is known to have some. */
  function Steps(plan: AgentReply): seq<Step> {
    if plan.PlanObject? && plan.steps.Some? then plan.steps.value else []
  }

  /** `plan.get("steps")` is truthy. */
  predicate HasSteps(plan: AgentReply) {
    plan.PlanObject? && plan.steps.Some? && |plan.steps.value| > 0
  }

  /** `step.get("params", {})`. */
  function ParamsOf(step: Step): Params {
    if step.params.Some? then step.params.value else map[]
  }

  predicate Actionable(step: Step) {
    Truthy(step.action)
  }

  /** The log that running the steps from position `i` produces. */
  function RunFrom(steps: seq<Step>, i: nat, invoke: (nat, Value, Params) -> Attempt<Value>): (log: seq<StepLog>)
    ensures forall k :: 0 <= k < |log| - 1 ==> log[k].StepSucceeded?
    ensures forall k :: 0 <= k < |log| ==> Truthy(log[k].action)
    ensures |log| <= ActionableCount(steps, i)
    decreases |steps| - i
  {
    if i >= |steps| then []
    else if !Actionable(steps[i]) then RunFrom(steps, i + 1, invoke)
    else
      var step := steps[i];
      var answer := invoke(i, step.action, ParamsOf(step));
      if answer.Failed? then [StepFailed(step.action, ParamsOf(step), answer.error)]
      else [StepSucceeded(step.action, ParamsOf(step), answer.value)] + RunFrom(steps, i + 1, invoke)
  }

  /** How many steps from position `i` on have an action. */
  function ActionableCount(steps: seq<Step>, i: nat): nat
    decreases |steps| - i
  {
    if i >= |steps| then 0
    else (if Actionable(steps[i]) then 1 else 0) + ActionableCount(steps, i + 1)
  }

  /** The execution loop: one log entry per actionable step, stopping after the first failure. */
  method ExecuteSteps(steps: seq<Step>, invoke: (nat, Value, Params) -> Attempt<Value>) returns (log: seq<StepLog>)
    ensures log == RunFrom(steps, 0, invoke)
  {
    log := [];
    for i := 0 to |steps|
      invariant log + RunFrom(steps, i, invoke) == RunFrom(steps, 0, invoke)
    {
      var step := steps[i];
      if !Truthy(step.action) {
        continue;
      }
      var params := ParamsOf(step);
      var stepLog: StepLog;
      match invoke(i, step.action, params) {
        case Failed(e) =>
          assert RunFrom(steps, i, invoke) == [StepFailed(step.action, params, e)];
          log := log + [StepFailed(step.action, params, e)];
          return;
        case Answered(out) =>
          stepLog := StepSucceeded(step.action, params, out);
      }
      assert RunFrom(steps, i, invoke) == [stepLog] + RunFrom(steps, i + 1, invoke);
      log := log + [stepLog];
    }
  }

  /**
   * `execute_cycle`. `token` is the identity provider's answer, `reply` the
   * agent's, `govern` what capturing the plan and asking for its intent
   * token answers, and `invoke` what each step's invocation answers.
   */
  method ExecuteCycle(token: Attempt<string>, reply: AgentReply, govern: AgentReply -> Attempt<string>,
                      invoke: (nat, Value, Params) -> Attempt<Value>)
    returns (r: CycleResult)
    ensures token.Failed? ==> r == AuthError("Authentication failed: " + token.error)
    ensures token.Answered? && !HasSteps(Normalise(reply)) ==>
      r == NoSteps("No steps", ResultLog("pending", Normalise(reply), None, []))
    ensures token.Answered? && HasSteps(Normalise(reply)) && govern(Normalise(reply)).Failed? ==>
      var e := govern(Normalise(reply)).error;
      r == Blocked(e, ResultLog("pending", Normalise(reply), Some("blocked: " + e), []))
    ensures token.Answered? && HasSteps(Normalise(reply)) && govern(Normalise(reply)).Answered? ==>
      r == Completed(ResultLog("success", Normalise(reply), Some("approved"), RunFrom(Steps(Normalise(reply)), 0, invoke)))
  {
    if token.Failed? {
      return AuthError("Authentication failed: " + token.error);
    }
    var plan := reply;
    if !plan.PlanObject? {
      plan := PlanObject(VStr("Error"), Some([]), Some(plan.text));
    }
    var log := ResultLog("pending", plan, None, []);
    if !HasSteps(plan) {
      return NoSteps("No steps", log);
    }
    var approval := govern(plan);
    if approval.Failed? {
      log := log.(governance := Some("blocked: " + approval.error));
      return Blocked(approval.error, log);
    }
    log := log.(governance := Some("approved"));
    var execution := ExecuteSteps(Steps(plan), invoke);
    log := log.(execution := execution, status := "success");
    return Completed(log);
  }

  // ----- Properties of the step loop -----

  /** Skipping: a step without an action adds nothing and invokes nothing. */
  lemma SkippedStepAddsNothing(steps: seq<Step>, i: nat, invoke: (nat, Value, Params) -> Attempt<Value>)
    requires i < |steps| && !Actionable(steps[i])
    ensures RunFrom(steps, i, invoke) == RunFrom(steps, i + 1, invoke)
  {
  }

  /** The positions up to `f` answer the same under both invocation outcomes. */
  predicate AgreeUpTo(steps: seq<Step>, f: nat, inv1: (nat, Value, Params) -> Attempt<Value>,
                      inv2: (nat, Value, Params) -> Attempt<Value>)
  {
    forall j :: 0 <= j <= f && j < |steps| ==>
      inv1(j, steps[j].action, ParamsOf(steps[j])) == inv2(j, steps[j].action, ParamsOf(steps[j]))
  }

  /**
   * Nothing runs after a failure: once the step at `f` fails, what later
   * invocations would answer makes no difference to the log.
   */
  lemma {:induction false} NothingRunsAfterFailure(steps: seq<Step>, i: nat, f: nat,
                                                   inv1: (nat, Value, Params) -> Attempt<Value>,
                                                   inv2: (nat, Value, Params) -> Attempt<Value>)
    requires i <= f < |steps| && Actionable(steps[f])
    requires inv1(f, steps[f].action, ParamsOf(steps[f])).Failed?
    requires AgreeUpTo(steps, f, inv1, inv2)
    ensures RunFrom(steps, i, inv1) == RunFrom(steps, i, inv2)
    ensures || (|RunFrom(steps, i, inv1)| > 0 && RunFrom(steps, i, inv1)[|RunFrom(steps, i, inv1)| - 1].StepFailed?)
            || (exists j :: i <= j < f && Actionable(steps[j]) && inv1(j, steps[j].action, ParamsOf(steps[j])).Failed?)
    decreases f - i
  {
    if i < f {
      NothingRunsAfterFailure(steps, i + 1, f, inv1, inv2);
      if Actionable(steps[i]) && inv1(i, steps[i].action, ParamsOf(steps[i])).Answered? {
        var rest := RunFrom(steps, i + 1, inv1);
        assert RunFrom(steps, i, inv1) == [StepSucceeded(steps[i].action, ParamsOf(steps[i]),
                                                         inv1(i, steps[i].action, ParamsOf(steps[i])).value)] + rest;
      }
    }
  }

  /** When every actionable step answers, each one is logged as a success, in plan order. */
  lemma {:induction false} AllAnsweredRunsAll(steps: seq<Step>, i: nat, invoke: (nat, Value, Params) -> Attempt<Value>)
    requires forall j :: i <= j < |steps| && Actionable(steps[j]) ==> invoke(j, steps[j].action, ParamsOf(steps[j])).Answered?
    ensures |RunFrom(steps, i, invoke)| == ActionableCount(steps, i)
    ensures forall k :: 0 <= k < |RunFrom(steps, i, invoke)| ==> RunFrom(steps, i, invoke)[k].StepSucceeded?
    decreases |steps| - i
  {
    if i < |steps| {
      AllAnsweredRunsAll(steps, i + 1, invoke);
    }
  }

  /** A plan whose first actionable step fails logs exactly that failure. */
  lemma FirstStepFails(steps: seq<Step>, invoke: (nat, Value, Params) -> Attempt<Value>)
    requires |steps| > 0 && Actionable(steps[0]) && invoke(0, steps[0].action, ParamsOf(steps[0])).Failed?
    ensures RunFrom(steps, 0, invoke) == [StepFailed(steps[0].action, ParamsOf(steps[0]),
                                                     invoke(0, steps[0].action, ParamsOf(steps[0])).error)]
  {
  }

  /** A malformed reply ends the cycle with "No steps" before governance or any step runs. */
  lemma MalformedReplyRunsNothing(text: string)
    ensures !HasSteps(Normalise(Malformed(text)))
    ensures Normalise(Malformed(text)) == PlanObject(VStr("Error"), Some([]), Some(text))
  {
  }

  /** A step without params is invoked with an empty dictionary. */
  lemma MissingParamsAreEmpty(action: Value)
    ensures ParamsOf(Step(action, None)) == map[]
  {
  }

  /** A failing step still ends the cycle with status "success" and the failure in the log. */
  method FailureStillSucceeds(plan: seq<Step>, invoke: (nat, Value, Params) -> Attempt<Value>)
    returns (r: CycleResult)
    requires |plan| > 0 && Actionable(plan[0]) && invoke(0, plan[0].action, ParamsOf(plan[0])).Failed?
    ensures r.Completed? && r.log.status == "success"
    ensures |r.log.execution| == 1 && r.log.execution[0].StepFailed?
  {
    var reply := PlanObject(VStr("fix"), Some(plan), None);
    r := ExecuteCycle(Answered("token"), reply, (p: AgentReply) => Answered("intent"), invoke);
    FirstStepFails(plan, invoke);
  }
}
