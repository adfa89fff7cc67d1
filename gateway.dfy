/**
 * The MCP simulator's standard endpoints: the manifest, the tool listing
 * and token-gated tool execution. The intent token is checked only for
 * presence and against the one rejected value; signatures are not checked.
 */
module McpServer {
  import opened Common
  import opened Registry

  datatype ExecuteRequest = ExecuteRequest(toolName: string, parameters: Params, intentToken: string)

  /** The JSON body of a successful call, or the HTTP error raised instead. */
  datatype Response<R> =
    | Executed(status: string, result: R)
    | HttpFailure(code: int, detail: string)

  datatype Manifest = Manifest(mcpId: string, version: string, description: string, tools: seq<ToolDefinition>, scopes: seq<string>)

  const MissingTokenDetail := "Missing ArmorIQ Intent Token"
  const InvalidTokenDetail := "Invalid ArmorIQ Intent Token"
  const ExecutionErrorDetail := "Internal Server Error during execution"

  /** The simulated token validation: every non-empty token other than "invalid-token" passes. */
  function VerifyToken(token: string): (ok: bool)
    ensures ok <==> token != "" && token != "invalid-token"
  {
    if token == "" || token == "invalid-token" then false else true
  }

  function GetMeta<H>(reg: ToolRegistry<H>): (m: Manifest)
    requires reg.Valid()
    reads reg
    ensures m.mcpId == "mcp-simulator-001" && m.version == "1.0.0"
    ensures m.scopes == ["infra", "alerts"]
    ensures m.tools == reg.ListTools()
  {
    Manifest("mcp-simulator-001", "1.0.0", "Simulator for Infrastructure and Alerts", reg.ListTools(), ["infra", "alerts"])
  }

  function ListToolsEndpoint<H>(reg: ToolRegistry<H>): (tools: seq<ToolDefinition>)
    requires reg.Valid()
    reads reg
    ensures |tools| == |reg.definitions|
    ensures forall n :: n in reg.definitions <==> exists k :: 0 <= k < |tools| && tools[k].name == n
  {
    reg.ListTools()
  }

  /**
   * `POST /mcp/tools/execute`: token presence, token validity, tool lookup,
   * then the call, whose `ValueError` becomes a 400 carrying its message
   * and whose other exceptions become a 500.
   */
  function ExecuteTool<H, R>(reg: ToolRegistry<H>, req: ExecuteRequest, run: (H, Params) -> Outcome<R>): (resp: Response<R>)
    reads reg
    ensures !VerifyToken(req.intentToken) ==> resp.HttpFailure? && resp.code in {401, 403}
    ensures resp.Executed? ==>
      req.toolName in reg.tools && run(reg.tools[req.toolName], req.parameters) == Returned(resp.result)
  {
    if req.intentToken == "" then HttpFailure(401, MissingTokenDetail)
    else if !VerifyToken(req.intentToken) then HttpFailure(403, InvalidTokenDetail)
    else
      match reg.GetTool(req.toolName)
      case None => HttpFailure(404, "Tool '" + req.toolName + "' not found")
      case Some(func) =>
        match run(func, req.parameters)
        case Returned(v) => Executed("success", v)
        case Raised(ValueError(msg)) => HttpFailure(400, msg)
        case Raised(OtherError(_)) => HttpFailure(500, ExecutionErrorDetail)
  }

  /** Which response each combination of token, registry and handler outcome gets. */
  lemma ExecuteToolResponses<H, R>(reg: ToolRegistry<H>, req: ExecuteRequest, run: (H, Params) -> Outcome<R>)
    ensures var resp := ExecuteTool(reg, req, run);
      && (resp == HttpFailure(401, MissingTokenDetail) <==> req.intentToken == "")
      && (resp == HttpFailure(403, InvalidTokenDetail) <==> req.intentToken == "invalid-token")
      && (resp.HttpFailure? && resp.code == 404 <==> VerifyToken(req.intentToken) && req.toolName !in reg.tools)
      && (resp.Executed? <==>
            VerifyToken(req.intentToken) && req.toolName in reg.tools
            && run(reg.tools[req.toolName], req.parameters).Returned?)
      && (resp.Executed? ==> resp == Executed("success", run(reg.tools[req.toolName], req.parameters).value))
      && (resp.HttpFailure? && resp.code == 400 <==>
            VerifyToken(req.intentToken) && req.toolName in reg.tools
            && run(reg.tools[req.toolName], req.parameters).Raised?
            && run(reg.tools[req.toolName], req.parameters).error.ValueError?)
      && (resp.HttpFailure? && resp.code == 400 ==>
            resp.detail == run(reg.tools[req.toolName], req.parameters).error.message)
      && (resp.HttpFailure? && resp.code == 500 <==>
            VerifyToken(req.intentToken) && req.toolName in reg.tools
            && run(reg.tools[req.toolName], req.parameters).Raised?
            && run(reg.tools[req.toolName], req.parameters).error.OtherError?)
  {
  }

  /**
   * A request whose token is missing or rejected gets the same response
   * whatever is registered and whatever the handlers would do: no tool runs.
   */
  lemma RejectedTokenRunsNothing<H, R>(reg1: ToolRegistry<H>, reg2: ToolRegistry<H>, req: ExecuteRequest,
                                       run1: (H, Params) -> Outcome<R>, run2: (H, Params) -> Outcome<R>)
    requires !VerifyToken(req.intentToken)
    ensures ExecuteTool(reg1, req, run1) == ExecuteTool(reg2, req, run2)
    ensures ExecuteTool(reg1, req, run1).HttpFailure?
    ensures ExecuteTool(reg1, req, run1).code in {401, 403}
  {
  }

  /** An unknown tool name gets a 404 whatever the registered handlers would do. */
  lemma UnknownToolRunsNothing<H, R>(reg: ToolRegistry<H>, req: ExecuteRequest,
                                     run1: (H, Params) -> Outcome<R>, run2: (H, Params) -> Outcome<R>)
    requires VerifyToken(req.intentToken) && req.toolName !in reg.tools
    ensures ExecuteTool(reg, req, run1) == ExecuteTool(reg, req, run2)
    ensures ExecuteTool(reg, req, run1) == HttpFailure(404, NotFoundMessage(req.toolName))
  {
  }

  /**
   * Past the token check, the endpoint answers as the registry's own
   * `execute` does: success with the handler's value, or the error its
   * exception maps to (the registry's unknown-name `ValueError` is the 404).
   */
  lemma EndpointAgreesWithRegistry<H, R>(reg: ToolRegistry<H>, req: ExecuteRequest, run: (H, Params) -> Outcome<R>)
    requires VerifyToken(req.intentToken) && req.toolName in reg.tools
    ensures match reg.Execute(req.toolName, req.parameters, run)
      case Returned(v) => ExecuteTool(reg, req, run) == Executed("success", v)
      case Raised(ValueError(m)) => ExecuteTool(reg, req, run) == HttpFailure(400, m)
      case Raised(OtherError(_)) => ExecuteTool(reg, req, run) == HttpFailure(500, ExecutionErrorDetail)
  {
  }
}
