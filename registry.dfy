/**
 * The tool registry of the MCP simulator: tool handlers and their
 * definitions, kept under the tool's name, and dispatch by name.
 * Handlers are opaque values of type `H`; what calling one produces is
 * supplied by the caller of `Execute` as a function `run`.
 */
module Registry {
  import opened Common

  datatype ToolParameter = ToolParameter(name: string, kind: string, description: string, required: bool := true)

  datatype ToolDefinition = ToolDefinition(name: string, description: string, parameters: seq<ToolParameter>)

  /** An exception a handler raises: a `ValueError` with its message, or any other kind. */
  datatype Exception = ValueError(message: string) | OtherError(kind: string)

  /** What calling a handler produced. */
  datatype Outcome<R> = Returned(value: R) | Raised(error: Exception)

  predicate Distinct<T(==)>(s: seq<T>) {
    forall i, j :: 0 <= i < j < |s| ==> s[i] != s[j]
  }

  /** The values of a dictionary, in the order its keys were first inserted. */
  function ValuesInOrder(defs: map<string, ToolDefinition>, order: seq<string>): (r: seq<ToolDefinition>)
    requires forall k :: 0 <= k < |order| ==> order[k] in defs
    ensures |r| == |order|
    ensures forall k :: 0 <= k < |order| ==> r[k] == defs[order[k]]
  {
    if order == [] then [] else [defs[order[0]]] + ValuesInOrder(defs, order[1..])
  }

  /** The message of the `ValueError` raised for an unknown tool name. */
  function NotFoundMessage(name: string): string {
    "Tool '" + name + "' not found"
  }

  class ToolRegistry<H> {
    var tools: map<string, H>
    var definitions: map<string, ToolDefinition>
    /** The keys of `definitions` in insertion order, which is the order of its values. */
    var order: seq<string>

    ghost predicate Valid()
      reads this
    {
      && tools.Keys == definitions.Keys
      && (forall k :: 0 <= k < |order| ==> order[k] in definitions)
      && (forall n :: n in definitions ==> n in order)
      && Distinct(order)
      && (forall n :: n in definitions ==> definitions[n].name == n)
    }

    constructor ()
      ensures Valid()
      ensures tools == map[] && definitions == map[] && order == []
    {
      tools := map[];
      definitions := map[];
      order := [];
    }

    /**
     * The `register(name, description, parameters)` decorator applied to
     * `func`: a name registered again gets the new handler and definition
     * and keeps its place in the listing.
     */
    method Register(name: string, description: string, parameters: seq<ToolParameter>, func: H) returns (f: H)
      requires Valid()
      modifies this
      ensures Valid()
      ensures f == func
      ensures tools == old(tools)[name := func]
      ensures definitions == old(definitions)[name := ToolDefinition(name, description, parameters)]
      ensures order == if name in old(definitions) then old(order) else old(order) + [name]
    {
      if name !in definitions {
        order := order + [name];
      }
      tools := tools[name := func];
      definitions := definitions[name := ToolDefinition(name, description, parameters)];
      f := func;
    }

    function GetTool(name: string): (r: Option<H>)
      reads this
      ensures r.Some? <==> name in tools
      ensures r.Some? ==> r.value == tools[name]
    {
      if name in tools then Some(tools[name]) else None
    }

    /** Every definition, once each, in the order the names were first registered. */
    function ListTools(): (r: seq<ToolDefinition>)
      requires Valid()
      reads this
      ensures |r| == |definitions| == |order|
      ensures forall k :: 0 <= k < |r| ==> r[k] == definitions[order[k]] && r[k].name == order[k]
      ensures forall n :: n in definitions <==> exists k :: 0 <= k < |r| && r[k].name == n
    {
      DistinctKeysCount(order, definitions);
      ValuesCoverKeys(definitions, order);
      ValuesInOrder(definitions, order)
    }

    /** `execute(name, params)`: the handler's outcome, or a `ValueError` for an unknown name. */
    function Execute<R>(name: string, params: Params, run: (H, Params) -> Outcome<R>): (r: Outcome<R>)
      reads this
      ensures name !in tools ==> r == Raised(ValueError(NotFoundMessage(name)))
      ensures name in tools ==> r == run(tools[name], params)
    {
      match GetTool(name)
      case None => Raised(ValueError(NotFoundMessage(name)))
      case Some(func) => run(func, params)
    }
  }

  /** The listed names are exactly the keys, when every definition is kept under its own name. */
  lemma ValuesCoverKeys(defs: map<string, ToolDefinition>, order: seq<string>)
    requires forall k :: 0 <= k < |order| ==> order[k] in defs
    requires forall n :: n in defs ==> n in order
    requires forall n :: n in defs ==> defs[n].name == n
    ensures var r := ValuesInOrder(defs, order);
      forall n :: n in defs <==> exists k :: 0 <= k < |r| && r[k].name == n
  {
    var r := ValuesInOrder(defs, order);
    forall n | n in defs
      ensures exists k :: 0 <= k < |r| && r[k].name == n
    {
      var k :| 0 <= k < |order| && order[k] == n;
      assert r[k].name == n;
    }
  }

  /** A sequence of distinct keys that covers a map's keys has as many elements as the map. */
  lemma {:induction false} DistinctKeysCount<V>(order: seq<string>, m: map<string, V>)
    requires Distinct(order)
    requires forall k :: 0 <= k < |order| ==> order[k] in m
    requires forall n :: n in m ==> n in order
    ensures |order| == |m|
    decreases |order|
  {
    if order == [] {
      assert m.Keys == {};
    } else {
      var rest := order[1..];
      var m' := map n | n in m && n != order[0] :: m[n];
      forall n | n in m'
        ensures n in rest
      {
        var k :| 0 <= k < |order| && order[k] == n;
        assert k != 0;
        assert rest[k - 1] == n;
      }
      forall k | 0 <= k < |rest|
        ensures rest[k] in m'
      {
        assert order[k + 1] == rest[k];
        assert order[0] != order[k + 1];
      }
      DistinctKeysCount(rest, m');
      assert m.Keys == m'.Keys + {order[0]};
    }
  }

  /**
   * Registering a second handler under a name already in use replaces the
   * first: lookups find the second one and the listing holds one entry.
   */
  method ReRegisterReplaces<H>(first: H, second: H) returns (found: Option<H>, listed: seq<ToolDefinition>)
    ensures found == Some(second)
    ensures listed == [ToolDefinition("infra.restart", "second", [])]
  {
    var reg := new ToolRegistry<H>();
    var f1 := reg.Register("infra.restart", "first", [], first);
    var f2 := reg.Register("infra.restart", "second", [], second);
    found := reg.GetTool("infra.restart");
    listed := reg.ListTools();
  }
}
