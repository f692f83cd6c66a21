/**
 * What the advisor's layers get from outside: the MCP tool session they
 * call tools through, and the Python library routines (`json.loads`,
 * `json.dumps`, `eval`, `str`, numeric parsing) whose internals are not
 * part of this model and are therefore passed in as functions.
 */
module Mcp {
  import opened Python

  /**
   * The library routines as oracles.
   *   loads        json.loads: the decoded value or the JSONDecodeError message
   *   literalEval  eval of a tool reply, when it yields a JSON-shaped value
   *   parseFloat   float() of a string ("inf" included)
   *   parseInt     int() of a string
   *   show         str() of a value
   *   dumps        json.dumps of a value
   */
  datatype Runtime = Runtime(
    loads: string -> Result<Json, string>,
    literalEval: string -> Option<Json>,
    parseFloat: string -> Option<Num>,
    parseInt: string -> Option<int>,
    show: Json -> string,
    dumps: Json -> string)

  /** `json.loads` with its exception as a failure. */
  function Decode(rt: Runtime, text: string): (r: Result<Json, Failure>)
    ensures r.Ok? <==> rt.loads(text).Ok?
    ensures r.Ok? ==> r.value == rt.loads(text).value
  {
    match rt.loads(text)
    case Ok(v) => Ok(v)
    case Err(m) => Err(DecodeError(m))
  }

  /** One `session.call_tool(name, arguments=args)`. */
  datatype Call = Call(tool: string, args: Json)

  /**
   * How the tool server answers: the text of the first content item of the
   * reply, or the message of the exception the call raised.
   */
  type Responder = (string, Json) -> Result<string, string>

  function Remote(respond: Responder, tool: string, args: Json): (r: Result<string, Failure>)
    ensures r.Ok? <==> respond(tool, args).Ok?
    ensures r.Ok? ==> r.value == respond(tool, args).value
    ensures r.Err? ==> r.error == RemoteError(respond(tool, args).error)
  {
    match respond(tool, args)
    case Ok(text) => Ok(text)
    case Err(m) => Err(RemoteError(m))
  }

  /** Call logs concatenate associatively. */
  lemma CallsAssociate(a: seq<Call>, b: seq<Call>, c: seq<Call>)
    ensures a + b + c == a + (b + c)
  {
  }

  /** An MCP client session; `log` records every tool call made through it. */
  class ToolSession {
    const respond: Responder
    var log: seq<Call>

    constructor (respond: Responder)
      ensures this.respond == respond
      ensures log == []
    {
      this.respond := respond;
      log := [];
    }

    method CallTool(tool: string, args: Json) returns (r: Result<string, Failure>)
      modifies this
      ensures log == old(log) + [Call(tool, args)]
      ensures r == Remote(respond, tool, args)
    {
      log := log + [Call(tool, args)];
      r := Remote(respond, tool, args);
    }
  }
}
