/**
 * The tool-plan executor that the action layer (`ActionLayer.execute_tool_plan`)
 * and the older client (`SmartPurchaseAdvisorClient.execute_tool_plan`) share.
 * A plan step names a tool under one of several aliases; the executor fills
 * the tool's arguments from the per-request product state and from earlier
 * results, calls the tool, and either accumulates a result map or gives up
 * the whole plan with the first exception's message.
 *
 * The two copies differ only in how they hand arguments to the tool (the
 * action layer wraps them as {"input": ...}) and in how `show_reasoning` and
 * `review_consistency_check` read earlier results; `Dialect` says which copy
 * is meant.
 */
module ToolPlan {
  import opened Python
  import opened Mcp
  import Server

  datatype Dialect = ActionDialect | ClientDialect

  /** What the executor reads from its object: `self.product_info` and `self.current_site`. */
  datatype Ctx = Ctx(productInfo: Json, currentSite: Json)

  /** A normalised step: the tool name (JNull when none is given) and the tool input. */
  datatype Step = Step(name: Json, input: Json)

  // ----- step normalisation -----

  /** `tool_call["function"]`, when `"function" in tool_call`. */
  function FunctionValue(call: Json): (r: Result<Option<Json>, Failure>)
    requires IsContainer(call)
    ensures call.JObj? ==> r == Ok(if "function" in call.fields then Some(call.fields["function"]) else None)
  {
    if In(call, "function") then
      var f :- Subscript(call, "function");
      Ok(Some(f))
    else Ok(None)
  }

  /** `"function" in tool_call and key in tool_call["function"]`, giving the function value when true. */
  function FunctionWith(call: Json, key: string): (r: Result<Option<Json>, Failure>)
    requires IsContainer(call)
    ensures r.Ok? && r.value.Some? ==> Contains(r.value.value, key) == Ok(true)
  {
    var f :- FunctionValue(call);
    if f.None? then Ok(None)
    else
      var has :- Contains(f.value, key);
      if has then Ok(Some(f.value)) else Ok(None)
  }

  /** The step's "function" entry is an object holding `key`. */
  predicate FunctionHas(m: map<string, Json>, key: string) {
    "function" in m && m["function"].JObj? && key in m["function"].fields
  }

  /** The step's "function" entry, if any, is an object (so looking into it cannot raise). */
  predicate PlainFunction(m: map<string, Json>) {
    "function" !in m || m["function"].JObj?
  }

  /** The name alias priority on a step object: tool, tool_name, function.name, name. */
  function NameAlias(m: map<string, Json>): Json {
    if "tool" in m then m["tool"]
    else if "tool_name" in m then m["tool_name"]
    else if FunctionHas(m, "name") then m["function"].fields["name"]
    else if "name" in m then m["name"]
    else JNull
  }

  /** The input alias priority on a step object: input, parameters, arguments, function.arguments, else {}. */
  function InputAlias(m: map<string, Json>): Json {
    if "input" in m then m["input"]
    else if "parameters" in m then m["parameters"]
    else if "arguments" in m then m["arguments"]
    else if FunctionHas(m, "arguments") then m["function"].fields["arguments"]
    else JObj(map[])
  }

  /** The tool name of a step. */
  function NameOf(call: Json): (r: Result<Json, Failure>)
    requires IsContainer(call)
    ensures call.JObj? && r.Ok? ==> r.value == NameAlias(call.fields)
    ensures call.JObj? && PlainFunction(call.fields) ==> r.Ok?
    ensures call.JObj? && r.Err? ==>
      "tool" !in call.fields && "tool_name" !in call.fields && !PlainFunction(call.fields)
  {
    if In(call, "tool") then Subscript(call, "tool")
    else if In(call, "tool_name") then Subscript(call, "tool_name")
    else
      var f :- FunctionWith(call, "name");
      if f.Some? then Subscript(f.value, "name")
      else if In(call, "name") then Subscript(call, "name")
      else Ok(JNull)
  }

  /** The tool input of a step. */
  function InputOf(call: Json): (r: Result<Json, Failure>)
    requires IsContainer(call)
    ensures call.JObj? && r.Ok? ==> r.value == InputAlias(call.fields)
    ensures call.JObj? && PlainFunction(call.fields) ==> r.Ok?
    ensures call.JObj? && r.Err? ==>
      "input" !in call.fields && "parameters" !in call.fields && "arguments" !in call.fields
      && !PlainFunction(call.fields)
  {
    if In(call, "input") then Subscript(call, "input")
    else if In(call, "parameters") then Subscript(call, "parameters")
    else if In(call, "arguments") then Subscript(call, "arguments")
    else
      var f :- FunctionWith(call, "arguments");
      if f.Some? then Subscript(f.value, "arguments")
      else Ok(JObj(map[]))
  }

  /** Name first, then input, as the loop body looks them up. */
  function Normalize(call: Json): (r: Result<Step, Failure>)
    ensures !IsContainer(call) ==> r == Err(NotContainer(TypeName(call)))
    ensures call.JObj? && PlainFunction(call.fields) ==>
      r == Ok(Step(NameAlias(call.fields), InputAlias(call.fields)))
    ensures call.JObj? && r.Ok? ==> r.value == Step(NameAlias(call.fields), InputAlias(call.fields))
  {
    if !IsContainer(call) then Err(NotContainer(TypeName(call)))
    else
      var name :- NameOf(call);
      var input :- InputOf(call);
      Ok(Step(name, input))
  }

  // ----- what each tool is sent -----

  /** The names the executor recognises. */
  const ToolNames: set<string> := {
    "classify_product", "review_summary", "review_summary_tool", "calculate_confidence_score",
    "self_check_tool_results", "show_reasoning", "calculate", "verify",
    "review_consistency_check", "check_consistency" }

  /** The keys under which results are stored. */
  const ResultKeys: set<string> := {
    "classify_product", "review_summary_tool", "calculate_confidence_score",
    "self_check_tool_results", "show_reasoning", "calculate", "verify",
    "review_consistency_check", "check_consistency" }

  predicate KnownTool(name: Json) { name.JStr? && name.s in ToolNames }

  /** How the reply text becomes the stored result: kept, `json.loads`, or `eval` with the raw text as fallback. */
  datatype Post = Raw | DecodeReply | Literal

  datatype Prepared =
    | Skip                                                     // unknown tool: logged and ignored
    | Invoke(tool: string, args: Json, key: string, post: Post)

  function Wrap(d: Dialect, args: Json): Json {
    match d
    case ActionDialect => JObj(map["input" := args])
    case ClientDialect => args
  }

  function ClassifyCall(d: Dialect, ctx: Ctx, input: Json): (r: Result<Prepared, Failure>)
    ensures r.Ok? ==> r.value.Invoke? && r.value.key == "classify_product"
  {
    var step :- AsDict(input);
    var title :- Subscript(ctx.productInfo, "title");
    Ok(Invoke("classify_product", Wrap(d, JObj(map["title" := Get(step, "title", title)])),
              "classify_product", Raw))
  }

  /** The arguments `review_summary_tool` gets; reviews come from the product, never from the step. */
  function SummaryArgs(ctx: Ctx, step: map<string, Json>, title: Json): Json
    requires ctx.productInfo.JObj?
  {
    JObj(map[
      "product" := Get(step, "product", Get(step, "product_title", title)),
      "site" := Get(step, "site", ctx.currentSite),
      "reviews" := Get(ctx.productInfo.fields, "reviews", JArr([])),
      "num_reviews" := Get(step, "num_reviews", JInt(1000))])
  }

  function SummaryCall(d: Dialect, ctx: Ctx, input: Json): (r: Result<Prepared, Failure>)
    ensures r.Ok? <==> input.JObj? && ctx.productInfo.JObj? && "title" in ctx.productInfo.fields
    ensures r.Ok? ==> r.value == Invoke("review_summary_tool",
      Wrap(d, SummaryArgs(ctx, input.fields, ctx.productInfo.fields["title"])), "review_summary_tool", DecodeReply)
  {
    var step :- AsDict(input);
    var title :- Subscript(ctx.productInfo, "title");
    Ok(Invoke("review_summary_tool", Wrap(d, SummaryArgs(ctx, step, title)), "review_summary_tool", DecodeReply))
  }

  function ConfidenceCall(d: Dialect, results: map<string, Json>): (r: Result<Prepared, Failure>)
    ensures r.Err? <==> "review_summary_tool" !in results
    ensures r.Err? ==> r.error == KeyError("review_summary_tool")
    ensures r.Ok? ==> r.value == Invoke("calculate_confidence_score",
      Wrap(d, JObj(map["sentiment_data" := results["review_summary_tool"]])), "calculate_confidence_score", DecodeReply)
  {
    var summary :- Lookup(results, "review_summary_tool");
    Ok(Invoke("calculate_confidence_score", Wrap(d, JObj(map["sentiment_data" := summary])),
              "calculate_confidence_score", DecodeReply))
  }

  function SelfCheckCall(d: Dialect, results: map<string, Json>): Prepared {
    Invoke("self_check_tool_results", Wrap(d, JObj(map["tools_results" := JObj(results)])),
           "self_check_tool_results", DecodeReply)
  }

  /**
   * The action layer's reading of an earlier result for `show_reasoning`:
   * a string is decoded first (an undecodable one leaves the defaults, None);
   * anything else must be a dict, a missing entry counting as {}.
   */
  function Upstream(results: map<string, Json>, key: string, rt: Runtime): (r: Result<Option<map<string, Json>>, Failure>)
    ensures key !in results ==> r == Ok(Some(map[]))
    ensures key in results && results[key].JObj? ==> r == Ok(Some(results[key].fields))
    ensures key in results && results[key].JStr? && rt.loads(results[key].s).Err? ==> r == Ok(None)
    ensures key in results && results[key].JStr? && rt.loads(results[key].s).Ok? ==>
      r == (var x := rt.loads(results[key].s).value;
            if x.JObj? then Ok(Some(x.fields)) else Err(AttributeError(TypeName(x), "get")))
    ensures r.Err? <==> (key in results && !results[key].JObj? &&
      (!results[key].JStr? || (rt.loads(results[key].s).Ok? && !rt.loads(results[key].s).value.JObj?)))
  {
    var v := Get(results, key, JNull);
    if v.JStr? then
      match rt.loads(v.s)
      case Err(_) => Ok(None)
      case Ok(x) => (var m :- AsDict(x); Ok(Some(m)))
    else
      var m :- AsDict(Get(results, key, JObj(map[])));
      Ok(Some(m))
  }

  /** `review_summary.get(key, default)` when the summary was read, else the default. */
  function Field(o: Option<map<string, Json>>, key: string, default: Json): (r: Json)
    ensures o.None? ==> r == default
    ensures o.Some? ==> r == Get(o.value, key, default)
  {
    if o.Some? then Get(o.value, key, default) else default
  }

  function ActionProductData(title: Json, summary: Option<map<string, Json>>,
                             confidence: Option<map<string, Json>>, check: Option<map<string, Json>>): Json
  {
    JObj(map[
      "product_name" := title,
      "sentiment_score" := Field(summary, "sentiment_score", JInt(0)),
      "review_count" := Field(summary, "review_count", JInt(0)),
      "pros" := Field(summary, "pros", JArr([])),
      "cons" := Field(summary, "cons", JArr([])),
      "confidence_score" := Field(confidence, "confidence_score", JInt(0)),
      "reliability_score" := Field(check, "reliability_score", JInt(0)),
      "reliability_level" := Field(check, "reliability_level", JStr("Unknown"))])
  }

  function ClientProductData(title: Json, summary: map<string, Json>,
                             confidence: map<string, Json>, check: map<string, Json>): Json
  {
    JObj(map[
      "product_name" := title,
      "sentiment_score" := Get(summary, "sentiment_score", JFloat(0.0)),
      "review_count" := Get(summary, "review_count", JInt(0)),
      "pros" := Get(summary, "pros", JArr([])),
      "cons" := Get(summary, "cons", JArr([])),
      "confidence_score" := Get(confidence, "confidence_score", JFloat(0.0)),
      "reliability_score" := Get(check, "reliability_score", JFloat(0.0)),
      "reliability_level" := Get(check, "reliability_level", JStr("Unknown"))])
  }

  function ReasoningCall(d: Dialect, ctx: Ctx, results: map<string, Json>, rt: Runtime): (r: Result<Prepared, Failure>)
    ensures !ctx.productInfo.JObj? ==> r == Err(AttributeError(TypeName(ctx.productInfo), "get"))
    ensures r.Ok? ==> r.value.Invoke? && r.value.tool == "show_reasoning" && r.value.key == "show_reasoning"
  {
    var info :- AsDict(ctx.productInfo);
    var title := Get(info, "title", JStr("Unknown Product"));
    match d
    case ActionDialect =>
      var summary :- Upstream(results, "review_summary_tool", rt);
      var confidence :- Upstream(results, "calculate_confidence_score", rt);
      var check :- Upstream(results, "self_check_tool_results", rt);
      Ok(Invoke("show_reasoning", Wrap(d, JObj(map["product_data" := ActionProductData(title, summary, confidence, check)])),
                "show_reasoning", Raw))
    case ClientDialect =>
      var summary :- AsDict(Get(results, "review_summary_tool", JObj(map[])));
      var confidence :- AsDict(Get(results, "calculate_confidence_score", JObj(map[])));
      var check :- AsDict(Get(results, "self_check_tool_results", JObj(map[])));
      Ok(Invoke("show_reasoning", Wrap(d, JObj(map["product_data" := ClientProductData(title, summary, confidence, check)])),
                "show_reasoning", Raw))
  }

  function CalculateCall(d: Dialect, input: Json): (r: Result<Prepared, Failure>)
    ensures r.Ok? <==> input.JObj?
  {
    var step :- AsDict(input);
    Ok(Invoke("calculate", Wrap(d, JObj(map["expression" := Get(step, "expression", JStr(""))])), "calculate", Raw))
  }

  function VerifyCall(d: Dialect, input: Json, rt: Runtime): (r: Result<Prepared, Failure>)
    ensures r.Ok? ==> input.JObj? && PyFloat(Get(input.fields, "expected", JInt(0)), rt.parseFloat).Ok?
  {
    var step :- AsDict(input);
    var expected :- PyFloat(Get(step, "expected", JInt(0)), rt.parseFloat);
    Ok(Invoke("verify", Wrap(d, JObj(map["expression" := Get(step, "expression", JStr("")), "expected" := expected])),
              "verify", Raw))
  }

  function ReviewsData(summary: map<string, Json>): Json {
    JObj(map["reviews_data" := JObj(map[
      "reviews" := Get(summary, "reviews", JArr([])),
      "sentiments" := Get(summary, "sentiments", JArr([]))])])
  }

  /** The action layer defaults a missing summary to the string "{}", the client to {}. */
  function ConsistencyCall(d: Dialect, results: map<string, Json>): (r: Result<Prepared, Failure>)
    ensures r.Ok? ==> r.value.Invoke? && r.value.key == "review_consistency_check"
  {
    var fallback := match d case ActionDialect => JStr("{}") case ClientDialect => JObj(map[]);
    var summary :- AsDict(Get(results, "review_summary_tool", fallback));
    Ok(Invoke("review_consistency_check", Wrap(d, ReviewsData(summary)), "review_consistency_check", Raw))
  }

  function LegacyConsistencyCall(d: Dialect, input: Json): (r: Result<Prepared, Failure>)
    ensures r.Ok? <==> input.JObj?
  {
    var step :- AsDict(input);
    Ok(Invoke("check_consistency", Wrap(d, JObj(map["steps" := Get(step, "steps", JArr([]))])),
              "check_consistency", Literal))
  }

  /** The dispatch on the tool name, computing the call's arguments (which may raise). */
  function Prepare(d: Dialect, ctx: Ctx, results: map<string, Json>, step: Step, rt: Runtime): (r: Result<Prepared, Failure>)
    ensures r == Ok(Skip) <==> !KnownTool(step.name)
    ensures r.Ok? && r.value.Invoke? ==> r.value.key in ResultKeys
    ensures r.Ok? && r.value.Invoke? && d == ActionDialect ==>
      r.value.args.JObj? && r.value.args.fields.Keys == {"input"}
  {
    if !KnownTool(step.name) then Ok(Skip)
    else
      var n := step.name.s;
      if n == "classify_product" then ClassifyCall(d, ctx, step.input)
      else if n == "review_summary" || n == "review_summary_tool" then SummaryCall(d, ctx, step.input)
      else if n == "calculate_confidence_score" then ConfidenceCall(d, results)
      else if n == "self_check_tool_results" then Ok(SelfCheckCall(d, results))
      else if n == "show_reasoning" then ReasoningCall(d, ctx, results, rt)
      else if n == "calculate" then CalculateCall(d, step.input)
      else if n == "verify" then VerifyCall(d, step.input, rt)
      else if n == "review_consistency_check" then ConsistencyCall(d, results)
      else LegacyConsistencyCall(d, step.input)
  }

  function Finish(post: Post, text: string, rt: Runtime): (r: Result<Json, Failure>)
    ensures post == Raw ==> r == Ok(JStr(text))
    ensures post == DecodeReply ==> r == Decode(rt, text)
    ensures post == Literal ==> r.Ok?
  {
    match post
    case Raw => Ok(JStr(text))
    case DecodeReply => Decode(rt, text)
    case Literal => Ok(match rt.literalEval(text) case Some(v) => v case None => JStr(text))
  }

  // ----- the loop -----

  /** The outcome of some steps: the result map or the exception, and the tool calls made. */
  datatype StepRun = StepRun(results: Result<map<string, Json>, Failure>, calls: seq<Call>)

  /** One pass of the loop body. A call whose reply fails to decode has still been made. */
  function StepOf(d: Dialect, ctx: Ctx, results: map<string, Json>, call: Json,
                  respond: Responder, rt: Runtime): (r: StepRun)
    ensures |r.calls| <= 1
    ensures r.results.Ok? ==> results.Keys <= r.results.value.Keys <= results.Keys + ResultKeys
  {
    match Normalize(call)
    case Err(f) => StepRun(Err(f), [])
    case Ok(step) =>
      match Prepare(d, ctx, results, step, rt)
      case Err(f) => StepRun(Err(f), [])
      case Ok(Skip) => StepRun(Ok(results), [])
      case Ok(Invoke(tool, args, key, post)) =>
        match Remote(respond, tool, args)
        case Err(f) => StepRun(Err(f), [Call(tool, args)])
        case Ok(text) =>
          match Finish(post, text, rt)
          case Err(f) => StepRun(Err(f), [Call(tool, args)])
          case Ok(v) => StepRun(Ok(results[key := v]), [Call(tool, args)])
  }

  /** One more step after `prev`: nothing happens once an exception has been raised. */
  function Then(prev: StepRun, d: Dialect, ctx: Ctx, call: Json, respond: Responder, rt: Runtime): (r: StepRun)
    ensures prev.results.Err? ==> r == prev
  {
    match prev.results
    case Err(_) => prev
    case Ok(results) =>
      var last := StepOf(d, ctx, results, call, respond, rt);
      StepRun(last.results, prev.calls + last.calls)
  }

  /** The loop over a list of steps, from an empty result map; it stops at the first exception. */
  function RunSteps(d: Dialect, ctx: Ctx, items: seq<Json>, respond: Responder, rt: Runtime): StepRun
    decreases |items|
  {
    if items == [] then StepRun(Ok(map[]), [])
    else Then(RunSteps(d, ctx, items[..|items| - 1], respond, rt), d, ctx, items[|items| - 1], respond, rt)
  }

  /** The steps a string yields when iterated: its characters. */
  function CharSteps(s: string): (r: seq<Json>)
    ensures |r| == |s|
  {
    seq(|s|, i requires 0 <= i < |s| => JStr([s[i]]))
  }

  /** The steps a dict yields when iterated, in some order of its keys. */
  function KeySteps(keys: seq<string>): (r: seq<Json>)
    ensures |r| == |keys| && forall i :: 0 <= i < |keys| ==> r[i] == JStr(keys[i])
  {
    seq(|keys|, i requires 0 <= i < |keys| => JStr(keys[i]))
  }

  /**
   * `for tool_call in tool_plan["tool_calls"]` on whatever the plan holds there.
   * A dict yields its keys; the result does not depend on their order.
   */
  function LoopRun(d: Dialect, ctx: Ctx, toolCalls: Json, respond: Responder, rt: Runtime): StepRun {
    match toolCalls
    case JArr(items) => RunSteps(d, ctx, items, respond, rt)
    case JStr(s) => RunSteps(d, ctx, CharSteps(s), respond, rt)
    case JObj(m) =>
      if exists k :: k in m && KeyRaises(k) then StepRun(Err(StrIndices), [])
      else StepRun(Ok(map[]), [])
    case _ => StepRun(Err(NotIterable(TypeName(toolCalls))), [])
  }

  /** A dict key taken as a step raises (every such failure is StrIndices, see StringStep). */
  predicate KeyRaises(k: string) { Normalize(JStr(k)).Err? }

  /** What `execute_tool_plan` does with the exception or value: raise it, or return it. */
  datatype Outcome = Returned(value: Json) | Raised(failure: Failure)

  /** The whole call: its outcome, the map stored in `self.tool_results` (if any), and the calls made. */
  datatype PlanRun = PlanRun(outcome: Outcome, stored: Option<map<string, Json>>, calls: seq<Call>)

  function RunPlan(d: Dialect, ctx: Ctx, plan: Json, respond: Responder, rt: Runtime): (r: PlanRun)
    ensures r.stored.Some? ==> r.outcome == Returned(JObj(r.stored.value))
    ensures r.outcome.Returned? ==> r.outcome.value.JObj?
    ensures r.outcome.Raised? ==> r.calls == []
  {
    if !IsContainer(plan) then PlanRun(Raised(NotContainer(TypeName(plan))), None, [])
    else if In(plan, "error") then
      match Subscript(plan, "error")
      case Ok(e) => PlanRun(Returned(JObj(map["error" := e])), None, [])
      case Err(f) => PlanRun(Raised(f), None, [])
    else if !In(plan, "tool_calls") then PlanRun(Returned(JObj(map[])), Some(map[]), [])
    else
      match Subscript(plan, "tool_calls")
      case Err(f) => PlanRun(Returned(ErrorObject(f)), None, [])
      case Ok(toolCalls) =>
        var run := LoopRun(d, ctx, toolCalls, respond, rt);
        match run.results
        case Ok(results) => PlanRun(Returned(JObj(results)), Some(results), run.calls)
        case Err(f) => PlanRun(Returned(ErrorObject(f)), None, run.calls)
  }

  /**
   * The summary both copies of `check_tool_results` build from the decoded self-check:
   * score and level with defaults, and the lengths of the three message lists.
   */
  function CheckSummary(check: Json): (r: Result<Json, Failure>)
    ensures !check.JObj? ==> r == Err(AttributeError(TypeName(check), "get"))
    ensures r.Ok? <==> (check.JObj? && PyLen(Get(check.fields, "issues", JArr([]))).Ok?
      && PyLen(Get(check.fields, "warnings", JArr([]))).Ok? && PyLen(Get(check.fields, "insights", JArr([]))).Ok?)
    ensures r.Ok? ==> (r.value.JObj? && r.value.fields.Keys ==
      {"reliability_score", "reliability_level", "issues_count", "warnings_count", "insights_count"})
    ensures r.Ok? ==>
      r.value.fields["reliability_score"] == Get(check.fields, "reliability_score", JInt(0)) &&
      r.value.fields["reliability_level"] == Get(check.fields, "reliability_level", JStr("Unknown")) &&
      r.value.fields["issues_count"] == JInt(PyLen(Get(check.fields, "issues", JArr([]))).value) &&
      r.value.fields["warnings_count"] == JInt(PyLen(Get(check.fields, "warnings", JArr([]))).value) &&
      r.value.fields["insights_count"] == JInt(PyLen(Get(check.fields, "insights", JArr([]))).value)
  {
    var m :- AsDict(check);
    var issues :- PyLen(Get(m, "issues", JArr([])));
    var warnings :- PyLen(Get(m, "warnings", JArr([])));
    var insights :- PyLen(Get(m, "insights", JArr([])));
    Ok(JObj(map[
      "reliability_score" := Get(m, "reliability_score", JInt(0)),
      "reliability_level" := Get(m, "reliability_level", JStr("Unknown")),
      "issues_count" := JInt(issues),
      "warnings_count" := JInt(warnings),
      "insights_count" := JInt(insights)]))
  }

  // ----- the executor as the source writes it: a loop updating `results` -----

  method ExecuteStep(session: ToolSession, d: Dialect, ctx: Ctx, results: map<string, Json>, call: Json, rt: Runtime)
    returns (r: Result<map<string, Json>, Failure>)
    modifies session
    ensures var run := StepOf(d, ctx, results, call, session.respond, rt);
      r == run.results && session.log == old(session.log) + run.calls
  {
    var step := Normalize(call);
    if step.Err? {
      return Err(step.error);
    }
    var prepared := Prepare(d, ctx, results, step.value, rt);
    if prepared.Err? {
      return Err(prepared.error);
    }
    if prepared.value.Skip? {
      return Ok(results);
    }
    var reply := session.CallTool(prepared.value.tool, prepared.value.args);
    if reply.Err? {
      return Err(reply.error);
    }
    var value := Finish(prepared.value.post, reply.value, rt);
    if value.Err? {
      return Err(value.error);
    }
    r := Ok(results[prepared.value.key := value.value]);
  }

  /** Step i of the loop, after the first i steps completed with `results`. */
  method ExecuteNext(session: ToolSession, d: Dialect, ctx: Ctx, items: seq<Json>, i: nat,
                     results: map<string, Json>, rt: Runtime, ghost start: seq<Call>, ghost prev: StepRun)
    returns (next: Result<map<string, Json>, Failure>, ghost run: StepRun)
    requires i < |items|
    requires prev == RunSteps(d, ctx, items[..i], session.respond, rt)
    requires prev.results == Ok(results) && session.log == start + prev.calls
    modifies session
    ensures run == RunSteps(d, ctx, items[..i + 1], session.respond, rt)
    ensures next == run.results && session.log == start + run.calls
  {
    ghost var step := StepOf(d, ctx, results, items[i], session.respond, rt);
    next := ExecuteStep(session, d, ctx, results, items[i], rt);
    RunStepsExtend(d, ctx, items, i, results, session.respond, rt);
    CallsAssociate(start, prev.calls, step.calls);
    run := RunSteps(d, ctx, items[..i + 1], session.respond, rt);
  }

  method ExecuteSteps(session: ToolSession, d: Dialect, ctx: Ctx, items: seq<Json>, rt: Runtime)
    returns (r: Result<map<string, Json>, Failure>)
    modifies session
    ensures var run := RunSteps(d, ctx, items, session.respond, rt);
      r == run.results && session.log == old(session.log) + run.calls
  {
    ghost var respond := session.respond;
    ghost var run := StepRun(Ok(map[]), []);
    var results: map<string, Json> := map[];
    var i := 0;
    while i < |items|
      invariant 0 <= i <= |items|
      invariant run == RunSteps(d, ctx, items[..i], respond, rt)
      invariant run.results == Ok(results) && session.log == old(session.log) + run.calls
    {
      var next;
      next, run := ExecuteNext(session, d, ctx, items, i, results, rt, old(session.log), run);
      if next.Err? {
        FailurePersists(d, ctx, items, i + 1, respond, rt);
        return next;
      }
      results := next.value;
      i := i + 1;
    }
    assert items[..|items|] == items;
    r := Ok(results);
  }

  /** After a prefix that completed with `results`, one more step runs step i on them. */
  lemma RunStepsExtend(d: Dialect, ctx: Ctx, items: seq<Json>, i: nat, results: map<string, Json>, respond: Responder, rt: Runtime)
    requires i < |items|
    requires RunSteps(d, ctx, items[..i], respond, rt).results == Ok(results)
    ensures var step := StepOf(d, ctx, results, items[i], respond, rt);
      RunSteps(d, ctx, items[..i + 1], respond, rt)
        == StepRun(step.results, RunSteps(d, ctx, items[..i], respond, rt).calls + step.calls)
  {
    RunStepsLast(d, ctx, items, i, respond, rt);
    ThenOk(RunSteps(d, ctx, items[..i], respond, rt), results, d, ctx, items[i], respond, rt);
  }

  lemma ThenOk(prev: StepRun, results: map<string, Json>, d: Dialect, ctx: Ctx, call: Json, respond: Responder, rt: Runtime)
    requires prev.results == Ok(results)
    ensures var step := StepOf(d, ctx, results, call, respond, rt);
      Then(prev, d, ctx, call, respond, rt) == StepRun(step.results, prev.calls + step.calls)
  {
  }

  /** The first i + 1 steps are the first i followed by step i. */
  lemma RunStepsLast(d: Dialect, ctx: Ctx, items: seq<Json>, i: nat, respond: Responder, rt: Runtime)
    requires i < |items|
    ensures RunSteps(d, ctx, items[..i + 1], respond, rt)
         == Then(RunSteps(d, ctx, items[..i], respond, rt), d, ctx, items[i], respond, rt)
  {
    assert items[..i + 1][..i] == items[..i];
  }

  /** Python's iteration order of a dict's keys is not modelled: any order, each key once. */
  method KeyOrder(m: map<string, Json>) returns (keys: seq<string>)
    ensures forall k :: k in m <==> k in keys
    ensures forall i, j :: 0 <= i < j < |keys| ==> keys[i] != keys[j]
  {
    keys := [];
    var rest := m.Keys;
    while rest != {}
      invariant forall k :: k in m <==> k in keys || k in rest
      invariant forall i :: 0 <= i < |keys| ==> keys[i] !in rest
      invariant forall i, j :: 0 <= i < j < |keys| ==> keys[i] != keys[j]
      decreases |rest|
    {
      var k :| k in rest;
      keys := keys + [k];
      rest := rest - {k};
    }
  }

  method ExecuteLoop(session: ToolSession, d: Dialect, ctx: Ctx, toolCalls: Json, rt: Runtime)
    returns (r: Result<map<string, Json>, Failure>)
    modifies session
    ensures var run := LoopRun(d, ctx, toolCalls, session.respond, rt);
      r == run.results && session.log == old(session.log) + run.calls
  {
    match toolCalls
    case JArr(items) =>
      r := ExecuteSteps(session, d, ctx, items, rt);
    case JStr(s) =>
      r := ExecuteSteps(session, d, ctx, CharSteps(s), rt);
    case JObj(m) =>
      var keys := KeyOrder(m);
      r := ExecuteSteps(session, d, ctx, KeySteps(keys), rt);
      KeyStepsRun(d, ctx, keys, session.respond, rt);
      AnyOfKeys(m, keys, KeyRaises);
    case _ =>
      r := Err(NotIterable(TypeName(toolCalls)));
  }

  method ExecutePlan(session: ToolSession, d: Dialect, ctx: Ctx, plan: Json, rt: Runtime)
    returns (outcome: Outcome, stored: Option<map<string, Json>>)
    modifies session
    ensures var run := RunPlan(d, ctx, plan, session.respond, rt);
      outcome == run.outcome && stored == run.stored && session.log == old(session.log) + run.calls
  {
    if !IsContainer(plan) {
      return Raised(NotContainer(TypeName(plan))), None;
    }
    if In(plan, "error") {
      var e := Subscript(plan, "error");
      if e.Err? {
        return Raised(e.error), None;
      }
      return Returned(JObj(map["error" := e.value])), None;
    }
    if !In(plan, "tool_calls") {
      return Returned(JObj(map[])), Some(map[]);
    }
    var toolCalls := Subscript(plan, "tool_calls");
    if toolCalls.Err? {
      return Returned(ErrorObject(toolCalls.error)), None;
    }
    var r := ExecuteLoop(session, d, ctx, toolCalls.value, rt);
    if r.Err? {
      return Returned(ErrorObject(r.error)), None;
    }
    return Returned(JObj(r.value)), Some(r.value);
  }

  // ----- properties of the loop -----

  /** Once a prefix of the steps has raised, the remaining steps change nothing. */
  lemma {:induction false} FailurePersists(d: Dialect, ctx: Ctx, items: seq<Json>, j: nat, respond: Responder, rt: Runtime)
    requires 0 < j <= |items|
    requires RunSteps(d, ctx, items[..j], respond, rt).results.Err?
    ensures RunSteps(d, ctx, items, respond, rt) == RunSteps(d, ctx, items[..j], respond, rt)
    decreases |items| - j
  {
    if j == |items| {
      assert items[..j] == items;
    } else {
      var front := items[..|items| - 1];
      assert front[..j] == items[..j];
      FailurePersists(d, ctx, front, j, respond, rt);
    }
  }

  /** A step given as a plain string never calls a tool: it raises StrIndices or is skipped. */
  lemma StringStep(d: Dialect, ctx: Ctx, results: map<string, Json>, k: string, respond: Responder, rt: Runtime)
    ensures Normalize(JStr(k)).Err? ==> Normalize(JStr(k)).error == StrIndices
    ensures StepOf(d, ctx, results, JStr(k), respond, rt)
      == StepRun(if KeyRaises(k) then Err(StrIndices) else Ok(results), [])
  {
    var call := JStr(k);
    match FunctionValue(call)
    case Ok(f) =>
      assert f.None?;
    case Err(e) =>
      assert e == StrIndices;
  }

  lemma StringThen(d: Dialect, ctx: Ctx, k: string, respond: Responder, rt: Runtime)
    ensures Then(StepRun(Ok(map[]), []), d, ctx, JStr(k), respond, rt)
      == StepRun(if KeyRaises(k) then Err(StrIndices) else Ok(map[]), [])
  {
    StringStep(d, ctx, map[], k, respond, rt);
  }

  /** Some element of the sequence satisfies `p`. */
  predicate AnyOf(keys: seq<string>, p: string -> bool) {
    exists i :: 0 <= i < |keys| && p(keys[i])
  }

  lemma AnyOfLast(keys: seq<string>, p: string -> bool)
    requires keys != []
    ensures AnyOf(keys, p) <==> AnyOf(keys[..|keys| - 1], p) || p(keys[|keys| - 1])
  {
    var front := keys[..|keys| - 1];
    if AnyOf(front, p) {
      var i :| 0 <= i < |front| && p(front[i]);
      assert keys[i] == front[i];
    }
    if AnyOf(keys, p) {
      var i :| 0 <= i < |keys| && p(keys[i]);
      if i < |front| {
        assert keys[i] == front[i];
      }
    }
  }

  /** A sequence holding exactly the keys of `m` has an element satisfying `p` iff `m` has such a key. */
  lemma AnyOfKeys(m: map<string, Json>, keys: seq<string>, p: string -> bool)
    requires forall k :: k in m <==> k in keys
    ensures AnyOf(keys, p) <==> exists k :: k in m && p(k)
  {
    if exists k :: k in m && p(k) {
      var k :| k in m && p(k);
      assert k in keys;
      var i :| 0 <= i < |keys| && keys[i] == k;
    }
  }

  /** Running the keys of a dict as steps, in any order, raises iff some key raises. */
  lemma {:induction false} KeyStepsRun(d: Dialect, ctx: Ctx, keys: seq<string>, respond: Responder, rt: Runtime)
    ensures RunSteps(d, ctx, KeySteps(keys), respond, rt) ==
      if AnyOf(keys, KeyRaises) then StepRun(Err(StrIndices), []) else StepRun(Ok(map[]), [])
    decreases |keys|
  {
    if keys != [] {
      var n := |keys|;
      var front := keys[..n - 1];
      var items := KeySteps(keys);
      assert items[..n - 1] == KeySteps(front);
      RunStepsLast(d, ctx, items, n - 1, respond, rt);
      assert items[..n] == items;
      KeyStepsRun(d, ctx, front, respond, rt);
      AnyOfLast(keys, KeyRaises);
      if !AnyOf(front, KeyRaises) {
        StringThen(d, ctx, keys[n - 1], respond, rt);
      }
    }
  }

  /** Each step makes at most one tool call, so a plan makes at most as many calls as it has steps. */
  lemma {:induction false} CallsBounded(d: Dialect, ctx: Ctx, items: seq<Json>, respond: Responder, rt: Runtime)
    ensures |RunSteps(d, ctx, items, respond, rt).calls| <= |items|
    decreases |items|
  {
    if items != [] {
      CallsBounded(d, ctx, items[..|items| - 1], respond, rt);
    }
  }

  /** Every key of a completed result map is one of the executor's result keys. */
  lemma {:induction false} ResultKeysKnown(d: Dialect, ctx: Ctx, items: seq<Json>, respond: Responder, rt: Runtime)
    ensures RunSteps(d, ctx, items, respond, rt).results.Ok? ==>
      RunSteps(d, ctx, items, respond, rt).results.value.Keys <= ResultKeys
    decreases |items|
  {
    if items != [] {
      ResultKeysKnown(d, ctx, items[..|items| - 1], respond, rt);
    }
  }

  /** What `self.tool_results` can hold after a plan: only the executor's result keys. */
  lemma StoredKeysKnown(d: Dialect, ctx: Ctx, plan: Json, respond: Responder, rt: Runtime)
    ensures RunPlan(d, ctx, plan, respond, rt).stored.Some? ==>
      RunPlan(d, ctx, plan, respond, rt).stored.value.Keys <= ResultKeys
  {
    if IsContainer(plan) && !In(plan, "error") && In(plan, "tool_calls") && Subscript(plan, "tool_calls").Ok? {
      var toolCalls := Subscript(plan, "tool_calls").value;
      match toolCalls
      case JArr(items) => ResultKeysKnown(d, ctx, items, respond, rt);
      case JStr(s) => ResultKeysKnown(d, ctx, CharSteps(s), respond, rt);
      case _ =>
    }
  }

  /** A plan carrying "error" is answered with that error and calls no tool. */
  lemma ErrorPlanCallsNoTool(d: Dialect, ctx: Ctx, plan: map<string, Json>, respond: Responder, rt: Runtime)
    requires "error" in plan
    ensures RunPlan(d, ctx, JObj(plan), respond, rt) == PlanRun(Returned(JObj(map["error" := plan["error"]])), None, [])
  {
  }

  /** A plan without "tool_calls" (and without "error") returns {} and stores it. */
  lemma NoToolCalls(d: Dialect, ctx: Ctx, plan: map<string, Json>, respond: Responder, rt: Runtime)
    requires "error" !in plan && "tool_calls" !in plan
    ensures RunPlan(d, ctx, JObj(plan), respond, rt) == PlanRun(Returned(JObj(map[])), Some(map[]), [])
  {
  }

  /** A step with no name or an unknown one makes no call and leaves the results as they are. */
  lemma UnknownStepSkipped(d: Dialect, ctx: Ctx, results: map<string, Json>, call: Json, respond: Responder, rt: Runtime)
    requires Normalize(call).Ok? && !KnownTool(Normalize(call).value.name)
    ensures StepOf(d, ctx, results, call, respond, rt) == StepRun(Ok(results), [])
  {
  }

  /** A plan whose first step raises ends with that step's error; later steps are never run. */
  lemma FirstStepAborts(d: Dialect, ctx: Ctx, first: Json, rest: seq<Json>, respond: Responder, rt: Runtime)
    requires StepOf(d, ctx, map[], first, respond, rt).results.Err?
    ensures var plan := JObj(map["tool_calls" := JArr([first] + rest)]);
      var step := StepOf(d, ctx, map[], first, respond, rt);
      RunPlan(d, ctx, plan, respond, rt) == PlanRun(Returned(ErrorObject(step.results.error)), None, step.calls)
  {
    var items := [first] + rest;
    assert items[..1] == [first];
    assert items[..1][..0] == [];
    FailurePersists(d, ctx, items, 1, respond, rt);
  }

  /**
   * `review_summary` and `review_summary_tool` both call `review_summary_tool` and store under it;
   * its reviews are the product's, and product, site and num_reviews fall back as described.
   */
  lemma SummaryStep(d: Dialect, ctx: Ctx, results: map<string, Json>, step: Step, rt: Runtime)
    requires step.name == JStr("review_summary") || step.name == JStr("review_summary_tool")
    requires step.input.JObj? && ctx.productInfo.JObj? && "title" in ctx.productInfo.fields
    ensures var m := step.input.fields;
      Prepare(d, ctx, results, step, rt) == Ok(Invoke("review_summary_tool", Wrap(d, JObj(map[
        "product" := if "product" in m then m["product"]
                     else if "product_title" in m then m["product_title"]
                     else ctx.productInfo.fields["title"],
        "site" := if "site" in m then m["site"] else ctx.currentSite,
        "reviews" := if "reviews" in ctx.productInfo.fields then ctx.productInfo.fields["reviews"] else JArr([]),
        "num_reviews" := if "num_reviews" in m then m["num_reviews"] else JInt(1000)])),
        "review_summary_tool", DecodeReply))
  {
  }

  /** Reviews put into the step itself are ignored. */
  lemma SummaryIgnoresStepReviews(d: Dialect, ctx: Ctx, results: map<string, Json>, name: Json,
                                  m: map<string, Json>, reviews: Json, rt: Runtime)
    requires name == JStr("review_summary") || name == JStr("review_summary_tool")
    ensures Prepare(d, ctx, results, Step(name, JObj(m["reviews" := reviews])), rt)
         == Prepare(d, ctx, results, Step(name, JObj(m - {"reviews"})), rt)
  {
    var a := m["reviews" := reviews];
    var b := m - {"reviews"};
    if ctx.productInfo.JObj? && "title" in ctx.productInfo.fields {
      var title := ctx.productInfo.fields["title"];
      assert SummaryArgs(ctx, a, title) == SummaryArgs(ctx, b, title);
    }
  }

  /** The object the action layer keeps as a fallback for `calculate_confidence_score`. */
  const DefaultSentiment: Json := JObj(map[
    "overall_sentiment" := JStr("Unknown"), "sentiment_score" := JInt(0), "review_count" := JInt(0),
    "pros" := JArr([]), "cons" := JArr([])])

  /**
   * `calculate_confidence_score` without an earlier summary raises KeyError before any call,
   * in both copies; with one, it sends exactly that summary, so the action layer's default
   * sentiment object is never sent in its place.
   */
  lemma ConfidenceStep(d: Dialect, ctx: Ctx, results: map<string, Json>, call: Json, respond: Responder, rt: Runtime)
    requires Normalize(call).Ok? && Normalize(call).value.name == JStr("calculate_confidence_score")
    ensures "review_summary_tool" !in results ==>
      StepOf(d, ctx, results, call, respond, rt) == StepRun(Err(KeyError("review_summary_tool")), [])
    ensures "review_summary_tool" in results ==>
      StepOf(d, ctx, results, call, respond, rt).calls ==
        [Call("calculate_confidence_score", Wrap(d, JObj(map["sentiment_data" := results["review_summary_tool"]])))]
  {
  }

  /** In the action layer a missing summary makes `review_consistency_check` call `.get` on "{}". */
  lemma ActionConsistencyNeedsSummary(ctx: Ctx, results: map<string, Json>, call: Json, respond: Responder, rt: Runtime)
    requires Normalize(call).Ok? && Normalize(call).value.name == JStr("review_consistency_check")
    requires "review_summary_tool" !in results
    ensures StepOf(ActionDialect, ctx, results, call, respond, rt) == StepRun(Err(AttributeError("str", "get")), [])
  {
  }

  /** In the client a missing summary makes `review_consistency_check` send empty lists and go on. */
  lemma ClientConsistencyWithoutSummary(ctx: Ctx, results: map<string, Json>, call: Json, respond: Responder, rt: Runtime)
    requires Normalize(call).Ok? && Normalize(call).value.name == JStr("review_consistency_check")
    requires "review_summary_tool" !in results
    ensures StepOf(ClientDialect, ctx, results, call, respond, rt).calls ==
      [Call("review_consistency_check", JObj(map["reviews_data" := JObj(map["reviews" := JArr([]), "sentiments" := JArr([])])]))]
    ensures respond("review_consistency_check", JObj(map["reviews_data" := JObj(map["reviews" := JArr([]), "sentiments" := JArr([])])])).Ok? ==>
      StepOf(ClientDialect, ctx, results, call, respond, rt).results.Ok?
  {
  }

  /** A plan that opens with `calculate_confidence_score` returns {"error": "'review_summary_tool'"} and calls nothing. */
  lemma ConfidenceFirstAborts(d: Dialect, ctx: Ctx, first: Json, rest: seq<Json>, respond: Responder, rt: Runtime)
    requires Normalize(first).Ok? && Normalize(first).value.name == JStr("calculate_confidence_score")
    ensures RunPlan(d, ctx, JObj(map["tool_calls" := JArr([first] + rest)]), respond, rt)
      == PlanRun(Returned(ErrorObject(KeyError("review_summary_tool"))), None, [])
  {
    ConfidenceStep(d, ctx, map[], first, respond, rt);
    FirstStepAborts(d, ctx, first, rest, respond, rt);
  }

  /** An earlier result that `show_reasoning` reads as absent in the action layer: missing, or an undecodable string. */
  predicate NoUpstream(results: map<string, Json>, key: string, rt: Runtime) {
    key !in results || (results[key].JStr? && rt.loads(results[key].s).Err?)
  }

  /** The action layer's `show_reasoning` object when nothing usable came before it. */
  lemma ActionReasoningDefaults(ctx: Ctx, results: map<string, Json>, input: Json, rt: Runtime)
    requires ctx.productInfo.JObj?
    requires NoUpstream(results, "review_summary_tool", rt)
    requires NoUpstream(results, "calculate_confidence_score", rt)
    requires NoUpstream(results, "self_check_tool_results", rt)
    ensures Prepare(ActionDialect, ctx, results, Step(JStr("show_reasoning"), input), rt) ==
      Ok(Invoke("show_reasoning", JObj(map["input" := JObj(map["product_data" := JObj(map[
        "product_name" := if "title" in ctx.productInfo.fields then ctx.productInfo.fields["title"] else JStr("Unknown Product"),
        "sentiment_score" := JInt(0), "review_count" := JInt(0), "pros" := JArr([]), "cons" := JArr([]),
        "confidence_score" := JInt(0), "reliability_score" := JInt(0), "reliability_level" := JStr("Unknown")])])]),
        "show_reasoning", Raw))
  {
    var title := Get(ctx.productInfo.fields, "title", JStr("Unknown Product"));
    var u1 := Upstream(results, "review_summary_tool", rt);
    var u2 := Upstream(results, "calculate_confidence_score", rt);
    var u3 := Upstream(results, "self_check_tool_results", rt);
    NoUpstreamDefault(results, "review_summary_tool", rt);
    NoUpstreamDefault(results, "calculate_confidence_score", rt);
    NoUpstreamDefault(results, "self_check_tool_results", rt);
    assert ReasoningCall(ActionDialect, ctx, results, rt) == Ok(Invoke("show_reasoning",
      Wrap(ActionDialect, JObj(map["product_data" := ActionProductData(title, u1.value, u2.value, u3.value)])),
      "show_reasoning", Raw));
  }

  /** With nothing usable upstream every field read is its default. */
  lemma NoUpstreamDefault(results: map<string, Json>, key: string, rt: Runtime)
    requires NoUpstream(results, key, rt)
    ensures var u := Upstream(results, key, rt);
      u.Ok? && forall k, default :: Field(u.value, k, default) == default
  {
  }

  /** The client's `show_reasoning` object when no earlier entry exists. */
  lemma ClientReasoningDefaults(ctx: Ctx, results: map<string, Json>, input: Json, rt: Runtime)
    requires ctx.productInfo.JObj?
    requires "review_summary_tool" !in results && "calculate_confidence_score" !in results
    requires "self_check_tool_results" !in results
    ensures Prepare(ClientDialect, ctx, results, Step(JStr("show_reasoning"), input), rt) ==
      Ok(Invoke("show_reasoning", JObj(map["product_data" := JObj(map[
        "product_name" := if "title" in ctx.productInfo.fields then ctx.productInfo.fields["title"] else JStr("Unknown Product"),
        "sentiment_score" := JFloat(0.0), "review_count" := JInt(0), "pros" := JArr([]), "cons" := JArr([]),
        "confidence_score" := JFloat(0.0), "reliability_score" := JFloat(0.0), "reliability_level" := JStr("Unknown")])]),
        "show_reasoning", Raw))
  {
  }

  /**
   * In the client, a plan that opens with `self_check_tool_results` sends the tool an empty
   * results dict; a tool server answering as `Server.SelfCheck` does replies with plain text,
   * so a decoder that rejects that text aborts the plan with its message.
   */
  lemma ClientSelfCheckFirstAborts(ctx: Ctx, first: Json, rest: seq<Json>, respond: Responder,
                                   render: Server.SelfCheckReply -> string, rt: Runtime)
    requires Normalize(first).Ok? && Normalize(first).value.name == JStr("self_check_tool_results")
    requires respond("self_check_tool_results", JObj(map["tools_results" := JObj(map[])]))
          == Ok(Server.ReplyText(Server.SelfCheck(JObj(map[])), render))
    requires rt.loads(Server.EmptyInputText).Err?
    ensures RunPlan(ClientDialect, ctx, JObj(map["tool_calls" := JArr([first] + rest)]), respond, rt)
      == PlanRun(Returned(ErrorObject(DecodeError(rt.loads(Server.EmptyInputText).error))), None,
                 [Call("self_check_tool_results", JObj(map["tools_results" := JObj(map[])]))])
  {
    assert Server.SelfCheck(JObj(map[])) == Server.EmptyInput;
    SelfCheckFirstStep(ctx, first, respond, Server.EmptyInputText, rt);
    FirstStepAborts(ClientDialect, ctx, first, rest, respond, rt);
  }

  /** The client's self-check as a first step, when the reply does not decode. */
  lemma SelfCheckFirstStep(ctx: Ctx, first: Json, respond: Responder, reply: string, rt: Runtime)
    requires Normalize(first).Ok? && Normalize(first).value.name == JStr("self_check_tool_results")
    requires respond("self_check_tool_results", JObj(map["tools_results" := JObj(map[])])) == Ok(reply)
    requires rt.loads(reply).Err?
    ensures StepOf(ClientDialect, ctx, map[], first, respond, rt) == StepRun(Err(DecodeError(rt.loads(reply).error)),
      [Call("self_check_tool_results", JObj(map["tools_results" := JObj(map[])]))])
  {
  }
}
