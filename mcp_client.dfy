/**
 * The older command-line client, `SmartPurchaseAdvisorClient`: it classifies
 * the product, asks the model for a tool plan, runs it with the shared
 * executor (arguments passed as they are), self-checks the results, and asks
 * the model for the final analysis, falling back to a dict built from the
 * tool results when that answer is not JSON.
 */
module Client {
  import opened Python
  import opened Mcp
  import opened Llm
  import opened ToolPlan

  // ----- check_tool_results and the self-check default of process_product -----

  /** The reply of `check_tool_results` when anything in it raised. */
  function CheckError(f: Failure): (r: Json)
    ensures r.JObj? && r.fields.Keys == {"error", "reliability_level", "reliability_score"}
    ensures r.fields["error"] == JStr(ErrorText(f))
  {
    JObj(map[
      "error" := JStr(ErrorText(f)),
      "reliability_level" := JStr("Low"),
      "reliability_score" := JInt(0)])
  }

  /** `check_tool_results` after the tool call: an undecodable reply is an exception like any other. */
  function ClientCheckSummary(reply: Result<string, Failure>, rt: Runtime): (r: Json)
    ensures reply.Err? ==> r == CheckError(reply.error)
    ensures reply.Ok? && rt.loads(reply.value).Err? ==> r == CheckError(DecodeError(rt.loads(reply.value).error))
  {
    match reply
    case Err(f) => CheckError(f)
    case Ok(text) =>
      match Decode(rt, text)
      case Err(f) => CheckError(f)
      case Ok(check) =>
        match CheckSummary(check)
        case Ok(summary) => summary
        case Err(f) => CheckError(f)
  }

  /** The self-check `process_product` passes on when the real one is empty or failed. */
  const VeryLowSelfCheck: Json := JObj(map[
    "reliability_score" := JInt(0),
    "reliability_level" := JStr("Very Low"),
    "issues" := JArr([JStr("Self-check tool failed")]),
    "warnings" := JArr([JStr("Results may not be reliable")]),
    "insights" := JArr([])])

  predicate UnusableCheck(check: Json) {
    !Truthy(check) || (check.JObj? && "error" in check.fields)
  }

  function EffectiveSelfCheck(check: Json): (r: Json)
    ensures UnusableCheck(check) ==> r == VeryLowSelfCheck
    ensures !UnusableCheck(check) ==> r == check
  {
    if UnusableCheck(check) then VeryLowSelfCheck else check
  }

  /**
   * Through `check_tool_results`, the default replaces the self-check exactly when
   * the check raised (the call, the decoding or the summary); otherwise the counts
   * summary goes on unchanged.
   */
  lemma SelfCheckDefaulting(reply: Result<string, Failure>, rt: Runtime)
    ensures var ok := reply.Ok? && rt.loads(reply.value).Ok? && CheckSummary(rt.loads(reply.value).value).Ok?;
      (ok ==> EffectiveSelfCheck(ClientCheckSummary(reply, rt)) == CheckSummary(rt.loads(reply.value).value).value) &&
      (!ok ==> EffectiveSelfCheck(ClientCheckSummary(reply, rt)) == VeryLowSelfCheck)
  {
  }

  // ----- the plan log of process_product -----

  /** The first element of a list that is not a dict. */
  function FirstNonDict(xs: seq<Json>): (r: Option<Json>)
    ensures r.None? <==> forall i :: 0 <= i < |xs| ==> xs[i].JObj?
    ensures r.Some? ==> !r.value.JObj? && exists i :: 0 <= i < |xs| && xs[i] == r.value && forall j :: 0 <= j < i ==> xs[j].JObj?
  {
    if xs == [] then None
    else if !xs[0].JObj? then Some(xs[0])
    else
      var r := FirstNonDict(xs[1..]);
      assert r.Some? ==> exists i :: 0 <= i < |xs| - 1 && xs[1..][i] == r.value && forall j :: 0 <= j < i ==> xs[1..][j].JObj?;
      if r.Some? then
        var i :| 0 <= i < |xs| - 1 && xs[1..][i] == r.value && forall j :: 0 <= j < i ==> xs[1..][j].JObj?;
        assert xs[i + 1] == r.value && forall j :: 0 <= j < i + 1 ==> xs[j].JObj?;
        r
      else r
  }

  /** `tool_call.get(...)` on each step as iteration yields it: list items, characters or keys. */
  function StepsAreDicts(toolCalls: Json): (r: Option<Failure>)
    ensures toolCalls.JArr? && (forall i :: 0 <= i < |toolCalls.items| ==> toolCalls.items[i].JObj?) ==> r.None?
  {
    match toolCalls
    case JArr(xs) =>
      (match FirstNonDict(xs) case None => None case Some(v) => Some(AttributeError(TypeName(v), "get")))
    case JStr(s) => if s == "" then None else Some(AttributeError("str", "get"))
    case JObj(m) => if m == map[] then None else Some(AttributeError("str", "get"))
    case _ => Some(NotIterable(TypeName(toolCalls)))
  }

  /**
   * The exception, if any, raised while logging the plan's step names: the plan must
   * accept `in`, and a non-dict plan either fails the `["tool_calls"]` lookup or has no
   * `.get`; a dict plan fails on the first step that is not a dict.
   */
  function PlanLogFailure(plan: Json): (r: Option<Failure>)
    ensures plan.JObj? && "tool_calls" !in plan.fields ==> r.None?
    ensures plan.JObj? && "tool_calls" in plan.fields ==> r == StepsAreDicts(plan.fields["tool_calls"])
  {
    if !IsContainer(plan) then Some(NotContainer(TypeName(plan)))
    else if !plan.JObj? then
      Some(if In(plan, "tool_calls") then Subscript(plan, "tool_calls").error else AttributeError(TypeName(plan), "get"))
    else if "tool_calls" in plan.fields then StepsAreDicts(plan.fields["tool_calls"])
    else None
  }

  // ----- perform_final_reasoning -----

  /** The product info as the final prompt shows it: the review list replaced by its size. */
  function ProductInfoRedacted(info: Json): (r: Result<Json, Failure>)
    ensures info.JObj? && "reviews" !in info.fields ==> r == Ok(info)
    ensures info.JObj? && "reviews" in info.fields && PyLen(info.fields["reviews"]).Ok? ==>
      r == Ok(JObj(info.fields["reviews" := JStr("[" + NatToString(PyLen(info.fields["reviews"]).value) + " reviews hidden]")]))
    ensures !info.JObj? && !info.JArr? ==> r == Err(AttributeError(TypeName(info), "copy"))
  {
    match info
    case JObj(m) =>
      if "reviews" in m then
        var n :- PyLen(m["reviews"]);
        Ok(JObj(m["reviews" := JStr("[" + NatToString(n) + " reviews hidden]")]))
      else Ok(info)
    case JArr(xs) => if JStr("reviews") in xs then Err(AttributeError("list", "get")) else Ok(info)
    case _ => Err(AttributeError(TypeName(info), "copy"))
  }

  /** Counting the pros and then the cons of the summary, which the redaction does and then discards. */
  function HiddenCountFailure(summary: map<string, Json>): (r: Option<Failure>)
    ensures r.None? <==> ("pros" !in summary || PyLen(summary["pros"]).Ok?) && ("cons" !in summary || PyLen(summary["cons"]).Ok?)
  {
    if "pros" in summary && PyLen(summary["pros"]).Err? then Some(PyLen(summary["pros"]).error)
    else if "cons" in summary && PyLen(summary["cons"]).Err? then Some(PyLen(summary["cons"]).error)
    else None
  }

  /** `results_redacted`: equal to `results`, since the hidden counts go into a discarded copy. */
  function RedactedResults(results: map<string, Json>): (r: Result<map<string, Json>, Failure>)
    ensures r.Ok? ==> r.value == results
    ensures r.Err? <==> ("review_summary_tool" in results && results["review_summary_tool"].JObj? &&
      HiddenCountFailure(results["review_summary_tool"].fields).Some?)
  {
    if "review_summary_tool" in results && results["review_summary_tool"].JObj? then
      match HiddenCountFailure(results["review_summary_tool"].fields)
      case Some(f) => Err(f)
      case None => Ok(results)
    else Ok(results)
  }

  /** The summary's entry in the loop: the pros and cons counts go into `copy1`, which is discarded. */
  method RedactSummary(summary: map<string, Json>) returns (r: Option<Failure>)
    ensures r == HiddenCountFailure(summary)
  {
    var copy1 := summary;
    if "pros" in summary {
      var n := PyLen(Get(summary, "pros", JArr([])));
      if n.Err? {
        return Some(n.error);
      }
      copy1 := copy1["pros1" := JStr("[" + NatToString(n.value) + " pros hidden]")];
    }
    if "cons" in summary {
      var n := PyLen(Get(summary, "cons", JArr([])));
      if n.Err? {
        return Some(n.error);
      }
      copy1 := copy1["cons1" := JStr("[" + NatToString(n.value) + " cons hidden]")];
    }
    r := None;
  }

  /** The redaction loop over `results.items()`. */
  method RedactResults(results: map<string, Json>) returns (r: Result<map<string, Json>, Failure>)
    ensures r == RedactedResults(results)
  {
    var keys := KeyOrder(results);
    var redacted: map<string, Json> := map[];
    var i := 0;
    while i < |keys|
      invariant 0 <= i <= |keys|
      invariant forall j :: 0 <= j < i ==> keys[j] in redacted
      invariant forall k :: k in redacted ==> k in results && redacted[k] == results[k]
      invariant "review_summary_tool" in redacted && results["review_summary_tool"].JObj? ==>
        HiddenCountFailure(results["review_summary_tool"].fields).None?
    {
      var name := keys[i];
      var result := results[name];
      if name == "review_summary_tool" && result.JObj? {
        var failure := RedactSummary(result.fields);
        if failure.Some? {
          return Err(failure.value);
        }
        redacted := redacted[name := JObj(result.fields)];
      } else {
        redacted := redacted[name := result];
      }
      i := i + 1;
    }
    assert redacted == results;
    r := Ok(redacted);
  }

  /** The client's fallback: the fallback analysis under the product's title (a missing one raises first). */
  function ClientFallback(info: Json, results: map<string, Json>): (r: Result<Json, Failure>)
    ensures r.Ok? <==> info.JObj? && "title" in info.fields && FallbackAnalysis(results).Ok?
    ensures r.Ok? ==> r.value == JObj(AnalysisObject(FallbackAnalysis(results).value)["title" := info.fields["title"]])
    ensures !info.JObj? || "title" !in info.fields ==> r == Err(Subscript(info, "title").error)
  {
    var title :- Subscript(info, "title");
    var a :- FallbackAnalysis(results);
    Ok(JObj(AnalysisObject(a)["title" := title]))
  }

  /** `perform_final_reasoning`, with the model as a parameter. */
  function FinalOf(info: Json, category: Json, results: map<string, Json>, selfCheck: Json,
                   llm: Model, rt: Runtime): (r: Result<Json, Failure>)
  {
    var shown :- ProductInfoRedacted(info);
    var shownResults :- RedactedResults(results);
    match ReadFinal(llm(FinalPrompt(shown, category, JObj(shownResults), selfCheck)), rt)
    case Missing => Ok(ErrorMessage(NoFinalResponse))
    case Decoded(v) => Ok(v)
    case Undecodable => ClientFallback(info, results)
  }

  /** The model sees the results unredacted, and the product with only its reviews hidden. */
  lemma FinalPromptContents(info: map<string, Json>, category: Json, results: map<string, Json>, selfCheck: Json,
                            llm: Model, rt: Runtime)
    requires "reviews" !in info
    requires RedactedResults(results).Ok?
    ensures var prompt := FinalPrompt(JObj(info), category, JObj(results), selfCheck);
      FinalOf(JObj(info), category, results, selfCheck, llm, rt) ==
        match ReadFinal(llm(prompt), rt)
        case Missing => Ok(ErrorMessage(NoFinalResponse))
        case Decoded(v) => Ok(v)
        case Undecodable => ClientFallback(JObj(info), results)
  {
  }

  /** A decodable final answer is returned as decoded; an empty one is the fixed error. */
  lemma FinalAnswer(info: Json, category: Json, results: map<string, Json>, selfCheck: Json, llm: Model, rt: Runtime)
    requires ProductInfoRedacted(info).Ok? && RedactedResults(results).Ok?
    ensures var response := llm(FinalPrompt(ProductInfoRedacted(info).value, category, JObj(results), selfCheck));
      ((response.None? || response.value == "") ==>
        FinalOf(info, category, results, selfCheck, llm, rt) == Ok(ErrorMessage(NoFinalResponse))) &&
      (response.Some? && response.value != "" && rt.loads(ExtractJsonText(response.value)).Ok? ==>
        FinalOf(info, category, results, selfCheck, llm, rt) == Ok(rt.loads(ExtractJsonText(response.value)).value))
  {
  }

  // ----- process_product -----

  /** The whole run of `process_product`: its reply, the fields it leaves, and the tool calls made. */
  datatype Pipeline = Pipeline(reply: Json, site: Json, category: Json, stored: map<string, Json>, calls: seq<Call>)

  /** The end of `process_product` once the plan has run: the self-check, then the final reasoning. */
  datatype Ending = Ending(reply: Json, calls: seq<Call>)

  function Conclude(data: Json, category: Json, results: Json, respond: Responder, llm: Model, rt: Runtime): (r: Ending)
    requires results.JObj?
    ensures r.calls == [Call("self_check_tool_results", JObj(map["tools_results" := results]))]
  {
    var check := Call("self_check_tool_results", JObj(map["tools_results" := results]));
    var selfCheck := EffectiveSelfCheck(ClientCheckSummary(Remote(respond, check.tool, check.args), rt));
    match FinalOf(data, category, results.fields, selfCheck, llm, rt)
    case Err(f) => Ending(ErrorObject(f), [check])
    case Ok(v) => Ending(v, [check])
  }

  /** `process_product` from the plan on: the plan log, the plan, and the ending. */
  function AfterPlan(data: Json, site: Json, category: Json, stored0: map<string, Json>, plan: Json,
                     respond: Responder, llm: Model, rt: Runtime): (r: Pipeline)
    ensures r.site == site && r.category == category
    ensures PlanLogFailure(plan).Some? ==> r == Pipeline(ErrorObject(PlanLogFailure(plan).value), site, category, stored0, [])
  {
    match PlanLogFailure(plan)
    case Some(f) => Pipeline(ErrorObject(f), site, category, stored0, [])
    case None =>
      var run := RunPlan(ClientDialect, Ctx(data, site), plan, respond, rt);
      var stored := if run.stored.Some? then run.stored.value else stored0;
      match run.outcome
      case Raised(f) => Pipeline(ErrorObject(f), site, category, stored, run.calls)
      case Returned(results) =>
        var e := Conclude(data, category, results, respond, llm, rt);
        Pipeline(e.reply, site, category, stored, run.calls + e.calls)
  }

  /** The whole of `process_product`, from the fields it starts with. */
  function ProcessRun(data: Json, site0: Json, category0: Json, stored0: map<string, Json>,
                      respond: Responder, llm: Model, rt: Runtime): (r: Pipeline)
    ensures data.JObj? ==> r.site == Get(data.fields, "site", JStr("Unknown"))
    ensures !data.JObj? ==> r == Pipeline(ErrorObject(AttributeError(TypeName(data), "get")), site0, category0, stored0, [])
  {
    if !data.JObj? then Pipeline(ErrorObject(AttributeError(TypeName(data), "get")), site0, category0, stored0, [])
    else
      var site := Get(data.fields, "site", JStr("Unknown"));
      if "title" !in data.fields then Pipeline(ErrorObject(KeyError("title")), site, category0, stored0, [])
      else
        var classify := Call("classify_product", JObj(map["title" := data.fields["title"]]));
        match Remote(respond, classify.tool, classify.args)
        case Err(f) => Pipeline(ErrorObject(f), site, category0, stored0, [classify])
        case Ok(text) =>
          var category := JStr(text);
          var plan := PlanFromResponse(llm(ClientPlanPrompt(ProductSummary(data, category).value)), rt);
          var p := AfterPlan(data, site, category, stored0, plan, respond, llm, rt);
          p.(calls := [classify] + p.calls)
  }

  /** Once the product is classified, `process_product` is the classification call followed by `AfterPlan`. */
  lemma ProcessStages(data: Json, site0: Json, category0: Json, stored0: map<string, Json>,
                      respond: Responder, llm: Model, rt: Runtime)
    requires data.JObj? && "title" in data.fields
    requires respond("classify_product", JObj(map["title" := data.fields["title"]])).Ok?
    ensures var category := JStr(respond("classify_product", JObj(map["title" := data.fields["title"]])).value);
      var plan := PlanFromResponse(llm(ClientPlanPrompt(ProductSummary(data, category).value)), rt);
      var p := AfterPlan(data, Get(data.fields, "site", JStr("Unknown")), category, stored0, plan, respond, llm, rt);
      ProcessRun(data, site0, category0, stored0, respond, llm, rt) ==
        p.(calls := [Call("classify_product", JObj(map["title" := data.fields["title"]]))] + p.calls)
  {
  }

  /** A product without a title is answered {"error": "'title'"} after one and only the site update. */
  lemma UntitledProduct(data: map<string, Json>, site0: Json, category0: Json, stored0: map<string, Json>,
                        respond: Responder, llm: Model, rt: Runtime)
    requires "title" !in data
    ensures ProcessRun(JObj(data), site0, category0, stored0, respond, llm, rt) ==
      Pipeline(ErrorObject(KeyError("title")), Get(data, "site", JStr("Unknown")), category0, stored0, [])
  {
  }

  /** A plan the model failed to give ({"error": ...}) reaches the final step with no tool run. */
  lemma ErrorPlanSkipsTools(data: map<string, Json>, site0: Json, category0: Json, stored0: map<string, Json>,
                            respond: Responder, llm: Model, rt: Runtime)
    requires "title" in data
    requires var classify := Call("classify_product", JObj(map["title" := data["title"]]));
      respond(classify.tool, classify.args).Ok? &&
      llm(ClientPlanPrompt(ProductSummary(JObj(data), JStr(respond(classify.tool, classify.args).value)).value)).None?
    ensures var r := ProcessRun(JObj(data), site0, category0, stored0, respond, llm, rt);
      |r.calls| == 2 && r.calls[1] == Call("self_check_tool_results",
        JObj(map["tools_results" := JObj(map["error" := JStr(NoPlanResponse)])])) && r.stored == stored0
  {
  }

  // ----- the client object -----

  class SmartPurchaseAdvisorClient {
    const session: ToolSession
    const rt: Runtime
    const llm: Model
    var productInfo: Json
    var currentSite: Json
    var category: Json
    var toolResults: map<string, Json>

    constructor (session: ToolSession, llm: Model, rt: Runtime)
      ensures this.session == session && this.llm == llm && this.rt == rt
      ensures productInfo == JNull && currentSite == JNull && category == JNull && toolResults == map[]
    {
      this.session := session;
      this.llm := llm;
      this.rt := rt;
      productInfo := JNull;
      currentSite := JNull;
      category := JNull;
      toolResults := map[];
    }

    /** `execute_tool_plan`; `self.tool_results` is assigned only when the plan completes. */
    method ExecuteToolPlan(plan: Json) returns (outcome: Outcome)
      modifies this, session
      ensures var run := RunPlan(ClientDialect, Ctx(old(productInfo), old(currentSite)), plan, session.respond, rt);
        outcome == run.outcome && session.log == old(session.log) + run.calls &&
        toolResults == (if run.stored.Some? then run.stored.value else old(toolResults))
      ensures productInfo == old(productInfo) && currentSite == old(currentSite) && category == old(category)
    {
      var stored;
      outcome, stored := ExecutePlan(session, ClientDialect, Ctx(productInfo, currentSite), plan, rt);
      if stored.Some? {
        toolResults := stored.value;
      }
    }

    /** `check_tool_results`: the self-check call with the results passed as they are. */
    method CheckToolResults(results: Json) returns (summary: Json)
      modifies session
      ensures var args := JObj(map["tools_results" := results]);
        summary == ClientCheckSummary(Remote(session.respond, "self_check_tool_results", args), rt) &&
        session.log == old(session.log) + [Call("self_check_tool_results", args)]
    {
      var reply := session.CallTool("self_check_tool_results", JObj(map["tools_results" := results]));
      summary := ClientCheckSummary(reply, rt);
    }

    /** `perform_final_reasoning`; it changes nothing on the object (the product is redacted in a copy). */
    method PerformFinalReasoning(results: map<string, Json>, selfCheck: Json) returns (r: Result<Json, Failure>)
      ensures r == FinalOf(productInfo, category, results, selfCheck, llm, rt)
    {
      var shown := ProductInfoRedacted(productInfo);
      if shown.Err? {
        return Err(shown.error);
      }
      var shownResults := RedactResults(results);
      if shownResults.Err? {
        return Err(shownResults.error);
      }
      var response := llm(FinalPrompt(shown.value, category, JObj(shownResults.value), selfCheck));
      match ReadFinal(response, rt)
      case Missing =>
        r := Ok(ErrorMessage(NoFinalResponse));
      case Decoded(v) =>
        r := Ok(v);
      case Undecodable =>
        r := ClientFallback(productInfo, results);
    }

    /** The part of `process_product` after the plan is obtained. */
    method AnalysePlan(plan: Json) returns (reply: Json)
      modifies this, session
      ensures var p := AfterPlan(productInfo, currentSite, category, old(toolResults), plan, session.respond, llm, rt);
        reply == p.reply && toolResults == p.stored && session.log == old(session.log) + p.calls
      ensures productInfo == old(productInfo) && currentSite == old(currentSite) && category == old(category)
    {
      var logged := PlanLogFailure(plan);
      if logged.Some? {
        return ErrorObject(logged.value);
      }
      var outcome := ExecuteToolPlan(plan);
      ghost var run := RunPlan(ClientDialect, Ctx(productInfo, currentSite), plan, session.respond, rt);
      if outcome.Raised? {
        return ErrorObject(outcome.failure);
      }
      var results := outcome.value;
      ghost var logged1 := session.log;
      var check := CheckToolResults(results);
      var selfCheck := EffectiveSelfCheck(check);
      var final := PerformFinalReasoning(results.fields, selfCheck);
      ghost var e := Conclude(productInfo, category, results, session.respond, llm, rt);
      assert session.log == logged1 + e.calls;
      CallsAssociate(old(session.log), run.calls, e.calls);
      if final.Err? {
        return ErrorObject(final.error);
      }
      reply := final.value;
    }

    /** `process_product`: every exception on the way becomes {"error": str(e)}. */
    method ProcessProduct(data: Json) returns (reply: Json)
      modifies this, session
      ensures var run := ProcessRun(data, old(currentSite), old(category), old(toolResults), session.respond, llm, rt);
        reply == run.reply && productInfo == data && currentSite == run.site && category == run.category &&
        toolResults == run.stored && session.log == old(session.log) + run.calls
    {
      productInfo := data;
      if !data.JObj? {
        return ErrorObject(AttributeError(TypeName(data), "get"));
      }
      currentSite := Get(data.fields, "site", JStr("Unknown"));
      if "title" !in data.fields {
        return ErrorObject(KeyError("title"));
      }
      var classification := session.CallTool("classify_product", JObj(map["title" := data.fields["title"]]));
      if classification.Err? {
        return ErrorObject(classification.error);
      }
      category := JStr(classification.value);
      var plan := PlanFromResponse(llm(ClientPlanPrompt(ProductSummary(data, category).value)), rt);
      ProcessStages(data, old(currentSite), old(category), old(toolResults), session.respond, llm, rt);
      ghost var classify := Call("classify_product", JObj(map["title" := data.fields["title"]]));
      ghost var p := AfterPlan(data, currentSite, category, toolResults, plan, session.respond, llm, rt);
      ghost var log1 := session.log;
      assert log1 == old(session.log) + [classify];
      reply := AnalysePlan(plan);
      assert session.log == log1 + p.calls;
      CallsAssociate(old(session.log), [classify], p.calls);
    }
  }
}
