/**
 * The action layer: the object behind the extension's HTTP endpoint. It keeps
 * the product of the current request and the site it came from, runs the tool
 * plan (the executor in ToolPlan, with arguments wrapped as {"input": ...}),
 * and summarises the tool server's self-check. The request prelude that
 * validates the posted product is modelled too; what the handler does after
 * it is not.
 */
module Action {
  import opened Python
  import opened Mcp
  import opened ToolPlan

  // ----- set_product_info -----

  /** The site after `set_product_info(info)`: the "site" entry if present, else the current one. */
  function SiteAfter(info: Json, site: Json): (r: Result<Json, Failure>)
    ensures info.JObj? ==> r == Ok(if "site" in info.fields then info.fields["site"] else site)
    ensures !IsContainer(info) ==> r == Err(NotContainer(TypeName(info)))
  {
    if !IsContainer(info) then Err(NotContainer(TypeName(info)))
    else if In(info, "site") then Subscript(info, "site")
    else Ok(site)
  }

  /** A request without "site" keeps the site of an earlier request. */
  lemma SiteSticky(info: map<string, Json>, site: Json)
    requires "site" !in info
    ensures SiteAfter(JObj(info), site) == Ok(site)
  {
  }

  // ----- check_tool_results -----

  const InvalidReplyIssue := "Invalid response format from self-check tool"
  const InvalidReplyWarning := "Could not parse self-check results"

  /** What the layer uses in place of a self-check reply that is not JSON. */
  const InvalidReplyDefault: Json := JObj(map[
    "reliability_score" := JInt(0),
    "reliability_level" := JStr("Low"),
    "issues" := JArr([JStr(InvalidReplyIssue)]),
    "warnings" := JArr([JStr(InvalidReplyWarning)]),
    "insights" := JArr([])])

  /** The reply when the check itself raised. */
  function ListsForm(f: Failure): (r: Json)
    ensures r.JObj? && r.fields.Keys == {"reliability_score", "reliability_level", "issues", "warnings", "insights"}
    ensures r.fields["reliability_score"] == JInt(0) && r.fields["reliability_level"] == JStr("Low")
    ensures r.fields["issues"] == JArr([JStr("Error checking tool results: " + ErrorText(f))])
  {
    JObj(map[
      "reliability_score" := JInt(0),
      "reliability_level" := JStr("Low"),
      "issues" := JArr([JStr("Error checking tool results: " + ErrorText(f))]),
      "warnings" := JArr([JStr("Could not complete self-check")]),
      "insights" := JArr([])])
  }

  /** `check_tool_results` after the tool call: `reply` is the call's text or its exception. */
  function ActionCheckSummary(reply: Result<string, Failure>, rt: Runtime): (r: Json)
    ensures reply.Err? ==> r == ListsForm(reply.error)
  {
    match reply
    case Err(f) => ListsForm(f)
    case Ok(text) =>
      var check := match rt.loads(text) case Ok(v) => v case Err(_) => InvalidReplyDefault;
      match CheckSummary(check)
      case Ok(summary) => summary
      case Err(f) => ListsForm(f)
  }

  /** A reply that is not JSON always yields the same counts form. */
  lemma UndecodableCheck(text: string, rt: Runtime)
    requires rt.loads(text).Err?
    ensures ActionCheckSummary(Ok(text), rt) == JObj(map[
      "reliability_score" := JInt(0), "reliability_level" := JStr("Low"),
      "issues_count" := JInt(1), "warnings_count" := JInt(1), "insights_count" := JInt(0)])
  {
    assert CheckSummary(InvalidReplyDefault).Ok?;
  }

  /** A decoded dict with list-valued messages gives the counts form of its own values. */
  lemma DecodedCheck(text: string, m: map<string, Json>, rt: Runtime)
    requires rt.loads(text) == Ok(JObj(m))
    requires forall k :: k in m && k in {"issues", "warnings", "insights"} ==> m[k].JArr?
    ensures var r := ActionCheckSummary(Ok(text), rt);
      r.JObj? && r.fields["reliability_score"] == Get(m, "reliability_score", JInt(0))
      && r.fields["reliability_level"] == Get(m, "reliability_level", JStr("Unknown"))
      && r.fields["issues_count"] == JInt(if "issues" in m then |m["issues"].items| else 0)
      && r.fields["warnings_count"] == JInt(if "warnings" in m then |m["warnings"].items| else 0)
      && r.fields["insights_count"] == JInt(if "insights" in m then |m["insights"].items| else 0)
  {
    assert "issues" in m ==> m["issues"].JArr?;
    assert "warnings" in m ==> m["warnings"].JArr?;
    assert "insights" in m ==> m["insights"].JArr?;
  }

  /** The three shapes `check_tool_results` can return. */
  lemma CheckShapes(reply: Result<string, Failure>, rt: Runtime)
    ensures var r := ActionCheckSummary(reply, rt);
      r.JObj? &&
      (r.fields.Keys == {"reliability_score", "reliability_level", "issues_count", "warnings_count", "insights_count"} ||
       (r.fields.Keys == {"reliability_score", "reliability_level", "issues", "warnings", "insights"}
        && r.fields["reliability_score"] == JInt(0) && r.fields["reliability_level"] == JStr("Low")))
  {
  }

  // ----- the validation prelude of handle_product_detection -----

  const MissingTitle := "Missing required field: title"
  const NoReviewsNote := "No reviews were provided for analysis. The results are based on limited information."

  /** How the prelude ends: an error response, or the request data the handler goes on with. */
  datatype Prelude = Rejected(status: int, body: Json) | Accepted(data: map<string, Json>)

  /** The prelude on the decoded request body. */
  function PreludeOf(data: Json): (r: Prelude)
    ensures r.Rejected? ==> r.status == 400 || r.status == 500
    ensures r.Accepted? ==> data.JObj? && r.data.Keys >= data.fields.Keys && "title" in r.data
  {
    match data
    case JArr(xs) =>
      if JStr("reviews") in xs then Rejected(500, ErrorObject(ListIndices))
      else if JStr("title") !in xs then Rejected(400, JObj(map["error" := JStr(MissingTitle)]))
      else Rejected(500, ErrorObject(ListIndices))
    case JObj(m) =>
      var logged := if "reviews" in m && Truthy(m["reviews"]) then PyLen(m["reviews"]) else Ok(0);
      if logged.Err? then Rejected(500, ErrorObject(logged.error))
      else if "title" !in m then Rejected(400, JObj(map["error" := JStr(MissingTitle)]))
      else if "reviews" !in m || !Truthy(m["reviews"]) then
        Accepted(m["reviews" := JArr([])]["review_note" := JStr(NoReviewsNote)])
      else Accepted(m)
    case _ => Rejected(500, ErrorObject(AttributeError(TypeName(data), "copy")))
  }

  /** The prelude as the handler runs it, updating the request dict in place. */
  method ValidateRequest(data: Json) returns (r: Prelude)
    ensures r == PreludeOf(data)
  {
    if !(data.JObj? || data.JArr?) {
      return Rejected(500, ErrorObject(AttributeError(TypeName(data), "copy")));
    }
    var logData := data;
    if In(logData, "reviews") {
      if logData.JArr? {
        return Rejected(500, ErrorObject(ListIndices));
      }
      var count := 0;
      if Truthy(logData.fields["reviews"]) {
        var n := PyLen(logData.fields["reviews"]);
        if n.Err? {
          return Rejected(500, ErrorObject(n.error));
        }
        count := n.value;
      }
      logData := JObj(logData.fields["reviews" := JStr("[" + NatToString(count) + " reviews - content hidden]")]);
    }
    if !In(data, "title") {
      return Rejected(400, JObj(map["error" := JStr(MissingTitle)]));
    }
    if data.JArr? {
      return Rejected(500, ErrorObject(ListIndices));
    }
    var request := data.fields;
    if "reviews" !in request || !Truthy(request["reviews"]) {
      request := request["reviews" := JArr([])];
      request := request["review_note" := JStr(NoReviewsNote)];
    }
    return Accepted(request);
  }

  /** A dict without a title is answered 400, unless counting its reviews for the log already failed. */
  lemma TitleRequired(m: map<string, Json>)
    requires "title" !in m
    requires "reviews" !in m || !Truthy(m["reviews"]) || PyLen(m["reviews"]).Ok?
    ensures PreludeOf(JObj(m)) == Rejected(400, JObj(map["error" := JStr(MissingTitle)]))
  {
  }

  /** Missing or empty reviews are replaced by [] and the request gets the review note. */
  lemma ReviewsDefaulted(m: map<string, Json>)
    requires "title" in m && ("reviews" !in m || !Truthy(m["reviews"]))
    ensures PreludeOf(JObj(m)) == Accepted(m["reviews" := JArr([])]["review_note" := JStr(NoReviewsNote)])
  {
  }

  /** A list of reviews (or any sized, non-empty value) passes through unchanged. */
  lemma ReviewsKept(m: map<string, Json>)
    requires "title" in m && "reviews" in m && Truthy(m["reviews"]) && PyLen(m["reviews"]).Ok?
    ensures PreludeOf(JObj(m)) == Accepted(m)
  {
  }

  // ----- the layer object -----

  class ActionLayer {
    const session: ToolSession
    const rt: Runtime
    var productInfo: Json
    var currentSite: Json
    /** `self.tool_results`, which does not exist until a plan has completed. */
    var toolResults: Option<map<string, Json>>

    constructor (session: ToolSession, rt: Runtime)
      ensures this.session == session && this.rt == rt
      ensures productInfo == JNull && currentSite == JNull && toolResults == None
    {
      this.session := session;
      this.rt := rt;
      productInfo := JNull;
      currentSite := JNull;
      toolResults := None;
    }

    /** `set_product_info`: the product is replaced; the site only when the product names one. */
    method SetProductInfo(info: Json) returns (raised: Option<Failure>)
      modifies this
      ensures productInfo == info
      ensures var next := SiteAfter(info, old(currentSite));
        (next.Ok? ==> currentSite == next.value && raised == None) &&
        (next.Err? ==> currentSite == old(currentSite) && raised == Some(next.error))
      ensures toolResults == old(toolResults)
    {
      productInfo := info;
      raised := None;
      if !IsContainer(info) {
        return Some(NotContainer(TypeName(info)));
      }
      if In(info, "site") {
        var site := Subscript(info, "site");
        if site.Err? {
          return Some(site.error);
        }
        currentSite := site.value;
      }
    }

    /** `execute_tool_plan`; `self.tool_results` is assigned only when the plan completes. */
    method ExecuteToolPlan(plan: Json) returns (outcome: Outcome)
      modifies this, session
      ensures var run := RunPlan(ActionDialect, Ctx(old(productInfo), old(currentSite)), plan, session.respond, rt);
        outcome == run.outcome && session.log == old(session.log) + run.calls &&
        toolResults == (if run.stored.Some? then run.stored else old(toolResults))
      ensures productInfo == old(productInfo) && currentSite == old(currentSite)
    {
      var stored;
      outcome, stored := ExecutePlan(session, ActionDialect, Ctx(productInfo, currentSite), plan, rt);
      if stored.Some? {
        toolResults := stored;
      }
    }

    /** `check_tool_results`: one call to the self-check tool, then the summary of its reply. */
    method CheckToolResults(results: Json) returns (summary: Json)
      modifies session
      ensures var args := JObj(map["input" := JObj(map["tools_results" := results])]);
        summary == ActionCheckSummary(Remote(session.respond, "self_check_tool_results", args), rt) &&
        session.log == old(session.log) + [Call("self_check_tool_results", args)]
    {
      var reply := session.CallTool("self_check_tool_results", JObj(map["input" := JObj(map["tools_results" := results])]));
      summary := ActionCheckSummary(reply, rt);
    }
  }
}
