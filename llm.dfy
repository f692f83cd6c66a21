/**
 * The language-model side of the advisor: what is sent to the model, and
 * how a reply is turned back into a value. The reply text is cut out of a
 * Markdown-style fence by plain string splitting on the literal markers
 * "```json" and "```" (it does not follow CommonMark's fenced code block
 * rules), stripped, and handed to `json.loads`.
 */
module Llm {
  import opened Python
  import opened Mcp

  /** A request to the model; template bodies are not modelled. */
  datatype Prompt =
    | PlanText(text: string)                       // the perception layer's planning prompt
    | ClientPlanPrompt(product: Json)              // the client's planning prompt, built around a product summary
    | FinalPrompt(productInfo: Json, category: Json, results: Json, selfCheck: Json)

  /** `generate_with_timeout`: the reply text, or None when there is no reply or no text. */
  type Model = Prompt -> Option<string>

  /** The product summary appended to both planning prompts. */
  function ProductSummary(productData: Json, category: Json): (r: Result<Json, Failure>)
    ensures r.Ok? <==> productData.JObj? && "title" in productData.fields
    ensures r.Ok? ==> r.value.JObj? && r.value.fields.Keys == {"title", "site", "category", "price", "url"}
    ensures r.Ok? ==> r.value.fields["title"] == productData.fields["title"] && r.value.fields["category"] == category
    ensures r.Ok? ==> r.value.fields["site"] == Get(productData.fields, "site", JStr("Unknown"))
    ensures r.Ok? ==> r.value.fields["price"] == Get(productData.fields, "price", JStr("Unknown"))
    ensures r.Ok? ==> r.value.fields["url"] == Get(productData.fields, "url", JStr("Unknown"))
  {
    var title :- Subscript(productData, "title");
    var d := productData.fields;
    Ok(JObj(map[
      "title" := title,
      "site" := Get(d, "site", JStr("Unknown")),
      "category" := category,
      "price" := Get(d, "price", JStr("Unknown")),
      "url" := Get(d, "url", JStr("Unknown"))]))
  }

  // ----- Python's str.strip() -----

  /** The characters `str.isspace` accepts. */
  predicate IsSpace(c: char) {
    '\t' <= c <= '\r' || '\U{1c}' <= c <= '\U{1f}' || c == ' ' || c == '\U{85}' || c == '\U{a0}'
    || c == '\U{1680}' || '\U{2000}' <= c <= '\U{200a}' || c == '\U{2028}' || c == '\U{2029}'
    || c == '\U{202f}' || c == '\U{205f}' || c == '\U{3000}'
  }

  predicate Stripped(s: string) {
    s == [] || (!IsSpace(s[0]) && !IsSpace(s[|s| - 1]))
  }

  /** `s.lstrip()`: drops the whitespace that `s` starts with, and nothing else. */
  function TrimStart(s: string): (r: string)
    ensures r == [] || !IsSpace(r[0])
    ensures |r| <= |s| && r == s[|s| - |r|..]
    ensures forall k :: 0 <= k < |s| - |r| ==> IsSpace(s[k])
  {
    if s != [] && IsSpace(s[0]) then TrimStart(s[1..]) else s
  }

  /** `s.rstrip()`: drops the whitespace that `s` ends with, and nothing else. */
  function TrimEnd(s: string): (r: string)
    ensures r == [] || !IsSpace(r[|r| - 1])
    ensures |r| <= |s| && r == s[..|r|]
    ensures forall k :: |r| <= k < |s| ==> IsSpace(s[k])
  {
    if s != [] && IsSpace(s[|s| - 1]) then TrimEnd(s[..|s| - 1]) else s
  }

  /** `s.strip()`: `s` without its leading and trailing whitespace (see `StripPadded`). */
  function Strip(s: string): (r: string)
    ensures Stripped(r)
  {
    var t := TrimStart(s);
    var u := TrimEnd(t);
    assert u == [] || !IsSpace(u[0]) by {
      if u != [] { assert u[0] == t[0]; }
    }
    u
  }

  lemma StripStripped(s: string)
    requires Stripped(s)
    ensures Strip(s) == s
  {
  }

  /** Leading and trailing whitespace around a stripped text is all that `strip` removes. */
  lemma {:induction false} StripPadded(pre: string, s: string, post: string)
    requires forall i :: 0 <= i < |pre| ==> IsSpace(pre[i])
    requires forall i :: 0 <= i < |post| ==> IsSpace(post[i])
    requires Stripped(s) && s != []
    ensures Strip(pre + s + post) == s
  {
    var text := pre + s + post;
    assert text == pre + (s + post);
    TrimStartSpaces(pre, s + post);
    TrimEndSpaces(s, post);
    assert Strip(text) == TrimEnd(TrimStart(text));
  }

  lemma {:induction false} TrimStartSpaces(pre: string, s: string)
    requires forall i :: 0 <= i < |pre| ==> IsSpace(pre[i])
    requires s != [] && !IsSpace(s[0])
    ensures TrimStart(pre + s) == s
  {
    if pre != [] {
      assert (pre + s)[1..] == pre[1..] + s;
      TrimStartSpaces(pre[1..], s);
    }
  }

  lemma {:induction false} TrimEndSpaces(s: string, post: string)
    requires forall i :: 0 <= i < |post| ==> IsSpace(post[i])
    requires s != [] && !IsSpace(s[|s| - 1])
    ensures TrimEnd(s + post) == s
  {
    if post == [] {
      assert s + post == s;
    } else {
      var n := |post| - 1;
      assert (s + post)[..|s + post| - 1] == s + post[..n];
      TrimEndSpaces(s, post[..n]);
    }
  }

  // ----- str.split(sep, 1) -----

  /** The first position at or after `i` where `pat` occurs in `s`, as `str.find` reports it. */
  function FindFrom(s: string, pat: string, i: nat): (r: Option<nat>)
    requires i <= |s|
    decreases |s| - i
    ensures r.Some? ==> i <= r.value && r.value + |pat| <= |s| && IsPrefix(pat, s[r.value..])
    ensures r.Some? ==> forall k :: i <= k < r.value ==> !IsPrefix(pat, s[k..])
    ensures r.None? ==> forall k :: i <= k <= |s| - |pat| ==> !IsPrefix(pat, s[k..])
  {
    if i + |pat| > |s| then None
    else if IsPrefix(pat, s[i..]) then Some(i)
    else FindFrom(s, pat, i + 1)
  }

  function Find(s: string, pat: string): (r: Option<nat>)
    ensures r.Some? <==> HasSubstring(s, pat)
    ensures r.Some? ==> r.value + |pat| <= |s| && IsPrefix(pat, s[r.value..])
    ensures r.Some? ==> forall k :: 0 <= k < r.value ==> !IsPrefix(pat, s[k..])
  {
    FindFrom(s, pat, 0)
  }

  /** `s.split(sep, 1)[1]`: what follows the first occurrence of `sep`. */
  function After(s: string, sep: string): (r: string)
    requires HasSubstring(s, sep)
    ensures Before(s, sep) + sep + r == s
  {
    s[Find(s, sep).value + |sep|..]
  }

  /** `s.split(sep, 1)[0]`: what precedes the first occurrence of `sep`, or all of `s`. */
  function Before(s: string, sep: string): (r: string)
    ensures !HasSubstring(s, sep) ==> r == s
    ensures |r| <= |s| && r == s[..|r|]
  {
    match Find(s, sep)
    case Some(i) => s[..i]
    case None => s
  }

  const Fence := "```"
  const JsonFence := "```json"

  /**
   * The JSON text the advisor's layers cut out of a model reply: after the
   * first "```json" (or, lacking one, the first "```"), up to the next
   * "```", stripped; a reply without any "```" is taken whole.
   */
  function ExtractJsonText(text: string): (r: string)
    ensures !HasSubstring(text, Fence) ==> r == text
    ensures !HasSubstring(r, Fence)
    ensures HasSubstring(text, Fence) ==> Stripped(r)
  {
    if HasSubstring(text, JsonFence) then
      JsonFenceHasFence(text);
      var r := Strip(Before(After(text, JsonFence), Fence));
      BeforeHasNoSep(After(text, JsonFence), Fence);
      StripKeepsAbsence(Before(After(text, JsonFence), Fence), Fence);
      r
    else if HasSubstring(text, Fence) then
      var r := Strip(Before(After(text, Fence), Fence));
      BeforeHasNoSep(After(text, Fence), Fence);
      StripKeepsAbsence(Before(After(text, Fence), Fence), Fence);
      r
    else
      text
  }

  lemma JsonFenceHasFence(text: string)
    requires HasSubstring(text, JsonFence)
    ensures HasSubstring(text, Fence)
  {
    var i :| 0 <= i <= |text| - |JsonFence| && IsPrefix(JsonFence, text[i..]);
    JsonPrefixIsFence(text[i..]);
  }

  /** A text without `p` has no slice containing `p`. */
  lemma SliceKeepsAbsence(s: string, a: nat, b: nat, p: string)
    requires a <= b <= |s|
    requires !HasSubstring(s, p)
    ensures !HasSubstring(s[a..b], p)
  {
    var t := s[a..b];
    forall i | 0 <= i <= |t| - |p|
      ensures !IsPrefix(p, t[i..])
    {
      assert t[i..][..|p|] == s[a + i..][..|p|];
      assert !IsPrefix(p, s[a + i..]);
    }
  }

  lemma BeforeHasNoSep(s: string, sep: string)
    requires sep != []
    ensures !HasSubstring(Before(s, sep), sep)
  {
    match Find(s, sep)
    case None =>
    case Some(i) =>
      var t := s[..i];
      forall k | 0 <= k <= |t| - |sep|
        ensures !IsPrefix(sep, t[k..])
      {
        assert t[k..][..|sep|] == s[k..][..|sep|];
        assert !IsPrefix(sep, s[k..]);
      }
  }

  lemma StripKeepsAbsence(s: string, p: string)
    requires !HasSubstring(s, p)
    ensures !HasSubstring(Strip(s), p)
  {
    var t := TrimStart(s);
    SliceKeepsAbsence(s, |s| - |t|, |s|, p);
    var u := TrimEnd(t);
    SliceKeepsAbsence(t, 0, |u|, p);
  }

  lemma JsonPrefixIsFence(t: string)
    requires IsPrefix(JsonFence, t)
    ensures IsPrefix(Fence, t)
  {
    assert t[..3] == t[..7][..3];
  }

  lemma FindAtStart(t: string, p: string)
    requires IsPrefix(p, t)
    ensures HasSubstring(t, p) && Find(t, p) == Some(0)
  {
    assert t[0..] == t;
  }

  /** In a newline-framed text with no "```" of its own, "```" occurs only at the closing fence. */
  lemma FenceOnlyAtEnd(s: string)
    requires !HasSubstring(s, Fence)
    ensures forall k :: 0 <= k < |s| + 2 ==> !IsPrefix(Fence, ("\n" + s + "\n" + Fence)[k..])
    ensures Find("\n" + s + "\n" + Fence, Fence) == Some(|s| + 2)
    ensures Before("\n" + s + "\n" + Fence, Fence) == "\n" + s + "\n"
  {
    var t := "\n" + s + "\n" + Fence;
    forall k | 0 <= k < |s| + 2
      ensures !IsPrefix(Fence, t[k..])
    {
      if k == 0 {
        assert t[k..][0] == '\n';
      } else if k + 2 <= |s| {
        assert t[k..][..3] == s[k - 1..][..3];
        assert !IsPrefix(Fence, s[k - 1..]);
      } else {
        assert t[k..][|s| + 1 - k] == '\n';
      }
    }
    assert t[|s| + 2..] == Fence;
    assert IsPrefix(Fence, t[|s| + 2..]);
    assert HasSubstring(t, Fence);
    assert t[..|s| + 2] == "\n" + s + "\n";
  }

  lemma StripFramed(s: string)
    requires Stripped(s)
    ensures Strip("\n" + s + "\n") == s
  {
    if s == [] {
      assert "\n" + s + "\n" == "\n\n";
      assert TrimStart("\n\n") == TrimStart("\n\n"[1..]);
      assert "\n\n"[1..][1..] == [];
    } else {
      assert IsSpace('\n');
      StripPadded("\n", s, "\n");
    }
  }

  /** Wrapping a stripped, fence-free JSON text in a "```json" fence and extracting it gives it back. */
  lemma JsonFenceRoundTrip(s: string)
    requires Stripped(s)
    requires !HasSubstring(s, Fence)
    ensures ExtractJsonText(JsonFence + "\n" + s + "\n" + Fence) == s
  {
    var inner := "\n" + s + "\n" + Fence;
    var text := JsonFence + inner;
    assert JsonFence + "\n" + s + "\n" + Fence == text;
    assert text[..7] == JsonFence;
    FindAtStart(text, JsonFence);
    assert text[7..] == inner;
    assert After(text, JsonFence) == inner;
    FenceOnlyAtEnd(s);
    StripFramed(s);
  }

  lemma NoJsonFenceInPlain(s: string)
    requires !HasSubstring(s, Fence)
    ensures !HasSubstring(Fence + "\n" + s + "\n" + Fence, JsonFence)
  {
    var inner := "\n" + s + "\n" + Fence;
    var text := Fence + inner;
    assert Fence + "\n" + s + "\n" + Fence == text;
    FenceOnlyAtEnd(s);
    forall i | 0 <= i <= |text| - |JsonFence|
      ensures !IsPrefix(JsonFence, text[i..])
    {
      if i == 0 {
        assert text[i..][3] == '\n';
      } else if i < 3 {
        assert text[i..][3 - i] == '\n';
      } else {
        assert text[i..] == inner[i - 3..];
        if IsPrefix(JsonFence, text[i..]) {
          JsonPrefixIsFence(text[i..]);
        }
      }
    }
  }

  /** The same holds for a bare "```" fence. */
  lemma PlainFenceRoundTrip(s: string)
    requires Stripped(s)
    requires !HasSubstring(s, Fence)
    ensures ExtractJsonText(Fence + "\n" + s + "\n" + Fence) == s
  {
    var inner := "\n" + s + "\n" + Fence;
    var text := Fence + inner;
    assert Fence + "\n" + s + "\n" + Fence == text;
    NoJsonFenceInPlain(s);
    assert text[..3] == Fence;
    FindAtStart(text, Fence);
    assert text[3..] == inner;
    assert After(text, Fence) == inner;
    FenceOnlyAtEnd(s);
    StripFramed(s);
  }

  // ----- replies -----

  function ErrorMessage(msg: string): (r: Json)
    ensures r.JObj? && r.fields.Keys == {"error"} && r.fields["error"] == JStr(msg)
  {
    JObj(map["error" := JStr(msg)])
  }

  const NoPlanResponse := "Failed to get response from LLM"
  const UnparsablePlan := "Failed to parse LLM response"
  const NoFinalResponse := "Failed to get final response from LLM"

  /** `get_tool_invocation_plan` after the model call: the decoded plan or an error object. */
  function PlanFromResponse(response: Option<string>, rt: Runtime): (r: Json)
    ensures response.None? || response.value == "" ==> r == ErrorMessage(NoPlanResponse)
    ensures response.Some? && response.value != "" ==>
      r == (match rt.loads(ExtractJsonText(response.value))
            case Ok(v) => v
            case Err(_) => ErrorMessage(UnparsablePlan))
  {
    if response.None? || response.value == "" then ErrorMessage(NoPlanResponse)
    else match Decode(rt, ExtractJsonText(response.value))
      case Ok(v) => v
      case Err(_) => ErrorMessage(UnparsablePlan)
  }

  /** How a final-analysis reply reads: missing, decoded, or not JSON (which calls for the fallback). */
  datatype FinalReading = Missing | Decoded(value: Json) | Undecodable

  function ReadFinal(response: Option<string>, rt: Runtime): (r: FinalReading)
    ensures r.Missing? <==> response.None? || response.value == ""
    ensures r.Decoded? ==> rt.loads(ExtractJsonText(response.value)) == Ok(r.value)
    ensures r.Undecodable? ==> rt.loads(ExtractJsonText(response.value)).Err?
  {
    if response.None? || response.value == "" then Missing
    else match rt.loads(ExtractJsonText(response.value))
      case Ok(v) => Decoded(v)
      case Err(_) => Undecodable
  }

  // ----- the fallback analysis built from the tool results -----

  /** The fields of a fallback analysis, each one a value taken from a tool result or its default. */
  datatype Analysis = Analysis(
    overallSentiment: Json, sentimentScore: Json, confidenceScore: Json, confidenceLevel: Json,
    pros: Json, cons: Json, confidenceExplanation: Json, confidenceComponents: Json, reviewCount: Json,
    reliabilityScore: Json, reliabilityLevel: Json, issues: Json, warnings: Json, insights: Json)

  const FallbackError := "Failed to generate structured analysis"

  /**
   * The fallback fields, read from the review summary, the confidence score and the
   * self-check results in that order; a result that is present but not a dict has no
   * `get` and raises.
   */
  function FallbackAnalysis(results: map<string, Json>): (r: Result<Analysis, Failure>)
    ensures r.Ok? <==> (Get(results, "review_summary_tool", JObj(map[])).JObj? &&
      Get(results, "calculate_confidence_score", JObj(map[])).JObj? &&
      Get(results, "self_check_tool_results", JObj(map[])).JObj?)
    ensures r.Err? && !Get(results, "review_summary_tool", JObj(map[])).JObj? ==>
      r.error == AttributeError(TypeName(results["review_summary_tool"]), "get")
  {
    var review :- AsDict(Get(results, "review_summary_tool", JObj(map[])));
    var confidence :- AsDict(Get(results, "calculate_confidence_score", JObj(map[])));
    var check :- AsDict(Get(results, "self_check_tool_results", JObj(map[])));
    Ok(Analysis(
      Get(review, "overall_sentiment", JStr("Unknown")),
      Get(review, "sentiment_score", JInt(0)),
      Get(confidence, "confidence_score", JInt(0)),
      Get(confidence, "confidence_level", JStr("Unknown confidence")),
      Get(review, "pros", JArr([JStr("No pros found")])),
      Get(review, "cons", JArr([JStr("No cons found")])),
      Get(confidence, "explanation", JStr("Could not calculate confidence score")),
      Get(confidence, "components", JObj(map[])),
      Get(review, "review_count", JInt(0)),
      Get(check, "reliability_score", JInt(0)),
      Get(check, "reliability_level", JStr("Unknown")),
      Get(check, "issues", JArr([])),
      Get(check, "warnings", JArr([])),
      Get(check, "insights", JArr([]))))
  }

  /** The fallback as the dict it is returned as, with the error marker. */
  function AnalysisObject(a: Analysis): map<string, Json> {
    map[
      "overall_sentiment" := a.overallSentiment,
      "sentiment_score" := a.sentimentScore,
      "confidence_score" := a.confidenceScore,
      "confidence_level" := a.confidenceLevel,
      "pros" := a.pros,
      "cons" := a.cons,
      "confidence_explanation" := a.confidenceExplanation,
      "confidence_components" := a.confidenceComponents,
      "review_count" := a.reviewCount,
      "reliability_score" := a.reliabilityScore,
      "reliability_level" := a.reliabilityLevel,
      "issues" := a.issues,
      "warnings" := a.warnings,
      "insights" := a.insights,
      "error" := JStr(FallbackError)]
  }

  /** With no tool results at all, every field is its default. */
  lemma FallbackDefaults()
    ensures FallbackAnalysis(map[]) == Ok(Analysis(
      JStr("Unknown"), JInt(0), JInt(0), JStr("Unknown confidence"),
      JArr([JStr("No pros found")]), JArr([JStr("No cons found")]),
      JStr("Could not calculate confidence score"), JObj(map[]), JInt(0),
      JInt(0), JStr("Unknown"), JArr([]), JArr([]), JArr([])))
  {
  }

  /** What the tools did report is carried over unchanged. */
  lemma FallbackCarriesResults(review: map<string, Json>, confidence: map<string, Json>, check: map<string, Json>)
    requires "pros" in review && "cons" in review && "sentiment_score" in review
    requires "confidence_score" in confidence && "reliability_score" in check
    ensures var r := FallbackAnalysis(map["review_summary_tool" := JObj(review),
      "calculate_confidence_score" := JObj(confidence), "self_check_tool_results" := JObj(check)]);
      r.Ok? && r.value.pros == review["pros"] && r.value.cons == review["cons"] &&
      r.value.sentimentScore == review["sentiment_score"] &&
      r.value.confidenceScore == confidence["confidence_score"] &&
      r.value.reliabilityScore == check["reliability_score"]
  {
  }

  /** The fields of the fallback dict other than its error marker. */
  datatype Field = OverallSentiment | SentimentScore | ConfidenceScore | ConfidenceLevel | Pros | Cons |
    ConfidenceExplanation | ConfidenceComponents | ReviewCount | ReliabilityScore | ReliabilityLevel |
    Issues | Warnings | Insights

  /** Where a fallback field comes from: the tool result, the key read from it, and the default. */
  datatype FieldSource = FieldSource(result: string, key: string, default: Json)

  /** Each field's key in the returned dict. */
  function FieldName(f: Field): string {
    match f
    case OverallSentiment => "overall_sentiment"
    case SentimentScore => "sentiment_score"
    case ConfidenceScore => "confidence_score"
    case ConfidenceLevel => "confidence_level"
    case Pros => "pros"
    case Cons => "cons"
    case ConfidenceExplanation => "confidence_explanation"
    case ConfidenceComponents => "confidence_components"
    case ReviewCount => "review_count"
    case ReliabilityScore => "reliability_score"
    case ReliabilityLevel => "reliability_level"
    case Issues => "issues"
    case Warnings => "warnings"
    case Insights => "insights"
  }

  /** Each field's source, as the fallback's dict literal reads it. */
  function FieldSourceOf(f: Field): FieldSource {
    match f
    case OverallSentiment => FieldSource("review_summary_tool", "overall_sentiment", JStr("Unknown"))
    case SentimentScore => FieldSource("review_summary_tool", "sentiment_score", JInt(0))
    case ConfidenceScore => FieldSource("calculate_confidence_score", "confidence_score", JInt(0))
    case ConfidenceLevel => FieldSource("calculate_confidence_score", "confidence_level", JStr("Unknown confidence"))
    case Pros => FieldSource("review_summary_tool", "pros", JArr([JStr("No pros found")]))
    case Cons => FieldSource("review_summary_tool", "cons", JArr([JStr("No cons found")]))
    case ConfidenceExplanation =>
      FieldSource("calculate_confidence_score", "explanation", JStr("Could not calculate confidence score"))
    case ConfidenceComponents => FieldSource("calculate_confidence_score", "components", JObj(map[]))
    case ReviewCount => FieldSource("review_summary_tool", "review_count", JInt(0))
    case ReliabilityScore => FieldSource("self_check_tool_results", "reliability_score", JInt(0))
    case ReliabilityLevel => FieldSource("self_check_tool_results", "reliability_level", JStr("Unknown"))
    case Issues => FieldSource("self_check_tool_results", "issues", JArr([]))
    case Warnings => FieldSource("self_check_tool_results", "warnings", JArr([]))
    case Insights => FieldSource("self_check_tool_results", "insights", JArr([]))
  }

  /** The analysis's value for a field. */
  function FieldOf(a: Analysis, f: Field): Json {
    match f
    case OverallSentiment => a.overallSentiment
    case SentimentScore => a.sentimentScore
    case ConfidenceScore => a.confidenceScore
    case ConfidenceLevel => a.confidenceLevel
    case Pros => a.pros
    case Cons => a.cons
    case ConfidenceExplanation => a.confidenceExplanation
    case ConfidenceComponents => a.confidenceComponents
    case ReviewCount => a.reviewCount
    case ReliabilityScore => a.reliabilityScore
    case ReliabilityLevel => a.reliabilityLevel
    case Issues => a.issues
    case Warnings => a.warnings
    case Insights => a.insights
  }

  /** A tool result read as a dict: its entries when present, none when absent. */
  function ResultDict(results: map<string, Json>, name: string): (r: map<string, Json>)
    ensures name !in results ==> r == map[]
    ensures name in results && results[name].JObj? ==> r == results[name].fields
  {
    match Get(results, name, JObj(map[]))
    case JObj(m) => m
    case _ => map[]
  }

  /** What a field's source gives: the entry under its key when the result has it, else the default. */
  function SourceValue(results: map<string, Json>, src: FieldSource): Json {
    var m := ResultDict(results, src.result);
    if src.key in m then m[src.key] else src.default
  }

  /**
   * Every field of a fallback holds the value its tool result has under the field's
   * source key when the result has that key, and the field's default otherwise.
   */
  lemma FallbackFields(results: map<string, Json>)
    requires FallbackAnalysis(results).Ok?
    ensures forall f :: FieldOf(FallbackAnalysis(results).value, f) == SourceValue(results, FieldSourceOf(f))
  {
    var a := FallbackAnalysis(results).value;
    forall f ensures FieldOf(a, f) == SourceValue(results, FieldSourceOf(f)) {
      match f
      case OverallSentiment =>
      case SentimentScore =>
      case ConfidenceScore =>
      case ConfidenceLevel =>
      case Pros =>
      case Cons =>
      case ConfidenceExplanation =>
      case ConfidenceComponents =>
      case ReviewCount =>
      case ReliabilityScore =>
      case ReliabilityLevel =>
      case Issues =>
      case Warnings =>
      case Insights =>
    }
  }

  /** The returned dict holds each field under its name, and besides them only the error marker. */
  lemma AnalysisObjectFields(a: Analysis, f: Field)
    ensures FieldName(f) in AnalysisObject(a) && AnalysisObject(a)[FieldName(f)] == FieldOf(a, f)
    ensures FieldName(f) != "error" && AnalysisObject(a)["error"] == JStr(FallbackError)
  {
    match f
    case OverallSentiment =>
    case SentimentScore =>
    case ConfidenceScore =>
    case ConfidenceLevel =>
    case Pros =>
    case Cons =>
    case ConfidenceExplanation =>
    case ConfidenceComponents =>
    case ReviewCount =>
    case ReliabilityScore =>
    case ReliabilityLevel =>
    case Issues =>
    case Warnings =>
    case Insights =>
  }

  /** The returned dict has no keys besides the fields' names and the error marker. */
  lemma AnalysisObjectKeys(a: Analysis)
    ensures forall k :: k in AnalysisObject(a) ==> k == "error" || exists f :: FieldName(f) == k
  {
    forall k | k in AnalysisObject(a) ensures k == "error" || exists f :: FieldName(f) == k {
      if k == "overall_sentiment" { assert FieldName(OverallSentiment) == k; }
      else if k == "sentiment_score" { assert FieldName(SentimentScore) == k; }
      else if k == "confidence_score" { assert FieldName(ConfidenceScore) == k; }
      else if k == "confidence_level" { assert FieldName(ConfidenceLevel) == k; }
      else if k == "pros" { assert FieldName(Pros) == k; }
      else if k == "cons" { assert FieldName(Cons) == k; }
      else if k == "confidence_explanation" { assert FieldName(ConfidenceExplanation) == k; }
      else if k == "confidence_components" { assert FieldName(ConfidenceComponents) == k; }
      else if k == "review_count" { assert FieldName(ReviewCount) == k; }
      else if k == "reliability_score" { assert FieldName(ReliabilityScore) == k; }
      else if k == "reliability_level" { assert FieldName(ReliabilityLevel) == k; }
      else if k == "issues" { assert FieldName(Issues) == k; }
      else if k == "warnings" { assert FieldName(Warnings) == k; }
      else if k == "insights" { assert FieldName(Insights) == k; }
    }
  }

  /**
   * The fallback dict: under each field's name, the value the field's tool result has
   * under its source key, or the field's default when the result lacks that key.
   */
  lemma FallbackDict(results: map<string, Json>, f: Field)
    requires FallbackAnalysis(results).Ok?
    ensures var obj := AnalysisObject(FallbackAnalysis(results).value);
      FieldName(f) in obj && obj[FieldName(f)] == SourceValue(results, FieldSourceOf(f))
  {
    FallbackFields(results);
    AnalysisObjectFields(FallbackAnalysis(results).value, f);
  }
}
