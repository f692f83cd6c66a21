/**
 * The tool server's decision tables: the reliability self-check (four
 * checks, a clamped score and a three-way level), the label and
 * recommendation tables of `show_reasoning`, the input guard and sentiment
 * counts of `review_consistency_check`, and the banding of
 * `calculate_confidence_score`. Messages are tagged values; their wording
 * and number formatting are not modelled.
 */
module Server {
  import opened Python

  // ===== self_check_tool_results =====

  datatype Msg =
    | NoReviews
    | VerySmallSample(count: Json)
    | LimitedSample(count: Json)
    | GoodSample(count: Json)
    | ExtremelyPositive(score: Json)
    | ExtremelyNegative(score: Json)
    | NeutralSentiment(score: Json)
    | NoSentimentScore
    | NoPros
    | NoCons
    | DisproportionatePros(pros: nat, cons: nat)
    | DisproportionateCons(cons: nat, pros: nat)
    | BalancedProsCons(pros: nat, cons: nat)
    | VeryLowConfidence(score: Json)
    | LowConfidence(score: Json)
    | HighConfidence(score: Json)
    | NoConfidenceScore

  datatype Kind = Issue | Warning | Insight

  /** What one check contributes: one message of one kind. */
  datatype Finding = Finding(kind: Kind, msg: Msg)

  /** Check 1: the review count. */
  function ReviewCountCheck(count: Json): (r: Result<Option<Finding>, Failure>)
    ensures r.Ok? ==> r.value.Some?
    ensures r.Ok? && r.value.value.kind == Issue <==> NumEq(count, JInt(0))
    ensures r.Err? <==> !NumEq(count, JInt(0)) && AsNum(count).None?
  {
    if NumEq(count, JInt(0)) then Ok(Some(Finding(Issue, NoReviews)))
    else match AsNum(count)
      case None => Err(Unordered("<", TypeName(count), "int"))
      case Some(n) =>
        if Below(n, 3.0) then Ok(Some(Finding(Warning, VerySmallSample(count))))
        else if Below(n, 10.0) then Ok(Some(Finding(Warning, LimitedSample(count))))
        else Ok(Some(Finding(Insight, GoodSample(count))))
  }

  /** Check 2: the sentiment score (`JNull` when absent). */
  function SentimentCheck(score: Json): (r: Result<Option<Finding>, Failure>)
    ensures r.Ok? && r.value.Some? ==> r.value.value.kind != Issue
    ensures score.JNull? ==> r == Ok(Some(Finding(Warning, NoSentimentScore)))
    ensures r.Err? <==> !score.JNull? && AsNum(score).None?
  {
    if score.JNull? then Ok(Some(Finding(Warning, NoSentimentScore)))
    else match AsNum(score)
      case None => Err(Unordered(">", TypeName(score), "float"))
      case Some(n) =>
        if Above(n, 0.8) then Ok(Some(Finding(Warning, ExtremelyPositive(score))))
        else if Below(n, -0.8) then Ok(Some(Finding(Warning, ExtremelyNegative(score))))
        else if AbsBelow(n, 0.1) then Ok(Some(Finding(Insight, NeutralSentiment(score))))
        else Ok(None)
  }

  /** Check 3: the balance of pros and cons. */
  function ProsConsCheck(pros: nat, cons: nat): (r: Option<Finding>)
    ensures r.None? <==> pros == 0 && cons == 0
    ensures r.Some? ==> r.value.kind != Issue
    ensures r.Some? && r.value.kind == Insight <==> pros > 0 && cons > 0 && pros < 3 * cons && cons < 3 * pros
    ensures r == Some(Finding(Warning, NoPros)) <==> pros == 0 && cons > 0
    ensures r == Some(Finding(Warning, NoCons)) <==> pros > 0 && cons == 0
    ensures r == Some(Finding(Warning, DisproportionatePros(pros, cons))) <==> cons > 0 && pros >= 3 * cons
    ensures r == Some(Finding(Warning, DisproportionateCons(cons, pros))) <==> pros > 0 && cons >= 3 * pros
  {
    if pros > 0 || cons > 0 then
      if pros == 0 then Some(Finding(Warning, NoPros))
      else if cons == 0 then Some(Finding(Warning, NoCons))
      else if pros >= 3 * cons && cons > 0 then Some(Finding(Warning, DisproportionatePros(pros, cons)))
      else if cons >= 3 * pros && pros > 0 then Some(Finding(Warning, DisproportionateCons(cons, pros)))
      else Some(Finding(Insight, BalancedProsCons(pros, cons)))
    else None
  }

  /** Check 4: the confidence score (`JNull` when absent). */
  function ConfidenceCheck(score: Json): (r: Result<Option<Finding>, Failure>)
    ensures r.Ok? && r.value.Some? ==> r.value.value.kind != Issue
    ensures score.JNull? ==> r == Ok(Some(Finding(Warning, NoConfidenceScore)))
    ensures r.Err? <==> !score.JNull? && AsNum(score).None?
  {
    if score.JNull? then Ok(Some(Finding(Warning, NoConfidenceScore)))
    else match AsNum(score)
      case None => Err(Unordered("<", TypeName(score), "int"))
      case Some(n) =>
        if Below(n, 30.0) then Ok(Some(Finding(Warning, VeryLowConfidence(score))))
        else if Below(n, 50.0) then Ok(Some(Finding(Warning, LowConfidence(score))))
        else if Above(n, 90.0) then Ok(Some(Finding(Insight, HighConfidence(score))))
        else Ok(None)
  }

  function Min(a: int, b: int): int { if a <= b then a else b }
  function Max(a: int, b: int): int { if a >= b then a else b }

  /** The reliability score: 70 less 25 per issue and 10 per warning plus 5 per insight, clamped to 0..100. */
  function ReliabilityScore(issues: nat, warnings: nat, insights: nat): (r: int)
    ensures 0 <= r <= 100
    ensures var raw := 70 - 25 * issues - 10 * warnings + 5 * insights;
      (0 <= raw <= 100 ==> r == raw) && (raw < 0 ==> r == 0) && (raw > 100 ==> r == 100)
  {
    Min(100, Max(0, 70 - 25 * issues - 10 * warnings + 5 * insights))
  }

  function ReliabilityLevel(score: int): (r: string)
    ensures r == "High" <==> score >= 80
    ensures r == "Medium" <==> 60 <= score < 80
    ensures r == "Low" <==> score < 60
  {
    if score >= 80 then "High" else if score >= 60 then "Medium" else "Low"
  }

  /** The values the self-check reads out of `tools_results`. */
  datatype CheckInputs = CheckInputs(reviewCount: Json, sentimentScore: Json, prosCount: nat, consCount: nat, confidenceScore: Json)

  function CheckInputsOf(toolsResults: map<string, Json>): (r: Result<CheckInputs, Failure>)
    ensures "review_summary_tool" !in toolsResults && "calculate_confidence_score" !in toolsResults ==>
      r == Ok(CheckInputs(JInt(0), JNull, 0, 0, JNull))
  {
    var review :- AsDict(Get(toolsResults, "review_summary_tool", JObj(map[])));
    var pros :- PyLen(Get(review, "pros", JArr([])));
    var cons :- PyLen(Get(review, "cons", JArr([])));
    var confidence :- AsDict(Get(toolsResults, "calculate_confidence_score", JObj(map[])));
    Ok(CheckInputs(
      Get(review, "review_count", JInt(0)),
      Get(review, "sentiment_score", JNull),
      pros, cons,
      Get(confidence, "confidence_score", JNull)))
  }

  /** The messages of one kind, in the order the checks ran. */
  function OfKind(found: seq<Option<Finding>>, k: Kind): (r: seq<Msg>)
    ensures |r| <= |found|
  {
    if found == [] then []
    else
      var rest := OfKind(found[..|found| - 1], k);
      var last := found[|found| - 1];
      if last.Some? && last.value.kind == k then rest + [last.value.msg] else rest
  }

  const EmptyInputText := "Error: Empty tools_results provided"

  datatype SelfCheckReply =
    | EmptyInput                         // the plain text EmptyInputText, not JSON
    | NotADict(typeName: string)         // the plain text "Error: Invalid tools_results format: ..."
    | Report(score: int, level: string, reviewCount: Json, sentimentScore: Json,
             issues: seq<Msg>, warnings: seq<Msg>, insights: seq<Msg>)
    | Failed(failure: Failure)           // {"error": str(e)}

  /** The four checks' findings, or the exception one of them raised. */
  function Findings(inputs: CheckInputs): Result<seq<Option<Finding>>, Failure> {
    var f1 :- ReviewCountCheck(inputs.reviewCount);
    var f2 :- SentimentCheck(inputs.sentimentScore);
    var f3 := ProsConsCheck(inputs.prosCount, inputs.consCount);
    var f4 :- ConfidenceCheck(inputs.confidenceScore);
    Ok([f1, f2, f3, f4])
  }

  function ReportOf(inputs: CheckInputs, found: seq<Option<Finding>>): SelfCheckReply {
    var issues := OfKind(found, Issue);
    var warnings := OfKind(found, Warning);
    var insights := OfKind(found, Insight);
    var score := ReliabilityScore(|issues|, |warnings|, |insights|);
    Report(score, ReliabilityLevel(score), inputs.reviewCount, inputs.sentimentScore, issues, warnings, insights)
  }

  /** What `self_check_tool_results` answers for a given `tools_results`. */
  function SelfCheck(toolsResults: Json): (r: SelfCheckReply)
    ensures !Truthy(toolsResults) ==> r == EmptyInput
    ensures r.Report? ==> 0 <= r.score <= 100 && r.level == ReliabilityLevel(r.score)
  {
    if !Truthy(toolsResults) then EmptyInput
    else if !toolsResults.JObj? then NotADict(TypeName(toolsResults))
    else match CheckInputsOf(toolsResults.fields)
      case Err(f) => Failed(f)
      case Ok(inputs) =>
        match Findings(inputs)
        case Err(f) => Failed(f)
        case Ok(found) => ReportOf(inputs, found)
  }

  function AddFinding(f: Option<Finding>, issues: seq<Msg>, warnings: seq<Msg>, insights: seq<Msg>)
    : (seq<Msg>, seq<Msg>, seq<Msg>)
  {
    if f.None? then (issues, warnings, insights)
    else match f.value.kind
      case Issue => (issues + [f.value.msg], warnings, insights)
      case Warning => (issues, warnings + [f.value.msg], insights)
      case Insight => (issues, warnings, insights + [f.value.msg])
  }

  lemma AddFindingOfKind(found: seq<Option<Finding>>, f: Option<Finding>)
    ensures AddFinding(f, OfKind(found, Issue), OfKind(found, Warning), OfKind(found, Insight))
      == (OfKind(found + [f], Issue), OfKind(found + [f], Warning), OfKind(found + [f], Insight))
  {
    assert (found + [f])[..|found|] == found;
  }

  /**
   * The text the tool sends back. The two input errors are plain text, not JSON;
   * the other replies are `json.dumps` of a dict, given here by `render` because
   * the message wording is not modelled.
   */
  function ReplyText(r: SelfCheckReply, render: SelfCheckReply -> string): (t: string)
    ensures r.EmptyInput? ==> t == EmptyInputText
    ensures r.NotADict? ==> t == "Error: Invalid tools_results format: <class '" + r.typeName + "'>, expected dict"
    ensures r.Report? || r.Failed? ==> t == render(r)
  {
    match r
    case EmptyInput => EmptyInputText
    case NotADict(typeName) => "Error: Invalid tools_results format: <class '" + typeName + "'>, expected dict"
    case _ => render(r)
  }

  /** `self_check_tool_results` as written: each check appends its message to one of three lists. */
  method SelfCheckToolResults(toolsResults: Json) returns (reply: SelfCheckReply)
    ensures reply == SelfCheck(toolsResults)
  {
    if !Truthy(toolsResults) {
      return EmptyInput;
    }
    if !toolsResults.JObj? {
      return NotADict(TypeName(toolsResults));
    }
    var read := CheckInputsOf(toolsResults.fields);
    if read.Err? {
      return Failed(read.error);
    }
    var inputs := read.value;
    var issues, warnings, insights := [], [], [];
    ghost var found: seq<Option<Finding>> := [];
    var f1 := ReviewCountCheck(inputs.reviewCount);
    if f1.Err? {
      return Failed(f1.error);
    }
    AddFindingOfKind(found, f1.value);
    var tf1 := AddFinding(f1.value, issues, warnings, insights);
    issues, warnings, insights := tf1.0, tf1.1, tf1.2;
    found := found + [f1.value];
    var f2 := SentimentCheck(inputs.sentimentScore);
    if f2.Err? {
      return Failed(f2.error);
    }
    AddFindingOfKind(found, f2.value);
    var tf2 := AddFinding(f2.value, issues, warnings, insights);
    issues, warnings, insights := tf2.0, tf2.1, tf2.2;
    found := found + [f2.value];
    var f3 := ProsConsCheck(inputs.prosCount, inputs.consCount);
    AddFindingOfKind(found, f3);
    var tf3 := AddFinding(f3, issues, warnings, insights);
    issues, warnings, insights := tf3.0, tf3.1, tf3.2;
    found := found + [f3];
    var f4 := ConfidenceCheck(inputs.confidenceScore);
    if f4.Err? {
      return Failed(f4.error);
    }
    AddFindingOfKind(found, f4.value);
    var tf4 := AddFinding(f4.value, issues, warnings, insights);
    issues, warnings, insights := tf4.0, tf4.1, tf4.2;
    found := found + [f4.value];
    assert found == [f1.value, f2.value, f3, f4.value];
    var score := ReliabilityScore(|issues|, |warnings|, |insights|);
    reply := Report(score, ReliabilityLevel(score), inputs.reviewCount, inputs.sentimentScore, issues, warnings, insights);
  }

  // ----- properties of the self-check -----

  function Pick(f: Option<Finding>, k: Kind): seq<Msg> {
    if f.Some? && f.value.kind == k then [f.value.msg] else []
  }

  lemma OfKindOfFour(found: seq<Option<Finding>>, k: Kind)
    requires |found| == 4
    ensures OfKind(found, k) == Pick(found[0], k) + Pick(found[1], k) + Pick(found[2], k) + Pick(found[3], k)
  {
    assert found[..1][..0] == [];
    assert OfKind(found[..1], k) == Pick(found[0], k);
    assert found[..2][..1] == found[..1];
    assert OfKind(found[..2], k) == Pick(found[0], k) + Pick(found[1], k);
    assert found[..3][..2] == found[..2];
    assert OfKind(found[..3], k) == Pick(found[0], k) + Pick(found[1], k) + Pick(found[2], k);
    assert found[..|found| - 1] == found[..3];
  }

  lemma ReportFindings(toolsResults: Json)
    requires SelfCheck(toolsResults).Report?
    ensures toolsResults.JObj? && CheckInputsOf(toolsResults.fields).Ok?
    ensures var inputs := CheckInputsOf(toolsResults.fields).value;
      Findings(inputs).Ok? && |Findings(inputs).value| == 4 &&
      var found := Findings(inputs).value;
      var r := SelfCheck(toolsResults);
      found[0].Some? && (found[0].value.kind == Issue <==> NumEq(inputs.reviewCount, JInt(0))) &&
      (forall i :: 1 <= i < 4 && found[i].Some? ==> found[i].value.kind != Issue) &&
      r.reviewCount == inputs.reviewCount &&
      r.issues == OfKind(found, Issue) && r.warnings == OfKind(found, Warning) && r.insights == OfKind(found, Insight)
  {
  }

  /** Only the review-count check can raise an issue, so a report has at most one, exactly when the count is 0. */
  lemma AtMostOneIssue(toolsResults: Json)
    requires SelfCheck(toolsResults).Report?
    ensures |SelfCheck(toolsResults).issues| <= 1
    ensures |SelfCheck(toolsResults).issues| == 1 <==> NumEq(SelfCheck(toolsResults).reviewCount, JInt(0))
  {
    ReportFindings(toolsResults);
    var found := Findings(CheckInputsOf(toolsResults.fields).value).value;
    OfKindOfFour(found, Issue);
  }

  /** Each of the four checks adds at most one message. */
  lemma AtMostFourMessages(toolsResults: Json)
    requires SelfCheck(toolsResults).Report?
    ensures var r := SelfCheck(toolsResults); |r.issues| + |r.warnings| + |r.insights| <= 4
  {
    ReportFindings(toolsResults);
    var found := Findings(CheckInputsOf(toolsResults.fields).value).value;
    OfKindOfFour(found, Issue);
    OfKindOfFour(found, Warning);
    OfKindOfFour(found, Insight);
  }

  /** A report is "High" exactly when it has no issue, no warning and at least two insights. */
  lemma HighLevelIff(toolsResults: Json)
    requires SelfCheck(toolsResults).Report?
    ensures var r := SelfCheck(toolsResults);
      r.level == "High" <==> |r.issues| == 0 && |r.warnings| == 0 && |r.insights| >= 2
  {
    AtMostOneIssue(toolsResults);
    AtMostFourMessages(toolsResults);
  }

  /** With neither a review summary nor a confidence result, the report is fixed: score 25, "Low". */
  lemma NothingUpstream(toolsResults: map<string, Json>)
    requires toolsResults != map[]
    requires "review_summary_tool" !in toolsResults && "calculate_confidence_score" !in toolsResults
    ensures SelfCheck(JObj(toolsResults)) ==
      Report(25, "Low", JInt(0), JNull, [NoReviews], [NoSentimentScore, NoConfidenceScore], [])
  {
    var found := [Some(Finding(Issue, NoReviews)), Some(Finding(Warning, NoSentimentScore)), None,
                  Some(Finding(Warning, NoConfidenceScore))];
    assert Findings(CheckInputs(JInt(0), JNull, 0, 0, JNull)) == Ok(found);
    OfKindOfFour(found, Issue);
    OfKindOfFour(found, Warning);
    OfKindOfFour(found, Insight);
  }

  // ===== show_reasoning =====

  datatype SentimentLabel = Positive | Negative | Neutral
  datatype ConfidenceLabel = HighLabel | MediumLabel | LowLabel
  datatype SentimentBand = StronglyPositive | ModeratelyPositive | NeutralMixed | ModeratelyNegative | StronglyNegative
  datatype Recommendation = Recommended | Avoid | ConsiderAlternatives | AdditionalResearch

  function SentimentLabelOf(n: Num): (r: SentimentLabel)
    ensures r == Positive <==> Above(n, 0.2)
    ensures r == Negative <==> Below(n, -0.2)
  {
    if Above(n, 0.2) then Positive else if Below(n, -0.2) then Negative else Neutral
  }

  function ConfidenceLabelOf(n: Num): (r: ConfidenceLabel)
    ensures r == HighLabel <==> AtLeast(n, 70.0)
    ensures r == MediumLabel <==> AtLeast(n, 40.0) && !AtLeast(n, 70.0)
  {
    if AtLeast(n, 70.0) then HighLabel else if AtLeast(n, 40.0) then MediumLabel else LowLabel
  }

  function SentimentBandOf(n: Num): (r: SentimentBand)
    ensures (r == StronglyPositive || r == ModeratelyPositive) <==> SentimentLabelOf(n) == Positive
    ensures (r == StronglyNegative || r == ModeratelyNegative) <==> SentimentLabelOf(n) == Negative
  {
    if Above(n, 0.6) then StronglyPositive
    else if Above(n, 0.2) then ModeratelyPositive
    else if AtLeast(n, -0.2) then NeutralMixed
    else if AtLeast(n, -0.6) then ModeratelyNegative
    else StronglyNegative
  }

  function RecommendationOf(sentiment: Num, confidence: Num): (r: Recommendation)
    ensures r == Recommended <==> AtLeast(confidence, 70.0) && SentimentLabelOf(sentiment) == Positive
    ensures r == Avoid <==> AtLeast(confidence, 70.0) && SentimentLabelOf(sentiment) == Negative
    ensures r == ConsiderAlternatives <==> AtLeast(confidence, 70.0) && SentimentLabelOf(sentiment) == Neutral
    ensures r == AdditionalResearch <==> !AtLeast(confidence, 70.0)
  {
    if AtLeast(confidence, 70.0) then
      if Above(sentiment, 0.2) then Recommended
      else if Below(sentiment, -0.2) then Avoid
      else ConsiderAlternatives
    else AdditionalResearch
  }

  datatype ReasoningReport = ReasoningReport(
    productName: Json, reviewCount: Json,
    sentimentScore: Json, sentimentLabel: SentimentLabel, sentimentBand: SentimentBand,
    confidenceScore: Json, confidenceLabel: ConfidenceLabel,
    reliabilityScore: Json, reliabilityLevel: Json,
    prosCount: nat, consCount: nat,
    recommendation: Recommendation)

  datatype ReasoningReply =
    | NoProductData                 // {"error": "No product data provided"}
    | Reasoning(report: ReasoningReport)
    | ReasoningFailed(failure: Failure)

  /** The comparison at the sentiment label fails on a value that is neither None nor a number. */
  function CompareCheck(v: Json, op: string, other: string): Result<(), Failure> {
    if v.JNull? || AsNum(v).Some? then Ok(()) else Err(Unordered(op, TypeName(v), other))
  }

  /** `len(pros)` and `len(cons)` where the reply needs the counts. */
  function Counted(v: Json): Result<nat, Failure> { PyLen(v) }

  /** `f"{x:.2f}"` and `f"{x:.0f}"` on the summary line: None cannot be formatted. */
  function Formatted(v: Json): (r: Result<Num, Failure>)
    requires v.JNull? || AsNum(v).Some?
    ensures r.Ok? <==> !v.JNull?
  {
    if v.JNull? then Err(NoneFormat) else Ok(AsNum(v).value)
  }

  /** What `show_reasoning` answers for a given `product_data`. */
  function ShowReasoning(productData: Json): (r: ReasoningReply)
    ensures !Truthy(productData) <==> r == NoProductData
  {
    if !Truthy(productData) then NoProductData
    else match ShowReasoningReport(productData)
      case Ok(report) => Reasoning(report)
      case Err(f) => ReasoningFailed(f)
  }

  /**
   * The report for non-empty product data: produced exactly when the data is a dict
   * whose two scores are numbers and whose pros and cons have a length; its labels and
   * recommendation are those of the two scores.
   */
  function ShowReasoningReport(productData: Json): (r: Result<ReasoningReport, Failure>)
    requires Truthy(productData)
    ensures r.Ok? <==> (productData.JObj? &&
      AsNum(Get(productData.fields, "sentiment_score", JNull)).Some? &&
      AsNum(Get(productData.fields, "confidence_score", JNull)).Some? &&
      PyLen(Get(productData.fields, "pros", JArr([]))).Ok? && PyLen(Get(productData.fields, "cons", JArr([]))).Ok?)
    ensures r.Ok? ==>
      var d := productData.fields;
      var s := AsNum(Get(d, "sentiment_score", JNull)).value;
      var c := AsNum(Get(d, "confidence_score", JNull)).value;
      r.value.sentimentLabel == SentimentLabelOf(s) && r.value.sentimentBand == SentimentBandOf(s) &&
      r.value.confidenceLabel == ConfidenceLabelOf(c) && r.value.recommendation == RecommendationOf(s, c) &&
      r.value.prosCount == PyLen(Get(d, "pros", JArr([]))).value &&
      r.value.consCount == PyLen(Get(d, "cons", JArr([]))).value
  {
    var d :- AsDict(productData);
    var sentiment := Get(d, "sentiment_score", JNull);
    var confidence := Get(d, "confidence_score", JNull);
    var pros := Get(d, "pros", JArr([]));
    var cons := Get(d, "cons", JArr([]));
    var _ :- CompareCheck(sentiment, ">", "float");
    var _ :- CompareCheck(confidence, ">=", "int");
    var _ :- (if Truthy(pros) || Truthy(cons) then
               var _ :- Counted(pros); var _ :- Counted(cons); Ok(())
             else Ok(()));
    var s :- Formatted(sentiment);
    var c :- Formatted(confidence);
    var prosCount :- Counted(pros);
    var consCount :- Counted(cons);
    Ok(ReasoningReport(
      Get(d, "product_name", JStr("Unknown Product")), Get(d, "review_count", JInt(0)),
      sentiment, SentimentLabelOf(s), SentimentBandOf(s),
      confidence, ConfidenceLabelOf(c),
      Get(d, "reliability_score", JNull), Get(d, "reliability_level", JStr("Unknown")),
      prosCount, consCount,
      RecommendationOf(s, c)))
  }

  /**
   * A report is only produced when both scores are numbers, so the
   * "Insufficient data for recommendation" alternative can never be chosen.
   */
  lemma ReportNeedsBothScores(productData: Json)
    requires ShowReasoning(productData).Reasoning?
    ensures productData.JObj?
    ensures AsNum(Get(productData.fields, "sentiment_score", JNull)).Some?
    ensures AsNum(Get(productData.fields, "confidence_score", JNull)).Some?
  {
  }

  /** A missing sentiment score makes the summary line raise, whatever else is present. */
  lemma MissingSentimentFails(productData: map<string, Json>)
    requires productData != map[]
    requires "sentiment_score" !in productData
    requires var c := Get(productData, "confidence_score", JNull); c.JNull? || AsNum(c).Some?
    requires Get(productData, "pros", JArr([])).JArr? && Get(productData, "cons", JArr([])).JArr?
    ensures ShowReasoning(JObj(productData)) == ReasoningFailed(NoneFormat)
  {
  }

  /** The recommendation table of the final assessment. */
  lemma RecommendationTable(productData: Json)
    requires ShowReasoning(productData).Reasoning?
    ensures var rep := ShowReasoning(productData).report;
      var s := AsNum(Get(productData.fields, "sentiment_score", JNull)).value;
      var c := AsNum(Get(productData.fields, "confidence_score", JNull)).value;
      (rep.recommendation == Recommended <==> AtLeast(c, 70.0) && Above(s, 0.2)) &&
      (rep.recommendation == Avoid <==> AtLeast(c, 70.0) && Below(s, -0.2)) &&
      (rep.recommendation == ConsiderAlternatives <==> AtLeast(c, 70.0) && !Above(s, 0.2) && !Below(s, -0.2)) &&
      (rep.recommendation == AdditionalResearch <==> !AtLeast(c, 70.0))
  {
  }

  // ===== review_consistency_check =====

  datatype SampleNote = VerySmallForAnalysis | LimitedSampleSize

  datatype ConsistencyReply =
    | InvalidReviewData             // {"error": "Invalid review data provided for consistency check"}
    | Consistency(reviewCount: nat, positive: nat, negative: nat, neutral: int, sample: Option<SampleNote>)
    | ConsistencyFailed(failure: Failure)

  predicate AllNumbers(xs: seq<Json>) {
    forall i :: 0 <= i < |xs| ==> AsNum(xs[i]).Some?
  }

  /** The exception `sum(sentiments)` raises, if any: adding a non-number to the running total. */
  function SumFailure(xs: seq<Json>, accType: string): (r: Option<Failure>)
    ensures r.None? <==> AllNumbers(xs)
  {
    if xs == [] then None
    else if AsNum(xs[0]).None? then Some(BadOperand(accType, TypeName(xs[0])))
    else
      var r := SumFailure(xs[1..], if xs[0].JFloat? || xs[0].JInf? then "float" else accType);
      assert AllNumbers(xs) <==> AllNumbers(xs[1..]) by {
        if AllNumbers(xs[1..]) {
          forall i | 0 <= i < |xs| ensures AsNum(xs[i]).Some? {
            if i > 0 { assert xs[i] == xs[1..][i - 1]; }
          }
        }
      }
      r
  }

  function CountAbove(xs: seq<Json>, t: real): (r: nat)
    requires AllNumbers(xs)
    ensures r <= |xs|
  {
    if xs == [] then 0
    else CountAbove(xs[..|xs| - 1], t) + (if Above(AsNum(xs[|xs| - 1]).value, t) then 1 else 0)
  }

  function CountBelow(xs: seq<Json>, t: real): (r: nat)
    requires AllNumbers(xs)
    ensures r <= |xs|
  {
    if xs == [] then 0
    else CountBelow(xs[..|xs| - 1], t) + (if Below(AsNum(xs[|xs| - 1]).value, t) then 1 else 0)
  }

  /** The reviews whose sentiment lies in [-0.3, 0.3]. */
  function CountBetween(xs: seq<Json>): (r: nat)
    requires AllNumbers(xs)
    ensures r <= |xs|
  {
    if xs == [] then 0
    else
      var n := AsNum(xs[|xs| - 1]).value;
      CountBetween(xs[..|xs| - 1]) + (if !Above(n, 0.3) && !Below(n, -0.3) then 1 else 0)
  }

  function SampleNoteOf(n: nat): (r: Option<SampleNote>)
    ensures r == Some(VerySmallForAnalysis) <==> n < 5
    ensures r == Some(LimitedSampleSize) <==> 5 <= n < 10
  {
    if n < 5 then Some(VerySmallForAnalysis) else if n < 10 then Some(LimitedSampleSize) else None
  }

  /** What `review_consistency_check` answers (its mean, spread and ratios are not modelled). */
  function ConsistencyCheck(reviewsData: Json): (r: ConsistencyReply)
    ensures !reviewsData.JObj? ==> r.ConsistencyFailed?
    ensures r.Consistency? ==> r.reviewCount > 0 && r.sample == SampleNoteOf(r.reviewCount)
    ensures r.Consistency? ==> 0 <= r.neutral && r.positive + r.negative + r.neutral == r.reviewCount
  {
    match AsDict(reviewsData)
    case Err(f) => ConsistencyFailed(f)
    case Ok(d) =>
      var reviews := Get(d, "reviews", JArr([]));
      var sentiments := Get(d, "sentiments", JArr([]));
      if !Truthy(reviews) || !Truthy(sentiments) then InvalidReviewData
      else match PyLen(reviews)
        case Err(f) => ConsistencyFailed(f)
        case Ok(nr) =>
          match PyLen(sentiments)
          case Err(f) => ConsistencyFailed(f)
          case Ok(ns) =>
            if nr != ns then InvalidReviewData
            else if !sentiments.JArr? then ConsistencyFailed(BadOperand("int", "str"))
            else match SumFailure(sentiments.items, "int")
              case Some(f) => ConsistencyFailed(f)
              case None =>
                var xs := sentiments.items;
                CountsPartition(xs);
                var positive := CountAbove(xs, 0.3);
                var negative := CountBelow(xs, -0.3);
                Consistency(nr, positive, negative, nr - positive - negative, SampleNoteOf(nr))
  }

  /** The input guard: the check refuses empty reviews, empty sentiments or lists of different lengths. */
  lemma ConsistencyGuard(reviews: seq<Json>, sentiments: seq<Json>)
    ensures ConsistencyCheck(JObj(map["reviews" := JArr(reviews), "sentiments" := JArr(sentiments)])) == InvalidReviewData
      <==> reviews == [] || sentiments == [] || |reviews| != |sentiments|
  {
    var d := map["reviews" := JArr(reviews), "sentiments" := JArr(sentiments)];
    assert Get(d, "reviews", JArr([])) == JArr(reviews);
    assert Get(d, "sentiments", JArr([])) == JArr(sentiments);
  }

  lemma {:induction false} CountsPartition(xs: seq<Json>)
    requires AllNumbers(xs)
    ensures CountAbove(xs, 0.3) + CountBelow(xs, -0.3) + CountBetween(xs) == |xs|
  {
    if xs != [] {
      var init := xs[..|xs| - 1];
      assert AllNumbers(init) by {
        forall i | 0 <= i < |init| ensures AsNum(init[i]).Some? { assert init[i] == xs[i]; }
      }
      CountsPartition(init);
    }
  }

  /** Positive, negative and neutral reviews partition the reviews; neutral ones have sentiment in [-0.3, 0.3]. */
  lemma ConsistencyCounts(reviewsData: Json)
    requires ConsistencyCheck(reviewsData).Consistency?
    ensures var r := ConsistencyCheck(reviewsData);
      var xs := Get(reviewsData.fields, "sentiments", JArr([])).items;
      AllNumbers(xs) && r.reviewCount == |xs| &&
      r.positive == CountAbove(xs, 0.3) && r.negative == CountBelow(xs, -0.3) &&
      r.neutral == CountBetween(xs) &&
      r.positive + r.negative + r.neutral == r.reviewCount
  {
    var xs := Get(reviewsData.fields, "sentiments", JArr([])).items;
    CountsPartition(xs);
  }

  // ===== calculate_confidence_score: the confidence level =====

  const VeryHighText := "Very High Confidence: Reviews strongly suggest this is a reliable product"
  const HighText := "High Confidence: Reviews indicate this is likely a good product"
  const ModerateText := "Moderate Confidence: Reviews show mixed but generally positive signals"
  const LowText := "Low Confidence: Reviews raise some concerns about this product"
  const VeryLowText := "Very Low Confidence: Reviews suggest significant issues with this product"

  function ConfidenceLevel(score: real): (r: string)
    ensures r == VeryHighText <==> score >= 80.0
    ensures r == HighText <==> 65.0 <= score < 80.0
    ensures r == ModerateText <==> 50.0 <= score < 65.0
    ensures r == LowText <==> 35.0 <= score < 50.0
    ensures r == VeryLowText <==> score < 35.0
  {
    if score >= 80.0 then VeryHighText
    else if score >= 65.0 then HighText
    else if score >= 50.0 then ModerateText
    else if score >= 35.0 then LowText
    else VeryLowText
  }

  /** The bands are monotone: a higher score never gets a lower level. */
  function LevelRank(level: string): nat {
    if level == VeryHighText then 4 else if level == HighText then 3
    else if level == ModerateText then 2 else if level == LowText then 1 else 0
  }

  lemma ConfidenceLevelMonotone(a: real, b: real)
    requires a <= b
    ensures LevelRank(ConfidenceLevel(a)) <= LevelRank(ConfidenceLevel(b))
  {
  }
}
