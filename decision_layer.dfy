/**
 * The decision layer: the object that holds the product and its category and
 * asks the model for the final analysis, falling back to an analysis built
 * from the tool results (without a title) when the answer is not JSON.
 */
module Decision {
  import opened Python
  import opened Mcp
  import opened Llm

  /** The category the prompt uses: a falsy one is replaced by "Unknown". */
  function CategoryOf(category: Json): (r: Json)
    ensures Truthy(r)
    ensures Truthy(category) ==> r == category
    ensures !Truthy(category) ==> r == JStr("Unknown")
  {
    if Truthy(category) then category else JStr("Unknown")
  }

  /** `perform_final_reasoning` once the category is settled; a raised exception is an `Err`. */
  function DecisionFinal(info: Json, category: Json, results: Json, selfCheck: Json, llm: Model, rt: Runtime): (r: Result<Json, Failure>)
    ensures ReadFinal(llm(FinalPrompt(info, category, results, selfCheck)), rt).Missing? ==> r == Ok(ErrorMessage(NoFinalResponse))
    ensures ReadFinal(llm(FinalPrompt(info, category, results, selfCheck)), rt).Decoded? ==>
      r == Ok(ReadFinal(llm(FinalPrompt(info, category, results, selfCheck)), rt).value)
    ensures ReadFinal(llm(FinalPrompt(info, category, results, selfCheck)), rt).Undecodable? && !results.JObj? ==>
      r == Err(AttributeError(TypeName(results), "get"))
  {
    match ReadFinal(llm(FinalPrompt(info, category, results, selfCheck)), rt)
    case Missing => Ok(ErrorMessage(NoFinalResponse))
    case Decoded(v) => Ok(v)
    case Undecodable =>
      var m :- AsDict(results);
      var a :- FallbackAnalysis(m);
      Ok(JObj(AnalysisObject(a)))
  }

  /** The model's fallback carries no title, always the error marker, and the fields of the results. */
  lemma DecisionFallbackShape(info: Json, category: Json, results: map<string, Json>, selfCheck: Json, llm: Model, rt: Runtime)
    requires ReadFinal(llm(FinalPrompt(info, category, JObj(results), selfCheck)), rt).Undecodable?
    requires FallbackAnalysis(results).Ok?
    ensures var r := DecisionFinal(info, category, JObj(results), selfCheck, llm, rt);
      r.Ok? && r.value.JObj? && "title" !in r.value.fields && "error" in r.value.fields &&
      r.value.fields["error"] == JStr(FallbackError) && r.value.fields["pros"] == FallbackAnalysis(results).value.pros
  {
    var a := FallbackAnalysis(results).value;
    AnalysisObjectEntries(a);
  }

  lemma AnalysisObjectEntries(a: Analysis)
    ensures "title" !in AnalysisObject(a) && "error" in AnalysisObject(a)
    ensures AnalysisObject(a)["error"] == JStr(FallbackError) && AnalysisObject(a)["pros"] == a.pros
  {
  }

  class DecisionLayer {
    const llm: Model
    const rt: Runtime
    var productInfo: Json
    var category: Json

    constructor (llm: Model, rt: Runtime, productInfo: Json)
      ensures this.llm == llm && this.rt == rt && this.productInfo == productInfo && category == JNull
    {
      this.llm := llm;
      this.rt := rt;
      this.productInfo := productInfo;
      category := JNull;
    }

    /** `set_product_info`: only the product changes. */
    method SetProductInfo(info: Json)
      modifies this
      ensures productInfo == info && category == old(category)
    {
      productInfo := info;
    }

    /** `set_category`: only the category changes. */
    method SetCategory(c: Json)
      modifies this
      ensures category == c && productInfo == old(productInfo)
    {
      category := c;
    }

    /** `perform_final_reasoning`: the category default is written back to the object. */
    method PerformFinalReasoning(results: Json, selfCheck: Json) returns (r: Result<Json, Failure>)
      modifies this
      ensures category == CategoryOf(old(category)) && productInfo == old(productInfo)
      ensures r == DecisionFinal(productInfo, category, results, selfCheck, llm, rt)
    {
      if !Truthy(category) {
        category := JStr("Unknown");
      }
      var response := llm(FinalPrompt(productInfo, category, results, selfCheck));
      var reading := ReadFinal(response, rt);
      if reading.Missing? {
        return Ok(ErrorMessage(NoFinalResponse));
      }
      if reading.Decoded? {
        return Ok(reading.value);
      }
      if !results.JObj? {
        return Err(AttributeError(TypeName(results), "get"));
      }
      var analysis := FallbackAnalysis(results.fields);
      if analysis.Err? {
        return Err(analysis.error);
      }
      r := Ok(JObj(AnalysisObject(analysis.value)));
    }
  }
}
