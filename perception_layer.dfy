/**
 * The perception layer's side of planning: normalising the shopper's
 * preferences against the defaults, and the product and preference lines
 * appended to the planning prompt. The defaults and the processed copy
 * share one price-range dict, so a range update made before a later
 * coercion failure shows up in the defaults that are returned.
 */
module Perception {
  import opened Python
  import opened Mcp
  import opened Llm

  /** The `price_range` dict, shared by the defaults and the processed copy. */
  class PriceRange {
    var min: Json
    var max: Json

    constructor ()
      ensures min == JInt(0) && max == JInf
    {
      min := JInt(0);
      max := JInf;
    }
  }

  /** A preferences dict; `priceRange` is a reference, the other entries are values. */
  datatype Preferences = Preferences(
    priceRange: PriceRange, brands: Json, features: Json, avoid: Json,
    reviewThreshold: Json, sentimentThreshold: Json, confidenceThreshold: Json)

  /** What a preferences dict holds, the range read through its reference. */
  datatype PrefValue = PrefValue(
    min: Json, max: Json, brands: Json, features: Json, avoid: Json,
    reviewThreshold: Json, sentimentThreshold: Json, confidenceThreshold: Json)

  function ValueOf(p: Preferences): PrefValue
    reads p.priceRange
  {
    PrefValue(p.priceRange.min, p.priceRange.max, p.brands, p.features, p.avoid,
              p.reviewThreshold, p.sentimentThreshold, p.confidenceThreshold)
  }

  const DefaultValue := PrefValue(JInt(0), JInf, JArr([]), JArr([]), JArr([]), JInt(10), JFloat(0.5), JInt(70))

  /** The preferences as the dict the prompt serialises. */
  function AsJson(v: PrefValue): (r: Json)
    ensures r.JObj? && "price_range" in r.fields && "review_threshold" in r.fields
  {
    JObj(map[
      "price_range" := JObj(map["min" := v.min, "max" := v.max]),
      "brand_preferences" := v.brands,
      "feature_priorities" := v.features,
      "avoid_features" := v.avoid,
      "review_threshold" := v.reviewThreshold,
      "sentiment_threshold" := v.sentimentThreshold,
      "confidence_threshold" := v.confidenceThreshold])
  }

  // ----- the closed form of process_user_preferences -----

  /** The price range after the price-range step, and the exception that ended it, if any. */
  datatype RangeStep = RangeStep(min: Json, max: Json, raised: bool)

  function RangeOf(prefs: Json, parseFloat: string -> Option<Num>): (r: RangeStep)
    ensures r.raised ==> r.max == JInf
    ensures !IsContainer(prefs) ==> r == RangeStep(JInt(0), JInf, true)
  {
    if !IsContainer(prefs) then RangeStep(JInt(0), JInf, true)
    else if !In(prefs, "price_range") then RangeStep(JInt(0), JInf, false)
    else match Subscript(prefs, "price_range")
      case Err(_) => RangeStep(JInt(0), JInf, true)
      case Ok(range) =>
        if !range.JObj? then RangeStep(JInt(0), JInf, false)
        else
          var lo := if "min" in range.fields then PyFloat(range.fields["min"], parseFloat) else Ok(JInt(0));
          if lo.Err? then RangeStep(JInt(0), JInf, true)
          else
            var hi := if "max" in range.fields then PyFloat(range.fields["max"], parseFloat) else Ok(JInf);
            if hi.Err? then RangeStep(lo.value, JInf, true)
            else RangeStep(lo.value, hi.value, false)
  }

  /** `key in prefs and isinstance(prefs[key], list)`, then the override. */
  function ListEntry(prefs: Json, key: string, current: Json): (r: Result<Json, Failure>)
    requires IsContainer(prefs)
    ensures prefs.JObj? ==> r.Ok?
    ensures r.Ok? && prefs.JObj? ==> r.value == (if key in prefs.fields && prefs.fields[key].JArr? then prefs.fields[key] else current)
  {
    if In(prefs, key) then
      var v :- Subscript(prefs, key);
      Ok(if v.JArr? then v else current)
    else Ok(current)
  }

  /** A threshold: coerced when present, kept otherwise. */
  function ThresholdEntry(prefs: Json, key: string, current: Json, coerce: Json -> Result<Json, Failure>): (r: Result<Json, Failure>)
    requires IsContainer(prefs)
    ensures prefs.JObj? && key !in prefs.fields ==> r == Ok(current)
    ensures prefs.JObj? && key in prefs.fields ==> r == coerce(prefs.fields[key])
  {
    if In(prefs, key) then
      var v :- Subscript(prefs, key);
      coerce(v)
    else Ok(current)
  }

  /** Everything after the price range: three list overrides and three coerced thresholds. */
  function RestOf(prefs: Json, rt: Runtime): (r: Result<PrefValue, Failure>)
    requires IsContainer(prefs)
  {
    var brands :- ListEntry(prefs, "brand_preferences", JArr([]));
    var features :- ListEntry(prefs, "feature_priorities", JArr([]));
    var avoid :- ListEntry(prefs, "avoid_features", JArr([]));
    var review :- ThresholdEntry(prefs, "review_threshold", JInt(10), v => PyInt(v, rt.parseInt));
    var sentiment :- ThresholdEntry(prefs, "sentiment_threshold", JFloat(0.5), v => PyFloat(v, rt.parseFloat));
    var confidence :- ThresholdEntry(prefs, "confidence_threshold", JInt(70), v => PyFloat(v, rt.parseFloat));
    Ok(PrefValue(JInt(0), JInf, brands, features, avoid, review, sentiment, confidence))
  }

  /**
   * `process_user_preferences` as a value: the price range is whatever the range step
   * left in the shared dict; the other entries are the overrides if nothing raised,
   * and the defaults otherwise.
   */
  function Processed(prefs: Json, rt: Runtime): (r: PrefValue)
    ensures !Truthy(prefs) ==> r == DefaultValue
  {
    if !Truthy(prefs) then DefaultValue
    else
      var range := RangeOf(prefs, rt.parseFloat);
      var others := if !range.raised && RestOf(prefs, rt).Ok? then RestOf(prefs, rt).value else DefaultValue;
      others.(min := range.min, max := range.max)
  }

  /** `process_user_preferences`, updating the processed copy and the shared range step by step. */
  method ProcessUserPreferences(prefs: Json, rt: Runtime) returns (r: Preferences)
    ensures fresh(r.priceRange)
    ensures ValueOf(r) == Processed(prefs, rt)
  {
    var range := new PriceRange();
    var defaults := Preferences(range, JArr([]), JArr([]), JArr([]), JInt(10), JFloat(0.5), JInt(70));
    var processed := defaults;
    if !Truthy(prefs) {
      return processed;
    }
    if !IsContainer(prefs) {
      return defaults;
    }
    if In(prefs, "price_range") {
      var given := Subscript(prefs, "price_range");
      if given.Err? {
        return defaults;
      }
      if given.value.JObj? {
        var bounds := given.value.fields;
        if "min" in bounds {
          var lo := PyFloat(bounds["min"], rt.parseFloat);
          if lo.Err? {
            return defaults;
          }
          range.min := lo.value;
        }
        if "max" in bounds {
          var hi := PyFloat(bounds["max"], rt.parseFloat);
          if hi.Err? {
            return defaults;
          }
          range.max := hi.value;
        }
      }
    }
    assert range.min == RangeOf(prefs, rt.parseFloat).min && range.max == RangeOf(prefs, rt.parseFloat).max;
    assert !RangeOf(prefs, rt.parseFloat).raised;
    var brands := ListEntry(prefs, "brand_preferences", processed.brands);
    if brands.Err? {
      return defaults;
    }
    processed := processed.(brands := brands.value);
    var features := ListEntry(prefs, "feature_priorities", processed.features);
    if features.Err? {
      return defaults;
    }
    processed := processed.(features := features.value);
    var avoid := ListEntry(prefs, "avoid_features", processed.avoid);
    if avoid.Err? {
      return defaults;
    }
    processed := processed.(avoid := avoid.value);
    var review := ThresholdEntry(prefs, "review_threshold", processed.reviewThreshold, v => PyInt(v, rt.parseInt));
    if review.Err? {
      return defaults;
    }
    processed := processed.(reviewThreshold := review.value);
    var sentiment := ThresholdEntry(prefs, "sentiment_threshold", processed.sentimentThreshold, v => PyFloat(v, rt.parseFloat));
    if sentiment.Err? {
      return defaults;
    }
    processed := processed.(sentimentThreshold := sentiment.value);
    var confidence := ThresholdEntry(prefs, "confidence_threshold", processed.confidenceThreshold, v => PyFloat(v, rt.parseFloat));
    if confidence.Err? {
      return defaults;
    }
    processed := processed.(confidenceThreshold := confidence.value);
    return processed;
  }

  // ----- properties of the normalisation -----

  /** A list entry overrides its default only when it is a list. */
  lemma ListsOnlyFromLists(prefs: map<string, Json>, rt: Runtime)
    requires prefs != map[]
    requires RestOf(JObj(prefs), rt).Ok? && !RangeOf(JObj(prefs), rt.parseFloat).raised
    ensures var r := Processed(JObj(prefs), rt);
      r.brands == (if "brand_preferences" in prefs && prefs["brand_preferences"].JArr? then prefs["brand_preferences"] else JArr([])) &&
      r.features == (if "feature_priorities" in prefs && prefs["feature_priorities"].JArr? then prefs["feature_priorities"] else JArr([])) &&
      r.avoid == (if "avoid_features" in prefs && prefs["avoid_features"].JArr? then prefs["avoid_features"] else JArr([]))
  {
  }

  /** `review_threshold` goes through `int`, the other two thresholds through `float`. */
  lemma ThresholdsCoerced(prefs: map<string, Json>, rt: Runtime)
    requires prefs != map[]
    requires RestOf(JObj(prefs), rt).Ok? && !RangeOf(JObj(prefs), rt.parseFloat).raised
    ensures var r := Processed(JObj(prefs), rt);
      ("review_threshold" in prefs ==> r.reviewThreshold == PyInt(prefs["review_threshold"], rt.parseInt).value) &&
      ("sentiment_threshold" in prefs ==> r.sentimentThreshold == PyFloat(prefs["sentiment_threshold"], rt.parseFloat).value) &&
      ("confidence_threshold" in prefs ==> r.confidenceThreshold == PyFloat(prefs["confidence_threshold"], rt.parseFloat).value)
  {
  }

  /**
   * A coercion failure after the price range returns the defaults, but with the
   * range already written into the dict they share.
   */
  lemma FailureKeepsRange(prefs: map<string, Json>, rt: Runtime)
    requires prefs != map[]
    requires !RangeOf(JObj(prefs), rt.parseFloat).raised && RestOf(JObj(prefs), rt).Err?
    ensures var r := Processed(JObj(prefs), rt);
      r == DefaultValue.(min := RangeOf(JObj(prefs), rt.parseFloat).min, max := RangeOf(JObj(prefs), rt.parseFloat).max)
  {
  }

  /** For instance {"price_range": {"min": 5}, "review_threshold": None} comes back with min 5.0. */
  lemma SharedRangeExample(rt: Runtime)
    ensures Processed(JObj(map["price_range" := JObj(map["min" := JInt(5)]), "review_threshold" := JNull]), rt) ==
      DefaultValue.(min := JFloat(5.0))
  {
    var prefs := map["price_range" := JObj(map["min" := JInt(5)]), "review_threshold" := JNull];
    assert RangeOf(JObj(prefs), rt.parseFloat) == RangeStep(JFloat(5.0), JInf, false);
    assert ThresholdEntry(JObj(prefs), "review_threshold", JInt(10), v => PyInt(v, rt.parseInt)) == Err(IntArg("NoneType"));
  }

  /** The values a processed dict holds: floats or ints where coercion put them, lists for the lists. */
  predicate Normal(v: PrefValue) {
    (v.min.JFloat? || v.min.JInf? || v.min == JInt(0)) && (v.max.JFloat? || v.max.JInf?) &&
    v.brands.JArr? && v.features.JArr? && v.avoid.JArr? && v.reviewThreshold.JInt? &&
    (v.sentimentThreshold.JFloat? || v.sentimentThreshold.JInf?) &&
    (v.confidenceThreshold.JFloat? || v.confidenceThreshold.JInf? || v.confidenceThreshold == JInt(70))
  }

  lemma ProcessedNormal(prefs: Json, rt: Runtime)
    ensures Normal(Processed(prefs, rt))
  {
    if Truthy(prefs) && IsContainer(prefs) && !RangeOf(prefs, rt.parseFloat).raised {
      var rest := RestOf(prefs, rt);
      if rest.Ok? {
        var brands := ListEntry(prefs, "brand_preferences", JArr([]));
        assert brands.Ok? && brands.value.JArr?;
      }
    }
  }

  /**
   * Processing an already processed dict keeps every entry equal as Python compares
   * them (an int 0 or 70 may come back as the float 0.0 or 70.0), and a second
   * reprocessing changes nothing at all.
   */
  lemma ReprocessStable(prefs: Json, rt: Runtime)
    ensures var v := Processed(prefs, rt);
      var w := Processed(AsJson(v), rt);
      NumEq(w.min, v.min) && w.max == v.max && w.brands == v.brands && w.features == v.features &&
      w.avoid == v.avoid && w.reviewThreshold == v.reviewThreshold && w.sentimentThreshold == v.sentimentThreshold &&
      NumEq(w.confidenceThreshold, v.confidenceThreshold) && Processed(AsJson(w), rt) == w
  {
    var v := Processed(prefs, rt);
    ProcessedNormal(prefs, rt);
    NormalReprocessed(v, rt);
    var w := Processed(AsJson(v), rt);
    NormalReprocessed(w, rt);
    var x := Processed(AsJson(w), rt);
    assert x.min == w.min && x.confidenceThreshold == w.confidenceThreshold;
  }

  lemma NormalReprocessed(v: PrefValue, rt: Runtime)
    requires Normal(v)
    ensures var w := Processed(AsJson(v), rt);
      Normal(w) && NumEq(w.min, v.min) && w.max == v.max && w.brands == v.brands && w.features == v.features &&
      w.avoid == v.avoid && w.reviewThreshold == v.reviewThreshold && w.sentimentThreshold == v.sentimentThreshold &&
      NumEq(w.confidenceThreshold, v.confidenceThreshold) &&
      (w.min == v.min || v.min == JInt(0)) && (w.confidenceThreshold == v.confidenceThreshold || v.confidenceThreshold == JInt(70)) &&
      w.min != JInt(0) && w.confidenceThreshold != JInt(70)
  {
    RangeReprocessed(v, rt);
    RestReprocessed(v, rt);
  }

  lemma AsJsonEntries(v: PrefValue)
    ensures var m := AsJson(v).fields;
      m["price_range"] == JObj(map["min" := v.min, "max" := v.max]) &&
      m["brand_preferences"] == v.brands && m["feature_priorities"] == v.features && m["avoid_features"] == v.avoid &&
      m["review_threshold"] == v.reviewThreshold && m["sentiment_threshold"] == v.sentimentThreshold &&
      m["confidence_threshold"] == v.confidenceThreshold
  {
  }

  lemma RangeReprocessed(v: PrefValue, rt: Runtime)
    requires Normal(v)
    ensures RangeOf(AsJson(v), rt.parseFloat) == RangeStep(PyFloat(v.min, rt.parseFloat).value, v.max, false)
  {
    AsJsonEntries(v);
  }

  lemma RestReprocessed(v: PrefValue, rt: Runtime)
    requires Normal(v)
    ensures RestOf(AsJson(v), rt) == Ok(PrefValue(JInt(0), JInf, v.brands, v.features, v.avoid, v.reviewThreshold,
      v.sentimentThreshold, PyFloat(v.confidenceThreshold, rt.parseFloat).value))
  {
    AsJsonEntries(v);
  }

  // ----- craft_initial_prompt -----

  /** The lines `craft_initial_prompt` appends to the planning prompt. */
  function PromptSuffix(productData: Json, category: Json, prefs: PrefValue, rt: Runtime): (r: Result<string, Failure>)
    ensures r.Ok? <==> productData.JObj? && "title" in productData.fields
  {
    var product :- ProductSummary(productData, category);
    var text := "PRODUCT: " + rt.dumps(product);
    Ok(if Truthy(AsJson(prefs)) then text + "\nUSER PREFERENCES: " + rt.dumps(AsJson(prefs)) else text)
  }

  /** The processed preferences are never empty, so their line is always there, after the product's. */
  lemma PreferencesAlwaysShown(productData: map<string, Json>, category: Json, prefs: PrefValue, rt: Runtime)
    requires "title" in productData
    ensures PromptSuffix(JObj(productData), category, prefs, rt) == Ok(
      "PRODUCT: " + rt.dumps(ProductSummary(JObj(productData), category).value) +
      "\nUSER PREFERENCES: " + rt.dumps(AsJson(prefs)))
  {
    assert Truthy(AsJson(prefs));
  }

  /** The suffix part of `craft_initial_prompt`, preferences processed first. */
  method CraftPromptSuffix(productData: Json, category: Json, userPrefs: Json, rt: Runtime) returns (r: Result<string, Failure>)
    ensures r == PromptSuffix(productData, category, Processed(userPrefs, rt), rt)
  {
    var prefs := ProcessUserPreferences(userPrefs, rt);
    var product := ProductSummary(productData, category);
    if product.Err? {
      return Err(product.error);
    }
    var text := "PRODUCT: " + rt.dumps(product.value);
    var shown := AsJson(ValueOf(prefs));
    if Truthy(shown) {
      text := text + "\nUSER PREFERENCES: " + rt.dumps(shown);
    }
    r := Ok(text);
  }
}
