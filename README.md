# Smart Purchase Advisor — a Dafny model of its tool-plan core

Smart Purchase Advisor analyses product reviews. A language model turns the
product into a loosely shaped JSON "tool plan". The executor walks the plan in
order:

- it normalises each step's name and arguments;
- it fills missing arguments from the product being analysed;
- it calls the tools of an MCP tool server;
- it either collects the replies in a result map or aborts the whole plan with
  one error object.

A self-check tool scores how reliable the results are. A second model call then
turns everything into the final analysis. When that answer is not JSON, an
analysis is assembled field by field from the tool results.

The project models the following:

- the two executors, `ActionLayer.execute_tool_plan` (arguments wrapped as
  `{"input": ...}`) and the older `SmartPurchaseAdvisorClient.execute_tool_plan`
  (arguments passed as they are), sharing one loop with a dialect switch;
- the two `check_tool_results` variants;
- the client's `process_product` pipeline, with its self-check default, the
  redaction of the final prompt, and the fallback answer;
- the perception layer's preference normalisation with its shared price-range
  dict, its code-fence extraction and its prompt suffix;
- the decision layer's setters, category default and fallback;
- the memory layer's file naming, its store and retrieve, and the recent-list and
  search loops over a directory held as a map;
- the tool server's self-check scoring, its `show_reasoning` tables, the input
  guard and counts of `review_consistency_check`, and the banding of
  `calculate_confidence_score`.

Modules:

| file | module | models |
|---|---|---|
| python.dfy | `Python` | JSON values, Python exceptions and the Python operations the core relies on: `in`, `[]`, `.get`, `len`, `float()`, `int()` and truthiness |
| mcp.dfy | `Mcp` | `json.loads`, `str`, `eval` and `json.dumps` as oracles; `session.call_tool` as a session object with a call log |
| llm.dfy | `Llm` | the model as an oracle from prompts to optional replies; fence extraction; the reply-to-plan mapping; the fallback analysis |
| tool_plan.dfy | `ToolPlan` | the shared executor, as functions and as the loop that updates `results` |
| action_layer.dfy | `Action` | `ActionLayer` and the validation prelude of `handle_product_detection` |
| mcp_client.dfy | `Client` | `SmartPurchaseAdvisorClient` |
| perception_layer.dfy | `Perception` | preferences, plan parsing and the prompt suffix |
| decision_layer.dfy | `Decision` | `DecisionLayer` |
| memory_layer.dfy | `Memory` | `MemoryLayer` over a directory map |
| server.dfy | `Server` | the tool server's self-check, reasoning tables, consistency counts and confidence bands |

Every Python exception is an `Err` carrying a `Failure`, and `ErrorText` gives
its `str(e)`. An error the source swallows is modelled at the point where the
source catches it. The classes keep the source's fields (`product_info`,
`current_site`, `category`, `tool_results`, the directory's files), and their
methods state the whole new state. Each method is proved equal to a
specification function, and the lemmas state the source's promises about that
function.

## Model

| member | source | states |
|---|---|---|
| Mcp.Decode | action_layer.py:230 | `json.loads` succeeds exactly when the decoder does, with its value; otherwise it fails with `DecodeError` |
| Mcp.Remote | action_layer.py:204-207 | a tool call yields the reply text exactly when the server answers, and a `RemoteError` carrying the server's failure otherwise |
| Mcp.ToolSession.constructor | mcp_client.py:83 | a new session has made no calls |
| Mcp.ToolSession.CallTool | mcp_client.py:396-399 | every call, successful or not, is appended to the log, and the reply is the server's |
| ToolPlan.NameOf | action_layer.py:176-184 | the step name is the first present of `tool`, `tool_name`, `function.name`, `name` (JNull if none); it can raise only when no earlier alias is present and `function` is not a dict |
| ToolPlan.InputOf | action_layer.py:186-194 | the step input is the first present of `input`, `parameters`, `arguments`, `function.arguments`, else `{}`; it raises only when none of the earlier aliases is present and `function` is not a dict |
| ToolPlan.Normalize | action_layer.py:171-194 | a step that is not a container raises; a dict step with a plain `function` entry normalises to exactly the two alias results |
| ToolPlan.SummaryCall | action_layer.py:211-230 | the summary call succeeds iff the input is a dict and the product has a title; its arguments are the summary arguments, wrapped per dialect, and the reply is decoded |
| ToolPlan.ConfidenceCall | mcp_client.py:423-428 | the call raises `KeyError('review_summary_tool')` exactly when no summary was stored; otherwise it sends that summary as `sentiment_data` |
| ToolPlan.Upstream | action_layer.py:287-319 | how `show_reasoning` reads an earlier result: a missing key reads as `{}`; a dict reads as itself; an undecodable string keeps the defaults; a decoded non-dict raises `.get` |
| ToolPlan.ReasoningCall | action_layer.py:274-328 | a product that is not a dict raises `.get`; otherwise one `show_reasoning` call stored under its own key |
| ToolPlan.CalculateCall | action_layer.py:332-340 | the `calculate` call is prepared iff the step input is a dict |
| ToolPlan.VerifyCall | action_layer.py:344-354 | `verify` is called only when the input is a dict and `float(expected)` succeeds |
| ToolPlan.ConsistencyCall | action_layer.py:358-386 | a prepared call is always stored under `review_consistency_check` |
| ToolPlan.LegacyConsistencyCall | action_layer.py:390-401 | the legacy `check_consistency` call is prepared iff the input is a dict |
| ToolPlan.Prepare | action_layer.py:201-404 | a step is skipped exactly when its name is not a known tool; every call stores under a result key; in the action dialect the arguments are exactly `{"input": ...}` |
| ToolPlan.Finish | action_layer.py:397-401 | a raw reply is kept as text, a decoded one is `json.loads`, and a literal one never fails (it falls back to the text) |
| ToolPlan.StepOf | action_layer.py:171-404 | one loop pass makes at most one call, and on success only adds result keys |
| ToolPlan.Then | action_layer.py:406-411 | after an exception the remaining steps change nothing |
| ToolPlan.RunPlan | action_layer.py:164-411 | a stored map is exactly the returned value; every return is a dict; when the plan itself raises, no tool was called |
| ToolPlan.CheckSummary | action_layer.py:445-451 | the summary of a self-check reply: a non-dict raises `.get`; success iff the three message entries have a length; the summary has exactly the five count keys |
| ToolPlan.ExecuteStep | action_layer.py:171-404 | the loop body's result and the calls it logs are those of `StepOf` |
| ToolPlan.ExecuteSteps | action_layer.py:171-407 | the loop over the steps yields the results and calls of `RunSteps` |
| ToolPlan.ExecuteLoop | action_layer.py:170-171 | iterating a list, a string, a dict or another value gives the results and calls of `LoopRun` |
| ToolPlan.ExecutePlan | action_layer.py:164-411 | the whole method returns the outcome and the stored map of `RunPlan`, and logs exactly its calls |
| ToolPlan.FailurePersists | action_layer.py:409-411 | once a prefix of the steps has raised, the whole run equals that prefix's run |
| ToolPlan.StringStep | action_layer.py:177-194 | a step given as a plain string never calls a tool; it raises `string indices must be integers` or is skipped |
| ToolPlan.KeyStepsRun | action_layer.py:171-194 | iterating a dict's keys as steps, in any order, raises iff some key raises, and never calls a tool |
| ToolPlan.CallsBounded | action_layer.py:171-404 | a plan makes at most as many tool calls as it has steps |
| ToolPlan.ResultKeysKnown | action_layer.py:207-402 | a completed result map holds only the executor's result keys |
| ToolPlan.StoredKeysKnown | action_layer.py:406 | `self.tool_results` can only ever hold the executor's result keys |
| ToolPlan.ErrorPlanCallsNoTool | action_layer.py:164-165 | a plan with `"error"` returns `{"error": same value}`, stores nothing and calls no tool |
| ToolPlan.NoToolCalls | action_layer.py:164-170 | a plan with neither `"error"` nor `"tool_calls"` returns `{}`, stores `{}` and calls no tool |
| ToolPlan.UnknownStepSkipped | action_layer.py:403-404 | a step with no name or an unknown name makes no call and leaves the results unchanged |
| ToolPlan.FirstStepAborts | action_layer.py:409-411 | if the first step raises, the plan returns `{"error": str(e)}`, stores nothing, and later steps are not run |
| ToolPlan.SummaryStep | action_layer.py:211-228 | the summary arguments: `product` falls back from product to product_title to the product's title; `site` falls back to the current site; `reviews` always comes from the product (default `[]`); `num_reviews` defaults to 1000 |
| ToolPlan.SummaryIgnoresStepReviews | action_layer.py:217-218 | reviews written into the step make no difference to the call |
| ToolPlan.ConfidenceStep | action_layer.py:236-252 | with no earlier summary the step raises `KeyError` without calling, so the default at 240-246 is dead; otherwise it sends the stored summary |
| ToolPlan.ActionConsistencyNeedsSummary | action_layer.py:364-369 | in the action layer a missing summary makes `review_consistency_check` call `.get` on the string `"{}"`, which raises, and no tool is called |
| ToolPlan.ClientConsistencyWithoutSummary | mcp_client.py:486-503 | in the client a missing summary sends `{reviews: [], sentiments: []}` and the plan goes on |
| ToolPlan.ConfidenceFirstAborts | mcp_client.py:423-424 | a plan opening with `calculate_confidence_score` returns `{"error": "'review_summary_tool'"}` with no tool call |
| ToolPlan.ActionReasoningDefaults | action_layer.py:276-319 | with nothing usable upstream, `show_reasoning` sends the fixed defaults 0, `[]` and `'Unknown'`, and the title or `'Unknown Product'` |
| ToolPlan.ClientReasoningDefaults | mcp_client.py:445-456 | the client's defaults with nothing upstream are 0.0, 0, `[]` and `'Unknown'`, and the title or `'Unknown Product'` |
| ToolPlan.ClientSelfCheckFirstAborts | mcp_client.py:438-441 | the server's plain-text reply to an empty `tools_results` aborts a client plan whose first step is the self-check, after that one call |
| Action.SiteAfter | action_layer.py:42-44 | the site becomes the product's `"site"` when present and stays as it was otherwise; `in` on a non-container raises |
| Action.SiteSticky | action_layer.py:43-44 | a product without `"site"` keeps the previous request's site |
| Action.ListsForm | action_layer.py:456-464 | the reply when the check raised: exactly the five list-form keys, score 0, level `"Low"`, and the error text in `issues` |
| Action.ActionCheckSummary | action_layer.py:423-464 | a remote failure gives the lists form |
| Action.UndecodableCheck | action_layer.py:433-451 | a reply that is not JSON yields exactly `{0, "Low", issues_count 1, warnings_count 1, insights_count 0}` |
| Action.DecodedCheck | action_layer.py:445-451 | a decoded dict gives its own score and level (defaults 0 and `"Unknown"`) and the lengths of its message lists (default 0) |
| Action.CheckShapes | action_layer.py:423-464 | `check_tool_results` returns one of two key sets: the counts form, or the lists form with score 0 and `"Low"` |
| Action.PreludeOf | action_layer.py:56-77 | the prelude either rejects with 400 or 500, or accepts a dict that keeps every key and has a title |
| Action.ValidateRequest | action_layer.py:56-77 | the in-place validation of the request dict ends as `PreludeOf` says |
| Action.TitleRequired | action_layer.py:68-70 | a request without a title is answered 400 with the missing-title error |
| Action.ReviewsDefaulted | action_layer.py:73-77 | missing or empty reviews are replaced by `[]` and the review note is added |
| Action.ReviewsKept | action_layer.py:73 | non-empty reviews pass through unchanged, with no note |
| Action.ActionLayer.constructor | action_layer.py:31-33 | a new layer holds no product, no site and no stored results |
| Action.ActionLayer.SetProductInfo | action_layer.py:35-44 | the product is replaced; the site changes only when the product names one; stored results are untouched |
| Action.ActionLayer.ExecuteToolPlan | action_layer.py:154-411 | the outcome and calls are those of `RunPlan` in the action dialect; `tool_results` changes only when the plan completes; product and site are unchanged |
| Action.ActionLayer.CheckToolResults | action_layer.py:413-464 | exactly one self-check call with `{"input": {"tools_results": results}}`, and the summary of its reply |
| Llm.ProductSummary | perception_layer.py:246-252 | the product JSON exists iff the product is a dict with a title; it has exactly the keys title, site, category, price, url, with `"Unknown"` defaults |
| Llm.TrimStart | perception_layer.py:285 | `lstrip` leaves a suffix of the text that starts with no whitespace, and everything it drops is whitespace |
| Llm.TrimEnd | perception_layer.py:285 | `rstrip` leaves a prefix of the text that ends with no whitespace, and everything it drops is whitespace |
| Llm.Strip | perception_layer.py:285 | the stripped text neither starts nor ends with whitespace |
| Llm.StripPadded | perception_layer.py:285 | stripping whitespace padding off a non-empty stripped text gives that text back |
| Llm.Find | perception_layer.py:283-288 | the first occurrence of the separator: found iff the text contains it, and no earlier position holds it |
| Llm.After | perception_layer.py:285-288 | `split(sep, 1)[1]`: the part before, the separator and this part make up the text again |
| Llm.Before | perception_layer.py:285-288 | `split(sep, 1)[0]`: a prefix of the text, the whole text when the separator does not occur |
| Llm.BeforeHasNoSep | perception_layer.py:285-288 | the part before the first separator does not contain the separator |
| Llm.ExtractJsonText | perception_layer.py:282-290 | text without a fence is unchanged; otherwise the extract is stripped; the extract never contains a fence |
| Llm.JsonFenceRoundTrip | perception_layer.py:283-285 | a stripped, fence-free text wrapped in a json-tagged fence is extracted unchanged |
| Llm.PlainFenceRoundTrip | perception_layer.py:286-288 | the same round trip through a bare fence |
| Llm.PlanFromResponse | perception_layer.py:274-297 | a missing or empty reply gives the no-response error; otherwise the decoded extract, or the parse error when it does not decode |
| Llm.ReadFinal | decision_layer.py:284-303 | a final reply is missing iff absent or empty; decoded means `json.loads` of the extract succeeded with that value; undecodable means it failed |
| Llm.FallbackAnalysis | decision_layer.py:312-331 | the fallback succeeds iff each of the three tool results, where present, is a dict; a non-dict summary raises `.get` first |
| Llm.FallbackDefaults | decision_layer.py:317-332 | with no tool results every field is its default: `"Unknown"`, 0, `["No pros found"]`, `["No cons found"]`, `{}`, `[]` |
| Llm.FallbackCarriesResults | decision_layer.py:318-331 | values the tools reported (pros, cons, scores) are carried over unchanged |
| Llm.FallbackFields | decision_layer.py:312-331 | each of the fourteen fields is its tool result's value under the field's source key when the result has that key, and the field's listed default otherwise (results, keys and defaults per `FieldSourceOf`) |
| Llm.AnalysisObjectFields | decision_layer.py:317-333 | the returned dict holds each field under its own key, and `"error"` holds the fixed error text |
| Llm.AnalysisObjectKeys | decision_layer.py:317-333 | the returned dict has no key besides the fourteen field names and `"error"` |
| Llm.FallbackDict | decision_layer.py:312-333 | under each field's key, the fallback dict holds the source key's value from its tool result when present, and the listed default otherwise |
| Server.ReviewCountCheck | mcp_server.py:240-248 | the review-count check always gives one message; it is an issue iff the count is 0; it raises only on a non-number |
| Server.SentimentCheck | mcp_server.py:250-259 | the sentiment check never gives an issue; a missing score gives the missing-score warning |
| Server.ProsConsCheck | mcp_server.py:261-272 | no message iff both lists are empty; a warning for one list empty or a 3× ratio; otherwise the "Balanced" insight, in both directions |
| Server.ConfidenceCheck | mcp_server.py:274-283 | the confidence check never gives an issue; a missing score gives the missing-score warning |
| Server.ReliabilityScore | mcp_server.py:309-316 | the score is `70 − 25·issues − 10·warnings + 5·insights` clamped to [0, 100] |
| Server.ReliabilityLevel | mcp_server.py:318-322 | High iff score ≥ 80, Medium iff 60 ≤ score < 80, Low iff score < 60 |
| Server.CheckInputsOf | mcp_server.py:217-231 | with neither a summary nor a confidence entry, the inputs are count 0 with both scores missing |
| Server.SelfCheck | mcp_server.py:193-352 | a falsy `tools_results` gives the plain error text; a report's score lies in [0, 100] and its level is the banding of that score |
| Server.ReplyText | mcp_server.py:195-208 | the empty-input and not-a-dict replies are plain non-JSON text; the others are rendered as JSON |
| Server.SelfCheckToolResults | mcp_server.py:188-352 | the list-appending method returns exactly `SelfCheck` |
| Server.ReportFindings | mcp_server.py:240-283 | a report comes from the four checks; only the first can give an issue, exactly when the count is 0; the lists partition the findings by kind |
| Server.AtMostOneIssue | mcp_server.py:240-283 | a report has at most one issue, and has one iff the review count is 0 |
| Server.AtMostFourMessages | mcp_server.py:240-283 | each check adds at most one message, so there are at most four in all |
| Server.HighLevelIff | mcp_server.py:309-322 | the level is High iff there are no issues, no warnings and at least two insights |
| Server.NothingUpstream | mcp_server.py:217-316 | results without a summary or a confidence entry score 25, Low, with one issue and two warnings |
| Server.SentimentLabelOf | mcp_server.py:393 | the label is Positive iff > 0.2 and Negative iff < −0.2 |
| Server.ConfidenceLabelOf | mcp_server.py:396 | High iff ≥ 70; Medium iff ≥ 40 and < 70 |
| Server.SentimentBandOf | mcp_server.py:401-411 | the explanation bands refine the sentiment label: the two positive bands are exactly Positive, the two negative bands exactly Negative |
| Server.RecommendationOf | mcp_server.py:426-435 | the recommendation table, each row as an iff: recommended, avoided, consider alternatives (confidence ≥ 70), additional research (< 70) |
| Server.ShowReasoning | mcp_server.py:364-370 | empty product data, and only that, gives the no-product-data error |
| Server.ShowReasoningReport | mcp_server.py:373-463 | for non-empty product data a report exists iff the data is a dict, both scores are numbers and pros and cons have a length; its labels, band and recommendation are those of the two scores, its counts the lengths of pros and cons |
| Server.ReportNeedsBothScores | mcp_server.py:440 | a reasoning report exists only when both scores are numbers, because formatting a missing one raises |
| Server.MissingSentimentFails | mcp_server.py:375-440 | without a sentiment score `show_reasoning` answers with the formatting error |
| Server.RecommendationTable | mcp_server.py:426-437 | a report's recommendation follows the table on the product's own scores, in both directions |
| Server.SumFailure | mcp_server.py:554 | `sum(sentiments)` raises iff some sentiment is not a number |
| Server.SampleNoteOf | mcp_server.py:616-619 | very-small-sample note iff n < 5; limited-sample note iff 5 ≤ n < 10 |
| Server.ConsistencyGuard | mcp_server.py:533-539 | the check refuses exactly empty reviews, empty sentiments or lists of different lengths |
| Server.ConsistencyCheck | mcp_server.py:523-657 | a non-dict input fails; a report has at least one review, the small-sample note of its count, and non-negative positive, negative and neutral counts summing to the review count |
| Server.CountsPartition | mcp_server.py:561-563 | above 0.3, below −0.3 and in between partition the sentiments |
| Server.ConsistencyCounts | mcp_server.py:553-563 | the reported positive, negative and neutral counts are those counts and sum to the review count |
| Server.ConfidenceLevel | mcp_server.py:747-757 | the five bands, each as an iff: ≥ 80 Very High, ≥ 65 High, ≥ 50 Moderate, ≥ 35 Low, else Very Low |
| Server.ConfidenceLevelMonotone | mcp_server.py:747-757 | a higher score never gets a lower band |
| Client.CheckError | mcp_client.py:557-559 | the error reply has exactly `error`, `reliability_level` and `reliability_score`, with `str(e)` |
| Client.ClientCheckSummary | mcp_client.py:540-559 | a remote failure or an undecodable reply gives the error reply |
| Client.EffectiveSelfCheck | mcp_client.py:141-150 | an empty or error-bearing self-check is replaced by the fixed "Very Low" default; any other passes unchanged |
| Client.SelfCheckDefaulting | mcp_client.py:138-150 | the default is used iff the call, the decode or the summary failed; otherwise the summary is used |
| Client.StepsAreDicts | mcp_client.py:125-128 | a list of dict steps never breaks the plan log |
| Client.PlanLogFailure | mcp_client.py:124-128 | a plan without `tool_calls` logs safely; otherwise the log fails as its steps do |
| Client.ProductInfoRedacted | mcp_client.py:758-760 | the copy replaces `reviews` by `"[N reviews hidden]"` and is otherwise the product; a value with no `.copy` raises |
| Client.HiddenCountFailure | mcp_client.py:770-773 | the redaction fails iff `pros` or `cons` is present without a length |
| Client.RedactSummary | mcp_client.py:770-773 | counting the summary's pros and then its cons raises exactly as `HiddenCountFailure` says, and nothing depends on the discarded copy |
| Client.RedactedResults | mcp_client.py:765-776 | the redacted results equal the results, because `pros1`/`cons1` go into a discarded copy; the redaction fails exactly on a summary whose pros or cons have no length |
| Client.RedactResults | mcp_client.py:765-776 | the redaction loop computes `RedactedResults` |
| Client.ClientFallback | mcp_client.py:813-840 | the fallback exists iff the product has a title and the results are dicts; it is the analysis dict with that title; an untitled product raises `KeyError` first |
| Client.FinalPromptContents | mcp_client.py:780-811 | for a product without reviews the final answer is: the error when the reply is missing, the decoded reply, or else the fallback |
| Client.FinalAnswer | mcp_client.py:789-811 | a missing reply gives the final-response error; a decodable one is returned verbatim |
| Client.Conclude | mcp_client.py:138-156 | the end of the pipeline makes exactly one self-check call with the results |
| Client.AfterPlan | mcp_client.py:121-156 | site and category are not changed after the plan; a plan that breaks the log ends with its error before any tool call |
| Client.ProcessRun | mcp_client.py:107-160 | the site becomes `site` or `"Unknown"`; a product that is not a dict gives `{"error": ...}` and nothing else changes |
| Client.ProcessStages | mcp_client.py:109-121 | a titled product is classified with one call, and the rest runs on the plan the model gave |
| Client.UntitledProduct | mcp_client.py:109-113 | an untitled product makes no tool call and answers `{"error": "'title'"}`, with the site already updated |
| Client.ErrorPlanSkipsTools | mcp_client.py:121-138 | with no plan reply the executor calls no tool, and the self-check gets the error object; stored results are kept |
| Client.SmartPurchaseAdvisorClient.constructor | mcp_client.py:81-87 | a new client holds no product, site or category and an empty result map |
| Client.SmartPurchaseAdvisorClient.ExecuteToolPlan | mcp_client.py:344-523 | the outcome and calls are those of `RunPlan` in the client dialect; `tool_results` changes only on completion |
| Client.SmartPurchaseAdvisorClient.CheckToolResults | mcp_client.py:525-559 | exactly one self-check call with `{"tools_results": results}`, and the summary of its reply |
| Client.SmartPurchaseAdvisorClient.PerformFinalReasoning | mcp_client.py:561-840 | the final answer is `FinalOf` of the object's product and category; `self.product_info` is not changed |
| Client.SmartPurchaseAdvisorClient.AnalysePlan | mcp_client.py:121-156 | after the plan: the reply, the stored results and the logged calls are those of `AfterPlan`; product, site and category are unchanged |
| Client.SmartPurchaseAdvisorClient.ProcessProduct | mcp_client.py:89-160 | the reply, the new product, site, category and `tool_results`, and the logged calls are exactly those of `ProcessRun` |
| Perception.PriceRange.constructor | perception_layer.py:90 | the default price range is min 0, max unbounded |
| Perception.AsJson | perception_layer.py:89-97 | the preferences dict always has `price_range` and `review_threshold` |
| Perception.RangeOf | perception_layer.py:105-111 | a failed `float()` on a bound leaves max unbounded; `in` on a non-container raises |
| Perception.ListEntry | perception_layer.py:114-123 | a list preference overrides the current value only when it is a list |
| Perception.ThresholdEntry | perception_layer.py:126-131 | a threshold is kept when absent and otherwise coerced |
| Perception.Processed | perception_layer.py:88-138 | falsy preferences give exactly the defaults |
| Perception.ProcessUserPreferences | perception_layer.py:76-138 | the step-by-step update of the shared dicts yields `Processed`, in a fresh price range |
| Perception.ListsOnlyFromLists | perception_layer.py:114-123 | brands, features and avoided features are taken only from lists, else `[]` |
| Perception.ThresholdsCoerced | perception_layer.py:126-131 | `review_threshold` goes through `int()`, the other two thresholds through `float()` |
| Perception.FailureKeepsRange | perception_layer.py:101-138 | a later coercion failure returns the defaults with the already-updated price range, because the copy shares the price-range dict |
| Perception.SharedRangeExample | perception_layer.py:105-138 | `{"price_range": {"min": 5}, "review_threshold": null}` returns the defaults with min 5.0 |
| Perception.ProcessedNormal | perception_layer.py:101-134 | every result is in normal form: float bounds, list preferences, coerced thresholds |
| Perception.ReprocessStable | perception_layer.py:101-134 | reprocessing a processed result gives it back up to int/float equality, and a second reprocessing changes nothing |
| Perception.NormalReprocessed | perception_layer.py:101-134 | a normal-form value survives reprocessing field by field |
| Perception.PromptSuffix | perception_layer.py:245-262 | the suffix exists iff the product is a dict with a title |
| Perception.PreferencesAlwaysShown | perception_layer.py:257-260 | the processed preferences are never falsy, so the suffix always adds them after the product JSON |
| Perception.CraftPromptSuffix | perception_layer.py:140-262 | the prompt suffix is `PromptSuffix` of the processed preferences |
| Decision.CategoryOf | decision_layer.py:92-94 | a falsy category becomes `"Unknown"`; a truthy one is kept |
| Decision.DecisionFinal | decision_layer.py:283-333 | a missing reply gives the final-response error; a decoded one is returned verbatim; an undecodable one over non-dict results raises `.get` |
| Decision.DecisionFallbackShape | decision_layer.py:317-333 | the decision fallback has no title, always has the error marker, and carries the summary's pros |
| Decision.DecisionLayer.constructor | decision_layer.py:29-30 | a new layer holds the given product and no category |
| Decision.DecisionLayer.SetProductInfo | decision_layer.py:32-39 | only the product changes |
| Decision.DecisionLayer.SetCategory | decision_layer.py:41-48 | only the category changes |
| Decision.DecisionLayer.PerformFinalReasoning | decision_layer.py:81-333 | the category default persists on the object and the answer is `DecisionFinal` |
| Memory.Kept | memory_layer.py:47-48 | the filtered id has only alphanumerics, `_` and `-`, and is no longer than the id |
| Memory.Sanitize | memory_layer.py:47-54 | the sanitised id is safe; a filtered id of at most 150 characters is kept; a longer one becomes its first 100 + `"_"` + its last 20, 121 characters |
| Memory.SanitizeIdempotent | memory_layer.py:47-54 | sanitising a sanitised id changes nothing |
| Memory.SanitizeKeepsSafe | memory_layer.py:47-51 | an id of safe characters of at most 150 characters is its own sanitised form |
| Memory.ProductFilename | memory_layer.py:35-56 | the file is the storage directory joined with the sanitised id plus `".json"` |
| Memory.ProductIdOf | memory_layer.py:73-76 | a string title gives `title` (or its first 50 characters + `"..."`) + `"_"` + timestamp |
| Memory.TitleFileName | memory_layer.py:73-78 | such an id never reaches the truncation branch, and the dots of a cut title are dropped from the file name |
| Memory.ListedNames | memory_layer.py:141 | the listed files are the `.json` files other than `user_preferences.json` |
| Memory.EntryOf | memory_layer.py:81-90 | the entry holds the product data, and `user_preferences` iff the preferences are truthy |
| Memory.RetrieveFrom | memory_layer.py:113-123 | retrieval succeeds iff the id's file exists, and gives its content |
| Memory.StoreRetrieve | memory_layer.py:78-120 | retrieving a just-stored id returns the stored entry; other files are unaffected |
| Memory.DotsShareFile | memory_layer.py:47-56 | ids that differ only in dropped characters share one file |
| Memory.LowerChar | memory_layer.py:185-192 | a lowercased character is never an ASCII capital; capitals move down by 32, everything else is kept |
| Memory.Lower | memory_layer.py:185-192 | `lower()` keeps the length and lowercases each character in place |
| Memory.LowerIdempotent | memory_layer.py:185-192 | lowercasing twice is lowercasing once |
| Memory.Matches | memory_layer.py:185-193 | an entry is only read without raising when it is a dict with a `product_data` dict whose title is a string |
| Memory.MatchMeaning | memory_layer.py:185-193 | an entry with a string title matches iff the lowercased query is in its lowercased title or in some stringified analysis value |
| Memory.SearchFails | memory_layer.py:175-200 | the search raises, and returns `[]`, iff some listed entry raises, whatever the listing order |
| Memory.SearchOver | memory_layer.py:179-193 | a successful search over a listing returns no more names than listed, each of them a listed name |
| Memory.SearchFinds | memory_layer.py:179-193 | a successful search holds exactly the matching files, each once |
| Memory.SliceCount | memory_layer.py:148 | `files[:limit]` keeps at most `limit` files (for `limit` ≥ 0) and never more than there are |
| Memory.RecentBounds | memory_layer.py:141-148 | the recent list has at most `limit` entries and never the preferences file |
| Memory.SortedPrefixNewest | memory_layer.py:144-148 | the first `len(files[:limit])` files of the sorted listing are the newest, newest first |
| Memory.NewestFirst | memory_layer.py:144-145 | sorting by modification time, newest first, enumerates every listed file once |
| Memory.MemoryLayer.constructor | memory_layer.py:19-28 | the layer opens a storage directory with its existing files |
| Memory.MemoryLayer.StoreProductAnalysis | memory_layer.py:58-101 | the returned id is `ProductIdOf`; the entry is written under the id's file name; when the title raises, nothing is written |
| Memory.MemoryLayer.RetrieveProductAnalysis | memory_layer.py:103-127 | retrieval reads the id's file, and an unknown id gives `None` |
| Memory.MemoryLayer.ListFiles | memory_layer.py:177 | the listing enumerates each listed file once |
| Memory.MemoryLayer.GetRecentAnalyses | memory_layer.py:129-163 | the loaded list is the contents of the newest listed files, newest first, as many as the slice keeps |
| Memory.MemoryLayer.SearchAnalyses | memory_layer.py:165-200 | for some listing order the matches are the search's result over it: the matching entries, or `[]` after an exception |
| Memory.SearchLater | memory_layer.py:198-200 | an exception while reading one file aborts the whole search |

## Left out

- `generate_with_timeout`, in all three copies, is an oracle from a prompt to an optional reply. Its timeout, thread executor and client SDK are not modelled.
- `session.call_tool` is an oracle from a tool name and arguments to a reply text or a failure. `json.loads`, `json.dumps`, `str()` of a non-string and `eval` are oracles too, carried in `Mcp.Runtime`.
- The HTTP handlers, CORS, health checks, the server start-up and `main` are process wiring and are left out. `handle_product_detection` is modelled only up to its validation prelude. Past it, it calls `perform_final_reasoning` with three arguments against a two-argument signature, and it calls an undefined `evaluate_preference_match`, so no success path exists to model.
- Prompt template bodies, console output and logging are left out. Prompts are tagged values that hold the data they embed.
- `classify_product`, `review_summary_tool`, `calculate`, `verify`, the arithmetic of `calculate_confidence_score`, and the mean, spread and ratios of `review_consistency_check` are left out. They use foreign libraries, `eval` or floating-point math. The tool server's reply to the executors is the `Responder` oracle. Only the parts of the server listed in the table are modelled.
- Server.ShowReasoning: only its guard, labels and recommendation are modelled. The report's explanation strings and the formatting of numbers are not.
- Python's `str.isalnum` and `str.lower` are modelled on ASCII letters and digits. Non-ASCII letters and digits, which Python also keeps and lowercases, are not modelled. `str.isspace`, used by `strip`, is Python's full whitespace set.
- Floating-point values are reals. NaN, negative infinity and rounding are not modelled. `float('inf')` is the `JInf` value.
- Dict key order is not modelled: dicts are maps. Where the source iterates a dict or a directory listing, the model takes an arbitrary order. For the search, the lemmas show that failure and which entries match do not depend on that order; the order of the matches follows the listing.
- The file system is a map from file name to decoded content and modification time. The timestamps are parameters, and `datetime.now` is not called. Left out:
  - `os.makedirs`;
  - files that are not valid JSON, or directory entries that are not files;
  - write failures;
  - `store_user_preferences` and `get_user_preferences`, which are outside the modelled core.
- Memory.MemoryLayer.GetRecentAnalyses: Python's stable sort orders files with equal modification times by listing order; the model only promises some order among them.
- Concurrency of the async handlers is left out: each method runs to completion.
- Tool-plan steps and every other input get full Python semantics. This covers `in` on strings and lists, `.get` on non-dicts, and the `function` alias as a string. No requires clause restricts their shape.
