/** `SupportPipeline` (support_ai/pipeline.py): input validation in front of
    the analyzer, and the conversion of an `AnalysisResult` into the ten-key
    dictionary the pipeline returns. */
module Pipeline {
  import opened Common
  import opened SupportAnalyzer

  /** `validate_input`: the chat text must be a non-empty str and the
      historical data a non-empty dict. */
  predicate ValidateInput(chatText: Value, ticketData: Value)
  {
    if !Truthy(chatText) || !chatText.Str? then false
    else if !Truthy(ticketData) || !ticketData.Dict? then false
    else true
  }

  /** Input is accepted exactly when both checks pass. */
  lemma ValidateInputIff(chatText: Value, ticketData: Value)
    ensures ValidateInput(chatText, ticketData)
        <==> chatText.Str? && chatText.s != "" && ticketData.Dict? && ticketData.entries != map[]
  {
  }

  /** The keys of the dictionary `process` returns. */
  const OutputKeys: set<string> :=
    {"summary", "extracted_issue", "suggested_solution", "priority_level", "assigned_team",
     "estimated_resolution_time", "confidence_score", "similar_cases", "action_items", "sentiment"}

  /** A similar case as the dictionary the analyzer builds for it. */
  function CaseValue(c: SimilarCase): Value
  {
    Dict(map["issue" := Str(c.issue), "solution" := Str(c.solution), "similarity" := Num(c.similarity)])
  }

  function CasesValue(cs: Option<seq<SimilarCase>>): Value
  {
    match cs
    case None => Null
    case Some(s) => List(seq(|s|, k requires 0 <= k < |s| => CaseValue(s[k])))
  }

  function ItemsValue(items: Option<seq<string>>): Value
  {
    match items
    case None => Null
    case Some(s) => List(seq(|s|, k requires 0 <= k < |s| => Str(s[k])))
  }

  /** The dictionary literal at the end of `process`. */
  function ToRecord(r: AnalysisResult): (d: map<string, Value>)
    ensures d.Keys == OutputKeys
  {
    map["summary" := Str(r.summary),
        "extracted_issue" := Str(r.issue),
        "suggested_solution" := Str(r.solution),
        "priority_level" := Str(r.priority),
        "assigned_team" := Str(r.team),
        "estimated_resolution_time" := Num(r.estimatedTime),
        "confidence_score" := Num(r.confidence),
        "similar_cases" := CasesValue(r.similarCases),
        "action_items" := ItemsValue(r.actionItems),
        "sentiment" := Str(r.sentiment)]
  }

  // Reading a record back, the inverse of the mapping above.

  function ValueCase(v: Value): Option<SimilarCase>
  {
    if v.Dict? && "issue" in v.entries && "solution" in v.entries && "similarity" in v.entries
       && v.entries["issue"].Str? && v.entries["solution"].Str? && v.entries["similarity"].Num?
    then Some(SimilarCase(v.entries["issue"].s, v.entries["solution"].s, v.entries["similarity"].x))
    else None
  }

  function ValueCases(vs: seq<Value>): Option<seq<SimilarCase>>
  {
    if |vs| == 0 then Some([])
    else match (ValueCase(vs[0]), ValueCases(vs[1..]))
      case (Some(c), Some(rest)) => Some([c] + rest)
      case _ => None
  }

  function ValueStrings(vs: seq<Value>): Option<seq<string>>
  {
    if |vs| == 0 then Some([])
    else match (vs[0], ValueStrings(vs[1..]))
      case (Str(s), Some(rest)) => Some([s] + rest)
      case _ => None
  }

  function ValueOptCases(v: Value): Option<Option<seq<SimilarCase>>>
  {
    match v
    case Null => Some(None)
    case List(vs) => (match ValueCases(vs) case Some(cs) => Some(Some(cs)) case None => None)
    case _ => None
  }

  function ValueOptStrings(v: Value): Option<Option<seq<string>>>
  {
    match v
    case Null => Some(None)
    case List(vs) => (match ValueStrings(vs) case Some(ss) => Some(Some(ss)) case None => None)
    case _ => None
  }

  function FromRecord(d: map<string, Value>): Option<AnalysisResult>
  {
    if OutputKeys <= d.Keys
       && d["summary"].Str? && d["extracted_issue"].Str? && d["suggested_solution"].Str?
       && d["priority_level"].Str? && d["assigned_team"].Str?
       && d["estimated_resolution_time"].Num? && d["confidence_score"].Num? && d["sentiment"].Str?
       && ValueOptCases(d["similar_cases"]).Some? && ValueOptStrings(d["action_items"]).Some?
    then Some(AnalysisResult(d["summary"].s, d["extracted_issue"].s, d["suggested_solution"].s,
                             d["priority_level"].s, d["assigned_team"].s,
                             d["estimated_resolution_time"].x, d["confidence_score"].x,
                             ValueOptCases(d["similar_cases"]).value,
                             ValueOptStrings(d["action_items"]).value, d["sentiment"].s))
    else None
  }

  lemma {:induction false} CasesRoundTrip(cs: seq<SimilarCase>)
    ensures ValueCases(seq(|cs|, k requires 0 <= k < |cs| => CaseValue(cs[k]))) == Some(cs)
    decreases |cs|
  {
    var vs := seq(|cs|, k requires 0 <= k < |cs| => CaseValue(cs[k]));
    if |cs| > 0 {
      assert vs[1..] == seq(|cs[1..]|, k requires 0 <= k < |cs[1..]| => CaseValue(cs[1..][k]));
      CasesRoundTrip(cs[1..]);
      assert [cs[0]] + cs[1..] == cs;
    }
  }

  lemma {:induction false} StringsRoundTrip(ss: seq<string>)
    ensures ValueStrings(seq(|ss|, k requires 0 <= k < |ss| => Str(ss[k]))) == Some(ss)
    decreases |ss|
  {
    var vs := seq(|ss|, k requires 0 <= k < |ss| => Str(ss[k]));
    if |ss| > 0 {
      assert vs[1..] == seq(|ss[1..]|, k requires 0 <= k < |ss[1..]| => Str(ss[1..][k]));
      StringsRoundTrip(ss[1..]);
      assert [ss[0]] + ss[1..] == ss;
    }
  }

  /** Every field of the result is copied unchanged under its own key: the
      record reads back as the result it came from. */
  lemma RecordRoundTrip(r: AnalysisResult)
    ensures FromRecord(ToRecord(r)) == Some(r)
  {
    var d := ToRecord(r);
    if r.similarCases.Some? {
      CasesRoundTrip(r.similarCases.value);
    }
    if r.actionItems.Some? {
      StringsRoundTrip(r.actionItems.value);
    }
    assert ValueOptCases(d["similar_cases"]) == Some(r.similarCases);
    assert ValueOptStrings(d["action_items"]) == Some(r.actionItems);
  }

  /** `process`.  `analysis` is what `analyze_ticket` returns, or the
      exception it raises, for this chat text and historical data.  Invalid
      input raises ValueError before the analyzer is consulted; an analyzer
      error is re-raised; a confidence below 0.3 is only logged. */
  function Process(chatText: Value, ticketData: Value, analysis: Result<AnalysisResult>): (r: Result<map<string, Value>>)
    ensures !ValidateInput(chatText, ticketData) ==> r == Err(ValueError("Invalid input data"))
    ensures ValidateInput(chatText, ticketData) && analysis.Err? ==> r == Err(analysis.error)
    ensures ValidateInput(chatText, ticketData) && analysis.Ok? ==>
      r.Ok? && r.value.Keys == OutputKeys && FromRecord(r.value) == Some(analysis.value)
  {
    if !ValidateInput(chatText, ticketData) then Err(ValueError("Invalid input data"))
    else match analysis
      case Err(e) => Err(e)
      case Ok(result) =>
        RecordRoundTrip(result);
        Ok(ToRecord(result))
  }

  /** Invalid input is rejected whatever the analyzer would have done. */
  lemma InvalidInputIgnoresAnalyzer(chatText: Value, ticketData: Value, a: Result<AnalysisResult>, b: Result<AnalysisResult>)
    requires !ValidateInput(chatText, ticketData)
    ensures Process(chatText, ticketData, a) == Process(chatText, ticketData, b)
  {
  }

  /** A low confidence does not change the returned data: the confidence
      score is the analyzer's, whatever its value. */
  lemma LowConfidenceIsReported(chatText: Value, ticketData: Value, result: AnalysisResult)
    requires ValidateInput(chatText, ticketData) && result.confidence < 0.3
    ensures Process(chatText, ticketData, Ok(result)) == Ok(ToRecord(result))
    ensures ToRecord(result)["confidence_score"] == Num(result.confidence)
  {
  }
}
