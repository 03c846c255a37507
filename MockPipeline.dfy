/** The keyword pipeline of the AutoTriage demo (`MockSupportPipeline` and
    `validate_result` in Autotriage.ai/streamlit_app.py): issue type, keyword
    sentiment, a confidence built up from fixed increments, similar cases
    drawn from the ticket records, a canned solution, priority and time
    tables, and the clean-up applied to a result dictionary.  The random
    similarity of a matching ticket is `low + (high - low) * u` for a unit
    draw `u` that is an input. */
module MockPipeline {
  import opened Common
  import opened Text
  import Ranking

  // ---------------------------------------------------------------- issue type

  /** `issue_keywords`, in insertion order. */
  const IssueKeywords: seq<(string, seq<string>)> :=
    [("installation", ["install", "setup", "download", "update"]),
     ("payment", ["payment", "billing", "charge", "invoice"]),
     ("authentication", ["login", "password", "access", "signin"]),
     ("api", ["api", "integration", "endpoint", "webhook"]),
     ("performance", ["slow", "timeout", "performance", "speed"]),
     ("email", ["email", "notification", "smtp", "mail"])]

  const IssueTypes: seq<string> :=
    ["installation", "payment", "authentication", "api", "performance", "email", "general"]

  /** `_classify_issue`: the first issue type with a keyword in the
      lowercased text, else 'general'. */
  function ClassifyIssue(text: string): (t: string)
    ensures t in IssueTypes
  {
    var k := FirstMatch(Lower(text), IssueKeywords);
    assert k < |IssueKeywords| ==> IssueKeywords[k].0 == IssueTypes[k];
    FirstLabel(Lower(text), IssueKeywords, "general")
  }

  /** When row `k` is the first whose keywords occur in the lowercased text,
      the issue type is row `k`'s; with no row matching it is 'general'. */
  lemma ClassifyIssueIs(text: string, k: nat)
    requires k <= |IssueKeywords|
    requires k < |IssueKeywords| ==> ContainsAny(Lower(text), IssueKeywords[k].1)
    requires forall j :: 0 <= j < k ==> !ContainsAny(Lower(text), IssueKeywords[j].1)
    ensures ClassifyIssue(text) == IssueTypes[k]
  {
    FirstLabelIs(Lower(text), IssueKeywords, "general", k);
  }

  // ---------------------------------------------------------------- sentiment

  const NegativeWords: seq<string> := ["error", "failed", "problem", "issue", "urgent", "critical", "broken"]
  const PositiveWords: seq<string> := ["thanks", "good", "working", "resolved", "fixed"]

  /** `sum(1 for word in words if word in text)`. */
  function KeywordCount(words: seq<string>, text: string): (c: nat)
    ensures c <= |words|
  {
    if |words| == 0 then 0
    else KeywordCount(words[..|words| - 1], text) + (if Contains(text, words[|words| - 1]) then 1 else 0)
  }

  /** The count is the number of keywords present, each counted once however
      often it occurs. */
  lemma {:induction false} KeywordCountIsPresentWords(words: seq<string>, text: string)
    ensures KeywordCount(words, text) == |set k | 0 <= k < |words| && Contains(text, words[k])|
  {
    if |words| > 0 {
      var n := |words| - 1;
      var front := words[..n];
      KeywordCountIsPresentWords(front, text);
      var before := set k | 0 <= k < |front| && Contains(text, front[k]);
      var after := set k | 0 <= k < |words| && Contains(text, words[k]);
      if Contains(text, words[n]) {
        assert after == before + {n};
        assert n !in before;
      } else {
        assert after == before;
      }
    }
  }

  /** `_analyze_sentiment`: 'frustrated' when more negative than positive
      keywords occur, 'satisfied' in the opposite case, 'neutral' on a tie. */
  function AnalyzeSentiment(text: string): (s: string)
    ensures var neg, pos := KeywordCount(NegativeWords, Lower(text)), KeywordCount(PositiveWords, Lower(text));
      && (s == "frustrated" <==> neg > pos)
      && (s == "satisfied" <==> pos > neg)
      && (s == "neutral" <==> neg == pos)
  {
    var neg := KeywordCount(NegativeWords, Lower(text));
    var pos := KeywordCount(PositiveWords, Lower(text));
    if neg > pos then "frustrated" else if pos > neg then "satisfied" else "neutral"
  }

  // ---------------------------------------------------------------- confidence

  /** `_calculate_confidence`: 0.7, plus 0.2 for a specific issue type, plus
      0.1 for a text longer than 100 characters, capped at 1.0. */
  method CalculateConfidence(text: string, issueType: string) returns (c: real)
    ensures c == 0.7 <==> issueType == "general" && |text| <= 100
    ensures c == 0.8 <==> issueType == "general" && |text| > 100
    ensures c == 0.9 <==> issueType != "general" && |text| <= 100
    ensures c == 1.0 <==> issueType != "general" && |text| > 100
  {
    var base := 0.7;
    if issueType != "general" {
      base := base + 0.2;
    }
    if |text| > 100 {
      base := base + 0.1;
    }
    c := if base < 1.0 then base else 1.0;
  }

  // ---------------------------------------------------------------- similar cases

  /** A ticket record: the dictionary `to_dict('records')` gives per row. */
  type Ticket = map<string, Value>

  datatype MockCase = MockCase(issue: Value, priority: Value, sentiment: Value, solution: Value,
                               similarity: real, resolutionTime: Value)

  /** `ticket.get(key, '').lower()`: AttributeError when the value is not a
      str. */
  function LoweredField(t: Ticket, key: string): Result<string>
  {
    match Get(t, key, Str(""))
    case Str(s) => Ok(Lower(s))
    case _ => Err(AttributeError)
  }

  /** `issue_keywords.get(issue_type, [])`. */
  function KeywordsOf(issueType: string): (ws: seq<string>)
    ensures issueType == "general" ==> ws == []
  {
    var k := FirstLabelIndex(issueType);
    if k < |IssueKeywords| then IssueKeywords[k].1 else []
  }

  function FirstLabelIndex(issueType: string): (k: nat)
    ensures k <= |IssueKeywords|
    ensures k < |IssueKeywords| ==> IssueKeywords[k].0 == issueType
    ensures k == |IssueKeywords| ==> forall j :: 0 <= j < |IssueKeywords| ==> IssueKeywords[j].0 != issueType
  {
    if issueType == "installation" then 0
    else if issueType == "payment" then 1
    else if issueType == "authentication" then 2
    else if issueType == "api" then 3
    else if issueType == "performance" then 4
    else if issueType == "email" then 5
    else 6
  }

  /** The score of one ticket: `uniform(0.7, 0.95)` when the issue type
      occurs in its issue or category, else `uniform(0.5, 0.8)` when a keyword
      of the type occurs in its issue, else 0.0.  `u` is the unit draw. */
  function Score(issueType: string, t: Ticket, u: real): (r: Result<real>)
    requires 0.0 <= u <= 1.0
    ensures r.Ok? ==> r.value == 0.0 || 0.5 <= r.value <= 0.95
  {
    match (LoweredField(t, "issue"), LoweredField(t, "category"))
    case (Err(e), _) => Err(e)
    case (Ok(_), Err(e)) => Err(e)
    case (Ok(issue), Ok(category)) =>
      if Contains(issue, issueType) || Contains(category, issueType) then Ok(0.7 + 0.25 * u)
      else if ContainsAny(issue, KeywordsOf(issueType)) then Ok(0.5 + 0.3 * u)
      else Ok(0.0)
  }

  /** The case dictionary for a ticket, with the defaults of each `get`. */
  function CaseOf(t: Ticket, similarity: real): MockCase
  {
    MockCase(Get(t, "issue", Str("Unknown issue")), Get(t, "priority", Str("Medium")),
             Get(t, "sentiment", Str("Neutral")), Get(t, "solution", Str("No solution available")),
             similarity, Get(t, "resolution_time", Num(2.0)))
  }

  predicate UnitDraws(draws: seq<real>)
  {
    forall k :: 0 <= k < |draws| ==> 0.0 <= draws[k] <= 1.0
  }

  /** The cases of the tickets scoring above 0.5, in ticket order (the list
      before it is sorted). */
  function Candidates(issueType: string, tickets: seq<Ticket>, draws: seq<real>): (r: Result<seq<MockCase>>)
    requires |draws| == |tickets| && UnitDraws(draws)
    ensures r.Ok? ==> |r.value| <= |tickets| && forall k :: 0 <= k < |r.value| ==> 0.5 < r.value[k].similarity <= 0.95
  {
    if |tickets| == 0 then Ok([])
    else
      var n := |tickets| - 1;
      match Candidates(issueType, tickets[..n], draws[..n])
      case Err(e) => Err(e)
      case Ok(before) =>
        match Score(issueType, tickets[n], draws[n])
        case Err(e) => Err(e)
        case Ok(s) => if s > 0.5 then Ok(before + [CaseOf(tickets[n], s)]) else Ok(before)
  }

  /** The `similarity` field of each demo case, the sort key of
      `_find_similar_cases`.  The full analyzer has its own projection over its
      own case record, which has different fields. */
  function Similarities(cs: seq<MockCase>): (s: seq<real>)
    ensures |s| == |cs| && forall k :: 0 <= k < |cs| ==> s[k] == cs[k].similarity
  {
    seq(|cs|, k requires 0 <= k < |cs| => cs[k].similarity)
  }

  /** `similar.sort(key=similarity, reverse=True)`: Python's stable sort puts
      case `Rank(...)[k]` at position `k`. */
  function SortBySimilarity(cs: seq<MockCase>): (r: seq<MockCase>)
    ensures |r| == |cs|
  {
    Ranking.RankIsStableDescending(Similarities(cs));
    Ranking.Pick(cs, Ranking.Rank(Similarities(cs)))
  }

  /** The sorted list is a permutation of the cases, best first, with equal
      scores in their original order. */
  lemma SortBySimilaritySpec(cs: seq<MockCase>)
    ensures var r, order := SortBySimilarity(cs), Ranking.Rank(Similarities(cs));
      && multiset(r) == multiset(cs)
      && |order| == |cs|
      && (forall k :: 0 <= k < |cs| ==> order[k] < |cs| && r[k] == cs[order[k]])
      && (forall j :: 0 <= j < |cs| ==> j in order)
      && (forall p, q :: 0 <= p < q < |cs| ==> order[p] != order[q])
      && (forall p, q :: 0 <= p < q < |r| ==> r[p].similarity >= r[q].similarity)
      && (forall p, q :: 0 <= p < q < |r| && r[p].similarity == r[q].similarity ==> order[p] < order[q])
  {
    var s := Similarities(cs);
    var order := Ranking.Rank(s);
    Ranking.RankIsStableDescending(s);
    Ranking.RankPrefixOrdered(s, |s|);
    Ranking.RankedIsPermutation(s, cs);
    forall p, q | 0 <= p < q < |cs| ensures order[p] != order[q] {
      assert Ranking.Before(s, order[p], order[q]);
    }
  }

  /** `_find_similar_cases`: the loop scoring each ticket and appending the
      cases above 0.5, then the in-place sort. */
  method FindSimilarCases(issueType: string, tickets: seq<Ticket>, draws: seq<real>) returns (r: Result<seq<MockCase>>)
    requires |draws| == |tickets| && UnitDraws(draws)
    ensures r.Err? <==> Candidates(issueType, tickets, draws).Err?
    ensures r.Ok? ==> r.value == SortBySimilarity(Candidates(issueType, tickets, draws).value)
  {
    var similar: seq<MockCase> := [];
    var i := 0;
    while i < |tickets|
      invariant 0 <= i <= |tickets|
      invariant Candidates(issueType, tickets[..i], draws[..i]) == Ok(similar)
    {
      assert tickets[..i + 1][..i] == tickets[..i] && draws[..i + 1][..i] == draws[..i];
      var score := Score(issueType, tickets[i], draws[i]);
      if score.Err? {
        CandidatesErrSticks(issueType, tickets, draws, i + 1);
        return Err(score.error);
      }
      if score.value > 0.5 {
        similar := similar + [CaseOf(tickets[i], score.value)];
      }
      i := i + 1;
    }
    assert tickets[..i] == tickets && draws[..i] == draws;
    similar := SortBySimilarity(similar);
    r := Ok(similar);
  }

  /** A ticket that cannot be scored makes the whole search fail. */
  lemma {:induction false} CandidatesErrSticks(issueType: string, tickets: seq<Ticket>, draws: seq<real>, i: nat)
    requires |draws| == |tickets| && UnitDraws(draws) && i <= |tickets|
    requires Candidates(issueType, tickets[..i], draws[..i]).Err?
    ensures Candidates(issueType, tickets, draws).Err?
    decreases |tickets| - i
  {
    if i < |tickets| {
      assert tickets[..i + 1][..i] == tickets[..i] && draws[..i + 1][..i] == draws[..i];
      CandidatesErrSticks(issueType, tickets, draws, i + 1);
    } else {
      assert tickets[..i] == tickets && draws[..i] == draws;
    }
  }

  // ---------------------------------------------------------------- solution, priority, time

  const Solutions: seq<(string, string)> :=
    [("installation", "Try disabling antivirus software temporarily and retry the installation process."),
     ("payment", "Verify payment gateway settings and SSL certificate configuration."),
     ("authentication", "Clear browser cache and cookies, then try logging in again."),
     ("api", "Check API endpoint configuration and authentication credentials."),
     ("performance", "Monitor system resources and consider database optimization."),
     ("email", "Verify SMTP server settings and email credentials."),
     ("general", "Please provide more details about the specific issue you are experiencing.")]

  /** `solutions.get(issue_type, solutions['general'])`. */
  function BaseSolution(issueType: string): string
  {
    var k := FirstLabelIndex(issueType);
    if k < |IssueKeywords| then Solutions[k].1 else Solutions[6].1
  }

  const SuffixIntro: string := " Based on similar cases, you might also try: "

  /** `_generate_solution`: the canned text for the type, with the first
      case's solution appended when that case scores above 0.8. */
  function GenerateSolution(issueType: string, cases: seq<MockCase>): (r: string)
    ensures |r| >= |BaseSolution(issueType)| && r[..|BaseSolution(issueType)|] == BaseSolution(issueType)
    ensures r != BaseSolution(issueType) <==> |cases| > 0 && cases[0].similarity > 0.8
    ensures |cases| > 0 && cases[0].similarity > 0.8 ==>
      r[|BaseSolution(issueType)|..] == SuffixIntro + Display(cases[0].solution)
  {
    var base := BaseSolution(issueType);
    if |cases| > 0 && cases[0].similarity > 0.8 then
      var r := base + SuffixIntro + Display(cases[0].solution);
      assert |r| > |base|;
      assert r[..|base|] == base;
      assert r[|base|..] == SuffixIntro + Display(cases[0].solution);
      r
    else base
  }

  /** `_determine_priority`. */
  function DeterminePriority(sentiment: string, issueType: string): (p: string)
    ensures p == "High" <==> sentiment == "frustrated" || issueType == "payment" || issueType == "authentication"
    ensures p == "Medium" <==> p != "High" && (issueType == "performance" || issueType == "email")
    ensures p == "Low" <==> p != "High" && p != "Medium"
  {
    if sentiment == "frustrated" || issueType in ["payment", "authentication"] then "High"
    else if issueType in ["performance", "email"] then "Medium"
    else "Low"
  }

  const TimeEstimates: seq<real> := [1.5, 2.0, 0.5, 3.0, 4.0, 1.0, 2.0]

  /** `_estimate_resolution_time`: the table value, 2.0 for any type not in
      the table. */
  function EstimateResolutionTime(issueType: string): (h: real)
    ensures h in TimeEstimates
    ensures issueType !in IssueTypes ==> h == 2.0
    ensures forall k :: 0 <= k < |IssueTypes| && IssueTypes[k] == issueType ==> h == TimeEstimates[k]
  {
    var k := FirstLabelIndex(issueType);
    assert forall j :: 0 <= j < |IssueKeywords| ==> IssueKeywords[j].0 == IssueTypes[j];
    if k < |IssueKeywords| then TimeEstimates[k] else TimeEstimates[6]
  }

  // ---------------------------------------------------------------- the whole pass

  datatype MockResult = MockResult(summary: string, extractedIssue: string, suggestedSolution: string,
                                   confidenceScore: real, similarCases: seq<MockCase>, priority: string,
                                   estimatedResolutionTime: real)

  /** `_get_default_result`. */
  const DefaultResult: MockResult :=
    MockResult("Unable to process conversation", "Processing Error", "Please try again or contact support",
               0.0, [], "Medium", 2.0)

  function Take3(cs: seq<MockCase>): (r: seq<MockCase>)
    ensures |r| <= 3 && |r| <= |cs| && r == cs[..|r|] && (|cs| >= 3 ==> |r| == 3) && (|cs| < 3 ==> r == cs)
  {
    if |cs| <= 3 then cs else cs[..3]
  }

  /** `process`: the result dictionary, or the default result when scoring a
      ticket raises. */
  method Process(chatText: string, tickets: seq<Ticket>, draws: seq<real>) returns (r: MockResult)
    requires |draws| == |tickets| && UnitDraws(draws)
    ensures Candidates(ClassifyIssue(chatText), tickets, draws).Err? ==> r == DefaultResult
    ensures Candidates(ClassifyIssue(chatText), tickets, draws).Ok? ==>
      var issueType := ClassifyIssue(chatText);
      var sentiment := AnalyzeSentiment(chatText);
      var sorted := SortBySimilarity(Candidates(issueType, tickets, draws).value);
      && r.summary == "Customer has a " + issueType + " issue with " + sentiment + " sentiment"
      && r.extractedIssue == Title(issueType) + " Problem"
      && r.suggestedSolution == GenerateSolution(issueType, sorted)
      && r.confidenceScore == (if issueType == "general" then 0.7 else 0.9) + (if |chatText| > 100 then 0.1 else 0.0)
      && r.similarCases == Take3(sorted)
      && r.priority == DeterminePriority(sentiment, issueType)
      && r.estimatedResolutionTime == EstimateResolutionTime(issueType)
  {
    var issueType := ClassifyIssue(chatText);
    var sentiment := AnalyzeSentiment(chatText);
    var confidence := CalculateConfidence(chatText, issueType);
    var found := FindSimilarCases(issueType, tickets, draws);
    if found.Err? {
      return DefaultResult;
    }
    var similar := found.value;
    var solution := GenerateSolution(issueType, similar);
    r := MockResult("Customer has a " + issueType + " issue with " + sentiment + " sentiment",
                    Title(issueType) + " Problem", solution, confidence, Take3(similar),
                    DeterminePriority(sentiment, issueType), EstimateResolutionTime(issueType));
  }

  /** A case left out of the first three sorted cases scores no higher than
      any listed one. */
  lemma LeftOutScoresLower(cs: seq<MockCase>, k: nat, j: nat)
    requires k < |Take3(SortBySimilarity(cs))| && j < |cs| && cs[j] !in Take3(SortBySimilarity(cs))
    ensures Take3(SortBySimilarity(cs))[k].similarity >= cs[j].similarity
  {
    var sorted := SortBySimilarity(cs);
    var listed := Take3(sorted);
    SortBySimilaritySpec(cs);
    var order := Ranking.Rank(Similarities(cs));
    assert j in order;
    var p :| 0 <= p < |order| && order[p] == j;
    assert sorted[p] == cs[j];
    assert listed[k] == sorted[k];
  }

  /** The first three of any case list sorted by similarity: the best ones,
      best first. */
  lemma Take3Sorted(cs: seq<MockCase>)
    ensures var listed := Take3(SortBySimilarity(cs));
      && |listed| == (if |cs| < 3 then |cs| else 3)
      && (forall k :: 0 <= k < |listed| ==> listed[k] in cs)
      && (forall p, q :: 0 <= p < q < |listed| ==> listed[p].similarity >= listed[q].similarity)
      && (forall k, j :: 0 <= k < |listed| && 0 <= j < |cs| && cs[j] !in listed ==>
            listed[k].similarity >= cs[j].similarity)
  {
    var sorted := SortBySimilarity(cs);
    var listed := Take3(sorted);
    SortBySimilaritySpec(cs);
    var order := Ranking.Rank(Similarities(cs));
    forall k | 0 <= k < |listed| ensures listed[k] in cs {
      assert listed[k] == sorted[k] == cs[order[k]];
    }
    forall p, q | 0 <= p < q < |listed| ensures listed[p].similarity >= listed[q].similarity {
      assert listed[p] == sorted[p] && listed[q] == sorted[q];
    }
    forall k, j | 0 <= k < |listed| && 0 <= j < |cs| && cs[j] !in listed
      ensures listed[k].similarity >= cs[j].similarity
    {
      LeftOutScoresLower(cs, k, j);
    }
  }

  /** The listed cases are the best three candidates, each above 0.5, best
      first. */
  lemma ListedCasesAreBest(issueType: string, tickets: seq<Ticket>, draws: seq<real>)
    requires |draws| == |tickets| && UnitDraws(draws)
    requires Candidates(issueType, tickets, draws).Ok?
    ensures var cs := Candidates(issueType, tickets, draws).value;
      var listed := Take3(SortBySimilarity(cs));
      && |listed| == (if |cs| < 3 then |cs| else 3)
      && (forall k :: 0 <= k < |listed| ==> listed[k].similarity > 0.5)
      && (forall p, q :: 0 <= p < q < |listed| ==> listed[p].similarity >= listed[q].similarity)
      && (forall k, j :: 0 <= k < |listed| && 0 <= j < |cs| && cs[j] !in listed ==>
            listed[k].similarity >= cs[j].similarity)
  {
    var cs := Candidates(issueType, tickets, draws).value;
    Take3Sorted(cs);
    var listed := Take3(SortBySimilarity(cs));
    forall k | 0 <= k < |listed| ensures listed[k].similarity > 0.5 {
      var j :| 0 <= j < |cs| && cs[j] == listed[k];
    }
  }

  // ---------------------------------------------------------------- validate_result

  const RequiredKeys: seq<string> := ["summary", "extracted_issue", "suggested_solution", "confidence_score"]

  /** `f"No {key.replace('_', ' ')} available"`. */
  function Placeholder(key: string): string
  {
    "No " + ReplaceChar(key, '_', ' ') + " available"
  }

  /** `float(v)`: numbers and booleans convert; None, lists, dicts and (in
      this model) strings do not. */
  function ToFloat(v: Value): Option<real>
  {
    match v
    case Num(x) => Some(x)
    case Bool(b) => Some(if b then 1.0 else 0.0)
    case _ => None
  }

  function Clamp01(x: real): (r: real)
    ensures 0.0 <= r <= 1.0
    ensures 0.0 <= x <= 1.0 ==> r == x
  {
    if x < 0.0 then 0.0 else if x > 1.0 then 1.0 else x
  }

  /** The first `k` required keys filled in where missing. */
  function FillMissing(m: map<string, Value>, k: nat): (r: map<string, Value>)
    requires k <= |RequiredKeys|
    ensures forall key :: key in m ==> key in r && r[key] == m[key]
    ensures forall j :: 0 <= j < k ==> RequiredKeys[j] in r
    ensures forall key :: key in r && key !in m ==> exists j :: 0 <= j < k && key == RequiredKeys[j] && r[key] == Str(Placeholder(key))
  {
    if k == 0 then m
    else
      var s := FillMissing(m, k - 1);
      var key := RequiredKeys[k - 1];
      if key in s then s else s[key := Str(Placeholder(key))]
  }

  /** The `try` block on the confidence: `float(...)` clamped to [0, 1], or
      0.0 when the conversion raises. */
  function ClampConfidence(m: map<string, Value>): (r: map<string, Value>)
    requires "confidence_score" in m
  {
    var c := ToFloat(m["confidence_score"]);
    m["confidence_score" := Num(if c.Some? then Clamp01(c.value) else 0.0)]
  }

  /** `similar_cases` replaced by [] when it is missing or not a list. */
  function EnsureCasesList(m: map<string, Value>): map<string, Value>
  {
    if "similar_cases" in m && m["similar_cases"].List? then m else m["similar_cases" := List([])]
  }

  /** What `validate_result` leaves in a dictionary. */
  function Validated(m: map<string, Value>): map<string, Value>
  {
    var filled := FillMissing(m, |RequiredKeys|);
    assert RequiredKeys[3] == "confidence_score";
    EnsureCasesList(ClampConfidence(filled))
  }

  /** After validation every required key is present, the confidence is a
      number in [0, 1], `similar_cases` is a list, a confidence already in
      [0, 1] is kept, and every other entry is as it was. */
  lemma ValidatedSpec(m: map<string, Value>)
    ensures var r := Validated(m);
      && (forall j :: 0 <= j < |RequiredKeys| ==> RequiredKeys[j] in r)
      && "similar_cases" in r && r["similar_cases"].List?
      && r["confidence_score"].Num? && 0.0 <= r["confidence_score"].x <= 1.0
      && (("confidence_score" in m && m["confidence_score"].Num? && 0.0 <= m["confidence_score"].x <= 1.0)
            ==> r["confidence_score"] == m["confidence_score"])
      && ("similar_cases" in m && m["similar_cases"].List? ==> r["similar_cases"] == m["similar_cases"])
      && (forall key :: key in m && key != "confidence_score" && key != "similar_cases" ==> r[key] == m[key])
  {
    assert RequiredKeys[3] == "confidence_score";
  }

  /** Filling in keys that are all present changes nothing. */
  lemma {:induction false} FillMissingPresent(m: map<string, Value>, k: nat)
    requires k <= |RequiredKeys|
    requires forall j :: 0 <= j < k ==> RequiredKeys[j] in m
    ensures FillMissing(m, k) == m
  {
    if k > 0 {
      FillMissingPresent(m, k - 1);
    }
  }

  /** Validating twice is validating once. */
  lemma ValidatedIdempotent(m: map<string, Value>)
    ensures Validated(Validated(m)) == Validated(m)
  {
    var r := Validated(m);
    ValidatedSpec(m);
    FillMissingPresent(r, |RequiredKeys|);
    var x := r["confidence_score"].x;
    assert ToFloat(r["confidence_score"]) == Some(x) && Clamp01(x) == x;
    assert ClampConfidence(r) == r;
    assert EnsureCasesList(r) == r;
  }

  /** One more required key filled in. */
  lemma FillMissingStep(m: map<string, Value>, i: nat)
    requires i < |RequiredKeys|
    ensures FillMissing(m, i + 1) == if RequiredKeys[i] in FillMissing(m, i) then FillMissing(m, i)
      else FillMissing(m, i)[RequiredKeys[i] := Str(Placeholder(RequiredKeys[i]))]
  {
  }

  /** Once every required key is filled in, the confidence is present. */
  lemma FilledHasConfidence(m: map<string, Value>)
    ensures "confidence_score" in FillMissing(m, |RequiredKeys|)
  {
    assert RequiredKeys[3] == "confidence_score";
  }

  /** A Python object reference; `validate_result` changes the dictionary it
      is given in place. */
  class ResultObject {
    var value: Value

    constructor (v: Value)
      ensures value == v
    {
      value := v;
    }
  }

  /** `validate_result`: False for anything but a dict; otherwise the
      dictionary is cleaned in place and True returned. */
  method ValidateResult(result: ResultObject) returns (ok: bool)
    modifies result
    ensures ok <==> old(result.value).Dict?
    ensures !ok ==> result.value == old(result.value)
    ensures ok ==> result.value == Dict(Validated(old(result.value).entries))
  {
    if !result.value.Dict? {
      return false;
    }
    var m := result.value.entries;
    var i := 0;
    while i < |RequiredKeys|
      invariant 0 <= i <= |RequiredKeys|
      invariant result.value == Dict(FillMissing(m, i))
    {
      var key := RequiredKeys[i];
      FillMissingStep(m, i);
      if key !in result.value.entries {
        result.value := Dict(result.value.entries[key := Str(Placeholder(key))]);
      }
      i := i + 1;
    }
    FilledHasConfidence(m);
    result.value := Dict(ClampConfidence(result.value.entries));
    if "similar_cases" !in result.value.entries || !result.value.entries["similar_cases"].List? {
      result.value := Dict(result.value.entries["similar_cases" := List([])]);
    }
    ok := true;
  }
}
