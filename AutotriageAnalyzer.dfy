/** The full ticket analyzer (`TicketAnalyzer` of the Autotriage package):
    keyword rules for priority and team, selection of the most similar
    historical tickets, a weighted confidence score, a resolution-time
    estimate and the action checklist.  Similarity scores, language-model
    replies, the random jitter factor and the standard deviation are supplied by the
    caller, since they come from TF-IDF, a remote model and `random`. */
module AutotriageAnalyzer {
  import opened Common
  import opened Text
  import opened Numeric
  import Ranking

  const PriorityLevels: seq<string> := ["Low", "Medium", "High", "Critical"]
  const Teams: seq<string> := ["Technical", "Billing", "Product", "Security", "Customer Success"]

  /** Priority keywords, checked in this order. */
  const PriorityKeywords: seq<(string, seq<string>)> := [
    ("Critical", ["urgent", "emergency", "critical", "broken", "down", "error"]),
    ("High", ["important", "serious", "problem", "failing"]),
    ("Medium", ["issue", "bug", "difficulty"]),
    ("Low", ["question", "help", "guidance"])
  ]

  /** Team routing rules, checked in this order. */
  const RoutingRules: seq<(string, seq<string>)> := [
    ("Technical", ["installation", "error", "bug", "crash", "technical"]),
    ("Billing", ["payment", "charge", "invoice", "billing"]),
    ("Security", ["password", "access", "security", "authentication"]),
    ("Product", ["feature", "functionality", "product"]),
    ("Customer Success", ["account", "subscription", "upgrade"])
  ]

  /** The historical-data dictionary: parallel lists of past tickets.  The
      `resolution_times` key may be absent. */
  datatype HistoricalData = HistoricalData(
    issues: seq<string>,
    solutions: seq<string>,
    priorities: seq<string>,
    sentiments: seq<string>,
    resolutionTimes: Option<seq<real>>)

  /** One entry of `similar_cases`. */
  datatype SimilarCase = SimilarCase(
    issue: string, solution: string, similarity: real, priority: string, sentiment: string)

  datatype AnalysisResult = AnalysisResult(
    summary: string,
    issue: string,
    solution: string,
    priority: string,
    team: string,
    estimatedTime: real,
    confidence: real,
    similarCases: seq<SimilarCase>,
    actionItems: seq<string>,
    sentiment: string)

  /** What the language model answered to each of the four prompts: `None`
      when no model is configured or the call failed. */
  datatype Replies = Replies(
    summary: Option<string>, issue: Option<string>, sentiment: Option<string>, solution: Option<string>)

  // ---------------------------------------------------------------- keyword rules

  /** A negative or urgent sentiment makes the ticket High; otherwise the first
      priority whose keyword occurs in the lowercased issue, else Medium. */
  function DeterminePriority(issue: string, sentiment: string): (r: string)
    ensures r in PriorityLevels
    ensures Lower(sentiment) in ["negative", "urgent"] ==> r == "High"
  {
    if Lower(sentiment) in ["negative", "urgent"] then "High"
    else
      var k := FirstMatch(Lower(issue), PriorityKeywords);
      if k < |PriorityKeywords| then PriorityKeywords[k].0 else "Medium"
  }

  /** Without an escalating sentiment, the priority is the label of the first
      keyword row that matches, or Medium when none does. */
  lemma PriorityFollowsKeywords(issue: string, sentiment: string, k: nat)
    requires Lower(sentiment) !in ["negative", "urgent"]
    requires k <= |PriorityKeywords|
    requires k < |PriorityKeywords| ==> ContainsAny(Lower(issue), PriorityKeywords[k].1)
    requires forall j :: 0 <= j < k ==> !ContainsAny(Lower(issue), PriorityKeywords[j].1)
    ensures DeterminePriority(issue, sentiment)
         == if k < |PriorityKeywords| then PriorityKeywords[k].0 else "Medium"
  {
    FirstLabelIs(Lower(issue), PriorityKeywords, "Medium", k);
  }

  /** The first team whose keyword occurs in the lowercased issue, else
      Technical.  The priority argument plays no part. */
  function DetermineTeam(issue: string, priority: string): (r: string)
    ensures r in Teams
  {
    var k := FirstMatch(Lower(issue), RoutingRules);
    if k < |RoutingRules| then RoutingRules[k].0 else "Technical"
  }

  lemma TeamFollowsRules(issue: string, priority: string, k: nat)
    requires k <= |RoutingRules|
    requires k < |RoutingRules| ==> ContainsAny(Lower(issue), RoutingRules[k].1)
    requires forall j :: 0 <= j < k ==> !ContainsAny(Lower(issue), RoutingRules[j].1)
    ensures DetermineTeam(issue, priority)
         == if k < |RoutingRules| then RoutingRules[k].0 else "Technical"
  {
    FirstLabelIs(Lower(issue), RoutingRules, "Technical", k);
  }

  /** The word "error" anywhere in the issue, in any case, makes the ticket
      Critical and sends it to Technical, whatever else it mentions, unless the
      sentiment escalates it to High. */
  lemma ErrorIsCriticalAndTechnical(issue: string, sentiment: string)
    requires Contains(issue, "error")
    requires Lower(sentiment) !in ["negative", "urgent"]
    ensures DeterminePriority(issue, sentiment) == "Critical"
    ensures forall p :: DetermineTeam(issue, p) == "Technical"
  {
    LowerContains(issue, "error");
    assert Lower("error") == "error";
    ContainsAnyAt(Lower(issue), PriorityKeywords[0].1, 5);
    PriorityFollowsKeywords(issue, sentiment, 0);
    ContainsAnyAt(Lower(issue), RoutingRules[0].1, 1);
    forall p ensures DetermineTeam(issue, p) == "Technical" {
      TeamFollowsRules(issue, p, 0);
    }
  }

  /** The payment-gateway ticket: Critical, and routed to Technical because the
      Technical rule, which lists "error", is checked before Billing. */
  lemma PaymentGatewayTicket()
    ensures DeterminePriority("payment gateway SSL certificate error", "neutral") == "Critical"
    ensures DetermineTeam("payment gateway SSL certificate error", "Critical") == "Technical"
  {
    var issue := "payment gateway SSL certificate error";
    assert OccursAt(issue, "error", 32);
    assert Lower("neutral") == "neutral";
    ErrorIsCriticalAndTechnical(issue, "neutral");
  }

  // ---------------------------------------------------------------- similarity

  /** The cosine `c` times the jitter `factor`, drawn by
      `random.uniform(0.95, 1.05)`, clamped to [0, 1] and rounded to two
      places. */
  function JitteredScore(c: real, factor: real): (r: real)
    ensures 0.0 <= r <= 1.0
  {
    Round2Within(Min(Max(c * factor, 0.0), 1.0), 0, 100);
    Round2(Min(Max(c * factor, 0.0), 1.0))
  }

  /** `calculate_similarity`: the jittered cosine similarity of the two TF-IDF
      vectors, or 0.3 when vectorising fails (`None`). */
  function CalculateSimilarity(cosine: Option<real>, factor: real): (r: real)
    ensures 0.0 <= r <= 1.0
    ensures cosine.None? ==> r == 0.3
  {
    match cosine
    case None => 0.3
    case Some(c) => JitteredScore(c, factor)
  }

  /** For a fixed jitter, a larger cosine never gives a smaller similarity. */
  lemma SimilarityMonotone(c1: real, c2: real, factor: real)
    requires 0.95 <= factor <= 1.05 && c1 <= c2
    ensures CalculateSimilarity(Some(c1), factor) <= CalculateSimilarity(Some(c2), factor)
  {
    ScaleMonotone(c1, c2, factor);
    ClampMonotone(c1 * factor, c2 * factor, 0.0, 1.0);
    Round2Monotone(Min(Max(c1 * factor, 0.0), 1.0), Min(Max(c2 * factor, 0.0), 1.0));
    assert CalculateSimilarity(Some(c1), factor) == JitteredScore(c1, factor);
    assert CalculateSimilarity(Some(c2), factor) == JitteredScore(c2, factor);
  }

  /** Texts with no term in common score 0, whatever the jitter. */
  lemma DisjointTextsScoreZero(factor: real)
    ensures CalculateSimilarity(Some(0.0), factor) == 0.0
  {
    assert 0.0 * factor == 0.0;
    assert Round2(0.0) == 0.0;
  }

  // ---------------------------------------------------------------- similar cases

  /** The case dictionary built for corpus index `idx`: indexing a
      `solutions` list that is too short, or a non-empty `priorities` or
      `sentiments` list that is too short, raises IndexError. */
  function CaseAt(h: HistoricalData, scores: seq<real>, idx: nat): (r: Result<SimilarCase>)
    requires idx < |h.issues| == |scores|
    ensures r.Err? <==> idx >= |h.solutions|
                        || (|h.priorities| > 0 && idx >= |h.priorities|)
                        || (|h.sentiments| > 0 && idx >= |h.sentiments|)
    ensures r.Err? ==> r.error == IndexError
    ensures r.Ok? ==> r.value.issue == h.issues[idx] && r.value.similarity == scores[idx]
    ensures r.Ok? && |h.priorities| == 0 ==> r.value.priority == "Medium"
    ensures r.Ok? && |h.sentiments| == 0 ==> r.value.sentiment == "Neutral"
  {
    if idx >= |h.solutions| then Err(IndexError)
    else if |h.priorities| > 0 && idx >= |h.priorities| then Err(IndexError)
    else if |h.sentiments| > 0 && idx >= |h.sentiments| then Err(IndexError)
    else
      Ok(SimilarCase(
        h.issues[idx], h.solutions[idx], scores[idx],
        if |h.priorities| > 0 then h.priorities[idx] else "Medium",
        if |h.sentiments| > 0 then h.sentiments[idx] else "Neutral"))
  }

  /** The cases for the selected indices, in order, or the IndexError the
      first faulty one raises. */
  function CasesFor(h: HistoricalData, scores: seq<real>, sel: seq<nat>): (r: Result<seq<SimilarCase>>)
    requires |h.issues| == |scores|
    requires forall k :: 0 <= k < |sel| ==> sel[k] < |scores|
    ensures r.Err? ==> r.error == IndexError
    decreases |sel|
  {
    if |sel| == 0 then Ok([])
    else
      var init := CasesFor(h, scores, sel[..|sel| - 1]);
      var last := CaseAt(h, scores, sel[|sel| - 1]);
      if init.Err? then init
      else if last.Err? then Err(last.error)
      else Ok(init.value + [last.value])
  }

  /** The cases come out one per selected index, in order, and fail exactly
      when some selected index has no complete record. */
  lemma {:induction false} CasesForSpec(h: HistoricalData, scores: seq<real>, sel: seq<nat>)
    requires |h.issues| == |scores|
    requires forall k :: 0 <= k < |sel| ==> sel[k] < |scores|
    ensures var r := CasesFor(h, scores, sel);
      && (r.Ok? <==> forall k :: 0 <= k < |sel| ==> CaseAt(h, scores, sel[k]).Ok?)
      && (r.Ok? ==> |r.value| == |sel|
                    && forall k :: 0 <= k < |sel| ==> r.value[k] == CaseAt(h, scores, sel[k]).value)
    decreases |sel|
  {
    if |sel| > 0 {
      var init := sel[..|sel| - 1];
      CasesForSpec(h, scores, init);
      assert forall k :: 0 <= k < |init| ==> init[k] == sel[k];
    }
  }

  /** The indices `find_similar_cases` keeps: the three best-scoring corpus
      entries, in ranked order, that score above 0.2. */
  function SelectedIndices(scores: seq<real>): seq<nat>
  {
    Ranking.TopAbove(scores, 3, 0.2)
  }

  /** The specification of `find_similar_cases`. */
  function SimilarCases(h: HistoricalData, scores: seq<real>): Result<seq<SimilarCase>>
    requires |h.issues| == |scores|
  {
    CasesFor(h, scores, SelectedIndices(scores))
  }

  /** One step of the append loop over the top indices: an index above 0.2
      adds its case, or fails with its error; any other index adds nothing. */
  lemma CasesStep(h: HistoricalData, scores: seq<real>, top: seq<nat>, i: nat)
    requires |h.issues| == |scores| && Ranking.InRange(scores, top) && i < |top|
    requires CasesFor(h, scores, Ranking.Above(scores, top[..i], 0.2)).Ok?
    ensures var before := CasesFor(h, scores, Ranking.Above(scores, top[..i], 0.2)).value;
      var c := CaseAt(h, scores, top[i]);
      CasesFor(h, scores, Ranking.Above(scores, top[..i + 1], 0.2))
        == if scores[top[i]] <= 0.2 then Ok(before) else if c.Err? then Err(c.error) else Ok(before + [c.value])
  {
    var b := Ranking.Above(scores, top[..i], 0.2);
    Ranking.AboveSnoc(scores, top, i, 0.2);
    if scores[top[i]] > 0.2 {
      assert Ranking.Above(scores, top[..i + 1], 0.2) == b + [top[i]];
      CasesForSnoc(h, scores, b, top[i]);
    } else {
      assert Ranking.Above(scores, top[..i + 1], 0.2) == b;
    }
  }

  /** Appending one index to the selection appends its case, or fails. */
  lemma CasesForSnoc(h: HistoricalData, scores: seq<real>, sel: seq<nat>, idx: nat)
    requires |h.issues| == |scores| && idx < |scores|
    requires forall k :: 0 <= k < |sel| ==> sel[k] < |scores|
    requires CasesFor(h, scores, sel).Ok?
    ensures var c := CaseAt(h, scores, idx);
      CasesFor(h, scores, sel + [idx])
        == if c.Err? then Err(c.error) else Ok(CasesFor(h, scores, sel).value + [c.value])
  {
    var after := sel + [idx];
    assert after[..|after| - 1] == sel;
    assert after[|after| - 1] == idx;
  }

  /** A selected index without a complete record fails the whole search. */
  lemma FailedCaseFails(h: HistoricalData, scores: seq<real>, idx: nat)
    requires |h.issues| == |scores| && idx < |scores| && idx in SelectedIndices(scores) && scores[idx] > 0.2
    requires CaseAt(h, scores, idx).Err?
    ensures SimilarCases(h, scores) == Err(IndexError)
  {
    var sel := SelectedIndices(scores);
    var k :| 0 <= k < |sel| && sel[k] == idx;
    CasesForSpec(h, scores, sel);
  }

  /** The truncated ranking, filtered, is the selection. */
  lemma TopSelection(scores: seq<real>, ranked: seq<nat>, top: seq<nat>)
    requires ranked == Ranking.Rank(scores)
    requires top == ranked[..if 3 < |ranked| then 3 else |ranked|]
    ensures Ranking.InRange(scores, top)
    ensures Ranking.Above(scores, top, 0.2) == SelectedIndices(scores)
  {
  }

  /** `find_similar_cases`: rank the corpus by score (a stable descending sort),
      keep the first three and drop those scoring 0.2 or less. */
  method FindSimilarCases(h: HistoricalData, scores: seq<real>) returns (r: Result<seq<SimilarCase>>)
    requires |h.issues| == |scores|
    ensures r == SimilarCases(h, scores)
  {
    if |h.issues| == 0 {
      return Ok([]);
    }
    var ranked := Ranking.Rank(scores);
    var top := ranked[..if 3 < |ranked| then 3 else |ranked|];
    TopSelection(scores, ranked, top);
    var similar: seq<SimilarCase> := [];
    var i := 0;
    while i < |top|
      invariant 0 <= i <= |top|
      invariant CasesFor(h, scores, Ranking.Above(scores, top[..i], 0.2)) == Ok(similar)
    {
      var idx := top[i];
      CasesStep(h, scores, top, i);
      if scores[idx] > 0.2 {
        var c := CaseAt(h, scores, idx);
        if c.Err? {
          Ranking.AboveMembers(scores, top, 0.2);
          FailedCaseFails(h, scores, idx);
          return Err(c.error);
        }
        similar := similar + [c.value];
      }
      i := i + 1;
    }
    assert top[..i] == top;
    r := Ok(similar);
  }

  /** What the selection promises: at most three cases, each scoring above 0.2,
      best first and ties in corpus order, each carrying its corpus entry; and
      no corpus entry scoring above 0.2 is passed over for a lower-scoring one. */
  lemma SimilarCasesAreBest(h: HistoricalData, scores: seq<real>)
    requires |h.issues| == |scores|
    requires SimilarCases(h, scores).Ok?
    ensures var cs := SimilarCases(h, scores).value; var sel := SelectedIndices(scores);
      && |cs| == |sel| <= 3
      && (forall k :: 0 <= k < |cs| ==> cs[k].similarity > 0.2)
      && (forall p, q :: 0 <= p < q < |cs| ==> cs[p].similarity >= cs[q].similarity)
      && (forall k :: 0 <= k < |cs| ==> sel[k] < |scores| && cs[k].issue == h.issues[sel[k]])
      && (forall j :: 0 <= j < |scores| && scores[j] > 0.2 && j !in sel ==>
            |cs| == 3 && forall k :: 0 <= k < |cs| ==> cs[k].similarity >= scores[j])
  {
    var cs := SimilarCases(h, scores).value;
    var sel := SelectedIndices(scores);
    Ranking.TopAboveIsTop(scores, 3, 0.2);
    CasesForSpec(h, scores, sel);
    forall k | 0 <= k < |cs| ensures cs[k].similarity == scores[sel[k]] > 0.2 {
      assert cs[k] == CaseAt(h, scores, sel[k]).value;
    }
    forall p, q | 0 <= p < q < |cs| ensures cs[p].similarity >= cs[q].similarity {
      assert scores[sel[p]] >= scores[sel[q]];
    }
  }

  // ---------------------------------------------------------------- confidence

  /** `sorted(xs, reverse=True)`. */
  function SortedDesc(xs: seq<real>): (t: seq<real>)
    ensures |t| == |xs|
  {
    Ranking.Pick(xs, Ranking.Rank(xs))
  }

  /** The sorted list is non-increasing and a permutation of the input (every
      value as often as in the input), so it starts with the maximum. */
  lemma SortedDescIsSorted(xs: seq<real>)
    ensures var t := SortedDesc(xs);
      && multiset(t) == multiset(xs)
      && (forall p, q :: 0 <= p < q < |t| ==> t[p] >= t[q])
      && (forall j :: 0 <= j < |xs| ==> xs[j] in t)
      && (forall k :: 0 <= k < |t| ==> t[k] in xs)
      && (|xs| > 0 ==> t[0] == MaxOf(xs))
  {
    SortedDescNonIncreasing(xs);
    SortedDescHoldsInput(xs);
    SortedDescFromInput(xs);
    if |xs| > 0 {
      SortedDescStartsWithMax(xs);
    }
    Ranking.RankedIsPermutation(xs, xs);
  }

  /** The sorted list never increases. */
  lemma SortedDescNonIncreasing(xs: seq<real>)
    ensures var t := SortedDesc(xs); forall p, q :: 0 <= p < q < |t| ==> t[p] >= t[q]
  {
    Ranking.RankIsStableDescending(xs);
  }

  /** Every value of the sorted list comes from the input. */
  lemma SortedDescFromInput(xs: seq<real>)
    ensures var t := SortedDesc(xs); forall k :: 0 <= k < |t| ==> t[k] in xs
  {
    Ranking.RankIsStableDescending(xs);
  }

  /** A non-empty sorted list starts with the input's maximum. */
  lemma SortedDescStartsWithMax(xs: seq<real>)
    requires |xs| > 0
    ensures SortedDesc(xs)[0] == MaxOf(xs)
  {
    SortedDescNonIncreasing(xs);
    SortedDescHoldsInput(xs);
    SortedDescFromInput(xs);
    var t := SortedDesc(xs);
    var m := MaxOf(xs);
    var j :| 0 <= j < |xs| && xs[j] == m;
    var k :| 0 <= k < |t| && t[k] == xs[j];
    assert t[0] >= t[k] || k == 0;
    assert t[0] in xs;
  }

  /** Every input value has a place in the sorted list. */
  lemma SortedDescHoldsInput(xs: seq<real>)
    ensures forall j :: 0 <= j < |xs| ==> xs[j] in SortedDesc(xs)
  {
    Ranking.RankIsStableDescending(xs);
    var r := Ranking.Rank(xs);
    var t := SortedDesc(xs);
    forall j | 0 <= j < |xs| ensures xs[j] in t {
      assert j in r;
      var k :| 0 <= k < |r| && r[k] == j;
      assert t[k] == xs[j];
    }
  }

  /** The `similarity` field of each case, as `calculate_confidence` collects
      them. */
  function Similarities(cases: seq<SimilarCase>): (s: seq<real>)
    ensures |s| == |cases| && forall k :: 0 <= k < |cases| ==> s[k] == cases[k].similarity
  {
    seq(|cases|, k requires 0 <= k < |cases| => cases[k].similarity)
  }

  /** The weighted sum before clamping: 0.2, plus 40% of the best similarity,
      30% of the case count out of five, 20% of the mean similarity, and 10% of
      one minus the spread (`spread` is `np.std` of the similarities). */
  function RawConfidence(cases: seq<SimilarCase>, spread: real): real
    requires |cases| > 0
  {
    var sims := SortedDesc(Similarities(cases));
    var n := |cases|;
    var best := sims[0] * 0.4;
    var count := Min(n as real / 5.0, 1.0) * 0.3;
    var avg := Mean(sims) * 0.2;
    var variance := if n > 1 then spread else 0.0;
    var consistency := (1.0 - variance) * 0.1;
    0.2 + best + count + avg + consistency
  }

  /** `calculate_confidence`: 0.2 with no similar case, otherwise the weighted
      sum clamped to [0.1, 0.95] and rounded to two places. */
  function CalculateConfidence(cases: seq<SimilarCase>, spread: real): (r: real)
    ensures |cases| == 0 ==> r == 0.2
    ensures |cases| > 0 ==> 0.1 <= r <= 0.95
  {
    if |cases| == 0 then 0.2
    else
      var c := Min(Max(RawConfidence(cases, spread), 0.1), 0.95);
      Round2Within(c, 10, 95);
      Round2(c)
  }

  /** With similarities that are at least 0 and a spread of at most 1, any
      similar case puts the confidence at 0.26 or more: above the 0.2 given
      when nothing is found. */
  lemma EvidenceRaisesConfidence(cases: seq<SimilarCase>, spread: real)
    requires |cases| > 0
    requires forall k :: 0 <= k < |cases| ==> cases[k].similarity >= 0.0
    requires spread <= 1.0
    ensures CalculateConfidence(cases, spread) >= 0.26
  {
    var xs := Similarities(cases);
    var sims := SortedDesc(xs);
    SortedDescIsSorted(xs);
    forall k | 0 <= k < |sims| ensures 0.0 <= sims[k] <= sims[0] {
      assert sims[k] in xs;
    }
    MeanWithin(sims, 0.0, sims[0]);
    var n := |cases| as real;
    var count := Min(n / 5.0, 1.0);
    assert count >= 0.2;
    var variance := if |cases| > 1 then spread else 0.0;
    var raw := 0.2 + sims[0] * 0.4 + count * 0.3 + Mean(sims) * 0.2 + (1.0 - variance) * 0.1;
    assert raw == RawConfidence(cases, spread);
    assert raw >= 0.26;
    var c := Min(Max(raw, 0.1), 0.95);
    Round2Within(c, 26, 95);
  }

  // ---------------------------------------------------------------- resolution time

  /** Default resolution hours by priority; 24 for an unknown priority. */
  function PriorityTime(priority: string): (t: real)
    ensures t in {4.0, 8.0, 24.0, 48.0}
    ensures priority !in PriorityLevels ==> t == 24.0
  {
    if priority == "Critical" then 4.0
    else if priority == "High" then 8.0
    else if priority == "Medium" then 24.0
    else if priority == "Low" then 48.0
    else 24.0
  }

  /** The corpus indices whose similarity to the issue exceeds 0.7, in corpus
      order. */
  function CloseMatches(scores: seq<real>): (m: seq<nat>)
    ensures forall k :: 0 <= k < |m| ==> m[k] < |scores|
    ensures forall j :: 0 <= j < |scores| ==> (j in m <==> scores[j] > 0.7)
  {
    var all := Ranking.Indices(|scores|);
    forall j | 0 <= j < |scores| ensures j in all {
      assert all[j] == j;
    }
    Ranking.AboveMembers(scores, all, 0.7);
    Ranking.Above(scores, all, 0.7)
  }

  /** The recorded times of the indices `m`, in the order of `m`. */
  function MatchedTimes(rt: seq<real>, m: seq<nat>): (t: seq<real>)
    requires forall k :: 0 <= k < |m| ==> m[k] < |rt|
    ensures |t| == |m| && forall k :: 0 <= k < |m| ==> t[k] == rt[m[k]]
  {
    seq(|m|, k requires 0 <= k < |m| => rt[m[k]])
  }

  /** `estimate_resolution_time`: the mean recorded time of the close matches
      when there are any and `resolution_times` is present (IndexError when
      that list is too short), and otherwise the priority default. */
  function EstimateResolutionTime(priority: string, h: HistoricalData, scores: seq<real>): (r: Result<real>)
    requires |scores| == |h.issues|
    ensures |CloseMatches(scores)| == 0 || h.resolutionTimes.None? ==> r == Ok(PriorityTime(priority))
    ensures r.Err? <==> |CloseMatches(scores)| > 0 && h.resolutionTimes.Some?
                        && exists k :: 0 <= k < |CloseMatches(scores)|
                                       && CloseMatches(scores)[k] >= |h.resolutionTimes.value|
    ensures r.Err? ==> r.error == IndexError
    ensures r.Ok? && |CloseMatches(scores)| > 0 && h.resolutionTimes.Some? ==>
              r.value == Mean(MatchedTimes(h.resolutionTimes.value, CloseMatches(scores)))
  {
    var m := CloseMatches(scores);
    if |m| > 0 && h.resolutionTimes.Some? then
      var rt := h.resolutionTimes.value;
      if exists k :: 0 <= k < |m| && m[k] >= |rt| then Err(IndexError)
      else Ok(Mean(MatchedTimes(rt, m)))
    else Ok(PriorityTime(priority))
  }

  /** Only the recorded times of the close matches count: two histories whose
      `resolution_times` agree on every close match (present in both, equal,
      or missing from both) give the same estimate, whatever the other
      entries and the lengths of the lists. */
  lemma EstimateIgnoresUnmatched(priority: string, h: HistoricalData, h': HistoricalData, scores: seq<real>)
    requires |scores| == |h.issues| == |h'.issues|
    requires h.resolutionTimes.Some? <==> h'.resolutionTimes.Some?
    requires h.resolutionTimes.Some? ==>
      var rt, rt' := h.resolutionTimes.value, h'.resolutionTimes.value;
      forall j :: 0 <= j < |scores| && scores[j] > 0.7 ==>
        (j < |rt| <==> j < |rt'|) && (j < |rt| ==> rt[j] == rt'[j])
    ensures EstimateResolutionTime(priority, h, scores) == EstimateResolutionTime(priority, h', scores)
  {
    var m := CloseMatches(scores);
    if |m| > 0 && h.resolutionTimes.Some? {
      var rt, rt' := h.resolutionTimes.value, h'.resolutionTimes.value;
      forall k | 0 <= k < |m| ensures (m[k] < |rt| <==> m[k] < |rt'|) && (m[k] < |rt| ==> rt[m[k]] == rt'[m[k]]) {
        assert m[k] in m;
      }
      if forall k :: 0 <= k < |m| ==> m[k] < |rt| {
        assert MatchedTimes(rt, m) == MatchedTimes(rt', m);
      }
    }
  }

  /** When every close match took the same time `t`, the estimate is `t`. */
  lemma EstimateUniformTimes(priority: string, h: HistoricalData, scores: seq<real>, t: real)
    requires |scores| == |h.issues|
    requires exists j :: 0 <= j < |scores| && scores[j] > 0.7
    requires h.resolutionTimes.Some?
    requires forall j :: 0 <= j < |scores| && scores[j] > 0.7 ==>
               j < |h.resolutionTimes.value| && h.resolutionTimes.value[j] == t
    ensures EstimateResolutionTime(priority, h, scores) == Ok(t)
  {
    EstimateWithinRecordedTimes(priority, h, scores, t, t);
  }

  /** With close matches, each with a recorded time, the estimate lies
      between the smallest and largest matched time. */
  lemma EstimateWithinRecordedTimes(priority: string, h: HistoricalData, scores: seq<real>, lo: real, hi: real)
    requires |scores| == |h.issues|
    requires exists j :: 0 <= j < |scores| && scores[j] > 0.7
    requires h.resolutionTimes.Some?
    requires forall j :: 0 <= j < |scores| && scores[j] > 0.7 ==>
               j < |h.resolutionTimes.value| && lo <= h.resolutionTimes.value[j] <= hi
    ensures EstimateResolutionTime(priority, h, scores).Ok?
    ensures lo <= EstimateResolutionTime(priority, h, scores).value <= hi
  {
    var m := CloseMatches(scores);
    var j :| 0 <= j < |scores| && scores[j] > 0.7;
    assert j in m;
    var rt := h.resolutionTimes.value;
    forall k | 0 <= k < |m| ensures m[k] < |rt| && lo <= rt[m[k]] <= hi {
      assert m[k] in m;
    }
    MeanWithin(MatchedTimes(rt, m), lo, hi);
  }

  // ---------------------------------------------------------------- language-model text

  const PaymentSteps: string :=
    "1. Verify API keys and secrets are correct\n"
    + "2. Check signature generation parameters\n"
    + "3. Ensure all required fields are included\n"
    + "4. Test with sandbox environment first"
  const InstallationSteps: string :=
    "1. Check system requirements\n"
    + "2. Clear temporary files\n"
    + "3. Run as administrator\n"
    + "4. Disable antivirus temporarily"
  const GenericSteps: string :=
    "1. Verify configuration\n"
    + "2. Check system logs\n"
    + "3. Test in isolation\n"
    + "4. Contact support if issue persists"

  /** `_get_fallback_response`: payment steps when the prompt mentions a payment
      or transaction, installation steps when it mentions an installation,
      generic steps otherwise. */
  function FallbackResponse(prompt: string): (r: string)
    ensures r in {PaymentSteps, InstallationSteps, GenericSteps}
    ensures r == PaymentSteps <==> Contains(Lower(prompt), "payment") || Contains(Lower(prompt), "transaction")
    ensures r == InstallationSteps <==>
              !(Contains(Lower(prompt), "payment") || Contains(Lower(prompt), "transaction"))
              && Contains(Lower(prompt), "installation")
  {
    var p := Lower(prompt);
    if Contains(p, "payment") || Contains(p, "transaction") then PaymentSteps
    else if Contains(p, "installation") then InstallationSteps
    else GenericSteps
  }

  /** `query_llm`: the model's text when it gives a non-empty one, otherwise the
      fallback for the prompt; never empty. */
  function QueryLlm(prompt: string, reply: Option<string>): (r: string)
    ensures r != ""
    ensures reply.Some? && reply.value != "" ==> r == reply.value
    ensures !(reply.Some? && reply.value != "") ==> r == FallbackResponse(prompt)
  {
    if reply.Some? && reply.value != "" then reply.value else FallbackResponse(prompt)
  }

  function SummaryPrompt(conversation: string): string
  {
    "Summarize this customer support conversation in 1-2 sentences:\n\n" + conversation
  }

  function IssuePrompt(conversation: string): string
  {
    "Extract the main technical issue from this conversation:\n\n" + conversation
  }

  function SentimentPrompt(text: string): string
  {
    "Analyze the sentiment in this text and respond with one word (Positive/Negative/Neutral):\n" + text
  }

  function SolutionPrompt(issue: string): string
  {
    "Given this technical issue:\n" + issue + "\n\nProvide a clear, step-by-step solution in bullet points."
  }

  /** `self.query_llm(prompt).strip()`: whatever the prompt, the answer has
      no surrounding whitespace. */
  function StrippedAnswer(prompt: string, reply: Option<string>): (r: string)
    ensures r == [] || (!IsSpace(r[0]) && !IsSpace(r[|r| - 1]))
  {
    Strip(QueryLlm(prompt, reply))
  }

  /** `generate_summary` and `extract_issue`: the stripped model answer to
      their prompts. */
  function GenerateSummary(conversation: string, reply: Option<string>): string
  {
    StrippedAnswer(SummaryPrompt(conversation), reply)
  }

  function ExtractIssue(conversation: string, reply: Option<string>): string
  {
    StrippedAnswer(IssuePrompt(conversation), reply)
  }

  /** `analyze_sentiment`: the stripped, lowercased model text; it holds no
      capital letter. */
  function AnalyzeSentiment(text: string, reply: Option<string>): (r: string)
    ensures forall i :: 0 <= i < |r| ==> !IsUpper(r[i])
    ensures Lower(r) == r
  {
    var s := StrippedAnswer(SentimentPrompt(text), reply);
    LowerIdempotent(s);
    Lower(s)
  }

  /** A model answer of "Negative" (in any case and spacing) makes the ticket
      High, whatever the issue says. */
  lemma NegativeSentimentIsHigh(text: string, reply: string, issue: string)
    requires reply != "" && Lower(Strip(reply)) == "negative"
    ensures DeterminePriority(issue, AnalyzeSentiment(text, Some(reply))) == "High"
  {
    var s := AnalyzeSentiment(text, Some(reply));
    assert s == "negative";
    assert Lower(s) == "negative";
  }

  /** `generate_solution`: the recorded solution of the most similar case, or
      else the stripped model answer to the solution prompt. */
  function GenerateSolution(issue: string, cases: seq<SimilarCase>, reply: Option<string>): (r: string)
    ensures |cases| > 0 ==> r == cases[0].solution
    ensures |cases| == 0 ==> r == Strip(QueryLlm(SolutionPrompt(issue), reply))
  {
    if |cases| > 0 then cases[0].solution
    else Strip(QueryLlm(SolutionPrompt(issue), reply))
  }

  /** With no similar case and no model, an issue that mentions a payment gets
      the payment checklist, because the prompt embeds the issue. */
  lemma PaymentIssueFallback(issue: string)
    requires Contains(Lower(issue), "payment")
    ensures GenerateSolution(issue, [], None) == PaymentSteps
  {
    var a := "Given this technical issue:\n";
    var c := "\n\nProvide a clear, step-by-step solution in bullet points.";
    assert SolutionPrompt(issue) == a + issue + c;
    LowerAppend(a + issue, c);
    LowerAppend(a, issue);
    ContainsWithin(Lower(a), Lower(issue), Lower(c), "payment");
    assert FallbackResponse(SolutionPrompt(issue)) == PaymentSteps;
    PaymentStepsAreStripped();
  }

  lemma PaymentStepsAreStripped()
    ensures Strip(PaymentSteps) == PaymentSteps
  {
    var first, last := "1. Verify API keys and secrets are correct\n", "4. Test with sandbox environment first";
    assert first[0] == '1' && last[|last| - 1] == 't';
    assert PaymentSteps[0] == '1';
    assert PaymentSteps[|PaymentSteps| - 1] == 't';
    assert StripLeading(PaymentSteps) == PaymentSteps;
    assert StripTrailing(PaymentSteps) == PaymentSteps;
  }

  // ---------------------------------------------------------------- action items

  /** The action items of a ticket for `team` at `priority`: routing, priority
      and first response, then the two escalation steps exactly when the
      priority is Critical or High. */
  predicate ActionItemsFor(priority: string, team: string, actions: seq<string>)
  {
    && |actions| == (if priority in ["Critical", "High"] then 5 else 3)
    && actions[..3] == ["Route ticket to " + team + " team", "Set priority as " + priority,
                        "Send initial response to customer"]
    && (|actions| == 5 ==> actions[3..] == ["Schedule immediate team review", "Prepare escalation path if needed"])
  }

  /** `generate_action_items`: routing, priority and first-response steps, and
      two escalation steps appended for Critical and High tickets. */
  method GenerateActionItems(priority: string, team: string) returns (actions: seq<string>)
    ensures ActionItemsFor(priority, team, actions)
  {
    actions := ["Route ticket to " + team + " team", "Set priority as " + priority,
                "Send initial response to customer"];
    if priority in ["Critical", "High"] {
      actions := actions + ["Schedule immediate team review"];
      actions := actions + ["Prepare escalation path if needed"];
    }
  }

  // ---------------------------------------------------------------- the whole analysis

  /** A successful analysis of `conversation`: each field is the value its
      rule gives on the extracted issue and sentiment, priority and team are
      among the known ones, and the action items are those the priority and
      team call for. */
  predicate AnalysisOf(conversation: string, replies: Replies, h: HistoricalData,
                       caseScores: seq<real>, timeScores: seq<real>, spread: real, a: AnalysisResult)
    requires |caseScores| == |h.issues| && |timeScores| == |h.issues|
  {
    && a.summary == GenerateSummary(conversation, replies.summary)
    && a.issue == ExtractIssue(conversation, replies.issue)
    && a.sentiment == AnalyzeSentiment(conversation, replies.sentiment)
    && a.priority in PriorityLevels
    && a.team in Teams
    && a.team == DetermineTeam(a.issue, a.priority)
    && a.priority == DeterminePriority(a.issue, a.sentiment)
    && SimilarCases(h, caseScores) == Ok(a.similarCases)
    && a.solution == GenerateSolution(a.issue, a.similarCases, replies.solution)
    && a.confidence == CalculateConfidence(a.similarCases, spread)
    && EstimateResolutionTime(a.priority, h, timeScores) == Ok(a.estimatedTime)
    && ActionItemsFor(a.priority, a.team, a.actionItems)
  }

  /** `analyze_ticket`.  `caseScores` and `timeScores` are the similarity of
      the extracted issue to each corpus issue in the two passes (each pass
      draws its own jitter); `spread` is the standard deviation of the selected
      similarities.  An IndexError from either pass propagates. */
  method AnalyzeTicket(conversation: string, replies: Replies, h: HistoricalData,
                       caseScores: seq<real>, timeScores: seq<real>, spread: real) returns (r: Result<AnalysisResult>)
    requires |caseScores| == |h.issues| && |timeScores| == |h.issues|
    ensures r.Err? ==> r.error == IndexError
    ensures var priority := DeterminePriority(ExtractIssue(conversation, replies.issue),
                                              AnalyzeSentiment(conversation, replies.sentiment));
      r.Err? <==> SimilarCases(h, caseScores).Err? || EstimateResolutionTime(priority, h, timeScores).Err?
    ensures r.Ok? ==> AnalysisOf(conversation, replies, h, caseScores, timeScores, spread, r.value)
  {
    var summary := GenerateSummary(conversation, replies.summary);
    var issue := ExtractIssue(conversation, replies.issue);
    var sentiment := AnalyzeSentiment(conversation, replies.sentiment);
    var priority := DeterminePriority(issue, sentiment);
    var team := DetermineTeam(issue, priority);
    var found := FindSimilarCases(h, caseScores);
    if found.Err? {
      return Err(found.error);
    }
    var cases := found.value;
    var solution := GenerateSolution(issue, cases, replies.solution);
    var confidence := CalculateConfidence(cases, spread);
    var time := EstimateResolutionTime(priority, h, timeScores);
    if time.Err? {
      return Err(time.error);
    }
    var actions := GenerateActionItems(priority, team);
    r := Ok(AnalysisResult(summary, issue, solution, priority, team, time.value, confidence,
                           cases, actions, sentiment));
  }
}
