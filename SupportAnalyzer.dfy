/** The lean analyzer of the `support_ai` package: case-sensitive sentiment
    escalation, a three-level keyword priority, three-team routing, the top
    three TF-IDF matches above 0.1 and a confidence taken from the best match.
    The analyzer object owns a TF-IDF vectorizer that its similarity methods
    refit; the model records which documents it was last fitted on.  Cosine
    scores, numpy's argsort and the language-model texts are supplied by the
    caller. */
module SupportAnalyzer {
  import opened Common
  import opened Text
  import opened Numeric
  import Ranking

  /** Sentiments that escalate a ticket to High, compared without lowercasing. */
  const Escalating: seq<string> := ["urgent", "negative"]
  const CriticalWords: seq<string> := ["critical", "down", "error"]
  const HighWords: seq<string> := ["problem", "failing", "won't open"]

  const RoutingRules: seq<(string, seq<string>)> := [
    ("Technical", ["installation", "error", "bug", "crash", "technical", "router", "word", "software", "closing"]),
    ("Billing", ["payment", "charge", "invoice"]),
    ("Security", ["password", "access", "authentication"])
  ]

  /** The historical-data dictionary; a missing dictionary or a missing
      `issues` key reads as an empty `issues` list. */
  datatype HistoricalData = HistoricalData(issues: seq<string>, solutions: seq<string>)

  datatype SimilarCase = SimilarCase(issue: string, solution: string, similarity: real)

  datatype AnalysisResult = AnalysisResult(
    summary: string,
    issue: string,
    solution: string,
    priority: string,
    team: string,
    estimatedTime: real,
    confidence: real,
    similarCases: Option<seq<SimilarCase>>,
    actionItems: Option<seq<string>>,
    sentiment: string)

  /** The dataclass defaults of `AnalysisResult`. */
  const Defaults: AnalysisResult :=
    AnalysisResult("N/A", "N/A", "N/A", "Medium", "Technical", 2.0, 0.0, None, None, "Neutral")

  // ---------------------------------------------------------------- keyword rules

  /** `determine_priority`: never Low; High on an escalating sentiment. */
  function DeterminePriority(issue: string, sentiment: string): (r: string)
    ensures r in ["Critical", "High", "Medium"]
    ensures sentiment in Escalating ==> r == "High"
    ensures r == "Medium" <==>
              sentiment !in Escalating && !ContainsAny(Lower(issue), CriticalWords + HighWords)
  {
    ContainsAnyConcat(Lower(issue), CriticalWords, HighWords);
    if sentiment in Escalating then "High"
    else if ContainsAny(Lower(issue), CriticalWords) then "Critical"
    else if ContainsAny(Lower(issue), HighWords) then "High"
    else "Medium"
  }

  /** The three rules in their order: Critical exactly when no escalating
      sentiment and a critical keyword; High exactly when an escalating
      sentiment, or no critical keyword but a high one ("problem", "failing",
      "won't open"). */
  lemma PriorityFollowsKeywords(issue: string, sentiment: string)
    ensures DeterminePriority(issue, sentiment) == "Critical" <==>
              sentiment !in Escalating && ContainsAny(Lower(issue), CriticalWords)
    ensures DeterminePriority(issue, sentiment) == "High" <==>
              sentiment in Escalating
              || (!ContainsAny(Lower(issue), CriticalWords) && ContainsAny(Lower(issue), HighWords))
  {
  }

  /** A high keyword gives High when no critical keyword and no escalating
      sentiment decide first. */
  lemma HighKeywordGivesHigh(issue: string, sentiment: string, k: nat)
    requires sentiment !in Escalating && !ContainsAny(Lower(issue), CriticalWords)
    requires k < |HighWords| && Contains(Lower(issue), HighWords[k])
    ensures DeterminePriority(issue, sentiment) == "High"
  {
    ContainsAnyAt(Lower(issue), HighWords, k);
  }

  /** `ContainsAny` over a concatenated keyword list is the disjunction. */
  lemma ContainsAnyConcat(text: string, a: seq<string>, b: seq<string>)
    ensures ContainsAny(text, a + b) <==> ContainsAny(text, a) || ContainsAny(text, b)
  {
    if ContainsAny(text, a + b) {
      var k :| 0 <= k < |a + b| && Contains(text, (a + b)[k]);
      if k < |a| { assert (a + b)[k] == a[k]; } else { assert (a + b)[k] == b[k - |a|]; }
    }
    if ContainsAny(text, a) {
      var k :| 0 <= k < |a| && Contains(text, a[k]);
      assert (a + b)[k] == a[k];
    }
    if ContainsAny(text, b) {
      var k :| 0 <= k < |b| && Contains(text, b[k]);
      assert (a + b)[|a| + k] == b[k];
    }
  }

  /** The model is asked to answer "Positive", "Negative" or "Neutral"; the
      capitalised answers never match the lowercase escalation words, so
      "Negative" and "Urgent" rank a ticket exactly as "Neutral" does. */
  lemma CapitalisedSentimentDoesNotEscalate(issue: string)
    ensures DeterminePriority(issue, "Negative") == DeterminePriority(issue, "Neutral")
    ensures DeterminePriority(issue, "Urgent") == DeterminePriority(issue, "Neutral")
  {
    assert "Negative"[0] != "negative"[0] && "Negative"[0] != "urgent"[0];
    assert "Urgent"[0] != "negative"[0] && "Urgent"[0] != "urgent"[0];
    assert "Neutral"[0] != "negative"[0] && "Neutral"[0] != "urgent"[0];
  }

  /** A critical keyword gives Critical, ahead of any high keyword, unless the
      sentiment escalates the ticket. */
  lemma CriticalKeywordWins(issue: string, sentiment: string, k: nat)
    requires sentiment !in Escalating
    requires k < |CriticalWords| && Contains(Lower(issue), CriticalWords[k])
    ensures DeterminePriority(issue, sentiment) == "Critical"
  {
    ContainsAnyAt(Lower(issue), CriticalWords, k);
  }

  /** `determine_team`: only Technical, Billing or Security, in that order of
      precedence, Technical by default. */
  function DetermineTeam(issue: string): (r: string)
    ensures r in ["Technical", "Billing", "Security"]
  {
    FirstLabel(Lower(issue), RoutingRules, "Technical")
  }

  /** The first team, in the order Technical, Billing, Security, with a
      keyword in the lowercased issue gets the ticket; with none it goes to
      Technical. */
  lemma TeamFollowsRules(issue: string, k: nat)
    requires k <= |RoutingRules|
    requires k < |RoutingRules| ==> ContainsAny(Lower(issue), RoutingRules[k].1)
    requires forall j :: 0 <= j < k ==> !ContainsAny(Lower(issue), RoutingRules[j].1)
    ensures DetermineTeam(issue) == if k < |RoutingRules| then RoutingRules[k].0 else "Technical"
  {
    FirstLabelIs(Lower(issue), RoutingRules, "Technical", k);
  }

  /** "password" contains the Technical keyword "word", and Technical is
      checked first, so a password issue never reaches Security. */
  lemma PasswordGoesToTechnical(issue: string)
    requires Contains(Lower(issue), "password")
    ensures DetermineTeam(issue) == "Technical"
  {
    assert "password"[4..8] == "word";
    assert OccursAt("password", "word", 4);
    ContainsTransitive(Lower(issue), "password", "word");
    ContainsAnyAt(Lower(issue), RoutingRules[0].1, 6);
    FirstLabelIs(Lower(issue), RoutingRules, "Technical", 0);
  }

  // ---------------------------------------------------------------- selection

  /** `similarities.argsort()`: a permutation of the indices in ascending
      order of score.  numpy's default sort is not stable, so the order among
      equal scores is whatever the library returns. */
  predicate IsArgsort(s: seq<real>, order: seq<nat>)
  {
    && IndexList(s, order)
    && |order| == |s|
    && (forall j :: 0 <= j < |s| ==> j in order)
    && (forall p, q :: 0 <= p < q < |order| ==> s[order[p]] <= s[order[q]])
  }

  /** Every entry of `order` indexes `s`: all that collecting the cases needs. */
  predicate IndexList(s: seq<real>, order: seq<nat>)
  {
    forall k :: 0 <= k < |order| ==> order[k] < |s|
  }

  /** `order[-3:][::-1]`: the last three indices, last first. */
  function TopThree(order: seq<nat>): (t: seq<nat>)
    ensures |t| == if |order| < 3 then |order| else 3
    ensures forall k :: 0 <= k < |t| ==> t[k] == order[|order| - 1 - k]
  {
    var tail := order[if |order| < 3 then 0 else |order| - 3..];
    seq(|tail|, k requires 0 <= k < |tail| => tail[|tail| - 1 - k])
  }

  /** The indices `find_similar_cases` keeps: the top three that score above
      0.1, best first. */
  function Selected(s: seq<real>, order: seq<nat>): (sel: seq<nat>)
    requires IndexList(s, order)
    ensures forall k :: 0 <= k < |sel| ==> sel[k] < |s|
  {
    var top := TopThree(order);
    Ranking.Above(s, top, 0.1)
  }

  /** Every index has a solution to go with it. */
  predicate Covered(h: HistoricalData, idxs: seq<nat>)
  {
    forall k :: 0 <= k < |idxs| ==> idxs[k] < |h.issues| && idxs[k] < |h.solutions|
  }

  /** The case dictionaries for the given indices, in order, each with issue,
      solution and score from the same index. */
  function CasesOf(h: HistoricalData, s: seq<real>, idxs: seq<nat>): (cs: seq<SimilarCase>)
    requires |s| == |h.issues| && Covered(h, idxs)
    ensures |cs| == |idxs|
    ensures forall k :: 0 <= k < |idxs| ==>
      cs[k].issue == h.issues[idxs[k]] && cs[k].solution == h.solutions[idxs[k]] && cs[k].similarity == s[idxs[k]]
  {
    seq(|idxs|, k requires 0 <= k < |idxs| =>
      SimilarCase(h.issues[idxs[k]], h.solutions[idxs[k]], s[idxs[k]]))
  }

  /** The specification of `find_similar_cases` once the scores are known: the
      cases of the selected indices, or IndexError when `solutions` is shorter
      than a selected index needs. */
  function CasesFor(h: HistoricalData, s: seq<real>, order: seq<nat>): (r: Result<seq<SimilarCase>>)
    requires |s| == |h.issues| && IndexList(s, order)
  {
    var sel := Selected(s, order);
    if Covered(h, sel) then Ok(CasesOf(h, s, sel)) else Err(IndexError)
  }

  /** The search fails only with IndexError, exactly when a selected index has
      no solution; otherwise case `k` pairs the issue and the solution of the
      `k`-th selected index with its score. */
  lemma CasesForSpec(h: HistoricalData, s: seq<real>, order: seq<nat>)
    requires |s| == |h.issues| && IndexList(s, order)
    ensures var r, sel := CasesFor(h, s, order), Selected(s, order);
      && (r.Err? ==> r.error == IndexError)
      && (r.Ok? <==> forall k :: 0 <= k < |sel| ==> sel[k] < |h.solutions|)
      && (r.Ok? ==> |r.value| == |sel| && forall k :: 0 <= k < |sel| ==>
            r.value[k] == SimilarCase(h.issues[sel[k]], h.solutions[sel[k]], s[sel[k]]))
  {
  }

  /** One more index of `top` extends the cases by its own case exactly when
      it scores above 0.1: the cases can be collected by a left-to-right loop. */
  lemma CasesSnoc(h: HistoricalData, s: seq<real>, top: seq<nat>, i: nat)
    requires |s| == |h.issues| && Ranking.InRange(s, top) && i < |top|
    requires Covered(h, Ranking.Above(s, top[..i], 0.1))
    requires s[top[i]] > 0.1 ==> top[i] < |h.solutions|
    ensures var before, after := Ranking.Above(s, top[..i], 0.1), Ranking.Above(s, top[..i + 1], 0.1);
      && Covered(h, after)
      && CasesOf(h, s, after) == CasesOf(h, s, before)
           + (if s[top[i]] > 0.1 then [SimilarCase(h.issues[top[i]], h.solutions[top[i]], s[top[i]])] else [])
  {
    Ranking.AboveSnoc(s, top, i, 0.1);
    var before := Ranking.Above(s, top[..i], 0.1);
    if s[top[i]] > 0.1 {
      assert Ranking.Above(s, top[..i + 1], 0.1) == before + [top[i]];
      CasesOfSnoc(h, s, before, top[i]);
    } else {
      assert Ranking.Above(s, top[..i + 1], 0.1) == before;
    }
  }

  /** The case of one more covered index is appended to the cases. */
  lemma CasesOfSnoc(h: HistoricalData, s: seq<real>, idxs: seq<nat>, j: nat)
    requires |s| == |h.issues| && Covered(h, idxs) && j < |h.issues| && j < |h.solutions|
    ensures Covered(h, idxs + [j])
    ensures CasesOf(h, s, idxs + [j]) == CasesOf(h, s, idxs) + [SimilarCase(h.issues[j], h.solutions[j], s[j])]
  {
    var after := idxs + [j];
    assert forall k :: 0 <= k < |idxs| ==> after[k] == idxs[k];
  }

  /** A top index above 0.1 with no solution makes the search fail. */
  lemma UncoveredFails(h: HistoricalData, s: seq<real>, order: seq<nat>, i: nat)
    requires |s| == |h.issues| && IndexList(s, order) && i < |TopThree(order)|
    requires s[TopThree(order)[i]] > 0.1 && TopThree(order)[i] >= |h.solutions|
    ensures CasesFor(h, s, order) == Err(IndexError)
  {
    var top := TopThree(order);
    var sel := Selected(s, order);
    Ranking.AboveMembers(s, top, 0.1);
    assert top[i] in sel;
    var k :| 0 <= k < |sel| && sel[k] == top[i];
  }

  /** At most three indices, each scoring above 0.1, best first. */
  lemma SelectedIsSorted(s: seq<real>, order: seq<nat>)
    requires IsArgsort(s, order)
    ensures var sel := Selected(s, order);
      && |sel| <= 3
      && (forall k :: 0 <= k < |sel| ==> s[sel[k]] > 0.1)
      && (forall p, q :: 0 <= p < q < |sel| ==> s[sel[p]] >= s[sel[q]])
  {
    var top := TopThree(order);
    var n := |order|;
    assert Ranking.NonIncreasing(s, top) by {
      forall p, q | 0 <= p < q < |top| ensures s[top[p]] >= s[top[q]] {
        assert s[order[n - 1 - q]] <= s[order[n - 1 - p]];
      }
    }
    Ranking.AboveNonIncreasing(s, top, 0.1);
    Ranking.AboveMembers(s, top, 0.1);
    var sel := Selected(s, order);
    forall k | 0 <= k < |sel| ensures s[sel[k]] > 0.1 {
      assert sel[k] in sel;
    }
  }

  /** An index scoring above 0.1 is only left out when three indices scoring
      at least as much were taken. */
  lemma SelectedIsComplete(s: seq<real>, order: seq<nat>, j: nat)
    requires IsArgsort(s, order)
    requires j < |s| && s[j] > 0.1 && j !in Selected(s, order)
    ensures var sel := Selected(s, order);
      |sel| == 3 && forall k :: 0 <= k < |sel| ==> s[sel[k]] >= s[j]
  {
    var top := TopThree(order);
    Ranking.AboveMembers(s, top, 0.1);
    assert j !in top;
    TopThreeBeatsRest(s, order, j);
    Ranking.AboveKeepsAll(s, top, 0.1);
  }

  /** An index outside the top three scores no more than any of them, and
      then there are three. */
  lemma TopThreeBeatsRest(s: seq<real>, order: seq<nat>, j: nat)
    requires IsArgsort(s, order)
    requires j < |s| && j !in TopThree(order)
    ensures var top := TopThree(order);
      |top| == 3 && forall k :: 0 <= k < |top| ==> s[top[k]] >= s[j]
  {
    var top := TopThree(order);
    var n := |order|;
    var m := if n < 3 then 0 else n - 3;
    assert j in order;
    var p :| 0 <= p < n && order[p] == j;
    forall q | m <= q < n ensures order[q] in top {
      assert top[n - 1 - q] == order[q];
    }
    assert p < m;
    forall k | 0 <= k < |top| ensures s[top[k]] >= s[j] {
      assert s[order[p]] <= s[order[n - 1 - k]];
    }
  }

  /** The selection is the top three above 0.1: at most three, each above 0.1,
      best first, and a corpus entry above 0.1 is only passed over when three
      entries scoring at least as much were taken. */
  lemma SelectedIsTopThree(s: seq<real>, order: seq<nat>)
    requires IsArgsort(s, order)
    ensures var sel := Selected(s, order);
      && |sel| <= 3
      && (forall k :: 0 <= k < |sel| ==> s[sel[k]] > 0.1)
      && (forall p, q :: 0 <= p < q < |sel| ==> s[sel[p]] >= s[sel[q]])
      && (forall j :: 0 <= j < |s| && s[j] > 0.1 && j !in sel ==>
            |sel| == 3 && forall k :: 0 <= k < |sel| ==> s[sel[k]] >= s[j])
  {
    SelectedIsSorted(s, order);
    var sel := Selected(s, order);
    forall j | 0 <= j < |s| && s[j] > 0.1 && j !in sel
      ensures |sel| == 3 && forall k :: 0 <= k < |sel| ==> s[sel[k]] >= s[j]
    {
      SelectedIsComplete(s, order, j);
    }
  }

  /** `calculate_confidence`: 0.1 with no case, otherwise 0.25 plus 70% of the
      best similarity, capped at 0.95 and rounded. */
  function CalculateConfidence(cases: seq<SimilarCase>): (r: real)
    ensures |cases| == 0 ==> r == 0.1
    ensures r <= 0.95
  {
    if |cases| == 0 then 0.1
    else
      var best := MaxOf(seq(|cases|, k requires 0 <= k < |cases| => cases[k].similarity));
      var c := Min(0.25 + best * 0.7, 0.95);
      Round2Monotone(c, 0.95);
      assert Round2(0.95) == 0.95;
      Round2(c)
  }

  function BestSimilarity(cases: seq<SimilarCase>): real
    requires |cases| > 0
  {
    MaxOf(seq(|cases|, k requires 0 <= k < |cases| => cases[k].similarity))
  }

  /** The confidence depends on the best similarity alone, and never
      decreases as it grows. */
  lemma ConfidenceMonotone(a: seq<SimilarCase>, b: seq<SimilarCase>)
    requires |a| > 0 && |b| > 0 && BestSimilarity(a) <= BestSimilarity(b)
    ensures CalculateConfidence(a) <= CalculateConfidence(b)
  {
    var ca, cb := Min(0.25 + BestSimilarity(a) * 0.7, 0.95), Min(0.25 + BestSimilarity(b) * 0.7, 0.95);
    assert ca <= cb;
    Round2Monotone(ca, cb);
  }

  /** With non-negative similarities the confidence is 0.1 exactly when no
      case was found; any case gives at least 0.25. */
  lemma ConfidenceLowExactlyWhenEmpty(cases: seq<SimilarCase>)
    requires forall k :: 0 <= k < |cases| ==> cases[k].similarity >= 0.0
    ensures |cases| > 0 ==> CalculateConfidence(cases) >= 0.25
    ensures CalculateConfidence(cases) == 0.1 <==> |cases| == 0
  {
    if |cases| > 0 {
      var xs := seq(|cases|, k requires 0 <= k < |cases| => cases[k].similarity);
      assert xs[0] >= 0.0;
      var c := Min(0.25 + MaxOf(xs) * 0.7, 0.95);
      Round2Within(c, 25, 95);
    }
  }

  // ---------------------------------------------------------------- the analyzer object

  /** The state of the analyzer's TF-IDF vectorizer: the documents of its last
      fit. */
  datatype Vectorizer = Unfitted | FittedOn(documents: seq<string>)

  /** The texts a language model returned for the four prompts of
      `analyze_ticket`, as `query_llm` hands them back. */
  datatype Replies = Replies(issue: string, sentiment: string, summary: string, solution: string)

  /** The message of the ValueError a TF-IDF fit raises when no document
      leaves a token. */
  const EmptyVocabulary := "empty vocabulary; perhaps the documents only contain stop words"

  class TicketAnalyzer {
    var vectorizer: Vectorizer

    constructor ()
      ensures vectorizer == Unfitted
    {
      vectorizer := Unfitted;
    }

    /** `calculate_similarity`: 0.0 when either text is empty once lowercased
        and stripped, without touching the vectorizer; otherwise the vectorizer
        is fitted on the two cleaned texts and the rounded cosine is returned,
        or 0.0 when fitting fails (`cosine` is `None`). */
    method CalculateSimilarity(text1: string, text2: string, cosine: Option<real>) returns (r: real)
      modifies this
      ensures var t1, t2 := Strip(Lower(text1)), Strip(Lower(text2));
        if t1 == [] || t2 == [] then r == 0.0 && vectorizer == old(vectorizer)
        else if cosine.None? then r == 0.0 && vectorizer == old(vectorizer)
        else r == Round2(cosine.value) && vectorizer == FittedOn([t1, t2])
    {
      var t1, t2 := Strip(Lower(text1)), Strip(Lower(text2));
      if t1 == [] || t2 == [] {
        return 0.0;
      }
      if cosine.None? {
        return 0.0;
      }
      vectorizer := FittedOn([t1, t2]);
      r := Round2(cosine.value);
    }

    /** `find_similar_cases`.  With no historical issue it returns [] and
        leaves the vectorizer alone.  Otherwise a fresh vectorizer replaces the
        old one and is fitted on the corpus followed by the issue (`scores` is
        `None` when that fit raises, which leaves the fresh one unfitted), and the cases for the top three indices of `order` above 0.1
        are collected, best first. */
    method FindSimilarCases(issue: string, h: HistoricalData, scores: Option<seq<real>>, order: seq<nat>)
      returns (r: Result<seq<SimilarCase>>)
      requires scores.Some? ==> |scores.value| == |h.issues| && IndexList(scores.value, order)
      modifies this
      ensures |h.issues| == 0 ==> r == Ok([]) && vectorizer == old(vectorizer)
      ensures |h.issues| > 0 ==> vectorizer == if scores.Some? then FittedOn(h.issues + [issue]) else Unfitted
      ensures |h.issues| > 0 && scores.None? ==> r == Err(ValueError(EmptyVocabulary))
      ensures |h.issues| > 0 && scores.Some? ==> r == CasesFor(h, scores.value, order)
    {
      if |h.issues| == 0 {
        return Ok([]);
      }
      vectorizer := Unfitted;
      if scores.None? {
        return Err(ValueError(EmptyVocabulary));
      }
      vectorizer := FittedOn(h.issues + [issue]);
      var s := scores.value;
      var top := TopThree(order);
      assert Ranking.InRange(s, top);
      var similar: seq<SimilarCase> := [];
      var i := 0;
      while i < |top|
        invariant 0 <= i <= |top|
        invariant vectorizer == FittedOn(h.issues + [issue])
        invariant Covered(h, Ranking.Above(s, top[..i], 0.1))
        invariant similar == CasesOf(h, s, Ranking.Above(s, top[..i], 0.1))
      {
        var idx := top[i];
        if s[idx] > 0.1 && idx >= |h.solutions| {
          UncoveredFails(h, s, order, i);
          return Err(IndexError);
        }
        CasesSnoc(h, s, top, i);
        if s[idx] > 0.1 {
          similar := similar + [SimilarCase(h.issues[idx], h.solutions[idx], s[idx])];
        }
        i := i + 1;
      }
      assert top[..i] == top;
      r := Ok(similar);
    }

    /** `analyze_ticket`: priority, team, similar cases and confidence from the
        extracted issue and sentiment; `estimated_time` and `action_items` keep
        their defaults of 2.0 and None.  An error from the case search
        propagates. */
    method AnalyzeTicket(replies: Replies, h: HistoricalData, scores: Option<seq<real>>, order: seq<nat>)
      returns (r: Result<AnalysisResult>)
      requires scores.Some? ==> |scores.value| == |h.issues| && IndexList(scores.value, order)
      modifies this
      ensures r.Ok? ==>
        && r.value.estimatedTime == Defaults.estimatedTime
        && r.value.actionItems == None
        && r.value.priority == DeterminePriority(replies.issue, replies.sentiment)
        && r.value.team == DetermineTeam(replies.issue)
        && r.value.similarCases.Some?
        && r.value.confidence == CalculateConfidence(r.value.similarCases.value)
        && (r.value.issue, r.value.sentiment, r.value.summary, r.value.solution)
           == (replies.issue, replies.sentiment, replies.summary, replies.solution)
      ensures |h.issues| == 0 ==> r.Ok? && r.value.similarCases == Some([]) && r.value.confidence == 0.1
      ensures |h.issues| > 0 && scores.None? ==> r == Err(ValueError(EmptyVocabulary))
      ensures |h.issues| > 0 && scores.Some? ==>
        && (r.Ok? <==> CasesFor(h, scores.value, order).Ok?)
        && (r.Err? ==> r.error == IndexError)
        && (r.Ok? ==> r.value.similarCases == Some(CasesFor(h, scores.value, order).value))
      ensures |h.issues| == 0 ==> vectorizer == old(vectorizer)
      ensures |h.issues| > 0 ==> vectorizer == if scores.Some? then FittedOn(h.issues + [replies.issue]) else Unfitted
    {
      var priority := DeterminePriority(replies.issue, replies.sentiment);
      var team := DetermineTeam(replies.issue);
      var found := FindSimilarCases(replies.issue, h, scores, order);
      if found.Err? {
        return Err(found.error);
      }
      var cases := found.value;
      var confidence := CalculateConfidence(cases);
      r := Ok(Defaults.(summary := replies.summary, issue := replies.issue, solution := replies.solution,
                        priority := priority, team := team, confidence := confidence,
                        similarCases := Some(cases), sentiment := replies.sentiment));
    }
  }
}
