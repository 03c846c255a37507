/** `RecommenderAgent` (support_ai/agents/recommender.py): one context string
    per historical record, the best-matching record's solution with its score
    as confidence, and the first three records as similar cases.  The
    historical data is the dictionary of lists the agent indexes by key; the
    TF-IDF cosine scores of the query against the contexts are an input. */
module Recommender {
  import opened Common
  import opened Numeric

  /** The historical data: a dictionary from key to a list of strings. */
  type Corpus = map<string, seq<string>>

  function MinLen(a: nat, b: nat, c: nat): nat
  {
    if a <= b && a <= c then a else if b <= c then b else c
  }

  /** `f"{issue} ({sentiment}, {priority})"`. */
  function Context(issue: string, sentiment: string, priority: string): string
  {
    issue + " (" + sentiment + ", " + priority + ")"
  }

  /** The zip comprehension: one context per index that all three lists
      have, in corpus order. */
  function Contexts(issues: seq<string>, sentiments: seq<string>, priorities: seq<string>): (cs: seq<string>)
    ensures |cs| == MinLen(|issues|, |sentiments|, |priorities|)
    ensures forall k :: 0 <= k < |cs| ==> cs[k] == Context(issues[k], sentiments[k], priorities[k])
  {
    if |issues| == 0 || |sentiments| == 0 || |priorities| == 0 then []
    else [Context(issues[0], sentiments[0], priorities[0])]
         + Contexts(issues[1..], sentiments[1..], priorities[1..])
  }

  /** Each context starts with its issue and ends with the bracketed
      sentiment and priority, so the issue can be read back from it. */
  lemma ContextShape(issue: string, sentiment: string, priority: string)
    ensures var c := Context(issue, sentiment, priority);
      && c[..|issue|] == issue
      && c[|issue|..] == " (" + sentiment + ", " + priority + ")"
      && c[|c| - 1] == ')'
  {
    var c := Context(issue, sentiment, priority);
    assert c == issue + (" (" + sentiment + ", " + priority + ")");
  }

  /** There is one score per context: the scores are those of the query
      against the contexts and only against them. */
  predicate ScoresFit(h: Corpus, scores: seq<real>)
  {
    "issues" in h && "sentiments" in h && "priorities" in h ==>
      |scores| == |Contexts(h["issues"], h["sentiments"], h["priorities"])|
  }

  /** `b` is the first index holding the largest score (`numpy.argmax`). */
  predicate FirstMax(scores: seq<real>, b: nat)
  {
    b < |scores|
    && (forall k :: 0 <= k < |scores| ==> scores[k] <= scores[b])
    && (forall k :: 0 <= k < b ==> scores[k] < scores[b])
  }

  lemma FirstMaxUnique(scores: seq<real>, b: nat, c: nat)
    requires FirstMax(scores, b) && FirstMax(scores, c)
    ensures b == c
  {
    assert scores[b] <= scores[c] && scores[c] <= scores[b];
  }

  /** `find_similar_solution`.  `scores[k]` is the cosine similarity of the
      query (the last fitted text) to context `k`.  Keys are read in the order
      `issues`, `sentiments`, `priorities`, then `solutions` after the
      scoring; an empty corpus makes the scoring raise ValueError. */
  function FindSimilarSolution(query: string, h: Corpus, scores: seq<real>): (r: Result<(string, real)>)
    requires ScoresFit(h, scores)
    ensures "issues" !in h ==> r == Err(KeyError("issues"))
    ensures "issues" in h && "sentiments" !in h ==> r == Err(KeyError("sentiments"))
    ensures "issues" in h && "sentiments" in h && "priorities" !in h ==> r == Err(KeyError("priorities"))
    ensures r.Ok? <==>
      && "issues" in h && "sentiments" in h && "priorities" in h && "solutions" in h
      && |scores| > 0
      && exists b: nat :: FirstMax(scores, b) && b < |h["solutions"]|
    ensures r.Ok? ==> forall b: nat :: FirstMax(scores, b) ==>
      b < |h["solutions"]| && r.value == (h["solutions"][b], Round2(scores[b]))
  {
    if "issues" !in h then Err(KeyError("issues"))
    else if "sentiments" !in h then Err(KeyError("sentiments"))
    else if "priorities" !in h then Err(KeyError("priorities"))
    else if |Contexts(h["issues"], h["sentiments"], h["priorities"])| == 0 then Err(ValueError("empty corpus"))
    else
      var best := ArgMax(scores);
      FirstMaxIsArgMax(scores);
      if "solutions" !in h then Err(KeyError("solutions"))
      else if best < |h["solutions"]| then Ok((h["solutions"][best], Round2(scores[best])))
      else Err(IndexError)
  }

  /** `ArgMax` is the one first maximum. */
  lemma FirstMaxIsArgMax(scores: seq<real>)
    requires |scores| > 0
    ensures FirstMax(scores, ArgMax(scores))
    ensures forall b: nat :: FirstMax(scores, b) ==> b == ArgMax(scores)
  {
    forall b | FirstMax(scores, b) ensures b == ArgMax(scores) {
      FirstMaxUnique(scores, b, ArgMax(scores));
    }
  }

  /** With scores in [0, 1] the confidence is in [0, 1]. */
  lemma ConfidenceInUnitRange(query: string, h: Corpus, scores: seq<real>)
    requires ScoresFit(h, scores)
    requires forall k :: 0 <= k < |scores| ==> 0.0 <= scores[k] <= 1.0
    requires FindSimilarSolution(query, h, scores).Ok?
    ensures 0.0 <= FindSimilarSolution(query, h, scores).value.1 <= 1.0
  {
    var b := ArgMax(scores);
    Round2Within(scores[b], 0, 100);
  }

  /** A similar case as `process` lists it. */
  datatype CaseRecord = CaseRecord(issue: string, solution: string, sentiment: string, priority: string)

  /** The dictionary `process` returns: exactly these three entries. */
  datatype Recommendation = Recommendation(suggestedSolution: string, confidenceScore: real,
                                           similarCases: seq<CaseRecord>)

  /** The records `0 .. n-1` in corpus order; IndexError when a column is
      shorter than `n`. */
  function FirstRecords(issues: seq<string>, solutions: seq<string>, sentiments: seq<string>,
                        priorities: seq<string>, n: nat): (r: Result<seq<CaseRecord>>)
    ensures r.Ok? <==> n <= |issues| && n <= |solutions| && n <= |sentiments| && n <= |priorities|
    ensures r.Ok? ==> |r.value| == n && forall k :: 0 <= k < n ==>
      r.value[k] == CaseRecord(issues[k], solutions[k], sentiments[k], priorities[k])
  {
    if n <= |issues| && n <= |solutions| && n <= |sentiments| && n <= |priorities| then
      Ok(seq(n, k requires 0 <= k < n => CaseRecord(issues[k], solutions[k], sentiments[k], priorities[k])))
    else Err(IndexError)
  }

  /** `process` on the extracted issue and the historical data: the best
      solution and its confidence, and the first `min(3, n)` records. */
  function Process(issue: string, h: Corpus, scores: seq<real>): (r: Result<Recommendation>)
    requires ScoresFit(h, scores)
    ensures FindSimilarSolution(issue, h, scores).Err? ==> r == Err(FindSimilarSolution(issue, h, scores).error)
    ensures r.Ok? <==>
      && FindSimilarSolution(issue, h, scores).Ok?
      && Min3(|h["issues"]|) <= |h["solutions"]|
      && Min3(|h["issues"]|) <= |h["sentiments"]|
      && Min3(|h["issues"]|) <= |h["priorities"]|
    ensures r.Ok? ==>
      && FindSimilarSolution(issue, h, scores) == Ok((r.value.suggestedSolution, r.value.confidenceScore))
      && |r.value.similarCases| == Min3(|h["issues"]|)
      && forall k :: 0 <= k < |r.value.similarCases| ==>
           r.value.similarCases[k] == CaseRecord(h["issues"][k], h["solutions"][k], h["sentiments"][k], h["priorities"][k])
  {
    match FindSimilarSolution(issue, h, scores)
    case Err(e) => Err(e)
    case Ok((solution, confidence)) =>
      match FirstRecords(h["issues"], h["solutions"], h["sentiments"], h["priorities"], Min3(|h["issues"]|))
      case Err(e) => Err(e)
      case Ok(cases) => Ok(Recommendation(solution, confidence, cases))
  }

  function Min3(n: nat): nat { if n < 3 then n else 3 }

  /** The similar-case list does not depend on the scores: it is the first
      records in corpus order, however well they match. */
  lemma CasesIgnoreScores(issue: string, h: Corpus, s: seq<real>, t: seq<real>)
    requires ScoresFit(h, s) && ScoresFit(h, t)
    requires Process(issue, h, s).Ok? && Process(issue, h, t).Ok?
    ensures Process(issue, h, s).value.similarCases == Process(issue, h, t).value.similarCases
  {
  }
}
