# AutoTriage rule layer in Dafny

AutoTriage reads a customer-support conversation and files it as a ticket. It extracts the issue, rates its priority, routes it to a team, finds similar past tickets, suggests a solution, scores its confidence and estimates the resolution time. The language-model calls and the TF-IDF/cosine similarity are foreign calls. Around them is a deterministic layer of keyword tables, first-match rules, filtering, ranking, clamping and dictionary shaping. This project models that layer and proves what it promises.

Modules, one per source file, plus four shared ones:

| module | models |
|---|---|
| `AutotriageAnalyzer` | `TicketAnalyzer` of the Autotriage package (Autotriage.ai/support_ai/analyzer.py) |
| `SupportAnalyzer` | `TicketAnalyzer` of the lean `support_ai` package (support_ai/analyzer.py), a class with its vectorizer state |
| `Pipeline` | `SupportPipeline.validate_input` and `process` (support_ai/pipeline.py) |
| `Recommender` | `RecommenderAgent` (support_ai/agents/recommender.py) |
| `DataLoader` | `TicketDataLoader` over an abstract table (support_ai/data_loader.py) |
| `MockPipeline` | `MockSupportPipeline` and `validate_result` of the demo UI (Autotriage.ai/streamlit_app.py) |
| `Api` | the start-up gate, the transcript, `/chat` and `/submit_ticket` with its e-mail decision (api.py) |
| `Voxtral`, `Router` | the voice agent's intent classifier and task router |
| `Common`, `Text`, `Numeric`, `Ranking` | Python values and exceptions; ASCII `lower`/`title`/`strip`/`in`/`join`/`split`; rounding, clamping and means; Python's stable descending sort |

Modelling conventions:

- **Foreign inputs.** Every value that comes from outside the layer is a parameter. This covers:
  - similarity scores (a `seq<real>`, one per historical ticket);
  - language-model replies (`Option<string>`; `None` means no model or a failed call);
  - the jitter factor of `random.uniform(0.95, 1.05)`, and the unit draws behind `random.uniform(a, b)`;
  - the `numpy.std` of the similarities and the `argsort` permutation;
  - `pd.Timestamp.now()`, the ticket id and whether the e-mail transport works.
- **Exceptions.** A Python exception is a `Result` error: `IndexError`, `KeyError(key)`, `ValueError(msg)`, `AttributeError`, `UnboundLocalError(name)` or `FileNotFoundError(msg)`.
- **Mutation.** Objects whose fields change are classes.
  - `SupportAnalyzer.TicketAnalyzer` keeps the fitted vectorizer.
  - `DataLoader.TicketDataLoader` keeps its frame.
  - `MockPipeline.ResultObject` is the dictionary `validate_result` edits in place.
- **Loops.** Loops that append or scan are methods. Each is proved against a specification function.

Three outcomes of the code worth knowing:

- The payment-gateway ticket ("payment gateway SSL certificate error") goes to Technical. "error" is a Technical keyword, and the Technical rule is checked before Billing (`AutotriageAnalyzer.PaymentGatewayTicket`).
- The full analyzer's `calculate_confidence` returns 0.2 for an empty case list. That branch is not clamped.
- The lean analyzer's `determine_priority` compares the sentiment case-sensitively. The model's reply "Negative" therefore never escalates (`SupportAnalyzer.CapitalisedSentimentDoesNotEscalate`).

## Model

| member | source | states |
|---|---|---|
| AutotriageAnalyzer.DeterminePriority | Autotriage.ai/support_ai/analyzer.py:61-80 | the priority is always one of `priority_levels`, and it is High whenever the lowercased sentiment is negative or urgent |
| AutotriageAnalyzer.PriorityFollowsKeywords | Autotriage.ai/support_ai/analyzer.py:62-80 | without an escalating sentiment, the priority is the first group (Critical, High, Medium, Low) with a keyword in the lowercased issue, else Medium |
| AutotriageAnalyzer.DetermineTeam | Autotriage.ai/support_ai/analyzer.py:82-99 | the team is always a member of `teams` |
| AutotriageAnalyzer.TeamFollowsRules | Autotriage.ai/support_ai/analyzer.py:82-99 | the team is the first in rule order with a keyword in the lowercased issue, else Technical, for any priority argument |
| AutotriageAnalyzer.ErrorIsCriticalAndTechnical | Autotriage.ai/support_ai/analyzer.py:63-97 | "error" in any case makes a non-escalated ticket Critical and always routes it to Technical |
| AutotriageAnalyzer.PaymentGatewayTicket | Autotriage.ai/support_ai/analyzer.py:61-99 | the payment-gateway SSL ticket is Critical and goes to Technical |
| AutotriageAnalyzer.JitteredScore | Autotriage.ai/support_ai/analyzer.py:148-152 | the jittered similarity is clamped and rounded into [0, 1] |
| AutotriageAnalyzer.CalculateSimilarity | Autotriage.ai/support_ai/analyzer.py:132-155 | the similarity is in [0, 1], and 0.3 when the vectorizer raises |
| AutotriageAnalyzer.SimilarityMonotone | Autotriage.ai/support_ai/analyzer.py:145-152 | for a fixed jitter, a larger cosine never gives a smaller similarity |
| AutotriageAnalyzer.DisjointTextsScoreZero | Autotriage.ai/support_ai/analyzer.py:145-152 | texts with cosine 0 score 0 whatever the jitter |
| AutotriageAnalyzer.CaseAt | Autotriage.ai/support_ai/analyzer.py:243-249 | a case fails with IndexError exactly when `solutions`, or a non-empty priorities or sentiments list, is too short; it takes the issue and score of its index; an absent or empty list defaults to Medium / Neutral |
| AutotriageAnalyzer.CasesFor | Autotriage.ai/support_ai/analyzer.py:240-252 | collecting the cases can fail only with IndexError |
| AutotriageAnalyzer.CasesForSpec | Autotriage.ai/support_ai/analyzer.py:240-252 | one case per selected index, in order, failing exactly when some selected case fails |
| AutotriageAnalyzer.CasesStep | Autotriage.ai/support_ai/analyzer.py:241-250 | one turn of the loop: a score at or below 0.2 leaves the list as it was, otherwise the case is appended, or its lookup failure becomes the result |
| AutotriageAnalyzer.TopSelection | Autotriage.ai/support_ai/analyzer.py:237-242 | the first three ranked indices are valid indices, and those scoring above 0.2 are exactly the selected ones |
| AutotriageAnalyzer.FailedCaseFails | Autotriage.ai/support_ai/analyzer.py:242-249 | a selected index whose lookup fails makes the whole search fail with IndexError |
| AutotriageAnalyzer.FindSimilarCases | Autotriage.ai/support_ai/analyzer.py:226-252 | the append loop over the stably ranked first three indices computes the specified case list: similarity > 0.2, in rank order, or the first lookup failure; the per-issue scoring loop is the `scores` input |
| AutotriageAnalyzer.SimilarCasesAreBest | Autotriage.ai/support_ai/analyzer.py:236-252 | at most 3 cases, each > 0.2, non-increasing, each from its own corpus index; an index above 0.2 that is left out means three cases at least as good were kept |
| AutotriageAnalyzer.SortedDescIsSorted | Autotriage.ai/support_ai/analyzer.py:109 | the sorted similarities are a permutation of the input (same multiset), non-increasing, and start with its maximum |
| AutotriageAnalyzer.SortedDescHoldsInput | Autotriage.ai/support_ai/analyzer.py:109 | every similarity of the input occurs in the sorted list |
| AutotriageAnalyzer.CalculateConfidence | Autotriage.ai/support_ai/analyzer.py:101-130 | exactly 0.2 for no case (unclamped); otherwise in [0.1, 0.95] |
| AutotriageAnalyzer.EvidenceRaisesConfidence | Autotriage.ai/support_ai/analyzer.py:101-130 | with non-negative similarities and a spread of at most 1, a non-empty case list scores at least 0.26 |
| AutotriageAnalyzer.PriorityTime | Autotriage.ai/support_ai/analyzer.py:199-211 | the table value (4, 8, 24 or 48 hours), and 24 for an unknown priority |
| AutotriageAnalyzer.CloseMatches | Autotriage.ai/support_ai/analyzer.py:196-197 | the indices scoring above 0.7, and only those |
| AutotriageAnalyzer.EstimateResolutionTime | Autotriage.ai/support_ai/analyzer.py:195-211 | the table value when nothing is close or there is no `resolution_times`; IndexError exactly when a close index has no recorded time; otherwise the mean of the close matches' recorded times, in corpus order |
| AutotriageAnalyzer.EstimateIgnoresUnmatched | Autotriage.ai/support_ai/analyzer.py:207-208 | recorded times of indices that are not close matches, and the length of the list, play no part in the estimate |
| AutotriageAnalyzer.EstimateWithinRecordedTimes | Autotriage.ai/support_ai/analyzer.py:207-209 | with close matches that all have recorded times, the estimate lies between the smallest and largest matched time |
| AutotriageAnalyzer.EstimateUniformTimes | Autotriage.ai/support_ai/analyzer.py:207-209 | when every close match took the same time, the estimate is that time |
| AutotriageAnalyzer.FallbackResponse | Autotriage.ai/support_ai/analyzer.py:173-189 | the payment steps if the prompt mentions payment or transaction, else the installation steps if it mentions installation, else the generic steps |
| AutotriageAnalyzer.QueryLlm | Autotriage.ai/support_ai/analyzer.py:157-171 | the model text when it is non-empty; the fallback for the prompt when there is no model, the call fails or the text is empty; never empty |
| AutotriageAnalyzer.StrippedAnswer | Autotriage.ai/support_ai/analyzer.py:44-50 | the stripped model answer to any prompt, and so the summary (`GenerateSummary`) and the issue (`ExtractIssue`), carries no leading or trailing whitespace |
| AutotriageAnalyzer.AnalyzeSentiment | Autotriage.ai/support_ai/analyzer.py:191-193 | the sentiment holds no upper-case letter |
| AutotriageAnalyzer.NegativeSentimentIsHigh | Autotriage.ai/support_ai/analyzer.py:72-73 | a model answer of "Negative" in any case and spacing makes the ticket High |
| AutotriageAnalyzer.GenerateSolution | Autotriage.ai/support_ai/analyzer.py:52-59 | the first case's solution unchanged when there are cases, else the stripped model answer to the solution prompt |
| AutotriageAnalyzer.PaymentIssueFallback | Autotriage.ai/support_ai/analyzer.py:173-179 | with no case and no model, a payment issue gets the payment steps |
| AutotriageAnalyzer.PaymentStepsAreStripped | Autotriage.ai/support_ai/analyzer.py:176-179 | the final strip leaves the payment steps intact |
| AutotriageAnalyzer.GenerateActionItems | Autotriage.ai/support_ai/analyzer.py:213-224 | the items `ActionItemsFor` describes: the three fixed items naming the team and the priority, in order, then the two escalation items exactly for Critical or High |
| AutotriageAnalyzer.AnalyzeTicket | Autotriage.ai/support_ai/analyzer.py:254-286 | fails (IndexError) exactly when case collection or the time estimate does; otherwise summary, issue, sentiment, priority, team, cases, solution, confidence and time are their rules' values on the extracted issue and sentiment, and the action items are the three fixed items plus the two escalation items for Critical or High |
| SupportAnalyzer.DeterminePriority | support_ai/analyzer.py:88-93 | never Low; High for sentiment exactly urgent or negative; Medium exactly when no critical or high keyword occurs |
| SupportAnalyzer.PriorityFollowsKeywords | support_ai/analyzer.py:90-93 | Critical exactly when the sentiment does not escalate and a critical keyword occurs; High exactly when it escalates, or no critical but a high keyword occurs |
| SupportAnalyzer.HighKeywordGivesHigh | support_ai/analyzer.py:92 | "problem", "failing" or "won't open" gives High when no critical keyword and no escalating sentiment decide first |
| SupportAnalyzer.CapitalisedSentimentDoesNotEscalate | support_ai/analyzer.py:90 | "Negative" and "Urgent" rate like "Neutral": the comparison is case-sensitive |
| SupportAnalyzer.CriticalKeywordWins | support_ai/analyzer.py:90-92 | a critical keyword gives Critical ahead of any high keyword unless the sentiment escalates |
| SupportAnalyzer.DetermineTeam | support_ai/analyzer.py:95-104 | only Technical, Billing or Security |
| SupportAnalyzer.TeamFollowsRules | support_ai/analyzer.py:97-104 | the first team in the order Technical, Billing, Security with a keyword in the lowercased issue, else Technical |
| SupportAnalyzer.PasswordGoesToTechnical | support_ai/analyzer.py:98-103 | any issue containing "password" goes to Technical, since "word" is a Technical keyword |
| SupportAnalyzer.TopThree | support_ai/analyzer.py:123 | `argsort()[-3:][::-1]`: the last three indices, last first |
| SupportAnalyzer.Selected | support_ai/analyzer.py:123-127 | every selected index is a valid corpus index |
| SupportAnalyzer.CasesOf | support_ai/analyzer.py:125-133 | one case per index, in order, with issue, solution and similarity all from that index |
| SupportAnalyzer.CasesForSpec | support_ai/analyzer.py:123-133 | the search fails only with IndexError, exactly when a selected index has no solution; otherwise case `k` pairs the issue and solution of the `k`-th selected index with its score |
| SupportAnalyzer.CasesOfSnoc | support_ai/analyzer.py:128-132 | appending a covered index to the selection appends exactly its case to the list |
| SupportAnalyzer.UncoveredFails | support_ai/analyzer.py:127-130 | a selected index past the end of the solutions list makes the search fail with IndexError |
| SupportAnalyzer.CasesSnoc | support_ai/analyzer.py:126-132 | one loop step appends the case of the next top index exactly when it scores above 0.1 |
| SupportAnalyzer.SelectedIsSorted | support_ai/analyzer.py:123-127 | at most three indices, each above 0.1, best first |
| SupportAnalyzer.SelectedIsComplete | support_ai/analyzer.py:123-127 | an index above 0.1 is left out only when three at least as good are kept |
| SupportAnalyzer.TopThreeBeatsRest | support_ai/analyzer.py:123 | an index left out of the top three means there are three, each scoring at least as high as it |
| SupportAnalyzer.SelectedIsTopThree | support_ai/analyzer.py:123-127 | the selection is exactly the top three above 0.1, best first |
| SupportAnalyzer.CalculateConfidence | support_ai/analyzer.py:141-145 | 0.1 for no case; never above 0.95 |
| SupportAnalyzer.ConfidenceMonotone | support_ai/analyzer.py:143-145 | the confidence depends on the best similarity only, monotonically |
| SupportAnalyzer.ConfidenceLowExactlyWhenEmpty | support_ai/analyzer.py:141-145 | with non-negative similarities, the confidence is 0.1 exactly when there is no case, else at least 0.25 |
| SupportAnalyzer.TicketAnalyzer.constructor | support_ai/analyzer.py:31-32 | a fresh analyzer has an unfitted vectorizer |
| SupportAnalyzer.TicketAnalyzer.CalculateSimilarity | support_ai/analyzer.py:106-112 | 0.0 when either lowercased, stripped text is empty or the vectorizer raises; otherwise the rounded cosine, with the vectorizer refitted on the two texts |
| SupportAnalyzer.TicketAnalyzer.FindSimilarCases | support_ai/analyzer.py:114-133 | [] and the vectorizer untouched for no issue; otherwise a fresh vectorizer, left unfitted with sklearn's empty-vocabulary ValueError when the fit fails, else fitted on issues plus query with the specified top-three list as the result |
| SupportAnalyzer.TicketAnalyzer.AnalyzeTicket | support_ai/analyzer.py:147-160 | estimated time stays 2.0 and action items None; priority, team and confidence follow their rules; the similar cases are exactly `CasesFor`'s, its IndexError or the fit's ValueError propagates, and the vectorizer ends as the case search leaves it |
| Pipeline.ValidateInputIff | support_ai/pipeline.py:11-18 | input is accepted exactly for a non-empty str and a non-empty dict |
| Pipeline.ToRecord | support_ai/pipeline.py:35-46 | the output dictionary has exactly the ten keys |
| Pipeline.CasesRoundTrip | support_ai/pipeline.py:43 | the similar-case dictionaries read back as the cases |
| Pipeline.StringsRoundTrip | support_ai/pipeline.py:44 | the action-item list reads back as the items |
| Pipeline.RecordRoundTrip | support_ai/pipeline.py:35-46 | every field is copied unchanged under its own key: the record reads back as the result |
| Pipeline.Process | support_ai/pipeline.py:20-49 | ValueError("Invalid input data") on invalid input; an analyzer error is re-raised; otherwise exactly the ten keys, reading back as the analysis |
| Pipeline.InvalidInputIgnoresAnalyzer | support_ai/pipeline.py:23-24 | invalid input is rejected before the analyzer is consulted |
| Pipeline.LowConfidenceIsReported | support_ai/pipeline.py:31-46 | a confidence below 0.3 changes nothing in the returned data |
| Recommender.Contexts | support_ai/agents/recommender.py:14-21 | one "issue (sentiment, priority)" context per zipped index; count is the minimum length |
| Recommender.ContextShape | support_ai/agents/recommender.py:15 | a context starts with its issue and ends with the bracketed sentiment and priority |
| Recommender.FirstMaxUnique | support_ai/agents/recommender.py:36 | the first index of the maximum is unique |
| Recommender.FindSimilarSolution | support_ai/agents/recommender.py:12-39 | KeyErrors in key order; succeeds exactly for a non-empty corpus whose first best index has a solution; returns that solution and the rounded best score |
| Recommender.FirstMaxIsArgMax | support_ai/agents/recommender.py:36 | `argmax` is the one first maximum |
| Recommender.ConfidenceInUnitRange | support_ai/agents/recommender.py:37 | with scores in [0, 1] the confidence is in [0, 1] |
| Recommender.Process | support_ai/agents/recommender.py:41-62 | the best solution and confidence plus the first min(3, n) records; errors passed through |
| Recommender.CasesIgnoreScores | support_ai/agents/recommender.py:48-56 | the listed cases do not depend on the scores |
| DataLoader.Table.Column | support_ai/data_loader.py:96 | a column is found exactly when its name is present, with one cell per row |
| DataLoader.Table.AddColumn | support_ai/data_loader.py:63 | adding a column fills it with the value on every row and keeps the others |
| DataLoader.FindDateColumn | support_ai/data_loader.py:16-29 | the loop finds the first present date spelling, or none |
| DataLoader.WithDefaults | support_ai/data_loader.py:60-63 | adding defaults keeps the rows and the existing columns in front |
| DataLoader.RequiredNamesDistinct | support_ai/data_loader.py:51-58 | no two required columns share a name |
| DataLoader.WithDefaultsKeeps | support_ai/data_loader.py:61-63 | a column already present is untouched |
| DataLoader.NamesAfterHasAll | support_ai/data_loader.py:61-63 | every required column is present after the defaults are added |
| DataLoader.NamesAfterKeeps | support_ai/data_loader.py:61-63 | every column present before is still present after the defaults are added |
| DataLoader.NamesAfterHasOnly | support_ai/data_loader.py:61-63 | every column after the defaults are added was there before or is a required one |
| DataLoader.WithDefaultsNames | support_ai/data_loader.py:61-63 | every required column exists afterwards, and no other column appears |
| DataLoader.WithDefaultsFills | support_ai/data_loader.py:61-63 | a missing required column holds its default on every row |
| DataLoader.FallbackTable | support_ai/data_loader.py:67-69 | the fallback frame has the required columns and one row |
| DataLoader.RowsWhere | support_ai/data_loader.py:96 | the matching rows, all of them, in table order |
| DataLoader.TicketDataLoader.constructor | support_ai/data_loader.py:6-63 | a successful load leaves the stripped, dated, defaulted frame |
| DataLoader.TicketDataLoader.AddMissingColumns | support_ai/data_loader.py:60-63 | the loop adds exactly the missing defaults |
| DataLoader.TicketDataLoader.GetTrainingData | support_ai/data_loader.py:71-92 | six lists of the row count, each the named column in row order; six empty lists when a column is missing |
| DataLoader.TicketDataLoader.GetSimilarCases | support_ai/data_loader.py:94-97 | KeyError exactly without Issue Category; otherwise at most `limit` records, all of that category, in table order |
| DataLoader.DatedFrame | support_ai/data_loader.py:13-48 | the date step keeps the rows |
| DataLoader.DateColumnNotRequired | support_ai/data_loader.py:48-58 | the added date column is not a required column |
| DataLoader.DatedFrameHasDate | support_ai/data_loader.py:25-48 | after the date step some date spelling is a column |
| DataLoader.DatedFrameKeeps | support_ai/data_loader.py:13-48 | the date step keeps every file column under its stripped name, with its cells as read (date parsing left out) |
| DataLoader.DatedFrameRequired | support_ai/data_loader.py:46-58 | the date step adds no required column |
| DataLoader.RequiredGivesTraining | support_ai/data_loader.py:51-81 | a frame with the required columns has every training column |
| DataLoader.LoadedColumns | support_ai/data_loader.py:51-81 | after a load all six required columns and a date column exist, and the rows are kept |
| DataLoader.LoadedCells | support_ai/data_loader.py:61-63 | file columns keep their cells as read (date parsing left out); each added column holds its default on every row |
| DataLoader.InitAsWritten | support_ai/data_loader.py:8-69 | as written, the constructor fails exactly when the file cannot be read |
| DataLoader.ReadFailureEscapes | support_ai/data_loader.py:10-69 | a read failure ends in UnboundLocalError for `required_columns` |
| DataLoader.InitCorrected | support_ai/data_loader.py:65-69 | corrected, any failure leaves the fallback frame |
| DataLoader.CorrectedAlwaysLoads | support_ai/data_loader.py:65-81 | corrected, the loader always has the required and training columns |
| MockPipeline.ClassifyIssue | Autotriage.ai/streamlit_app.py:117-125 | the type is one of the six categories or general |
| MockPipeline.ClassifyIssueIs | Autotriage.ai/streamlit_app.py:117-125 | the first category with a keyword in the lowercased text wins, else general |
| MockPipeline.KeywordCount | Autotriage.ai/streamlit_app.py:133-134 | at most one per keyword |
| MockPipeline.KeywordCountIsPresentWords | Autotriage.ai/streamlit_app.py:133-134 | the count is the number of distinct keywords present, not of occurrences |
| MockPipeline.AnalyzeSentiment | Autotriage.ai/streamlit_app.py:127-141 | frustrated iff more negatives, satisfied iff more positives, neutral iff a tie |
| MockPipeline.CalculateConfidence | Autotriage.ai/streamlit_app.py:143-155 | 0.7, plus 0.2 for a specific type and 0.1 for a text over 100 characters: exactly 0.7, 0.8, 0.9 or 1.0 over the reals |
| MockPipeline.KeywordsOf | Autotriage.ai/streamlit_app.py:169 | general has no keywords |
| MockPipeline.Score | Autotriage.ai/streamlit_app.py:162-170 | a successful score is 0, or in [0.5, 0.95] |
| MockPipeline.Candidates | Autotriage.ai/streamlit_app.py:159-180 | kept cases score in (0.5, 0.95], one per ticket at most |
| MockPipeline.SortBySimilarity | Autotriage.ai/streamlit_app.py:183 | sorting keeps the length |
| MockPipeline.SortBySimilaritySpec | Autotriage.ai/streamlit_app.py:183 | the sort is a permutation (same multiset of cases), non-increasing, and stable for ties |
| MockPipeline.FindSimilarCases | Autotriage.ai/streamlit_app.py:157-184 | the loop computes the sorted candidates, failing exactly when a ticket cannot be scored |
| MockPipeline.CandidatesErrSticks | Autotriage.ai/streamlit_app.py:161-163 | one unscorable ticket fails the whole search |
| MockPipeline.GenerateSolution | Autotriage.ai/streamlit_app.py:186-206 | the base text first; extended exactly when the first case scores above 0.8, by the intro and that case's solution |
| MockPipeline.DeterminePriority | Autotriage.ai/streamlit_app.py:208-215 | High iff frustrated or payment/authentication; else Medium iff performance/email; else Low |
| MockPipeline.EstimateResolutionTime | Autotriage.ai/streamlit_app.py:217-228 | the table value of the type, 2.0 for an unknown type |
| MockPipeline.Process | Autotriage.ai/streamlit_app.py:89-115 | the default result on an error; otherwise summary, issue, solution, priority and time from their rules, the confidence 0.7 or 0.9 by type plus 0.1 for a long text, and the first three sorted cases |
| MockPipeline.ListedCasesAreBest | Autotriage.ai/streamlit_app.py:108-183 | the listed cases are the best min(3, n) candidates, each above 0.5, best first |
| MockPipeline.Take3Sorted | Autotriage.ai/streamlit_app.py:108-183 | the listed cases are the first `min(3, n)` of the candidates by similarity: drawn from the candidates, in descending order, and none left out scores higher |
| MockPipeline.LeftOutScoresLower | Autotriage.ai/streamlit_app.py:108-183 | a candidate left out of the list scores no higher than any listed case |
| MockPipeline.Clamp01 | Autotriage.ai/streamlit_app.py:293 | the clamp lands in [0, 1] and keeps a value already there |
| MockPipeline.FillMissing | Autotriage.ai/streamlit_app.py:285-288 | keys present are kept; every required key is present; each added key holds its placeholder |
| MockPipeline.ValidatedSpec | Autotriage.ai/streamlit_app.py:280-301 | required keys present, confidence a number in [0, 1] (kept if already valid), similar_cases a list, other entries unchanged |
| MockPipeline.FillMissingPresent | Autotriage.ai/streamlit_app.py:286-288 | with every key present, filling changes nothing |
| MockPipeline.FillMissingStep | Autotriage.ai/streamlit_app.py:286-288 | one turn of the loop: a key already there is left alone, a missing one gets its placeholder |
| MockPipeline.FilledHasConfidence | Autotriage.ai/streamlit_app.py:285-288 | after the loop the result has a `confidence_score` entry |
| MockPipeline.ValidatedIdempotent | Autotriage.ai/streamlit_app.py:280-301 | validating twice is validating once |
| MockPipeline.ResultObject.constructor | Autotriage.ai/streamlit_app.py:280 | wraps the value passed to `validate_result` |
| MockPipeline.ValidateResult | Autotriage.ai/streamlit_app.py:280-301 | False and unchanged for a non-dict; otherwise True and the dictionary edited into its validated form |
| Api.Startup | api.py:26-35 | the pipeline is ready exactly when loading gives a non-empty issue list; otherwise the error text is recorded, the empty-history message for an empty list |
| Api.UnavailableMessage | api.py:40-78 | the fixed prefix, then the start-up reason when a non-empty one exists, else the generic reason |
| Api.EmptyHistoryIsReported | api.py:29-46 | an empty history makes both routes answer with that reason |
| Api.RenderMessage | api.py:81 | KeyError for a missing role or content, AttributeError for a non-str role, read in that order; otherwise the title-cased role, ": ", then the rendered content |
| Api.RenderAll | api.py:81 | one line per message in order, or the error of the first bad message |
| Api.Transcript | api.py:80-81 | fails exactly when a message cannot be rendered; the empty conversation gives "" |
| Api.RenderedSingleLine | api.py:81 | a message without line breaks renders without line breaks |
| Api.TranscriptLines | api.py:81 | splitting the transcript at line breaks gives back the rendered messages in order |
| Api.Chat | api.py:38-55 | the unavailable answer without a pipeline; an escaping error exactly when the transcript fails; otherwise 200 exactly when the reply succeeds, carrying the reply |
| Api.FeatureInAnyCase | api.py:92-104 | a feature keyword in any capitalisation in the conversation flags a feature request |
| Api.Note | api.py:108-129 | a note exists exactly when the priority is Critical or High or a feature is flagged |
| Api.AlertNote | api.py:113-129 | the appended reason list joined with ", " gives the specified note |
| Api.ReasonsJoined | api.py:123-128 | the reasons joined with ", " after the prefix are the note for the high and new-feature cases |
| Api.CriticalTakesPrecedence | api.py:113-129 | Critical gets the critical note regardless of the feature flag; any other note starts with the trigger prefix |
| Api.PriorityIgnoresCase | api.py:91-98 | the priority test sees the title-cased level, so any capitalisation decides alike |
| Api.Stamped | api.py:86-88 | the saved ticket adds ticket_id and conversation_history and keeps every other entry |
| Api.SubmitTicket | api.py:70-144 | the unavailable answer without a pipeline; a pipeline or `.lower()` error gives 500 and no save; otherwise the stamped ticket is saved and 200 returned whether or not the e-mail goes out, and the e-mail carries the specified note |
| Voxtral.ClassifyQuery | agent/agent/models/voxtral.py:2-11 | printer first, then password or login, then internet, else general, on the lowercased query, each with its tags |
| Voxtral.ClassifyQueryRange | agent/agent/models/voxtral.py:4-11 | always one of the four intent/tag pairs |
| Voxtral.ClassifyIgnoresCase | agent/agent/models/voxtral.py:3 | queries equal up to case are classified alike |
| Voxtral.PrinterWins | agent/agent/models/voxtral.py:4-7 | a query containing "printer" is a hardware issue whatever else it says |
| Router.RouteTask | agent/agent/agents/router.py:2-8 | hardware_agent iff hardware_issue, auth_agent iff account_issue, default_agent otherwise |
| Router.RouteIgnoresQuery | agent/agent/agents/router.py:2-8 | the query plays no part, and the agent is one of three |
| Text.FirstMatch | Autotriage.ai/support_ai/analyzer.py:76-78 | the first table row with a keyword in the text, none before it |
| Text.TitleIgnoresCase | api.py:91 | `title()` ignores the case of its input |
| Text.SplitJoin | api.py:49 | `"\n".join` of line-free parts splits back into the parts |
| Text.StripIdempotent | Autotriage.ai/support_ai/analyzer.py:46 | stripping twice is stripping once |
| Numeric.Round2Within | Autotriage.ai/support_ai/analyzer.py:130 | rounding keeps a value within bounds that have two decimals |
| Numeric.Round2Monotone | support_ai/analyzer.py:145 | rounding is monotone |
| Numeric.MeanWithin | Autotriage.ai/support_ai/analyzer.py:209 | the mean lies between the smallest and largest value |
| Numeric.ArgMax | support_ai/agents/recommender.py:36 | the first index of a maximum |
| Ranking.RankIsStableDescending | Autotriage.ai/support_ai/analyzer.py:237 | the sort by score, descending, is a stable permutation of the indices |
| Ranking.RankedIsPermutation | Autotriage.ai/support_ai/analyzer.py:237 | taking any same-length sequence in ranked order keeps every element as often as before |
| Ranking.AboveMembers | Autotriage.ai/support_ai/analyzer.py:241-242 | the threshold filter keeps exactly the ranked indices scoring above the threshold, and nothing else |
| Ranking.TopAboveIsTop | Autotriage.ai/support_ai/analyzer.py:236-242 | the first three ranked indices above the threshold are the best three above it |

## Left out

- Language-model calls (Gemini, Ollama, the base agents, the summarizer and extractor agents): their replies are parameters.
- TF-IDF and cosine similarity: the scores are parameters. The lean analyzer's vectorizer state is tracked only as "fitted on these documents".
- `random.uniform`: the jitter factor and the unit draws are parameters.
- `numpy.std`: the spread is a parameter of the full analyzer's confidence.
- `numpy.argsort` tie order is unspecified, so any ascending permutation is accepted.
- Floating-point arithmetic is modelled on reals throughout, and `round(x, 2)` as half-up rounding to hundredths; Python rounds binary floats half to even. Exact sums such as `MockPipeline.CalculateConfidence`'s 0.9 and 1.0 hold over the reals only: in binary floats 0.7 + 0.2 falls just short of 0.9 and 0.7 + 0.2 + 0.1 just short of 1.0, so the `min(…, 1.0)` cap at Autotriage.ai/streamlit_app.py:155 never changes a value, in Python or in the model.
- Both analyzers model a missing `issues` or `solutions` key as an empty list. The code raises KeyError where it indexes those keys directly.
- DataLoader.TicketDataLoader.constructor: `pd.to_datetime` and `fillna` on a found date column are not modelled; the column keeps its cells as read. A failure of the date parse is not modelled either.
- DataLoader.Loadable: a file whose column names collide once stripped is excluded, because pandas then keeps duplicate columns.
- DataLoader.InitAsWritten: only failures of `read_csv` itself are modelled. Later failures would reach the fallback with `required_columns` bound.
- MockPipeline.ToFloat: strings are treated as unparsable. `float("0.5")` would succeed in Python, but the placeholder text of a missing confidence is unparsable either way.
- Common.Display renders str, bool and None exactly and every other value as "". Numbers, lists and dicts in an f-string or `str()` are not rendered. The e-mail priority test is unaffected: no such rendering title-cases to "Critical" or "High".
- Api.ErrorText gives Python's text for the exceptions the model raises, except AttributeError, whose message (naming the type) is left empty.
- The recommender's `input_data` lookups (`extracted_issue`, `ticket_data`) are not modelled: `Recommender.Process` takes the issue and the history directly. The empty-corpus error is a ValueError with a fixed message, not sklearn's.
- Recommender.ScoresFit: the scores are given for a successful fit. A TF-IDF fit that fails on a non-empty corpus (no token survives) is not modelled for the recommender.
- The UI (`main()` and its display helpers), the CLI wrappers, JSON file writes, the SMTP transport, the recipient address and the `/generate_draft` route are I/O and are left out.
- Api.SubmitTicket takes the posted conversation as a list of message objects. A body whose `conversation_history` is not such a list is not modelled. A missing key is the empty list.
- The start-up failure of the pipeline's own constructor is not modelled, only failures of loading the history.
- Unicode case mapping and whitespace beyond ASCII: `lower`, `title` and `strip` work on ASCII letters and ASCII/C0 whitespace.

## Findings

| source | as written | input that shows it | evidently intended | confidence | as-written member | corrected member |
|---|---|---|---|---|---|---|
| support_ai/data_loader.py:10,51,65-69 | `required_columns` is first bound at line 51, but the `except` block at 65-69 reads it; a `read_csv` failure at line 10 raises UnboundLocalError from the handler | a path that does not exist, so `read_csv` raises | any failure leaves the one-row frame of defaults | not executed | DataLoader.InitAsWritten, DataLoader.ReadFailureEscapes | DataLoader.InitCorrected, DataLoader.CorrectedAlwaysLoads |
