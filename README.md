# GEO analyzer — a verified model of its scoring and reporting core

The GEO (generative engine optimisation) analyzer rates how well a page's text
lends itself to being quoted by AI search engines. Given the text, a target
query and, optionally, the page's HTML, the pattern analyzer does the following:

- splits the text into sentences and words;
- measures eight things: sentence length, claim density, date markers,
  structure, entities, query alignment, information density and frontloading;
- folds those measurements into extractability, readability and citability
  scores on a 0–10 scale, plus their mean;
- cuts the text into 500-character chunks;
- emits rule-based suggestions.

When a semantic analysis is available, the top-level analyzer merges it into
the result. That analysis is a list of subject–predicate–object triples and a
list of typed named entities, both parsed from a language model's replies. The
merge overwrites the triple and entity metrics and blends a triple score into
extractability and the overall score. Finally, the report formatter renders
everything as a Markdown report with a fixed section order.

The model is written in Dafny, one module per concern:

| module | file | what it holds |
|---|---|---|
| `Numeric` | numeric.dfy | `Math.round` and the rounding to one or two decimals |
| `Text` | text.dfy | JavaScript `split` on a repeated character class, `split` on one character, `trim`, `join`, `includes`, `toLowerCase` |
| `Lists` | lists.dfy | filter-map and `slice(0, n)` over sequences |
| `GeoTypes` | geo_types.dfy | the records of the analysis: scores, metrics, chunks, suggestions, triples, entities, the report input |
| `Patterns` | patterns.dfy | the regular expressions as named predicates and match counters, and the environment (HTML counts, number printing) |
| `Tokenizer` | tokenizer.dfy | sentence and word extraction |
| `Extractors` | extractors.dfy | the metric extractors |
| `Scoring` | scoring.dfy | the three weighted scores and the overall score |
| `Chunking` | chunking.dfy | the 500-character chunk simulation |
| `Recommendations` | recommendations.dfy | the seven suggestion rules |
| `PatternAnalyzer` | pattern_analyzer.dfy | the whole pattern analysis |
| `SemanticAnalyzer` | semantic_analyzer.dfy | the triple-line parser, the entity filter and entity-type diversity |
| `GeoAnalyzer` | geo_analyzer.dfy | content resolution, the query default, the in-place semantic merge (`class PatternResult`), the top-level analysis |
| `ReportFormatter` | report_formatter.dfy | the Markdown report |

Some code in the source pushes onto a local array inside loops. That code is
written as methods with loops, and each method is proved equal to a function
that states the result:

- `AnalyzeClaimDensity`, `AnalyzeDateMarkers`, `FirstClaimScan`, `AnalyzeFrontloading`;
- `SliceChunks`, `GenerateRecommendations`, `ParseTriples`, `MatchLines`;
- `FormatDetailedAnalysis`, `FormatChunking`, `FormatRecommendations`, `FormatMarkdown`.

The semantic merge updates the pattern result in place, so it is a method of
the class `PatternResult`, which has `modifies` and `reads` frames.

## Model

| member | source | states |
|---|---|---|
| Numeric.Round | src/services/pattern-analyzer.ts:79-82 | `Math.round` lands within one half of its argument |
| Numeric.Round1 | src/services/pattern-analyzer.ts:79-82 | rounding to one decimal moves a value by at most 0.05 |
| Numeric.Round2 | src/services/semantic-analyzer.ts:24 | rounding to two decimals moves a value by at most 0.005 |
| Numeric.Round1Monotonic | src/services/pattern-analyzer.ts:79-82 | rounding to one decimal preserves order |
| Numeric.Round1Within | src/services/pattern-analyzer.ts:79-82 | rounding keeps a value inside any interval whose ends are multiples of 0.1 |
| Text.SplitRuns | src/services/pattern-analyzer.ts:41 | splitting on a repeated separator class gives at least one piece, none containing a separator |
| Text.SplitRunsKeepsContent | src/services/pattern-analyzer.ts:41 | gluing the pieces back gives the input minus exactly its separator characters |
| Text.SplitChar | src/services/semantic-analyzer.ts:112 | `split('\n')` gives at least one piece and no piece holds the separator |
| Text.SplitJoin | src/services/semantic-analyzer.ts:112 | splitting lines joined by a separator none contains returns the lines |
| Text.NonEmpty | src/services/pattern-analyzer.ts:41 | the filter `w.length > 0` keeps exactly the non-empty pieces |
| Text.Trim | src/services/pattern-analyzer.ts:112 | `trim` yields a slice of the input with only white space cut from either end, and with no white space at its ends |
| Text.TrimPadded | src/services/report-formatter.ts:37-42 | trimming white-space padding around a text with no white space at its ends returns that text |
| Text.JoinedAt | src/services/report-formatter.ts:27 | in `join`, each piece sits at its offset |
| Text.OffsetIncreasing | src/services/report-formatter.ts:27 | with a non-empty separator, each piece of a `join` ends before the next begins |
| Text.Lower | src/services/pattern-analyzer.ts:261-262 | lowercasing keeps the length |
| Lists.Take | src/services/semantic-analyzer.ts:127 | `slice(0, n)` is a prefix of length `min(n, length)` |
| Lists.MapFilterAt | src/services/semantic-analyzer.ts:115-125 | a filter-map keeps, in order, exactly the images of the elements it accepts |
| Tokenizer.TrimAll | src/services/pattern-analyzer.ts:112 | every piece is trimmed and the count is kept |
| Tokenizer.ExtractSentences | src/services/pattern-analyzer.ts:109-114 | sentences are non-empty, trimmed and free of `.`, `!` and `?` |
| Tokenizer.Words | src/services/pattern-analyzer.ts:41 | words are non-empty and hold no white space |
| Tokenizer.WordsKeepContent | src/services/pattern-analyzer.ts:41 | the words, concatenated, are the text minus its white space |
| Patterns.Hits | src/services/pattern-analyzer.ts:149-155 | the patterns matching a sentence are at most all of them, and some match iff `patterns.some(...)` holds |
| Extractors.SentenceWords | src/services/pattern-analyzer.ts:117 | the unfiltered word split of a sentence counts at least 1 |
| Extractors.TotalWords | src/services/pattern-analyzer.ts:118 | the summed word counts are at least the number of sentences |
| Extractors.LongIndices | src/services/pattern-analyzer.ts:121-127 | exactly the sentences of more than 30 words, by increasing original index |
| Extractors.AverageWords | src/services/pattern-analyzer.ts:118 | the average is 0 with no sentences and at least 1 otherwise |
| Extractors.Problematic | src/services/pattern-analyzer.ts:121-132 | the first `min(5, n)` long sentences, in document order, each labelled by its original index and over 30 words |
| Extractors.AnalyzeSentenceLength | src/services/pattern-analyzer.ts:116-134 | target 20; average 0 iff no sentences; at most 5 problematic entries, each over 30 words |
| Extractors.ClaimMatches | src/services/pattern-analyzer.ts:148-155 | the claim count is at most patterns × sentences |
| Extractors.ClaimDensityOf | src/services/pattern-analyzer.ts:136-165 | density is non-negative with target 4 |
| Extractors.AnalyzeClaimDensity | src/services/pattern-analyzer.ts:136-165 | the nested counting loops compute the claim-density metric |
| Extractors.CountDated | src/services/pattern-analyzer.ts:175-180 | dated sentences are at most all sentences |
| Extractors.Recommended | src/services/pattern-analyzer.ts:182 | `max(5, floor(n * 0.1))` equals `max(5, n div 10)` and is at least 5, so the score divisions never divide by zero |
| Extractors.AnalyzeDateMarkers | src/services/pattern-analyzer.ts:167-189 | the counting loop computes the metric; found ≤ sentences, recommended ≥ 5 |
| Extractors.StructureSource | src/services/pattern-analyzer.ts:47 | `html \|\| content`: the HTML when it is non-empty, else the text |
| Extractors.AnalyzeStructure | src/services/pattern-analyzer.ts:191-229 | heading and list counts come from the markup; the table-of-contents flag holds iff the lowercased text contains "table of contents" |
| Extractors.QueryWords | src/services/pattern-analyzer.ts:261 | a query always yields at least one word, so the division never divides by zero |
| Extractors.CoveredCount | src/services/pattern-analyzer.ts:264 | covered words number all of them iff every word occurs, and none iff no word occurs |
| Extractors.AnalyzeQueryAlignment | src/services/pattern-analyzer.ts:260-278 | one informational intent with coverage 0–10: 10 when every query word occurs, 0 when none does |
| Extractors.EmptyQueryFullyCovered | src/services/pattern-analyzer.ts:261-264 | an empty query splits into one empty word, which every text contains, so coverage is 10 |
| Extractors.PredictedCoverage | src/services/pattern-analyzer.ts:293-311 | the coverage curve stays between 13 and 61 |
| Extractors.Advice | src/services/pattern-analyzer.ts:331-338 | expand iff under 600 words, optimal iff 600–1500, condense iff over 1500 |
| Extractors.BudgetAt | src/services/pattern-analyzer.ts:315-328 | a grounding budget never exceeds its rank's cap in words or percent |
| Extractors.AnalyzeInformationDensity | src/services/pattern-analyzer.ts:291-348 | the range is 800–1500; coverage is the rounded curve in 13–61; budgets are capped at 531/28, 378/20 and 266/13 |
| Extractors.ShortPagesExcellent | src/services/pattern-analyzer.ts:296-298 | under 1000 words coverage is 61, rated excellent |
| Extractors.CategoryBands | src/services/pattern-analyzer.ts:296-311 | the category bands are exactly <1000, [1000,2000), [2000,3000), ≥3000 |
| Extractors.CoverageContinuous | src/services/pattern-analyzer.ts:299-310 | the pieces of the curve meet at 1000 (61), 2000 (35) and 3000 (22), and it reaches 13 at 5000 |
| Extractors.CoverageNonIncreasing | src/services/pattern-analyzer.ts:296-311 | more words never raise coverage, before or after rounding |
| Extractors.CoverageStrictlyDecreasing | src/services/pattern-analyzer.ts:299-309 | between 1000 and 5000 words coverage strictly falls |
| Extractors.ClaimSearch | src/services/pattern-analyzer.ts:389-396 | the search returns the first matching prefix length, or the word count |
| Extractors.FirstClaimPosition | src/services/pattern-analyzer.ts:388-396 | the least `i ≥ 1` whose first `i` words match a claim pattern, or the word count when none does |
| Extractors.FrontloadingScore | src/services/pattern-analyzer.ts:400-415 | the clamped score lies in [3, 9.5] |
| Extractors.FrontloadingScoreMonotonic | src/services/pattern-analyzer.ts:400-415 | more early claims or entities, or an earlier first claim, never lower the score |
| Extractors.FrontloadingOf | src/services/pattern-analyzer.ts:354-431 | the position is at most the word count; the rounded score is in [3, 9.5] |
| Extractors.FirstClaimScan | src/services/pattern-analyzer.ts:389-396 | the loop with `break` computes the first-claim position |
| Extractors.AnalyzeFrontloading | src/services/pattern-analyzer.ts:354-431 | the imperative score computation equals the frontloading metric |
| Scoring.SentenceScore | src/services/pattern-analyzer.ts:441 | the sentence score is in [0,10] and is 10 at the target |
| Scoring.CappedRatio | src/services/pattern-analyzer.ts:442-443 | a capped ratio is in [0,10] and is 10 once the part reaches the whole |
| Scoring.ExtractabilityParts | src/services/pattern-analyzer.ts:441-449 | five sub-scores, each in [0,10] when the metrics are in range; the sentence score is 10 at the target length, and the claim and date scores are 10 once their targets are reached |
| Scoring.ExtractabilityIsWeightedMean | src/services/pattern-analyzer.ts:452-458 | the weights sum to 1, so extractability lies between its smallest and largest sub-score |
| Scoring.ReadabilityScore | src/services/pattern-analyzer.ts:461-469 | readability is in [0,10] |
| Scoring.CitabilityScore | src/services/pattern-analyzer.ts:471-478 | citability is in [0,10] |
| Scoring.PartsInRange | src/services/pattern-analyzer.ts:441-449 | with metrics in their ranges every sub-score is in [0,10] |
| Scoring.FinalScores | src/services/pattern-analyzer.ts:75-83 | each score is its raw value rounded to one decimal; overall is the mean of the unrounded three, rounded; all lie in [0,10] |
| Chunking.Slice | src/services/pattern-analyzer.ts:489 | a slice is 500 characters, or whatever remains |
| Chunking.TokenEstimate | src/services/pattern-analyzer.ts:495 | the token estimate is at least 1, because the split is unfiltered |
| Chunking.SliceChunks | src/services/pattern-analyzer.ts:488-497 | the stepped loop makes one chunk per 500-character slice, in order |
| Chunking.SimulateChunking | src/services/pattern-analyzer.ts:480-504 | at most 3 chunks, the first slices in order; coherence 0.8; no problematic boundaries |
| Chunking.ChunksTileContent | src/services/pattern-analyzer.ts:486-503 | the chunks concatenate to a prefix of the text; all but the last are exactly 500 long; token counts are ≥ 1 and coherence is 0.8 |
| Recommendations.Condensation | src/services/pattern-analyzer.ts:519-529 | condensation is high priority iff the page is severely diluted, else medium, and applies to the entire document |
| Recommendations.Expansion | src/services/pattern-analyzer.ts:531-540 | expansion is medium priority and applies to the entire document |
| Recommendations.Frontloading | src/services/pattern-analyzer.ts:543-552 | frontloading is high priority and applies to the opening paragraph |
| Recommendations.Simplification | src/services/pattern-analyzer.ts:554-563 | sentence simplification is high priority and applies throughout the document |
| Recommendations.ClaimDensityBoost | src/services/pattern-analyzer.ts:565-574 | claim-density enhancement is high priority and applies to key sections |
| Recommendations.TemporalMarkers | src/services/pattern-analyzer.ts:576-585 | temporal markers are medium priority and apply to claims and statistics |
| Recommendations.StructuralEnhancement | src/services/pattern-analyzer.ts:587-596 | structural enhancement is medium priority and applies to the document structure |
| Recommendations.Candidates | src/services/pattern-analyzer.ts:519-596 | the seven candidates come in rule order and none is low priority |
| Recommendations.PushIf | src/services/pattern-analyzer.ts:519-596 | a rule appends its suggestion exactly when its guard holds |
| Recommendations.GenerateRecommendations | src/services/pattern-analyzer.ts:506-599 | the sequence of guarded pushes yields the fired candidates in rule order |
| Recommendations.FiredIndicesBound | src/services/pattern-analyzer.ts:519-540 | two exclusive leading guards leave at least one rule unfired |
| Recommendations.RecommendationRules | src/services/pattern-analyzer.ts:516-598 | rule order, each rule at most once, present iff its guard holds, at most 6, never low, condensation high iff severely diluted |
| Recommendations.SuggestsIffGuard | src/services/pattern-analyzer.ts:516-598 | a rule's name appears among the suggestions iff its guard holds |
| Recommendations.RuleTriggers | src/services/pattern-analyzer.ts:519-596 | each of the seven suggestions is made exactly when its threshold on the metrics is crossed |
| PatternAnalyzer.MetricsOf | src/services/pattern-analyzer.ts:40-54 | the metrics are in the ranges the scores need; the word count and heading count come from the text and markup; the query is recorded |
| PatternAnalyzer.AnalysisOf | src/services/pattern-analyzer.ts:39-107 | the result carries these metrics, scores in [0,10], the chunking of the text and the suggestions for the metrics |
| PatternAnalyzer.Analyze | src/services/pattern-analyzer.ts:39-107 | the step-by-step analysis equals the analysis function |
| PatternAnalyzer.AnalysisBounds | src/services/pattern-analyzer.ts:75-105 | scores are in [0,10]; at most 3 chunks; at most 6 suggestions, none low priority |
| SemanticAnalyzer.IndexFrom | src/services/semantic-analyzer.ts:116 | the scan finds the next delimiter, with none before it |
| SemanticAnalyzer.MatchAtComplete | src/services/semantic-analyzer.ts:116 | a well-formed `(a\|b\|c)` at the start of a line matches with exactly those groups |
| SemanticAnalyzer.LeftmostStart | src/services/semantic-analyzer.ts:116 | the match starts at the leftmost `(` from which the pattern matches |
| SemanticAnalyzer.Match | src/services/semantic-analyzer.ts:116 | every match has three non-empty groups; the first two hold no `\|` and the third no `)` |
| SemanticAnalyzer.LineTripleGood | src/services/semantic-analyzer.ts:116-123 | a parsed triple has confidence 0.9, trimmed parts, no `\|` in subject or predicate and no `)` in object |
| SemanticAnalyzer.ParseTriples | src/services/semantic-analyzer.ts:111-128 | the line loop yields the parsed triples, at most 15 |
| SemanticAnalyzer.MatchLines | src/services/semantic-analyzer.ts:115-125 | the loop pushes one triple per matching line, in line order |
| SemanticAnalyzer.TriplesFollowLines | src/services/semantic-analyzer.ts:112-127 | the triples are, in line order, one per matching non-blank line and none for other lines, cut to the first 15 |
| SemanticAnalyzer.ParsedTriplesGood | src/services/semantic-analyzer.ts:116-123 | every parsed triple has confidence 0.9 and trimmed parts |
| SemanticAnalyzer.WrittenLine | src/services/semantic-analyzer.ts:112-123 | a triple written as `(s\|p\|o)` is a non-blank line that parses back to itself |
| SemanticAnalyzer.ParseEmpty | src/services/semantic-analyzer.ts:112 | an empty reply yields no triples |
| SemanticAnalyzer.ParseWrittenTriples | src/services/semantic-analyzer.ts:111-128 | up to 15 writable triples, one per line, parse back to the same triples |
| SemanticAnalyzer.Member | src/services/semantic-analyzer.ts:141-142 | a property is present iff the value is an object with that key |
| SemanticAnalyzer.KindOf | src/services/semantic-analyzer.ts:143 | a type is accepted only when it is the exact name of one of the six types |
| SemanticAnalyzer.KindNames | src/services/semantic-analyzer.ts:143 | each of the six names is accepted as its type |
| SemanticAnalyzer.Keep | src/services/semantic-analyzer.ts:140-144 | a kept entity has a truthy `text` and an allowed `type` |
| SemanticAnalyzer.KeepExactly | src/services/semantic-analyzer.ts:140-144 | an item with an allowed type is kept iff its text is truthy |
| SemanticAnalyzer.ParsedEntities | src/services/semantic-analyzer.ts:134-150 | at most 30 entities; none when the reply is not an array or contains `null` |
| SemanticAnalyzer.EntitiesFollowItems | src/services/semantic-analyzer.ts:139-145 | the entities are the accepted items in order, cut to 30 |
| SemanticAnalyzer.Kinds | src/services/semantic-analyzer.ts:18 | the set of types holds every entity's type and only the six |
| SemanticAnalyzer.DiversityRange | src/services/semantic-analyzer.ts:18-24 | diversity is in [0,1]; it is 0 iff there are no entities and 1 iff all six types occur |
| SemanticAnalyzer.Analysis | src/services/semantic-analyzer.ts:11-29 | at most 15 triples and 30 entities; diversity in [0,1] and computed from the entities |
| GeoAnalyzer.Pasted | src/services/geo-analyzer.ts:32-38 | pasted text serves as both content and HTML; the word count is the unfiltered split, at least 1 |
| GeoAnalyzer.ResolveContent | src/services/geo-analyzer.ts:30-41 | a URL is fetched; otherwise pasted text is used; with neither, the error "Either url or content must be provided" |
| GeoAnalyzer.TargetQuery | src/services/geo-analyzer.ts:43 | the given query, else "general content analysis" |
| GeoAnalyzer.Density | src/services/geo-analyzer.ts:59 | per-100-word density is non-negative and 0 for no items |
| GeoAnalyzer.Examples | src/services/geo-analyzer.ts:61-64 | at most 3 examples, the first triples in order, each holding exactly its triple |
| GeoAnalyzer.SemanticScore | src/services/geo-analyzer.ts:74 | the semantic score is `min(10, n)`: in [0,10] and 10 iff n ≥ 10 |
| GeoAnalyzer.BlendScores | src/services/geo-analyzer.ts:74-80 | readability and citability are untouched; scores stay in [0,10] |
| GeoAnalyzer.PatternResult.constructor | src/services/geo-analyzer.ts:45 | the object holds the pattern analysis result |
| GeoAnalyzer.PatternResult.MergeSemantic | src/services/geo-analyzer.ts:56-81 | the in-place update leaves the object holding the merged result |
| GeoAnalyzer.MergeAbsent | src/services/geo-analyzer.ts:56 | with no semantic result nothing changes |
| GeoAnalyzer.MergeTouchesOnly | src/services/geo-analyzer.ts:57-80 | the merge changes only triple metrics, entity metrics, extractability and overall |
| GeoAnalyzer.MergedMetrics | src/services/geo-analyzer.ts:57-72 | the total is the triple count; quality × max(1, n) is the confidence sum; ≤ 3 examples of one triple each; the entity total and diversity are copied; densities are ≥ 0 |
| GeoAnalyzer.MergeKeepsRange | src/services/geo-analyzer.ts:74-80 | the merged scores stay in [0,10] |
| GeoAnalyzer.BlendMonotonic | src/services/geo-analyzer.ts:74-80 | more triples never lower extractability or overall |
| GeoAnalyzer.QualityRange | src/services/geo-analyzer.ts:60 | with confidences in [0,1], quality is in [0,1] |
| GeoAnalyzer.UniformQuality | src/services/geo-analyzer.ts:60 | equal confidences give that confidence as quality, or 0 with no triples |
| GeoAnalyzer.ParsedQuality | src/services/geo-analyzer.ts:60 | parsed triples have quality 0.9, or 0 when none |
| GeoAnalyzer.SemanticOf | src/services/geo-analyzer.ts:47-54 | a semantic result exists iff the replies arrived |
| GeoAnalyzer.Analyze | src/services/geo-analyzer.ts:27-94 | the analysis returns the resolution error or the formatted report |
| GeoAnalyzer.AnalyzeContent | src/services/geo-analyzer.ts:45-93 | pattern analysis, in-place merge, record and formatting give the report |
| GeoAnalyzer.ResolveErrorReported | src/services/geo-analyzer.ts:39-41 | a resolution failure is the result, and with no URL it is the missing-input error |
| GeoAnalyzer.RecordFacts | src/services/geo-analyzer.ts:83-91 | the record has version 3.0.1, the query, the timestamp, and unchanged chunking and suggestions; scores stay in range; without semantics, scores and metrics pass through unchanged |
| GeoAnalyzer.ReportedScoresInRange | src/services/geo-analyzer.ts:45-91 | the reported scores are in [0,10] |
| GeoAnalyzer.SemanticRecord | src/services/geo-analyzer.ts:57-72 | the reported triple total is the parsed count (≤ 15) at quality 0.9 or 0; the entity total is the filtered count (≤ 30); diversity is in [0,1] |
| ReportFormatter.Emoji | src/services/report-formatter.ts:31-35 | green iff ≥ 7, yellow iff in [5,7), red iff < 5 |
| ReportFormatter.FormatScores | src/services/report-formatter.ts:30-43 | trimming leaves exactly the four score lines, joined |
| ReportFormatter.MetricsTrimmed | src/services/report-formatter.ts:45-70 | trimming leaves the metric lines, joined, when the printed diversity does not end in white space |
| ReportFormatter.PushExamples | src/services/report-formatter.ts:87-95 | the example loop appends each example's block in order |
| ReportFormatter.FormatDetailedAnalysis | src/services/report-formatter.ts:72-99 | the pushes give the problem section, then the example section |
| ReportFormatter.ProblemsListed | src/services/report-formatter.ts:76-82 | the problem heading appears iff there are problematic sentences, each followed by its numbered two-line block in order |
| ReportFormatter.FormatChunking | src/services/report-formatter.ts:101-119 | the pushes give the chunking lines |
| ReportFormatter.ChunkShown | src/services/report-formatter.ts:109-115 | chunk `k` is numbered `k + 1` and previewed by its first 150 characters and `...` |
| ReportFormatter.ChunksShown | src/services/report-formatter.ts:107-116 | at most 3 chunks are shown, each numbered and previewed |
| ReportFormatter.PushGroup | src/services/report-formatter.ts:128-137 | a group adds its heading and blocks only when non-empty |
| ReportFormatter.FormatRecommendations | src/services/report-formatter.ts:121-158 | the text is the high, medium and low sections, in that order |
| ReportFormatter.GroupsPartition | src/services/report-formatter.ts:122-124 | the three groups together hold every suggestion exactly once |
| ReportFormatter.GroupOrder | src/services/report-formatter.ts:122-124 | each group holds exactly the suggestions of its priority, in input order |
| ReportFormatter.SectionHeading | src/services/report-formatter.ts:128-155 | a section holds a priority heading iff it is that priority's section and non-empty |
| ReportFormatter.HeadingIffMembers | src/services/report-formatter.ts:121-158 | a group's heading appears iff the group has members |
| ReportFormatter.GroupNumbered | src/services/report-formatter.ts:130-154 | the `k`-th group member fills the `k`-th block: 5 lines (high), 4 without `Current:` (medium) or 2 (low), opening with number `k + 1` and its method |
| ReportFormatter.Assemble | src/services/report-formatter.ts:5-27 | 14 pieces: the six headings at pieces 0, 4, 6, 8, 10 and 12, and the scores, metrics, details, chunking and recommendations texts each directly after its heading |
| ReportFormatter.FormatMarkdown | src/services/report-formatter.ts:4-28 | the 14 pushes, joined by line breaks, give the report |
| ReportFormatter.HeadingPlaces | src/services/report-formatter.ts:7-24 | the six headings are pieces 0, 4, 6, 8, 10 and 12 |
| ReportFormatter.HeadingsAt | src/services/report-formatter.ts:7-27 | each of the six headings occurs in the report at its piece's offset |
| ReportFormatter.SectionOrder | src/services/report-formatter.ts:7-27 | the headings appear in order: title, scores, metrics, detail, chunking, recommendations |

## Left out

- Fetching a URL (`ContentFetcher`) is not modelled. It is the `fetch` parameter of `GeoAnalyzer.Analyze`, whose result is used as given.
- The language-model calls and `Promise.all` are not modelled. The two replies are a parameter: the triple reply as text and the entity reply as an already parsed JSON value. Absent replies stand for a missing API key or a failed call, and both yield no semantic result.
- `JSON.parse` and the removal of code fences before it are not modelled. A reply that fails to parse is `None`.
- Entity fields other than `text` and `type` are not kept.
- The regular expressions (claim, fact, date and entity patterns) are uninterpreted: per pattern, a test and a global match count from `Patterns.RuleLibrary`. The `gi` global-count semantics, including the case-insensitive `[A-Z]{2,}` quirk, are not modelled.
- The two claim lists are distinct in the model, as in the code: the frontloading list adds the unit pattern and drops the comparative one, although a source comment says they are the same.
- The `(…|…|…)` triple pattern is modelled concretely: the leftmost match, with its backtracking-free groups.
- cheerio's heading and list counts, and the section split with a capture group, are functions supplied by `Patterns.Env`. Whether cheerio throws, which selects the markdown fallback, is part of that function.
- Floating-point arithmetic is modelled with exact reals. Number printing is `Env.show`, an uninterpreted function. Bit-exact agreement with IEEE-754 doubles and their printing is not claimed.
- Text.Lower: lowercases ASCII letters only, whereas JavaScript's `toLowerCase` covers all of Unicode.
- String lengths count code points, whereas JavaScript counts UTF-16 code units. Chunk boundaries and the 150-character preview can differ on text outside the Basic Multilingual Plane.
- Texts without words are excluded by a precondition, because the source divides by the word count (`PatternAnalyzer.Analyze`, `GeoAnalyzer.Analyze`).
- The 500-character minimum that the source enforces (src/index.ts:99-101 and src/services/content-fetcher.ts:48-50) is kept as `GeoAnalyzer.Accepted`. The rest of the server (tool registration, schemas, transport) is not modelled.
- The timestamp is a parameter (`analyzedAt`).
- GeoAnalyzer.Analyze: requires the resolved content to meet `Accepted`, that is, the 500-character minimum plus a non-empty word list. The source enforces the minimum on both call paths: src/index.ts:99-101 for pasted text and src/services/content-fetcher.ts:48-50 for fetched pages. The model assumes that the abstract `fetch` parameter keeps that check.
- `analyzeEntities` counts generic words and then discards the count. Only its all-zero result is modelled.
- `analyzeSemanticTriples` always returns zeros, and that is what is modelled.
- The output format option is not modelled: the analyzer never reads it.
- The fixed suggestion texts are passed in as a `Recommendations.Wording` record. `Recommendations.SourceWording` records the source's own wording. The proofs hold for any wording.
- ReportFormatter.MetricsTrimmed: the joined-lines form is proved only when the printed diversity does not end in white space. Otherwise `trim` would also cut that white space.
- Extractors.QueryWords: the query words are neither deduplicated nor filtered for empty words, as src/services/pattern-analyzer.ts:261-264 computes them.
- The emptiness checks on the optional fields of the detailed analysis (`examples &&`, `chunks &&`) are not modelled, because the model's records always carry these lists.
