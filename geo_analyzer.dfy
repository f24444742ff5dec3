/**
 * `GeoAnalyzer.analyze`: resolves the page to analyse, runs the pattern
 * analyzer on it, merges the optional semantic result into the pattern
 * result in place, and formats the report.
 *
 * The page fetch and the language-model calls are inputs: `fetch` stands for
 * the content fetcher, and the two model replies (absent when no semantic
 * analyzer is configured or when it fails) for the semantic analyzer's calls.
 */
module GeoAnalyzer {
  import opened Wrappers
  import opened Numeric
  import opened Text
  import opened GeoTypes
  import opened Tokenizer
  import opened Patterns
  import PatternAnalyzer
  import Recommendations
  import SemanticAnalyzer
  import ReportFormatter

  const Version := "3.0.1"
  const DefaultQuery := "general content analysis"
  const PastedTitle := "Pasted Content"
  const MissingInput := "Either url or content must be provided"
  /** How many triples are shown as examples after the merge. */
  const ExampleCount: nat := 3
  /** The shortest page the server accepts. */
  const MinContentLength: nat := 500

  datatype AnalysisOptions = AnalysisOptions(url: Option<string>, content: Option<string>, query: Option<string>)

  /** The raw replies to the two model calls: the triple lines and the parsed entity list. */
  datatype Replies = Replies(triples: string, entities: Option<Json>)

  /** An optional string option that is truthy: present and not empty. */
  predicate Given(s: Option<string>) {
    s.Some? && s.value != []
  }

  // ---------------------------------------------------------------------
  // The page and the query

  /** The record built for pasted text: `html` is the text itself, the word count its unfiltered white-space split. */
  function Pasted(content: string): (c: ContentData)
    ensures c.content == content && c.html == content
    ensures c.wordCount >= 1 && c.wordCount >= |Words(content)|
  {
    ContentData(PastedTitle, content, content, |SplitRuns(content, IsSpace)|)
  }

  /** The page: fetched when a URL is given, else the pasted text, else an error. */
  function ResolveContent(options: AnalysisOptions, fetch: string -> Result<ContentData, string>): (r: Result<ContentData, string>)
    ensures Given(options.url) ==> r == fetch(options.url.value)
    ensures !Given(options.url) && Given(options.content) ==> r == Success(Pasted(options.content.value))
    ensures !Given(options.url) ==> (r.Failure? <==> !Given(options.content))
    ensures !Given(options.url) && !Given(options.content) ==> r.error == MissingInput
  {
    if Given(options.url) then fetch(options.url.value)
    else if Given(options.content) then Success(Pasted(options.content.value))
    else Failure(MissingInput)
  }

  /** `options.query || 'general content analysis'`: never empty. */
  function TargetQuery(options: AnalysisOptions): (q: string)
    ensures q != []
    ensures Given(options.query) ==> q == options.query.value
    ensures !Given(options.query) ==> q == DefaultQuery
  {
    if Given(options.query) then options.query.value else DefaultQuery
  }

  // ---------------------------------------------------------------------
  // The semantic merge

  /** `Math.round(n / wordCount * 100 * 100) / 100`: items per hundred words, to two decimals. */
  function Density(n: nat, wordCount: nat): (d: real)
    requires wordCount > 0
    ensures d >= 0.0
    ensures n == 0 ==> d == 0.0
  {
    Ratio(n as real, wordCount as real);
    Round2(n as real / wordCount as real * 100.0)
  }

  /** `triples.reduce((sum, t) => sum + t.confidence, 0)`, folding from the left. */
  function ConfidenceSum(ts: seq<Triple>): real {
    if ts == [] then 0.0 else ConfidenceSum(ts[..|ts| - 1]) + ts[|ts| - 1].confidence
  }

  /** The mean confidence, with `max(1, n)` as divisor so that no triples give 0. */
  function Quality(ts: seq<Triple>): real {
    ConfidenceSum(ts) / MaxInt(1, |ts|) as real
  }

  /** An example: the triple written as a sentence, holding that triple alone. */
  function ExampleOf(t: Triple): TripleExample {
    TripleExample(t.subject + " " + t.pred + " " + t.obj, [t])
  }

  /** `triples.slice(0, 3).map(...)`: the first three triples, one example each, in order. */
  function Examples(ts: seq<Triple>): (es: seq<TripleExample>)
    ensures |es| <= ExampleCount
    ensures |es| == ExampleCount || |es| == |ts|
    ensures forall k :: 0 <= k < |es| ==> k < |ts| && es[k].triples == [ts[k]]
  {
    var n := if |ts| <= ExampleCount then |ts| else ExampleCount;
    seq(n, k requires 0 <= k < n => ExampleOf(ts[k]))
  }

  function TripleMetrics(ts: seq<Triple>, wordCount: nat): SemanticTripleMetrics
    requires wordCount > 0
  {
    SemanticTripleMetrics(|ts|, Density(|ts|, wordCount), Quality(ts), Examples(ts))
  }

  function EntityMetricsOf(sem: SemanticResult, wordCount: nat): EntityMetrics
    requires wordCount > 0
  {
    EntityMetrics(|sem.entities|, Density(|sem.entities|, wordCount), sem.diversity)
  }

  /** `Math.min(10, n / 10 * 10)`: one point per triple, at most 10. */
  function SemanticScore(n: nat): (s: real)
    ensures 0.0 <= s <= 10.0
    ensures s == 10.0 <==> n >= 10
    ensures n <= 10 ==> s == n as real
  {
    Min(10.0, n as real / 10.0 * 10.0)
  }

  /**
   * The blended scores: extractability becomes the rounded mean of the old
   * extractability and the semantic score, and `overall` is recomputed from
   * that new value and the untouched readability and citability.
   */
  function BlendScores(s: GeoScores, triples: nat): (b: GeoScores)
    ensures b.readability == s.readability && b.citability == s.citability
    ensures ScoresInRange(s) ==> ScoresInRange(b)
  {
    var e := Round1((s.extractability + SemanticScore(triples)) / 2.0);
    var overall := Round1((e + s.readability + s.citability) / 3.0);
    assert ScoresInRange(s) ==> ScoresInRange(GeoScores(overall, e, s.readability, s.citability)) by {
      if ScoresInRange(s) {
        Round1Within((s.extractability + SemanticScore(triples)) / 2.0, 0, 100);
        Round1Within((e + s.readability + s.citability) / 3.0, 0, 100);
      }
    }
    GeoScores(overall, e, s.readability, s.citability)
  }

  /** The pattern result after the merge; without a semantic result it is left as it is. */
  function Merged(r: PatternAnalysisResult, semantic: Option<SemanticResult>, wordCount: nat): PatternAnalysisResult
    requires wordCount > 0
  {
    match semantic
    case None => r
    case Some(sem) =>
      r.(metrics := r.metrics.(semanticTriples := TripleMetrics(sem.triples, wordCount),
                               entities := EntityMetricsOf(sem, wordCount)),
         scores := BlendScores(r.scores, |sem.triples|))
  }

  /** The pattern analyzer's result, as the mutable object `analyze` updates in place. */
  class PatternResult {
    var scores: GeoScores
    var metrics: Metrics
    var chunking: Chunking
    var recommendations: seq<GeoRecommendation>

    function Value(): PatternAnalysisResult
      reads this
    {
      PatternAnalysisResult(scores, metrics, chunking, recommendations)
    }

    constructor (r: PatternAnalysisResult)
      ensures Value() == r
    {
      scores := r.scores;
      metrics := r.metrics;
      chunking := r.chunking;
      recommendations := r.recommendations;
    }

    /**
     * `if (semanticResult) { ... }`: overwrites the triple and entity metrics
     * and the extractability and overall scores, and nothing else.
     */
    method MergeSemantic(semantic: Option<SemanticResult>, wordCount: nat)
      requires wordCount > 0
      modifies this
      ensures Value() == Merged(old(Value()), semantic, wordCount)
    {
      if semantic.Some? {
        var sem := semantic.value;
        metrics := metrics.(semanticTriples := TripleMetrics(sem.triples, wordCount));
        metrics := metrics.(entities := EntityMetricsOf(sem, wordCount));
        var semanticScore := SemanticScore(|sem.triples|);
        var extractability := Round1((scores.extractability + semanticScore) / 2.0);
        scores := scores.(extractability := extractability);
        scores := scores.(overall := Round1((scores.extractability + scores.readability + scores.citability) / 3.0));
      }
    }
  }

  // ---------------------------------------------------------------------
  // Properties of the merge

  /** Without a semantic result, scores and metrics pass through unchanged. */
  lemma MergeAbsent(r: PatternAnalysisResult, wordCount: nat)
    requires wordCount > 0
    ensures Merged(r, None, wordCount) == r
  {
  }

  /**
   * With a semantic result, only the triple and entity metrics and the
   * extractability and overall scores change; the chunks, the
   * suggestions and every other metric stay as they were.
   */
  lemma MergeTouchesOnly(r: PatternAnalysisResult, sem: SemanticResult, wordCount: nat)
    requires wordCount > 0
    ensures var m := Merged(r, Some(sem), wordCount);
      && m.chunking == r.chunking && m.recommendations == r.recommendations
      && m.scores.readability == r.scores.readability && m.scores.citability == r.scores.citability
      && m.metrics.(semanticTriples := r.metrics.semanticTriples, entities := r.metrics.entities) == r.metrics
  {
  }

  /** The merged metrics: counts, examples and diversity as the semantic result gives them. */
  lemma MergedMetrics(r: PatternAnalysisResult, sem: SemanticResult, wordCount: nat)
    requires wordCount > 0
    ensures var m := Merged(r, Some(sem), wordCount).metrics;
      && m.semanticTriples.total == |sem.triples|
      && m.semanticTriples.quality * MaxInt(1, |sem.triples|) as real == ConfidenceSum(sem.triples)
      && |m.semanticTriples.examples| <= ExampleCount
      && (forall k :: 0 <= k < |m.semanticTriples.examples| ==> m.semanticTriples.examples[k].triples == [sem.triples[k]])
      && m.entities.total == |sem.entities| && m.entities.diversity == sem.diversity
      && m.semanticTriples.density >= 0.0 && m.entities.density >= 0.0
  {
  }

  /** Scores on the 0 to 10 scale stay there after the merge. */
  lemma MergeKeepsRange(r: PatternAnalysisResult, semantic: Option<SemanticResult>, wordCount: nat)
    requires wordCount > 0
    requires ScoresInRange(r.scores)
    ensures ScoresInRange(Merged(r, semantic, wordCount).scores)
  {
  }

  /** More triples never lower the blended extractability or the recomputed overall score. */
  lemma BlendMonotonic(s: GeoScores, n1: nat, n2: nat)
    requires n1 <= n2
    ensures BlendScores(s, n1).extractability <= BlendScores(s, n2).extractability
    ensures BlendScores(s, n1).overall <= BlendScores(s, n2).overall
  {
    var e1, e2 := BlendScores(s, n1).extractability, BlendScores(s, n2).extractability;
    Round1Monotonic((s.extractability + SemanticScore(n1)) / 2.0, (s.extractability + SemanticScore(n2)) / 2.0);
    Round1Monotonic((e1 + s.readability + s.citability) / 3.0, (e2 + s.readability + s.citability) / 3.0);
  }

  /** Triples sharing one confidence sum to that confidence times their number. */
  lemma {:induction false} UniformSum(ts: seq<Triple>, c: real)
    requires forall k :: 0 <= k < |ts| ==> ts[k].confidence == c
    ensures ConfidenceSum(ts) == |ts| as real * c
  {
    if ts != [] {
      UniformSum(ts[..|ts| - 1], c);
    }
  }

  /** Confidences between 0 and 1 give a quality between 0 and 1. */
  lemma {:induction false} QualityRange(ts: seq<Triple>)
    requires forall k :: 0 <= k < |ts| ==> 0.0 <= ts[k].confidence <= 1.0
    ensures 0.0 <= ConfidenceSum(ts) <= |ts| as real
    ensures 0.0 <= Quality(ts) <= 1.0
  {
    if ts != [] {
      QualityRange(ts[..|ts| - 1]);
    }
    Ratio(ConfidenceSum(ts), MaxInt(1, |ts|) as real);
  }

  /** Triples sharing one confidence have that confidence as quality, or 0 when there are none. */
  lemma UniformQuality(ts: seq<Triple>, c: real)
    requires forall k :: 0 <= k < |ts| ==> ts[k].confidence == c
    ensures Quality(ts) == if ts == [] then 0.0 else c
  {
    UniformSum(ts, c);
    if ts != [] {
      var n := |ts| as real;
      assert MaxInt(1, |ts|) as real == n;
      assert (n * c) / n == c;
    }
  }

  /** Triples parsed from a reply all carry confidence 0.9, so their quality is 0.9, or 0 when there are none. */
  lemma ParsedQuality(reply: string)
    ensures var ts := SemanticAnalyzer.ParsedTriples(reply);
      Quality(ts) == if ts == [] then 0.0 else SemanticAnalyzer.TripleConfidence
  {
    var ts := SemanticAnalyzer.ParsedTriples(reply);
    SemanticAnalyzer.ParsedTriplesGood(reply);
    UniformQuality(ts, SemanticAnalyzer.TripleConfidence);
  }

  // ---------------------------------------------------------------------
  // The analysis

  /** What the server accepts: at least 500 characters, at least one word, and a positive word count. */
  predicate Accepted(c: ContentData) {
    |c.content| >= MinContentLength && |Words(c.content)| > 0 && c.wordCount > 0
  }

  /** The semantic result: absent without replies, else the parse of the two replies. */
  function SemanticOf(replies: Option<Replies>): (s: Option<SemanticResult>)
    ensures s.Some? <==> replies.Some?
  {
    match replies
    case None => None
    case Some(rs) => Some(SemanticAnalyzer.Analysis(rs.triples, rs.entities))
  }

  /** The analysis record handed to the formatter: the pattern result after the merge, stamped with version and query. */
  function Record(p: PatternAnalysisResult, query: string, semantic: Option<SemanticResult>, wordCount: nat, analyzedAt: string): GeoAnalysis
    requires wordCount > 0
  {
    var r := Merged(p, semantic, wordCount);
    GeoAnalysis(analyzedAt, Version, query, r.scores, r.metrics, r.chunking, r.recommendations)
  }

  /** The report of an accepted page. */
  function ContentReport(env: Env, w: Recommendations.Wording, c: ContentData, query: string, replies: Option<Replies>, analyzedAt: string): string
    requires Accepted(c)
  {
    var p := PatternAnalyzer.AnalysisOf(env, c.content, query, Some(c.html), w);
    ReportFormatter.Report(Record(p, query, SemanticOf(replies), c.wordCount, analyzedAt), env.show)
  }

  /** The outcome of `analyze`: the report, or the error of resolving the page. */
  function AnalysisReport(env: Env, w: Recommendations.Wording, options: AnalysisOptions, fetch: string -> Result<ContentData, string>,
                          replies: Option<Replies>, analyzedAt: string): Result<string, string>
    requires ResolveContent(options, fetch).Success? ==> Accepted(ResolveContent(options, fetch).value)
  {
    match ResolveContent(options, fetch)
    case Failure(e) => Failure(e)
    case Success(c) => Success(ContentReport(env, w, c, TargetQuery(options), replies, analyzedAt))
  }

  /**
   * `analyze`: the page, the pattern result, the merge, the record, then the
   * report; the suggestions' wording and the timestamp are inputs.
   */
  method Analyze(env: Env, w: Recommendations.Wording, options: AnalysisOptions, fetch: string -> Result<ContentData, string>,
                 replies: Option<Replies>, analyzedAt: string) returns (report: Result<string, string>)
    requires ResolveContent(options, fetch).Success? ==> Accepted(ResolveContent(options, fetch).value)
    ensures report == AnalysisReport(env, w, options, fetch, replies, analyzedAt)
  {
    var contentData: ContentData;
    if Given(options.url) {
      var fetched := fetch(options.url.value);
      if fetched.Failure? {
        return Failure(fetched.error);
      }
      contentData := fetched.value;
    } else if Given(options.content) {
      contentData := Pasted(options.content.value);
    } else {
      return Failure(MissingInput);
    }
    var text := AnalyzeContent(env, w, contentData, TargetQuery(options), replies, analyzedAt);
    report := Success(text);
  }

  /** The steps of `analyze` once the page is known. */
  method AnalyzeContent(env: Env, w: Recommendations.Wording, contentData: ContentData, query: string,
                        replies: Option<Replies>, analyzedAt: string) returns (text: string)
    requires Accepted(contentData)
    ensures text == ContentReport(env, w, contentData, query, replies, analyzedAt)
  {
    var analysis := PatternAnalyzer.Analyze(env, contentData.content, query, Some(contentData.html), w);
    var patternResult := new PatternResult(analysis);
    var semanticResult := SemanticOf(replies);
    patternResult.MergeSemantic(semanticResult, contentData.wordCount);
    var record := GeoAnalysis(analyzedAt, Version, query, patternResult.scores, patternResult.metrics,
                              patternResult.chunking, patternResult.recommendations);
    text := ReportFormatter.FormatMarkdown(record, env.show);
  }

  // ---------------------------------------------------------------------
  // Properties of the analysis

  /** A page that cannot be resolved ends the analysis with that error; with no input at all it is the fixed message. */
  lemma ResolveErrorReported(env: Env, w: Recommendations.Wording, options: AnalysisOptions, fetch: string -> Result<ContentData, string>,
                             replies: Option<Replies>, analyzedAt: string)
    requires ResolveContent(options, fetch).Failure?
    ensures AnalysisReport(env, w, options, fetch, replies, analyzedAt) == Failure(ResolveContent(options, fetch).error)
    ensures !Given(options.url) ==> AnalysisReport(env, w, options, fetch, replies, analyzedAt) == Failure(MissingInput)
  {
  }

  /**
   * The record reports version 3.0.1, the target query and the timestamp;
   * the chunks and suggestions are the pattern analyzer's; scores on the
   * 0 to 10 scale stay there; and without a semantic result the scores and
   * metrics are the pattern analyzer's own.
   */
  lemma RecordFacts(p: PatternAnalysisResult, query: string, semantic: Option<SemanticResult>, wordCount: nat, analyzedAt: string)
    requires wordCount > 0
    ensures var a := Record(p, query, semantic, wordCount, analyzedAt);
      && a.version == Version && a.targetQuery == query && a.analyzedAt == analyzedAt
      && a.chunking == p.chunking && a.recommendations == p.recommendations
      && (ScoresInRange(p.scores) ==> ScoresInRange(a.scores))
      && (semantic.None? ==> a.scores == p.scores && a.metrics == p.metrics)
  {
    if ScoresInRange(p.scores) {
      MergeKeepsRange(p, semantic, wordCount);
    }
  }

  /** The reported scores lie on the 0 to 10 scale, with or without a semantic result. */
  lemma ReportedScoresInRange(env: Env, w: Recommendations.Wording, c: ContentData, query: string, replies: Option<Replies>, analyzedAt: string)
    requires Accepted(c)
    ensures var p := PatternAnalyzer.AnalysisOf(env, c.content, query, Some(c.html), w);
      ScoresInRange(Record(p, query, SemanticOf(replies), c.wordCount, analyzedAt).scores)
  {
    var p := PatternAnalyzer.AnalysisOf(env, c.content, query, Some(c.html), w);
    MergeKeepsRange(p, SemanticOf(replies), c.wordCount);
  }

  /**
   * With model replies, the reported triple count and quality are those of
   * the parsed triples (quality 0.9, or 0 with none), the entity count that
   * of the kept entities, and the diversity lies between 0 and 1.
   */
  lemma SemanticRecord(p: PatternAnalysisResult, query: string, rs: Replies, wordCount: nat, analyzedAt: string)
    requires wordCount > 0
    ensures var a := Record(p, query, SemanticOf(Some(rs)), wordCount, analyzedAt);
      var ts := SemanticAnalyzer.ParsedTriples(rs.triples);
      && a.metrics.semanticTriples.total == |ts| <= SemanticAnalyzer.MaxTriples
      && a.metrics.semanticTriples.quality == (if ts == [] then 0.0 else SemanticAnalyzer.TripleConfidence)
      && a.metrics.entities.total == |SemanticAnalyzer.ParsedEntities(rs.entities)| <= SemanticAnalyzer.MaxEntities
      && 0.0 <= a.metrics.entities.diversity <= 1.0
  {
    ParsedQuality(rs.triples);
  }
}
