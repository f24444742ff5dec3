/**
 * `PatternAnalyzer.analyze`: runs every extractor over the page, scores
 * the metrics, simulates chunking and derives the recommendations.
 */
module PatternAnalyzer {
  import opened Wrappers
  import opened GeoTypes
  import opened Patterns
  import opened Tokenizer
  import opened Extractors
  import opened Scoring
  import opened Chunking
  import opened Recommendations

  /** The metrics of a page of at least one word. */
  function MetricsOf(env: Env, content: string, query: string, html: Option<string>): (m: Metrics)
    requires |Words(content)| > 0
    ensures MetricsInRange(m)
    ensures m.informationDensity.wordCount == |Words(content)|
    ensures m.structure.headingCount == env.markup(StructureSource(content, html)).headingCount
    ensures m.queryAlignment.primaryQuery == query
  {
    var sentences := ExtractSentences(content);
    var words := Words(content);
    Metrics(
      AnalyzeSentenceLength(sentences, env.show),
      ClaimDensityOf(env.rules, content, sentences),
      DateMarkersOf(env.rules, sentences),
      AnalyzeStructure(env, StructureSource(content, html)),
      AnalyzeInformationDensity(|words|),
      FrontloadingOf(env.rules, words),
      AnalyzeSemanticTriples(sentences),
      AnalyzeEntities(content, sentences),
      AnalyzeQueryAlignment(content, query))
  }

  /** The full analysis of a page: scores, metrics, chunks and suggestions. */
  function AnalysisOf(env: Env, content: string, query: string, html: Option<string>, w: Wording): (r: PatternAnalysisResult)
    requires |Words(content)| > 0
    ensures r.metrics == MetricsOf(env, content, query, html)
    ensures ScoresInRange(r.scores)
    ensures r.chunking == ChunkingOf(content)
    ensures r.recommendations == RecommendationsFor(r.metrics, env.show, w)
  {
    var m := MetricsOf(env, content, query, html);
    PatternAnalysisResult(FinalScores(m), m, ChunkingOf(content), RecommendationsFor(m, env.show, w))
  }

  /**
   * `analyze`: the extractors run in the source's order; the loops of the
   * claim, date and frontloading extractors, the chunker and the
   * recommendation rules are the methods of their modules.
   */
  method Analyze(env: Env, content: string, query: string, html: Option<string>, w: Wording) returns (r: PatternAnalysisResult)
    requires |Words(content)| > 0
    ensures r == AnalysisOf(env, content, query, html, w)
  {
    var sentences := ExtractSentences(content);
    var words := Words(content);
    var wordCount := |words|;

    var sentenceLength := AnalyzeSentenceLength(sentences, env.show);
    var claimDensity := AnalyzeClaimDensity(env.rules, content, sentences);
    var dateMarkers := AnalyzeDateMarkers(env.rules, sentences);
    var structure := AnalyzeStructure(env, StructureSource(content, html));
    var entities := AnalyzeEntities(content, sentences);
    var queryAlignment := AnalyzeQueryAlignment(content, query);
    var semanticTriples := AnalyzeSemanticTriples(sentences);
    var informationDensity := AnalyzeInformationDensity(wordCount);
    var frontloading := AnalyzeFrontloading(env.rules, words);

    var metrics := Metrics(sentenceLength, claimDensity, dateMarkers, structure, informationDensity,
      frontloading, semanticTriples, entities, queryAlignment);
    var chunking := SimulateChunking(content);
    var recommendations := GenerateRecommendations(metrics, env.show, w);
    r := PatternAnalysisResult(FinalScores(metrics), metrics, chunking, recommendations);
  }

  /**
   * Whatever the page, the scores lie on the 0 to 10 scale, at most three
   * chunks and at most six suggestions are reported, and the page's word
   * count drives the density metric.
   */
  lemma AnalysisBounds(env: Env, content: string, query: string, html: Option<string>, w: Wording)
    requires |Words(content)| > 0
    ensures var r := AnalysisOf(env, content, query, html, w);
      && ScoresInRange(r.scores)
      && |r.chunking.chunks| <= 3
      && |r.recommendations| <= 6
      && (forall k :: 0 <= k < |r.recommendations| ==> r.recommendations[k].priority != Low)
  {
    var r := AnalysisOf(env, content, query, html, w);
    RecommendationRules(r.metrics, env.show, w);
  }
}
