/**
 * The records the analyzer produces and consumes. List fields that the
 * analyzer always leaves empty (weak sections, missing contexts, generic
 * references, intent gaps, heading alignment, a chunk's missing context) are
 * not represented.
 */
module GeoTypes {

  datatype GeoScores = GeoScores(overall: real, extractability: real, readability: real, citability: real)

  datatype ProblemSentence = ProblemSentence(sentence: string, wordCount: nat, location: string)

  datatype SentenceLengthMetrics = SentenceLengthMetrics(average: real, target: nat, problematic: seq<ProblemSentence>)

  datatype ClaimDensityMetrics = ClaimDensityMetrics(current: real, target: nat)

  datatype DateMarkerMetrics = DateMarkerMetrics(found: nat, recommended: nat)

  datatype StructureMetrics = StructureMetrics(headingCount: nat, listCount: nat, avgSectionLength: int, hasTableOfContents: bool)

  /** A (subject, predicate, object) relation; `pred` and `obj` because both words are reserved. */
  datatype Triple = Triple(subject: string, pred: string, obj: string, confidence: real)

  datatype TripleExample = TripleExample(sentence: string, triples: seq<Triple>)

  datatype SemanticTripleMetrics = SemanticTripleMetrics(total: nat, density: real, quality: real, examples: seq<TripleExample>)

  datatype EntityMetrics = EntityMetrics(total: nat, density: real, diversity: real)

  datatype IntentType = Comparative | Evaluative | Temporal | Decisional | Informational

  datatype LatentIntent = LatentIntent(intent: string, kind: IntentType, coverage: int)

  datatype QueryAlignmentMetrics = QueryAlignmentMetrics(primaryQuery: string, latentIntents: seq<LatentIntent>)

  datatype CoverageCategory = Excellent | Good | Diluted | SeverelyDiluted

  datatype DensityAdvice = Expand | Optimal | Condense

  datatype Budget = Budget(words: int, percentage: int)

  datatype GroundingBudget = GroundingBudget(ifRank1: Budget, ifRank3: Budget, ifRank5: Budget)

  datatype InformationDensityMetrics = InformationDensityMetrics(
    wordCount: nat,
    optimalMin: nat,
    optimalMax: nat,
    predictedCoverage: int,
    coverageCategory: CoverageCategory,
    groundingBudget: GroundingBudget,
    recommendation: DensityAdvice)

  datatype WindowCounts = WindowCounts(claims: nat, entities: nat, density: real)

  datatype FrontloadingMetrics = FrontloadingMetrics(
    first100Words: WindowCounts,
    first300Words: WindowCounts,
    firstClaimPosition: nat,
    frontloadingScore: real)

  datatype Metrics = Metrics(
    sentenceLength: SentenceLengthMetrics,
    claimDensity: ClaimDensityMetrics,
    dateMarkers: DateMarkerMetrics,
    structure: StructureMetrics,
    informationDensity: InformationDensityMetrics,
    frontloading: FrontloadingMetrics,
    semanticTriples: SemanticTripleMetrics,
    entities: EntityMetrics,
    queryAlignment: QueryAlignmentMetrics)

  datatype ContentChunk = ContentChunk(content: string, semanticCoherence: real, selfContained: bool, tokenCount: nat)

  datatype Chunking = Chunking(chunks: seq<ContentChunk>, averageCoherence: real, problematicBoundaries: nat)

  datatype Priority = High | Medium | Low

  /** A suggestion; `methodName` is the source's `method` field. */
  datatype GeoRecommendation = GeoRecommendation(
    methodName: string,
    priority: Priority,
    location: string,
    currentText: string,
    suggestedText: string,
    rationale: string)

  datatype PatternAnalysisResult = PatternAnalysisResult(
    scores: GeoScores,
    metrics: Metrics,
    chunking: Chunking,
    recommendations: seq<GeoRecommendation>)

  datatype GeoAnalysis = GeoAnalysis(
    analyzedAt: string,
    version: string,
    targetQuery: string,
    scores: GeoScores,
    metrics: Metrics,
    chunking: Chunking,
    recommendations: seq<GeoRecommendation>)

  datatype ContentData = ContentData(title: string, content: string, html: string, wordCount: nat)

  datatype EntityType = Person | Org | Product | Location | Date | Measurement

  /** A JSON value as `JSON.parse` returns it. */
  datatype Json = JNull | JBool(b: bool) | JNum(n: real) | JStr(s: string) | JArr(items: seq<Json>) | JObj(fields: map<string, Json>)

  /** An entity kept by the filter: the parsed `text` value and its type. */
  datatype Entity = Entity(text: Json, kind: EntityType)

  datatype SemanticResult = SemanticResult(triples: seq<Triple>, entities: seq<Entity>, diversity: real)

  /** Every score lies on the 0 to 10 scale. */
  predicate ScoresInRange(s: GeoScores) {
    && 0.0 <= s.overall <= 10.0
    && 0.0 <= s.extractability <= 10.0
    && 0.0 <= s.readability <= 10.0
    && 0.0 <= s.citability <= 10.0
  }
}
