/**
 * The metric extractors of the pattern analyzer: sentence length, claim
 * density, date markers, structure, entities, semantic triples, query
 * alignment, information density and frontloading.
 */
module Extractors {
  import opened Wrappers
  import opened Numeric
  import opened Text
  import opened GeoTypes
  import opened Patterns
  import opened Tokenizer
  import opened Lists

  // ---------------------------------------------------------------------
  // Sentence length

  /** `s.split(/\s+/).length`: the pieces, empty ones included, so at least one. */
  function SentenceWords(s: string): (n: nat)
    ensures n >= 1
  {
    |SplitRuns(s, IsSpace)|
  }

  function TotalWords(sentences: seq<string>): (n: nat)
    ensures n >= |sentences|
  {
    if sentences == [] then 0
    else TotalWords(sentences[..|sentences| - 1]) + SentenceWords(sentences[|sentences| - 1])
  }

  /**
   * The positions of the sentences of more than 30 words: increasing, and
   * holding every such position and no other.
   */
  function LongIndices(sentences: seq<string>): (r: seq<nat>)
    ensures forall k :: 0 <= k < |r| ==> r[k] < |sentences| && SentenceWords(sentences[r[k]]) > 30
    ensures forall k, l :: 0 <= k < l < |r| ==> r[k] < r[l]
    ensures forall i :: 0 <= i < |sentences| && SentenceWords(sentences[i]) > 30 ==> i in r
  {
    MapFilterAt(sentences, LongPick);
    KeptIndices(sentences, LongPick)
  }

  function LongPick(s: string): Option<string> {
    if SentenceWords(s) > 30 then Some(s) else None
  }

  /** The location label `Sentence ${i + 1}`. */
  function Location(show: real -> string, i: nat): string {
    "Sentence " + show((i + 1) as real)
  }

  function ProblemAt(sentences: seq<string>, show: real -> string, i: nat): ProblemSentence
    requires i < |sentences|
  {
    ProblemSentence(sentences[i], SentenceWords(sentences[i]), Location(show, i))
  }

  /** The mean word count per sentence, rounded to one decimal; 0 without sentences. */
  function AverageWords(sentences: seq<string>): (a: real)
    ensures sentences == [] ==> a == 0.0
    ensures sentences != [] ==> a >= 1.0
  {
    if sentences == [] then Round1(0.0)
    else
      var mean := TotalWords(sentences) as real / |sentences| as real;
      Ratio(TotalWords(sentences) as real, |sentences| as real);
      Round1Monotonic(1.0, mean);
      Round1(mean)
  }

  /** The first five sentences of more than 30 words, in document order, labelled by position. */
  function Problematic(sentences: seq<string>, show: real -> string): (p: seq<ProblemSentence>)
    ensures |p| == MinInt(5, |LongIndices(sentences)|)
    ensures forall k :: 0 <= k < |p| ==>
              p[k] == ProblemAt(sentences, show, LongIndices(sentences)[k]) && p[k].wordCount > 30
  {
    var idx := LongIndices(sentences);
    seq(MinInt(5, |idx|), k requires 0 <= k < MinInt(5, |idx|) => ProblemAt(sentences, show, idx[k]))
  }

  /**
   * `analyzeSentenceLength`: the mean word count (0 without sentences),
   * rounded to one decimal, the target 20, and the first five sentences of
   * more than 30 words, in document order, labelled by their position.
   */
  function AnalyzeSentenceLength(sentences: seq<string>, show: real -> string): (m: SentenceLengthMetrics)
    ensures m.target == 20
    ensures sentences == [] ==> m.average == 0.0
    ensures sentences != [] ==> m.average >= 1.0
    ensures |m.problematic| <= 5
    ensures forall k :: 0 <= k < |m.problematic| ==> m.problematic[k].wordCount > 30
  {
    SentenceLengthMetrics(AverageWords(sentences), 20, Problematic(sentences, show))
  }

  // ---------------------------------------------------------------------
  // Claim density

  /** Over all sentences, how many (sentence, pattern) pairs match: a sentence counts once per pattern. */
  function ClaimMatches(rules: seq<Rule>, sentences: seq<string>): (n: nat)
    ensures n <= |rules| * |sentences|
  {
    if sentences == [] then 0
    else
      var k := |sentences| - 1;
      var before := ClaimMatches(rules, sentences[..k]);
      assert |rules| * k + |rules| == |rules| * |sentences|;
      before + Hits(rules, sentences[k])
  }

  /** The claim-density metric: matches per 100 words, rounded to one decimal, against the target 4. */
  function ClaimDensityOf(lib: RuleLibrary, content: string, sentences: seq<string>): (m: ClaimDensityMetrics)
    requires |Words(content)| > 0
    ensures m.target == 4 && m.current >= 0.0
  {
    var claims := ClaimMatches(ClaimDensityRules(lib), sentences) as real;
    var current := claims / |Words(content)| as real * 100.0;
    Round1Monotonic(0.0, current);
    ClaimDensityMetrics(Round1(current), 4)
  }

  /** `analyzeClaimDensity`: tests every fact pattern on every sentence and counts the hits. */
  method AnalyzeClaimDensity(lib: RuleLibrary, content: string, sentences: seq<string>) returns (m: ClaimDensityMetrics)
    requires |Words(content)| > 0
    ensures m == ClaimDensityOf(lib, content, sentences)
  {
    var wordCount := |Words(content)|;
    var patterns := ClaimDensityRules(lib);
    var claimCount := 0;
    var i := 0;
    while i < |sentences|
      invariant 0 <= i <= |sentences|
      invariant claimCount == ClaimMatches(patterns, sentences[..i])
    {
      var j := 0;
      while j < |patterns|
        invariant 0 <= j <= |patterns|
        invariant claimCount == ClaimMatches(patterns, sentences[..i]) + Hits(patterns[..j], sentences[i])
      {
        assert patterns[..j + 1][..j] == patterns[..j];
        if patterns[j].test(sentences[i]) {
          claimCount := claimCount + 1;
        }
        j := j + 1;
      }
      assert patterns[..j] == patterns;
      assert sentences[..i + 1][..i] == sentences[..i];
      i := i + 1;
    }
    assert sentences[..i] == sentences;
    var current := claimCount as real / wordCount as real * 100.0;
    m := ClaimDensityMetrics(Round1(current), 4);
  }

  // ---------------------------------------------------------------------
  // Date markers

  /** How many sentences match at least one of the rules. */
  function CountDated(rules: seq<Rule>, sentences: seq<string>): (n: nat)
    ensures n <= |sentences|
  {
    if sentences == [] then 0
    else
      var k := |sentences| - 1;
      CountDated(rules, sentences[..k]) + (if AnyMatch(rules, sentences[k]) then 1 else 0)
  }

  /**
   * `Math.max(5, Math.floor(n * 0.1))`: never below 5, and otherwise a tenth
   * of the sentence count rounded down.
   */
  function Recommended(sentenceCount: nat): (r: nat)
    ensures r >= 5
    ensures r == MaxInt(5, sentenceCount / 10)
  {
    var q, rem := sentenceCount / 10, sentenceCount % 10;
    assert sentenceCount as real * 0.1 == q as real + rem as real / 10.0;
    var tenth := (sentenceCount as real * 0.1).Floor;
    assert tenth == q;
    if tenth < 5 then 5 else tenth
  }

  function DateMarkersOf(lib: RuleLibrary, sentences: seq<string>): DateMarkerMetrics {
    DateMarkerMetrics(CountDated(DateRules(lib), sentences), Recommended(|sentences|))
  }

  /**
   * `analyzeDateMarkers`: counts the sentences that match any date pattern,
   * so no more than there are sentences, and a recommendation of at least 5.
   */
  method AnalyzeDateMarkers(lib: RuleLibrary, sentences: seq<string>) returns (m: DateMarkerMetrics)
    ensures m == DateMarkersOf(lib, sentences)
    ensures m.found <= |sentences| && m.recommended >= 5
  {
    var patterns := DateRules(lib);
    var found := 0;
    var i := 0;
    while i < |sentences|
      invariant 0 <= i <= |sentences|
      invariant found == CountDated(patterns, sentences[..i])
      invariant found <= i
    {
      assert sentences[..i + 1][..i] == sentences[..i];
      if exists p :: 0 <= p < |patterns| && patterns[p].test(sentences[i]) {
        found := found + 1;
      }
      i := i + 1;
    }
    assert sentences[..i] == sentences;
    m := DateMarkerMetrics(found, Recommended(|sentences|));
  }

  // ---------------------------------------------------------------------
  // Structure

  /** `html || content`: the HTML when it is given and not empty. */
  function StructureSource(content: string, html: Option<string>): (s: string)
    ensures s == content || (html.Some? && s == html.value && s != "")
  {
    if html.Some? && html.value != "" then html.value else content
  }

  function TotalLength(ss: seq<string>): nat {
    if ss == [] then 0 else TotalLength(ss[..|ss| - 1]) + |ss[|ss| - 1]|
  }

  /**
   * `analyzeStructure`: heading and list-item counts from the HTML library,
   * the mean length of the pieces between headings, and whether the text
   * contains "table of contents" in any letter case.
   */
  function AnalyzeStructure(env: Env, source: string): (m: StructureMetrics)
    ensures m.headingCount == env.markup(source).headingCount
    ensures m.listCount == env.markup(source).listCount
    ensures m.avgSectionLength >= 0
    ensures m.hasTableOfContents <==> Contains(Lower(source), "table of contents")
  {
    var sections := env.sectionsOf(source);
    var mean := TotalLength(sections) as real / MaxInt(|sections|, 1) as real;
    RoundMonotonic(0.0, mean);
    RoundOfInt(0);
    StructureMetrics(
      env.markup(source).headingCount,
      env.markup(source).listCount,
      Round(mean),
      Contains(Lower(source), "table of contents"))
  }

  // ---------------------------------------------------------------------
  // Placeholders

  /** `analyzeSemanticTriples`: a zero placeholder; real values come only from the semantic merge. */
  function AnalyzeSemanticTriples(sentences: seq<string>): SemanticTripleMetrics {
    SemanticTripleMetrics(0, 0.0, 0.0, [])
  }

  /**
   * `analyzeEntities`: a zero placeholder. The source also counts generic
   * references ("it", "this", ...) and then drops that count, so nothing of
   * it reaches the result.
   */
  function AnalyzeEntities(content: string, sentences: seq<string>): EntityMetrics {
    EntityMetrics(0, 0.0, 0.0)
  }

  // ---------------------------------------------------------------------
  // Query alignment

  /** `query.toLowerCase().split(/\s+/)`: neither deduplicated nor freed of empty pieces. */
  function QueryWords(query: string): (r: seq<string>)
    ensures |r| >= 1
  {
    SplitRuns(Lower(query), IsSpace)
  }

  /** How many of the words occur in the text, each occurrence in `words` counted. */
  function CoveredCount(words: seq<string>, text: string): (n: nat)
    ensures n <= |words|
    ensures n == |words| <==> forall i :: 0 <= i < |words| ==> Contains(text, words[i])
    ensures n == 0 <==> forall i :: 0 <= i < |words| ==> !Contains(text, words[i])
  {
    if words == [] then 0
    else
      var k := |words| - 1;
      var front := words[..k];
      assert forall i :: 0 <= i < k ==> front[i] == words[i];
      CoveredCount(front, text) + (if Contains(text, words[k]) then 1 else 0)
  }

  /**
   * `analyzeQueryAlignment`: one "Informational" intent whose coverage is
   * the share of query words found in the lower-cased content, times 10,
   * rounded: 10 when every word is found, 0 when none is.
   */
  function AnalyzeQueryAlignment(content: string, query: string): (m: QueryAlignmentMetrics)
    ensures m.primaryQuery == query && |m.latentIntents| == 1
    ensures m.latentIntents[0].intent == "Informational" && m.latentIntents[0].kind == Informational
    ensures 0 <= m.latentIntents[0].coverage <= 10
    ensures (forall w <- QueryWords(query) :: Contains(Lower(content), w)) ==> m.latentIntents[0].coverage == 10
    ensures (forall w <- QueryWords(query) :: !Contains(Lower(content), w)) ==> m.latentIntents[0].coverage == 0
  {
    var words := QueryWords(query);
    var found := CoveredCount(words, Lower(content));
    var coverage := found as real / |words| as real;
    Ratio(found as real, |words| as real);
    RoundMonotonic(0.0, coverage * 10.0);
    RoundMonotonic(coverage * 10.0, 10.0);
    RoundOfInt(0);
    RoundOfInt(10);
    QueryAlignmentMetrics(query, [LatentIntent("Informational", Informational, Round(coverage * 10.0))])
  }

  /** An empty query splits into one empty word, which every content contains: full coverage. */
  lemma EmptyQueryFullyCovered(content: string)
    ensures AnalyzeQueryAlignment(content, "").latentIntents[0].coverage == 10
  {
    assert QueryWords("") == [""];
  }

  // ---------------------------------------------------------------------
  // Information density

  /** The coverage curve before rounding, in percent. */
  function PredictedCoverage(wordCount: nat): (c: real)
    ensures 13.0 <= c <= 61.0
  {
    if wordCount < 1000 then 61.0
    else if wordCount < 2000 then 61.0 - (wordCount - 1000) as real / 1000.0 * 26.0
    else if wordCount < 3000 then 35.0 - (wordCount - 2000) as real / 1000.0 * 13.0
    else Max(13.0, 22.0 - (wordCount - 3000) as real / 2000.0 * 9.0)
  }

  function Category(wordCount: nat): CoverageCategory {
    if wordCount < 1000 then Excellent
    else if wordCount < 2000 then Good
    else if wordCount < 3000 then Diluted
    else SeverelyDiluted
  }

  /** The advice is to expand below 600 words, to condense above 1500, and none in between. */
  function Advice(wordCount: nat): (a: DensityAdvice)
    ensures a == Expand <==> wordCount < 600
    ensures a == Optimal <==> 600 <= wordCount <= 1500
    ensures a == Condense <==> wordCount > 1500
  {
    if wordCount < 600 then Expand
    else if wordCount <= 1500 then Optimal
    else Condense
  }

  /** The words and share of a page an answer engine grounds on at one rank, capped at the rank's base figures. */
  function BudgetAt(wordCount: nat, baseWords: int, basePercent: int, fraction: real): (b: Budget)
    requires wordCount > 0
    ensures b.words <= baseWords && b.percentage <= basePercent
  {
    Budget(
      MinInt(baseWords, Round(wordCount as real * fraction)),
      MinInt(basePercent, Round(baseWords as real / wordCount as real * 100.0)))
  }

  /** `analyzeInformationDensity` for a page of `wordCount` words. */
  function AnalyzeInformationDensity(wordCount: nat): (m: InformationDensityMetrics)
    requires wordCount > 0
    ensures m.wordCount == wordCount && m.optimalMin == 800 && m.optimalMax == 1500
    ensures 13 <= m.predictedCoverage <= 61
    ensures m.predictedCoverage == Round(PredictedCoverage(wordCount))
    ensures m.coverageCategory == Category(wordCount) && m.recommendation == Advice(wordCount)
    ensures m.groundingBudget.ifRank1.words <= 531 && m.groundingBudget.ifRank1.percentage <= 28
    ensures m.groundingBudget.ifRank3.words <= 378 && m.groundingBudget.ifRank3.percentage <= 20
    ensures m.groundingBudget.ifRank5.words <= 266 && m.groundingBudget.ifRank5.percentage <= 13
  {
    var raw := PredictedCoverage(wordCount);
    RoundMonotonic(13.0, raw);
    RoundMonotonic(raw, 61.0);
    RoundOfInt(13);
    RoundOfInt(61);
    InformationDensityMetrics(
      wordCount, 800, 1500,
      Round(raw),
      Category(wordCount),
      GroundingBudget(
        BudgetAt(wordCount, 531, 28, 0.28),
        BudgetAt(wordCount, 378, 20, 0.20),
        BudgetAt(wordCount, 266, 13, 0.13)),
      Advice(wordCount))
  }

  /** Short pages are all predicted the same 61 % coverage and rated excellent. */
  lemma ShortPagesExcellent(wordCount: nat)
    requires 0 < wordCount < 1000
    ensures AnalyzeInformationDensity(wordCount).predictedCoverage == 61
    ensures AnalyzeInformationDensity(wordCount).coverageCategory == Excellent
  {
    RoundOfInt(61);
  }

  /** The categories are the four bands of the curve. */
  lemma CategoryBands(wordCount: nat)
    ensures Category(wordCount) == Excellent <==> wordCount < 1000
    ensures Category(wordCount) == Good <==> 1000 <= wordCount < 2000
    ensures Category(wordCount) == Diluted <==> 2000 <= wordCount < 3000
    ensures Category(wordCount) == SeverelyDiluted <==> wordCount >= 3000
  {
  }

  /** Each band's line ends where the next begins: 61 at 1000, 35 at 2000, 22 at 3000. */
  lemma CoverageContinuous()
    ensures PredictedCoverage(1000) == 61.0 && PredictedCoverage(999) == 61.0
    ensures PredictedCoverage(2000) == 35.0 == 61.0 - (2000 - 1000) as real / 1000.0 * 26.0
    ensures PredictedCoverage(3000) == 22.0 == 35.0 - (3000 - 2000) as real / 1000.0 * 13.0
    ensures PredictedCoverage(5000) == 13.0
  {
  }

  /** More words never predict more coverage, before or after rounding. */
  lemma CoverageNonIncreasing(a: nat, b: nat)
    requires a <= b
    ensures PredictedCoverage(b) <= PredictedCoverage(a)
    ensures Round(PredictedCoverage(b)) <= Round(PredictedCoverage(a))
  {
    RoundMonotonic(PredictedCoverage(b), PredictedCoverage(a));
  }

  /** Between 1000 and 5000 words every extra word strictly lowers the curve. */
  lemma CoverageStrictlyDecreasing(a: nat, b: nat)
    requires 1000 <= a < b <= 5000
    ensures PredictedCoverage(b) < PredictedCoverage(a)
  {
  }

  // ---------------------------------------------------------------------
  // Frontloading

  /** The first `n` words joined by single spaces. */
  function PrefixText(words: seq<string>, n: nat): string
    requires n <= |words|
  {
    Join(words[..n], " ")
  }

  /** The text of the first `n` words or of all of them when fewer (`words.slice(0, n).join(' ')`). */
  function Window(words: seq<string>, n: nat): string {
    PrefixText(words, MinInt(n, |words|))
  }

  /** The search for the first claim, from prefix length `i + 1` on. */
  function ClaimSearch(rules: seq<Rule>, words: seq<string>, i: nat): (pos: nat)
    requires i <= |words|
    ensures i <= pos <= |words|
    ensures forall k :: i < k < pos ==> !AnyMatch(rules, PrefixText(words, k))
    ensures pos == |words| || (pos > i && AnyMatch(rules, PrefixText(words, pos)))
    ensures pos == |words| && !AnyMatch(rules, PrefixText(words, |words|)) ==>
              forall k :: i < k <= |words| ==> !AnyMatch(rules, PrefixText(words, k))
    decreases |words| - i
  {
    if i == |words| then |words|
    else if AnyMatch(rules, PrefixText(words, i + 1)) then i + 1
    else ClaimSearch(rules, words, i + 1)
  }

  /**
   * The first-claim position: the least `i >= 1` whose first `i` words,
   * joined, match a claim pattern, or the number of words when there is none.
   */
  function FirstClaimPosition(rules: seq<Rule>, words: seq<string>): (pos: nat)
    ensures pos <= |words|
    ensures forall k :: 1 <= k < pos ==> !AnyMatch(rules, PrefixText(words, k))
    ensures pos < |words| ==> pos >= 1 && AnyMatch(rules, PrefixText(words, pos))
    ensures (exists k :: 1 <= k <= |words| && AnyMatch(rules, PrefixText(words, k))) ==>
              pos >= 1 && AnyMatch(rules, PrefixText(words, pos))
  {
    ClaimSearch(rules, words, 0)
  }

  /**
   * The frontloading score before rounding: 5, plus up to 2 for claims and up
   * to 1.5 for entities in the first 100 words, plus 1 for a claim before
   * word 30 or minus up to 2 for a first claim after word 100.
   */
  function FrontloadingScore(claims100: nat, entities100: nat, position: nat): (s: real)
    ensures 3.0 <= s <= 9.5
  {
    var base := 5.0 + Min(2.0, claims100 as real * 0.5) + Min(1.5, entities100 as real * 0.3);
    var adjusted :=
      if position > 100 then base - Min(2.0, (position - 100) as real / 50.0)
      else if position < 30 then base + 1.0
      else base;
    Max(0.0, Min(10.0, adjusted))
  }

  /** Earlier claims and more claims and entities up front never lower the score. */
  lemma FrontloadingScoreMonotonic(c: nat, c': nat, e: nat, e': nat, p: nat, p': nat)
    requires c <= c' && e <= e' && p' <= p
    ensures FrontloadingScore(c, e, p) <= FrontloadingScore(c', e', p')
  {
  }

  function WindowCountsOf(lib: RuleLibrary, words: seq<string>, n: nat): WindowCounts
    requires n > 0
  {
    var text := Window(words, n);
    var claims := GlobalCount(FrontloadingClaimRules(lib), text);
    WindowCounts(claims, GlobalCount(EntityRules(lib), text), Round1(claims as real / n as real * 100.0))
  }

  function FrontloadingOf(lib: RuleLibrary, words: seq<string>): (m: FrontloadingMetrics)
    ensures m.firstClaimPosition <= |words|
    ensures 3.0 <= m.frontloadingScore <= 9.5
  {
    var first100 := WindowCountsOf(lib, words, 100);
    var position := FirstClaimPosition(FrontloadingClaimRules(lib), words);
    var score := FrontloadingScore(first100.claims, first100.entities, position);
    Round1Within(score, 30, 95);
    FrontloadingMetrics(first100, WindowCountsOf(lib, words, 300), position, Round1(score))
  }

  /** The prefix scan of `analyzeFrontloading`: grows the prefix a word at a time and stops at the first claim. */
  method FirstClaimScan(claimPatterns: seq<Rule>, words: seq<string>) returns (firstClaimPosition: nat)
    ensures firstClaimPosition == FirstClaimPosition(claimPatterns, words)
  {
    firstClaimPosition := |words|;
    var i := 0;
    while i < |words|
      invariant 0 <= i <= |words|
      invariant forall k :: 1 <= k <= i ==> !AnyMatch(claimPatterns, PrefixText(words, k))
    {
      var textSoFar := PrefixText(words, i + 1);
      if exists p :: 0 <= p < |claimPatterns| && claimPatterns[p].test(textSoFar) {
        firstClaimPosition := i + 1;
        break;
      }
      i := i + 1;
    }
  }

  /**
   * `analyzeFrontloading`: counts claim and entity matches in the first 100
   * and 300 words, scans prefixes for the first claim, and scores the result.
   */
  method AnalyzeFrontloading(lib: RuleLibrary, words: seq<string>) returns (m: FrontloadingMetrics)
    ensures m == FrontloadingOf(lib, words)
    ensures m.firstClaimPosition <= |words| && 3.0 <= m.frontloadingScore <= 9.5
  {
    var claimPatterns := FrontloadingClaimRules(lib);
    var first100Words := Window(words, 100);
    var first300Words := Window(words, 300);
    var first100Claims := GlobalCount(claimPatterns, first100Words);
    var first100Entities := GlobalCount(EntityRules(lib), first100Words);
    var first300Claims := GlobalCount(claimPatterns, first300Words);
    var first300Entities := GlobalCount(EntityRules(lib), first300Words);

    var firstClaimPosition := FirstClaimScan(claimPatterns, words);

    var frontloadingScore := 5.0;
    frontloadingScore := frontloadingScore + Min(2.0, first100Claims as real * 0.5);
    frontloadingScore := frontloadingScore + Min(1.5, first100Entities as real * 0.3);
    if firstClaimPosition > 100 {
      frontloadingScore := frontloadingScore - Min(2.0, (firstClaimPosition - 100) as real / 50.0);
    } else if firstClaimPosition < 30 {
      frontloadingScore := frontloadingScore + 1.0;
    }
    frontloadingScore := Max(0.0, Min(10.0, frontloadingScore));
    assert frontloadingScore == FrontloadingScore(first100Claims, first100Entities, firstClaimPosition);

    m := FrontloadingMetrics(
      WindowCounts(first100Claims, first100Entities, Round1(first100Claims as real / 100.0 * 100.0)),
      WindowCounts(first300Claims, first300Entities, Round1(first300Claims as real / 300.0 * 100.0)),
      firstClaimPosition,
      Round1(frontloadingScore));
  }
}
