/**
 * The recommendation generator: seven threshold rules over the metrics,
 * tried in a fixed order, each adding at most one suggestion.
 */
module Recommendations {
  import opened GeoTypes

  const CondensationName := "Content Condensation"
  const ExpansionName := "Content Expansion"
  const FrontloadingName := "Answer Frontloading"
  const SimplificationName := "Sentence Simplification"
  const ClaimDensityName := "Claim Density Enhancement"
  const TemporalName := "Temporal Markers"
  const StructuralName := "Structural Enhancement"

  /** The rules by name, in the order they are tried. */
  const RuleOrder: seq<string> :=
    [CondensationName, ExpansionName, FrontloadingName, SimplificationName,
     ClaimDensityName, TemporalName, StructuralName]

  /** The fixed wording of each suggestion. */
  datatype Wording = Wording(
    condensationAdvice: string,
    condensationAdviceEnd: string,
    condensationWhy: string,
    expansionAdvice: string,
    expansionWhy: string,
    frontloadingAdvice: string,
    frontloadingWhy: string,
    simplificationAdvice: string,
    simplificationWhy: string,
    claimDensityAdvice: string,
    claimDensityWhy: string,
    temporalAdvice: string,
    temporalWhy: string,
    structuralAdvice: string,
    structuralWhy: string)

  const SourceWording := Wording(
    "Reduce to 800-1,500 words for optimal AI extraction. Currently, AI systems would likely ignore ",
    "% of your content.",
    "Research shows pages over 1,500 words see diminishing returns. A tight 800-word page gets 50%+ coverage; a 4,000-word page gets only 13%. Density beats length.",
    "Expand to at least 800 words with additional claims, examples, and supporting data to provide sufficient context for AI extraction.",
    "Very short content may lack sufficient context for AI systems to extract meaningful information. Aim for 800-1,500 words with high claim density.",
    "Lead with your key claim or answer in the first 1-2 sentences. AI systems have limited \"attention spans\" and prioritise content that provides answers immediately.",
    "Google extracts ~15.5 word chunks on average. Content that leads with the answer gets prioritised. Follow the inverted pyramid structure used in journalism.",
    "Break long sentences into shorter ones (15-20 words) to improve AI parsing and fact extraction",
    "Google extracts chunks averaging 15.5 words. Shorter sentences align with natural chunk boundaries, making extraction cleaner and more accurate.",
    "Add specific statistics, numbers, and factual claims to increase claim density towards target of ",
    "Higher claim density provides more extractable facts for AI systems to cite. Since AI only uses a fraction of your content, pack more value into fewer words.",
    "Add dates to claims (e.g., \"As of 2024...\", \"In Q2 2025...\") to establish temporal context",
    "Temporal markers improve claim verifiability and provide freshness signals to AI systems. Dated information helps LLMs assess relevance and recency.",
    "Add descriptive headings to break content into logical sections, improving both readability and AI parsing",
    "Clear headings help AI systems understand content hierarchy and identify relevant sections for specific queries. Structured content is easier to chunk and cite.")


  function Condensation(m: Metrics, show: real -> string, w: Wording): (r: GeoRecommendation)
    ensures r.methodName == CondensationName
    ensures r.priority == if m.informationDensity.coverageCategory == SeverelyDiluted then High else Medium
    ensures r.location == "Entire document"
  {
    var d := m.informationDensity;
    GeoRecommendation(
      CondensationName,
      if d.coverageCategory == SeverelyDiluted then High else Medium,
      "Entire document",
      show(d.wordCount as real) + " words (" + show(d.predictedCoverage as real) + "% predicted AI coverage)",
      w.condensationAdvice + show((100 - d.predictedCoverage) as real) + w.condensationAdviceEnd,
      w.condensationWhy)
  }

  function Expansion(m: Metrics, show: real -> string, w: Wording): (r: GeoRecommendation)
    ensures r.methodName == ExpansionName && r.priority == Medium
    ensures r.location == "Entire document"
  {
    GeoRecommendation(
      ExpansionName, Medium, "Entire document",
      show(m.informationDensity.wordCount as real) + " words",
      w.expansionAdvice, w.expansionWhy)
  }

  function Frontloading(m: Metrics, show: real -> string, w: Wording): (r: GeoRecommendation)
    ensures r.methodName == FrontloadingName && r.priority == High
    ensures r.location == "Opening paragraph"
  {
    GeoRecommendation(
      FrontloadingName, High, "Opening paragraph",
      "First claim appears at word " + show(m.frontloading.firstClaimPosition as real) + "; "
        + show(m.frontloading.first100Words.claims as real) + " claims in first 100 words",
      w.frontloadingAdvice, w.frontloadingWhy)
  }

  function Simplification(m: Metrics, show: real -> string, w: Wording): (r: GeoRecommendation)
    ensures r.methodName == SimplificationName && r.priority == High
    ensures r.location == "Throughout document"
  {
    GeoRecommendation(
      SimplificationName, High, "Throughout document",
      "Average sentence length: " + show(m.sentenceLength.average) + " words",
      w.simplificationAdvice, w.simplificationWhy)
  }

  function ClaimDensityBoost(m: Metrics, show: real -> string, w: Wording): (r: GeoRecommendation)
    ensures r.methodName == ClaimDensityName && r.priority == High
    ensures r.location == "Key sections"
  {
    GeoRecommendation(
      ClaimDensityName, High, "Key sections",
      show(m.claimDensity.current) + " claims per 100 words",
      w.claimDensityAdvice + show(m.claimDensity.target as real) + " per 100 words",
      w.claimDensityWhy)
  }

  function TemporalMarkers(m: Metrics, show: real -> string, w: Wording): (r: GeoRecommendation)
    ensures r.methodName == TemporalName && r.priority == Medium
    ensures r.location == "Claims and statistics"
  {
    GeoRecommendation(
      TemporalName, Medium, "Claims and statistics",
      show(m.dateMarkers.found as real) + " temporal markers found",
      w.temporalAdvice, w.temporalWhy)
  }

  function StructuralEnhancement(m: Metrics, show: real -> string, w: Wording): (r: GeoRecommendation)
    ensures r.methodName == StructuralName && r.priority == Medium
    ensures r.location == "Document structure"
  {
    GeoRecommendation(
      StructuralName, Medium, "Document structure",
      show(m.structure.headingCount as real) + " headings found",
      w.structuralAdvice, w.structuralWhy)
  }

  /** Whether each rule fires, in rule order. */
  function Guards(m: Metrics): (g: seq<bool>)
    ensures |g| == |RuleOrder|
  {
    [m.informationDensity.recommendation == Condense,
     m.informationDensity.recommendation == Expand,
     m.frontloading.frontloadingScore < 5.0,
     m.sentenceLength.average > 25.0,
     m.claimDensity.current < m.claimDensity.target as real,
     m.dateMarkers.found < m.dateMarkers.recommended,
     m.structure.headingCount < 3]
  }

  /** The suggestion each rule would make, in rule order. */
  function Candidates(m: Metrics, show: real -> string, w: Wording): (c: seq<GeoRecommendation>)
    ensures |c| == |RuleOrder|
    ensures forall i :: 0 <= i < |c| ==> c[i].methodName == RuleOrder[i] && c[i].priority != Low
    ensures c[0].priority == High <==> m.informationDensity.coverageCategory == SeverelyDiluted
  {
    [Condensation(m, show, w), Expansion(m, show, w), Frontloading(m, show, w), Simplification(m, show, w),
     ClaimDensityBoost(m, show, w), TemporalMarkers(m, show, w), StructuralEnhancement(m, show, w)]
  }

  /** Appends `r` to `recommendations` when its rule fires. */
  function Push(recommendations: seq<GeoRecommendation>, fires: bool, r: GeoRecommendation): seq<GeoRecommendation> {
    if fires then recommendations + [r] else recommendations
  }

  /** The candidates whose guard holds, in their original order. */
  function Fired(guards: seq<bool>, candidates: seq<GeoRecommendation>): seq<GeoRecommendation>
    requires |guards| == |candidates|
  {
    if candidates == [] then []
    else
      var n := |candidates| - 1;
      var earlier := Fired(guards[..n], candidates[..n]);
      Push(earlier, guards[n], candidates[n])
  }

  /** The suggestions the rules produce, in rule order. */
  function RecommendationsFor(m: Metrics, show: real -> string, w: Wording): seq<GeoRecommendation> {
    Fired(Guards(m), Candidates(m, show, w))
  }

  /** One more rule considered: its candidate is appended when its guard holds. */
  lemma FiredStep(guards: seq<bool>, candidates: seq<GeoRecommendation>, k: nat)
    requires |guards| == |candidates| && k < |guards|
    ensures Fired(guards[..k + 1], candidates[..k + 1]) == Push(Fired(guards[..k], candidates[..k]), guards[k], candidates[k])
  {
    assert guards[..k + 1][..k] == guards[..k];
    assert candidates[..k + 1][..k] == candidates[..k];
  }

  /** Seven rules considered one after another give `Fired` over all seven. */
  lemma {:induction false} FiredSeven(g: seq<bool>, c: seq<GeoRecommendation>)
    requires |g| == |c| == 7
    ensures Fired(g, c)
      == Push(Push(Push(Push(Push(Push(Push([], g[0], c[0]), g[1], c[1]), g[2], c[2]), g[3], c[3]), g[4], c[4]), g[5], c[5]), g[6], c[6])
  {
    assert g[..0] == [] && c[..0] == [];
    FiredStep(g, c, 0);
    FiredStep(g, c, 1);
    FiredStep(g, c, 2);
    FiredStep(g, c, 3);
    FiredStep(g, c, 4);
    FiredStep(g, c, 5);
    FiredStep(g, c, 6);
    assert g[..7] == g && c[..7] == c;
  }

  /** One rule of the generator: push its suggestion when its guard holds. */
  method PushIf(recommendations: seq<GeoRecommendation>, fires: bool, r: GeoRecommendation)
    returns (updated: seq<GeoRecommendation>)
    ensures updated == Push(recommendations, fires, r)
  {
    updated := recommendations;
    if fires {
      updated := updated + [r];
    }
  }

  /** `generateRecommendations`: tries the rules in order and appends each one that fires. */
  method GenerateRecommendations(m: Metrics, show: real -> string, w: Wording) returns (recommendations: seq<GeoRecommendation>)
    ensures recommendations == RecommendationsFor(m, show, w)
  {
    recommendations := [];
    recommendations := PushIf(recommendations, m.informationDensity.recommendation == Condense, Condensation(m, show, w));
    recommendations := PushIf(recommendations, m.informationDensity.recommendation == Expand, Expansion(m, show, w));
    recommendations := PushIf(recommendations, m.frontloading.frontloadingScore < 5.0, Frontloading(m, show, w));
    recommendations := PushIf(recommendations, m.sentenceLength.average > 25.0, Simplification(m, show, w));
    recommendations := PushIf(recommendations, m.claimDensity.current < m.claimDensity.target as real, ClaimDensityBoost(m, show, w));
    recommendations := PushIf(recommendations, m.dateMarkers.found < m.dateMarkers.recommended, TemporalMarkers(m, show, w));
    recommendations := PushIf(recommendations, m.structure.headingCount < 3, StructuralEnhancement(m, show, w));
    FiredSeven(Guards(m), Candidates(m, show, w));
  }

  /** The positions whose guard holds, in increasing order. */
  function FiredIndices(guards: seq<bool>): (idx: seq<nat>)
    ensures forall k :: 0 <= k < |idx| ==> idx[k] < |guards|
  {
    if guards == [] then []
    else
      var n := |guards| - 1;
      FiredIndices(guards[..n]) + if guards[n] then [n] else []
  }

  /**
   * `Fired` picks exactly the candidates at the positions whose guard holds,
   * keeping their order.
   */
  lemma {:induction false} FiredAt(guards: seq<bool>, candidates: seq<GeoRecommendation>)
    requires |guards| == |candidates|
    ensures var idx := FiredIndices(guards); var f := Fired(guards, candidates);
      && |f| == |idx|
      && (forall k :: 0 <= k < |f| ==> f[k] == candidates[idx[k]])
      && (forall k1, k2 :: 0 <= k1 < k2 < |idx| ==> idx[k1] < idx[k2])
      && (forall i :: 0 <= i < |guards| ==> (i in idx <==> guards[i]))
  {
    if candidates != [] {
      var n := |candidates| - 1;
      FiredAt(guards[..n], candidates[..n]);
      forall i | 0 <= i < n
        ensures guards[..n][i] == guards[i]
      {
      }
    }
  }

  /** At most one of condensation and expansion fires, so at most six rules do. */
  lemma {:induction false} FiredIndicesBound(guards: seq<bool>)
    requires |guards| >= 2 && !(guards[0] && guards[1])
    ensures |FiredIndices(guards)| < |guards|
  {
    var n := |guards| - 1;
    if n == 1 {
      var g0 := guards[..1];
      assert g0[..0] == [] && g0[0] == guards[0];
      assert |FiredIndices(g0)| == if guards[0] then 1 else 0;
    } else {
      FiredIndicesBound(guards[..n]);
    }
  }

  /**
   * The suggestions follow the rule order, each rule at most once; a rule's
   * suggestion is present exactly when its guard holds; condensation and
   * expansion exclude each other, so at most six are made; none has low
   * priority; and condensation is urgent exactly when the page is severely
   * diluted.
   */
  lemma RecommendationRules(m: Metrics, show: real -> string, w: Wording)
    ensures var recs, idx := RecommendationsFor(m, show, w), FiredIndices(Guards(m));
      && |recs| == |idx| <= 6
      && (forall k :: 0 <= k < |recs| ==> idx[k] < |RuleOrder| && recs[k].methodName == RuleOrder[idx[k]])
      && (forall k1, k2 :: 0 <= k1 < k2 < |idx| ==> idx[k1] < idx[k2])
      && (forall i :: 0 <= i < |RuleOrder| ==> (i in idx <==> Guards(m)[i]))
      && (forall k :: 0 <= k < |recs| ==> recs[k].priority != Low)
      && (forall k :: 0 <= k < |recs| && idx[k] == 0 ==>
            (recs[k].priority == High <==> m.informationDensity.coverageCategory == SeverelyDiluted))
  {
    FiredAt(Guards(m), Candidates(m, show, w));
    FiredIndicesBound(Guards(m));
  }

  predicate Suggests(recs: seq<GeoRecommendation>, name: string) {
    exists k :: 0 <= k < |recs| && recs[k].methodName == name
  }

  /** The rule names are pairwise different. */
  lemma RuleNamesDistinct(i: nat, j: nat)
    requires i < |RuleOrder| && j < |RuleOrder| && RuleOrder[i] == RuleOrder[j]
    ensures i == j
  {
    assert RuleOrder[0][1] == 'o' && RuleOrder[0][8] == 'C';
    assert RuleOrder[1][1] == 'o' && RuleOrder[1][8] == 'E';
    assert RuleOrder[2][0] == 'A';
    assert RuleOrder[3][0] == 'S' && RuleOrder[3][1] == 'e';
    assert RuleOrder[4][0] == 'C' && RuleOrder[4][1] == 'l';
    assert RuleOrder[5][0] == 'T';
    assert RuleOrder[6][0] == 'S' && RuleOrder[6][1] == 't';
  }

  /** A rule's suggestion is among the results exactly when its guard holds. */
  lemma SuggestsIffGuard(m: Metrics, show: real -> string, w: Wording, i: nat)
    requires i < |RuleOrder|
    ensures Suggests(RecommendationsFor(m, show, w), RuleOrder[i]) <==> Guards(m)[i]
  {
    var recs, idx := RecommendationsFor(m, show, w), FiredIndices(Guards(m));
    RecommendationRules(m, show, w);
    if Guards(m)[i] {
      var k :| 0 <= k < |idx| && idx[k] == i;
      assert recs[k].methodName == RuleOrder[i];
    }
    if Suggests(recs, RuleOrder[i]) {
      var k :| 0 <= k < |recs| && recs[k].methodName == RuleOrder[i];
      RuleNamesDistinct(idx[k], i);
    }
  }

  /**
   * Each suggestion is made exactly when the metrics call for it: condense
   * above 1,500 words, expand below 600, frontload below a score of 5,
   * simplify above 25 words per sentence, add claims below the claim target,
   * add dates below the recommended count, add headings below 3.
   */
  lemma RuleTriggers(m: Metrics, show: real -> string, w: Wording)
    ensures var recs := RecommendationsFor(m, show, w);
      && (Suggests(recs, CondensationName) <==> m.informationDensity.recommendation == Condense)
      && (Suggests(recs, ExpansionName) <==> m.informationDensity.recommendation == Expand)
      && (Suggests(recs, FrontloadingName) <==> m.frontloading.frontloadingScore < 5.0)
      && (Suggests(recs, SimplificationName) <==> m.sentenceLength.average > 25.0)
      && (Suggests(recs, ClaimDensityName) <==> m.claimDensity.current < m.claimDensity.target as real)
      && (Suggests(recs, TemporalName) <==> m.dateMarkers.found < m.dateMarkers.recommended)
      && (Suggests(recs, StructuralName) <==> m.structure.headingCount < 3)
  {
    SuggestsIffGuard(m, show, w, 0);
    SuggestsIffGuard(m, show, w, 1);
    SuggestsIffGuard(m, show, w, 2);
    SuggestsIffGuard(m, show, w, 3);
    SuggestsIffGuard(m, show, w, 4);
    SuggestsIffGuard(m, show, w, 5);
    SuggestsIffGuard(m, show, w, 6);
  }
}
