/**
 * The score calculator: extractability, readability and citability on a
 * 0 to 10 scale, and their mean, all rounded to one decimal.
 */
module Scoring {
  import opened Numeric
  import opened GeoTypes

  /** Closeness of the mean sentence length to a target, 10 when equal, losing 1 per `divisor` words of distance. */
  function SentenceScore(average: real, target: real, divisor: real): (s: real)
    requires divisor > 0.0
    ensures 0.0 <= s <= 10.0
    ensures average == target ==> s == 10.0
  {
    Max(0.0, 10.0 - Abs(average - target) / divisor)
  }

  /** `min(10, part / whole * 10)`: a ratio to a target, capped at 10. */
  function CappedRatio(part: real, whole: real): (s: real)
    requires whole > 0.0
    ensures part >= 0.0 ==> 0.0 <= s <= 10.0
    ensures part >= whole ==> s == 10.0
  {
    Ratio(Max(part, 0.0), whole);
    Min(10.0, part / whole * 10.0)
  }

  /** The five extractability sub-scores: sentences, claims, dates, density, frontloading. */
  function ExtractabilityParts(m: Metrics): (parts: seq<real>)
    requires m.claimDensity.target > 0 && m.dateMarkers.recommended > 0
    ensures |parts| == 5
    ensures MetricsInRange(m) ==> forall i :: 0 <= i < 5 ==> 0.0 <= parts[i] <= 10.0
    ensures m.sentenceLength.average == m.sentenceLength.target as real ==> parts[0] == 10.0
    ensures m.claimDensity.current >= m.claimDensity.target as real ==> parts[1] == 10.0
    ensures m.dateMarkers.found >= m.dateMarkers.recommended ==> parts[2] == 10.0
  {
    [ SentenceScore(m.sentenceLength.average, m.sentenceLength.target as real, 2.0),
      CappedRatio(m.claimDensity.current, m.claimDensity.target as real),
      CappedRatio(m.dateMarkers.found as real, m.dateMarkers.recommended as real),
      m.informationDensity.predictedCoverage as real / 10.0,
      m.frontloading.frontloadingScore ]
  }

  /** `calculateExtractabilityScore`: the parts weighted 0.20, 0.25, 0.15, 0.20 and 0.20. */
  function ExtractabilityScore(m: Metrics): real
    requires m.claimDensity.target > 0 && m.dateMarkers.recommended > 0
  {
    var p := ExtractabilityParts(m);
    p[0] * 0.20 + p[1] * 0.25 + p[2] * 0.15 + p[3] * 0.20 + p[4] * 0.20
  }

  /**
   * The weights are non-negative and add up to 1, so extractability is a
   * weighted mean: it lies between the smallest and the largest part.
   */
  lemma ExtractabilityIsWeightedMean(m: Metrics, lo: real, hi: real)
    requires m.claimDensity.target > 0 && m.dateMarkers.recommended > 0
    requires forall i :: 0 <= i < 5 ==> lo <= ExtractabilityParts(m)[i] <= hi
    ensures lo <= ExtractabilityScore(m) <= hi
  {
    var p := ExtractabilityParts(m);
    assert lo <= p[0] <= hi && lo <= p[1] <= hi && lo <= p[2] <= hi && lo <= p[3] <= hi && lo <= p[4] <= hi;
    assert 0.20 + 0.25 + 0.15 + 0.20 + 0.20 == 1.0;
  }

  /** `calculateReadabilityScore`: the mean of a gentler sentence score (divisor 3) and two points per heading, capped at 10. */
  function ReadabilityScore(m: Metrics): (r: real)
    ensures 0.0 <= r <= 10.0
  {
    var sentenceScore := SentenceScore(m.sentenceLength.average, 20.0, 3.0);
    var structureScore := Min(10.0, m.structure.headingCount as real * 2.0);
    (sentenceScore + structureScore) / 2.0
  }

  /** `calculateCitabilityScore`: date markers found against those recommended (at least 1), capped at 10. */
  function CitabilityScore(m: Metrics): (r: real)
    ensures 0.0 <= r <= 10.0
  {
    CappedRatio(m.dateMarkers.found as real, MaxInt(1, m.dateMarkers.recommended) as real)
  }

  /** The ranges within which the extractors keep the metrics the scores read. */
  predicate MetricsInRange(m: Metrics) {
    && m.sentenceLength.target == 20
    && m.claimDensity.current >= 0.0 && m.claimDensity.target == 4
    && m.dateMarkers.recommended >= 5
    && 0 <= m.informationDensity.predictedCoverage <= 100
    && 0.0 <= m.frontloading.frontloadingScore <= 10.0
  }

  lemma PartsInRange(m: Metrics)
    requires MetricsInRange(m)
    ensures forall i :: 0 <= i < 5 ==> 0.0 <= ExtractabilityParts(m)[i] <= 10.0
  {
  }

  /**
   * The four published scores: each of the three unrounded scores rounded to
   * one decimal, and the mean of the three unrounded scores rounded the same
   * way. Metrics in range give scores on the 0 to 10 scale.
   */
  function FinalScores(m: Metrics): (s: GeoScores)
    requires m.claimDensity.target > 0 && m.dateMarkers.recommended > 0
    ensures s.extractability == Round1(ExtractabilityScore(m))
    ensures s.readability == Round1(ReadabilityScore(m))
    ensures s.citability == Round1(CitabilityScore(m))
    ensures s.overall == Round1((ExtractabilityScore(m) + ReadabilityScore(m) + CitabilityScore(m)) / 3.0)
    ensures MetricsInRange(m) ==> ScoresInRange(s)
  {
    var e := ExtractabilityScore(m);
    var r := ReadabilityScore(m);
    var c := CitabilityScore(m);
    var overall := (e + r + c) / 3.0;
    assert MetricsInRange(m) ==> ScoresInRange(GeoScores(Round1(overall), Round1(e), Round1(r), Round1(c))) by {
      if MetricsInRange(m) {
        PartsInRange(m);
        ExtractabilityIsWeightedMean(m, 0.0, 10.0);
        Round1Within(e, 0, 100);
        Round1Within(r, 0, 100);
        Round1Within(c, 0, 100);
        Round1Within(overall, 0, 100);
      }
    }
    GeoScores(Round1(overall), Round1(e), Round1(r), Round1(c))
  }
}
