/**
 * The markdown report: every section is a list of lines joined with line
 * breaks, and the report is the list of section headings and section texts
 * joined the same way. Numbers are printed by the `show` parameter.
 */
module ReportFormatter {
  import opened Wrappers
  import opened Numeric
  import opened Text
  import opened Lists
  import opened GeoTypes

  // ---------------------------------------------------------------------
  // Numbered blocks

  /**
   * The lines a `forEach((x, i) => ...)` pushes: the block of every item in
   * order, the item at index `i` numbered `i + 1`.
   */
  function Blocks<T>(xs: seq<T>, block: (nat, T) -> seq<string>): seq<string>
    decreases |xs|
  {
    if xs == [] then [] else Blocks(xs[..|xs| - 1], block) + block(|xs|, xs[|xs| - 1])
  }

  lemma BlocksStep<T>(xs: seq<T>, block: (nat, T) -> seq<string>, i: nat)
    requires i < |xs|
    ensures Blocks(xs[..i + 1], block) == Blocks(xs[..i], block) + block(i + 1, xs[i])
  {
    assert xs[..i + 1][..i] == xs[..i];
  }

  lemma {:induction false} BlocksLength<T>(xs: seq<T>, block: (nat, T) -> seq<string>, width: nat)
    requires forall n, x :: |block(n, x)| == width
    ensures |Blocks(xs, block)| == |xs| * width
  {
    if xs != [] {
      BlocksLength(xs[..|xs| - 1], block, width);
      MulSucc(|xs| - 1, width);
    }
  }

  lemma MulSucc(k: nat, width: nat)
    ensures (k + 1) * width == k * width + width
  {
  }

  /** The blocks of a prefix of the items are a prefix of the lines. */
  lemma {:induction false} BlocksPrefix<T>(xs: seq<T>, block: (nat, T) -> seq<string>, i: nat)
    requires i <= |xs|
    ensures Blocks(xs[..i], block) <= Blocks(xs, block)
    decreases |xs| - i
  {
    if i < |xs| {
      var init := xs[..|xs| - 1];
      BlocksPrefix(init, block, i);
      assert init[..i] == xs[..i];
    } else {
      assert xs[..i] == xs;
    }
  }

  /**
   * With blocks of one width, items appear in input order, each exactly
   * once, numbered from 1: the block of item `k`, numbered `k + 1`, fills
   * lines `k * width` up to `(k + 1) * width`.
   */
  lemma BlockAt<T>(xs: seq<T>, block: (nat, T) -> seq<string>, width: nat, k: nat)
    requires forall n, x :: |block(n, x)| == width
    requires k < |xs|
    ensures (k + 1) * width <= |Blocks(xs, block)|
    ensures Blocks(xs, block)[k * width..(k + 1) * width] == block(k + 1, xs[k])
  {
    var pre := Blocks(xs[..k], block);
    BlocksStep(xs, block, k);
    BlocksLength(xs[..k], block, width);
    BlocksPrefix(xs, block, k + 1);
    MulSucc(k, width);
    SliceAfter(Blocks(xs, block), pre, block(k + 1, xs[k]));
  }

  /** What follows a prefix `pre` in a sequence that starts with `pre + b` is `b`. */
  lemma SliceAfter<U>(all: seq<U>, pre: seq<U>, b: seq<U>)
    requires pre + b <= all
    ensures |pre| + |b| <= |all| && all[|pre|..|pre| + |b|] == b
  {
    assert all[..|pre| + |b|] == pre + b;
    assert (pre + b)[|pre|..] == b;
  }

  /** A property of every line of every block holds of every line pushed. */
  lemma {:induction false} BlocksLines<T>(xs: seq<T>, block: (nat, T) -> seq<string>, p: string -> bool)
    requires forall n, x, line :: line in block(n, x) ==> p(line)
    ensures forall line :: line in Blocks(xs, block) ==> p(line)
  {
    if xs != [] {
      BlocksLines(xs[..|xs| - 1], block, p);
    }
  }

  /** The `forEach` loop: pushes the numbered block of every item onto `sections`. */
  method PushBlocks<T>(sections: seq<string>, xs: seq<T>, block: (nat, T) -> seq<string>) returns (out: seq<string>)
    ensures out == sections + Blocks(xs, block)
  {
    out := sections;
    var i := 0;
    while i < |xs|
      invariant 0 <= i <= |xs|
      invariant out == sections + Blocks(xs[..i], block)
    {
      BlocksStep(xs, block, i);
      out := out + block(i + 1, xs[i]);
      i := i + 1;
    }
    assert xs[..i] == xs;
  }

  function YesNo(b: bool): string {
    if b then "Yes" else "No"
  }

  // ---------------------------------------------------------------------
  // Scores

  const Green := "\U{1F7E2}"
  const Yellow := "\U{1F7E1}"
  const Red := "\U{1F534}"

  /** `getEmoji`: green from 7 up, yellow from 5 up to 7, red below 5. */
  function Emoji(score: real): (e: string)
    ensures e == Green <==> score >= 7.0
    ensures e == Yellow <==> 5.0 <= score < 7.0
    ensures e == Red <==> score < 5.0
  {
    if score >= 7.0 then Green else if score >= 5.0 then Yellow else Red
  }

  function ScoreLine(name: string, score: real, show: real -> string): string {
    Emoji(score) + " **" + name + ":** " + show(score) + "/10"
  }

  function ScoreLines(s: GeoScores, show: real -> string): seq<string> {
    [ ScoreLine("Overall", s.overall, show),
      ScoreLine("Extractability", s.extractability, show),
      ScoreLine("Readability", s.readability, show),
      ScoreLine("Citability", s.citability, show) ]
  }

  /**
   * `formatScores`: the template opens with a line break and closes with a
   * line break and indentation, and trimming removes exactly those, leaving
   * one line per score.
   */
  function FormatScores(s: GeoScores, show: real -> string): (r: string)
    ensures r == Join(ScoreLines(s, show), "\n")
  {
    var lines := ScoreLines(s, show);
    var body := Join(lines, "\n");
    JoinFirst(lines, "\n");
    JoinLast(lines, "\n");
    TrimPadded("\n", body, "\n    ");
    Trim("\n" + body + "\n    ")
  }

  // ---------------------------------------------------------------------
  // Metrics

  function MetricLines(m: Metrics, show: real -> string): seq<string> {
    [ "**Sentence Length**",
      "- Average: " + show(m.sentenceLength.average) + " words",
      "- Target: " + show(m.sentenceLength.target as real) + " words",
      "- Problematic: " + show(|m.sentenceLength.problematic| as real) + " sentences",
      "",
      "**Claim Density**",
      "- Current: " + show(m.claimDensity.current) + " per 100 words",
      "- Target: " + show(m.claimDensity.target as real) + " per 100 words",
      "",
      "**Date Markers**",
      "- Found: " + show(m.dateMarkers.found as real),
      "- Recommended: " + show(m.dateMarkers.recommended as real),
      "",
      "**Structure**",
      "- Headings: " + show(m.structure.headingCount as real),
      "- Lists: " + show(m.structure.listCount as real),
      "- Has ToC: " + YesNo(m.structure.hasTableOfContents),
      "",
      "**Semantic Analysis**",
      "- Triples: " + show(m.semanticTriples.total as real),
      "- Triple Density: " + show(m.semanticTriples.density) + "/100 words",
      "- Entity Diversity: " + show(m.entities.diversity) ]
  }

  /** `formatMetrics`: the metrics template, trimmed. */
  function FormatMetrics(m: Metrics, show: real -> string): string {
    Trim("\n" + Join(MetricLines(m, show), "\n") + "\n    ")
  }

  /**
   * Trimming the metrics template removes only its padding, unless the
   * printed diversity, which ends the template, ends in white space.
   */
  lemma MetricsTrimmed(m: Metrics, show: real -> string)
    requires var d := show(m.entities.diversity); d != [] && !IsSpace(d[|d| - 1])
    ensures FormatMetrics(m, show) == Join(MetricLines(m, show), "\n")
  {
    var lines := MetricLines(m, show);
    JoinFirst(lines, "\n");
    JoinLast(lines, "\n");
    TrimPadded("\n", Join(lines, "\n"), "\n    ");
  }

  // ---------------------------------------------------------------------
  // Detailed analysis

  const ProblemHeading := "### Problematic Sentences (>30 words)\n"
  const ExampleHeading := "\n### Semantic Triple Examples\n"

  /** The two lines of a long sentence: its number, location and length, then the quoted sentence. */
  function ProblemBlock(show: real -> string): (nat, ProblemSentence) -> seq<string> {
    (n: nat, p: ProblemSentence) =>
      [ "**" + show(n as real) + ". " + p.location + "** (" + show(p.wordCount as real) + " words)",
        "> " + p.sentence + "\n" ]
  }

  /** The four lines of a triple; the confidence is printed as a rounded percentage. */
  function TripleBlock(show: real -> string): (nat, Triple) -> seq<string> {
    (n: nat, t: Triple) =>
      [ "- Subject: \"" + t.subject + "\"",
        "- Predicate: \"" + t.pred + "\"",
        "- Object: \"" + t.obj + "\"",
        "- Confidence: " + show(Round(t.confidence * 100.0) as real) + "%\n" ]
  }

  /** A numbered example sentence followed by the lines of each of its triples. */
  function ExampleBlock(show: real -> string): (nat, TripleExample) -> seq<string> {
    (n: nat, e: TripleExample) =>
      ["**" + show(n as real) + ". " + e.sentence + "**"] + Blocks(e.triples, TripleBlock(show))
  }

  function ProblemSection(ps: seq<ProblemSentence>, show: real -> string): seq<string> {
    if |ps| > 0 then [ProblemHeading] + Blocks(ps, ProblemBlock(show)) else []
  }

  function ExampleSection(es: seq<TripleExample>, show: real -> string): seq<string> {
    if |es| > 0 then [ExampleHeading] + Blocks(es, ExampleBlock(show)) else []
  }

  function DetailedLines(m: Metrics, show: real -> string): seq<string> {
    ProblemSection(m.sentenceLength.problematic, show) + ExampleSection(m.semanticTriples.examples, show)
  }

  /** Each example: its numbered sentence, then the lines of each of its triples. */
  method PushExamples(sections: seq<string>, examples: seq<TripleExample>, show: real -> string) returns (out: seq<string>)
    ensures out == sections + Blocks(examples, ExampleBlock(show))
  {
    out := sections;
    var i := 0;
    while i < |examples|
      invariant 0 <= i <= |examples|
      invariant out == sections + Blocks(examples[..i], ExampleBlock(show))
    {
      BlocksStep(examples, ExampleBlock(show), i);
      out := out + ["**" + show((i + 1) as real) + ". " + examples[i].sentence + "**"];
      out := PushBlocks(out, examples[i].triples, TripleBlock(show));
      i := i + 1;
    }
    assert examples[..i] == examples;
  }

  /**
   * `formatDetailedAnalysis`: the long sentences, numbered, under their
   * heading when there are any, then the triple examples under theirs.
   */
  method FormatDetailedAnalysis(m: Metrics, show: real -> string) returns (text: string)
    ensures text == Join(DetailedLines(m, show), "\n")
  {
    var sections: seq<string> := [];
    var problematic := m.sentenceLength.problematic;
    if |problematic| > 0 {
      sections := sections + [ProblemHeading];
      sections := PushBlocks(sections, problematic, ProblemBlock(show));
    }
    assert sections == ProblemSection(problematic, show);
    var examples := m.semanticTriples.examples;
    if |examples| > 0 {
      sections := sections + [ExampleHeading];
      sections := PushExamples(sections, examples, show);
    }
    assert sections == ProblemSection(problematic, show) + ExampleSection(examples, show);
    text := Join(sections, "\n");
  }

  /** A line that is not the long-sentence heading: it starts with `*`, `-` or `>`. */
  predicate Bulleted(line: string) {
    line != [] && (line[0] == '*' || line[0] == '-' || line[0] == '>')
  }

  /**
   * Long sentences are listed, numbered from 1 in order, under their
   * heading exactly when there are any: with none, the heading does not
   * occur at all.
   */
  lemma ProblemsListed(m: Metrics, show: real -> string)
    ensures var ps, lines := m.sentenceLength.problematic, DetailedLines(m, show);
      && (|ps| > 0 ==> |lines| >= 1 + 2 * |ps| && lines[0] == ProblemHeading)
      && (|ps| > 0 ==> forall k :: 0 <= k < |ps| ==> lines[1 + 2 * k..3 + 2 * k] == ProblemBlock(show)(k + 1, ps[k]))
      && (|ps| == 0 ==> ProblemHeading !in lines)
  {
    var ps := m.sentenceLength.problematic;
    var es := m.semanticTriples.examples;
    var lines := DetailedLines(m, show);
    if |ps| > 0 {
      var body := Blocks(ps, ProblemBlock(show));
      BlocksLength(ps, ProblemBlock(show), 2);
      forall k | 0 <= k < |ps|
        ensures lines[1 + 2 * k..3 + 2 * k] == ProblemBlock(show)(k + 1, ps[k])
      {
        BlockAt(ps, ProblemBlock(show), 2, k);
        assert lines == [ProblemHeading] + body + ExampleSection(es, show);
        assert lines[1 + 2 * k..3 + 2 * k] == body[2 * k..2 * k + 2];
      }
    } else {
      forall n, e, line | line in ExampleBlock(show)(n, e) ensures Bulleted(line) {
        BlocksLines(e.triples, TripleBlock(show), Bulleted);
      }
      BlocksLines(es, ExampleBlock(show), Bulleted);
      assert !Bulleted(ProblemHeading);
    }
  }

  // ---------------------------------------------------------------------
  // Chunking

  const MaxShownChunks: nat := 3
  const PreviewLength: nat := 150

  /** The five lines of a sample chunk; the preview is its first 150 characters and `...`. */
  function ChunkBlock(show: real -> string): (nat, ContentChunk) -> seq<string> {
    (n: nat, c: ContentChunk) =>
      [ "**Chunk " + show(n as real) + "**",
        "- Token Count: " + show(c.tokenCount as real),
        "- Coherence: " + show(Round(c.semanticCoherence * 100.0) as real) + "%",
        "- Self-contained: " + YesNo(c.selfContained),
        "- Preview: " + Take(c.content, PreviewLength) + "...\n" ]
  }

  function ChunkingLines(c: Chunking, show: real -> string): seq<string> {
    [ "**Average Coherence:** " + show(Round(c.averageCoherence * 100.0) as real) + "%",
      "**Problematic Boundaries:** " + show(c.problematicBoundaries as real) + "\n" ]
    + if |c.chunks| > 0 then ["### Sample Chunks\n"] + Blocks(Take(c.chunks, MaxShownChunks), ChunkBlock(show)) else []
  }

  /** `formatChunking`: the coherence and boundary lines, then up to three sample chunks. */
  method FormatChunking(c: Chunking, show: real -> string) returns (text: string)
    ensures text == Join(ChunkingLines(c, show), "\n")
  {
    var sections: seq<string> := [];
    sections := sections + ["**Average Coherence:** " + show(Round(c.averageCoherence * 100.0) as real) + "%"];
    sections := sections + ["**Problematic Boundaries:** " + show(c.problematicBoundaries as real) + "\n"];
    if |c.chunks| > 0 {
      sections := sections + ["### Sample Chunks\n"];
      sections := PushBlocks(sections, Take(c.chunks, MaxShownChunks), ChunkBlock(show));
    }
    assert sections == ChunkingLines(c, show);
    text := Join(sections, "\n");
  }

  /** With chunks to show, the sample blocks follow the two summary lines and the sub-heading. */
  lemma ChunkingBody(c: Chunking, show: real -> string)
    requires |c.chunks| > 0
    ensures var lines := ChunkingLines(c, show);
      |lines| >= 3 && lines[3..] == Blocks(Take(c.chunks, MaxShownChunks), ChunkBlock(show))
  {
  }

  /** The number and the preview of the `k`-th sample chunk. */
  lemma ChunkShown(c: Chunking, show: real -> string, k: nat)
    requires k < |c.chunks| && k < MaxShownChunks
    ensures var lines := ChunkingLines(c, show);
      && 7 + 5 * k < |lines|
      && lines[3 + 5 * k] == "**Chunk " + show((k + 1) as real) + "**"
      && lines[7 + 5 * k] == "- Preview: " + Take(c.chunks[k].content, PreviewLength) + "...\n"
  {
    var shown := Take(c.chunks, MaxShownChunks);
    var lines := ChunkingLines(c, show);
    var body := lines[3..];
    var blk := ChunkBlock(show)(k + 1, c.chunks[k]);
    ChunkingBody(c, show);
    BlockAt(shown, ChunkBlock(show), 5, k);
    assert shown[k] == c.chunks[k];
    assert body[k * 5..k * 5 + 5] == blk;
    assert lines[3 + 5 * k] == body[k * 5] == blk[0];
    assert lines[7 + 5 * k] == body[k * 5 + 4] == blk[4];
  }

  /**
   * At most three chunks are shown, the first ones, numbered from 1, each
   * previewed by its first 150 characters followed by `...`.
   */
  lemma ChunksShown(c: Chunking, show: real -> string)
    ensures var lines, shown := ChunkingLines(c, show), MinInt(MaxShownChunks, |c.chunks|);
      && |lines| == (if shown == 0 then 2 else 3 + 5 * shown)
      && forall k :: 0 <= k < shown ==>
           && lines[3 + 5 * k] == "**Chunk " + show((k + 1) as real) + "**"
           && lines[7 + 5 * k] == "- Preview: " + Take(c.chunks[k].content, PreviewLength) + "...\n"
  {
    if |c.chunks| > 0 {
      ChunkingBody(c, show);
      BlocksLength(Take(c.chunks, MaxShownChunks), ChunkBlock(show), 5);
      forall k | 0 <= k < MinInt(MaxShownChunks, |c.chunks|)
        ensures 7 + 5 * k < |ChunkingLines(c, show)|
        ensures ChunkingLines(c, show)[3 + 5 * k] == "**Chunk " + show((k + 1) as real) + "**"
        ensures ChunkingLines(c, show)[7 + 5 * k] == "- Preview: " + Take(c.chunks[k].content, PreviewLength) + "...\n"
      {
        ChunkShown(c, show, k);
      }
    }
  }

  // ---------------------------------------------------------------------
  // Recommendations

  function PriorityName(p: Priority): string {
    match p
    case High => "High"
    case Medium => "Medium"
    case Low => "Low"
  }

  function GroupHeading(p: Priority): string {
    "### " + PriorityName(p) + " Priority\n"
  }

  /** The filter `r.priority === p` as a partial map. */
  function Pick(p: Priority): GeoRecommendation -> Option<GeoRecommendation> {
    (r: GeoRecommendation) => if r.priority == p then Some(r) else None
  }

  /** `recommendations.filter(r => r.priority === p)`. */
  function Group(recs: seq<GeoRecommendation>, p: Priority): seq<GeoRecommendation> {
    MapFilter(recs, Pick(p))
  }

  /**
   * The block of a suggestion, numbered within its group: all five fields
   * for high priority, no `Current:` line for medium, and only the method,
   * location and suggested text for low.
   */
  function RecBlock(p: Priority, show: real -> string): (nat, GeoRecommendation) -> seq<string> {
    (n: nat, r: GeoRecommendation) =>
      match p
      case High =>
        [ "**" + show(n as real) + ". " + r.methodName + "**",
          "**Location:** " + r.location,
          "**Current:** " + r.currentText,
          "**Suggested:** " + r.suggestedText,
          "**Rationale:** " + r.rationale + "\n" ]
      case Medium =>
        [ "**" + show(n as real) + ". " + r.methodName + "**",
          "**Location:** " + r.location,
          "**Suggested:** " + r.suggestedText,
          "**Rationale:** " + r.rationale + "\n" ]
      case Low =>
        [ "**" + show(n as real) + ". " + r.methodName + "**",
          r.location + " - " + r.suggestedText + "\n" ]
  }

  /** The lines of one group: its heading and numbered blocks, or nothing for an empty group. */
  function Section(g: seq<GeoRecommendation>, p: Priority, show: real -> string): seq<string> {
    if |g| > 0 then [GroupHeading(p)] + Blocks(g, RecBlock(p, show)) else []
  }

  function GroupSection(recs: seq<GeoRecommendation>, p: Priority, show: real -> string): seq<string> {
    Section(Group(recs, p), p, show)
  }

  /** `if (group.length > 0) { ...; group.forEach(...) }`. */
  method PushGroup(sections: seq<string>, g: seq<GeoRecommendation>, p: Priority, show: real -> string) returns (out: seq<string>)
    ensures out == sections + Section(g, p, show)
  {
    out := sections;
    if |g| > 0 {
      out := out + [GroupHeading(p)];
      out := PushBlocks(out, g, RecBlock(p, show));
    }
  }

  function RecommendationLines(recs: seq<GeoRecommendation>, show: real -> string): seq<string> {
    GroupSection(recs, High, show) + GroupSection(recs, Medium, show) + GroupSection(recs, Low, show)
  }

  /** `formatRecommendations`: the high, medium and low groups, each under its heading when it has members. */
  method FormatRecommendations(recs: seq<GeoRecommendation>, show: real -> string) returns (text: string)
    ensures text == Join(RecommendationLines(recs, show), "\n")
  {
    var high := Group(recs, High);
    var medium := Group(recs, Medium);
    var low := Group(recs, Low);
    var sections: seq<string> := [];
    sections := PushGroup(sections, high, High, show);
    assert sections == GroupSection(recs, High, show);
    sections := PushGroup(sections, medium, Medium, show);
    sections := PushGroup(sections, low, Low, show);
    text := Join(sections, "\n");
  }

  /** Appending a suggestion adds it to the group of its priority and to no other. */
  lemma GroupAppend(init: seq<GeoRecommendation>, r: GeoRecommendation, p: Priority)
    ensures Group(init + [r], p) == Group(init, p) + if r.priority == p then [r] else []
  {
    var recs := init + [r];
    MapFilterStep(recs, Pick(p), |init|);
    assert recs[..|init| + 1] == recs;
    assert recs[..|init|] == init;
  }

  lemma PartitionAdd<T>(a: seq<T>, b: seq<T>, c: seq<T>, init: seq<T>, r: T)
    requires multiset(a) + multiset(b) + multiset(c) == multiset(init)
    ensures multiset(a + [r]) + multiset(b) + multiset(c) == multiset(init + [r])
  {
  }

  lemma GroupsAppend(init: seq<GeoRecommendation>, r: GeoRecommendation)
    requires multiset(Group(init, High)) + multiset(Group(init, Medium)) + multiset(Group(init, Low)) == multiset(init)
    ensures multiset(Group(init + [r], High)) + multiset(Group(init + [r], Medium)) + multiset(Group(init + [r], Low)) == multiset(init + [r])
  {
    GroupAppend(init, r, High);
    GroupAppend(init, r, Medium);
    GroupAppend(init, r, Low);
    var h, m, l := Group(init, High), Group(init, Medium), Group(init, Low);
    match r.priority
    case High => PartitionAdd(h, m, l, init, r);
    case Medium => PartitionAdd(m, h, l, init, r);
    case Low => PartitionAdd(l, h, m, init, r);
  }

  /** The three groups split the suggestions: each appears exactly once, in the group of its priority. */
  lemma {:induction false} GroupsPartition(recs: seq<GeoRecommendation>)
    ensures multiset(Group(recs, High)) + multiset(Group(recs, Medium)) + multiset(Group(recs, Low)) == multiset(recs)
  {
    if recs != [] {
      var n := |recs| - 1;
      var init, r := recs[..n], recs[n];
      assert recs == init + [r];
      GroupsPartition(init);
      GroupsAppend(init, r);
    }
  }

  /**
   * Within a group the suggestions keep their input order: the group holds
   * exactly the suggestions of that priority, the `k`-th of them numbered
   * `k + 1`.
   */
  lemma GroupOrder(recs: seq<GeoRecommendation>, p: Priority)
    ensures var g, idx := Group(recs, p), KeptIndices(recs, Pick(p));
      && |g| == |idx|
      && (forall k :: 0 <= k < |g| ==> g[k] == recs[idx[k]] && g[k].priority == p)
      && (forall k1, k2 :: 0 <= k1 < k2 < |idx| ==> idx[k1] < idx[k2])
      && (forall i :: 0 <= i < |recs| ==> (i in idx <==> recs[i].priority == p))
  {
    MapFilterAt(recs, Pick(p));
  }

  /** A line that is no group heading: it starts with `*` or holds a `-`. */
  predicate NotHeading(line: string) {
    (line != [] && line[0] == '*') || '-' in line
  }

  /** No line of a suggestion's block is a group heading. */
  lemma RecBlockNotHeading(q: Priority, show: real -> string, n: nat, r: GeoRecommendation)
    ensures forall line :: line in RecBlock(q, show)(n, r) ==> NotHeading(line)
  {
    if q == Low {
      var line := r.location + " - " + r.suggestedText + "\n";
      assert line[|r.location| + 1] == '-';
    }
  }

  lemma SectionNotHeading(g: seq<GeoRecommendation>, q: Priority, show: real -> string)
    ensures forall line :: line in Blocks(g, RecBlock(q, show)) ==> NotHeading(line)
  {
    forall n, r, line | line in RecBlock(q, show)(n, r) ensures NotHeading(line) {
      RecBlockNotHeading(q, show, n, r);
    }
    BlocksLines(g, RecBlock(q, show), NotHeading);
  }

  /** A group's section holds the heading of priority `p` exactly when it is that group's and not empty. */
  lemma SectionHeading(g: seq<GeoRecommendation>, q: Priority, p: Priority, show: real -> string)
    ensures GroupHeading(p) in Section(g, q, show) <==> q == p && |g| > 0
  {
    SectionNotHeading(g, q, show);
    assert GroupHeading(p)[0] == '#' && '-' !in GroupHeading(p);
    assert q != p ==> GroupHeading(p) != GroupHeading(q);
  }

  /** A group's heading occurs in the recommendations text exactly when the group has members. */
  lemma HeadingIffMembers(recs: seq<GeoRecommendation>, p: Priority, show: real -> string)
    ensures GroupHeading(p) in RecommendationLines(recs, show) <==> |Group(recs, p)| > 0
  {
    SectionHeading(Group(recs, High), High, p, show);
    SectionHeading(Group(recs, Medium), Medium, p, show);
    SectionHeading(Group(recs, Low), Low, p, show);
  }

  /** The number of lines in a suggestion's block at each priority. */
  function Width(p: Priority): nat {
    match p
    case High => 5
    case Medium => 4
    case Low => 2
  }

  /**
   * The `k`-th member of a group occupies the `k`-th block of lines under
   * the group heading, and that block opens with its number, `k + 1`, and
   * its method name.
   */
  lemma GroupNumbered(g: seq<GeoRecommendation>, p: Priority, show: real -> string, k: nat)
    requires k < |g|
    ensures var s, w := Section(g, p, show), Width(p);
      && 1 + (k + 1) * w <= |s|
      && s[1 + k * w..1 + (k + 1) * w] == RecBlock(p, show)(k + 1, g[k])
      && s[1 + k * w] == "**" + show((k + 1) as real) + ". " + g[k].methodName + "**"
  {
    var block, w := RecBlock(p, show), Width(p);
    forall n, x ensures |block(n, x)| == w {
      BlockShape(p, show, n, x);
    }
    BlockAt(g, block, w, k);
    var b := Blocks(g, block);
    ShiftSlice(GroupHeading(p), b, k * w, (k + 1) * w);
    BlockShape(p, show, k + 1, g[k]);
  }

  lemma BlockShape(p: Priority, show: real -> string, n: nat, r: GeoRecommendation)
    ensures |RecBlock(p, show)(n, r)| == Width(p)
    ensures RecBlock(p, show)(n, r)[0] == "**" + show(n as real) + ". " + r.methodName + "**"
  {
  }

  lemma ShiftSlice<U>(h: U, b: seq<U>, lo: nat, hi: nat)
    requires lo <= hi <= |b|
    ensures ([h] + b)[1 + lo..1 + hi] == b[lo..hi]
  {
  }

  // ---------------------------------------------------------------------
  // The report

  /** The pieces `formatMarkdown` pushes, in order, around the texts of the sections. */
  function Assemble(query: string, analyzedAt: string, version: string,
                    scores: string, metrics: string, detailed: string, chunking: string, recommendations: string): (parts: seq<string>)
    ensures |parts| == 14
    ensures forall h :: 0 <= h < 6 ==> parts[HeadingPieces[h]] == Headings[h]
    ensures parts[5] == scores && parts[7] == metrics && parts[9] == detailed
    ensures parts[11] == chunking && parts[13] == recommendations
  {
    [] + ["# GEO Analysis Report\n"]
    + ["**Query:** " + query]
    + ["**Analyzed:** " + analyzedAt]
    + ["**Version:** " + version + "\n"]
    + ["## Overall Scores\n"]
    + [scores]
    + ["\n## Key Metrics\n"]
    + [metrics]
    + ["\n## Detailed Analysis\n"]
    + [detailed]
    + ["\n## Content Chunking Analysis\n"]
    + [chunking]
    + ["\n## Recommendations\n"]
    + [recommendations]
  }

  function ReportParts(a: GeoAnalysis, show: real -> string): seq<string> {
    Assemble(a.targetQuery, a.analyzedAt, a.version,
      FormatScores(a.scores, show),
      FormatMetrics(a.metrics, show),
      Join(DetailedLines(a.metrics, show), "\n"),
      Join(ChunkingLines(a.chunking, show), "\n"),
      Join(RecommendationLines(a.recommendations, show), "\n"))
  }

  function Report(a: GeoAnalysis, show: real -> string): string {
    Join(ReportParts(a, show), "\n")
  }

  /** `formatMarkdown`: header, scores, metrics, details, chunking and recommendations, joined with line breaks. */
  method FormatMarkdown(a: GeoAnalysis, show: real -> string) returns (report: string)
    ensures report == Report(a, show)
  {
    var sections: seq<string> := [];
    sections := sections + ["# GEO Analysis Report\n"];
    sections := sections + ["**Query:** " + a.targetQuery];
    sections := sections + ["**Analyzed:** " + a.analyzedAt];
    sections := sections + ["**Version:** " + a.version + "\n"];
    sections := sections + ["## Overall Scores\n"];
    sections := sections + [FormatScores(a.scores, show)];
    sections := sections + ["\n## Key Metrics\n"];
    sections := sections + [FormatMetrics(a.metrics, show)];
    sections := sections + ["\n## Detailed Analysis\n"];
    var detailed := FormatDetailedAnalysis(a.metrics, show);
    sections := sections + [detailed];
    sections := sections + ["\n## Content Chunking Analysis\n"];
    var chunking := FormatChunking(a.chunking, show);
    sections := sections + [chunking];
    sections := sections + ["\n## Recommendations\n"];
    var recommendations := FormatRecommendations(a.recommendations, show);
    sections := sections + [recommendations];
    report := Join(sections, "\n");
  }

  /** The section headings, in report order, and the positions of the pieces that hold them. */
  const Headings: seq<string> := [
    "# GEO Analysis Report\n", "## Overall Scores\n", "\n## Key Metrics\n",
    "\n## Detailed Analysis\n", "\n## Content Chunking Analysis\n", "\n## Recommendations\n"]
  const HeadingPieces: seq<nat> := [0, 4, 6, 8, 10, 12]

  lemma HeadingPlaces(parts: seq<string>, query: string, analyzedAt: string, version: string,
                      scores: string, metrics: string, detailed: string, chunking: string, recommendations: string)
    requires parts == Assemble(query, analyzedAt, version, scores, metrics, detailed, chunking, recommendations)
    ensures forall h :: 0 <= h < 6 ==> HeadingPieces[h] < |parts| && parts[HeadingPieces[h]] == Headings[h]
  {
    assert parts[0] == Headings[0] && parts[4] == Headings[1] && parts[6] == Headings[2];
    assert parts[8] == Headings[3] && parts[10] == Headings[4] && parts[12] == Headings[5];
  }

  /** Each of the six headings stands in the report at the offset of its piece. */
  lemma HeadingsAt(query: string, analyzedAt: string, version: string,
                   scores: string, metrics: string, detailed: string, chunking: string, recommendations: string)
    ensures var parts := Assemble(query, analyzedAt, version, scores, metrics, detailed, chunking, recommendations);
      var report := Join(parts, "\n");
      forall h :: 0 <= h < 6 ==>
        var o := Offset(parts, "\n", HeadingPieces[h]);
        o + |Headings[h]| <= |report| && report[o..o + |Headings[h]|] == Headings[h]
  {
    var parts := Assemble(query, analyzedAt, version, scores, metrics, detailed, chunking, recommendations);
    HeadingPlaces(parts, query, analyzedAt, version, scores, metrics, detailed, chunking, recommendations);
    forall h | 0 <= h < 6
      ensures var o := Offset(parts, "\n", HeadingPieces[h]);
        o + |Headings[h]| <= |Join(parts, "\n")| && Join(parts, "\n")[o..o + |Headings[h]|] == Headings[h]
    {
      JoinedAt(parts, "\n", HeadingPieces[h]);
    }
  }

  /**
   * Whatever the sections hold, the six headings come in the fixed order:
   * header, scores, metrics, details, chunking, recommendations, each
   * ending before the next begins.
   */
  lemma SectionOrder(query: string, analyzedAt: string, version: string,
                     scores: string, metrics: string, detailed: string, chunking: string, recommendations: string)
    ensures var parts := Assemble(query, analyzedAt, version, scores, metrics, detailed, chunking, recommendations);
      forall h1, h2 :: 0 <= h1 < h2 < 6 ==>
        Offset(parts, "\n", HeadingPieces[h1]) + |Headings[h1]| < Offset(parts, "\n", HeadingPieces[h2])
  {
    var parts := Assemble(query, analyzedAt, version, scores, metrics, detailed, chunking, recommendations);
    HeadingPlaces(parts, query, analyzedAt, version, scores, metrics, detailed, chunking, recommendations);
    forall h1, h2 | 0 <= h1 < h2 < 6
      ensures Offset(parts, "\n", HeadingPieces[h1]) + |Headings[h1]| < Offset(parts, "\n", HeadingPieces[h2])
    {
      OffsetIncreasing(parts, "\n", HeadingPieces[h1], HeadingPieces[h2]);
    }
  }
}
