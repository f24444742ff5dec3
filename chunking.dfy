/**
 * The chunk simulator: consecutive 500-character slices of the content with
 * a token estimate, of which the first three are reported. Coherence is a
 * constant 0.8 and no boundary is ever problematic.
 */
module Chunking {
  import opened Numeric
  import opened Text
  import opened GeoTypes

  const ChunkSize: nat := 500

  /** How many slices the loop produces: `|content| / 500` rounded up. */
  function SliceCount(length: nat): nat {
    (length + ChunkSize - 1) / ChunkSize
  }

  /** `content.slice(k * 500, k * 500 + 500)`. */
  function Slice(content: string, k: nat): (s: string)
    requires k < SliceCount(|content|)
    ensures |s| == MinInt(ChunkSize, |content| - k * ChunkSize)
  {
    content[k * ChunkSize..MinInt(k * ChunkSize + ChunkSize, |content|)]
  }

  /** `Math.floor(text.split(/\s+/).length * 1.3)`: at least 1, since the split is not filtered. */
  function TokenEstimate(text: string): (n: nat)
    ensures n >= 1
  {
    var pieces := |SplitRuns(text, IsSpace)|;
    assert pieces as real * 1.3 >= 1.0;
    (pieces as real * 1.3).Floor
  }

  function ChunkAt(content: string, k: nat): ContentChunk
    requires k < SliceCount(|content|)
  {
    var text := Slice(content, k);
    ContentChunk(text, 0.8, true, TokenEstimate(text))
  }

  /** The first three of the 500-character chunks, with the constant coherence figures. */
  function ChunkingOf(content: string): Chunking {
    var n := MinInt(3, SliceCount(|content|));
    Chunking(seq(n, k requires 0 <= k < n => ChunkAt(content, k)), 0.8, 0)
  }

  /** A slice starting inside the content is one of the slices the loop produces. */
  lemma SliceInside(content: string, n: nat)
    requires n * ChunkSize < |content|
    ensures n < SliceCount(|content|)
    ensures Slice(content, n) == content[n * ChunkSize..MinInt(n * ChunkSize + ChunkSize, |content|)]
  {
  }

  /** Once `n` slices cover the content, there are no more. */
  lemma SlicesCovered(length: nat, n: nat)
    requires n <= SliceCount(length) && n * ChunkSize >= length
    ensures n == SliceCount(length)
  {
  }

  /** The `for` loop of `simulateChunking`: one chunk per 500-character step. */
  method SliceChunks(content: string) returns (chunks: seq<ContentChunk>)
    ensures |chunks| == SliceCount(|content|)
    ensures forall k :: 0 <= k < |chunks| ==> chunks[k] == ChunkAt(content, k)
  {
    chunks := [];
    var i := 0;
    while i < |content|
      invariant i == |chunks| * ChunkSize
      invariant |chunks| <= SliceCount(|content|)
      invariant forall k :: 0 <= k < |chunks| ==> chunks[k] == ChunkAt(content, k)
    {
      SliceInside(content, |chunks|);
      var chunkContent := content[i..MinInt(i + ChunkSize, |content|)];
      assert ContentChunk(chunkContent, 0.8, true, TokenEstimate(chunkContent)) == ChunkAt(content, |chunks|);
      chunks := chunks + [ContentChunk(chunkContent, 0.8, true, TokenEstimate(chunkContent))];
      i := i + ChunkSize;
    }
    SlicesCovered(|content|, |chunks|);
  }

  /**
   * `simulateChunking`: steps through the content 500 characters at a time,
   * builds one chunk per slice, and keeps the first three.
   */
  method SimulateChunking(content: string) returns (c: Chunking)
    ensures |c.chunks| == MinInt(3, SliceCount(|content|))
    ensures forall k :: 0 <= k < |c.chunks| ==> c.chunks[k] == ChunkAt(content, k)
    ensures c.averageCoherence == 0.8 && c.problematicBoundaries == 0
    ensures c == ChunkingOf(content)
  {
    var chunks := SliceChunks(content);
    c := Chunking(chunks[..MinInt(3, |chunks|)], 0.8, 0);
    assert c.chunks == ChunkingOf(content).chunks;
  }

  function ChunkTexts(chunks: seq<ContentChunk>): string {
    if chunks == [] then "" else ChunkTexts(chunks[..|chunks| - 1]) + chunks[|chunks| - 1].content
  }

  /**
   * The reported chunks tile the start of the content: glued together they
   * give its first `500 * n` characters (or all of it), every chunk but the
   * last is 500 characters long, and every token estimate is at least 1.
   */
  lemma {:induction false} ChunksTileContent(content: string, chunks: seq<ContentChunk>)
    requires |chunks| <= SliceCount(|content|)
    requires forall k :: 0 <= k < |chunks| ==> chunks[k] == ChunkAt(content, k)
    ensures ChunkTexts(chunks) == content[..MinInt(|chunks| * ChunkSize, |content|)]
    ensures forall k :: 0 <= k < |chunks| - 1 ==> |chunks[k].content| == ChunkSize
    ensures forall k :: 0 <= k < |chunks| ==> chunks[k].tokenCount >= 1 && chunks[k].semanticCoherence == 0.8
  {
    if chunks != [] {
      var n := |chunks| - 1;
      ChunksTileContent(content, chunks[..n]);
      assert ChunkTexts(chunks) == ChunkTexts(chunks[..n]) + chunks[n].content;
      TileStep(content, n);
    }
  }

  /** The text up to the end of slice `n` is the text before it followed by the slice. */
  lemma TileStep(content: string, n: nat)
    requires n < SliceCount(|content|)
    ensures n * ChunkSize <= |content|
    ensures content[..MinInt((n + 1) * ChunkSize, |content|)] == content[..MinInt(n * ChunkSize, |content|)] + Slice(content, n)
  {
    var lo := n * ChunkSize;
    var hi := MinInt(lo + ChunkSize, |content|);
    assert (n + 1) * ChunkSize == lo + ChunkSize;
    assert lo < |content|;
    assert content[..hi] == content[..lo] + content[lo..hi];
  }
}
