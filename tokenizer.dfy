/** Sentence and word splitting of the pattern analyzer. */
module Tokenizer {
  import opened Text

  function TrimAll(ss: seq<string>): (r: seq<string>)
    ensures |r| == |ss|
    ensures forall i :: 0 <= i < |r| ==> r[i] == Trim(ss[i])
  {
    seq(|ss|, i requires 0 <= i < |ss| => Trim(ss[i]))
  }

  lemma SliceKeepsNone(s: string, a: nat, b: nat, p: char -> bool)
    requires a <= b <= |s| && NoneOf(s, p)
    ensures NoneOf(s[a..b], p)
  {
    assert forall i :: 0 <= i < b - a ==> s[a..b][i] == s[a + i];
  }

  lemma TrimKeepsNone(s: string, p: char -> bool)
    requires NoneOf(s, p)
    ensures NoneOf(Trim(s), p)
  {
    var a, b :| 0 <= a <= b <= |s| && Trim(s) == s[a..b];
    SliceKeepsNone(s, a, b, p);
  }

  /**
   * `extractSentences`: split at runs of `.`, `!` and `?`, trim every piece
   * and drop the empty ones. Every sentence is non-empty, carries no white
   * space at either end and holds no terminator.
   */
  function ExtractSentences(content: string): (r: seq<string>)
    ensures forall i :: 0 <= i < |r| ==> r[i] != [] && Trimmed(r[i]) && NoneOf(r[i], IsSentenceEnd)
  {
    var pieces := SplitRuns(content, IsSentenceEnd);
    var trimmed := TrimAll(pieces);
    forall i | 0 <= i < |trimmed| ensures NoneOf(trimmed[i], IsSentenceEnd) {
      TrimKeepsNone(pieces[i], IsSentenceEnd);
    }
    NonEmpty(trimmed)
  }

  /** `content.split(/\s+/).filter(w => w.length > 0)`. */
  function Words(content: string): (r: seq<string>)
    ensures forall i :: 0 <= i < |r| ==> r[i] != [] && NoneOf(r[i], IsSpace)
  {
    NonEmpty(SplitRuns(content, IsSpace))
  }

  lemma {:induction false} ConcatNonEmpty(ss: seq<string>)
    ensures Concat(NonEmpty(ss)) == Concat(ss)
  {
    if ss != [] {
      ConcatNonEmpty(ss[1..]);
      var rest := NonEmpty(ss[1..]);
      if ss[0] == [] {
        assert NonEmpty(ss) == rest;
      } else {
        assert NonEmpty(ss) == [ss[0]] + rest;
        assert ([ss[0]] + rest)[1..] == rest;
      }
    }
  }

  /** The words are the content with its white space taken out, cut at that white space. */
  lemma WordsKeepContent(content: string)
    ensures Concat(Words(content)) == Without(content, IsSpace)
  {
    ConcatNonEmpty(SplitRuns(content, IsSpace));
    SplitRunsKeepsContent(content, IsSpace);
  }
}
