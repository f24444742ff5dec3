/**
 * String operations of JavaScript that the analyzer relies on: `split` on a
 * character class repeated (`/\s+/`, `/[.!?]+/`), `split` on one character,
 * `trim`, `join`, `includes` and `toLowerCase`.
 */
module Text {

  /** The characters matched by `\s` and removed by `trim`. */
  predicate IsSpace(c: char) {
    c == ' ' || c == '\t' || c == '\n' || c == '\r' || c == '\U{000B}' || c == '\U{000C}'
    || c == '\U{00A0}' || c == '\U{1680}' || ('\U{2000}' <= c <= '\U{200A}')
    || c == '\U{2028}' || c == '\U{2029}' || c == '\U{202F}' || c == '\U{205F}'
    || c == '\U{3000}' || c == '\U{FEFF}'
  }

  /** Sentence terminators, the class `[.!?]`. */
  predicate IsSentenceEnd(c: char) {
    c == '.' || c == '!' || c == '?'
  }

  predicate NoneOf(s: string, p: char -> bool) {
    forall i :: 0 <= i < |s| ==> !p(s[i])
  }

  /** Index of the first character of `s` satisfying `p`, or `|s|`. */
  function FirstSep(s: string, p: char -> bool): (k: nat)
    ensures k <= |s|
    ensures NoneOf(s[..k], p)
    ensures k < |s| ==> p(s[k])
  {
    if s == [] then 0
    else if p(s[0]) then 0
    else 1 + FirstSep(s[1..], p)
  }

  /** Length of the run of characters satisfying `p` at the start of `s`. */
  function RunLength(s: string, p: char -> bool): (k: nat)
    ensures k <= |s|
    ensures forall i :: 0 <= i < k ==> p(s[i])
    ensures k < |s| ==> !p(s[k])
  {
    if s == [] || !p(s[0]) then 0
    else 1 + RunLength(s[1..], p)
  }

  /**
   * `s.split(/[p]+/)`: the pieces between maximal runs of separators. A
   * separator run at either end leaves an empty piece there, and the empty
   * string splits into one empty piece.
   */
  function SplitRuns(s: string, p: char -> bool): (r: seq<string>)
    ensures |r| >= 1
    ensures forall i :: 0 <= i < |r| ==> NoneOf(r[i], p)
    decreases |s|
  {
    var k := FirstSep(s, p);
    if k == |s| then [s]
    else
      var rest := s[k..];
      var j := RunLength(rest, p);
      [s[..k]] + SplitRuns(rest[j..], p)
  }

  /** The characters of `s` that do not satisfy `p`, in order. */
  function Without(s: string, p: char -> bool): string {
    if s == [] then []
    else (if p(s[0]) then [] else [s[0]]) + Without(s[1..], p)
  }

  function Concat(ss: seq<string>): string {
    if ss == [] then [] else ss[0] + Concat(ss[1..])
  }

  lemma {:induction false} WithoutAppend(a: string, b: string, p: char -> bool)
    ensures Without(a + b, p) == Without(a, p) + Without(b, p)
  {
    if a == [] {
      assert a + b == b;
    } else {
      assert (a + b)[0] == a[0];
      assert (a + b)[1..] == a[1..] + b;
      WithoutAppend(a[1..], b, p);
    }
  }

  lemma {:induction false} WithoutNone(s: string, p: char -> bool)
    requires NoneOf(s, p)
    ensures Without(s, p) == s
  {
    if s != [] {
      assert NoneOf(s[1..], p);
      WithoutNone(s[1..], p);
    }
  }

  lemma {:induction false} WithoutAll(s: string, p: char -> bool)
    requires forall i :: 0 <= i < |s| ==> p(s[i])
    ensures Without(s, p) == []
  {
    if s != [] {
      WithoutAll(s[1..], p);
    }
  }

  /**
   * Splitting loses exactly the separators: gluing the pieces back together
   * gives the input with every separator character removed.
   */
  lemma {:induction false} SplitRunsKeepsContent(s: string, p: char -> bool)
    ensures Concat(SplitRuns(s, p)) == Without(s, p)
    decreases |s|
  {
    var k := FirstSep(s, p);
    if k == |s| {
      assert s[..k] == s;
      WithoutNone(s, p);
    } else {
      var rest := s[k..];
      var j := RunLength(rest, p);
      var head, run, tail := s[..k], rest[..j], rest[j..];
      SplitRunsKeepsContent(tail, p);
      var pieces := SplitRuns(tail, p);
      assert SplitRuns(s, p) == [head] + pieces;
      assert Concat([head] + pieces) == head + Concat(pieces) by {
        assert ([head] + pieces)[1..] == pieces;
      }
      ThreeParts(s, k, j);
      SeparatedParts(s, head, run, tail, p);
    }
  }

  lemma ThreeParts(s: string, k: nat, j: nat)
    requires k + j <= |s|
    ensures s == s[..k] + (s[k..][..j] + s[k..][j..])
  {
    assert s[k..] == s[k..][..j] + s[k..][j..];
  }

  lemma {:induction false} SeparatedParts(s: string, head: string, run: string, tail: string, p: char -> bool)
    requires s == head + (run + tail)
    requires NoneOf(head, p)
    requires forall i :: 0 <= i < |run| ==> p(run[i])
    ensures Without(s, p) == head + Without(tail, p)
  {
    WithoutAppend(head, run + tail, p);
    WithoutAppend(run, tail, p);
    WithoutNone(head, p);
    WithoutAll(run, p);
    var w := Without(tail, p);
    assert Without(run + tail, p) == [] + w;
    assert [] + w == w;
  }

  /** `s.split(c)` for a single character: empty pieces are kept. */
  function SplitChar(s: string, c: char): (r: seq<string>)
    ensures |r| >= 1
    ensures forall i :: 0 <= i < |r| ==> c !in r[i]
    decreases |s|
  {
    var k := FirstSep(s, x => x == c);
    if k == |s| then [s] else [s[..k]] + SplitChar(s[k + 1..], c)
  }

  /** Splitting the lines joined by a separator that none contains gives the lines back. */
  lemma {:induction false} SplitJoin(ws: seq<string>, c: char)
    requires |ws| >= 1
    requires forall i :: 0 <= i < |ws| ==> c !in ws[i]
    ensures SplitChar(Join(ws, [c]), c) == ws
  {
    var s := Join(ws, [c]);
    var k := FirstSep(s, x => x == c);
    if |ws| == 1 {
      assert s == ws[0];
      assert k == |s|;
    } else {
      var w := ws[0];
      var rest := Join(ws[1..], [c]);
      assert s == w + [c] + rest;
      assert s[|w|] == c;
      assert forall i :: 0 <= i < |w| ==> s[i] == w[i];
      assert k == |w|;
      assert s[..k] == w;
      assert s[k + 1..] == rest;
      SplitJoin(ws[1..], c);
      assert [w] + ws[1..] == ws;
    }
  }

  /** Keeps the non-empty strings, in order (`filter(w => w.length > 0)`). */
  function NonEmpty(ss: seq<string>): (r: seq<string>)
    ensures |r| <= |ss|
    ensures forall i :: 0 <= i < |r| ==> r[i] != [] && r[i] in ss
    ensures forall w :: w in ss && w != [] ==> w in r
  {
    if ss == [] then []
    else (if ss[0] == [] then [] else [ss[0]]) + NonEmpty(ss[1..])
  }

  /** Number of leading white-space characters. */
  function TrimStartLength(s: string): (k: nat)
    ensures k <= |s|
  {
    RunLength(s, IsSpace)
  }

  /** Number of trailing white-space characters. */
  function TrimEndLength(s: string): (k: nat)
    ensures k <= |s|
    ensures forall i :: |s| - k <= i < |s| ==> IsSpace(s[i])
    ensures k < |s| ==> !IsSpace(s[|s| - k - 1])
  {
    if s == [] || !IsSpace(s[|s| - 1]) then 0
    else 1 + TrimEndLength(s[..|s| - 1])
  }

  /**
   * `s.trim()`: `s` without its leading and trailing white space. The result
   * is the slice `s[a..b]` where everything outside is white space and the
   * slice is empty or starts and ends with a non-space character.
   */
  function Trim(s: string): (r: string)
    ensures exists a, b ::
              && 0 <= a <= b <= |s| && r == s[a..b]
              && (forall i :: 0 <= i < a ==> IsSpace(s[i]))
              && (forall i :: b <= i < |s| ==> IsSpace(s[i]))
    ensures r == [] || (!IsSpace(r[0]) && !IsSpace(r[|r| - 1]))
  {
    var a := TrimStartLength(s);
    var t := s[a..];
    var e := TrimEndLength(t);
    assert t[..|t| - e] == s[a..|s| - e];
    t[..|t| - e]
  }

  predicate Trimmed(s: string) {
    s == [] || (!IsSpace(s[0]) && !IsSpace(s[|s| - 1]))
  }

  predicate AllSpace(s: string) {
    forall i :: 0 <= i < |s| ==> IsSpace(s[i])
  }

  /** White space around an already trimmed, non-empty text is all `trim` removes. */
  lemma TrimPadded(pre: string, x: string, post: string)
    requires AllSpace(pre) && AllSpace(post)
    requires x != [] && Trimmed(x)
    ensures Trim(pre + x + post) == x
  {
    var s := pre + x + post;
    var a := TrimStartLength(s);
    assert !IsSpace(s[|pre|]) by { assert s[|pre|] == x[0]; }
    assert forall i :: 0 <= i < |pre| ==> IsSpace(s[i]) by {
      forall i | 0 <= i < |pre| ensures s[i] == pre[i] { }
    }
    assert a == |pre|;
    var t := s[a..];
    assert t == x + post;
    var e := TrimEndLength(t);
    assert !IsSpace(t[|x| - 1]) by { assert t[|x| - 1] == x[|x| - 1]; }
    assert forall i :: |x| <= i < |t| ==> IsSpace(t[i]) by {
      forall i | |x| <= i < |t| ensures t[i] == post[i - |x|] { }
    }
    assert e == |post|;
    assert t[..|t| - e] == x;
  }

  /** `words.join(sep)`. */
  function Join(ws: seq<string>, sep: string): string {
    if ws == [] then ""
    else if |ws| == 1 then ws[0]
    else ws[0] + sep + Join(ws[1..], sep)
  }

  /** Where `ws[i]` starts inside `Join(ws, sep)`. */
  function Offset(ws: seq<string>, sep: string, i: nat): nat
    requires i <= |ws|
  {
    if i == 0 then 0 else Offset(ws, sep, i - 1) + |ws[i - 1]| + |sep|
  }

  lemma OffsetShift(ws: seq<string>, sep: string, i: nat)
    requires 1 <= i <= |ws|
    ensures Offset(ws, sep, i) == |ws[0]| + |sep| + Offset(ws[1..], sep, i - 1)
  {
    if i > 1 {
      OffsetShift(ws, sep, i - 1);
    }
  }

  /**
   * Each piece of a join sits at its offset, so the pieces appear in the
   * joined string in their original order.
   */
  lemma {:induction false} JoinedAt(ws: seq<string>, sep: string, i: nat)
    requires i < |ws|
    ensures Offset(ws, sep, i) + |ws[i]| <= |Join(ws, sep)|
    ensures Join(ws, sep)[Offset(ws, sep, i)..Offset(ws, sep, i) + |ws[i]|] == ws[i]
  {
    if |ws| == 1 {
    } else if i == 0 {
      assert Join(ws, sep) == ws[0] + (sep + Join(ws[1..], sep));
    } else {
      JoinedAt(ws[1..], sep, i - 1);
      OffsetShift(ws, sep, i);
      var tail := Join(ws[1..], sep);
      var o := Offset(ws[1..], sep, i - 1);
      var pre := ws[0] + sep;
      assert Join(ws, sep) == pre + tail;
      assert (pre + tail)[|pre| + o..|pre| + o + |ws[i]|] == tail[o..o + |ws[i]|];
    }
  }

  lemma {:induction false} OffsetIncreasing(ws: seq<string>, sep: string, i: nat, j: nat)
    requires i < j <= |ws| && sep != ""
    ensures Offset(ws, sep, i) + |ws[i]| < Offset(ws, sep, j)
  {
    if j > i + 1 {
      OffsetIncreasing(ws, sep, i, j - 1);
    }
  }

  /** A join starts with the first piece's first character. */
  lemma {:induction false} JoinFirst(ws: seq<string>, sep: string)
    requires |ws| >= 1 && ws[0] != []
    ensures Join(ws, sep) != [] && Join(ws, sep)[0] == ws[0][0]
  {
    if |ws| > 1 {
      assert Join(ws, sep) == ws[0] + (sep + Join(ws[1..], sep));
    }
  }

  /** A join ends with the last piece's last character. */
  lemma {:induction false} JoinLast(ws: seq<string>, sep: string)
    requires |ws| >= 1 && ws[|ws| - 1] != []
    ensures var j := Join(ws, sep); j != [] && j[|j| - 1] == ws[|ws| - 1][|ws[|ws| - 1]| - 1]
  {
    if |ws| > 1 {
      JoinLast(ws[1..], sep);
      assert Join(ws, sep) == (ws[0] + sep) + Join(ws[1..], sep);
    }
  }

  /** `s.includes(w)`. */
  predicate Contains(s: string, w: string) {
    w <= s || (s != [] && Contains(s[1..], w))
  }

  function LowerChar(c: char): char {
    if 'A' <= c <= 'Z' then (c as int - 'A' as int + 'a' as int) as char else c
  }

  /** `s.toLowerCase()` on the ASCII letters. */
  function Lower(s: string): (r: string)
    ensures |r| == |s|
  {
    seq(|s|, i requires 0 <= i < |s| => LowerChar(s[i]))
  }
}
