/**
 * The deterministic parts of the semantic analyzer: the parser for the
 * `(subject|predicate|object)` lines of the triple reply, the filter over
 * the parsed entity reply, and the entity-type diversity.
 */
module SemanticAnalyzer {
  import opened Wrappers
  import opened Numeric
  import opened Text
  import opened Lists
  import opened GeoTypes

  const MaxTriples: nat := 15
  const MaxEntities: nat := 30
  const TripleConfidence: real := 0.9

  // ---------------------------------------------------------------------
  // Triples

  /** Index of the first `c` in `s` at or after `from`, or `|s|`. */
  function IndexFrom(s: string, c: char, from: nat): (k: nat)
    requires from <= |s|
    ensures from <= k <= |s|
    ensures c !in s[from..k]
    ensures k < |s| ==> s[k] == c
    decreases |s| - from
  {
    if from == |s| || s[from] == c then from else IndexFrom(s, c, from + 1)
  }

  /** The three groups of a match. */
  datatype Groups = Groups(first: string, second: string, third: string)

  /** The text a match covers: `(first|second|third)`. */
  function Covered(g: Groups): string {
    "(" + (g.first + ("|" + (g.second + ("|" + (g.third + ")")))))
  }

  predicate WellFormed(g: Groups) {
    && g.first != [] && '|' !in g.first
    && g.second != [] && '|' !in g.second
    && g.third != [] && ')' !in g.third
  }

  /**
   * The pattern `\(([^|]+)\|([^|]+)\|([^)]+)\)` tried at the `(` at `start`:
   * each group runs up to the next `|`, `|` and `)`, and none may be empty.
   */
  function MatchAt(line: string, start: nat): (r: Option<Groups>)
    requires start < |line| && line[start] == '('
  {
    var p1 := IndexFrom(line, '|', start + 1);
    if p1 == |line| || p1 == start + 1 then None
    else
      var p2 := IndexFrom(line, '|', p1 + 1);
      if p2 == |line| || p2 == p1 + 1 then None
      else
        var p3 := IndexFrom(line, ')', p2 + 1);
        if p3 == |line| || p3 == p2 + 1 then None
        else
          Some(Groups(line[start + 1..p1], line[p1 + 1..p2], line[p2 + 1..p3]))
  }

  /** The first `c` at or after `from` closes the `c`-free text `a` that starts there. */
  lemma IndexAfter(s: string, c: char, from: nat, a: string, rest: string)
    requires from <= |s| && s[from..] == a + ([c] + rest) && c !in a
    ensures IndexFrom(s, c, from) == from + |a|
    ensures s[from..from + |a|] == a && s[from + |a| + 1..] == rest
  {
    var t := s[from..];
    assert t[|a|] == c;
    assert s[from..from + |a|] == t[..|a|] == a;
    assert s[from + |a| + 1..] == t[|a| + 1..] == rest;
  }

  /** When the three delimiters are where the pattern looks for them, the groups lie between them. */
  lemma MatchAtEnds(line: string, p1: nat, p2: nat, p3: nat, g: Groups)
    requires 1 < p1 && p1 + 1 < p2 && p2 + 1 < p3 < |line| && line[0] == '('
    requires IndexFrom(line, '|', 1) == p1
    requires IndexFrom(line, '|', p1 + 1) == p2
    requires IndexFrom(line, ')', p2 + 1) == p3
    requires line[1..p1] == g.first && line[p1 + 1..p2] == g.second && line[p2 + 1..p3] == g.third
    ensures MatchAt(line, 0) == Some(g)
  {
  }

  /** In a line that opens with `(a|b|c)`, the delimiters the pattern looks for sit right after `a`, `b` and `c`. */
  lemma Delimiters(line: string, a: string, b: string, c: string, rest: string, p1: nat, p2: nat)
    requires '|' !in a && '|' !in b && ')' !in c
    requires |line| > 0 && line[1..] == a + ("|" + (b + ("|" + (c + (")" + rest)))))
    requires p1 == 1 + |a| && p2 == p1 + 1 + |b|
    ensures IndexFrom(line, '|', 1) == p1 && line[1..p1] == a
    ensures IndexFrom(line, '|', p1 + 1) == p2 && line[p1 + 1..p2] == b
    ensures IndexFrom(line, ')', p2 + 1) == p2 + 1 + |c| && line[p2 + 1..p2 + 1 + |c|] == c
    ensures p2 + 1 + |c| < |line|
  {
    IndexAfter(line, '|', 1, a, b + ("|" + (c + (")" + rest))));
    LastDelimiters(line, b, c, rest, p1, p2);
  }

  /** The second and third delimiters, once the first has been passed at `p1`. */
  lemma LastDelimiters(line: string, b: string, c: string, rest: string, p1: nat, p2: nat)
    requires '|' !in b && ')' !in c
    requires p1 + 1 <= |line| && line[p1 + 1..] == b + ("|" + (c + (")" + rest)))
    requires p2 == p1 + 1 + |b|
    ensures IndexFrom(line, '|', p1 + 1) == p2 && line[p1 + 1..p2] == b
    ensures IndexFrom(line, ')', p2 + 1) == p2 + 1 + |c| && line[p2 + 1..p2 + 1 + |c|] == c
    ensures p2 + 1 + |c| < |line|
  {
    IndexAfter(line, '|', p1 + 1, b, c + (")" + rest));
    IndexAfter(line, ')', p2 + 1, c, rest);
  }

  /** A line that opens with `(a|b|c)`, for `|`-free `a`, `b` and `)`-free `c`, none empty, matches there with groups `a`, `b`, `c`. */
  lemma MatchAtParts(line: string, a: string, b: string, c: string, rest: string)
    requires a != [] && '|' !in a && b != [] && '|' !in b && c != [] && ')' !in c
    requires |line| > 0 && line[0] == '(' && line[1..] == a + ("|" + (b + ("|" + (c + (")" + rest)))))
    ensures MatchAt(line, 0) == Some(Groups(a, b, c))
  {
    var p1 := 1 + |a|;
    var p2 := p1 + 1 + |b|;
    Delimiters(line, a, b, c, rest, p1, p2);
    MatchAtEnds(line, p1, p2, p2 + 1 + |c|, Groups(a, b, c));
  }

  /**
   * Any well-formed `(a|b|c)` at the start of a line is what the pattern
   * matches there, whatever follows it.
   */
  lemma MatchAtComplete(g: Groups, rest: string)
    requires WellFormed(g)
    ensures MatchAt(Covered(g) + rest, 0) == Some(g)
  {
    var line := Covered(g) + rest;
    var tail := g.first + ("|" + (g.second + ("|" + (g.third + (")" + rest)))));
    assert line[1..] == tail;
    MatchAtParts(line, g.first, g.second, g.third, rest);
  }

  /** The leftmost `(` at or after `from` where the pattern matches, or `|line|`. */
  function LeftmostStart(line: string, from: nat): (s: nat)
    requires from <= |line|
    ensures from <= s <= |line|
    ensures s < |line| ==> line[s] == '(' && MatchAt(line, s).Some?
    ensures forall t :: from <= t < s && line[t] == '(' ==> MatchAt(line, t).None?
    decreases |line| - from
  {
    var t := IndexFrom(line, '(', from);
    if t == |line| then t
    else if MatchAt(line, t).Some? then t
    else LeftmostStart(line, t + 1)
  }

  /** `line.match(...)`: the leftmost match, if any. */
  function Match(line: string): (r: Option<Groups>)
    ensures r.Some? ==> WellFormed(r.value)
  {
    var s := LeftmostStart(line, 0);
    if s < |line| then MatchAt(line, s) else None
  }

  /** The triple a line yields: the trimmed groups with confidence 0.9. */
  function LineTriple(line: string): Option<Triple> {
    match Match(line)
    case None => None
    case Some(g) => Some(Triple(Trim(g.first), Trim(g.second), Trim(g.third), TripleConfidence))
  }

  function NonBlank(line: string): Option<string> {
    if Trim(line) != [] then Some(line) else None
  }

  /** `text.split('\n').filter(line => line.trim().length > 0)`. */
  function Lines(text: string): seq<string> {
    MapFilter(SplitChar(text, '\n'), NonBlank)
  }

  /** The triples `parseTriples` returns: one per matching line, the first 15. */
  function ParsedTriples(text: string): seq<Triple> {
    Take(MapFilter(Lines(text), LineTriple), MaxTriples)
  }

  predicate GoodTriple(t: Triple) {
    && t.confidence == TripleConfidence
    && Trimmed(t.subject) && Trimmed(t.pred) && Trimmed(t.obj)
    && '|' !in t.subject && '|' !in t.pred && ')' !in t.obj
  }

  lemma TrimOmits(s: string, c: char)
    requires c !in s
    ensures c !in Trim(s)
  {
  }

  lemma LineTripleGood(line: string)
    ensures LineTriple(line).Some? ==> GoodTriple(LineTriple(line).value)
  {
    var m := Match(line);
    if m.Some? {
      var g := m.value;
      TrimOmits(g.first, '|');
      TrimOmits(g.second, '|');
      TrimOmits(g.third, ')');
      assert LineTriple(line) == Some(Triple(Trim(g.first), Trim(g.second), Trim(g.third), TripleConfidence));
    }
  }

  /**
   * `parseTriples`: walks the non-blank lines, pushes a triple for each line
   * the pattern matches, and keeps the first 15.
   */
  method ParseTriples(text: string) returns (triples: seq<Triple>)
    ensures triples == ParsedTriples(text)
    ensures |triples| <= MaxTriples
  {
    var lines := Lines(text);
    var found := MatchLines(lines);
    triples := Take(found, MaxTriples);
  }

  /** The loop of `parseTriples`: a triple for each line the pattern matches, in line order. */
  method MatchLines(lines: seq<string>) returns (found: seq<Triple>)
    ensures found == MapFilter(lines, LineTriple)
  {
    found := [];
    var i := 0;
    while i < |lines|
      invariant 0 <= i <= |lines|
      invariant found == MapFilter(lines[..i], LineTriple)
    {
      MapFilterStep(lines, LineTriple, i);
      var triple := LineTriple(lines[i]);
      if triple.Some? {
        found := found + [triple.value];
      }
      i := i + 1;
    }
    assert lines[..i] == lines;
  }

  /**
   * The triples come from the non-blank lines in order, at most one per
   * line: a line contributes exactly when the pattern matches it.
   */
  lemma TriplesFollowLines(text: string)
    ensures var lines, idx := Lines(text), KeptIndices(Lines(text), LineTriple);
      var all := MapFilter(lines, LineTriple);
      && ParsedTriples(text) == Take(all, MaxTriples)
      && |all| == |idx|
      && (forall k :: 0 <= k < |all| ==> Match(lines[idx[k]]).Some? && all[k] == LineTriple(lines[idx[k]]).value)
      && (forall k1, k2 :: 0 <= k1 < k2 < |idx| ==> idx[k1] < idx[k2])
      && (forall i :: 0 <= i < |lines| ==> (i in idx <==> Match(lines[i]).Some?))
  {
    MapFilterAt(Lines(text), LineTriple);
  }

  /** Every parsed triple has confidence 0.9, trimmed fields, and no delimiter inside its first two groups or `)` in its third. */
  lemma ParsedTriplesGood(text: string)
    ensures forall k :: 0 <= k < |ParsedTriples(text)| ==> GoodTriple(ParsedTriples(text)[k])
  {
    var lines := Lines(text);
    var idx := KeptIndices(lines, LineTriple);
    var all := MapFilter(lines, LineTriple);
    MapFilterAt(lines, LineTriple);
    forall k | 0 <= k < |ParsedTriples(text)|
      ensures GoodTriple(ParsedTriples(text)[k])
    {
      LineTripleGood(lines[idx[k]]);
    }
  }

  /** The line a triple is written as in the reply. */
  function TripleLine(t: Triple): string {
    Covered(Groups(t.subject, t.pred, t.obj))
  }

  /** A triple the reply format can carry: non-empty trimmed fields free of the delimiters and of line breaks. */
  predicate Writable(t: Triple) {
    && t.confidence == TripleConfidence
    && WellFormed(Groups(t.subject, t.pred, t.obj))
    && Trimmed(t.subject) && Trimmed(t.pred) && Trimmed(t.obj)
    && '\n' !in t.subject && '\n' !in t.pred && '\n' !in t.obj
  }

  lemma TrimKeeps(x: string)
    requires x != [] && Trimmed(x)
    ensures Trim(x) == x
  {
    TrimPadded("", x, "");
    assert "" + x + "" == x;
  }

  /** The pattern finds a writable triple's groups at the start of its line. */
  lemma WrittenMatch(t: Triple)
    requires Writable(t)
    ensures Match(TripleLine(t)) == Some(Groups(t.subject, t.pred, t.obj))
  {
    var g := Groups(t.subject, t.pred, t.obj);
    MatchAtComplete(g, "");
    assert Covered(g) + "" == TripleLine(t);
    assert LeftmostStart(TripleLine(t), 0) == 0;
  }

  /** A written line is not blank and holds no line break. */
  lemma WrittenNonBlank(t: Triple)
    requires Writable(t)
    ensures NonBlank(TripleLine(t)) == Some(TripleLine(t))
    ensures '\n' !in TripleLine(t)
  {
    var line := TripleLine(t);
    assert !IsSpace(line[0]);
    assert Trim(line) != [];
  }

  /** A written line of a writable triple is non-blank, has no line break, and parses back to the triple. */
  lemma WrittenLine(t: Triple)
    requires Writable(t)
    ensures NonBlank(TripleLine(t)) == Some(TripleLine(t))
    ensures LineTriple(TripleLine(t)) == Some(t)
    ensures '\n' !in TripleLine(t)
  {
    WrittenNonBlank(t);
    WrittenMatch(t);
    TrimKeeps(t.subject);
    TrimKeeps(t.pred);
    TrimKeeps(t.obj);
  }

  lemma WrittenLines(ts: seq<Triple>, lines: seq<string>)
    requires forall k :: 0 <= k < |ts| ==> Writable(ts[k])
    requires lines == seq(|ts|, k requires 0 <= k < |ts| => TripleLine(ts[k]))
    ensures forall k :: 0 <= k < |lines| ==> NonBlank(lines[k]) == Some(lines[k])
    ensures forall k :: 0 <= k < |lines| ==> LineTriple(lines[k]) == Some(ts[k])
    ensures forall k :: 0 <= k < |lines| ==> '\n' !in lines[k]
  {
    forall k | 0 <= k < |lines|
      ensures NonBlank(lines[k]) == Some(lines[k])
      ensures LineTriple(lines[k]) == Some(ts[k])
      ensures '\n' !in lines[k]
    {
      WrittenLine(ts[k]);
    }
  }

  /** An empty reply yields no triples. */
  lemma ParseEmpty()
    ensures ParsedTriples("") == []
  {
    assert SplitChar("", '\n') == [""];
    assert Trim("") == [];
    assert MapFilter([""], NonBlank) == MapFilter([], NonBlank) by {
      assert [""][..0] == [];
    }
  }

  /** Non-blank lines without line breaks, each yielding its triple, parse back to those triples once joined. */
  lemma ParseLines(lines: seq<string>, ts: seq<Triple>)
    requires 1 <= |lines| == |ts| <= MaxTriples
    requires forall k :: 0 <= k < |lines| ==> '\n' !in lines[k]
    requires forall k :: 0 <= k < |lines| ==> NonBlank(lines[k]) == Some(lines[k])
    requires forall k :: 0 <= k < |lines| ==> LineTriple(lines[k]) == Some(ts[k])
    ensures ParsedTriples(Join(lines, "\n")) == ts
  {
    SplitJoin(lines, '\n');
    MapFilterKeepsAll(lines, NonBlank);
    MapFilterImages(lines, LineTriple, ts);
  }

  /**
   * Parsing undoes writing: up to 15 writable triples, one per line, are
   * parsed back exactly.
   */
  lemma ParseWrittenTriples(ts: seq<Triple>)
    requires |ts| <= MaxTriples
    requires forall k :: 0 <= k < |ts| ==> Writable(ts[k])
    ensures ParsedTriples(Join(seq(|ts|, k requires 0 <= k < |ts| => TripleLine(ts[k])), "\n")) == ts
  {
    var lines := seq(|ts|, k requires 0 <= k < |ts| => TripleLine(ts[k]));
    var text := Join(lines, "\n");
    WrittenLines(ts, lines);
    if ts == [] {
      assert text == "";
      ParseEmpty();
    } else {
      ParseLines(lines, ts);
    }
  }

  // ---------------------------------------------------------------------
  // Entities

  /** JavaScript truthiness of a parsed JSON value (JSON has no NaN). */
  predicate Truthy(j: Json) {
    match j
    case JNull => false
    case JBool(b) => b
    case JNum(n) => n != 0.0
    case JStr(s) => s != ""
    case JArr(_) => true
    case JObj(_) => true
  }

  /** `value[key]` on a non-null value: the member of an object, `undefined` (None) otherwise. */
  function Member(j: Json, key: string): (r: Option<Json>)
    ensures r.Some? <==> j.JObj? && key in j.fields
  {
    if j.JObj? && key in j.fields then Some(j.fields[key]) else None
  }

  /** The type names the filter allows, in the order the source lists them. */
  function KindName(k: EntityType): string {
    match k
    case Person => "PERSON"
    case Org => "ORG"
    case Product => "PRODUCT"
    case Location => "LOCATION"
    case Date => "DATE"
    case Measurement => "MEASUREMENT"
  }

  /** The allowed type a `type` value names, if it is one of the six strings. */
  function KindOf(j: Option<Json>): (r: Option<EntityType>)
    ensures r.Some? ==> j == Some(JStr(KindName(r.value)))
  {
    match j
    case Some(JStr(s)) =>
      if s == "PERSON" then Some(Person)
      else if s == "ORG" then Some(Org)
      else if s == "PRODUCT" then Some(Product)
      else if s == "LOCATION" then Some(Location)
      else if s == "DATE" then Some(Date)
      else if s == "MEASUREMENT" then Some(Measurement)
      else None
    case _ => None
  }

  /** Every allowed type name is recognised, and as itself. */
  lemma KindNames(k: EntityType)
    ensures KindOf(Some(JStr(KindName(k)))) == Some(k)
  {
  }

  /**
   * The filter's test on a non-null item: a truthy `text` and a `type` among
   * the six names. The item is kept as its text and its type.
   */
  function Keep(item: Json): (r: Option<Entity>)
    ensures r.Some? ==> Member(item, "text") == Some(r.value.text) && Truthy(r.value.text)
    ensures r.Some? ==> Member(item, "type") == Some(JStr(KindName(r.value.kind)))
  {
    var text := Member(item, "text");
    var kind := KindOf(Member(item, "type"));
    if text.Some? && Truthy(text.value) && kind.Some? then Some(Entity(text.value, kind.value)) else None
  }

  /** An item the filter keeps exactly when its text is truthy and its type is allowed. */
  lemma KeepExactly(item: Json, text: Json, k: EntityType)
    requires Member(item, "text") == Some(text) && Member(item, "type") == Some(JStr(KindName(k)))
    ensures Keep(item) == if Truthy(text) then Some(Entity(text, k)) else None
  {
    KindNames(k);
  }

  /**
   * `parseEntities` after `JSON.parse`: `None` is a reply that does not
   * parse. A `null` item makes the filter's `entity.text` throw, which the
   * same `catch` turns into no entities; anything but an array also yields
   * none. Otherwise the kept items, in order, at most 30.
   */
  function ParsedEntities(parsed: Option<Json>): (r: seq<Entity>)
    ensures |r| <= MaxEntities
    ensures (parsed.None? || !parsed.value.JArr? || JNull in parsed.value.items) ==> r == []
  {
    match parsed
    case Some(JArr(items)) =>
      if JNull in items then [] else Take(MapFilter(items, Keep), MaxEntities)
    case _ => []
  }

  /**
   * The entities come from the array's items in order, at most one per item:
   * an item contributes exactly when `Keep` accepts it, and only the first 30
   * such items count.
   */
  lemma EntitiesFollowItems(items: seq<Json>)
    requires JNull !in items
    ensures var all, idx := MapFilter(items, Keep), KeptIndices(items, Keep);
      && ParsedEntities(Some(JArr(items))) == Take(all, MaxEntities)
      && |all| == |idx|
      && (forall k :: 0 <= k < |all| ==> Keep(items[idx[k]]).Some? && all[k] == Keep(items[idx[k]]).value)
      && (forall k1, k2 :: 0 <= k1 < k2 < |idx| ==> idx[k1] < idx[k2])
      && (forall i :: 0 <= i < |items| ==> (i in idx <==> Keep(items[i]).Some?))
  {
    MapFilterAt(items, Keep);
  }

  // ---------------------------------------------------------------------
  // Diversity

  const AllKinds: set<EntityType> := {Person, Org, Product, Location, Date, Measurement}

  lemma InAllKinds(k: EntityType)
    ensures k in AllKinds
  {
  }

  /** `new Set(entities.map(e => e.type))`. */
  function Kinds(entities: seq<Entity>): (r: set<EntityType>)
    ensures r <= AllKinds
    ensures forall e :: e in entities ==> e.kind in r
  {
    var r := set e | e in entities :: e.kind;
    assert r <= AllKinds by {
      forall k | k in r ensures k in AllKinds { InAllKinds(k); }
    }
    r
  }

  /** The distinct types over the six there are, rounded to two decimals. */
  function Diversity(entities: seq<Entity>): real {
    Round2(|Kinds(entities)| as real / 6.0)
  }

  lemma AllKindsCount()
    ensures |AllKinds| == 6
  {
  }

  /** A proper subset of the six types has at most five. */
  lemma FewerKinds(ks: set<EntityType>)
    requires ks <= AllKinds && ks != AllKinds
    ensures |ks| <= 5
  {
    var missing :| missing in AllKinds - ks;
    var rest := AllKinds - {missing};
    assert |rest| == 5 by {
      match missing
      case Person => assert rest == {Org, Product, Location, Date, Measurement};
      case Org => assert rest == {Person, Product, Location, Date, Measurement};
      case Product => assert rest == {Person, Org, Location, Date, Measurement};
      case Location => assert rest == {Person, Org, Product, Date, Measurement};
      case Date => assert rest == {Person, Org, Product, Location, Measurement};
      case Measurement => assert rest == {Person, Org, Product, Location, Date};
    }
    assert rest == ks + (rest - ks);
    assert ks !! (rest - ks);
    assert |rest| == |ks| + |rest - ks|;
  }

  /**
   * Diversity lies between 0 and 1; it is 0 exactly when there are no
   * entities and 1 exactly when all six types occur.
   */
  lemma {:induction false} DiversityRange(entities: seq<Entity>)
    ensures 0.0 <= Diversity(entities) <= 1.0
    ensures Diversity(entities) == 0.0 <==> entities == []
    ensures Diversity(entities) == 1.0 <==> Kinds(entities) == AllKinds
  {
    var ks := Kinds(entities);
    AllKindsCount();
    var x := |ks| as real / 6.0;
    if ks == AllKinds {
      Round2Within(x, 100, 100);
    } else {
      FewerKinds(ks);
      Round2Within(x, 0, 100);
    }
    if entities == [] {
      assert ks == {};
      Round2Within(x, 0, 0);
    } else {
      assert entities[0].kind in ks;
    }
  }

  /**
   * The deterministic part of `analyze`: the parsed triples and entities
   * and their diversity. The two model replies are inputs.
   */
  function Analysis(tripleReply: string, entityReply: Option<Json>): (r: SemanticResult)
    ensures |r.triples| <= MaxTriples && |r.entities| <= MaxEntities
    ensures 0.0 <= r.diversity <= 1.0
    ensures r.triples == ParsedTriples(tripleReply) && r.entities == ParsedEntities(entityReply)
    ensures r.diversity == Diversity(r.entities)
  {
    var entities := ParsedEntities(entityReply);
    DiversityRange(entities);
    SemanticResult(ParsedTriples(tripleReply), entities, Diversity(entities))
  }
}
