/**
 * The regular expressions of the pattern analyzer, as named rules whose
 * matching is left abstract. A rule has the two uses the analyzer makes of a
 * pattern: `test` is `pattern.test(text)` with the pattern's own flags, and
 * `countAll` is the number of matches of the same source compiled with the
 * `gi` flags (`text.match(new RegExp(pattern.source, 'gi'))`).
 */
module Patterns {

  datatype Rule = Rule(test: string -> bool, countAll: string -> nat)

  /** The rule table: one named rule per regular expression of the analyzer. */
  datatype RuleLibrary = RuleLibrary(
    percent: Rule,       // \d+%
    currency: Rule,      // \$[\d,]+
    audience: Rule,      // \d+\s*(users|customers|companies|people)  (i)
    change: Rule,        // (increases?|decreases?|improves?|reduces?)\s+by\s+\d+  (i)
    comparative: Rule,   // (more|less|faster|slower)\s+than  (i)
    unit: Rule,          // \d+\s*(nm|kg|mm|hz|gb|mb|tb)  (i)
    year: Rule,          // \d{4}
    month: Rule,         // (january|...|december)  (i)
    relative: Rule,      // (today|yesterday|tomorrow|recently|currently|now)  (i)
    ago: Rule,           // \d+\s+(days?|weeks?|months?|years?)\s+ago  (i)
    properNoun: Rule,    // [A-Z][a-z]+(?:\s+[A-Z][a-z]+)+
    acronym: Rule,       // [A-Z]{2,}
    measurement: Rule)   // \d+\s*(nm|Nm|kg|mm|Hz|GB|MB|TB)  (i)

  /** The five fact patterns of the claim-density metric. */
  function ClaimDensityRules(lib: RuleLibrary): seq<Rule> {
    [lib.percent, lib.currency, lib.audience, lib.change, lib.comparative]
  }

  /**
   * The five claim patterns of the frontloading metric: the unit pattern
   * takes the place of the comparative one, so this list is not the
   * claim-density list.
   */
  function FrontloadingClaimRules(lib: RuleLibrary): seq<Rule> {
    [lib.percent, lib.currency, lib.unit, lib.audience, lib.change]
  }

  function DateRules(lib: RuleLibrary): seq<Rule> {
    [lib.year, lib.month, lib.relative, lib.ago]
  }

  function EntityRules(lib: RuleLibrary): seq<Rule> {
    [lib.properNoun, lib.acronym, lib.measurement]
  }

  /** `patterns.some(p => p.test(s))`. */
  predicate AnyMatch(rules: seq<Rule>, s: string) {
    exists i :: 0 <= i < |rules| && rules[i].test(s)
  }

  /** How many of the rules match `s`: the analyzer's per-sentence claim tally. */
  function Hits(rules: seq<Rule>, s: string): (n: nat)
    ensures n <= |rules|
    ensures n > 0 <==> AnyMatch(rules, s)
  {
    if rules == [] then 0
    else
      var last := rules[|rules| - 1];
      assert forall i :: 0 <= i < |rules| - 1 ==> rules[..|rules| - 1][i] == rules[i];
      Hits(rules[..|rules| - 1], s) + (if last.test(s) then 1 else 0)
  }

  /** `countPatternMatches`: the `gi` match counts of all rules, added up. */
  function GlobalCount(rules: seq<Rule>, s: string): nat {
    if rules == [] then 0
    else GlobalCount(rules[..|rules| - 1], s) + rules[|rules| - 1].countAll(s)
  }

  /** Collaborators of the analyzer that are outside this model. */
  datatype Markup = Markup(headingCount: nat, listCount: nat)

  /**
   * Everything the analyzer takes from code outside the model: the rule
   * table, the HTML library's heading and list-item counts, the section split
   * at heading boundaries, and the conversion of numbers to text.
   */
  datatype Env = Env(
    rules: RuleLibrary,
    markup: string -> Markup,
    sectionsOf: string -> seq<string>,
    show: real -> string)
}
