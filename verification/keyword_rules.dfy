/**
 * The fixed keyword vocabularies of the mission parser, written as ordered rules:
 * a rule fires on a text when one of its needles occurs in it, and then contributes
 * its keyword. Each `if (Str::contains($text, [...])) { $list[] = '...'; }` block of
 * app/Services/LogoGeneration/MissionParser.php is one rule, kept in source order.
 */
module KeywordRules {
  import opened PhpStrings

  datatype Rule = Rule(needles: seq<string>, word: string)

  predicate Fires(rule: Rule, text: string) {
    ContainsAny(text, rule.needles)
  }

  /** The keywords of the rules that fire on `text`, in rule order, one per firing rule. */
  function Apply(rules: seq<Rule>, text: string): (r: seq<string>)
    ensures |r| <= |rules|
    ensures forall l :: l in r <==> exists k :: 0 <= k < |rules| && rules[k].word == l && Fires(rules[k], text)
  {
    if |rules| == 0 then []
    else
      var rest := Apply(rules[1..], text);
      assert forall k :: 1 <= k < |rules| ==> rules[k] == rules[1..][k - 1];
      if Fires(rules[0], text) then [rules[0].word] + rest else rest
  }

  /** The set of keywords a rule list can produce. */
  function Labels(rules: seq<Rule>): (r: set<string>)
    ensures forall l :: l in r <==> exists k :: 0 <= k < |rules| && rules[k].word == l
  {
    set k | 0 <= k < |rules| :: rules[k].word
  }

  lemma ApplyWithinLabels(rules: seq<Rule>, text: string)
    ensures forall l :: l in Apply(rules, text) ==> l in Labels(rules)
  {
  }

  /** When every item's keywords lie within `labels`, so do the collected keywords. */
  lemma CollectWithin<T>(xs: seq<T>, f: T -> seq<string>, labels: set<string>)
    requires forall i :: 0 <= i < |xs| ==> forall l :: l in f(xs[i]) ==> l in labels
    ensures forall l :: l in Collect(xs, f) ==> l in labels
  {
  }

  /**
   * The keywords produced for every item of `xs`, concatenated in order: the
   * `foreach (...) { ... $keywords[] = ...; }` loops of the parser.
   */
  function Collect<T>(xs: seq<T>, f: T -> seq<string>): (r: seq<string>)
    ensures forall x :: x in r <==> exists i :: 0 <= i < |xs| && x in f(xs[i])
  {
    if |xs| == 0 then []
    else
      var rest := Collect(xs[1..], f);
      assert forall i :: 1 <= i < |xs| ==> xs[i] == xs[1..][i - 1];
      f(xs[0]) + rest
  }

  // ---------------------------------------------------------------- brand personality

  /** Persona "Goals:" phrases (lines 225-242). */
  const GoalRules: seq<Rule> := [
    Rule(["rapid", "fast", "quick"], "fast"),
    Rule(["clean", "modern", "beautiful"], "modern"),
    Rule(["flexible", "customiz"], "flexible"),
    Rule(["secure", "safe"], "secure"),
    Rule(["creative", "design"], "creative"),
    Rule(["streamline", "improve"], "efficient")
  ]

  /** The "## Differentiators" section (lines 250-261). */
  const DifferentiatorRules: seq<Rule> := [
    Rule(["ai", "smart", "intelligent", "ai-powered"], "smart"),
    Rule(["trust", "reliable"], "trustworthy"),
    Rule(["innovat"], "innovative"),
    Rule(["profession"], "professional")
  ]

  /** The "## Key Features" section (lines 267-269). */
  const FeatureRules: seq<Rule> := [
    Rule(["smart", "ai", "intelligent"], "smart")
  ]

  /** "Our Solution:" lines (lines 276-278). */
  const SolutionStyleRules: seq<Rule> := [
    Rule(["efficient", "streamline", "centralized", "smart"], "efficient")
  ]

  /** Every word a brand-personality rule can produce. */
  const PersonalityVocabulary: set<string> :=
    {"fast", "modern", "flexible", "secure", "creative", "efficient",
     "smart", "trustworthy", "innovative", "professional"}

  // ---------------------------------------------------------------- values

  /** The heading of a problem block (lines 301-318). */
  const ProblemRules: seq<Rule> := [
    Rule(["security", "vulnerab"], "security"),
    Rule(["performance", "slow", "speed"], "performance"),
    Rule(["chaos", "disorganiz", "scatter", "management"], "organization"),
    Rule(["productiv", "task"], "productivity"),
    Rule(["trust", "reliab"], "trust"),
    Rule(["collaborat", "team"], "teamwork")
  ]

  /** The text between a problem heading and its "Our Solution:" marker (lines 321-326). */
  const SolutionValueRules: seq<Rule> := [
    Rule(["trust", "reliab", "secure"], "trust"),
    Rule(["productiv"], "productivity")
  ]

  /** The whole document, scanned once more (lines 331-334). */
  const DocumentValueRules: seq<Rule> := [
    Rule(["productivity", "productive"], "productivity")
  ]

  /** Every word a values rule can produce. */
  const ValueVocabulary: set<string> :=
    {"security", "performance", "organization", "productivity", "trust", "teamwork"}

  /** The personality and values vocabularies are exactly the keywords of their rules. */
  lemma VocabulariesAreRuleLabels()
    ensures Labels(GoalRules) + Labels(DifferentiatorRules) + Labels(FeatureRules)
            + Labels(SolutionStyleRules) == PersonalityVocabulary
    ensures Labels(ProblemRules) + Labels(SolutionValueRules) + Labels(DocumentValueRules)
            == ValueVocabulary
  {
    PersonalityLabels();
    ValueLabels();
  }

  lemma PersonalityLabels()
    ensures Labels(GoalRules) + Labels(DifferentiatorRules) + Labels(FeatureRules)
            + Labels(SolutionStyleRules) == PersonalityVocabulary
  {
    GoalLabels();
    DifferentiatorLabels();
    SingleRuleLabels(FeatureRules);
    SingleRuleLabels(SolutionStyleRules);
  }

  lemma ValueLabels()
    ensures Labels(ProblemRules) + Labels(SolutionValueRules) + Labels(DocumentValueRules)
            == ValueVocabulary
  {
    ProblemLabels();
    SolutionValueLabels();
    SingleRuleLabels(DocumentValueRules);
  }

  lemma SolutionValueLabels()
    ensures Labels(SolutionValueRules) == {"trust", "productivity"}
  {
    assert SolutionValueRules[0].word == "trust" && SolutionValueRules[1].word == "productivity";
  }

  lemma SingleRuleLabels(rules: seq<Rule>)
    requires |rules| == 1
    ensures Labels(rules) == {rules[0].word}
  {
    assert rules[0].word in Labels(rules);
  }

  lemma GoalLabels()
    ensures Labels(GoalRules) == {"fast", "modern", "flexible", "secure", "creative", "efficient"}
  {
    assert GoalRules[0].word == "fast" && GoalRules[1].word == "modern";
    assert GoalRules[2].word == "flexible" && GoalRules[3].word == "secure";
    assert GoalRules[4].word == "creative" && GoalRules[5].word == "efficient";
  }

  lemma DifferentiatorLabels()
    ensures Labels(DifferentiatorRules) == {"smart", "trustworthy", "innovative", "professional"}
  {
    assert DifferentiatorRules[0].word == "smart" && DifferentiatorRules[1].word == "trustworthy";
    assert DifferentiatorRules[2].word == "innovative" && DifferentiatorRules[3].word == "professional";
  }

  lemma ProblemLabels()
    ensures Labels(ProblemRules) == {"security", "performance", "organization", "productivity", "trust", "teamwork"}
  {
    assert ProblemRules[0].word == "security" && ProblemRules[1].word == "performance";
    assert ProblemRules[2].word == "organization" && ProblemRules[3].word == "productivity";
    assert ProblemRules[4].word == "trust" && ProblemRules[5].word == "teamwork";
  }
}
