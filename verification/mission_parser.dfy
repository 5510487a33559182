/**
 * The business-context extractor of app/Services/LogoGeneration/MissionParser.php.
 *
 * The parser reads a markdown "mission" document and runs a fixed battery of
 * regular expressions over it. The expressions themselves are not modelled: a
 * `Scanner` stands for them, one total function per pattern, returning what the
 * pattern captures (or nothing when it does not match). Everything the parser does
 * with a capture — `strtolower`, `trim`, `explode(',')`, the keyword vocabularies
 * and `array_unique` — is modelled exactly. Reading the document from disk is left
 * to the caller, which passes the text in (an absent file reads as "").
 */
module MissionParser {
  import opened Options
  import opened PhpStrings
  import opened ArrayUnique
  import opened KeywordRules

  /** One "### heading ... **Our Solution:**" block: its heading and the text up to the marker. */
  datatype ProblemBlock = ProblemBlock(heading: string, body: string)

  /**
   * The captures of the parser's patterns over a document. Each function answers for
   * one `preg_match` (an optional capture) or `preg_match_all` (every capture, in
   * document order) of the source.
   */
  datatype Scanner = Scanner(
    /** Line 72: the capitalised phrase before "is" in the "## Pitch" section. */
    pitchName: string -> Option<string>,
    /** Line 170: the phrase after "is a/an" and before "that/designed/for". */
    pitchIndustry: string -> Option<string>,
    /** Lines 192-194: the bold phrases of the "### Primary Customers" section ([] when absent). */
    customerEmphasis: string -> seq<string>,
    /** Line 202: the object of "help(s) ... to/by/manage/track". */
    helpsObject: string -> Option<string>,
    /** Line 220: the rest of every "**Goals:**" line. */
    goalLines: string -> seq<string>,
    /** Line 248: the body of the "## Differentiators" section. */
    differentiators: string -> Option<string>,
    /** Line 265: the body of the "## Key Features" section. */
    keyFeatures: string -> Option<string>,
    /** Line 273: the rest of every "**Our Solution:**" line. */
    solutionLines: string -> seq<string>,
    /** Line 295: every problem/solution block. */
    problemBlocks: string -> seq<ProblemBlock>
  )

  datatype BusinessContext = BusinessContext(
    industry: Option<string>,
    targetAudience: seq<string>,
    brandPersonality: seq<string>,
    values: seq<string>
  )

  /** The context of an empty (or missing) mission document. */
  const EmptyContext := BusinessContext(None, [], [], [])

  /** The e-commerce terms looked for when the pitch names no industry. */
  const EcommerceTerms: seq<string> := ["e-commerce", "ecommerce", "online store"]

  /** Every extracted phrase is lower case with nothing for `trim` to strip. */
  predicate IsNormal(s: string) {
    IsLower(s) && IsTrimmed(s)
  }

  predicate AllNormal(xs: seq<string>) {
    forall i :: 0 <= i < |xs| ==> IsNormal(xs[i])
  }

  /** `strtolower(trim($s))`, applied to every capture the parser keeps verbatim. */
  function Normalize(s: string): (r: string)
    ensures IsNormal(r)
    ensures |r| <= |s|
    ensures IsNormal(s) ==> r == s
  {
    var t := Trim(s);
    LowerKeepsTrimmed(t);
    NormalIsFixed(s);
    Lower(t)
  }

  lemma LowerKeepsTrimmed(t: string)
    requires IsTrimmed(t)
    ensures IsNormal(Lower(t))
  {
    LowerIsLower(t);
  }

  lemma NormalIsFixed(s: string)
    ensures IsNormal(s) ==> Lower(Trim(s)) == s
  {
    if IsNormal(s) {
      TrimOfTrimmed(s);
      LowerIsLower(s);
    }
  }

  function NormalizeAll(xs: seq<string>): (r: seq<string>)
    ensures |r| == |xs|
    ensures forall i :: 0 <= i < |xs| ==> r[i] == Normalize(xs[i])
    ensures AllNormal(r)
  {
    seq(|xs|, i requires 0 <= i < |xs| => Normalize(xs[i]))
  }

  // ---------------------------------------------------------------- industry

  /**
   * `extractIndustry` (lines 167-180): the pitch phrase, normalised, when the pitch
   * pattern matches; otherwise exactly "e-commerce" when the lower-cased document
   * mentions an e-commerce term; otherwise nothing.
   */
  function ExtractIndustry(doc: string, sc: Scanner): (r: Option<string>)
    ensures sc.pitchIndustry(doc).Some? ==> r == Some(Normalize(sc.pitchIndustry(doc).value))
    ensures sc.pitchIndustry(doc).None? ==>
              (r.Some? <==> ContainsAny(Lower(doc), EcommerceTerms))
              && (r.Some? ==> r.value == "e-commerce")
    ensures r.Some? ==> IsNormal(r.value)
  {
    match sc.pitchIndustry(doc)
    case Some(phrase) => Some(Normalize(phrase))
    case None =>
      if ContainsAny(Lower(doc), EcommerceTerms) then Some("e-commerce") else None
  }

  // ---------------------------------------------------------------- target audience

  /**
   * `extractTargetAudience` (lines 187-207): the normalised bold phrases of the
   * Primary Customers section; only when there are none, the single normalised
   * "helps ..." object; then `array_unique`.
   */
  function ExtractTargetAudience(doc: string, sc: Scanner): (r: seq<string>)
    ensures NoDuplicates(r) && AllNormal(r)
    ensures |sc.customerEmphasis(doc)| > 0 ==>
              forall x :: x in r <==> x in NormalizeAll(sc.customerEmphasis(doc))
    ensures |sc.customerEmphasis(doc)| == 0 ==>
              r == (match sc.helpsObject(doc) case Some(h) => [Normalize(h)] case None => [])
  {
    var listed := NormalizeAll(sc.customerEmphasis(doc));
    var found :=
      if |listed| == 0 then
        (match sc.helpsObject(doc) case Some(h) => [Normalize(h)] case None => [])
      else listed;
    assert |found| <= 1 ==> Dedup(found) == found by {
      if |found| <= 1 {
        DedupOfDuplicateFree(found);
      }
    }
    var r := Dedup(found);
    assert forall i :: 0 <= i < |r| ==> r[i] in found;
    r
  }

  /** The "helps ..." fallback contributes at most one entry, and only when no customer is listed. */
  lemma AudienceFallbackAtMostOne(doc: string, sc: Scanner)
    requires |sc.customerEmphasis(doc)| == 0
    ensures |ExtractTargetAudience(doc, sc)| <= 1
    ensures |ExtractTargetAudience(doc, sc)| == 1 <==> sc.helpsObject(doc).Some?
  {
  }

  /**
   * With customers listed, the audience keeps their first-seen order: of two entries,
   * the one listed first is the one whose normalised phrase turned up first.
   */
  lemma AudienceFirstSeenOrder(doc: string, sc: Scanner, i: nat, j: nat)
    requires |sc.customerEmphasis(doc)| > 0
    requires i < j < |ExtractTargetAudience(doc, sc)|
    ensures var r := ExtractTargetAudience(doc, sc);
      var listed := NormalizeAll(sc.customerEmphasis(doc));
      && r[i] in listed && r[j] in listed
      && FirstIndex(listed, r[i]) < FirstIndex(listed, r[j])
  {
    DedupKeepsFirstSeenOrder(NormalizeAll(sc.customerEmphasis(doc)), i, j);
  }

  // ---------------------------------------------------------------- brand personality

  /** One goal phrase: trimmed, then matched against the goal vocabulary (lines 223-242). */
  function GoalPhraseKeywords(phrase: string): seq<string>
  {
    Apply(GoalRules, Trim(phrase))
  }

  /** One "**Goals:**" line: lower-cased, split on commas, every phrase matched (lines 222-243). */
  function GoalLineKeywords(line: string): seq<string>
  {
    Collect(Explode(Lower(line), ','), GoalPhraseKeywords)
  }

  /** A section matched once: its lower-cased text against `rules`, or nothing when absent. */
  function SectionKeywords(section: Option<string>, rules: seq<Rule>): (r: seq<string>)
    ensures section.None? ==> r == []
    ensures section.Some? ==> forall x :: x in r <==> x in Apply(rules, Lower(section.value))
  {
    match section
    case None => []
    case Some(text) => Apply(rules, Lower(text))
  }

  /** One "**Our Solution:**" line, lower-cased, against the solution vocabulary (lines 275-278). */
  function SolutionLineKeywords(line: string): seq<string>
  {
    Apply(SolutionStyleRules, Lower(line))
  }

  /** The keywords of the four sources, in the order the source visits them, before `array_unique`. */
  function PersonalityKeywords(doc: string, sc: Scanner): seq<string>
  {
    Collect(sc.goalLines(doc), GoalLineKeywords)
    + SectionKeywords(sc.differentiators(doc), DifferentiatorRules)
    + SectionKeywords(sc.keyFeatures(doc), FeatureRules)
    + Collect(sc.solutionLines(doc), SolutionLineKeywords)
  }

  /**
   * `extractBrandPersonality` (lines 214-283): the keywords of the four sources with
   * later duplicates dropped; always words of the personality vocabulary.
   */
  function ExtractBrandPersonality(doc: string, sc: Scanner): (r: seq<string>)
    ensures NoDuplicates(r)
    ensures forall x :: x in r ==> x in PersonalityVocabulary
    ensures forall x :: x in r <==> x in PersonalityKeywords(doc, sc)
  {
    var keywords := PersonalityKeywords(doc, sc);
    PersonalityKeywordsInVocabulary(doc, sc);
    Dedup(keywords)
  }

  /** Every keyword a personality source yields is a word of the personality vocabulary. */
  lemma PersonalityKeywordsInVocabulary(doc: string, sc: Scanner)
    ensures forall x :: x in PersonalityKeywords(doc, sc) ==> x in PersonalityVocabulary
  {
    PersonalityLabels();
    GoalsWithinLabels(sc.goalLines(doc));
    SolutionsWithinLabels(sc.solutionLines(doc));
    SectionWithinLabels(sc.differentiators(doc), DifferentiatorRules);
    SectionWithinLabels(sc.keyFeatures(doc), FeatureRules);
  }

  /**
   * "smart" is a personality trait exactly when the Differentiators or the Key Features
   * section mentions one of its terms: no goal or solution rule produces it.
   */
  lemma SmartComesFromSections(doc: string, sc: Scanner)
    ensures "smart" in ExtractBrandPersonality(doc, sc) <==>
              (sc.differentiators(doc).Some?
                 && ContainsAny(Lower(sc.differentiators(doc).value), ["ai", "smart", "intelligent", "ai-powered"]))
              || (sc.keyFeatures(doc).Some?
                 && ContainsAny(Lower(sc.keyFeatures(doc).value), ["smart", "ai", "intelligent"]))
  {
    SmartNotFromGoals(sc.goalLines(doc));
    SmartNotFromSolutions(sc.solutionLines(doc));
    SmartFromDifferentiators(sc.differentiators(doc));
    SmartFromFeatures(sc.keyFeatures(doc));
  }

  lemma SmartNotFromGoals(lines: seq<string>)
    ensures "smart" !in Collect(lines, GoalLineKeywords)
  {
    GoalsWithinLabels(lines);
    SmartIsNoGoalWord();
  }

  lemma SmartIsNoGoalWord()
    ensures "smart" !in Labels(GoalRules)
  {
    GoalLabels();
  }

  /** The goal lines only ever yield words of the goal rules. */
  lemma GoalsWithinLabels(lines: seq<string>)
    ensures forall l :: l in Collect(lines, GoalLineKeywords) ==> l in Labels(GoalRules)
  {
    forall i | 0 <= i < |lines| ensures forall l :: l in GoalLineKeywords(lines[i]) ==> l in Labels(GoalRules) {
      GoalLineWithinLabels(lines[i]);
    }
    CollectWithin(lines, GoalLineKeywords, Labels(GoalRules));
  }

  lemma GoalLineWithinLabels(line: string)
    ensures forall l :: l in GoalLineKeywords(line) ==> l in Labels(GoalRules)
  {
    var phrases := Explode(Lower(line), ',');
    forall j | 0 <= j < |phrases| ensures forall l :: l in GoalPhraseKeywords(phrases[j]) ==> l in Labels(GoalRules) {
      ApplyWithinLabels(GoalRules, Trim(phrases[j]));
    }
    CollectWithin(phrases, GoalPhraseKeywords, Labels(GoalRules));
  }

  lemma SmartNotFromSolutions(lines: seq<string>)
    ensures "smart" !in Collect(lines, SolutionLineKeywords)
  {
    SolutionsWithinLabels(lines);
    SingleRuleLabels(SolutionStyleRules);
  }

  /** The solution lines only ever yield the word of the solution style rule. */
  lemma SolutionsWithinLabels(lines: seq<string>)
    ensures forall l :: l in Collect(lines, SolutionLineKeywords) ==> l in Labels(SolutionStyleRules)
  {
    forall i | 0 <= i < |lines|
      ensures forall l :: l in SolutionLineKeywords(lines[i]) ==> l in Labels(SolutionStyleRules)
    {
      ApplyWithinLabels(SolutionStyleRules, Lower(lines[i]));
    }
    CollectWithin(lines, SolutionLineKeywords, Labels(SolutionStyleRules));
  }

  /** A section only ever yields words of the rules it is matched against. */
  lemma SectionWithinLabels(section: Option<string>, rules: seq<Rule>)
    ensures forall l :: l in SectionKeywords(section, rules) ==> l in Labels(rules)
  {
    if section.Some? {
      ApplyWithinLabels(rules, Lower(section.value));
    }
  }

  lemma SmartFromDifferentiators(section: Option<string>)
    ensures "smart" in SectionKeywords(section, DifferentiatorRules) <==>
              section.Some? && ContainsAny(Lower(section.value), ["ai", "smart", "intelligent", "ai-powered"])
  {
    assert DifferentiatorRules[0].word == "smart";
    assert forall k :: 1 <= k < |DifferentiatorRules| ==> DifferentiatorRules[k].word != "smart";
  }

  lemma SmartFromFeatures(section: Option<string>)
    ensures "smart" in SectionKeywords(section, FeatureRules) <==>
              section.Some? && ContainsAny(Lower(section.value), ["smart", "ai", "intelligent"])
  {
    assert FeatureRules[0].word == "smart";
  }

  /**
   * Brand personality keeps first-seen order: of two traits, the one listed first is
   * the one whose keyword turned up first across the four sources.
   */
  lemma PersonalityFirstSeenOrder(doc: string, sc: Scanner, i: nat, j: nat)
    requires i < j < |ExtractBrandPersonality(doc, sc)|
    ensures var r := ExtractBrandPersonality(doc, sc);
      var keywords := PersonalityKeywords(doc, sc);
      && r[i] in keywords && r[j] in keywords
      && FirstIndex(keywords, r[i]) < FirstIndex(keywords, r[j])
  {
    DedupKeepsFirstSeenOrder(PersonalityKeywords(doc, sc), i, j);
  }

  /** A rule list never produces a keyword none of its rules carries. */
  lemma NotAWordOf(rules: seq<Rule>, text: string, w: string)
    requires forall k :: 0 <= k < |rules| ==> rules[k].word != w
    ensures w !in Apply(rules, text)
  {
  }

  // ---------------------------------------------------------------- values

  /** One problem block: the heading's keywords, then the body's (lines 297-326). */
  function BlockValues(block: ProblemBlock): seq<string>
  {
    Apply(ProblemRules, Lower(block.heading)) + Apply(SolutionValueRules, Lower(block.body))
  }

  /** The keywords of every problem block, then the whole-document check, before `array_unique`. */
  function ValueKeywords(doc: string, sc: Scanner): seq<string>
  {
    Collect(sc.problemBlocks(doc), BlockValues) + Apply(DocumentValueRules, Lower(doc))
  }

  /**
   * `extractValues` (lines 290-337): the keywords of every problem block plus a final
   * whole-document check for productivity, with later duplicates dropped.
   */
  function ExtractValues(doc: string, sc: Scanner): (r: seq<string>)
    ensures NoDuplicates(r)
    ensures forall x :: x in r ==> x in ValueVocabulary
    ensures forall x :: x in r <==> x in ValueKeywords(doc, sc)
    ensures ContainsAny(Lower(doc), ["productivity", "productive"]) ==> "productivity" in r
  {
    var keywords := ValueKeywords(doc, sc);
    ValueKeywordsInVocabulary(doc, sc);
    assert DocumentValueRules[0].word == "productivity";
    Dedup(keywords)
  }

  /** "security" is a value exactly when some problem heading mentions security or a vulnerability. */
  lemma SecurityComesFromHeadings(doc: string, sc: Scanner)
    ensures "security" in ExtractValues(doc, sc) <==>
              exists i :: 0 <= i < |sc.problemBlocks(doc)|
                && ContainsAny(Lower(sc.problemBlocks(doc)[i].heading), SecurityTerms)
  {
    var blocks := sc.problemBlocks(doc);
    var fromBlocks := Collect(blocks, BlockValues);
    var keywords := ValueKeywords(doc, sc);
    assert ExtractValues(doc, sc) == Dedup(keywords);
    NotAWordOf(DocumentValueRules, Lower(doc), "security");
    assert "security" in keywords <==> "security" in fromBlocks;
    forall i | 0 <= i < |blocks|
      ensures "security" in BlockValues(blocks[i]) <==> ContainsAny(Lower(blocks[i].heading), SecurityTerms)
    {
      SecurityOfBlock(blocks[i]);
    }
  }

  /** Every keyword a problem block or the document yields is a word of the values vocabulary. */
  lemma ValueKeywordsInVocabulary(doc: string, sc: Scanner)
    ensures forall x :: x in ValueKeywords(doc, sc) ==> x in ValueVocabulary
  {
    ValueLabels();
    var blocks := sc.problemBlocks(doc);
    forall i | 0 <= i < |blocks|
      ensures forall l :: l in BlockValues(blocks[i]) ==> l in ValueVocabulary
    {
      ApplyWithinLabels(ProblemRules, Lower(blocks[i].heading));
      ApplyWithinLabels(SolutionValueRules, Lower(blocks[i].body));
    }
    CollectWithin(blocks, BlockValues, ValueVocabulary);
    ApplyWithinLabels(DocumentValueRules, Lower(doc));
  }

  /** Values keep first-seen order, as brand personality does. */
  lemma ValuesFirstSeenOrder(doc: string, sc: Scanner, i: nat, j: nat)
    requires i < j < |ExtractValues(doc, sc)|
    ensures var r := ExtractValues(doc, sc);
      var keywords := ValueKeywords(doc, sc);
      && r[i] in keywords && r[j] in keywords
      && FirstIndex(keywords, r[i]) < FirstIndex(keywords, r[j])
  {
    DedupKeepsFirstSeenOrder(ValueKeywords(doc, sc), i, j);
  }

  const SecurityTerms: seq<string> := ["security", "vulnerab"]

  lemma SecurityOfBlock(block: ProblemBlock)
    ensures "security" in BlockValues(block) <==> ContainsAny(Lower(block.heading), SecurityTerms)
  {
    NotAWordOf(SolutionValueRules, Lower(block.body), "security");
    assert ProblemRules[0] == Rule(SecurityTerms, "security");
    assert forall k :: 1 <= k < |ProblemRules| ==> ProblemRules[k].word != "security";
  }

  // ---------------------------------------------------------------- app name and context

  /**
   * `extractAppName` (lines 63-77): nothing for an empty document (PHP's `empty`,
   * so also for "0"); otherwise the trimmed pitch name when the pattern matches.
   */
  function ExtractAppName(doc: string, sc: Scanner): (r: Option<string>)
    ensures IsPhpEmpty(doc) ==> r.None?
    ensures !IsPhpEmpty(doc) ==> (r.Some? <==> sc.pitchName(doc).Some?)
    ensures r.Some? ==> IsTrimmed(r.value) && Trim(sc.pitchName(doc).value) == r.value
  {
    if IsPhpEmpty(doc) then None
    else
      match sc.pitchName(doc)
      case Some(name) => Some(Trim(name))
      case None => None
  }

  /**
   * `extractBusinessContext` (lines 17-36): the empty context for an empty document,
   * otherwise the four extractions side by side.
   */
  function ExtractBusinessContext(doc: string, sc: Scanner): (r: BusinessContext)
    ensures IsPhpEmpty(doc) ==> r == EmptyContext
    ensures NoDuplicates(r.targetAudience) && AllNormal(r.targetAudience)
    ensures NoDuplicates(r.brandPersonality)
    ensures forall x :: x in r.brandPersonality ==> x in PersonalityVocabulary
    ensures NoDuplicates(r.values)
    ensures forall x :: x in r.values ==> x in ValueVocabulary
    ensures r.industry.Some? ==> IsNormal(r.industry.value)
  {
    if IsPhpEmpty(doc) then EmptyContext
    else
      BusinessContext(
        ExtractIndustry(doc, sc),
        ExtractTargetAudience(doc, sc),
        ExtractBrandPersonality(doc, sc),
        ExtractValues(doc, sc))
  }

  /** An empty document yields the empty context whatever the patterns would capture. */
  lemma EmptyDocumentYieldsEmptyContext(sc: Scanner)
    ensures ExtractBusinessContext("", sc) == BusinessContext(None, [], [], [])
    ensures ExtractAppName("", sc) == None
  {
  }
}
