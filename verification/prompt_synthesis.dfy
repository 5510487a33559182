/**
 * The prompt synthesiser of app/Services/LogoGeneration/MissionParser.php:
 * `generatePromptContext`, which sorts a business context and the theme colours
 * into four categorised lists, and `generateLogoPrompt`, which fills a fixed
 * English template with the application name, industry, personality and accent.
 *
 * Array keys that may be missing or null are `Option`s; a missing list is the
 * empty list, which PHP's `empty()` treats the same way.
 */
module PromptSynthesis {
  import opened Options
  import opened PhpStrings
  import opened ArrayUnique
  import opened KeywordRules
  import opened MissionParser
  import opened ThemeResolver

  datatype PromptContext = PromptContext(
    styleKeywords: seq<string>,
    colorPalette: seq<string>,
    industryContext: seq<string>,
    audienceContext: seq<string>)

  /**
   * `generatePromptContext` (lines 82-113). The personality and audience lists are
   * passed on as they are, the palette holds the accent and then the base when it
   * differs, and the industry is kept only when PHP's `empty()` is false for it.
   */
  function GeneratePromptContext(b: BusinessContext, colors: ThemeColors): (r: PromptContext)
    ensures r.styleKeywords == b.brandPersonality
    ensures r.audienceContext == b.targetAudience
    ensures |r.colorPalette| >= 1 && r.colorPalette[0] == colors.accent
    ensures colors.base in r.colorPalette
    ensures forall c :: c in r.colorPalette ==> c == colors.accent || c == colors.base
    ensures |r.colorPalette| == 1 <==> colors.accent == colors.base
    ensures NoDuplicates(r.colorPalette)
    ensures r.industryContext == [] <==> b.industry.None? || IsPhpEmpty(b.industry.value)
    ensures r.industryContext != [] ==> r.industryContext == [b.industry.value]
  {
    var style := if |b.brandPersonality| > 0 then b.brandPersonality else [];
    var palette := [colors.accent] + (if colors.accent != colors.base then [colors.base] else []);
    var industry := if b.industry.Some? && !IsPhpEmpty(b.industry.value) then [b.industry.value] else [];
    var audience := if |b.targetAudience| > 0 then b.targetAudience else [];
    PromptContext(style, palette, industry, audience)
  }

  // ---------------------------------------------------------------- the logo prompt

  const Opening: string := "Create a minimalist square logo for "
  const IndustryLead: string := ", a "
  const IndustryTail: string := " application."
  const PersonalityHead: string := "The logo should be "
  const ColorHead: string := "Use "
  const ColorTail: string := " as the primary color."
  const Advice: string :=
    " The design should work well at small sizes and be suitable for app icons."
    + " Keep it simple, memorable, and avoid text unless absolutely essential."

  const DefaultAppName: string := "the application"
  const DefaultIndustry: string := "technology"
  const DefaultPersonality: string := "modern, professional"
  const DefaultColor: string := "blue"

  /** The personality words of the prompt: the keywords joined with ", ", or a stock phrase when there are none. */
  function PersonalityPhrase(personality: seq<string>): (r: string)
    ensures |personality| == 0 ==> r == DefaultPersonality
    ensures |personality| == 1 ==> r == personality[0]
    ensures |personality| > 0 ==> StartsWith(r, personality[0])
  {
    if |personality| > 0 then Implode(", ", personality) else DefaultPersonality
  }

  /**
   * `generateLogoPrompt` (lines 118-135). Name, industry and colour fall back to
   * their stock words only when missing (`??`), so an empty industry string stays
   * empty; the personality falls back whenever the list is empty.
   */
  function GenerateLogoPrompt(appName: Option<string>, b: BusinessContext, accent: Option<string>): (r: string)
    ensures StartsWith(r, Opening + appName.GetOr(DefaultAppName) + IndustryLead)
    ensures Contains(r, IndustryLead + b.industry.GetOr(DefaultIndustry) + IndustryTail)
    ensures Contains(r, PersonalityHead + PersonalityPhrase(b.brandPersonality) + ".")
    ensures Contains(r, ColorHead + accent.GetOr(DefaultColor) + ColorTail)
    ensures EndsWith(r, Advice)
  {
    var app := appName.GetOr(DefaultAppName);
    var industry := b.industry.GetOr(DefaultIndustry);
    var personality := PersonalityPhrase(b.brandPersonality);
    var color := accent.GetOr(DefaultColor);
    PromptParts(app, industry, personality, color);
    Template(app, industry, personality, color)
  }

  /**
   * The template with its four slots filled, grouped from the right so that each
   * sentence is a sub-term.
   */
  function Template(app: string, industry: string, personality: string, color: string): string
  {
    Opening + app + Sentences(IndustryLead + industry + IndustryTail, PersonalityHead + personality + ".",
                              ColorHead + color + ColorTail)
  }

  function Sentences(s1: string, s2: string, s3: string): string
  {
    s1 + (" " + (s2 + (" " + (s3 + Advice))))
  }

  /** Where each filled-in part sits in the assembled template. */
  lemma PromptParts(app: string, industry: string, personality: string, color: string)
    ensures StartsWith(Template(app, industry, personality, color), Opening + app + IndustryLead)
    ensures Contains(Template(app, industry, personality, color), IndustryLead + industry + IndustryTail)
    ensures Contains(Template(app, industry, personality, color), PersonalityHead + personality + ".")
    ensures Contains(Template(app, industry, personality, color), ColorHead + color + ColorTail)
    ensures EndsWith(Template(app, industry, personality, color), Advice)
  {
    var s1 := IndustryLead + industry + IndustryTail;
    assert StartsWith(s1, IndustryLead) by {
      StartsWithAppend(IndustryLead, IndustryLead, industry);
      StartsWithAppend(IndustryLead + industry, IndustryLead, IndustryTail);
    }
    Layout(Opening + app, s1, IndustryLead, PersonalityHead + personality + ".", ColorHead + color + ColorTail);
  }

  /** The same statement for any sentences, so that no template text is unfolded. */
  lemma Layout(head: string, s1: string, lead: string, s2: string, s3: string)
    requires StartsWith(s1, lead)
    ensures StartsWith(head + Sentences(s1, s2, s3), head + lead)
    ensures Contains(head + Sentences(s1, s2, s3), s1)
    ensures Contains(head + Sentences(s1, s2, s3), s2)
    ensures Contains(head + Sentences(s1, s2, s3), s3)
    ensures EndsWith(head + Sentences(s1, s2, s3), Advice)
  {
    var t3 := s3 + Advice;
    StartsWithAppend(s3, s3, Advice);
    ContainsPrefix(t3, s3);
    assert EndsWith(t3, Advice);
    var t2 := s2 + (" " + t3);
    ContainsPrepend(" ", t3, s3);
    ContainsPrepend(s2, " " + t3, s3);
    EndsWithPrepend(" ", t3, Advice);
    EndsWithPrepend(s2, " " + t3, Advice);
    StartsWithAppend(s2, s2, " " + t3);
    ContainsPrefix(t2, s2);
    var t1 := s1 + (" " + t2);
    ContainsPrepend(" ", t2, s2);
    ContainsPrepend(s1, " " + t2, s2);
    ContainsPrepend(" ", t2, s3);
    ContainsPrepend(s1, " " + t2, s3);
    EndsWithPrepend(" ", t2, Advice);
    EndsWithPrepend(s1, " " + t2, Advice);
    StartsWithAppend(s1, s1, " " + t2);
    ContainsPrefix(t1, s1);
    StartsWithAppend(s1, lead, " " + t2);
    assert t1 == Sentences(s1, s2, s3);
    ContainsPrepend(head, t1, s1);
    ContainsPrepend(head, t1, s2);
    ContainsPrepend(head, t1, s3);
    EndsWithPrepend(head, t1, Advice);
    StartsWithPrepend(head, t1, lead);
  }

  /**
   * The application name can be read back from a prompt: it is the text after the
   * opening words, up to the first comma.
   */
  function PromptSubject(prompt: string): (r: Option<string>)
    ensures r.Some? ==> StartsWith(prompt, Opening + r.value) && ',' !in r.value
  {
    if !StartsWith(prompt, Opening) then None
    else
      var rest := prompt[|Opening|..];
      var name := Explode(rest, ',')[0];
      ExplodeHeadIsPrefix(rest, ',');
      assert prompt == Opening + rest;
      Some(name)
  }

  /** The first piece `explode` produces is a prefix of the exploded text. */
  lemma {:induction false} ExplodeHeadIsPrefix(s: string, sep: char)
    ensures StartsWith(s, Explode(s, sep)[0])
    decreases |s|
  {
    if |s| > 0 {
      ExplodeHeadIsPrefix(s[1..], sep);
    }
  }

  /** For a name without commas, the prompt's subject is the name it was built with. */
  lemma SubjectRoundTrip(appName: Option<string>, b: BusinessContext, accent: Option<string>)
    requires appName.Some? ==> ',' !in appName.value
    ensures PromptSubject(GenerateLogoPrompt(appName, b, accent)) == Some(appName.GetOr(DefaultAppName))
  {
    SubjectOfPrefixed(GenerateLogoPrompt(appName, b, accent), appName.GetOr(DefaultAppName));
  }

  /** A text that opens with the opening words, a comma-free name and the industry lead has that name as subject. */
  lemma SubjectOfPrefixed(prompt: string, app: string)
    requires ',' !in app
    requires StartsWith(prompt, Opening + app + IndustryLead)
    ensures PromptSubject(prompt) == Some(app)
  {
    var n := |Opening| + |app|;
    assert prompt[..n + |IndustryLead|] == Opening + app + IndustryLead;
    assert prompt[n] == ',';
    var tail := prompt[n + 1..];
    assert prompt == Opening + app + [','] + tail;
    SubjectOfText(app, tail);
  }

  /** The subject of any text made of the opening words, a comma-free name and a comma. */
  lemma SubjectOfText(app: string, tail: string)
    requires ',' !in app
    ensures PromptSubject(Opening + app + [','] + tail) == Some(app)
  {
    var prompt := Opening + app + [','] + tail;
    assert prompt[..|Opening|] == Opening;
    assert prompt[|Opening|..] == app + [','] + tail;
    ExplodeAround(app, ',', tail);
  }

  // ---------------------------------------------------------------- personality round trip

  /** `trim` applied to every piece. */
  function TrimAll(xs: seq<string>): (r: seq<string>)
    ensures |r| == |xs| && forall i :: 0 <= i < |xs| ==> r[i] == Trim(xs[i])
  {
    seq(|xs|, i requires 0 <= i < |xs| => Trim(xs[i]))
  }

  /** Every piece with a space in front. */
  function Padded(xs: seq<string>): (r: seq<string>)
    ensures |r| == |xs| && forall i :: 0 <= i < |xs| ==> r[i] == " " + xs[i]
  {
    seq(|xs|, i requires 0 <= i < |xs| => " " + xs[i])
  }

  /** Joining with ", " is joining with "," after putting a space in front of every piece but the first. */
  lemma {:induction false} ImplodePadded(ys: seq<string>)
    requires |ys| >= 1
    ensures " " + Implode(", ", ys) == Implode([','], Padded(ys))
    decreases |ys|
  {
    if |ys| > 1 {
      ImplodePadded(ys[1..]);
      assert Padded(ys)[1..] == Padded(ys[1..]);
      assert " " + Implode(", ", ys) == (" " + ys[0]) + [','] + (" " + Implode(", ", ys[1..]));
    }
  }

  /** The pieces a personality phrase is made of when it is cut at its commas. */
  function PhrasePieces(personality: seq<string>): (r: seq<string>)
    requires |personality| >= 1
    ensures |r| == |personality| && r[0] == personality[0]
    ensures forall i :: 1 <= i < |r| ==> r[i] == " " + personality[i]
  {
    [personality[0]] + Padded(personality[1..])
  }

  lemma PhraseIsImplodedPieces(personality: seq<string>)
    requires |personality| >= 1
    ensures Implode([','], PhrasePieces(personality)) == PersonalityPhrase(personality)
  {
    var pieces := PhrasePieces(personality);
    if |personality| > 1 {
      ImplodePadded(personality[1..]);
      assert pieces[1..] == Padded(personality[1..]);
      assert Implode(", ", personality) == personality[0] + [','] + (" " + Implode(", ", personality[1..]));
    }
  }

  /**
   * The personality phrase of the prompt splits back into its keywords: cutting it
   * at the commas and trimming each piece, as the goal-line scan of lines 222-223
   * does, gives the list it was joined from, provided no keyword holds a comma or
   * starts or ends with blank space.
   */
  lemma PersonalityPhraseRoundTrip(personality: seq<string>)
    requires |personality| >= 1
    requires forall i :: 0 <= i < |personality| ==> ',' !in personality[i] && IsTrimmed(personality[i])
    ensures TrimAll(Explode(PersonalityPhrase(personality), ',')) == personality
  {
    var pieces := PhrasePieces(personality);
    PhraseIsImplodedPieces(personality);
    forall i | 0 <= i < |pieces| ensures ',' !in pieces[i] && Trim(pieces[i]) == personality[i] {
      PieceOfPhrase(personality, i);
    }
    ExplodeImplode(pieces, ',');
    var r := TrimAll(pieces);
    assert forall i :: 0 <= i < |r| ==> r[i] == personality[i];
  }

  lemma PieceOfPhrase(personality: seq<string>, i: nat)
    requires i < |personality|
    requires ',' !in personality[i] && IsTrimmed(personality[i])
    ensures ',' !in PhrasePieces(personality)[i] && Trim(PhrasePieces(personality)[i]) == personality[i]
  {
    if i == 0 {
      TrimOfTrimmed(personality[0]);
    } else {
      SpacedWord(personality[i]);
    }
  }

  /** A word with one space put in front: still no comma, and `trim` takes the space off again. */
  lemma SpacedWord(x: string)
    requires ',' !in x && IsTrimmed(x)
    ensures ',' !in " " + x && Trim(" " + x) == x
  {
    SpaceIsTrimmed();
    TrimSkipsLeading(" ", x);
    TrimOfTrimmed(x);
    SpacedHasNoComma(x);
  }

  lemma SpaceIsTrimmed()
    ensures AllTrimChars(" ", 0, 1)
  {
    assert " "[0] == ' ';
  }

  lemma SpacedHasNoComma(x: string)
    requires ',' !in x
    ensures ',' !in " " + x
  {
    assert forall c :: c in " " + x ==> c == ' ' || c in x;
  }

  /** A personality list produced by the extractor survives the trip through the prompt. */
  lemma ExtractedPersonalityRoundTrip(doc: string, sc: Scanner)
    requires |ExtractBrandPersonality(doc, sc)| >= 1
    ensures TrimAll(Explode(PersonalityPhrase(ExtractBrandPersonality(doc, sc)), ',')) == ExtractBrandPersonality(doc, sc)
  {
    var ps := ExtractBrandPersonality(doc, sc);
    forall i | 0 <= i < |ps| ensures ',' !in ps[i] && IsTrimmed(ps[i]) {
      VocabularyIsPlain(ps[i]);
    }
    PersonalityPhraseRoundTrip(ps);
  }

  /** No personality word holds a comma or starts or ends with blank space. */
  lemma VocabularyIsPlain(w: string)
    requires w in PersonalityVocabulary
    ensures ',' !in w && IsTrimmed(w)
  {
  }

  // ---------------------------------------------------------------- the two outputs agree

  /**
   * The prompt context and the prompt built from the same inputs agree: the first
   * palette colour is the prompt's primary colour, and the style keywords are the
   * prompt's personality words.
   */
  lemma ContextAgreesWithPrompt(appName: Option<string>, b: BusinessContext, colors: ThemeColors)
    ensures var ctx := GeneratePromptContext(b, colors);
      var prompt := GenerateLogoPrompt(appName, b, Some(colors.accent));
      && Contains(prompt, "Use " + ctx.colorPalette[0] + " as the primary color.")
      && (|ctx.styleKeywords| > 0 ==>
            Contains(prompt, "The logo should be " + Implode(", ", ctx.styleKeywords) + "."))
  {
  }

  /**
   * Running the whole pipeline on a document: the style keywords are duplicate-free
   * words of the personality vocabulary, the audience entries are lower-case and
   * trimmed, and an industry is passed on exactly when one was found and is not "0".
   */
  lemma PipelineContext(doc: string, sc: Scanner, colors: ThemeColors)
    ensures var ctx := GeneratePromptContext(ExtractBusinessContext(doc, sc), colors);
      && NoDuplicates(ctx.styleKeywords)
      && (forall x :: x in ctx.styleKeywords ==> x in PersonalityVocabulary)
      && NoDuplicates(ctx.audienceContext) && AllNormal(ctx.audienceContext)
      && (ctx.industryContext != [] <==>
            ExtractBusinessContext(doc, sc).industry.Some? && ExtractBusinessContext(doc, sc).industry.value != ""
            && ExtractBusinessContext(doc, sc).industry.value != "0")
  {
  }

  // ---------------------------------------------------------------- examples

  /**
   * With nothing known about the business and the accent "blue", the prompt names
   * "the application", a "technology application", the stock personality and blue.
   */
  lemma BareContextPromptExample(prompt: string)
    requires prompt == GenerateLogoPrompt(None, EmptyContext, Some("blue"))
    ensures Contains(prompt, "the application")
    ensures Contains(prompt, "technology application")
    ensures Contains(prompt, "modern, professional")
    ensures Contains(prompt, "blue as the primary color")
  {
    BareSubject(prompt);
    BareIndustry(prompt);
    BarePersonality(prompt);
    BareColor(prompt);
  }

  lemma BareSubject(prompt: string)
    requires StartsWith(prompt, Opening + "the application" + IndustryLead)
    ensures Contains(prompt, "the application")
  {
    ContainsPrefix(prompt, Opening + "the application" + IndustryLead);
    ContainsInfix(Opening, "the application", IndustryLead);
    ContainsWithin(prompt, Opening + "the application" + IndustryLead, "the application");
  }

  lemma BareIndustry(prompt: string)
    requires Contains(prompt, IndustryLead + "technology" + IndustryTail)
    ensures Contains(prompt, "technology application")
  {
    assert IndustryLead + "technology" + IndustryTail == ", a " + "technology application" + ".";
    ContainsInfix(", a ", "technology application", ".");
    ContainsWithin(prompt, IndustryLead + "technology" + IndustryTail, "technology application");
  }

  lemma BarePersonality(prompt: string)
    requires Contains(prompt, PersonalityHead + DefaultPersonality + ".")
    ensures Contains(prompt, "modern, professional")
  {
    ContainsInfix(PersonalityHead, DefaultPersonality, ".");
    ContainsWithin(prompt, PersonalityHead + DefaultPersonality + ".", "modern, professional");
  }

  lemma BareColor(prompt: string)
    requires Contains(prompt, ColorHead + "blue" + ColorTail)
    ensures Contains(prompt, "blue as the primary color")
  {
    assert ColorHead + "blue" + ColorTail == ColorHead + "blue as the primary color" + ".";
    ContainsInfix(ColorHead, "blue as the primary color", ".");
    ContainsWithin(prompt, ColorHead + "blue" + ColorTail, "blue as the primary color");
  }

  /** An industry given as the empty string is kept, not replaced by "technology". */
  lemma EmptyIndustryIsKept(appName: Option<string>, b: BusinessContext, accent: Option<string>)
    requires b.industry == Some("")
    ensures Contains(GenerateLogoPrompt(appName, b, accent), ", a  application.")
    ensures GeneratePromptContext(b, ThemeColors(DefaultColor, DefaultBase, None)).industryContext == []
  {
    assert IndustryLead + "" + " application." == ", a  application.";
  }

  /** Two colours: the palette holds both; one colour: it holds it once. */
  lemma PaletteExamples(b: BusinessContext)
    ensures GeneratePromptContext(b, ThemeColors("blue", "gray", None)).colorPalette == ["blue", "gray"]
    ensures GeneratePromptContext(b, ThemeColors("blue", "blue", None)).colorPalette == ["blue"]
  {
  }
}
