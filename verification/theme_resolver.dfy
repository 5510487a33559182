/**
 * `extractThemeColors` of app/Services/LogoGeneration/MissionParser.php: the accent
 * and base colour families from configuration, and optionally the accent shade the
 * stylesheet assigns to `--color-accent`.
 *
 * The configuration values and the stylesheet's content are parameters (`None` for
 * a missing key or a missing file). The stylesheet pattern of line 52,
 * `--color-accent:\s*var\(--color-(ACCENT-\d+)\)`, is modelled exactly, with the
 * accent family taken literally.
 */
module ThemeResolver {
  import opened Options
  import opened PhpStrings

  datatype ThemeColors = ThemeColors(accent: string, base: string, accentShade: Option<string>)

  const DefaultAccent: string := "blue"
  const DefaultBase: string := "zinc"

  /** PCRE's `\s` (no `u` flag): space, \t, \n, \x0B, \f and \r. */
  predicate IsSpace(c: char) {
    c == ' ' || c == '\t' || c == '\n' || c == '\r' || c == '\U{B}' || c == '\U{C}'
  }

  /** PCRE's `\d` (no `u` flag): an ASCII digit. */
  predicate IsDigit(c: char) {
    '0' <= c <= '9'
  }

  /** The end of the longest run of whitespace starting at `i`: what greedy `\s*` consumes. */
  function SpaceRunEnd(s: string, i: nat): (j: nat)
    requires i <= |s|
    ensures i <= j <= |s|
    ensures forall k :: i <= k < j ==> IsSpace(s[k])
    ensures j == |s| || !IsSpace(s[j])
    decreases |s| - i
  {
    if i < |s| && IsSpace(s[i]) then SpaceRunEnd(s, i + 1) else i
  }

  /** The end of the longest run of digits starting at `i`: what greedy `\d+` consumes. */
  function DigitRunEnd(s: string, i: nat): (j: nat)
    requires i <= |s|
    ensures i <= j <= |s|
    ensures forall k :: i <= k < j ==> IsDigit(s[k])
    ensures j == |s| || !IsDigit(s[j])
    decreases |s| - i
  {
    if i < |s| && IsDigit(s[i]) then DigitRunEnd(s, i + 1) else i
  }

  const DeclarationHead: string := "--color-accent:"
  const ReferenceHead: string := "var(--color-"

  /** A shade token of the `accent` family: the family name, "-", then one or more digits. */
  predicate IsShadeOf(shade: string, accent: string) {
    && |shade| > |accent| + 1
    && StartsWith(shade, accent + "-")
    && forall k :: |accent| + 1 <= k < |shade| ==> IsDigit(shade[k])
  }

  /**
   * The shade captured by a match of the stylesheet pattern starting at index `i`,
   * if the pattern matches there. The match is unique: greedy `\s*` must stop before
   * the "v" of "var(", and greedy `\d+` before the ")".
   */
  function ShadeAt(css: string, accent: string, i: nat): (r: Option<string>)
    ensures r.Some? ==> IsShadeOf(r.value, accent) && Contains(css, r.value)
  {
    if !OccursAt(css, DeclarationHead, i) then None
    else
      var j := SpaceRunEnd(css, i + |DeclarationHead|);
      var k := j + |ReferenceHead|;
      if !OccursAt(css, ReferenceHead, j) || !OccursAt(css, accent + "-", k) then None
      else
        var d := k + |accent| + 1;
        var e := DigitRunEnd(css, d);
        if e == d || e == |css| || css[e] != ')' then None
        else
          CapturedShade(css, accent, k, e);
          Some(css[k..e])
  }

  /** Text that starts with `accent` and "-" and continues with digits only is a shade found in `css`. */
  lemma CapturedShade(css: string, accent: string, k: nat, e: nat)
    requires OccursAt(css, accent + "-", k)
    requires k + |accent| + 1 < e <= |css|
    requires forall i :: k + |accent| + 1 <= i < e ==> IsDigit(css[i])
    ensures IsShadeOf(css[k..e], accent) && Contains(css, css[k..e])
  {
    var shade := css[k..e];
    assert OccursAt(css, shade, k);
    assert shade[..|accent| + 1] == css[k..k + |accent| + 1];
    forall i | |accent| + 1 <= i < |shade| ensures IsDigit(shade[i]) {
      assert shade[i] == css[k + i];
    }
  }

  /** The leftmost position at or after `from` where the stylesheet pattern matches. */
  function FirstMatch(css: string, accent: string, from: nat): (r: Option<nat>)
    requires from <= |css|
    ensures r.Some? ==> from <= r.value <= |css| && ShadeAt(css, accent, r.value).Some?
    ensures forall i :: from <= i <= |css| && (r.None? || i < r.value) ==> ShadeAt(css, accent, i).None?
    decreases |css| - from
  {
    if ShadeAt(css, accent, from).Some? then Some(from)
    else if from == |css| then None
    else FirstMatch(css, accent, from + 1)
  }

  /** `preg_match` of the stylesheet pattern: the capture of the leftmost match. */
  function FindShade(css: string, accent: string): (r: Option<string>)
    ensures r.Some? ==> IsShadeOf(r.value, accent) && Contains(css, r.value)
    ensures r.None? <==> forall i :: 0 <= i <= |css| ==> ShadeAt(css, accent, i).None?
    ensures r.Some? ==> exists i :: 0 <= i <= |css| && ShadeAt(css, accent, i) == r
                                    && forall k :: 0 <= k < i ==> ShadeAt(css, accent, k).None?
  {
    match FirstMatch(css, accent, 0)
    case Some(i) => ShadeAt(css, accent, i)
    case None => None
  }

  /**
   * `extractThemeColors` (lines 41-58): the configured families with their defaults,
   * and the shade only when the stylesheet exists and matches.
   */
  function ExtractThemeColors(accentSetting: Option<string>, baseSetting: Option<string>,
                              stylesheet: Option<string>): (r: ThemeColors)
    ensures r.accent == accentSetting.GetOr(DefaultAccent)
    ensures r.base == baseSetting.GetOr(DefaultBase)
    ensures stylesheet.None? ==> r.accentShade.None?
    ensures stylesheet.Some? ==> r.accentShade == FindShade(stylesheet.value, r.accent)
    ensures r.accentShade.Some? ==>
              stylesheet.Some? && IsShadeOf(r.accentShade.value, r.accent)
              && Contains(stylesheet.value, r.accentShade.value)
  {
    var accent := accentSetting.GetOr(DefaultAccent);
    var base := baseSetting.GetOr(DefaultBase);
    match stylesheet
    case None => ThemeColors(accent, base, None)
    case Some(css) => ThemeColors(accent, base, FindShade(css, accent))
  }

  /** The declaration a stylesheet makes to set the accent shade. */
  function AccentDeclaration(accent: string, digits: string): string
  {
    DeclarationHead + " " + ReferenceHead + accent + "-" + digits + ");"
  }

  /**
   * Writing a shade into the stylesheet and extracting it again gives it back: the
   * parser finds `accent-digits` in the declaration it was written into.
   */
  lemma ShadeRoundTrip(accent: string, digits: string)
    requires |digits| > 0 && forall k :: 0 <= k < |digits| ==> IsDigit(digits[k])
    ensures FindShade(AccentDeclaration(accent, digits), accent) == Some(accent + "-" + digits)
  {
    var css := AccentDeclaration(accent, digits);
    var shade := accent + "-" + digits;
    var pre := DeclarationHead + " " + ReferenceHead;
    assert css == pre + (shade + ");");
    DeclarationPrefix(css, shade + ");");
    assert css == pre + (accent + "-") + digits + ");";
    ShadeFollows(css, pre, accent, digits);
    assert css == (pre + (accent + "-")) + digits + ");";
    DigitsThenClose(css, pre + (accent + "-"), digits);
    assert ShadeAt(css, accent, 0) == Some(shade);
  }

  /** The fixed text before the shade is matched by `--color-accent:\s*var\(--color-`. */
  lemma DeclarationPrefix(css: string, rest: string)
    requires css == DeclarationHead + " " + ReferenceHead + rest
    ensures OccursAt(css, DeclarationHead, 0)
    ensures SpaceRunEnd(css, |DeclarationHead|) == |DeclarationHead| + 1
    ensures OccursAt(css, ReferenceHead, |DeclarationHead| + 1)
  {
    HeadOccurs(DeclarationHead, " ", ReferenceHead, rest);
    OccursIn(DeclarationHead + " ", ReferenceHead, rest);
    assert ReferenceHead[0] == 'v';
    OneSpace(DeclarationHead, ReferenceHead, rest);
  }

  lemma HeadOccurs(a: string, b: string, c: string, d: string)
    ensures OccursAt(a + b + c + d, a, 0)
  {
    assert (a + b + c + d)[..|a|] == a;
  }

  /** Greedy `\s*` over a single space followed by a non-space stops after that space. */
  lemma OneSpace(a: string, b: string, c: string)
    requires |b| > 0 && !IsSpace(b[0])
    ensures SpaceRunEnd(a + " " + b + c, |a|) == |a| + 1
  {
    var s := a + " " + b + c;
    assert s[|a|] == ' ' && s[|a| + 1] == b[0];
  }

  /** After `pre` the declaration holds `accent` and "-", then the digits. */
  lemma ShadeFollows(css: string, pre: string, accent: string, digits: string)
    requires css == pre + (accent + "-") + digits + ");"
    ensures OccursAt(css, accent + "-", |pre|)
    ensures css[|pre|..|pre| + |accent| + 1 + |digits|] == accent + "-" + digits
  {
    OccursIn(pre, accent + "-", digits + ");");
    assert css == pre + (accent + "-") + (digits + ");");
    OccursIn(pre, accent + "-" + digits, ");");
    assert css == pre + (accent + "-" + digits) + ");";
  }

  /** Greedy `\d+` at the start of the digits stops at the closing parenthesis. */
  lemma DigitsThenClose(css: string, pre: string, digits: string)
    requires forall i :: 0 <= i < |digits| ==> IsDigit(digits[i])
    requires css == pre + digits + ");"
    ensures DigitRunEnd(css, |pre|) == |pre| + |digits|
    ensures |pre| + |digits| < |css| && css[|pre| + |digits|] == ')'
  {
    var d := |pre|;
    var e := d + |digits|;
    forall i | d <= i < e ensures IsDigit(css[i]) {
      assert css[i] == digits[i - d];
    }
    assert css[e] == ')';
    DigitRunFrom(css, d, e);
  }

  lemma OccursIn(pre: string, x: string, post: string)
    ensures OccursAt(pre + x + post, x, |pre|)
  {
    assert (pre + x + post)[|pre|..|pre| + |x|] == x;
  }

  lemma {:induction false} DigitRunFrom(s: string, d: nat, e: nat)
    requires d <= e < |s|
    requires forall k :: d <= k < e ==> IsDigit(s[k])
    requires !IsDigit(s[e])
    ensures DigitRunEnd(s, d) == e
    decreases e - d
  {
    if d < e {
      DigitRunFrom(s, d + 1, e);
    }
  }

  /**
   * With no colours configured, the families default to blue and zinc, and a
   * stylesheet declaring `--color-accent: var(--color-blue-N);` yields the shade
   * "blue-N".
   */
  lemma DefaultThemeFromDeclaration(css: string, digits: string)
    requires |digits| > 0 && forall k :: 0 <= k < |digits| ==> IsDigit(digits[k])
    requires css == AccentDeclaration(DefaultAccent, digits)
    ensures ExtractThemeColors(None, None, Some(css)) == ThemeColors("blue", "zinc", Some(DefaultAccent + "-" + digits))
  {
    ShadeRoundTrip(DefaultAccent, digits);
    DefaultFamilies(css);
  }

  /**
   * Whatever families are configured, a stylesheet declaring the accent family at
   * shade N yields the shade "accent-N", next to the configured or default base.
   */
  lemma ConfiguredShadeRoundTrip(accentSetting: Option<string>, baseSetting: Option<string>, css: string,
                                 digits: string)
    requires |digits| > 0 && forall k :: 0 <= k < |digits| ==> IsDigit(digits[k])
    requires css == AccentDeclaration(accentSetting.GetOr(DefaultAccent), digits)
    ensures ExtractThemeColors(accentSetting, baseSetting, Some(css)).accentShade
            == Some(accentSetting.GetOr(DefaultAccent) + "-" + digits)
  {
    ShadeRoundTrip(accentSetting.GetOr(DefaultAccent), digits);
  }

  lemma DefaultFamilies(css: string)
    ensures ExtractThemeColors(None, None, Some(css)) == ThemeColors("blue", "zinc", FindShade(css, "blue"))
  {
  }

  /** The stylesheet line `--color-accent: var(--color-blue-600);` gives the shade "blue-600". */
  lemma DefaultThemeExample(css: string)
    requires css == AccentDeclaration("blue", "600")
    ensures ExtractThemeColors(None, None, Some(css)) == ThemeColors("blue", "zinc", Some("blue" + "-" + "600"))
  {
    assert forall k :: 0 <= k < |"600"| ==> IsDigit("600"[k]);
    ShadeRoundTrip("blue", "600");
    DefaultFamilies(css);
  }
}
