/**
 * The PHP string primitives the core relies on, over `seq<char>`:
 * `strtolower` (ASCII only), `trim` (default character list), `str_starts_with`,
 * Laravel's `Str::contains` with a list of needles, `explode` on a one-character
 * delimiter, `implode`, and the truthiness test `empty()` on strings.
 */
module PhpStrings {

  /** `empty($s)` on a string: true for "" and for "0". */
  predicate IsPhpEmpty(s: string)
    ensures IsPhpEmpty(s) <==> |s| == 0 || (|s| == 1 && s[0] == '0')
  {
    s == "" || s == "0"
  }

  // ---------------------------------------------------------------- strtolower

  predicate IsAsciiUpper(c: char) {
    'A' <= c <= 'Z'
  }

  function LowerChar(c: char): (d: char)
    ensures !IsAsciiUpper(d)
    ensures !IsAsciiUpper(c) ==> d == c
  {
    if IsAsciiUpper(c) then (c as int + 32) as char else c
  }

  /** `strtolower`: maps A-Z to a-z and leaves every other character alone. */
  function Lower(s: string): (r: string)
    ensures |r| == |s|
    ensures forall i :: 0 <= i < |s| ==> r[i] == LowerChar(s[i])
  {
    seq(|s|, i requires 0 <= i < |s| => LowerChar(s[i]))
  }

  /** A string `strtolower` leaves unchanged. */
  predicate IsLower(s: string) {
    forall i :: 0 <= i < |s| ==> !IsAsciiUpper(s[i])
  }

  lemma LowerIsLower(s: string)
    ensures IsLower(Lower(s))
    ensures Lower(Lower(s)) == Lower(s)
    ensures IsLower(s) ==> Lower(s) == s
  {
  }

  // ---------------------------------------------------------------- trim

  /** The characters `trim` strips by default: space, \t, \n, \r, \0 and \x0B. */
  predicate IsTrimChar(c: char) {
    c == ' ' || c == '\t' || c == '\n' || c == '\r' || c == '\0' || c == '\U{B}'
  }

  /** Neither end of `s` is a character `trim` would strip. */
  predicate IsTrimmed(s: string) {
    |s| == 0 || (!IsTrimChar(s[0]) && !IsTrimChar(s[|s| - 1]))
  }

  /** Every character of `s[lo..hi]` is one `trim` strips. */
  predicate AllTrimChars(s: string, lo: int, hi: int)
    requires 0 <= lo <= hi <= |s|
  {
    forall i :: lo <= i < hi ==> IsTrimChar(s[i])
  }

  /** `ltrim`: the suffix of `s` left after dropping its leading trim characters. */
  function TrimLeft(s: string): (r: string)
    ensures |r| <= |s|
    ensures r == s[|s| - |r|..]
    ensures AllTrimChars(s, 0, |s| - |r|)
    ensures |r| == 0 || !IsTrimChar(r[0])
    decreases |s|
  {
    if |s| > 0 && IsTrimChar(s[0]) then TrimLeft(s[1..]) else s
  }

  /** `rtrim`: the prefix of `s` left after dropping its trailing trim characters. */
  function TrimRight(s: string): (r: string)
    ensures |r| <= |s|
    ensures r == s[..|r|]
    ensures AllTrimChars(s, |r|, |s|)
    ensures |r| == 0 || !IsTrimChar(r[|r| - 1])
    decreases |s|
  {
    if |s| > 0 && IsTrimChar(s[|s| - 1]) then TrimRight(s[..|s| - 1]) else s
  }

  /**
   * `trim`: `s` with its leading and trailing trim characters removed. The result is
   * the infix `s[lo..lo + |r|]`, everything cut off around it is a trim character, and
   * nothing at its ends is.
   */
  function Trim(s: string): (r: string)
    ensures IsTrimmed(r)
    ensures exists lo :: 0 <= lo <= |s| - |r| && IsTrimSplit(s, r, lo)
  {
    var l := TrimLeft(s);
    var r := TrimRight(l);
    TrimBothEnds(s, l, r);
    r
  }

  /** Cutting trim characters off the front and then off the back leaves a trimmed infix. */
  lemma TrimBothEnds(s: string, l: string, r: string)
    requires |l| <= |s| && l == s[|s| - |l|..] && AllTrimChars(s, 0, |s| - |l|)
    requires |l| == 0 || !IsTrimChar(l[0])
    requires |r| <= |l| && r == l[..|r|] && AllTrimChars(l, |r|, |l|)
    requires |r| == 0 || !IsTrimChar(r[|r| - 1])
    ensures IsTrimmed(r)
    ensures IsTrimSplit(s, r, |s| - |l|)
  {
    var lo := |s| - |l|;
    assert |r| > 0 ==> r[0] == l[0];
    assert s[lo..lo + |r|] == r;
    forall i | lo + |r| <= i < |s| ensures IsTrimChar(s[i]) {
      assert s[i] == l[i - lo];
    }
  }

  /** `s` is `r` surrounded by trim characters, with `r` starting at index `lo`. */
  predicate IsTrimSplit(s: string, r: string, lo: int)
    requires 0 <= lo <= |s| - |r|
  {
    && s[lo..lo + |r|] == r
    && AllTrimChars(s, 0, lo)
    && AllTrimChars(s, lo + |r|, |s|)
  }

  lemma {:induction false} TrimLeftOfTrimmed(s: string)
    requires |s| == 0 || !IsTrimChar(s[0])
    ensures TrimLeft(s) == s
  {
  }

  lemma {:induction false} TrimRightOfTrimmed(s: string)
    requires |s| == 0 || !IsTrimChar(s[|s| - 1])
    ensures TrimRight(s) == s
  {
  }

  /** `trim` is the identity on trimmed strings. */
  lemma {:induction false} TrimOfTrimmed(s: string)
    requires IsTrimmed(s)
    ensures Trim(s) == s
  {
    TrimLeftOfTrimmed(s);
    TrimRightOfTrimmed(s);
  }

  /** Leading trim characters do not change the result of `trim`. */
  lemma {:induction false} TrimSkipsLeading(pad: string, s: string)
    requires AllTrimChars(pad, 0, |pad|)
    ensures Trim(pad + s) == Trim(s)
    decreases |pad|
  {
    if |pad| > 0 {
      assert (pad + s)[1..] == pad[1..] + s;
      TrimSkipsLeading(pad[1..], s);
    } else {
      assert pad + s == s;
    }
  }

  // ---------------------------------------------------------------- searching

  predicate StartsWith(s: string, prefix: string) {
    |prefix| <= |s| && s[..|prefix|] == prefix
  }

  predicate EndsWith(s: string, suffix: string) {
    |suffix| <= |s| && s[|s| - |suffix|..] == suffix
  }

  /** `needle` occurs in `s` starting at index `k`. */
  predicate OccursAt(s: string, needle: string, k: nat) {
    k + |needle| <= |s| && s[k..k + |needle|] == needle
  }

  /** `str_contains($s, $needle)`: some occurrence of `needle` inside `s`. */
  predicate Contains(s: string, needle: string) {
    exists k: nat :: k <= |s| && OccursAt(s, needle, k)
  }

  /** Laravel's `Str::contains($s, [...])`: some non-empty needle of the list occurs in `s`. */
  predicate ContainsAny(s: string, needles: seq<string>) {
    exists i :: 0 <= i < |needles| && needles[i] != "" && Contains(s, needles[i])
  }

  /**
   * `Str::contains` with a list holds when some non-empty needle of the list occurs;
   * empty needles are skipped, so the empty string contains no list at all.
   */
  lemma ContainsAnyNeedle(s: string, needles: seq<string>)
    ensures ContainsAny(s, needles) <==> exists n :: n in needles && |n| > 0 && Contains(s, n)
    ensures ContainsAny(s, needles) ==> |s| > 0
    ensures !ContainsAny(s, [""])
  {
    if ContainsAny(s, needles) {
      var i :| 0 <= i < |needles| && needles[i] != "" && Contains(s, needles[i]);
      assert needles[i] in needles;
    }
  }

  lemma ContainsInfix(a: string, b: string, c: string)
    ensures Contains(a + b + c, b)
  {
    assert OccursAt(a + b + c, b, |a|);
  }

  /** A string contains each of its prefixes. */
  lemma ContainsPrefix(s: string, p: string)
    requires StartsWith(s, p)
    ensures Contains(s, p)
  {
    assert OccursAt(s, p, 0);
  }

  /** Whatever occurs in `s` still occurs after text is put in front of it. */
  lemma ContainsPrepend(x: string, s: string, n: string)
    requires Contains(s, n)
    ensures Contains(x + s, n)
  {
    var k: nat :| k <= |s| && OccursAt(s, n, k);
    assert (x + s)[|x| + k..|x| + k + |n|] == s[k..k + |n|];
    assert OccursAt(x + s, n, |x| + k);
  }

  /** Containment is transitive: what occurs in an infix occurs in the whole. */
  lemma ContainsWithin(s: string, x: string, y: string)
    requires Contains(s, x) && Contains(x, y)
    ensures Contains(s, y)
  {
    var k: nat :| k <= |s| && OccursAt(s, x, k);
    var j: nat :| j <= |x| && OccursAt(x, y, j);
    assert s[k..k + |x|] == x;
    forall i | 0 <= i < |y| ensures s[k + j + i] == y[i] {
      assert s[k + j + i] == s[k..k + |x|][j + i] == x[j + i] == x[j..j + |y|][i];
    }
    assert s[k + j..k + j + |y|] == y;
    assert OccursAt(s, y, k + j);
  }

  lemma StartsWithAppend(s: string, p: string, t: string)
    requires StartsWith(s, p)
    ensures StartsWith(s + t, p)
  {
    assert (s + t)[..|p|] == s[..|p|];
  }

  lemma StartsWithPrepend(x: string, s: string, p: string)
    requires StartsWith(s, p)
    ensures StartsWith(x + s, x + p)
  {
    assert (x + s)[..|x + p|] == x + s[..|p|];
  }

  lemma EndsWithPrepend(x: string, s: string, q: string)
    requires EndsWith(s, q)
    ensures EndsWith(x + s, q)
  {
    assert (x + s)[|x + s| - |q|..] == s[|s| - |q|..];
  }

  // ---------------------------------------------------------------- explode / implode

  /**
   * `explode($sep, $s)` for a one-character delimiter: the maximal pieces of `s`
   * between delimiters. There is always at least one piece (`explode(',', '')` is
   * `['']`), no piece contains the delimiter, and there is one more piece than
   * delimiters.
   */
  function Explode(s: string, sep: char): (r: seq<string>)
    ensures |r| >= 1
    ensures forall i :: 0 <= i < |r| ==> sep !in r[i]
    ensures |r| == CountOf(s, sep) + 1
    decreases |s|
  {
    if |s| == 0 then [""]
    else
      var rest := Explode(s[1..], sep);
      if s[0] == sep then [""] + rest
      else [[s[0]] + rest[0]] + rest[1..]
  }

  /** The number of occurrences of `c` in `s`. */
  function CountOf(s: string, c: char): nat
  {
    if |s| == 0 then 0 else (if s[0] == c then 1 else 0) + CountOf(s[1..], c)
  }

  /** `implode($sep, $xs)`: the pieces joined with `sep` between consecutive pieces. */
  function Implode(sep: string, xs: seq<string>): string
  {
    if |xs| == 0 then ""
    else if |xs| == 1 then xs[0]
    else xs[0] + sep + Implode(sep, xs[1..])
  }

  /**
   * `implode` keeps every piece whole: the result starts with the first piece, ends
   * with the last, and is as long as the pieces plus one separator between each two.
   */
  lemma {:induction false} ImplodeShape(sep: string, xs: seq<string>)
    ensures |xs| == 0 ==> Implode(sep, xs) == ""
    ensures |xs| >= 1 ==> StartsWith(Implode(sep, xs), xs[0]) && EndsWith(Implode(sep, xs), xs[|xs| - 1])
    ensures |Implode(sep, xs)| == TotalLength(xs) + (if |xs| == 0 then 0 else (|xs| - 1) * |sep|)
    decreases |xs|
  {
    if |xs| == 1 {
      assert StartsWith(xs[0], xs[0]) && EndsWith(xs[0], xs[0]);
    } else if |xs| > 1 {
      var rest := Implode(sep, xs[1..]);
      ImplodeShape(sep, xs[1..]);
      assert StartsWith(xs[0] + sep, xs[0]);
      StartsWithAppend(xs[0] + sep, xs[0], rest);
      EndsWithPrepend(xs[0] + sep, rest, xs[|xs| - 1]);
    }
  }

  /** The combined length of the pieces. */
  function TotalLength(xs: seq<string>): nat
  {
    if |xs| == 0 then 0 else |xs[0]| + TotalLength(xs[1..])
  }

  lemma {:induction false} ExplodeWithout(s: string, sep: char)
    requires sep !in s
    ensures Explode(s, sep) == [s]
    decreases |s|
  {
    if |s| > 0 {
      ExplodeWithout(s[1..], sep);
      assert [s[0]] + s[1..] == s;
    }
  }

  lemma {:induction false} ExplodeAround(a: string, sep: char, b: string)
    requires sep !in a
    ensures Explode(a + [sep] + b, sep) == [a] + Explode(b, sep)
    decreases |a|
  {
    var s := a + [sep] + b;
    if |a| == 0 {
      assert s[1..] == b;
    } else {
      assert s[1..] == a[1..] + [sep] + b;
      ExplodeAround(a[1..], sep, b);
      assert [a[0]] + a[1..] == a;
    }
  }

  /**
   * `explode` undoes `implode` for a one-character glue, as long as there is at
   * least one piece and no piece contains the glue character.
   */
  lemma {:induction false} ExplodeImplode(xs: seq<string>, sep: char)
    requires |xs| >= 1
    requires forall i :: 0 <= i < |xs| ==> sep !in xs[i]
    ensures Explode(Implode([sep], xs), sep) == xs
    decreases |xs|
  {
    if |xs| == 1 {
      ExplodeWithout(xs[0], sep);
    } else {
      ExplodeImplode(xs[1..], sep);
      ExplodeAround(xs[0], sep, Implode([sep], xs[1..]));
      assert [xs[0]] + xs[1..] == xs;
    }
  }
}
