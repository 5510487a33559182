/**
 * PHP's `array_unique` on a list of strings: later duplicates are dropped and the
 * survivors keep the order in which they were first seen. Comparison is plain string
 * equality, as with `array_unique`'s default string comparison.
 */
module ArrayUnique {

  predicate NoDuplicates(s: seq<string>) {
    forall i, j :: 0 <= i < j < |s| ==> s[i] != s[j]
  }

  /** The index of the first occurrence of `x` in `s`. */
  function FirstIndex(s: seq<string>, x: string): (k: nat)
    requires x in s
    ensures k < |s| && s[k] == x
    ensures forall i :: 0 <= i < k ==> s[i] != x
  {
    if s[0] == x then 0 else 1 + FirstIndex(s[1..], x)
  }

  /**
   * `array_unique`: each element of `s` once, at its first occurrence. Defined by
   * scanning `s` left to right and appending an element only when it is new.
   */
  function Dedup(s: seq<string>): (r: seq<string>)
    ensures NoDuplicates(r)
    ensures forall x :: x in r <==> x in s
    ensures |r| <= |s|
    decreases |s|
  {
    if |s| == 0 then []
    else
      var d := Dedup(s[..|s| - 1]);
      var last := s[|s| - 1];
      if last in d then d else d + [last]
  }

  lemma FirstIndexOfPrefix(s: seq<string>, n: nat, x: string)
    requires n <= |s| && x in s[..n]
    ensures FirstIndex(s, x) == FirstIndex(s[..n], x)
  {
    var k := FirstIndex(s[..n], x);
    assert s[k] == s[..n][k];
  }

  /** The elements of a non-empty list are those of its initial part plus its last one. */
  lemma ElementsOfInit(s: seq<string>)
    requires |s| > 0
    ensures forall x :: x in s <==> x in s[..|s| - 1] || x == s[|s| - 1]
  {
    assert s == s[..|s| - 1] + [s[|s| - 1]];
  }

  /** Comparing first indices in `s` or in its initial part is the same thing. */
  lemma FirstIndexOrderOfInit(s: seq<string>, r: seq<string>)
    requires |s| > 0
    requires forall i :: 0 <= i < |r| ==> r[i] in s[..|s| - 1] && r[i] in s
    requires forall i, j :: 0 <= i < j < |r| ==> FirstIndex(s, r[i]) < FirstIndex(s, r[j])
    ensures forall i, j :: 0 <= i < j < |r| ==> FirstIndex(s[..|s| - 1], r[i]) < FirstIndex(s[..|s| - 1], r[j])
  {
    forall i, j | 0 <= i < j < |r|
      ensures FirstIndex(s[..|s| - 1], r[i]) < FirstIndex(s[..|s| - 1], r[j])
    {
      FirstIndexOfPrefix(s, |s| - 1, r[i]);
      FirstIndexOfPrefix(s, |s| - 1, r[j]);
    }
  }

  /**
   * First-seen order: an element appears in `Dedup(s)` before another exactly when
   * its first occurrence in `s` comes earlier.
   */
  lemma {:induction false} DedupKeepsFirstSeenOrder(s: seq<string>, i: nat, j: nat)
    requires i < j < |Dedup(s)|
    ensures FirstIndex(s, Dedup(s)[i]) < FirstIndex(s, Dedup(s)[j])
    decreases |s|
  {
    var p := s[..|s| - 1];
    var d := Dedup(p);
    var x, y := Dedup(s)[i], Dedup(s)[j];
    DedupStep(s);
    if j < |d| {
      DedupKeepsFirstSeenOrder(p, i, j);
      OrderOfInit(s, x, y);
    } else {
      // y is the new last element, seen for the first time at the very end
      NewLastComesLast(s, x);
    }
  }

  /** How `Dedup` treats the last element: kept when new, dropped when already seen. */
  lemma DedupStep(s: seq<string>)
    requires |s| > 0
    ensures var d := Dedup(s[..|s| - 1]);
      && (forall k :: 0 <= k < |d| ==> Dedup(s)[k] == d[k] && d[k] in s[..|s| - 1])
      && (|Dedup(s)| == |d| + 1 ==> Dedup(s)[|d|] == s[|s| - 1] && s[|s| - 1] !in s[..|s| - 1])
      && |d| <= |Dedup(s)| <= |d| + 1
  {
    var d := Dedup(s[..|s| - 1]);
    forall k | 0 <= k < |d| ensures d[k] in s[..|s| - 1] {
      assert d[k] in d;
    }
  }

  /** Comparing first occurrences in the initial part of `s` or in `s` itself is the same. */
  lemma OrderOfInit(s: seq<string>, x: string, y: string)
    requires |s| > 0 && x in s[..|s| - 1] && y in s[..|s| - 1]
    requires FirstIndex(s[..|s| - 1], x) < FirstIndex(s[..|s| - 1], y)
    ensures FirstIndex(s, x) < FirstIndex(s, y)
  {
    var n := |s| - 1;
    var a, b := FirstIndex(s[..n], x), FirstIndex(s[..n], y);
    FirstIndexOfPrefix(s, n, x);
    FirstIndexOfPrefix(s, n, y);
    assert FirstIndex(s, x) == a && FirstIndex(s, y) == b;
  }

  /** An element first seen at the very end comes after every element seen before it. */
  lemma NewLastComesLast(s: seq<string>, x: string)
    requires |s| > 0 && x in s[..|s| - 1] && s[|s| - 1] !in s[..|s| - 1]
    ensures FirstIndex(s, x) < FirstIndex(s, s[|s| - 1])
  {
    FirstIndexOfPrefix(s, |s| - 1, x);
  }

  /** A list that already has no duplicates is left as it is. */
  lemma {:induction false} DedupOfDuplicateFree(s: seq<string>)
    requires NoDuplicates(s)
    ensures Dedup(s) == s
    decreases |s|
  {
    if |s| > 0 {
      var p := s[..|s| - 1];
      assert NoDuplicates(p);
      DedupOfDuplicateFree(p);
      assert s[|s| - 1] !in p;
      assert p + [s[|s| - 1]] == s;
    }
  }

  /**
   * The three properties above determine `array_unique` completely: any list with
   * the same elements as `s`, no duplicates, and the first-seen order of `s` is
   * `Dedup(s)`.
   */
  lemma {:induction false} DedupCharacterized(s: seq<string>, r: seq<string>)
    requires NoDuplicates(r)
    requires forall x :: x in r <==> x in s
    requires forall i, j :: 0 <= i < j < |r| ==> FirstIndex(s, r[i]) < FirstIndex(s, r[j])
    ensures r == Dedup(s)
    decreases |s|
  {
    if |s| == 0 {
      HeadIsElement(r);
    } else {
      var p := s[..|s| - 1];
      var last := s[|s| - 1];
      ElementsOfInit(s);
      if last in p {
        // the last element adds nothing: r is also the deduplication of p
        forall i | 0 <= i < |r| ensures r[i] in p && r[i] in s {
          assert r[i] in r;
        }
        FirstIndexOrderOfInit(s, r);
        DedupCharacterized(p, r);
      } else {
        // last is new, so it is the element of r with the greatest first index
        LastOfCharacterized(s, r);
        var q := r[..|r| - 1];
        assert r == q + [last];
        forall x ensures x in q <==> x in p {
          assert x in r <==> x in q || x == last;
        }
        assert NoDuplicates(q);
        FirstIndexOrderOfInit(s, q);
        DedupCharacterized(p, q);
      }
    }
  }

  lemma HeadIsElement(r: seq<string>)
    ensures |r| > 0 ==> r[0] in r
  {
  }

  /** When the last element of `s` is new, it must close any list ordered by first index. */
  lemma LastOfCharacterized(s: seq<string>, r: seq<string>)
    requires |s| > 0 && s[|s| - 1] !in s[..|s| - 1]
    requires forall x :: x in r <==> x in s
    requires forall i, j :: 0 <= i < j < |r| ==> FirstIndex(s, r[i]) < FirstIndex(s, r[j])
    ensures |r| > 0 && r[|r| - 1] == s[|s| - 1]
  {
    var last := s[|s| - 1];
    assert last in r;
    var m :| 0 <= m < |r| && r[m] == last;
    assert FirstIndex(s, last) == |s| - 1;
  }

  /**
   * The loop `array_unique` runs: walk the list once, remembering what has been
   * seen, and keep each element the first time it turns up.
   */
  method DedupLoop(s: seq<string>) returns (r: seq<string>)
    ensures r == Dedup(s)
  {
    r := [];
    var seen: set<string> := {};
    var i := 0;
    while i < |s|
      invariant 0 <= i <= |s|
      invariant r == Dedup(s[..i])
      invariant forall x :: x in seen <==> x in r
    {
      assert s[..i + 1][..i] == s[..i];
      if s[i] !in seen {
        r := r + [s[i]];
        seen := seen + {s[i]};
      }
      i := i + 1;
    }
    assert s[..|s|] == s;
  }
}
