/**
 * The `TwoFactorAuthenticatable` trait of app/Traits/TwoFactorAuthenticatable.php:
 * the two-factor fields of a user record and the operations on them.
 *
 * The library-backed parts are parameters: the TOTP check of RFC 6238 is an
 * oracle `totp(secret, code)`, the new secret is an input, and `Str::random(10)`
 * is a list of ten-character alphanumeric tokens. The cookie jar is reduced to the
 * cookie operation that gets queued.
 */
module TwoFactor {
  import opened Options
  import opened PhpStrings

  /** The user's two-factor columns; `None` is a null column. Timestamps are integers. */
  datatype TwoFactorRecord = TwoFactorRecord(
    secret: Option<string>,
    recoveryCodes: Option<seq<string>>,
    confirmedAt: Option<int>)

  /** A user who never set up two-factor authentication. */
  const Unset := TwoFactorRecord(None, None, None)

  /** `two_factor_enabled` (lines 19-22): the set-up has been confirmed. */
  predicate Enabled(u: TwoFactorRecord)
    ensures Enabled(u) ==> u != Unset
  {
    u.confirmedAt.Some?
  }

  /** How codes are checked: the environment's testing flag and the TOTP oracle. */
  datatype Verifier = Verifier(testing: bool, totp: (string, string) -> bool)

  const TestingCode: string := "123456"
  const TestingRejectPrefix: string := "invalid-"

  /**
   * `verifyTwoFactorCode` (lines 73-96). Without a secret or a code the answer is
   * no. In the testing environment "123456" is accepted and codes starting with
   * "invalid-" are rejected without asking the oracle; every other case is the
   * oracle's answer.
   */
  function VerifyTwoFactorCode(u: TwoFactorRecord, code: Option<string>, v: Verifier): (r: bool)
    ensures u.secret.None? || code.None? ==> !r
    ensures u.secret.Some? && code.Some? && v.testing && code.value == TestingCode ==> r
    ensures code.Some? && v.testing && StartsWith(code.value, TestingRejectPrefix) ==> !r
    ensures u.secret.Some? && code.Some? && !IsTestingShortcut(code.value, v) ==> r == v.totp(u.secret.value, code.value)
  {
    if u.secret.None? || code.None? then false
    else if v.testing && code.value == TestingCode then true
    else if v.testing && StartsWith(code.value, TestingRejectPrefix) then false
    else v.totp(u.secret.value, code.value)
  }

  /** A code the testing environment decides on its own. */
  predicate IsTestingShortcut(code: string, v: Verifier) {
    v.testing && (code == TestingCode || StartsWith(code, TestingRejectPrefix))
  }

  /**
   * The oracle is never consulted for a missing secret or code nor for a testing
   * shortcut: two verifiers that differ only in their oracle agree there.
   */
  lemma ShortcutsIgnoreOracle(u: TwoFactorRecord, code: Option<string>, v: Verifier, w: Verifier)
    requires v.testing == w.testing
    requires u.secret.None? || code.None? || IsTestingShortcut(code.value, v)
    ensures VerifyTwoFactorCode(u, code, v) == VerifyTwoFactorCode(u, code, w)
  {
  }

  /** Outside the testing environment a code is valid exactly when the oracle accepts it. */
  lemma ProductionAsksOracle(u: TwoFactorRecord, code: string, v: Verifier)
    requires !v.testing
    ensures VerifyTwoFactorCode(u, Some(code), v) <==> u.secret.Some? && v.totp(u.secret.value, code)
  {
  }

  // ---------------------------------------------------------------- recovery codes

  /** PHP's `array_diff($xs, [$x])`: every occurrence of `x` removed, the rest kept in order. */
  function ArrayDiff(xs: seq<string>, x: string): (r: seq<string>)
    ensures x !in r
    ensures forall y :: y in r <==> y in xs && y != x
    ensures |r| + Occurrences(xs, x) == |xs|
    ensures multiset(r) == multiset(xs)[x := 0]
    ensures x !in xs ==> r == xs
  {
    if |xs| == 0 then []
    else
      var rest := ArrayDiff(xs[1..], x);
      HeadAndTail(xs);
      if xs[0] == x then rest else [xs[0]] + rest
  }

  /** A non-empty list is its head followed by its tail, as a list, a bag and a set of members. */
  lemma HeadAndTail(xs: seq<string>)
    requires |xs| > 0
    ensures xs == [xs[0]] + xs[1..]
    ensures multiset(xs) == multiset{xs[0]} + multiset(xs[1..])
    ensures forall y :: y in xs <==> y == xs[0] || y in xs[1..]
  {
    assert xs == [xs[0]] + xs[1..];
  }

  /** `array_diff` works element by element, so it keeps the order of what it keeps. */
  lemma {:induction false} ArrayDiffAppend(a: seq<string>, b: seq<string>, x: string)
    ensures ArrayDiff(a + b, x) == ArrayDiff(a, x) + ArrayDiff(b, x)
    decreases |a|
  {
    if |a| == 0 {
      assert a + b == b;
    } else {
      var c, tail := a + b, a[1..];
      var head := if a[0] == x then [] else [a[0]];
      assert c[1..] == tail + b;
      calc {
        ArrayDiff(c, x);
      == { ArrayDiffCons(c, x); }
        head + ArrayDiff(tail + b, x);
      == { ArrayDiffAppend(tail, b, x); }
        head + (ArrayDiff(tail, x) + ArrayDiff(b, x));
      ==
        (head + ArrayDiff(tail, x)) + ArrayDiff(b, x);
      == { ArrayDiffCons(a, x); }
        ArrayDiff(a, x) + ArrayDiff(b, x);
      }
    }
  }

  lemma ArrayDiffCons(a: seq<string>, x: string)
    requires |a| > 0
    ensures ArrayDiff(a, x) == (if a[0] == x then [] else [a[0]]) + ArrayDiff(a[1..], x)
  {
  }

  /** Striking the one occurrence of `x` joins what stood before and after it. */
  lemma StrikeOne(before: seq<string>, x: string, after: seq<string>)
    requires x !in before && x !in after
    ensures ArrayDiff(before + [x] + after, x) == before + after
  {
    ArrayDiffAppend(before + [x], after, x);
    ArrayDiffAppend(before, [x], x);
    assert ArrayDiff([x], x) == [];
    assert ArrayDiff(before, x) == before && ArrayDiff(after, x) == after;
    assert before + [] == before;
  }

  /** The number of times `x` appears in `xs`. */
  function Occurrences(xs: seq<string>, x: string): nat
  {
    if |xs| == 0 then 0 else (if xs[0] == x then 1 else 0) + Occurrences(xs[1..], x)
  }

  /**
   * `verifyRecoveryCode` (lines 101-119): with no stored codes, or a code that is
   * not among them, the answer is no and nothing changes. Otherwise the answer is
   * yes and the code is struck from the list; the other codes, the secret and the
   * confirmation stay as they were.
   */
  function VerifyRecoveryCode(u: TwoFactorRecord, code: string): (r: (bool, TwoFactorRecord))
    ensures r.0 <==> u.recoveryCodes.Some? && code in u.recoveryCodes.value
    ensures !r.0 ==> r.1 == u
    ensures r.0 ==> r.1.secret == u.secret && r.1.confirmedAt == u.confirmedAt
    ensures r.0 ==> r.1.recoveryCodes.Some? && code !in r.1.recoveryCodes.value
    ensures r.0 ==> forall c :: c in r.1.recoveryCodes.value <==> c in u.recoveryCodes.value && c != code
    ensures r.0 ==> |r.1.recoveryCodes.value| < |u.recoveryCodes.value|
    ensures r.0 ==> multiset(r.1.recoveryCodes.value) == multiset(u.recoveryCodes.value)[code := 0]
  {
    match u.recoveryCodes
    case None => (false, u)
    case Some(codes) =>
      if code in codes then
        OccursCounted(codes, code);
        (true, u.(recoveryCodes := Some(ArrayDiff(codes, code))))
      else (false, u)
  }

  lemma {:induction false} OccursCounted(xs: seq<string>, x: string)
    requires x in xs
    ensures Occurrences(xs, x) > 0
    decreases |xs|
  {
    if xs[0] != x {
      assert x in xs[1..];
      OccursCounted(xs[1..], x);
    }
  }

  /** A recovery code works once: after it has been used, the same code is refused. */
  lemma RecoveryCodeSingleUse(u: TwoFactorRecord, code: string)
    requires VerifyRecoveryCode(u, code).0
    ensures !VerifyRecoveryCode(VerifyRecoveryCode(u, code).1, code).0
    ensures VerifyRecoveryCode(VerifyRecoveryCode(u, code).1, code).1 == VerifyRecoveryCode(u, code).1
  {
  }

  /** Using one code keeps every other code usable. */
  lemma OtherCodesSurvive(u: TwoFactorRecord, used: string, other: string)
    requires VerifyRecoveryCode(u, used).0 && other != used
    ensures VerifyRecoveryCode(VerifyRecoveryCode(u, used).1, other).0 == VerifyRecoveryCode(u, other).0
  {
  }

  /**
   * The codes left after one is used keep their order: striking a code from a list
   * is striking it from each part of the list.
   */
  lemma RemainingCodesKeepOrder(u: TwoFactorRecord, code: string, before: seq<string>, after: seq<string>)
    requires u.recoveryCodes == Some(before + [code] + after)
    requires code !in before && code !in after
    ensures VerifyRecoveryCode(u, code) == (true, u.(recoveryCodes := Some(before + after)))
  {
    StrikeOne(before, code, after);
    assert code in before + [code] + after;
  }

  /** A character `Str::random` can produce. */
  predicate IsAlphanumeric(c: char) {
    ('A' <= c <= 'Z') || ('a' <= c <= 'z') || ('0' <= c <= '9')
  }

  /** One `Str::random(10)` result. */
  predicate IsRandomToken(s: string) {
    |s| == 10 && forall i :: 0 <= i < |s| ==> IsAlphanumeric(s[i])
  }

  const RecoveryCodeCount: nat := 8

  /** A recovery code: ten characters, "-", ten characters (the shape tests/Feature/Auth/TwoFactorAuthenticatableTest.php checks). */
  predicate IsRecoveryCode(c: string) {
    && |c| == 21
    && c[10] == '-'
    && IsRandomToken(c[..10])
    && IsRandomToken(c[11..])
  }

  /**
   * `generateRecoveryCodes` (lines 53-58): eight codes, each two random tokens
   * joined by "-". `random` holds the sixteen tokens in the order they are drawn.
   */
  function GenerateRecoveryCodes(u: TwoFactorRecord, random: seq<string>): (r: TwoFactorRecord)
    requires |random| == 2 * RecoveryCodeCount
    requires forall i :: 0 <= i < |random| ==> IsRandomToken(random[i])
    ensures r.secret == u.secret && r.confirmedAt == u.confirmedAt
    ensures r.recoveryCodes.Some? && |r.recoveryCodes.value| == RecoveryCodeCount
    ensures forall i :: 0 <= i < RecoveryCodeCount ==> IsRecoveryCode(r.recoveryCodes.value[i])
  {
    var codes := seq(RecoveryCodeCount, i requires 0 <= i < RecoveryCodeCount => random[2 * i] + "-" + random[2 * i + 1]);
    forall i | 0 <= i < RecoveryCodeCount ensures IsRecoveryCode(codes[i]) {
      JoinedTokens(random[2 * i], random[2 * i + 1]);
    }
    u.(recoveryCodes := Some(codes))
  }

  lemma JoinedTokens(a: string, b: string)
    requires IsRandomToken(a) && IsRandomToken(b)
    ensures IsRecoveryCode(a + "-" + b)
  {
    var c := a + "-" + b;
    assert c[..10] == a;
    assert c[11..] == b;
  }

  /**
   * Each generated code splits at its "-" back into the two tokens it was made
   * from, since a token never contains "-".
   */
  lemma RecoveryCodeSplits(u: TwoFactorRecord, random: seq<string>, i: nat)
    requires |random| == 2 * RecoveryCodeCount
    requires forall k :: 0 <= k < |random| ==> IsRandomToken(random[k])
    requires i < RecoveryCodeCount
    ensures Explode(GenerateRecoveryCodes(u, random).recoveryCodes.value[i], '-') == [random[2 * i], random[2 * i + 1]]
  {
    var a := random[2 * i];
    var b := random[2 * i + 1];
    TokenHasNoDash(a);
    TokenHasNoDash(b);
    ExplodeAround(a, '-', b);
    ExplodeWithout(b, '-');
    assert a + "-" + b == a + ['-'] + b;
  }

  lemma TokenHasNoDash(s: string)
    requires IsRandomToken(s)
    ensures '-' !in s
  {
  }

  // ---------------------------------------------------------------- confirm / disable

  /** `confirmTwoFactor` (lines 124-130): stamp the confirmation with the current time. */
  function ConfirmTwoFactor(u: TwoFactorRecord, now: int): (r: TwoFactorRecord)
    ensures Enabled(r)
    ensures r.secret == u.secret && r.recoveryCodes == u.recoveryCodes
  {
    u.(confirmedAt := Some(now))
  }

  /** `disableTwoFactor` (lines 135-143): clear all three columns. */
  function DisableTwoFactor(u: TwoFactorRecord): (r: TwoFactorRecord)
    ensures !Enabled(r)
    ensures r.secret.None? && r.recoveryCodes.None?
  {
    Unset
  }

  /** After disabling, no code of either kind is accepted, whatever the oracle says. */
  lemma DisabledAcceptsNothing(u: TwoFactorRecord, code: Option<string>, recovery: string, v: Verifier)
    ensures !VerifyTwoFactorCode(DisableTwoFactor(u), code, v)
    ensures !VerifyRecoveryCode(DisableTwoFactor(u), recovery).0
  {
  }

  /** Confirming keeps the secret, so a code valid before confirmation stays valid after it. */
  lemma ConfirmKeepsCodesValid(u: TwoFactorRecord, now: int, code: Option<string>, recovery: string, v: Verifier)
    ensures VerifyTwoFactorCode(ConfirmTwoFactor(u, now), code, v) == VerifyTwoFactorCode(u, code, v)
    ensures VerifyRecoveryCode(ConfirmTwoFactor(u, now), recovery).0 == VerifyRecoveryCode(u, recovery).0
  {
  }

  // ---------------------------------------------------------------- trusted devices

  /** The cookie operation an action queues. */
  datatype CookieEffect =
    | NoCookie
    | QueueTrust(minutes: int)
    | QueueForget

  const MinutesPerDay: int := 1440

  /**
   * `trustDevice` (lines 192-203): the number of days is the argument, or the
   * configured `settings.two_factor_trust` when the argument is null. With neither
   * there is no cookie; otherwise a trust cookie lasting that many days, in minutes.
   */
  function TrustDevice(days: Option<int>, configDays: Option<int>): (r: CookieEffect)
    ensures r.NoCookie? <==> days.None? && configDays.None?
    ensures r.QueueTrust? || r.NoCookie?
    ensures days.Some? ==> r == QueueTrust(days.value * MinutesPerDay)
    ensures days.None? && configDays.Some? ==> r == QueueTrust(configDays.value * MinutesPerDay)
  {
    var d := if days.Some? then days else configDays;
    match d
    case None => NoCookie
    case Some(n) => QueueTrust(n * MinutesPerDay)
  }

  /** The default configuration trusts a device for 30 days, that is 43200 minutes. */
  lemma DefaultTrustLifetime()
    ensures TrustDevice(None, Some(30)) == QueueTrust(43200)
  {
  }

  /** A lifetime always covers whole days: the day count comes back from the minutes. */
  lemma TrustCoversWholeDays(days: Option<int>, configDays: Option<int>)
    requires TrustDevice(days, configDays).QueueTrust?
    ensures TrustDevice(days, configDays).minutes % MinutesPerDay == 0
    ensures TrustDevice(days, configDays).minutes / MinutesPerDay == days.GetOr(configDays.GetOr(0))
  {
  }

  /** `forgetTrustedDevice` (lines 208-213): queue the removal of the trust cookie. */
  function ForgetTrustedDevice(): (r: CookieEffect)
    ensures r.QueueForget?
  {
    QueueForget
  }

  /** Trusting a device never queues its removal: the two cookie operations are distinct. */
  lemma TrustNeverForgets(days: Option<int>, configDays: Option<int>)
    ensures TrustDevice(days, configDays) != ForgetTrustedDevice()
  {
  }
}
