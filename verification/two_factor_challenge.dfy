/**
 * The login challenge of app/Livewire/Auth/TwoFactorChallenge.php: a form that
 * takes either a one-time code or a recovery code and, once one is accepted,
 * optionally trusts the device and sends the user on.
 *
 * The component's public properties form a record; an action is a function from
 * the record, the signed-in user's two-factor columns and the environment to the
 * new record, the new columns, the cookie queued and whether a redirect happened.
 */
module TwoFactorChallenge {
  import opened Options
  import opened TwoFactor

  /** The component's public properties plus its error bag (the field names with an error). */
  datatype ChallengeForm = ChallengeForm(
    code: string,
    recoveryCode: string,
    showingRecoveryCodeForm: bool,
    rememberDevice: bool,
    errors: set<string>)

  /** The form as the page first shows it. */
  const InitialForm := ChallengeForm("", "", false, false, {})

  /**
   * `toggleRecoveryCodeForm` (lines 33-38): switch between the two kinds of code
   * and clear both inputs.
   */
  function ToggleRecoveryCodeForm(f: ChallengeForm): (r: ChallengeForm)
    ensures r.showingRecoveryCodeForm == !f.showingRecoveryCodeForm
    ensures r.code == "" && r.recoveryCode == ""
    ensures r.rememberDevice == f.rememberDevice && r.errors == f.errors
  {
    f.(showingRecoveryCodeForm := !f.showingRecoveryCodeForm, code := "", recoveryCode := "")
  }

  /** Toggling twice comes back to the same kind of code, with both inputs empty. */
  lemma ToggleTwice(f: ChallengeForm)
    ensures ToggleRecoveryCodeForm(ToggleRecoveryCodeForm(f)) == f.(code := "", recoveryCode := "")
  {
  }

  /** What `verifyCode` leaves behind. */
  datatype ChallengeOutcome = ChallengeOutcome(
    form: ChallengeForm,
    user: Option<TwoFactorRecord>,
    cookie: CookieEffect,
    redirected: bool)

  /**
   * `verifyCode` (lines 43-70). `user` is the signed-in user (`None` when there is
   * none) and `trustDays` the configured `settings.two_factor_trust`. In
   * recovery-code mode only the recovery code is checked, which uses it up;
   * otherwise only the one-time code is checked. A refusal records an error under
   * the field that was checked and stops; an acceptance trusts the device when
   * asked to and redirects.
   */
  function VerifyCode(f: ChallengeForm, user: Option<TwoFactorRecord>, v: Verifier, trustDays: Option<int>)
    : (r: ChallengeOutcome)
    ensures user.None? ==> r == ChallengeOutcome(f, user, NoCookie, false)
    ensures r.form.code == f.code && r.form.recoveryCode == f.recoveryCode
    ensures r.form.showingRecoveryCodeForm == f.showingRecoveryCodeForm
    ensures r.form.rememberDevice == f.rememberDevice
    ensures r.user.Some? <==> user.Some?
    ensures user.Some? && f.showingRecoveryCodeForm ==>
              r.user == Some(VerifyRecoveryCode(user.value, f.recoveryCode).1)
    ensures user.Some? && !f.showingRecoveryCodeForm ==> r.user == user
    ensures r.redirected <==> Accepted(f, user, v)
    ensures !r.redirected ==> r.cookie.NoCookie?
    ensures r.redirected ==> r.form.errors == f.errors
    ensures r.redirected ==> r.cookie == (if f.rememberDevice then TrustDevice(trustDays, trustDays) else NoCookie)
    ensures user.Some? && !r.redirected ==>
              r.form.errors == f.errors + {if f.showingRecoveryCodeForm then "recovery_code" else "code"}
  {
    match user
    case None => ChallengeOutcome(f, user, NoCookie, false)
    case Some(u) =>
      var (ok, u') :=
        if f.showingRecoveryCodeForm then VerifyRecoveryCode(u, f.recoveryCode)
        else (VerifyTwoFactorCode(u, Some(f.code), v), u);
      if !ok then
        var field := if f.showingRecoveryCodeForm then "recovery_code" else "code";
        ChallengeOutcome(f.(errors := f.errors + {field}), Some(u'), NoCookie, false)
      else
        var cookie := if f.rememberDevice then TrustDevice(trustDays, trustDays) else NoCookie;
        ChallengeOutcome(f, Some(u'), cookie, true)
  }

  /** Whether the code of the current mode is accepted for the signed-in user. */
  predicate Accepted(f: ChallengeForm, user: Option<TwoFactorRecord>, v: Verifier) {
    && user.Some?
    && (if f.showingRecoveryCodeForm then VerifyRecoveryCode(user.value, f.recoveryCode).0
        else VerifyTwoFactorCode(user.value, Some(f.code), v))
  }

  /**
   * The device is trusted exactly when a code was accepted and "remember this
   * device" was ticked; with the default configuration the trust lasts 30 days.
   */
  lemma TrustOnlyAfterSuccess(f: ChallengeForm, user: Option<TwoFactorRecord>, v: Verifier)
    ensures VerifyCode(f, user, v, Some(30)).cookie.QueueTrust? <==> Accepted(f, user, v) && f.rememberDevice
    ensures VerifyCode(f, user, v, Some(30)).cookie.QueueTrust? ==>
              VerifyCode(f, user, v, Some(30)).cookie.minutes == 30 * MinutesPerDay
  {
  }

  /** A recovery code gets the user in once; submitting it again is refused. */
  lemma RecoveryCodeLogsInOnce(f: ChallengeForm, u: TwoFactorRecord, v: Verifier, trustDays: Option<int>)
    requires f.showingRecoveryCodeForm
    requires VerifyCode(f, Some(u), v, trustDays).redirected
    ensures !VerifyCode(f, VerifyCode(f, Some(u), v, trustDays).user, v, trustDays).redirected
  {
    RecoveryCodeSingleUse(u, f.recoveryCode);
  }

  /** The challenge may trust a device but never forgets one. */
  lemma ChallengeNeverForgets(f: ChallengeForm, user: Option<TwoFactorRecord>, v: Verifier, trustDays: Option<int>)
    ensures VerifyCode(f, user, v, trustDays).cookie != ForgetTrustedDevice()
  {
    TrustNeverForgets(trustDays, trustDays);
  }

  /**
   * In the testing environment, "123456" typed into the form as first shown gets an
   * enrolled user in, and no cookie is queued because "remember this device" starts
   * unticked.
   */
  lemma TestingCodeFromFirstVisit(u: TwoFactorRecord, v: Verifier, trustDays: Option<int>)
    requires v.testing && u.secret.Some?
    ensures var r := VerifyCode(InitialForm.(code := TestingCode), Some(u), v, trustDays);
      && r.redirected && r.cookie == NoCookie && r.user == Some(u) && r.form.errors == {}
  {
  }
}
