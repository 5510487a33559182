/**
 * The settings page of app/Livewire/Settings/TwoFactorAuthentication.php, where a
 * signed-in user sets up, confirms, inspects and turns off two-factor
 * authentication.
 *
 * Every action first checks the `settings.two_factor_authentication` flag
 * (`featureOn`) and does nothing when it is off. An action maps the component's
 * flags and inputs, and the user's two-factor columns, to their new values and
 * the cookie operation it queues.
 */
module TwoFactorSettings {
  import opened Options
  import opened TwoFactor

  /** The component's public properties plus its error bag (the field names with an error). */
  datatype SettingsPanel = SettingsPanel(
    showingQrCode: bool,
    showingRecoveryCodes: bool,
    showingConfirmationForm: bool,
    showingTwoFactorDisabledForm: bool,
    code: string,
    confirmationCode: string,
    errors: set<string>)

  /** The panel as the page first shows it. */
  const InitialPanel := SettingsPanel(false, false, false, false, "", "", {})

  datatype SettingsOutcome = SettingsOutcome(panel: SettingsPanel, user: TwoFactorRecord, cookie: CookieEffect)

  /** The outcome of an action that changes nothing. */
  function Unchanged(p: SettingsPanel, u: TwoFactorRecord): SettingsOutcome {
    SettingsOutcome(p, u, NoCookie)
  }

  /** Sixteen draws of `Str::random(10)`. */
  predicate IsRandomDraw(random: seq<string>) {
    |random| == 2 * RecoveryCodeCount && forall i :: 0 <= i < |random| ==> IsRandomToken(random[i])
  }

  /**
   * `enableTwoFactorAuthentication` (lines 47-62): store a new secret and eight new
   * recovery codes, then show the QR code and the confirmation form. The secret is
   * the one the TOTP library generated.
   */
  function EnableTwoFactorAuthentication(p: SettingsPanel, u: TwoFactorRecord, featureOn: bool,
                                         newSecret: string, random: seq<string>): (r: SettingsOutcome)
    requires IsRandomDraw(random)
    ensures !featureOn ==> r == Unchanged(p, u)
    ensures featureOn ==> r.user.secret == Some(newSecret) && r.user.confirmedAt == u.confirmedAt
    ensures featureOn ==> r.user.recoveryCodes.Some? && |r.user.recoveryCodes.value| == RecoveryCodeCount
    ensures featureOn ==> r.panel == p.(showingQrCode := true, showingConfirmationForm := true)
    ensures r.cookie.NoCookie?
  {
    if !featureOn then Unchanged(p, u)
    else
      var u' := GenerateRecoveryCodes(u.(secret := Some(newSecret)), random);
      SettingsOutcome(p.(showingQrCode := true, showingConfirmationForm := true), u', NoCookie)
  }

  /**
   * `confirmTwoFactorAuthentication` (lines 67-89): a rejected confirmation code
   * records an error under "confirmationCode" and changes nothing else. An accepted
   * one confirms the set-up, hides the QR code and the form, shows the recovery
   * codes and clears the input.
   */
  function ConfirmTwoFactorAuthentication(p: SettingsPanel, u: TwoFactorRecord, featureOn: bool, v: Verifier, now: int)
    : (r: SettingsOutcome)
    ensures !featureOn ==> r == Unchanged(p, u)
    ensures featureOn && !VerifyTwoFactorCode(u, Some(p.confirmationCode), v) ==>
              r == Unchanged(p.(errors := p.errors + {"confirmationCode"}), u)
    ensures featureOn && VerifyTwoFactorCode(u, Some(p.confirmationCode), v) ==>
              && Enabled(r.user) && r.user.confirmedAt == Some(now)
              && r.user.secret == u.secret && r.user.recoveryCodes == u.recoveryCodes
              && !r.panel.showingQrCode && !r.panel.showingConfirmationForm
              && r.panel.showingRecoveryCodes && r.panel.confirmationCode == ""
              && r.panel.errors == p.errors
    ensures r.cookie.NoCookie?
  {
    if !featureOn then Unchanged(p, u)
    else if !VerifyTwoFactorCode(u, Some(p.confirmationCode), v) then
      Unchanged(p.(errors := p.errors + {"confirmationCode"}), u)
    else
      var p' := p.(showingQrCode := false, showingConfirmationForm := false,
                   showingRecoveryCodes := true, confirmationCode := "");
      SettingsOutcome(p', ConfirmTwoFactor(u, now), NoCookie)
  }

  /** `showRecoveryCodes` (lines 94-105): show the codes, but only once two-factor is enabled. */
  function ShowRecoveryCodes(p: SettingsPanel, u: TwoFactorRecord, featureOn: bool): (r: SettingsOutcome)
    ensures featureOn && Enabled(u) ==> r == Unchanged(p.(showingRecoveryCodes := true), u)
    ensures !(featureOn && Enabled(u)) ==> r == Unchanged(p, u)
  {
    if featureOn && Enabled(u) then Unchanged(p.(showingRecoveryCodes := true), u)
    else Unchanged(p, u)
  }

  /**
   * `regenerateRecoveryCodes` (lines 110-127): for an enabled user, replace the
   * codes with eight new ones and show them; otherwise do nothing.
   */
  function RegenerateRecoveryCodes(p: SettingsPanel, u: TwoFactorRecord, featureOn: bool, random: seq<string>)
    : (r: SettingsOutcome)
    requires IsRandomDraw(random)
    ensures !(featureOn && Enabled(u)) ==> r == Unchanged(p, u)
    ensures featureOn && Enabled(u) ==>
              && r.panel == p.(showingRecoveryCodes := true)
              && r.user.secret == u.secret && r.user.confirmedAt == u.confirmedAt
              && r.user.recoveryCodes.Some? && |r.user.recoveryCodes.value| == RecoveryCodeCount
    ensures r.cookie.NoCookie?
  {
    if featureOn && Enabled(u) then
      SettingsOutcome(p.(showingRecoveryCodes := true), GenerateRecoveryCodes(u, random), NoCookie)
    else Unchanged(p, u)
  }

  /** `showTwoFactorDisabledForm` (lines 132-139): open the form that asks for a code before disabling. */
  function ShowTwoFactorDisabledForm(p: SettingsPanel, u: TwoFactorRecord, featureOn: bool): (r: SettingsOutcome)
    ensures featureOn ==> r == Unchanged(p.(showingTwoFactorDisabledForm := true), u)
    ensures !featureOn ==> r == Unchanged(p, u)
  {
    if featureOn then Unchanged(p.(showingTwoFactorDisabledForm := true), u) else Unchanged(p, u)
  }

  /**
   * `disableTwoFactorAuthentication` (lines 144-165): a rejected code records an
   * error under "code" and changes nothing else. An accepted one clears the
   * two-factor columns, forgets the trusted device, closes the form and clears the
   * input.
   */
  function DisableTwoFactorAuthentication(p: SettingsPanel, u: TwoFactorRecord, featureOn: bool, v: Verifier)
    : (r: SettingsOutcome)
    ensures !featureOn ==> r == Unchanged(p, u)
    ensures featureOn && !VerifyTwoFactorCode(u, Some(p.code), v) ==>
              r == Unchanged(p.(errors := p.errors + {"code"}), u)
    ensures featureOn && VerifyTwoFactorCode(u, Some(p.code), v) ==>
              && r.user == Unset && !Enabled(r.user)
              && r.cookie == QueueForget
              && r.panel == p.(showingTwoFactorDisabledForm := false, code := "")
  {
    if !featureOn then Unchanged(p, u)
    else if !VerifyTwoFactorCode(u, Some(p.code), v) then Unchanged(p.(errors := p.errors + {"code"}), u)
    else
      SettingsOutcome(p.(showingTwoFactorDisabledForm := false, code := ""),
                      DisableTwoFactor(u), ForgetTrustedDevice())
  }

  /**
   * `getRecoveryCodesProperty` (lines 192-201): the stored codes, or none when the
   * column is null. A stored list is a JSON text such as "[]", which PHP counts as
   * true, so an emptied list is returned as it is.
   */
  function RecoveryCodesProperty(u: TwoFactorRecord): (r: seq<string>)
    ensures u.recoveryCodes.None? ==> r == []
    ensures u.recoveryCodes.Some? ==> r == u.recoveryCodes.value
  {
    match u.recoveryCodes
    case None => []
    case Some(codes) => codes
  }

  // ---------------------------------------------------------------- properties

  /** With the feature switched off, every action leaves the panel and the user as they were. */
  lemma FeatureOffIsNoOp(p: SettingsPanel, u: TwoFactorRecord, secret: string, random: seq<string>,
                         v: Verifier, now: int)
    requires IsRandomDraw(random)
    ensures EnableTwoFactorAuthentication(p, u, false, secret, random) == Unchanged(p, u)
    ensures ConfirmTwoFactorAuthentication(p, u, false, v, now) == Unchanged(p, u)
    ensures ShowRecoveryCodes(p, u, false) == Unchanged(p, u)
    ensures RegenerateRecoveryCodes(p, u, false, random) == Unchanged(p, u)
    ensures ShowTwoFactorDisabledForm(p, u, false) == Unchanged(p, u)
    ensures DisableTwoFactorAuthentication(p, u, false, v) == Unchanged(p, u)
  {
  }

  /**
   * The set-up flow: enabling and then confirming with a code the oracle accepts
   * leaves the user enabled with the new secret and eight codes on show.
   */
  lemma EnableThenConfirm(u: TwoFactorRecord, secret: string, random: seq<string>, v: Verifier, now: int,
                          code: string)
    requires IsRandomDraw(random)
    requires !v.testing && v.totp(secret, code)
    ensures var e := EnableTwoFactorAuthentication(InitialPanel, u, true, secret, random);
      var c := ConfirmTwoFactorAuthentication(e.panel.(confirmationCode := code), e.user, true, v, now);
      && Enabled(c.user) && c.user.secret == Some(secret)
      && |RecoveryCodesProperty(c.user)| == RecoveryCodeCount
      && c.panel.showingRecoveryCodes && !c.panel.showingQrCode && !c.panel.showingConfirmationForm
  {
    var e := EnableTwoFactorAuthentication(InitialPanel, u, true, secret, random);
    ProductionAsksOracle(e.user, code, v);
  }

  /**
   * After a successful disable nothing about two-factor is left: the user is not
   * enabled, has no codes, and asking to see or regenerate codes does nothing.
   */
  lemma DisableClearsEverything(p: SettingsPanel, u: TwoFactorRecord, v: Verifier, random: seq<string>)
    requires IsRandomDraw(random)
    requires VerifyTwoFactorCode(u, Some(p.code), v)
    ensures var d := DisableTwoFactorAuthentication(p, u, true, v);
      && !Enabled(d.user) && RecoveryCodesProperty(d.user) == []
      && ShowRecoveryCodes(d.panel, d.user, true) == Unchanged(d.panel, d.user)
      && RegenerateRecoveryCodes(d.panel, d.user, true, random) == Unchanged(d.panel, d.user)
  {
  }

  /** Regenerating codes keeps an enabled user enabled, with the same secret. */
  lemma RegenerateKeepsEnabled(p: SettingsPanel, u: TwoFactorRecord, random: seq<string>, v: Verifier,
                               code: Option<string>)
    requires IsRandomDraw(random) && Enabled(u)
    ensures var g := RegenerateRecoveryCodes(p, u, true, random);
      && Enabled(g.user) && VerifyTwoFactorCode(g.user, code, v) == VerifyTwoFactorCode(u, code, v)
  {
  }

  /**
   * The trusted-device cookie is removed by an accepted disable and by nothing
   * else on the page: disabling queues the removal exactly when the feature is on
   * and the code is accepted, and every other action queues no cookie at all.
   */
  lemma OnlyDisableForgetsDevice(p: SettingsPanel, u: TwoFactorRecord, featureOn: bool, secret: string,
                                 random: seq<string>, v: Verifier, now: int)
    requires IsRandomDraw(random)
    ensures DisableTwoFactorAuthentication(p, u, featureOn, v).cookie == ForgetTrustedDevice()
            <==> featureOn && VerifyTwoFactorCode(u, Some(p.code), v)
    ensures EnableTwoFactorAuthentication(p, u, featureOn, secret, random).cookie == NoCookie
    ensures ConfirmTwoFactorAuthentication(p, u, featureOn, v, now).cookie == NoCookie
    ensures ShowRecoveryCodes(p, u, featureOn).cookie == NoCookie
    ensures RegenerateRecoveryCodes(p, u, featureOn, random).cookie == NoCookie
    ensures ShowTwoFactorDisabledForm(p, u, featureOn).cookie == NoCookie
  {
  }
}
