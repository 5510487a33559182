# vibe-kit core, modelled in Dafny

This project models the core of the vibe-kit Laravel starter kit as pure Dafny
functions over immutable records, and proves what they promise. It covers four
pieces.

- **Mission parser and logo prompt.** The parser reads a markdown "mission"
  document and extracts a business context: industry, target audience, brand
  personality and values. It reads the theme colours from configuration and the
  stylesheet. From these it builds a prompt context and a fixed English prompt
  for an image generator. The modules are `MissionParser`, `KeywordRules`,
  `ThemeResolver` and `PromptSynthesis`, plus the PHP helpers they rely on in
  `PhpStrings` and `ArrayUnique`.
- **Two-factor authentication.** This covers the user's two-factor columns
  (secret, recovery codes, confirmation time) and the trait's operations on them
  (module `TwoFactor`). It also covers the two Livewire components that drive
  them as small state machines: the login challenge (`TwoFactorChallenge`) and
  the settings page (`TwoFactorSettings`).
- **Logo-generation sessions.** This covers the default status, `isExpired`, and
  the `active` and `expired` query scopes over an integer clock (`LogoSession`).
- **`vibe:start-task`.** This is the command that registers a task for a coding
  agent in `tasks.json` (`StartTask`).

The regular expressions of the parser are not modelled. A `Scanner` record holds
one total function per pattern and returns that pattern's capture. Everything the
parser does with a capture is modelled exactly: lower-casing, trimming, splitting
on commas, the keyword vocabularies and `array_unique`. The same goes for the
fallbacks and the template text. The stylesheet pattern is deterministic, so it
is modelled concretely. The TOTP check is an oracle `totp(secret, code)`.
Randomness (`Str::random`, the new secret) is passed in as input. Configuration
values and file contents are `Option` parameters. The cookie jar is reduced to
the cookie operation an action queues.

A missing or null array entry is `None`. PHP's `??` replaces only `None`.
PHP's `empty()` on a string is true for `""` and `"0"` (`PhpStrings.IsPhpEmpty`).

`generateLogoPrompt` uses `??`, which replaces only a missing or null value, so an
industry given as `""` stays empty in the prompt (`PromptSynthesis.EmptyIndustryIsKept`).

## Model

| member | source | states |
|---|---|---|
| `PhpStrings.IsPhpEmpty` | app/Services/LogoGeneration/MissionParser.php:21 | `empty()` on a string is true exactly for the empty string and for a lone "0" |
| `PhpStrings.Lower` | app/Services/LogoGeneration/MissionParser.php:171 | `strtolower` keeps the length and maps each character on its own: A-Z to a-z, everything else unchanged |
| `PhpStrings.LowerIsLower` | app/Services/LogoGeneration/MissionParser.php:171 | lower-casing leaves no upper-case letter, so a second pass changes nothing, and text without capitals is left as it is |
| `PhpStrings.Trim` | app/Services/LogoGeneration/MissionParser.php:171 | `trim` leaves no strippable character at either end, and what it cuts off around the kept infix is strippable characters only |
| `PhpStrings.Explode` | app/Services/LogoGeneration/MissionParser.php:222 | `explode` yields at least one piece, one more than there are separators, and no piece contains the separator |
| `PhpStrings.ImplodeShape` | app/Services/LogoGeneration/MissionParser.php:121-123 | `implode` keeps the pieces whole: the text starts with the first piece, ends with the last, and is as long as the pieces plus one separator between each two |
| `PhpStrings.ContainsAnyNeedle` | app/Services/LogoGeneration/MissionParser.php:225-242 | `Str::contains` with a list holds exactly when some non-empty needle of it occurs; empty needles are skipped, so the empty string contains nothing |
| `ArrayUnique.Dedup` | app/Services/LogoGeneration/MissionParser.php:206 | `array_unique` leaves no duplicates, keeps exactly the elements of its input, and never grows the list |
| `ArrayUnique.DedupKeepsFirstSeenOrder` | app/Services/LogoGeneration/MissionParser.php:282 | of two survivors of `array_unique`, the one listed first is the one whose first occurrence in the input comes first |
| `ArrayUnique.DedupCharacterized` | app/Services/LogoGeneration/MissionParser.php:336 | every duplicate-free list that has the input's elements in first-seen order equals the result of `array_unique` |
| `ArrayUnique.DedupOfDuplicateFree` | app/Services/LogoGeneration/MissionParser.php:206 | a list without duplicates passes through `array_unique` unchanged |
| `ArrayUnique.DedupLoop` | app/Services/LogoGeneration/MissionParser.php:336 | a single left-to-right pass that remembers what it has seen computes `array_unique` |
| `KeywordRules.Apply` | app/Services/LogoGeneration/MissionParser.php:225-242 | a vocabulary block yields a keyword exactly when one of that keyword's needles occurs in the text, with at most one keyword per rule |
| `KeywordRules.VocabulariesAreRuleLabels` | app/Services/LogoGeneration/MissionParser.php:225-334 | the personality rules produce exactly the ten personality words, and the values rules exactly the six value words |
| `PhpStrings.ExplodeImplode` | app/Services/LogoGeneration/MissionParser.php:222 | `explode` on a separator undoes `implode` with that separator, for pieces that do not contain it |
| `MissionParser.Normalize` | app/Services/LogoGeneration/MissionParser.php:171 | `strtolower(trim(..))` gives lower-case text with no blank space at either end, and leaves such text unchanged |
| `MissionParser.ExtractIndustry` | app/Services/LogoGeneration/MissionParser.php:167-180 | the industry is the normalised pitch capture when there is one; otherwise it is exactly "e-commerce" when the lower-cased document mentions an e-commerce term, and null when it does not |
| `MissionParser.ExtractTargetAudience` | app/Services/LogoGeneration/MissionParser.php:187-207 | the audience has no duplicates and its entries are normalised; with customers listed it holds exactly the normalised customers; with none it holds only the "helps ..." object, if there is one |
| `MissionParser.AudienceFirstSeenOrder` | app/Services/LogoGeneration/MissionParser.php:192-206 | with customers listed, the audience keeps them in the order each was first listed |
| `MissionParser.AudienceFallbackAtMostOne` | app/Services/LogoGeneration/MissionParser.php:202-204 | with no customer listed, the audience has at most one entry, and has one exactly when the "helps ..." pattern matched |
| `MissionParser.ExtractBrandPersonality` | app/Services/LogoGeneration/MissionParser.php:214-283 | the personality has no duplicates, uses only words of the personality vocabulary, and holds exactly the keywords found in goals, differentiators, key features and solution lines |
| `MissionParser.PersonalityFirstSeenOrder` | app/Services/LogoGeneration/MissionParser.php:282 | personality traits appear in the order in which their keywords were first found |
| `MissionParser.SmartComesFromSections` | app/Services/LogoGeneration/MissionParser.php:248-270 | "smart" is a trait exactly when the Differentiators or Key Features section mentions one of its terms |
| `MissionParser.ExtractValues` | app/Services/LogoGeneration/MissionParser.php:290-337 | the values have no duplicates, use only words of the values vocabulary, hold exactly the keywords found, and include "productivity" whenever the document mentions productivity or productive |
| `MissionParser.ValuesFirstSeenOrder` | app/Services/LogoGeneration/MissionParser.php:336 | values appear in the order in which their keywords were first found |
| `MissionParser.SecurityComesFromHeadings` | app/Services/LogoGeneration/MissionParser.php:295-305 | "security" is a value exactly when some problem heading mentions security or a vulnerability |
| `MissionParser.ExtractAppName` | app/Services/LogoGeneration/MissionParser.php:63-77 | there is no name for an empty document (including "0"); otherwise there is a name exactly when the pitch pattern matches, and it is the capture trimmed |
| `MissionParser.ExtractBusinessContext` | app/Services/LogoGeneration/MissionParser.php:17-36 | an empty document gives the empty context; any other context carries the guarantees of the four extractions |
| `MissionParser.EmptyDocumentYieldsEmptyContext` | app/Services/LogoGeneration/MissionParser.php:21-28 | the empty document gives a null industry, three empty lists and no app name, whatever the patterns would capture |
| `ThemeResolver.ShadeAt` | app/Services/LogoGeneration/MissionParser.php:52 | a match of the pattern at one position captures the accent, "-" and digits, and that capture occurs in the stylesheet |
| `ThemeResolver.FirstMatch` | app/Services/LogoGeneration/MissionParser.php:52 | the position found from a starting point is a match, and no position between the start and it matches; finding none means no later position matches |
| `ThemeResolver.FindShade` | app/Services/LogoGeneration/MissionParser.php:52-54 | no shade is found exactly when the accent pattern matches at no position of the stylesheet; otherwise the shade is the capture of the leftmost match, which is the accent, "-" and digits, and occurs in the stylesheet |
| `ThemeResolver.ExtractThemeColors` | app/Services/LogoGeneration/MissionParser.php:41-58 | accent and base are the configured families or "blue" and "zinc"; there is a shade only when the stylesheet exists, and then it is exactly what the accent pattern finds for the resolved accent family |
| `ThemeResolver.ShadeRoundTrip` | app/Services/LogoGeneration/MissionParser.php:52 | a shade written into an accent declaration is extracted back unchanged |
| `ThemeResolver.ConfiguredShadeRoundTrip` | app/Services/LogoGeneration/MissionParser.php:43-55 | for any configured accent, or the default, a stylesheet declaring that family at shade N yields the shade "family-N" |
| `ThemeResolver.DefaultThemeFromDeclaration` | app/Services/LogoGeneration/MissionParser.php:43-55 | with nothing configured and a stylesheet declaring the blue accent at shade N, the colours are blue, zinc and "blue-N" |
| `ThemeResolver.DefaultThemeExample` | app/Services/LogoGeneration/MissionParser.php:43-55 | the declaration `--color-accent: var(--color-blue-600);` gives the shade "blue-600" |
| `PromptSynthesis.GeneratePromptContext` | app/Services/LogoGeneration/MissionParser.php:82-113 | style and audience are the personality and audience lists; the palette is the accent, then the base only if it differs; the industry is kept exactly when PHP's `empty()` is false for it |
| `PromptSynthesis.PaletteExamples` | app/Services/LogoGeneration/MissionParser.php:97-100 | two different colours give a two-entry palette; one colour gives one entry |
| `PromptSynthesis.PersonalityPhrase` | app/Services/LogoGeneration/MissionParser.php:121-123 | no personality gives "modern, professional"; otherwise the phrase starts with the first trait, and a single trait is the whole phrase |
| `PromptSynthesis.GenerateLogoPrompt` | app/Services/LogoGeneration/MissionParser.php:118-135 | the prompt opens on the app name (or "the application"), contains the industry sentence (or "technology"), the personality sentence and the colour sentence (or "blue"), and ends with the fixed advice |
| `PromptSynthesis.PromptSubject` | app/Services/LogoGeneration/MissionParser.php:127 | the subject read from a prompt follows the opening words directly and contains no comma |
| `PromptSynthesis.SubjectRoundTrip` | app/Services/LogoGeneration/MissionParser.php:127 | the app name can be read back from the prompt built with it, when it has no comma |
| `PromptSynthesis.PersonalityPhraseRoundTrip` | app/Services/LogoGeneration/MissionParser.php:121-123 | splitting the personality phrase at commas and trimming the pieces gives back the trait list |
| `PromptSynthesis.ExtractedPersonalityRoundTrip` | app/Services/LogoGeneration/MissionParser.php:121-123 | every non-empty personality the parser extracts survives that trip through the prompt |
| `PromptSynthesis.ContextAgreesWithPrompt` | app/Services/LogoGeneration/MissionParser.php:82-135 | the first palette colour is the prompt's primary colour, and the style keywords are the prompt's personality words |
| `PromptSynthesis.PipelineContext` | app/Services/LogoGeneration/MissionParser.php:17-113 | after the whole pipeline the style keywords are duplicate-free personality words, the audience is duplicate-free and normalised, and an industry is passed on exactly when one was found and is neither "" nor "0" |
| `PromptSynthesis.BareContextPromptExample` | app/Services/LogoGeneration/MissionParser.php:118-135 | with an empty context the prompt names "the application", a "technology application", "modern, professional" and blue |
| `PromptSynthesis.EmptyIndustryIsKept` | app/Services/LogoGeneration/MissionParser.php:119 | an industry given as "" is kept in the prompt, not replaced, yet left out of the prompt context |
| `TwoFactor.Enabled` | app/Traits/TwoFactorAuthenticatable.php:19-22 | enabled means a confirmation time is recorded, so a user who never set up two-factor is not enabled |
| `TwoFactor.VerifyTwoFactorCode` | app/Traits/TwoFactorAuthenticatable.php:73-96 | a missing secret or code is refused; in testing "123456" is accepted and "invalid-..." refused; every other case is the TOTP oracle's answer |
| `TwoFactor.ShortcutsIgnoreOracle` | app/Traits/TwoFactorAuthenticatable.php:76-91 | for a missing secret or code and for the testing shortcuts, the oracle is never consulted |
| `TwoFactor.ProductionAsksOracle` | app/Traits/TwoFactorAuthenticatable.php:93-95 | outside testing a code is valid exactly when there is a secret and the oracle accepts the code |
| `TwoFactor.ArrayDiff` | app/Traits/TwoFactorAuthenticatable.php:110 | `array_diff` removes every occurrence of the code and keeps every other element as often as it occurred; a list without the code comes back unchanged |
| `TwoFactor.ArrayDiffAppend` | app/Traits/TwoFactorAuthenticatable.php:110 | `array_diff` works element by element: on two lists joined it gives the two results joined, so the kept codes stay in their order |
| `TwoFactor.StrikeOne` | app/Traits/TwoFactorAuthenticatable.php:110 | striking a code that occurs once joins the codes before it and the codes after it |
| `TwoFactor.RemainingCodesKeepOrder` | app/Traits/TwoFactorAuthenticatable.php:101-119 | using a code stored once leaves the other codes in their original order |
| `TwoFactor.VerifyRecoveryCode` | app/Traits/TwoFactorAuthenticatable.php:101-119 | a code is accepted exactly when codes are stored and it is among them; a refusal changes nothing; an acceptance strikes the code, keeps every other code as often as it was stored, and leaves the secret and confirmation alone |
| `TwoFactor.RecoveryCodeSingleUse` | app/Traits/TwoFactorAuthenticatable.php:109-116 | a recovery code is accepted once; the same code is then refused |
| `TwoFactor.OtherCodesSurvive` | app/Traits/TwoFactorAuthenticatable.php:110 | using one recovery code does not change whether any other code is accepted |
| `TwoFactor.GenerateRecoveryCodes` | app/Traits/TwoFactorAuthenticatable.php:53-58 | eight codes are stored, each ten alphanumerics, "-", ten alphanumerics; the secret and confirmation are untouched |
| `TwoFactor.RecoveryCodeSplits` | app/Traits/TwoFactorAuthenticatable.php:55 | each generated code splits at its "-" into the two random tokens it was made from |
| `TwoFactor.ConfirmTwoFactor` | app/Traits/TwoFactorAuthenticatable.php:124-130 | confirming enables two-factor and leaves the secret and codes untouched |
| `TwoFactor.ConfirmKeepsCodesValid` | app/Traits/TwoFactorAuthenticatable.php:124-130 | a one-time or recovery code is accepted after confirming exactly when it was accepted before |
| `TwoFactor.DisableTwoFactor` | app/Traits/TwoFactorAuthenticatable.php:135-143 | disabling clears the secret, the codes and the confirmation, so two-factor is no longer enabled |
| `TwoFactor.DisabledAcceptsNothing` | app/Traits/TwoFactorAuthenticatable.php:135-143 | after disabling, no one-time code and no recovery code is accepted, whatever the oracle says |
| `TwoFactor.TrustDevice` | app/Traits/TwoFactorAuthenticatable.php:192-203 | days come from the argument, else the configuration; with neither no cookie is queued, otherwise a trust cookie of days times 1440 minutes |
| `TwoFactor.DefaultTrustLifetime` | app/Traits/TwoFactorAuthenticatable.php:194-202 | the default 30 days of trust are 43200 minutes |
| `TwoFactor.TrustCoversWholeDays` | app/Traits/TwoFactorAuthenticatable.php:202 | a trust lifetime is a whole number of days, and that number is the one resolved from argument or configuration |
| `TwoFactor.ForgetTrustedDevice` | app/Traits/TwoFactorAuthenticatable.php:208-213 | forgetting the device queues the removal of the trust cookie |
| `TwoFactor.TrustNeverForgets` | app/Traits/TwoFactorAuthenticatable.php:192-213 | trusting a device never queues the removal of the trust cookie |
| `TwoFactorChallenge.ToggleRecoveryCodeForm` | app/Livewire/Auth/TwoFactorChallenge.php:33-38 | toggling flips the mode, clears both inputs and keeps everything else |
| `TwoFactorChallenge.ToggleTwice` | app/Livewire/Auth/TwoFactorChallenge.php:33-38 | toggling twice restores the mode, with both inputs empty |
| `TwoFactorChallenge.VerifyCode` | app/Livewire/Auth/TwoFactorChallenge.php:43-70 | with no user nothing happens; only the current mode's code is checked; a refusal adds an error under "recovery_code" or "code"; the redirect happens exactly on acceptance, with a trust cookie when "remember" is ticked |
| `TwoFactorChallenge.TrustOnlyAfterSuccess` | app/Livewire/Auth/TwoFactorChallenge.php:65-67 | the device is trusted exactly when the code was accepted and "remember" was ticked, for 30 days by default |
| `TwoFactorChallenge.RecoveryCodeLogsInOnce` | app/Livewire/Auth/TwoFactorChallenge.php:51-56 | a recovery code that logged the user in is refused when submitted again |
| `TwoFactorChallenge.ChallengeNeverForgets` | app/Livewire/Auth/TwoFactorChallenge.php:43-70 | the challenge may trust a device but never forgets one |
| `TwoFactorChallenge.TestingCodeFromFirstVisit` | app/Livewire/Auth/TwoFactorChallenge.php:43-70 | in testing, "123456" typed into the form as first shown logs an enrolled user in without errors and without a cookie, since "remember" starts unticked |
| `TwoFactorSettings.EnableTwoFactorAuthentication` | app/Livewire/Settings/TwoFactorAuthentication.php:47-62 | enabling stores the new secret and eight codes and shows the QR code and confirmation form; with the feature off nothing changes |
| `TwoFactorSettings.ConfirmTwoFactorAuthentication` | app/Livewire/Settings/TwoFactorAuthentication.php:67-89 | a rejected code adds an error under "confirmationCode" and changes nothing else; an accepted one confirms, hides the QR code and form, shows the codes and clears the input |
| `TwoFactorSettings.ShowRecoveryCodes` | app/Livewire/Settings/TwoFactorAuthentication.php:94-105 | the codes are shown only when the feature is on and two-factor is enabled; otherwise nothing changes |
| `TwoFactorSettings.RegenerateRecoveryCodes` | app/Livewire/Settings/TwoFactorAuthentication.php:110-127 | for an enabled user eight new codes replace the old and are shown, secret and confirmation kept; otherwise nothing changes |
| `TwoFactorSettings.ShowTwoFactorDisabledForm` | app/Livewire/Settings/TwoFactorAuthentication.php:132-139 | the disable form opens when the feature is on; otherwise nothing changes |
| `TwoFactorSettings.DisableTwoFactorAuthentication` | app/Livewire/Settings/TwoFactorAuthentication.php:144-165 | a rejected code adds an error under "code" and changes nothing else; an accepted one clears all two-factor columns, forgets the device, closes the form and clears the input |
| `TwoFactorSettings.RecoveryCodesProperty` | app/Livewire/Settings/TwoFactorAuthentication.php:192-201 | with no codes stored the property is empty; otherwise it is the stored list |
| `TwoFactorSettings.FeatureOffIsNoOp` | app/Livewire/Settings/TwoFactorAuthentication.php:47-148 | with the feature flag off, every one of the six actions leaves panel and user as they were and queues no cookie |
| `TwoFactorSettings.EnableThenConfirm` | app/Livewire/Settings/TwoFactorAuthentication.php:47-89 | enabling and then confirming with a code the oracle accepts leaves the user enabled with the new secret and eight codes on show |
| `TwoFactorSettings.DisableClearsEverything` | app/Livewire/Settings/TwoFactorAuthentication.php:144-165 | after a successful disable the user is not enabled and has no codes, and showing or regenerating codes does nothing |
| `TwoFactorSettings.OnlyDisableForgetsDevice` | app/Livewire/Settings/TwoFactorAuthentication.php:47-165 | disabling queues the removal of the trusted device exactly when the feature is on and the code is accepted; no other action queues a cookie |
| `TwoFactorSettings.RegenerateKeepsEnabled` | app/Livewire/Settings/TwoFactorAuthentication.php:110-127 | regenerating codes keeps the user enabled, and one-time codes are accepted exactly as before |
| `LogoSession.StatusRoundTrip` | database/migrations/2025_07_25_213946_create_logo_generation_sessions_table.php:23-24 | each of the five statuses is read back from the column as written |
| `LogoSession.NewSession` | app/Models/LogoGenerationSession.php:55-72 | a new session keeps the given attributes, and its status is "pending" when none is given |
| `LogoSession.NewSessionScopes` | app/Models/LogoGenerationSession.php:55-124 | a new session expiring later is active and not expired; one that expired earlier is expired and in the expired scope only |
| `LogoSession.ActiveSessions` | app/Models/LogoGenerationSession.php:110-113 | the active scope selects exactly the sessions that expire after now |
| `LogoSession.ExpiredSessions` | app/Models/LogoGenerationSession.php:121-124 | the expired scope selects exactly the sessions that expire now or earlier |
| `LogoSession.ScopesPartition` | app/Models/LogoGenerationSession.php:110-124 | the two scopes split any list of sessions: together they hold every session with its multiplicity |
| `LogoSession.ScopesDisjoint` | app/Models/LogoGenerationSession.php:110-124 | no session is in both scopes |
| `LogoSession.ExpiredBoundary` | app/Models/LogoGenerationSession.php:99-124 | `isExpired` implies the expired scope, and the two disagree exactly at an expiry equal to now |
| `LogoSession.BoundaryExample` | app/Models/LogoGenerationSession.php:99-124 | a pending session that expires exactly now is not expired and not active, yet is in the expired scope |
| `StartTask.StateRoundTrip` | packages/vibe/src/TaskStates.php:9-12 | each task state is read back from its stored name |
| `StartTask.StartTask` | packages/vibe/src/Commands/StartTaskCommand.php:18-47 | the slug is the key. With no file, a file holding only this task, in progress and current, is written. A slug already used fails and leaves the file alone. Otherwise the task is added in progress and made current, and the other tasks are kept |
| `StartTask.NothingElseChanges` | packages/vibe/src/Commands/StartTaskCommand.php:41 | starting a task removes no task and changes no other task's state |
| `StartTask.KeepsCurrentRegistered` | packages/vibe/src/Commands/StartTaskCommand.php:24-42 | the current task stays a registered task |
| `StartTask.SameSlugIsRefused` | packages/vibe/src/Commands/StartTaskCommand.php:35-39 | a second name with the same slug as a started task is refused, and the file is unchanged |
| `StartTask.TwoTasksInARow` | packages/vibe/src/Commands/StartTaskCommand.php:21-46 | two names with different slugs, started one after the other from no file, leave both tasks registered with the later one current |

## Left out

- Reading the mission file, the stylesheet, `tasks.json` and configuration is not modelled (MissionParser.php:140-162 and the `File`/`Config` calls). Their contents come in as strings or `Option`s, with an absent mission file read as "".
- The parser's regular expressions (MissionParser.php lines 72, 170, 192-194, 202, 220, 248, 265, 273 and 295) are not modelled. They become the functions of `MissionParser.Scanner`. Their lookaheads, lazy quantifiers and `/s` and `/i` flags are beyond a faithful model here.
- `ThemeResolver.FindShade` interpolates the accent into the shade pattern literally. An accent containing regular-expression metacharacters is matched as plain text rather than as a pattern.
- TOTP verification and secret generation (Google2FA), `Str::random`, the UUID device id and the SHA-256 cookie name (TwoFactorAuthenticatable.php:148-187) are oracles or inputs. The QR-code SVG is left out entirely.
- The cookie jar is reduced to the queued operation (`TwoFactor.CookieEffect`). `hasTrustedDevice` is not modelled.
- Livewire rendering, Blade views and `dispatch` events are not modelled. `redirectIntended` is modelled only as whether a redirect happened.
- `in_array` in `verifyRecoveryCode` uses PHP's loose comparison. The model compares strings exactly.
- `array_diff` and the `array_unique` at MissionParser.php:206 keep the original array keys. A list with gaps in its keys is JSON-encoded as an object. The model keeps only the order of the values.
- `TwoFactor.TrustDevice` does not model PHP integer overflow of `days * 1440`. Integers are unbounded.
- The settings component assumes a signed-in user and never checks for one, so the model always has one. The challenge component checks, so its model takes an `Option`.
- Eloquent persistence, JSON and datetime casts, factories and `LogoGenerationOption` are framework behaviour with no logic of their own. Timestamps are integers. `isPast` and the scopes compare against one `now`.
- `StartTask.StartTask` treats any registered key as used. The source's `data_get` would also treat a registered task whose entry is falsy as free. That cannot happen for entries this command writes, and a slug containing "." (which `data_get` reads as a path) cannot arise from `Str::slug`. Invalid JSON in `tasks.json` is not modelled.
- `TaskCommand`, `RunCommand`, `PauseCommand`, `ResumeCommand` and `ContinueCommand` are not modelled. Neither is `TaskStates::ongoingTask`, which refers to a state `Started` the enum does not declare. `TaskCommand` reads the current state from the wrong level of the file. The other commands only write lock or flag files. The commands also read `vibe.tasks_path`, while the package configuration declares `task_dir`.
