# Governance safeguards of the spot-only Osmosis fork, in Dafny

This project models the governance safeguards of a spot-only fork of Osmosis.
The safeguards are a content filter that keeps leverage-related features
(perpetuals, margin, lending and the like) from being voted into the chain:

- **Policy evaluator** (`SafeguardTypes`). A `Config` holds a kill switch and
  two ordered restriction lists. `ValidateProposal` lets everything through
  when the switch is off. Otherwise it lower-cases the title and summary and
  denies the proposal on the first restricted proposal type found in either.
  It then screens each embedded message in order: an upgrade message's
  lowered payload against the restricted modules, a params message's lowered
  payload against the restricted proposal types. `IsLeverageRelated` tests a
  text against the default list.
- **Keeper** (`SafeguardKeeper.Keeper`). A class holding one `Config`, with
  read accessors, delegation to the evaluator and `SetConfig`.
- **Ante decorator** (`SafeguardAnte`). A class holding a copy of the keeper.
  `AnteHandle` loops over a transaction's messages and screens each gov v1
  `MsgSubmitProposal` through the keeper; every other message type is let
  through unscreened. The first denial is returned, wrapped as an
  invalid request, and the rest of the ante chain is never called. Otherwise
  the rest of the chain (`NextHandler`) is called exactly once and its answer
  is returned. `ValidateProposalContent` runs the default configuration on a
  bare title and description.
- **App configuration** (`AppGovernanceConfig`). The operator's settings and
  their translation into the evaluator's `Config`: the default lists come
  first and the operator's extra entries are appended behind them.
- **Spot-only configuration** (`SpotOnly`). The fork's settings and the
  ordered three-step check that spot-only mode allows no leverage, no margin
  trading and no perpetual contracts.

Go's `strings.ToLower` and `strings.Contains` are modelled in `GoStrings`
(ASCII case mapping; substring occurrence at some index). `Wrappers` holds
`Option` and `Outcome` (`Pass` or `Fail(error)`, Go's `nil` or an error).

Where the code's own comments or test names promise more than the code does,
the model follows the code:

- The doc comment on `SetConfig` (`x/governance-safeguards/keeper/keeper.go`
  line 63) says it updates the configuration. The method has a value
  receiver and changes nothing (see Findings).
- The test `TestValidateProposal_CaseInsensitive`
  (`x/governance-safeguards/types/types_test.go` line 102) calls matching
  case-insensitive. Only the screened text is lowered; the list entries are
  not. An entry with an ASCII upper-case letter can therefore never deny anything
  (`UpperCaseEntryNeverDenies`).
- The type-URL tests for `"upgrade"` and `"params"` are case-sensitive. A
  `MsgUpdateParams` message spells "Params" and is never screened
  (`UpdateParamsMessageIsNotScreened`).
- The decorator's doc comments (`x/governance-safeguards/ante.go` lines 15
  and 27) say it validates governance proposals. Its type switch (line 42)
  matches only the gov v1 `MsgSubmitProposal`. A gov v1beta1 submission, or
  one nested in an authz `MsgExec`, is never screened
  (`LegacySubmissionReachesNext`, `OtherMessagesAreSkipped`).
- List order decides which entry an error names: the first entry, in list
  order, that occurs.
- The import block of `x/governance-safeguards/ante.go` (lines 11-12) is
  malformed. The model follows the evident intent: `ante.go` uses the keeper
  and types packages.

## Model

| member | source | states |
|---|---|---|
| GoStrings.ToLower | x/governance-safeguards/types/types.go:65-66 | lower-casing keeps the length and maps every character through the ASCII case mapping |
| GoStrings.ToLowerIdempotent | x/governance-safeguards/types/types.go:65-66 | lowering a lowered text changes nothing |
| GoStrings.ToLowerHasNoUpper | x/governance-safeguards/types/types.go:65-66 | a lowered text holds no ASCII upper-case letter |
| GoStrings.ToLowerSlice | x/governance-safeguards/types/types.go:65-66 | lowering commutes with taking a slice |
| GoStrings.Contains | x/governance-safeguards/types/types.go:69 | `strings.Contains`: a substring occurrence at some index; a contained word is never longer than the text, and every text contains itself |
| GoStrings.CaseVariantOccurs | x/governance-safeguards/types/types.go:65-69 | if any spelling of a keyword occurs in a text, the lowered keyword occurs in the lowered text |
| GoStrings.UpperWordNeverOccursInLowered | x/governance-safeguards/types/types.go:65-69 | a word with an ASCII upper-case letter never occurs in a lowered text |
| GoStrings.OccursBetween | x/governance-safeguards/types/types.go:69 | `b` occurs in `a + b + c` at index `|a|` |
| GoStrings.EmptyAlwaysContained | x/governance-safeguards/types/types.go:69 | the empty string is a substring of every text |
| GoStrings.AbsentByLeadingPair | x/governance-safeguards/types/types.go:87 | a text in which the first two letters of a word never appear side by side does not contain the word |
| SafeguardTypes.DefaultConfig | x/governance-safeguards/types/types.go:14-56 | the default has enforcement on and the two default lists (10 proposal types, including "perpetual", "margin" and "leverage"; 7 modules) |
| SafeguardTypes.ErrorText | x/governance-safeguards/types/types.go:68-106 | the error text, made of the message for its kind and the matched entry, ends with the entry that matched |
| SafeguardTypes.FirstRestricted | x/governance-safeguards/types/types.go:68-72 | no entry is named exactly when no entry occurs in any screened text; a named entry is the first in list order that occurs |
| SafeguardTypes.FirstMatchInTail | x/governance-safeguards/types/types.go:68-72 | when the head entry occurs nowhere, the first match of the tail is the first match of the list |
| SafeguardTypes.ValidateMessage | x/governance-safeguards/types/types.go:85-109 | a message passes exactly when it is not an upgrade message whose lowered payload holds a module, nor a params message whose lowered payload holds a proposal type; a denial names the first such entry, and the upgrade check runs first |
| SafeguardTypes.ValidateMessages | x/governance-safeguards/types/types.go:75-79 | the messages pass exactly when each passes; otherwise the result is the verdict of the first failing message |
| SafeguardTypes.FirstFailureInTail | x/governance-safeguards/types/types.go:75-79 | when the head message passes, the first failure of the tail is the first failure of the list |
| SafeguardTypes.ValidateProposal | x/governance-safeguards/types/types.go:59-82 | with the kill switch off every proposal passes; otherwise a proposal passes exactly when no restricted type occurs in its lowered title or summary and every message passes; a text denial names the first matching type; any other denial comes from the first failing message, after a clean text |
| SafeguardTypes.IsLeverageRelated | x/governance-safeguards/types/types.go:112-119 | true exactly when some default proposal type is a substring of the lowered text |
| SafeguardTypes.EmptyKeywordDeniesEverything | x/governance-safeguards/types/types.go:68-70 | with enforcement on, an empty entry among the proposal types denies every proposal by its text |
| SafeguardTypes.CaseVariantDenies | x/governance-safeguards/types/types.go:65-70 | any upper- or mixed-case spelling of a restricted type in the title or summary denies the proposal |
| SafeguardTypes.UpperCaseEntryNeverDenies | x/governance-safeguards/types/types.go:65-103 | an entry holding an ASCII upper-case letter is never named by any denial |
| SafeguardTypes.TextDenialIgnoresMessages | x/governance-safeguards/types/types.go:68-79 | a text denial is the same whatever messages the proposal carries: messages are screened only after a clean text |
| SafeguardTypes.UnscreenedMessagePasses | x/governance-safeguards/types/types.go:85-108 | a message whose type URL contains neither "upgrade" nor "params" always passes |
| SafeguardTypes.UpgradeCheckComesFirst | x/governance-safeguards/types/types.go:87-105 | when the type URL contains both words and a module occurs, the denial is the upgrade denial |
| SafeguardTypes.FirstRestrictedAppend | app/config/governance_safeguards.go:41-44 | searching `a + b` finds the first match of `a` if there is one, and otherwise the first match of `b` |
| SafeguardTypes.NoneOccurSubset | x/governance-safeguards/types/types.go:68-72 | if no entry of a list occurs, no entry of a sub-list occurs |
| SafeguardTypes.StricterMessageCheck | x/governance-safeguards/types/types.go:85-109 | a message passing under lists that include another configuration's lists passes under that configuration |
| SafeguardTypes.StricterConfigAllowsLess | x/governance-safeguards/types/types.go:59-82 | a proposal passing under a stricter enforcing configuration passes under the weaker one |
| SafeguardTypes.FirstMatchIsUnique | x/governance-safeguards/types/types.go:68-72 | at most one position is the first match |
| SafeguardTypes.FirstRestrictedAt | x/governance-safeguards/types/types.go:68-72 | the search names exactly the entry at the first matching position |
| SafeguardTypes.TextDenialNamesFirstType | x/governance-safeguards/types/types.go:68-71 | with enforcement on, the proposal is denied with the restricted type at the first matching position |
| SafeguardTypes.CleanTextDefersToMessages | x/governance-safeguards/types/types.go:74-81 | with enforcement on and a clean text, the verdict on the proposal is the verdict on its messages |
| SafeguardTypes.UpgradeDenialNamesFirstModule | x/governance-safeguards/types/types.go:87-96 | an upgrade message is denied with the module at the first matching position |
| SafeguardTypes.ParamsDenialNamesFirstType | x/governance-safeguards/types/types.go:99-106 | a params message with no upgrade denial is denied with the proposal type at the first matching position |
| SafeguardKeeper.Keeper.constructor | x/governance-safeguards/keeper/keeper.go:25-37 | the new keeper reports exactly the given configuration and its kill switch |
| SafeguardKeeper.Keeper.GetConfig | x/governance-safeguards/keeper/keeper.go:59-61 | returns exactly the configuration the keeper holds |
| SafeguardKeeper.Keeper.IsLeverageModuleDisabled | x/governance-safeguards/keeper/keeper.go:69-71 | the kill switch of the held configuration; when it is off, the keeper lets every proposal pass |
| SafeguardKeeper.Keeper.ValidateProposal | x/governance-safeguards/keeper/keeper.go:40-56 | the keeper's verdict is the evaluator's verdict under the configuration it holds: pass exactly when enforcement is off or the text is clean and every message passes; a text denial names the first match; the keeper is not changed |
| SafeguardKeeper.Keeper.SetConfig | x/governance-safeguards/keeper/keeper.go:63-66 | as written: the assignment lands on a copy, so the keeper's configuration is unchanged |
| SafeguardKeeper.Keeper.ReplaceConfig | x/governance-safeguards/keeper/keeper.go:63-66 | as documented: afterwards the keeper holds the new configuration, and it has no other state |
| SafeguardKeeper.SetConfigLeavesEnforcementOn | x/governance-safeguards/keeper/keeper.go:63-71 | a default keeper asked to turn enforcement off through `SetConfig` still reports it on |
| SafeguardKeeper.ReplaceConfigTurnsEnforcementOff | x/governance-safeguards/keeper/keeper.go:40-71 | the same change through `ReplaceConfig` turns enforcement off and every proposal then passes |
| SafeguardAnte.AnteErrorText | x/governance-safeguards/ante.go:63-67 | a wrapped invalid request reads as its reason followed by ": invalid request" |
| SafeguardAnte.ProposalOf | x/governance-safeguards/ante.go:55-60 | the proposal built from a submission has identifier 0 and the submission's messages, title and summary verbatim |
| SafeguardAnte.SubmitVerdict | x/governance-safeguards/ante.go:53-71 | a submission passes exactly when the evaluator passes its proposal; a failure is an invalid request whose reason is "governance proposal validation failed: " followed by the evaluator's error text |
| SafeguardAnte.SubmitVerdictPasses | x/governance-safeguards/ante.go:53-71 | a submission passes exactly when enforcement is off, or no restricted type occurs in its lowered title or summary and each of its messages passes |
| SafeguardAnte.MsgVerdict | x/governance-safeguards/ante.go:41-45 | a message is let through exactly when it is not a proposal submission or the evaluator passes its proposal; a rejection is the wrapped evaluator error of a submission |
| SafeguardAnte.FirstFail | x/governance-safeguards/ante.go:40-47 | the search passes exactly when every verdict passes; otherwise it returns the first failing verdict |
| SafeguardAnte.FirstFailInTail | x/governance-safeguards/ante.go:40-47 | when the head verdict passes, the first failure of the tail is the first failure of the list |
| SafeguardAnte.Verdicts | x/governance-safeguards/ante.go:40-47 | one verdict per message, in order: a submission's verdict, or a pass for any other message type |
| SafeguardAnte.Screen | x/governance-safeguards/ante.go:40-47 | the screen passes exactly when every message is let through; otherwise it returns the verdict on the first rejected message |
| SafeguardAnte.FirstFailIsFirstRejected | x/governance-safeguards/ante.go:40-47 | the first failing verdict is the verdict on the first rejected message |
| SafeguardAnte.Decision | x/governance-safeguards/ante.go:28-50 | the transaction passes exactly when enforcement is off or every message is let through; a rejection is an invalid request coming from the first rejected proposal submission |
| SafeguardAnte.NextHandler.Call | x/governance-safeguards/ante.go:36 | the rest of the chain records the transaction it is handed and answers its response |
| SafeguardAnte.Decorator.constructor | x/governance-safeguards/ante.go:16-25 | the decorator holds a fresh copy of the keeper, with the same configuration |
| SafeguardAnte.Decorator.ValidateSubmitProposal | x/governance-safeguards/ante.go:53-71 | the result is the submission's wrapped verdict under the keeper's configuration |
| SafeguardAnte.Decorator.ScreenMessages | x/governance-safeguards/ante.go:40-47 | the loop returns the verdict on the first rejected submission, or a pass when none is rejected |
| SafeguardAnte.Decorator.AnteHandle | x/governance-safeguards/ante.go:28-50 | a rejected transaction returns the decision's error and the rest of the chain is never called; any other transaction is handed to the rest of the chain exactly once and its answer is returned unchanged |
| SafeguardAnte.FirstFailExtends | x/governance-safeguards/ante.go:40-47 | a passing prefix followed by a pass is a passing prefix |
| SafeguardAnte.FirstFailStops | x/governance-safeguards/ante.go:43-45 | a passing prefix followed by a failure decides the whole search: later messages do not matter |
| SafeguardAnte.FirstFailAt | x/governance-safeguards/ante.go:40-47 | the search returns exactly the verdict at the first failing position |
| SafeguardAnte.FirstFailIsUnique | x/governance-safeguards/ante.go:40-47 | at most one position is the first failing one |
| SafeguardAnte.FirstFailAppend | x/governance-safeguards/ante.go:40-47 | searching `a + b` finds the first failure of `a` if it has one, and otherwise that of `b` |
| SafeguardAnte.ScreenAt | x/governance-safeguards/ante.go:40-47 | the first rejected message decides the screen |
| SafeguardAnte.ScreenAppend | x/governance-safeguards/ante.go:40-47 | messages are screened in transaction order: screening `a + b` is screening `a` and, if all of `a` is let through, then `b` |
| SafeguardAnte.Submissions | x/governance-safeguards/ante.go:41-42 | the submissions of a message list are exactly its proposal submissions: every one of them is kept and nothing else is |
| SafeguardAnte.SubmissionsAppend | x/governance-safeguards/ante.go:40-42 | the filter keeps transaction order: the submissions of `a + b` are those of `a` followed by those of `b` |
| SafeguardAnte.OtherMessagesAreSkipped | x/governance-safeguards/ante.go:41-45 | messages of other types never affect the screen: it equals the screen of the submissions alone |
| SafeguardAnte.ShortCutAgreesWithLoop | x/governance-safeguards/ante.go:35-47 | with enforcement off the loop would let every message through, so the short cut changes no verdict |
| SafeguardAnte.RejectionQuotesEvaluator | x/governance-safeguards/ante.go:62-67 | a rejection's text is "governance proposal validation failed: " followed by the evaluator's error text for a submission of the transaction, then ": invalid request" |
| SafeguardAnte.ValidateProposalContent | x/governance-safeguards/ante.go:74-84 | the default configuration's verdict on the bare title and description: it fails exactly when one of them is leverage-related, and then names the first default proposal type, in list order, that occurs in either lowered text |
| SafeguardAnte.ContentDenialIsLeverageRelated | x/governance-safeguards/ante.go:74-84 | under the default configuration a proposal without messages is denied exactly when its title or summary is leverage-related, and the denial names a default proposal type |
| AppGovernanceConfig.ToSafeguardsConfig | app/config/governance_safeguards.go:30-47 | with the master switch off, the default configuration with enforcement off; otherwise the operator's kill switch, and each default list as a prefix followed by exactly the operator's extra entries |
| AppGovernanceConfig.DefaultGovernanceSafeguardsConfig | app/config/governance_safeguards.go:20-27 | both switches on and no extra entries; it translates to exactly the evaluator's default configuration |
| AppGovernanceConfig.MasterSwitchOffAllowsEverything | app/config/governance_safeguards.go:33-36 | with the master switch off, every proposal passes, whatever the other settings say |
| AppGovernanceConfig.TranslatedListsHoldEveryEntry | app/config/governance_safeguards.go:41-44 | every default entry, and every extra entry when enabled, is in the translated lists: nothing is removed |
| AppGovernanceConfig.ExtraEntriesOnlyTighten | app/config/governance_safeguards.go:38-44 | with both switches on, a proposal the translated configuration allows is allowed by the default configuration |
| AppGovernanceConfig.DefaultTextDenialIsKept | app/config/governance_safeguards.go:41 | a text denial under the default configuration is the same denial, naming the same type, after extra types are appended |
| SpotOnly.Code | app/config/spot_only.go:127-131 | each error's registered code is 1, 2 or 3 |
| SpotOnly.CodesAreDistinct | app/config/spot_only.go:127-131 | no two errors share a code |
| SpotOnly.Description | app/config/spot_only.go:128-130 | the registered description of each error, each ending in " in spot-only mode" |
| SpotOnly.DescriptionsAreDistinct | app/config/spot_only.go:128-130 | no two errors share a description |
| SpotOnly.Validate | app/config/spot_only.go:105-124 | passes exactly when spot-only mode is off, or the ceiling is not positive and margin trading and perpetuals are both disabled; each error is returned exactly when it is the first check that applies |
| SpotOnly.DefaultSpotOnlyConfig | app/config/spot_only.go:31-42 | spot-only mode on, a zero ceiling, every switch on, the default chain identity and description; it passes `Validate` |
| SpotOnly.ValidateIgnoresIdentityAndEnforceSwitch | app/config/spot_only.go:105-124 | the chain identifier, name, description and the enforcement switch never change the verdict |
| SpotOnly.TighteningKeepsValid | app/config/spot_only.go:105-124 | a valid configuration stays valid when its ceiling is lowered or a switch is turned on |
| SpotOnly.LeverageIsReportedFirst | app/config/spot_only.go:108-110 | with spot-only mode on and a positive ceiling, the leverage error (code 1) is reported whatever the switches say |
| SafeguardScenarios.PoolParametersProposalIsAllowed | x/governance-safeguards/types/types_test.go:21-32 | "Update Pool Parameters" with the summary "improves efficiency" passes the default configuration |
| SafeguardScenarios.RestrictedTitleIsDenied | x/governance-safeguards/types/types_test.go:34-46 | "Enable Perpetual Trading" is denied, and the error names "perpetual", whatever the summary |
| SafeguardScenarios.CleanProposalIsAllowed | x/governance-safeguards/types/types.go:64-82 | a message-free proposal whose lowered title and summary contain none of the leading character pairs of the default proposal types passes the default configuration |
| SafeguardScenarios.MarginInSummaryIsDenied | x/governance-safeguards/types/types.go:65-71 | with a lowered title and summary free of "pe" and "margin" in the lowered summary, the default configuration denies naming "margin", the first default type that can occur |
| SafeguardScenarios.RestrictedSummaryIsDenied | x/governance-safeguards/types/types_test.go:48-60 | "Update Trading Features" with a summary mentioning margin trading is denied, and the error names "margin" |
| SafeguardScenarios.DisabledSafeguardsAllow | x/governance-safeguards/types/types_test.go:62-77 | with the kill switch off, the perpetual proposal passes |
| SafeguardScenarios.UpperCaseTitleIsDenied | x/governance-safeguards/types/types_test.go:102-123 | "Enable PERPETUAL trading" is denied |
| SafeguardScenarios.CapitalisedTitleIsDenied | x/governance-safeguards/types/types_test.go:102-123 | "Add Margin functionality" is denied |
| SafeguardScenarios.UpperCaseLeverageIsDenied | x/governance-safeguards/types/types_test.go:102-123 | "Update LEVERAGE settings" is denied |
| SafeguardScenarios.CapitalisedFuturesIsDenied | x/governance-safeguards/types/types_test.go:102-123 | "Enable Futures Trading" is denied |
| SafeguardScenarios.LeverageInUpgradeIsDenied | x/governance-safeguards/types/types.go:87-96 | an upgrade message whose lowered payload holds "leverage" and neither "pe" nor "ma" is denied naming "leverage", the first default module that can occur |
| SafeguardScenarios.UpgradeMessageIsDenied | x/governance-safeguards/types/types.go:87-96 | an upgrade message whose payload installs leverage is denied, naming the module "leverage" |
| SafeguardScenarios.ParamsMessageIsDenied | x/governance-safeguards/types/types.go:99-106 | a parameter-change message whose payload mentions margin is denied, naming "margin" |
| SafeguardScenarios.UpdateParamsMessageIsNotScreened | x/governance-safeguards/types/types.go:87-108 | a `MsgUpdateParams` message passes whatever its payload, because the type-URL test is case-sensitive |
| SafeguardScenarios.UpgradeProposalIsDenied | x/governance-safeguards/types/types.go:74-79 | a proposal with a clean text is denied by its upgrade message |
| SafeguardScenarios.FuturesIsLeverageRelated | x/governance-safeguards/types/types_test.go:79-99 | "Enable futures trading" is leverage-related |
| SafeguardScenarios.DerivativesIsLeverageRelated | x/governance-safeguards/types/types_test.go:79-99 | "Add derivatives support" is leverage-related |
| SafeguardScenarios.PoolParametersAreNotLeverageRelated | x/governance-safeguards/types/types_test.go:79-99 | "Update pool parameters" is not leverage-related |
| SafeguardScenarios.ProposalContentExamples | x/governance-safeguards/ante_test.go:131-168 | the content check passes "Update Pool Parameters" / "This proposal updates pool parameters", fails "Enable Perpetual Trading" / "Valid description", and fails "Valid title" / "This proposal adds margin trading" |
| SafeguardScenarios.DefaultDecorator | x/governance-safeguards/ante_test.go:24-27 | a decorator over a keeper built with the default configuration holds the default configuration |
| SafeguardScenarios.AllowedTxPasses | x/governance-safeguards/ante_test.go:18-52 | a transaction carrying one pool-parameters submission is let through to the rest of the chain |
| SafeguardScenarios.RestrictedProposalIsRejected | x/governance-safeguards/ante_test.go:54-89 | a transaction carrying a perpetual submission is rejected with the wrapped "perpetual" error and the rest of the chain is never called |
| SafeguardScenarios.RestrictedTxIsRejected | x/governance-safeguards/ante_test.go:54-89 | the decision on that transaction is the wrapped "perpetual" error |
| SafeguardScenarios.DisabledSafeguardsReachNext | x/governance-safeguards/ante_test.go:91-129 | with enforcement off, the same submission reaches the rest of the chain exactly once |
| SafeguardScenarios.LegacySubmissionReachesNext | x/governance-safeguards/ante.go:40-48 | with enforcement on, a transaction holding a gov v1beta1 submission and an authz `MsgExec` is not screened and reaches the rest of the chain exactly once |
| SafeguardScenarios.ChainErrorIsPassedBack | x/governance-safeguards/ante.go:49 | an error from the rest of the chain comes back unchanged |

## Left out

- Logging: the keeper's info and error log calls only have side effects, so `Keeper.ValidateProposal` is modelled without them.
- The keeper's codec, store key and logger fields, and `Logger()`: nothing in the core reads them.
- `sdk.Context`, the `simulate` flag and the returned context: they are passed through untouched. The rest of the chain is the abstract `NextHandler`, which records the transactions it is handed in ghost state and answers a fixed response.
- Protobuf decoding: a transaction is a sequence of messages that are either gov v1 proposal submissions or of another type; `OtherMsg` also stands for gov v1beta1 submissions and for submissions nested in an authz `MsgExec`, which the decorator does not look into. A message packed in an `Any` is its type URL and its payload. `value` is the text the payload's UTF-8 bytes encode, one character per code point, as titles and summaries are; byte sequences that are not valid UTF-8 are not modelled.
- Unicode case mapping: `strings.ToLower` is modelled on ASCII letters only; every other character is left as it is. Go also lowers non-ASCII letters, so the model differs from Go on such text. A non-ASCII upper-case letter such as "É" is not lowered, so an entry holding one still matches the same spelling. Go lowers U+0130 to "i" and U+212A to "k", so Go denies "MARGİN" while the model lets it through.
- `osmomath.Dec`: the leverage ceiling is an integer standing for the scaled decimal, and only its sign is tested.
- Error construction: `fmt.Errorf` and the registered errors are datatype values with their texts; `sdkerrors.Wrapf` is modelled only as far as its reason and the ": invalid request" suffix.
- `SpotOnlyGenesisParams`, `SpotOnlyGenesisConfig`, `DeploymentConfig`, `DefaultDeploymentConfig` and `app/config.go`: plain data with no logic.
- Concurrency: replacing the configuration while proposals are evaluated is not modelled; the code has no synchronisation.
- SafeguardAnte.Decorator.AnteHandle: the loop over the messages sits in its own method, `ScreenMessages`, which `AnteHandle` calls; the behaviour is the same.
- SafeguardScenarios.PoolParametersProposalIsAllowed: the evaluator test's summary "This proposal updates the pool parameters for better efficiency" is replaced by "improves efficiency", because long literal texts make the substring facts too expensive to establish. The lemma holds for every proposal identifier.
- SafeguardScenarios.RestrictedSummaryIsDenied: the test's summary "This proposal adds margin trading capabilities to the DEX" is replaced by "Adds margin trading", for the same reason. The lemma holds for every proposal identifier.
- The codespace "spot-only" under which the three spot-only errors are registered: it is the same for all three, so the model tells them apart by code and description.
- SafeguardScenarios.AllowedTxPasses: the decorator test's summary "This proposal updates pool parameters for better efficiency" is replaced by "improves efficiency", for the same reason. The test is stated about the decision, which `AnteHandle`'s contract turns into one call of the rest of the chain; there is no method running that scenario.

## Findings

| source | as written | input that shows it | evidently intended | confidence | as-written member | corrected member |
|---|---|---|---|---|---|---|
| x/governance-safeguards/keeper/keeper.go:63-66 | `SetConfig` has a value receiver, so the assignment changes a copy and the caller's keeper keeps its old configuration | a keeper built with the default configuration, then `SetConfig` with enforcement off: `IsLeverageModuleDisabled()` still reports true | the keeper holds the new configuration, as the comment on line 63 says | not executed | SafeguardKeeper.SetConfigLeavesEnforcementOn | SafeguardKeeper.ReplaceConfigTurnsEnforcementOff |
