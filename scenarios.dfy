/**
 * Concrete cases of the evaluator and the decorator, taken from their unit
 * tests, proved for the default configuration.
 */
module SafeguardScenarios {
  import opened Wrappers
  import opened GoStrings
  import opened SafeguardTypes
  import opened SafeguardKeeper
  import opened SafeguardAnte

  /** The characters `a` and `b` stand next to each other somewhere in `s`. */
  ghost predicate HasPair(s: string, a: char, b: char) {
    exists i :: 0 <= i < |s| - 1 && s[i] == a && s[i + 1] == b
  }

  /** No entry whose first two characters never stand together in a text occurs in it. */
  lemma NoLeadingPairNoneOccur(keywords: seq<string>, texts: seq<string>)
    requires forall k :: k in keywords ==> |k| >= 2
    requires forall k, t :: k in keywords && t in texts ==> !HasPair(t, k[0], k[1])
    ensures NoneOccur(keywords, texts)
  {
    forall i, t | 0 <= i < |keywords| && t in texts
      ensures !Contains(t, keywords[i])
    {
      assert keywords[i] in keywords;
      AbsentByLeadingPair(t, keywords[i]);
    }
  }

  /**
   * None of the leading pairs of the default restricted proposal types and
   * modules ("pe", "ma", "le", "fu", "de", "bo", "co") stands in `s`.
   */
  ghost predicate NoDefaultLeadingPair(s: string) {
    NoLeadingPairOfFirstFour(s) && NoLeadingPairOfRest(s)
  }

  ghost predicate NoLeadingPairOfFirstFour(s: string) {
    !HasPair(s, 'p', 'e') && !HasPair(s, 'm', 'a') && !HasPair(s, 'l', 'e') && !HasPair(s, 'f', 'u')
  }

  ghost predicate NoLeadingPairOfRest(s: string) {
    !HasPair(s, 'd', 'e') && !HasPair(s, 'b', 'o') && !HasPair(s, 'c', 'o')
  }

  /** A text free of those pairs contains no default restricted proposal type. */
  lemma NoDefaultTypeOccurs(texts: seq<string>)
    requires forall t :: t in texts ==> NoDefaultLeadingPair(t)
    ensures NoneOccur(LeverageRestrictedProposalTypes, texts)
  {
    NoLeadingPairNoneOccur(LeverageRestrictedProposalTypes, texts);
  }

  /*
   * Facts about the literal texts of the tests. The solver settles each one
   * character by character, and several of them in one proof cost far more
   * than each alone, so they are proved in small pieces and gathered by one
   * lemma per proposal.
   */

  /** The pool-parameters title and summary lower to texts free of every default leading pair. */
  lemma PoolParametersTextIsClean()
    ensures ToLower("Update Pool Parameters") == "update pool parameters"
    ensures ToLower("improves efficiency") == "improves efficiency"
    ensures NoDefaultLeadingPair("update pool parameters")
    ensures NoDefaultLeadingPair("improves efficiency")
  {
    PoolTitleLowered();
    PoolTitleLacksFirstFour();
    PoolTitleLacksRest();
    PoolSummaryLowered();
    PoolSummaryLacksFirstFour();
    PoolSummaryLacksRest();
  }

  lemma PoolTitleLowered()
    ensures ToLower("Update Pool Parameters") == "update pool parameters"
  {
  }

  lemma PoolTitleLacksFirstFour()
    ensures NoLeadingPairOfFirstFour("update pool parameters")
  {
  }

  lemma PoolTitleLacksRest()
    ensures NoLeadingPairOfRest("update pool parameters")
  {
  }

  lemma PoolSummaryLowered()
    ensures ToLower("improves efficiency") == "improves efficiency"
  {
  }

  lemma PoolSummaryLacksFirstFour()
    ensures NoLeadingPairOfFirstFour("improves efficiency")
  {
  }

  lemma PoolSummaryLacksRest()
    ensures NoLeadingPairOfRest("improves efficiency")
  {
  }

  /** "Update Trading Features" lowers to a text without "pe". */
  lemma TradingTitleFacts()
    ensures ToLower("Update Trading Features") == "update trading features"
    ensures !HasPair("update trading features", 'p', 'e')
  {
    TradingTitleLowered();
    TradingTitleLacksPe();
  }

  lemma TradingTitleLowered()
    ensures ToLower("Update Trading Features") == "update trading features"
  {
    ToLowerConcat("Update ", "Trading Features");
    UpdateLowered();
    TradingFeaturesLowered();
  }

  lemma UpdateLowered()
    ensures ToLower("Update ") == "update "
  {
  }

  lemma TradingFeaturesLowered()
    ensures ToLower("Trading Features") == "trading features"
  {
  }

  lemma TradingTitleLacksPe()
    ensures !HasPair("update trading features", 'p', 'e')
  {
  }

  /** "Adds margin trading" lowers to a text without "pe" that holds "margin" at 5. */
  lemma AddsMarginFacts()
    ensures ToLower("Adds margin trading") == "adds margin trading"
    ensures !HasPair("adds margin trading", 'p', 'e')
    ensures OccursAt("adds margin trading", "margin", 5)
  {
  }

  /** "Valid title" lowers to a text without "pe". */
  lemma ValidTitleFacts()
    ensures ToLower("Valid title") == "valid title"
    ensures !HasPair("valid title", 'p', 'e')
  {
  }

  /** "This proposal adds margin trading" lowers to a text without "pe" that holds "margin" at 19. */
  lemma ProposalAddsMarginFacts()
    ensures ToLower("This proposal adds margin trading") == "this proposal adds margin trading"
    ensures !HasPair("this proposal adds margin trading", 'p', 'e')
    ensures OccursAt("this proposal adds margin trading", "margin", 19)
  {
    ProposalAddsMarginLowered();
  }

  lemma ProposalAddsMarginLowered()
    ensures ToLower("This proposal adds margin trading") == "this proposal adds margin trading"
  {
    ToLowerConcat("This proposal ", "adds margin trading");
    ThisProposalLowered();
    AddsMarginTradingLowered();
  }

  lemma AddsMarginTradingLowered()
    ensures ToLower("adds margin trading") == "adds margin trading"
  {
  }

  /** "This proposal updates pool parameters" is already lower-case and free of every default leading pair. */
  lemma UpdatesPoolParametersIsClean()
    ensures ToLower("This proposal updates pool parameters") == "this proposal updates pool parameters"
    ensures NoDefaultLeadingPair("this proposal updates pool parameters")
  {
    UpdatesPoolParametersLowered();
    UpdatesPoolParametersLacksFirstFour();
    UpdatesPoolParametersLacksRest();
  }

  lemma UpdatesPoolParametersLowered()
    ensures ToLower("This proposal updates pool parameters") == "this proposal updates pool parameters"
  {
    ToLowerConcat("This proposal ", "updates pool parameters");
    ThisProposalLowered();
    UpdatesPoolParametersWordsLowered();
  }

  lemma ThisProposalLowered()
    ensures ToLower("This proposal ") == "this proposal "
  {
  }

  lemma UpdatesPoolParametersWordsLowered()
    ensures ToLower("updates pool parameters") == "updates pool parameters"
  {
  }

  lemma UpdatesPoolParametersLacksFirstFour()
    ensures NoLeadingPairOfFirstFour("this proposal updates pool parameters")
  {
    UpdatesPoolParametersLacksPeMa();
    UpdatesPoolParametersLacksLeFu();
  }

  lemma UpdatesPoolParametersLacksPeMa()
    ensures !HasPair("this proposal updates pool parameters", 'p', 'e')
    ensures !HasPair("this proposal updates pool parameters", 'm', 'a')
  {
  }

  lemma UpdatesPoolParametersLacksLeFu()
    ensures !HasPair("this proposal updates pool parameters", 'l', 'e')
    ensures !HasPair("this proposal updates pool parameters", 'f', 'u')
  {
  }

  lemma UpdatesPoolParametersLacksRest()
    ensures NoLeadingPairOfRest("this proposal updates pool parameters")
  {
    UpdatesPoolParametersLacksDeBo();
    UpdatesPoolParametersLacksCo();
  }

  lemma UpdatesPoolParametersLacksDeBo()
    ensures !HasPair("this proposal updates pool parameters", 'd', 'e')
    ensures !HasPair("this proposal updates pool parameters", 'b', 'o')
  {
  }

  lemma UpdatesPoolParametersLacksCo()
    ensures !HasPair("this proposal updates pool parameters", 'c', 'o')
  {
  }

  /**
   * A message-free proposal whose lowered title and summary hold none of the
   * default leading pairs passes the default configuration.
   */
  lemma CleanProposalIsAllowed(id: nat, title: string, summary: string)
    requires NoDefaultLeadingPair(ToLower(title)) && NoDefaultLeadingPair(ToLower(summary))
    ensures ValidateProposal(DefaultConfig(), Proposal(id, [], title, summary)) == Pass
  {
    var p := Proposal(id, [], title, summary);
    NoDefaultTypeOccurs(ScreenedText(p));
    CleanTextDefersToMessages(DefaultConfig(), p);
  }

  /** The unit test's allowed case, with another summary: "Update Pool Parameters" passes. */
  lemma PoolParametersProposalIsAllowed(id: nat)
    ensures ValidateProposal(DefaultConfig(),
      Proposal(id, [], "Update Pool Parameters", "improves efficiency")) == Pass
  {
    PoolParametersTextIsClean();
    CleanProposalIsAllowed(id, "Update Pool Parameters", "improves efficiency");
  }

  /** "Enable Perpetual Trading" is denied, and the error names "perpetual". */
  lemma RestrictedTitleIsDenied(id: nat, summary: string)
    ensures ValidateProposal(DefaultConfig(), Proposal(id, [], "Enable Perpetual Trading", summary))
      == Fail(RestrictedContent("perpetual"))
  {
    var p := Proposal(id, [], "Enable Perpetual Trading", summary);
    assert ToLower(p.title)[7..16] == "perpetual";
    assert OccursAt(ToLower(p.title), "perpetual", 7);
    assert ToLower(p.title) in ScreenedText(p);
    assert IsFirstMatch(LeverageRestrictedProposalTypes, ScreenedText(p), 0);
    TextDenialNamesFirstType(DefaultConfig(), p, 0);
  }

  /**
   * A proposal whose lowered title and summary hold no "pe", and whose lowered
   * summary holds "margin", is denied naming "margin": "perpetual" is the only
   * default type listed before it.
   */
  lemma MarginInSummaryIsDenied(id: nat, title: string, summary: string, at: nat)
    requires !HasPair(ToLower(title), 'p', 'e') && !HasPair(ToLower(summary), 'p', 'e')
    requires OccursAt(ToLower(summary), "margin", at)
    ensures ValidateProposal(DefaultConfig(), Proposal(id, [], title, summary)) == Fail(RestrictedContent("margin"))
  {
    var p := Proposal(id, [], title, summary);
    var texts := ScreenedText(p);
    NoLeadingPairNoneOccur(["perpetual"], texts);
    assert texts[1] in texts && Contains(texts[1], "margin");
    assert IsFirstMatch(LeverageRestrictedProposalTypes, texts, 1);
    TextDenialNamesFirstType(DefaultConfig(), p, 1);
  }

  /** The unit test's restricted summary, shortened: "Adds margin trading" is denied naming "margin". */
  lemma RestrictedSummaryIsDenied(id: nat)
    ensures ValidateProposal(DefaultConfig(), Proposal(id, [], "Update Trading Features", "Adds margin trading"))
      == Fail(RestrictedContent("margin"))
  {
    TradingTitleFacts();
    AddsMarginFacts();
    MarginInSummaryIsDenied(id, "Update Trading Features", "Adds margin trading", 5);
  }

  /** With the kill switch off, the same restricted proposal is allowed. */
  lemma DisabledSafeguardsAllow()
    ensures ValidateProposal(DefaultConfig().(disableLeverageModules := false),
      Proposal(1, [], "Enable Perpetual Trading", "This proposal enables perpetual trading functionality"))
      == Pass
  {
  }

  /** Upper-case and mixed-case spellings in the title are denied like lower-case ones. */
  lemma UpperCaseTitleIsDenied()
    ensures ValidateProposal(DefaultConfig(), Proposal(1, [], "Enable PERPETUAL trading", "Test proposal")).Fail?
  {
    assert ToLower("PERPETUAL") == LeverageRestrictedProposalTypes[0];
    SpellingDenied("Enable PERPETUAL trading", "PERPETUAL", 7);
  }

  lemma CapitalisedTitleIsDenied()
    ensures ValidateProposal(DefaultConfig(), Proposal(1, [], "Add Margin functionality", "Test proposal")).Fail?
  {
    assert ToLower("Margin") == LeverageRestrictedProposalTypes[1];
    SpellingDenied("Add Margin functionality", "Margin", 4);
  }

  lemma UpperCaseLeverageIsDenied()
    ensures ValidateProposal(DefaultConfig(), Proposal(1, [], "Update LEVERAGE settings", "Test proposal")).Fail?
  {
    assert ToLower("LEVERAGE") == LeverageRestrictedProposalTypes[2];
    SpellingDenied("Update LEVERAGE settings", "LEVERAGE", 7);
  }

  lemma CapitalisedFuturesIsDenied()
    ensures ValidateProposal(DefaultConfig(), Proposal(1, [], "Enable Futures Trading", "Test proposal")).Fail?
  {
    assert ToLower("Futures") == LeverageRestrictedProposalTypes[3];
    SpellingDenied("Enable Futures Trading", "Futures", 7);
  }

  /** A title holding, at position `at`, a spelling `v` of a default restricted type is denied. */
  lemma SpellingDenied(title: string, v: string, at: nat)
    requires at + |v| <= |title| && title[at..at + |v|] == v
    requires ToLower(v) in LeverageRestrictedProposalTypes
    ensures ValidateProposal(DefaultConfig(), Proposal(1, [], title, "Test proposal")).Fail?
  {
    assert OccursAt(title, v, at);
    CaseVariantDenies(DefaultConfig(), Proposal(1, [], title, "Test proposal"), v);
  }

  const UpgradeUrl := "/cosmos." + "upgrade" + ".v1beta1.MsgSoftwareUpgrade"
  const ParamsUrl := "/cosmos." + "params" + ".v1beta1.ParameterChangeProposal"
  const UpdateParamsUrl := "/cosmos.bank.v1beta1.MsgUpdateParams"

  lemma UpgradeUrlIsUpgrade()
    ensures Contains(UpgradeUrl, "upgrade")
  {
    OccursBetween("/cosmos.", "upgrade", ".v1beta1.MsgSoftwareUpgrade");
  }

  lemma ParamsUrlIsParams()
    ensures Contains(ParamsUrl, "params")
  {
    OccursBetween("/cosmos.", "params", ".v1beta1.ParameterChangeProposal");
  }

  lemma ParamsUrlLacksUp()
    ensures !HasPair(ParamsUrl, 'u', 'p')
  {
  }

  lemma UpdateParamsUrlLacksUp()
    ensures !HasPair(UpdateParamsUrl, 'u', 'p')
  {
  }

  lemma UpdateParamsUrlLacksPa()
    ensures !HasPair(UpdateParamsUrl, 'p', 'a')
  {
  }

  lemma InstallLeverageIsLower()
    ensures ToLower("install leverage") == "install leverage"
  {
  }

  lemma InstallLeverageLacksPairs()
    ensures !HasPair("install leverage", 'p', 'e') && !HasPair("install leverage", 'm', 'a')
  {
  }

  lemma InstallLeverageHoldsLeverage()
    ensures OccursAt("install leverage", "leverage", 8)
  {
    assert "install leverage"[8..16] == "leverage";
  }

  lemma MarginIsLower()
    ensures ToLower("margin") == "margin"
  {
  }

  /** A restricted module in an upgrade message's payload denies the message. */
  lemma UpgradeMessageIsDenied(msg: Any)
    requires msg == Any(UpgradeUrl, "install leverage")
    ensures ValidateMessage(DefaultConfig(), msg) == Fail(RestrictedUpgradeModule("leverage"))
  {
    UpgradeUrlIsUpgrade();
    InstallLeverageIsLower();
    InstallLeverageLacksPairs();
    InstallLeverageHoldsLeverage();
    LeverageInUpgradeIsDenied(msg, 8);
  }

  /**
   * An upgrade message whose lowered payload holds neither "pe" nor "ma", and
   * holds "leverage", is denied naming "leverage": "perpetuals" and "margins"
   * are the only default modules listed before it.
   */
  lemma LeverageInUpgradeIsDenied(msg: Any, at: nat)
    requires Contains(msg.typeUrl, "upgrade")
    requires !HasPair(ToLower(msg.value), 'p', 'e') && !HasPair(ToLower(msg.value), 'm', 'a')
    requires OccursAt(ToLower(msg.value), "leverage", at)
    ensures ValidateMessage(DefaultConfig(), msg) == Fail(RestrictedUpgradeModule("leverage"))
  {
    var payload := ScreenedPayload(msg);
    NoLeadingPairNoneOccur(["perpetuals", "margins"], payload);
    assert payload[0] in payload && Contains(payload[0], "leverage");
    assert IsFirstMatch(LeverageRestrictedModules, payload, 2);
    UpgradeDenialNamesFirstModule(DefaultConfig(), msg, 2);
  }

  /** A restricted proposal type in a params message's payload denies the message. */
  lemma ParamsMessageIsDenied(msg: Any)
    requires msg == Any(ParamsUrl, "margin")
    ensures ValidateMessage(DefaultConfig(), msg) == Fail(RestrictedParamsContent("margin"))
  {
    ParamsUrlIsParams();
    ParamsUrlLacksUp();
    AbsentByLeadingPair(msg.typeUrl, "upgrade");
    MarginIsLower();
    var payload := ScreenedPayload(msg);
    assert payload == ["margin"];
    assert !HasPair("margin", 'p', 'e');
    NoLeadingPairNoneOccur(["perpetual"], payload);
    assert OccursAt("margin", "margin", 0);
    assert "margin" in payload;
    assert IsFirstMatch(LeverageRestrictedProposalTypes, payload, 1);
    ParamsDenialNamesFirstType(DefaultConfig(), msg, 1);
  }

  /**
   * The type URL is matched case-sensitively, so a `MsgUpdateParams` message,
   * whose URL spells "Params", is never screened, whatever its payload.
   */
  lemma UpdateParamsMessageIsNotScreened(c: Config, payload: string)
    ensures ValidateMessage(c, Any(UpdateParamsUrl, payload)) == Pass
  {
    UpdateParamsUrlLacksUp();
    UpdateParamsUrlLacksPa();
    AbsentByLeadingPair(UpdateParamsUrl, "upgrade");
    AbsentByLeadingPair(UpdateParamsUrl, "params");
  }

  /** A proposal with a clean title and summary is denied by its upgrade message. */
  lemma UpgradeProposalIsDenied()
    ensures ValidateProposal(DefaultConfig(),
      Proposal(1, [Any(UpgradeUrl, "install leverage")], "Update Pool Parameters", "improves efficiency"))
      == Fail(RestrictedUpgradeModule("leverage"))
  {
    var p := Proposal(1, [Any(UpgradeUrl, "install leverage")], "Update Pool Parameters", "improves efficiency");
    PoolParametersTextIsClean();
    NoDefaultTypeOccurs(ScreenedText(p));
    CleanTextDefersToMessages(DefaultConfig(), p);
    UpgradeMessageIsDenied(p.messages[0]);
    assert ValidateMessages(DefaultConfig(), p.messages) == ValidateMessage(DefaultConfig(), p.messages[0]);
  }

  /** `IsLeverageRelated` on texts that mention a default restricted proposal type. */
  lemma FuturesIsLeverageRelated()
    ensures IsLeverageRelated("Enable futures trading")
  {
    assert ToLower("Enable futures trading") == "enable " + "futures" + " trading";
    OccursBetween("enable ", "futures", " trading");
    assert LeverageRestrictedProposalTypes[3] == "futures";
  }

  lemma DerivativesIsLeverageRelated()
    ensures IsLeverageRelated("Add derivatives support")
  {
    AddDerivativesSupportLowered();
    OccursBetween("add ", "derivatives", " support");
    assert LeverageRestrictedProposalTypes[4] == "derivatives";
  }

  /** "Add derivatives support" lowers to "add " + "derivatives" + " support". */
  lemma AddDerivativesSupportLowered()
    ensures ToLower("Add derivatives support") == "add " + "derivatives" + " support"
  {
    ToLowerConcat("Add ", "derivatives support");
    AddLowered();
    DerivativesSupportLowered();
    assert "derivatives support" == "derivatives" + " support";
  }

  lemma AddLowered()
    ensures ToLower("Add ") == "add "
  {
  }

  lemma DerivativesSupportLowered()
    ensures ToLower("derivatives support") == "derivatives support"
  {
  }

  /** `IsLeverageRelated` is false on "Update pool parameters". */
  lemma PoolParametersAreNotLeverageRelated()
    ensures !IsLeverageRelated("Update pool parameters")
  {
    assert ToLower("Update pool parameters") == "update pool parameters";
    PoolParametersTextIsClean();
    NoDefaultTypeOccurs(["update pool parameters"]);
    forall i | 0 <= i < |LeverageRestrictedProposalTypes|
      ensures !Contains("update pool parameters", LeverageRestrictedProposalTypes[i])
    {
      assert "update pool parameters" in ["update pool parameters"];
    }
  }

  /**
   * `ValidateProposalContent` on the unit test's three cases: the allowed
   * pair, a restricted title and a restricted description.
   */
  lemma ProposalContentExamples()
    ensures ValidateProposalContent("Update Pool Parameters", "This proposal updates pool parameters") == Pass
    ensures ValidateProposalContent("Enable Perpetual Trading", "Valid description").Fail?
    ensures ValidateProposalContent("Valid title", "This proposal adds margin trading").Fail?
  {
    PoolTitleLowered();
    PoolTitleLacksFirstFour();
    PoolTitleLacksRest();
    UpdatesPoolParametersIsClean();
    CleanProposalIsAllowed(0, "Update Pool Parameters", "This proposal updates pool parameters");
    RestrictedTitleIsDenied(0, "Valid description");
    ValidTitleFacts();
    ProposalAddsMarginFacts();
    MarginInSummaryIsDenied(0, "Valid title", "This proposal adds margin trading", 19);
  }

  /** The submissions of the decorator's unit tests; the allowed one carries another summary. */
  const PoolParametersSubmission := MsgSubmitProposal([], "Update Pool Parameters", "improves efficiency")
  const PerpetualSubmission :=
    MsgSubmitProposal([], "Enable Perpetual Trading", "This proposal enables perpetual trading functionality")

  /** A decorator over a keeper with the default configuration. */
  method DefaultDecorator() returns (d: Decorator)
    ensures d.keeper.GetConfig() == DefaultConfig()
  {
    var k := new Keeper(DefaultConfig());
    d := new Decorator(k);
  }

  /**
   * The decision on a transaction carrying one allowed submission is `Pass`,
   * so `AnteHandle` hands it to the rest of the chain and returns its answer.
   */
  lemma AllowedTxPasses(tx: Tx)
    requires tx == Tx([SubmitProposal(PoolParametersSubmission)])
    ensures Decision(DefaultConfig(), tx) == Pass
  {
    PoolParametersProposalIsAllowed(0);
    assert MsgVerdict(DefaultConfig(), tx.msgs[0]).Pass?;
  }

  /** A restricted submission is rejected with the wrapped evaluator error and never reaches the chain. */
  method RestrictedProposalIsRejected() returns (err: Outcome<AnteError>, ghost nextCalls: nat)
    ensures err == Fail(InvalidRequest(ValidationFailedPrefix + ErrorText(RestrictedContent("perpetual"))))
    ensures nextCalls == 0
  {
    var d := DefaultDecorator();
    var next := new NextHandler(Pass);
    var tx := Tx([SubmitProposal(PerpetualSubmission)]);
    RestrictedTxIsRejected(tx);
    assert d.keeper.GetConfig() == DefaultConfig();
    err := d.AnteHandle(tx, next);
    nextCalls := |next.calls|;
  }

  /** The decision on a transaction carrying one submission with a restricted title. */
  lemma RestrictedTxIsRejected(tx: Tx)
    requires tx == Tx([SubmitProposal(PerpetualSubmission)])
    ensures Decision(DefaultConfig(), tx)
         == Fail(InvalidRequest(ValidationFailedPrefix + ErrorText(RestrictedContent("perpetual"))))
  {
    RestrictedTitleIsDenied(0, PerpetualSubmission.summary);
    assert IsFirstRejected(DefaultConfig(), tx.msgs, 0);
    ScreenAt(DefaultConfig(), tx.msgs, 0);
  }

  /** With enforcement off, the same restricted submission reaches the chain. */
  method DisabledSafeguardsReachNext() returns (err: Outcome<AnteError>, ghost nextCalls: nat)
    ensures err == Pass && nextCalls == 1
  {
    var k := new Keeper(DefaultConfig().(disableLeverageModules := false));
    var d := new Decorator(k);
    var next := new NextHandler(Pass);
    var tx := Tx([SubmitProposal(PerpetualSubmission)]);
    err := d.AnteHandle(tx, next);
    nextCalls := |next.calls|;
  }

  /**
   * Only the gov v1 `MsgSubmitProposal` is screened: a gov v1beta1 submission,
   * or one wrapped in an authz `MsgExec`, is another message type, so the
   * transaction reaches the rest of the chain with enforcement on.
   */
  method LegacySubmissionReachesNext() returns (err: Outcome<AnteError>, ghost nextCalls: nat)
    ensures err == Pass && nextCalls == 1
  {
    var d := DefaultDecorator();
    var next := new NextHandler(Pass);
    var tx := Tx([OtherMsg("/cosmos.gov.v1beta1.MsgSubmitProposal"), OtherMsg("/cosmos.authz.v1beta1.MsgExec")]);
    err := d.AnteHandle(tx, next);
    nextCalls := |next.calls|;
  }

  /** An error further down the chain comes back unchanged for a transaction with no submission. */
  method ChainErrorIsPassedBack(reason: string) returns (err: Outcome<AnteError>)
    ensures err == Fail(ChainError(reason))
  {
    var d := DefaultDecorator();
    var next := new NextHandler(Fail(ChainError(reason)));
    err := d.AnteHandle(Tx([OtherMsg("/cosmos.bank.v1beta1.MsgSend")]), next);
  }
}
