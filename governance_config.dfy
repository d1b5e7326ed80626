/**
 * The application-level governance-safeguards settings and their translation
 * into the evaluator's configuration: the default lists always come first,
 * and the operator's extra entries are appended behind them.
 */
module AppGovernanceConfig {
  import opened Wrappers
  import opened SafeguardTypes

  /** The operator's settings: a master switch, the kill switch and extra list entries. */
  datatype GovernanceSafeguardsConfig = GovernanceSafeguardsConfig(
    enabled: bool,
    disableLeverageModules: bool,
    additionalRestrictedTypes: seq<string>,
    additionalRestrictedModules: seq<string>)

  /**
   * `ToSafeguardsConfig`: with the master switch off, the default lists with
   * enforcement off; otherwise the operator's kill switch, and each default
   * list followed by the operator's extra entries.
   */
  function ToSafeguardsConfig(g: GovernanceSafeguardsConfig): (c: Config)
    ensures !g.enabled ==> c == DefaultConfig().(disableLeverageModules := false)
    ensures g.enabled ==> c.disableLeverageModules == g.disableLeverageModules
    ensures |c.restrictedProposalTypes| >= |LeverageRestrictedProposalTypes|
    ensures |c.restrictedModules| >= |LeverageRestrictedModules|
    ensures c.restrictedProposalTypes[..|LeverageRestrictedProposalTypes|] == LeverageRestrictedProposalTypes
    ensures c.restrictedModules[..|LeverageRestrictedModules|] == LeverageRestrictedModules
    ensures c.restrictedProposalTypes[|LeverageRestrictedProposalTypes|..]
            == if g.enabled then g.additionalRestrictedTypes else []
    ensures c.restrictedModules[|LeverageRestrictedModules|..]
            == if g.enabled then g.additionalRestrictedModules else []
  {
    var config := DefaultConfig();
    if !g.enabled then
      config.(disableLeverageModules := false)
    else
      config.(disableLeverageModules := g.disableLeverageModules,
              restrictedProposalTypes := config.restrictedProposalTypes + g.additionalRestrictedTypes,
              restrictedModules := config.restrictedModules + g.additionalRestrictedModules)
  }

  /**
   * `DefaultGovernanceSafeguardsConfig`: both switches on, no extra entries;
   * it translates to exactly the evaluator's default configuration.
   */
  function DefaultGovernanceSafeguardsConfig(): (g: GovernanceSafeguardsConfig)
    ensures g.enabled && g.disableLeverageModules
    ensures g.additionalRestrictedTypes == [] && g.additionalRestrictedModules == []
    ensures ToSafeguardsConfig(g) == DefaultConfig()
  {
    var g := GovernanceSafeguardsConfig(true, true, [], []);
    assert LeverageRestrictedProposalTypes + [] == LeverageRestrictedProposalTypes;
    assert LeverageRestrictedModules + [] == LeverageRestrictedModules;
    g
  }

  /** With the master switch off, every proposal passes, whatever the other settings say. */
  lemma MasterSwitchOffAllowsEverything(g: GovernanceSafeguardsConfig, p: Proposal)
    requires !g.enabled
    ensures ValidateProposal(ToSafeguardsConfig(g), p) == Pass
  {
  }

  /** Every default entry, and every extra entry when enabled, is in the translated lists. */
  lemma TranslatedListsHoldEveryEntry(g: GovernanceSafeguardsConfig)
    ensures forall k :: k in LeverageRestrictedProposalTypes ==> k in ToSafeguardsConfig(g).restrictedProposalTypes
    ensures forall k :: k in LeverageRestrictedModules ==> k in ToSafeguardsConfig(g).restrictedModules
    ensures g.enabled ==> forall k :: k in g.additionalRestrictedTypes ==> k in ToSafeguardsConfig(g).restrictedProposalTypes
    ensures g.enabled ==> forall k :: k in g.additionalRestrictedModules ==> k in ToSafeguardsConfig(g).restrictedModules
  {
    var c := ToSafeguardsConfig(g);
    if g.enabled {
      assert c.restrictedProposalTypes == LeverageRestrictedProposalTypes + g.additionalRestrictedTypes;
      assert c.restrictedModules == LeverageRestrictedModules + g.additionalRestrictedModules;
    } else {
      assert c == DefaultConfig().(disableLeverageModules := false);
    }
  }

  /**
   * Extra entries only tighten: with both switches on, a proposal the
   * translated configuration allows is allowed by the default configuration.
   */
  lemma ExtraEntriesOnlyTighten(g: GovernanceSafeguardsConfig, p: Proposal)
    requires g.enabled && g.disableLeverageModules
    requires ValidateProposal(ToSafeguardsConfig(g), p).Pass?
    ensures ValidateProposal(DefaultConfig(), p).Pass?
  {
    TranslatedListsHoldEveryEntry(g);
    StricterConfigAllowsLess(ToSafeguardsConfig(g), DefaultConfig(), p);
  }

  /**
   * Because the extra entries come behind the defaults, a proposal that the
   * default configuration denies by its text is denied with the same keyword
   * once extra types are added.
   */
  lemma DefaultTextDenialIsKept(g: GovernanceSafeguardsConfig, p: Proposal, k: string)
    requires g.enabled && g.disableLeverageModules
    requires ValidateProposal(DefaultConfig(), p) == Fail(RestrictedContent(k))
    ensures ValidateProposal(ToSafeguardsConfig(g), p) == Fail(RestrictedContent(k))
  {
    var c := ToSafeguardsConfig(g);
    assert c.restrictedProposalTypes == LeverageRestrictedProposalTypes + g.additionalRestrictedTypes;
    FirstRestrictedAppend(LeverageRestrictedProposalTypes, g.additionalRestrictedTypes, ScreenedText(p));
  }
}
