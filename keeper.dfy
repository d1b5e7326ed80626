/**
 * The governance-safeguards keeper: a holder of the evaluator's configuration
 * that forwards proposals to it. The codec, the store key and the logger it
 * also carries are not modelled.
 */
module SafeguardKeeper {
  import opened Wrappers
  import opened SafeguardTypes

  class Keeper {
    var config: Config

    /** `NewKeeper`: a keeper over the given configuration. */
    constructor (config: Config)
      ensures GetConfig() == config
      ensures IsLeverageModuleDisabled() == config.disableLeverageModules
    {
      this.config := config;
    }

    /** `GetConfig`: the configuration the keeper holds. */
    function GetConfig(): (c: Config)
      reads this
      ensures c == config
    {
      config
    }

    /**
     * `IsLeverageModuleDisabled`: the kill switch of the held configuration;
     * when it is off, the keeper lets every proposal through.
     */
    function IsLeverageModuleDisabled(): (b: bool)
      reads this
      ensures b == GetConfig().disableLeverageModules
      ensures !b ==> forall p :: ValidateProposal(p).Pass?
    {
      config.disableLeverageModules
    }

    /**
     * `Keeper.ValidateProposal`: the verdict of the held configuration on the
     * proposal; a denial names the first restricted proposal type found in
     * the lowered title or summary, or else the first failing message.
     */
    function ValidateProposal(p: Proposal): (r: Outcome<ValidationError>)
      reads this
      ensures r == SafeguardTypes.ValidateProposal(GetConfig(), p)
      ensures r.Pass? <==>
        || !GetConfig().disableLeverageModules
        || (&& NoneOccur(GetConfig().restrictedProposalTypes, ScreenedText(p))
            && forall i :: 0 <= i < |p.messages| ==> ValidateMessage(GetConfig(), p.messages[i]).Pass?)
      ensures r.Fail? && r.error.RestrictedContent? ==>
        NamesFirstMatch(GetConfig().restrictedProposalTypes, ScreenedText(p), r.error.keyword)
    {
      SafeguardTypes.ValidateProposal(config, p)
    }

    /**
     * `SetConfig` as written: its receiver is a copy of the keeper, so the
     * assignment lands on the copy and the keeper keeps its configuration.
     */
    method SetConfig(config: Config)
      ensures GetConfig() == old(GetConfig())
    {
      var receiver := new Keeper(this.config);
      receiver.config := config;
    }

    /** The evidently intended `SetConfig`: the keeper holds the new configuration. */
    method ReplaceConfig(config: Config)
      modifies this
      ensures GetConfig() == config
    {
      this.config := config;
    }
  }

  /**
   * Turning enforcement off through `SetConfig` has no effect: a keeper built
   * over the default configuration still reports enforcement on.
   */
  method SetConfigLeavesEnforcementOn() returns (disabled: bool)
    ensures disabled
  {
    var k := new Keeper(DefaultConfig());
    k.SetConfig(Config(false, [], []));
    disabled := k.IsLeverageModuleDisabled();
  }

  /** Through `ReplaceConfig` the same change does take effect, and every proposal then passes. */
  method ReplaceConfigTurnsEnforcementOff(p: Proposal) returns (disabled: bool, verdict: Outcome<ValidationError>)
    ensures !disabled
    ensures verdict == Pass
  {
    var k := new Keeper(DefaultConfig());
    k.ReplaceConfig(Config(false, [], []));
    disabled := k.IsLeverageModuleDisabled();
    verdict := k.ValidateProposal(p);
  }
}
