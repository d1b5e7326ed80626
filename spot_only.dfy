/**
 * The spot-only fork's configuration: the fork's identity, its leverage
 * ceiling and two feature switches, and the check that a configuration in
 * spot-only mode allows no leverage, no margin trading and no perpetuals.
 */
module SpotOnly {
  import opened Wrappers

  /**
   * The spot-only settings. `maxLeverage` stands for the decimal ceiling by
   * its raw scaled integer; only its sign is ever inspected.
   */
  datatype SpotOnlyConfig = SpotOnlyConfig(
    enabled: bool,
    chainId: string,
    chainName: string,
    description: string,
    maxLeverage: int,
    disableMarginTrading: bool,
    disablePerpetualContracts: bool,
    enforceSpotOnlyValidation: bool)

  /** The three registered validation errors. */
  datatype SpotOnlyError =
    | LeverageNotAllowedInSpotMode
    | MarginTradingMustBeDisabled
    | PerpetualContractsMustBeDisabled

  /** The registered code of each error: 1, 2 and 3, one per error. */
  function Code(e: SpotOnlyError): (n: nat)
    ensures 1 <= n <= 3
  {
    match e
    case LeverageNotAllowedInSpotMode => 1
    case MarginTradingMustBeDisabled => 2
    case PerpetualContractsMustBeDisabled => 3
  }

  /** No two errors share a code. */
  lemma CodesAreDistinct(e1: SpotOnlyError, e2: SpotOnlyError)
    ensures Code(e1) == Code(e2) ==> e1 == e2
  {
  }

  /** The registered description of each error; every one of them names spot-only mode. */
  function Description(e: SpotOnlyError): (d: string)
    ensures |d| > 18 && d[|d| - 18..] == " in spot-only mode"
  {
    match e
    case LeverageNotAllowedInSpotMode => "leverage is not allowed in spot-only mode"
    case MarginTradingMustBeDisabled => "margin trading must be disabled in spot-only mode"
    case PerpetualContractsMustBeDisabled => "perpetual contracts must be disabled in spot-only mode"
  }

  /** No two errors share a description. */
  lemma DescriptionsAreDistinct(e1: SpotOnlyError, e2: SpotOnlyError)
    ensures Description(e1) == Description(e2) ==> e1 == e2
  {
  }

  /**
   * `Validate`: outside spot-only mode every configuration is valid; in it,
   * a positive leverage ceiling, then margin trading left on, then perpetual
   * contracts left on, is reported, the first that applies.
   */
  function Validate(c: SpotOnlyConfig): (r: Outcome<SpotOnlyError>)
    ensures r.Pass? <==>
      !c.enabled || (c.maxLeverage <= 0 && c.disableMarginTrading && c.disablePerpetualContracts)
    ensures r == Fail(LeverageNotAllowedInSpotMode) <==> c.enabled && c.maxLeverage > 0
    ensures r == Fail(MarginTradingMustBeDisabled) <==>
      c.enabled && c.maxLeverage <= 0 && !c.disableMarginTrading
    ensures r == Fail(PerpetualContractsMustBeDisabled) <==>
      c.enabled && c.maxLeverage <= 0 && c.disableMarginTrading && !c.disablePerpetualContracts
  {
    if c.enabled then
      if c.maxLeverage > 0 then
        Fail(LeverageNotAllowedInSpotMode)
      else if !c.disableMarginTrading then
        Fail(MarginTradingMustBeDisabled)
      else if !c.disablePerpetualContracts then
        Fail(PerpetualContractsMustBeDisabled)
      else
        Pass
    else
      Pass
  }

  /** The default description of the fork's purpose. */
  const DefaultDescription :=
    "A spot-only decentralized exchange fork of Osmosis, focused on AMM trading without leveraged positions"

  /** `DefaultSpotOnlyConfig`: spot-only mode on, a zero ceiling, every switch on, and valid. */
  function DefaultSpotOnlyConfig(): (c: SpotOnlyConfig)
    ensures c.enabled && c.maxLeverage == 0
    ensures c.disableMarginTrading && c.disablePerpetualContracts && c.enforceSpotOnlyValidation
    ensures c.chainId == "osmosis-spot-1" && c.chainName == "Osmosis Spot-Only DEX"
    ensures c.description == DefaultDescription
    ensures Validate(c) == Pass
  {
    SpotOnlyConfig(
      true,
      "osmosis-spot-1",
      "Osmosis Spot-Only DEX",
      DefaultDescription,
      0,
      true,
      true,
      true)
  }

  /**
   * The fork's identity and the `enforceSpotOnlyValidation` switch play no
   * part in the check: changing them never changes the verdict.
   */
  lemma ValidateIgnoresIdentityAndEnforceSwitch(
    c: SpotOnlyConfig, chainId: string, chainName: string, description: string, enforce: bool)
    ensures Validate(c.(chainId := chainId, chainName := chainName, description := description,
                        enforceSpotOnlyValidation := enforce))
         == Validate(c)
  {
  }

  /**
   * A configuration that passes stays valid when its ceiling is lowered or a
   * feature switch is turned on: the check is monotone in each setting.
   */
  lemma TighteningKeepsValid(c: SpotOnlyConfig, maxLeverage: int, margin: bool, perpetual: bool)
    requires Validate(c).Pass?
    requires maxLeverage <= c.maxLeverage
    requires c.disableMarginTrading ==> margin
    requires c.disablePerpetualContracts ==> perpetual
    ensures Validate(c.(maxLeverage := maxLeverage, disableMarginTrading := margin,
                        disablePerpetualContracts := perpetual)).Pass?
  {
  }

  /** Leverage is reported whatever the two switches say: it is checked first. */
  lemma LeverageIsReportedFirst(c: SpotOnlyConfig)
    requires c.enabled && c.maxLeverage > 0
    ensures Validate(c) == Fail(LeverageNotAllowedInSpotMode)
    ensures Code(Validate(c).error) == 1
  {
  }
}
