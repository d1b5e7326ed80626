/**
 * The policy evaluator of the governance safeguards: the restriction lists,
 * the configuration that holds them, and the first-match keyword search that
 * allows or denies a governance proposal.
 */
module SafeguardTypes {
  import opened Wrappers
  import opened GoStrings

  /** Words that mark a proposal as leverage-related; matched against lowered text. */
  const LeverageRestrictedProposalTypes: seq<string> :=
    ["perpetual", "margin", "leverage", "futures", "derivatives",
     "perp", "leveraged", "borrow", "lending", "collateral"]

  /** Module names that an upgrade proposal may not mention. */
  const LeverageRestrictedModules: seq<string> :=
    ["perpetuals", "margins", "leverage", "futures", "derivatives",
     "lending", "borrowing"]

  /** The evaluator's configuration; `disableLeverageModules` is the kill switch. */
  datatype Config = Config(
    disableLeverageModules: bool,
    restrictedProposalTypes: seq<string>,
    restrictedModules: seq<string>)

  /** A message packed in a protobuf `Any`: its type URL and the text its UTF-8 payload bytes encode. */
  datatype Any = Any(typeUrl: string, value: string)

  /** The parts of a governance proposal that the evaluator reads. */
  datatype Proposal = Proposal(id: nat, messages: seq<Any>, title: string, summary: string)

  /** The three errors the evaluator returns, each naming the entry that matched. */
  datatype ValidationError =
    | RestrictedContent(keyword: string)
    | RestrictedUpgradeModule(moduleName: string)
    | RestrictedParamsContent(keyword: string)

  /** The entry an error names. */
  function Entry(e: ValidationError): string {
    match e
    case RestrictedContent(k) => k
    case RestrictedUpgradeModule(m) => m
    case RestrictedParamsContent(k) => k
  }

  /** The message in front of the entry, one per kind of error. */
  function Message(e: ValidationError): string {
    match e
    case RestrictedContent(_) => "proposal contains restricted leverage-related content: "
    case RestrictedUpgradeModule(_) => "upgrade proposal contains restricted module: "
    case RestrictedParamsContent(_) => "parameter change proposal contains restricted content: "
  }

  /** The text of the error, as the evaluator formats it: it ends with the entry that matched. */
  function ErrorText(e: ValidationError): (s: string)
    ensures |Entry(e)| < |s| && s[|s| - |Entry(e)|..] == Entry(e)
  {
    Message(e) + Entry(e)
  }

  /** The default configuration: enforcement on, the two default lists. */
  function DefaultConfig(): (c: Config)
    ensures c.disableLeverageModules
    ensures "perpetual" in c.restrictedProposalTypes
    ensures "margin" in c.restrictedProposalTypes
    ensures "leverage" in c.restrictedProposalTypes
    ensures |c.restrictedProposalTypes| == 10 && |c.restrictedModules| == 7
  {
    Config(true, LeverageRestrictedProposalTypes, LeverageRestrictedModules)
  }

  /** `k` is a substring of at least one of `texts`. */
  predicate OccursIn(k: string, texts: seq<string>) {
    exists t :: t in texts && Contains(t, k)
  }

  /** No entry of `keywords` occurs in any of `texts`. */
  ghost predicate NoneOccur(keywords: seq<string>, texts: seq<string>) {
    forall i :: 0 <= i < |keywords| ==> !OccursIn(keywords[i], texts)
  }

  /** `keywords[i]` occurs in `texts` and no earlier entry does. */
  ghost predicate IsFirstMatch(keywords: seq<string>, texts: seq<string>, i: int) {
    && 0 <= i < |keywords|
    && OccursIn(keywords[i], texts)
    && forall j :: 0 <= j < i ==> !OccursIn(keywords[j], texts)
  }

  /** `k` is the entry at the first position of `keywords` that occurs in `texts`. */
  ghost predicate NamesFirstMatch(keywords: seq<string>, texts: seq<string>, k: string) {
    exists i :: IsFirstMatch(keywords, texts, i) && keywords[i] == k
  }

  /**
   * The `for ... range` search with early return: the first entry of
   * `keywords`, in list order, that is a substring of one of `texts`.
   */
  function FirstRestricted(keywords: seq<string>, texts: seq<string>): (r: Option<string>)
    ensures r.None? <==> NoneOccur(keywords, texts)
    ensures r.Some? ==> NamesFirstMatch(keywords, texts, r.value)
  {
    if keywords == [] then
      None
    else if OccursIn(keywords[0], texts) then
      assert IsFirstMatch(keywords, texts, 0);
      Some(keywords[0])
    else
      var r := FirstRestricted(keywords[1..], texts);
      if r.Some? then FirstMatchInTail(keywords, texts, r.value); r else r
  }

  /** A first match of the tail is the first match of the list when the head does not occur. */
  lemma FirstMatchInTail(keywords: seq<string>, texts: seq<string>, k: string)
    requires keywords != [] && !OccursIn(keywords[0], texts)
    requires NamesFirstMatch(keywords[1..], texts, k)
    ensures NamesFirstMatch(keywords, texts, k)
  {
    var i :| IsFirstMatch(keywords[1..], texts, i) && keywords[1..][i] == k;
    assert IsFirstMatch(keywords, texts, i + 1);
  }

  /** The lowered title and summary, the free text a proposal is screened on. */
  function ScreenedText(p: Proposal): seq<string> {
    [ToLower(p.title), ToLower(p.summary)]
  }

  /** The lowered payload of a message, the text its content is screened on. */
  function ScreenedPayload(msg: Any): seq<string> {
    [ToLower(msg.value)]
  }

  /**
   * `validateMessage`: an upgrade message is screened for restricted modules,
   * then a params message for restricted proposal types; the type URL itself
   * is matched case-sensitively and any other message passes.
   */
  function ValidateMessage(c: Config, msg: Any): (r: Outcome<ValidationError>)
    ensures r.Pass? <==>
      && (Contains(msg.typeUrl, "upgrade") ==> NoneOccur(c.restrictedModules, ScreenedPayload(msg)))
      && (Contains(msg.typeUrl, "params") ==> NoneOccur(c.restrictedProposalTypes, ScreenedPayload(msg)))
    ensures r.Fail? ==> !r.error.RestrictedContent?
    ensures r.Fail? && r.error.RestrictedUpgradeModule? ==>
      && Contains(msg.typeUrl, "upgrade")
      && NamesFirstMatch(c.restrictedModules, ScreenedPayload(msg), r.error.moduleName)
    ensures r.Fail? && r.error.RestrictedParamsContent? ==>
      && Contains(msg.typeUrl, "params")
      && (Contains(msg.typeUrl, "upgrade") ==> NoneOccur(c.restrictedModules, ScreenedPayload(msg)))
      && NamesFirstMatch(c.restrictedProposalTypes, ScreenedPayload(msg), r.error.keyword)
  {
    var payload := ScreenedPayload(msg);
    var found := if Contains(msg.typeUrl, "upgrade") then FirstRestricted(c.restrictedModules, payload) else None;
    var keyword := if Contains(msg.typeUrl, "params") then FirstRestricted(c.restrictedProposalTypes, payload) else None;
    if found.Some? then Fail(RestrictedUpgradeModule(found.value))
    else if keyword.Some? then Fail(RestrictedParamsContent(keyword.value))
    else Pass
  }

  /** The loop over `proposal.Messages`: the first message, in order, that fails. */
  function ValidateMessages(c: Config, msgs: seq<Any>): (r: Outcome<ValidationError>)
    ensures r.Pass? <==> forall i :: 0 <= i < |msgs| ==> ValidateMessage(c, msgs[i]).Pass?
    ensures r.Fail? ==> exists i :: IsFirstFailure(c, msgs, i) && ValidateMessage(c, msgs[i]) == r
  {
    if msgs == [] then
      Pass
    else if ValidateMessage(c, msgs[0]).Fail? then
      assert IsFirstFailure(c, msgs, 0);
      ValidateMessage(c, msgs[0])
    else
      var r := ValidateMessages(c, msgs[1..]);
      if r.Fail? then FirstFailureInTail(c, msgs, r); r else r
  }

  /** A first failure of the tail is the first failure of the list when the head passes. */
  lemma FirstFailureInTail(c: Config, msgs: seq<Any>, r: Outcome<ValidationError>)
    requires msgs != [] && ValidateMessage(c, msgs[0]).Pass?
    requires exists i :: IsFirstFailure(c, msgs[1..], i) && ValidateMessage(c, msgs[1..][i]) == r
    ensures exists i :: IsFirstFailure(c, msgs, i) && ValidateMessage(c, msgs[i]) == r
  {
    var i :| IsFirstFailure(c, msgs[1..], i) && ValidateMessage(c, msgs[1..][i]) == r;
    assert IsFirstFailure(c, msgs, i + 1);
  }

  /** `msgs[i]` fails `ValidateMessage` and every earlier message passes it. */
  ghost predicate IsFirstFailure(c: Config, msgs: seq<Any>, i: int) {
    && 0 <= i < |msgs|
    && ValidateMessage(c, msgs[i]).Fail?
    && forall j :: 0 <= j < i ==> ValidateMessage(c, msgs[j]).Pass?
  }

  /**
   * `Config.ValidateProposal`: with the kill switch off every proposal passes;
   * otherwise the first restricted proposal type found in the lowered title or
   * summary denies it, and only then are its messages screened in order.
   */
  function ValidateProposal(c: Config, p: Proposal): (r: Outcome<ValidationError>)
    ensures !c.disableLeverageModules ==> r.Pass?
    ensures r.Pass? <==>
      || !c.disableLeverageModules
      || (&& NoneOccur(c.restrictedProposalTypes, ScreenedText(p))
          && forall i :: 0 <= i < |p.messages| ==> ValidateMessage(c, p.messages[i]).Pass?)
    ensures r.Fail? && r.error.RestrictedContent? ==>
      NamesFirstMatch(c.restrictedProposalTypes, ScreenedText(p), r.error.keyword)
    ensures r.Fail? && !r.error.RestrictedContent? ==>
      && NoneOccur(c.restrictedProposalTypes, ScreenedText(p))
      && exists i :: IsFirstFailure(c, p.messages, i) && ValidateMessage(c, p.messages[i]) == r
  {
    if !c.disableLeverageModules then
      Pass
    else
      match FirstRestricted(c.restrictedProposalTypes, ScreenedText(p))
      case Some(k) => Fail(RestrictedContent(k))
      case None => ValidateMessages(c, p.messages)
  }

  /** `IsLeverageRelated`: some default restricted proposal type occurs in the lowered text. */
  function IsLeverageRelated(content: string): (b: bool)
    ensures b <==> exists i :: 0 <= i < |LeverageRestrictedProposalTypes|
                           && Contains(ToLower(content), LeverageRestrictedProposalTypes[i])
  {
    var r := FirstRestricted(LeverageRestrictedProposalTypes, [ToLower(content)]);
    assert forall k :: OccursIn(k, [ToLower(content)]) <==> Contains(ToLower(content), k);
    r.Some?
  }

  /**
   * Go's `strings.Contains(s, "")` is true, so an empty restricted proposal
   * type denies every proposal once enforcement is on.
   */
  lemma EmptyKeywordDeniesEverything(c: Config, p: Proposal)
    requires c.disableLeverageModules && "" in c.restrictedProposalTypes
    ensures ValidateProposal(c, p).Fail?
    ensures ValidateProposal(c, p).error.RestrictedContent?
  {
    EmptyAlwaysContained(ToLower(p.title));
    assert OccursIn("", ScreenedText(p));
  }

  /**
   * Matching ignores the case of the text: any spelling of a lower-case
   * restricted proposal type in the title or summary denies the proposal.
   */
  lemma CaseVariantDenies(c: Config, p: Proposal, v: string)
    requires c.disableLeverageModules
    requires ToLower(v) in c.restrictedProposalTypes
    requires Contains(p.title, v) || Contains(p.summary, v)
    ensures ValidateProposal(c, p).Fail?
    ensures ValidateProposal(c, p).error.RestrictedContent?
  {
    var k := ToLower(v);
    if Contains(p.title, v) {
      CaseVariantOccurs(p.title, v, k);
    } else {
      CaseVariantOccurs(p.summary, v, k);
    }
    assert OccursIn(k, ScreenedText(p));
  }

  /**
   * Entries are not lowered: an entry holding an upper-case ASCII letter never
   * occurs in the lowered title, summary or payload, so it never names a denial.
   */
  lemma UpperCaseEntryNeverDenies(c: Config, p: Proposal, k: string, q: nat)
    requires q < |k| && IsUpperAscii(k[q])
    ensures ValidateProposal(c, p) != Fail(RestrictedContent(k))
    ensures forall m :: ValidateMessage(c, m) != Fail(RestrictedUpgradeModule(k))
    ensures forall m :: ValidateMessage(c, m) != Fail(RestrictedParamsContent(k))
  {
    UpperWordNeverOccursInLowered(p.title, k, q);
    UpperWordNeverOccursInLowered(p.summary, k, q);
    assert !OccursIn(k, ScreenedText(p));
    forall m: Any
      ensures !OccursIn(k, ScreenedPayload(m))
    {
      UpperWordNeverOccursInLowered(m.value, k, q);
    }
  }

  /** A denial by title or summary does not depend on the proposal's messages. */
  lemma TextDenialIgnoresMessages(c: Config, p: Proposal, msgs: seq<Any>)
    requires ValidateProposal(c, p).Fail? && ValidateProposal(c, p).error.RestrictedContent?
    ensures ValidateProposal(c, p.(messages := msgs)) == ValidateProposal(c, p)
  {
  }

  /** A message whose type URL holds neither "upgrade" nor "params" always passes. */
  lemma UnscreenedMessagePasses(c: Config, msg: Any)
    requires !Contains(msg.typeUrl, "upgrade") && !Contains(msg.typeUrl, "params")
    ensures ValidateMessage(c, msg) == Pass
  {
  }

  /**
   * When a type URL holds both "upgrade" and "params", the module check runs
   * first: a restricted module in the payload decides the error.
   */
  lemma UpgradeCheckComesFirst(c: Config, msg: Any)
    requires Contains(msg.typeUrl, "upgrade") && Contains(msg.typeUrl, "params")
    requires !NoneOccur(c.restrictedModules, ScreenedPayload(msg))
    ensures ValidateMessage(c, msg).Fail? && ValidateMessage(c, msg).error.RestrictedUpgradeModule?
  {
  }

  /**
   * Searching a concatenated list finds the first list's match when it has
   * one and the second list's match otherwise.
   */
  lemma {:induction false} FirstRestrictedAppend(a: seq<string>, b: seq<string>, texts: seq<string>)
    ensures FirstRestricted(a + b, texts) ==
      if FirstRestricted(a, texts).Some? then FirstRestricted(a, texts) else FirstRestricted(b, texts)
  {
    if a == [] {
      assert a + b == b;
    } else {
      assert (a + b)[1..] == a[1..] + b;
      FirstRestrictedAppend(a[1..], b, texts);
    }
  }

  /** `c2` restricts at least what `c1` does, with the same kill switch. */
  ghost predicate AtLeastAsStrict(c2: Config, c1: Config) {
    && c2.disableLeverageModules == c1.disableLeverageModules
    && (forall k :: k in c1.restrictedProposalTypes ==> k in c2.restrictedProposalTypes)
    && (forall k :: k in c1.restrictedModules ==> k in c2.restrictedModules)
  }

  /** Every entry of `small` is in `big`, so nothing of `big` occurring means nothing of `small` does. */
  lemma NoneOccurSubset(small: seq<string>, big: seq<string>, texts: seq<string>)
    requires forall k :: k in small ==> k in big
    requires NoneOccur(big, texts)
    ensures NoneOccur(small, texts)
  {
    forall i | 0 <= i < |small|
      ensures !OccursIn(small[i], texts)
    {
      assert small[i] in small;
      var j :| 0 <= j < |big| && big[j] == small[i];
    }
  }

  /** A message that passes a stricter configuration passes a laxer one. */
  lemma StricterMessageCheck(c2: Config, c1: Config, msg: Any)
    requires AtLeastAsStrict(c2, c1)
    requires ValidateMessage(c2, msg).Pass?
    ensures ValidateMessage(c1, msg).Pass?
  {
    var payload := ScreenedPayload(msg);
    if Contains(msg.typeUrl, "upgrade") {
      NoneOccurSubset(c1.restrictedModules, c2.restrictedModules, payload);
    }
    if Contains(msg.typeUrl, "params") {
      NoneOccurSubset(c1.restrictedProposalTypes, c2.restrictedProposalTypes, payload);
    }
  }

  /** Adding restrictions only ever turns an allowed proposal into a denied one. */
  lemma StricterConfigAllowsLess(c2: Config, c1: Config, p: Proposal)
    requires AtLeastAsStrict(c2, c1)
    requires ValidateProposal(c2, p).Pass?
    ensures ValidateProposal(c1, p).Pass?
  {
    if c1.disableLeverageModules {
      NoneOccurSubset(c1.restrictedProposalTypes, c2.restrictedProposalTypes, ScreenedText(p));
      forall i | 0 <= i < |p.messages|
        ensures ValidateMessage(c1, p.messages[i]).Pass?
      {
        StricterMessageCheck(c2, c1, p.messages[i]);
      }
    }
  }

  /** Two first matches of the same search are at the same position. */
  lemma FirstMatchIsUnique(keywords: seq<string>, texts: seq<string>, i: int, j: int)
    requires IsFirstMatch(keywords, texts, i) && IsFirstMatch(keywords, texts, j)
    ensures i == j
  {
  }

  /** The search returns exactly the entry at the first matching position. */
  lemma FirstRestrictedAt(keywords: seq<string>, texts: seq<string>, i: int)
    requires IsFirstMatch(keywords, texts, i)
    ensures FirstRestricted(keywords, texts) == Some(keywords[i])
  {
    var r := FirstRestricted(keywords, texts);
    var j :| IsFirstMatch(keywords, texts, j) && keywords[j] == r.value;
    FirstMatchIsUnique(keywords, texts, i, j);
  }

  /** A denial by title or summary names the first matching restricted proposal type. */
  lemma TextDenialNamesFirstType(c: Config, p: Proposal, i: int)
    requires c.disableLeverageModules
    requires IsFirstMatch(c.restrictedProposalTypes, ScreenedText(p), i)
    ensures ValidateProposal(c, p) == Fail(RestrictedContent(c.restrictedProposalTypes[i]))
  {
    FirstRestrictedAt(c.restrictedProposalTypes, ScreenedText(p), i);
  }

  /** When the title and summary are clean, the messages alone decide. */
  lemma CleanTextDefersToMessages(c: Config, p: Proposal)
    requires c.disableLeverageModules
    requires NoneOccur(c.restrictedProposalTypes, ScreenedText(p))
    ensures ValidateProposal(c, p) == ValidateMessages(c, p.messages)
  {
  }

  /** An upgrade message is denied with the first restricted module in its payload. */
  lemma UpgradeDenialNamesFirstModule(c: Config, msg: Any, i: int)
    requires Contains(msg.typeUrl, "upgrade")
    requires IsFirstMatch(c.restrictedModules, ScreenedPayload(msg), i)
    ensures ValidateMessage(c, msg) == Fail(RestrictedUpgradeModule(c.restrictedModules[i]))
  {
    FirstRestrictedAt(c.restrictedModules, ScreenedPayload(msg), i);
  }

  /** A params message that passes the module check is denied with the first restricted type in its payload. */
  lemma ParamsDenialNamesFirstType(c: Config, msg: Any, i: int)
    requires Contains(msg.typeUrl, "params")
    requires Contains(msg.typeUrl, "upgrade") ==> NoneOccur(c.restrictedModules, ScreenedPayload(msg))
    requires IsFirstMatch(c.restrictedProposalTypes, ScreenedPayload(msg), i)
    ensures ValidateMessage(c, msg) == Fail(RestrictedParamsContent(c.restrictedProposalTypes[i]))
  {
    FirstRestrictedAt(c.restrictedProposalTypes, ScreenedPayload(msg), i);
  }
}
