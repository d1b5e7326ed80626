/**
 * The ante decorator of the governance safeguards: before a transaction is
 * processed, every gov v1 proposal submission it carries is passed to the
 * keeper's evaluator, and the first denial rejects the transaction without
 * calling the rest of the ante chain.
 */
module SafeguardAnte {
  import opened Wrappers
  import opened GoStrings
  import opened SafeguardTypes
  import opened SafeguardKeeper

  /** The parts of a gov v1 `MsgSubmitProposal` the decorator reads. */
  datatype MsgSubmitProposal = MsgSubmitProposal(messages: seq<Any>, title: string, summary: string)

  /**
   * A transaction message: a gov v1 `MsgSubmitProposal`, or any other message
   * type. A gov v1beta1 submission, or a submission nested in an authz
   * `MsgExec`, is another message type.
   */
  datatype Msg =
    | SubmitProposal(submit: MsgSubmitProposal)
    | OtherMsg(typeUrl: string)

  /** A transaction, as far as `GetMsgs` shows it. */
  datatype Tx = Tx(msgs: seq<Msg>)

  /**
   * An error leaving the ante chain: the decorator's own wrapped denial, or an
   * error returned further down the chain.
   */
  datatype AnteError =
    | InvalidRequest(reason: string)
    | ChainError(reason: string)

  /** The message the decorator puts in front of the evaluator's error text. */
  const ValidationFailedPrefix := "governance proposal validation failed: "

  /** The text of an error wrapped around the registered "invalid request" error. */
  function AnteErrorText(e: AnteError): (s: string)
    ensures e.InvalidRequest? ==> s == e.reason + ": invalid request"
  {
    match e
    case InvalidRequest(reason) => reason + ": invalid request"
    case ChainError(reason) => reason
  }

  /** The proposal built from a submission: identifier 0, the submitted parts verbatim. */
  function ProposalOf(m: MsgSubmitProposal): (p: Proposal)
    ensures p.id == 0
    ensures (p.messages, p.title, p.summary) == (m.messages, m.title, m.summary)
  {
    Proposal(0, m.messages, m.title, m.summary)
  }

  /**
   * `validateSubmitProposal`: the evaluator's verdict on the submitted
   * proposal, its error wrapped as an invalid request.
   */
  function SubmitVerdict(c: Config, m: MsgSubmitProposal): (r: Outcome<AnteError>)
    ensures r.Pass? <==> ValidateProposal(c, ProposalOf(m)).Pass?
    ensures r.Fail? ==>
      r.error == InvalidRequest(ValidationFailedPrefix + ErrorText(ValidateProposal(c, ProposalOf(m)).error))
  {
    match ValidateProposal(c, ProposalOf(m))
    case Pass => Pass
    case Fail(e) => Fail(InvalidRequest(ValidationFailedPrefix + ErrorText(e)))
  }

  /**
   * A submission is let through exactly when enforcement is off, or no
   * restricted proposal type occurs in its lowered title or summary and each
   * of its messages passes.
   */
  lemma SubmitVerdictPasses(c: Config, m: MsgSubmitProposal)
    ensures SubmitVerdict(c, m).Pass? <==>
      || !c.disableLeverageModules
      || (&& NoneOccur(c.restrictedProposalTypes, [ToLower(m.title), ToLower(m.summary)])
          && forall i :: 0 <= i < |m.messages| ==> ValidateMessage(c, m.messages[i]).Pass?)
  {
    assert ScreenedText(ProposalOf(m)) == [ToLower(m.title), ToLower(m.summary)];
  }

  /** The switch over the message type: only gov v1 proposal submissions are screened. */
  function MsgVerdict(c: Config, msg: Msg): (r: Outcome<AnteError>)
    ensures r.Pass? <==> msg.OtherMsg? || ValidateProposal(c, ProposalOf(msg.submit)).Pass?
    ensures r.Fail? ==>
      && msg.SubmitProposal?
      && r.error == InvalidRequest(ValidationFailedPrefix + ErrorText(ValidateProposal(c, ProposalOf(msg.submit)).error))
  {
    match msg
    case SubmitProposal(m) => SubmitVerdict(c, m)
    case OtherMsg(_) => Pass
  }

  /** `vs[i]` is a failure and every earlier verdict is a pass. */
  ghost predicate IsFirstFail(vs: seq<Outcome<AnteError>>, i: int) {
    && 0 <= i < |vs|
    && vs[i].Fail?
    && forall j :: 0 <= j < i ==> vs[j].Pass?
  }

  /** The first failure among `vs`, in order, or `Pass` when every verdict passes. */
  function FirstFail(vs: seq<Outcome<AnteError>>): (r: Outcome<AnteError>)
    ensures r.Pass? <==> forall i :: 0 <= i < |vs| ==> vs[i].Pass?
    ensures r.Fail? ==> exists i :: IsFirstFail(vs, i) && vs[i] == r
  {
    if vs == [] then
      Pass
    else if vs[0].Fail? then
      assert IsFirstFail(vs, 0);
      vs[0]
    else
      var r := FirstFail(vs[1..]);
      if r.Fail? then FirstFailInTail(vs, r); r else r
  }

  /** A first failure of the tail is the first failure of the list when the head passes. */
  lemma FirstFailInTail(vs: seq<Outcome<AnteError>>, r: Outcome<AnteError>)
    requires vs != [] && vs[0].Pass?
    requires exists i :: IsFirstFail(vs[1..], i) && vs[1..][i] == r
    ensures exists i :: IsFirstFail(vs, i) && vs[i] == r
  {
    var i :| IsFirstFail(vs[1..], i) && vs[1..][i] == r;
    assert IsFirstFail(vs, i + 1);
  }

  /** The verdict on each message of `msgs`, in order. */
  function Verdicts(c: Config, msgs: seq<Msg>): (vs: seq<Outcome<AnteError>>)
    ensures |vs| == |msgs|
    ensures forall i :: 0 <= i < |msgs| ==> vs[i] == MsgVerdict(c, msgs[i])
  {
    seq(|msgs|, i requires 0 <= i < |msgs| => MsgVerdict(c, msgs[i]))
  }

  /** `msgs[i]` is rejected and every earlier message is let through. */
  ghost predicate IsFirstRejected(c: Config, msgs: seq<Msg>, i: int) {
    && 0 <= i < |msgs|
    && MsgVerdict(c, msgs[i]).Fail?
    && forall j :: 0 <= j < i ==> MsgVerdict(c, msgs[j]).Pass?
  }

  /** The loop over `tx.GetMsgs()`: the verdict on the first rejected message, if any. */
  function Screen(c: Config, msgs: seq<Msg>): (r: Outcome<AnteError>)
    ensures r.Pass? <==> forall i :: 0 <= i < |msgs| ==> MsgVerdict(c, msgs[i]).Pass?
    ensures r.Fail? ==> exists i :: IsFirstRejected(c, msgs, i) && MsgVerdict(c, msgs[i]) == r
  {
    var r := FirstFail(Verdicts(c, msgs));
    if r.Fail? then FirstFailIsFirstRejected(c, msgs, r); r else r
  }

  /** A first failure among the verdicts is the verdict on the first rejected message. */
  lemma FirstFailIsFirstRejected(c: Config, msgs: seq<Msg>, r: Outcome<AnteError>)
    requires exists i :: IsFirstFail(Verdicts(c, msgs), i) && Verdicts(c, msgs)[i] == r
    ensures exists i :: IsFirstRejected(c, msgs, i) && MsgVerdict(c, msgs[i]) == r
  {
    var vs := Verdicts(c, msgs);
    var i :| IsFirstFail(vs, i) && vs[i] == r;
    assert IsFirstRejected(c, msgs, i);
  }

  /**
   * The decision of `AnteHandle`: with the kill switch off the transaction is
   * let through unexamined; otherwise the first rejected submission decides.
   * A rejection is always the decorator's own invalid-request error.
   */
  function Decision(c: Config, tx: Tx): (r: Outcome<AnteError>)
    ensures r.Pass? <==>
      !c.disableLeverageModules || forall i :: 0 <= i < |tx.msgs| ==> MsgVerdict(c, tx.msgs[i]).Pass?
    ensures r.Fail? ==>
      && r.error.InvalidRequest?
      && exists i :: IsFirstRejected(c, tx.msgs, i) && tx.msgs[i].SubmitProposal? && MsgVerdict(c, tx.msgs[i]) == r
  {
    if !c.disableLeverageModules then Pass else Screen(c, tx.msgs)
  }

  /** The rest of the ante chain: records every transaction it is handed and answers `response`. */
  class NextHandler {
    ghost var calls: seq<Tx>
    const response: Outcome<AnteError>

    constructor (response: Outcome<AnteError>)
      ensures this.response == response && calls == []
    {
      this.response := response;
      calls := [];
    }

    method Call(tx: Tx) returns (r: Outcome<AnteError>)
      modifies this
      ensures calls == old(calls) + [tx]
      ensures r == response
    {
      calls := calls + [tx];
      r := response;
    }
  }

  /** `GovernanceSafeguardDecorator`: holds its own copy of the keeper. */
  class Decorator {
    const keeper: Keeper

    /** `NewGovernanceSafeguardDecorator`: the keeper is copied, as a Go struct value is. */
    constructor (k: Keeper)
      ensures fresh(keeper)
      ensures keeper.GetConfig() == k.GetConfig()
    {
      keeper := new Keeper(k.GetConfig());
    }

    /** `validateSubmitProposal`: the keeper's verdict on the submission, wrapped. */
    method ValidateSubmitProposal(m: MsgSubmitProposal) returns (err: Outcome<AnteError>)
      ensures err == SubmitVerdict(keeper.GetConfig(), m)
    {
      var verdict := keeper.ValidateProposal(ProposalOf(m));
      match verdict
      case Pass =>
        err := Pass;
      case Fail(e) =>
        err := Fail(InvalidRequest(ValidationFailedPrefix + ErrorText(e)));
    }

    /**
     * The loop of `AnteHandle` over the transaction's messages: the first
     * submission the keeper denies, wrapped, or `Pass` when there is none.
     */
    method ScreenMessages(tx: Tx) returns (err: Outcome<AnteError>)
      ensures err == Screen(keeper.GetConfig(), tx.msgs)
    {
      ghost var vs := Verdicts(keeper.GetConfig(), tx.msgs);
      var i := 0;
      while i < |tx.msgs|
        invariant 0 <= i <= |tx.msgs|
        invariant FirstFail(vs[..i]) == Pass
      {
        if tx.msgs[i].SubmitProposal? {
          var e := ValidateSubmitProposal(tx.msgs[i].submit);
          assert e == vs[i];
          if e.Fail? {
            FirstFailStops(vs, i);
            return e;
          }
        }
        FirstFailExtends(vs, i);
        i := i + 1;
      }
      assert vs[..i] == vs;
      err := Pass;
    }

    /**
     * `AnteHandle`: a rejected transaction returns the decorator's error and
     * never reaches `next`; any other transaction is handed to `next` exactly
     * once, and its answer is returned.
     */
    method AnteHandle(tx: Tx, next: NextHandler) returns (err: Outcome<AnteError>)
      modifies next
      ensures Decision(keeper.GetConfig(), tx).Fail? ==>
        err == Decision(keeper.GetConfig(), tx) && next.calls == old(next.calls)
      ensures Decision(keeper.GetConfig(), tx).Pass? ==>
        err == next.response && next.calls == old(next.calls) + [tx]
    {
      if !keeper.IsLeverageModuleDisabled() {
        err := next.Call(tx);
        return;
      }
      var rejection := ScreenMessages(tx);
      if rejection.Fail? {
        return rejection;
      }
      err := next.Call(tx);
    }
  }

  /** A passing prefix followed by a pass is a passing prefix. */
  lemma FirstFailExtends(vs: seq<Outcome<AnteError>>, i: int)
    requires 0 <= i < |vs|
    requires FirstFail(vs[..i]) == Pass && vs[i].Pass?
    ensures FirstFail(vs[..i + 1]) == Pass
  {
    assert vs[..i + 1] == vs[..i] + [vs[i]];
    FirstFailAppend(vs[..i], [vs[i]]);
  }

  /** A passing prefix followed by a failure decides the search. */
  lemma FirstFailStops(vs: seq<Outcome<AnteError>>, i: int)
    requires 0 <= i < |vs|
    requires FirstFail(vs[..i]) == Pass && vs[i].Fail?
    ensures FirstFail(vs) == vs[i]
  {
    assert IsFirstFail(vs, i) by {
      forall j | 0 <= j < i
        ensures vs[j].Pass?
      {
        assert vs[j] == vs[..i][j];
      }
    }
    FirstFailAt(vs, i);
  }

  /** The search returns exactly the verdict at the first failing position. */
  lemma FirstFailAt(vs: seq<Outcome<AnteError>>, i: int)
    requires IsFirstFail(vs, i)
    ensures FirstFail(vs) == vs[i]
  {
    var r := FirstFail(vs);
    assert r.Fail?;
    var j :| IsFirstFail(vs, j) && vs[j] == r;
    FirstFailIsUnique(vs, i, j);
  }

  /** At most one position is the first failing one. */
  lemma FirstFailIsUnique(vs: seq<Outcome<AnteError>>, i: int, j: int)
    requires IsFirstFail(vs, i) && IsFirstFail(vs, j)
    ensures i == j
  {
  }

  /** Searching `a + b` finds the first failure of `a` if it has one, and otherwise that of `b`. */
  lemma FirstFailAppend(a: seq<Outcome<AnteError>>, b: seq<Outcome<AnteError>>)
    ensures FirstFail(a + b) == if FirstFail(a).Fail? then FirstFail(a) else FirstFail(b)
  {
    if FirstFail(a).Fail? {
      var i :| IsFirstFail(a, i) && a[i] == FirstFail(a);
      assert IsFirstFail(a + b, i);
      FirstFailAt(a + b, i);
    } else if FirstFail(b).Fail? {
      var j :| IsFirstFail(b, j) && b[j] == FirstFail(b);
      assert IsFirstFail(a + b, |a| + j);
      FirstFailAt(a + b, |a| + j);
    }
  }

  /** The message found first rejected decides `Screen`. */
  lemma ScreenAt(c: Config, msgs: seq<Msg>, i: int)
    requires IsFirstRejected(c, msgs, i)
    ensures Screen(c, msgs) == MsgVerdict(c, msgs[i])
  {
    assert IsFirstFail(Verdicts(c, msgs), i);
    FirstFailAt(Verdicts(c, msgs), i);
  }

  /** Screening `a + b` is screening `a` and, if all of `a` passes, then `b`. */
  lemma ScreenAppend(c: Config, a: seq<Msg>, b: seq<Msg>)
    ensures Screen(c, a + b) == if Screen(c, a).Fail? then Screen(c, a) else Screen(c, b)
  {
    assert Verdicts(c, a + b) == Verdicts(c, a) + Verdicts(c, b);
    FirstFailAppend(Verdicts(c, a), Verdicts(c, b));
  }

  /** The proposal submissions of `msgs`, in order. */
  function Submissions(msgs: seq<Msg>): (r: seq<Msg>)
    ensures |r| <= |msgs|
    ensures forall m :: m in r <==> m in msgs && m.SubmitProposal?
  {
    if msgs == [] then []
    else if msgs[0].SubmitProposal? then [msgs[0]] + Submissions(msgs[1..])
    else Submissions(msgs[1..])
  }

  /**
   * The filter keeps the transaction's order: the submissions of `a + b` are
   * those of `a` followed by those of `b`.
   */
  lemma {:induction false} SubmissionsAppend(a: seq<Msg>, b: seq<Msg>)
    ensures Submissions(a + b) == Submissions(a) + Submissions(b)
    decreases |a|
  {
    if a != [] {
      assert (a + b)[1..] == a[1..] + b;
      SubmissionsAppend(a[1..], b);
    } else {
      assert a + b == b;
    }
  }

  /** Messages of other types are skipped: only the submissions decide the screen. */
  lemma {:induction false} OtherMessagesAreSkipped(c: Config, msgs: seq<Msg>)
    ensures Screen(c, msgs) == Screen(c, Submissions(msgs))
    decreases |msgs|
  {
    if msgs != [] {
      OtherMessagesAreSkipped(c, msgs[1..]);
      assert Verdicts(c, msgs)[1..] == Verdicts(c, msgs[1..]);
      if msgs[0].SubmitProposal? {
        var s := Submissions(msgs);
        assert s == [msgs[0]] + Submissions(msgs[1..]);
        assert s[1..] == Submissions(msgs[1..]);
        assert Verdicts(c, s)[1..] == Verdicts(c, s[1..]);
      }
    }
  }

  /**
   * The kill-switch short cut agrees with the loop: when enforcement is off
   * the loop would let every message through anyway.
   */
  lemma ShortCutAgreesWithLoop(c: Config, tx: Tx)
    requires !c.disableLeverageModules
    ensures Screen(c, tx.msgs) == Pass
  {
    forall i | 0 <= i < |tx.msgs|
      ensures MsgVerdict(c, tx.msgs[i]).Pass?
    {
      if tx.msgs[i].SubmitProposal? {
        assert ValidateProposal(c, ProposalOf(tx.msgs[i].submit)).Pass?;
      }
    }
  }

  /**
   * A rejection's text carries the evaluator's error text behind the
   * validation-failed message, for the first rejected submission.
   */
  lemma RejectionQuotesEvaluator(c: Config, tx: Tx)
    requires Decision(c, tx).Fail?
    ensures exists m ::
      && SubmitProposal(m) in tx.msgs
      && ValidateProposal(c, ProposalOf(m)).Fail?
      && AnteErrorText(Decision(c, tx).error)
         == ValidationFailedPrefix + ErrorText(ValidateProposal(c, ProposalOf(m)).error) + ": invalid request"
  {
    var i :| IsFirstRejected(c, tx.msgs, i) && tx.msgs[i].SubmitProposal? && MsgVerdict(c, tx.msgs[i]) == Decision(c, tx);
    var m := tx.msgs[i].submit;
    assert tx.msgs[i] == SubmitProposal(m);
    var e := ValidateProposal(c, ProposalOf(m));
    assert Decision(c, tx) == SubmitVerdict(c, m) == Fail(InvalidRequest(ValidationFailedPrefix + ErrorText(e.error)));
    assert SubmitProposal(m) in tx.msgs;
  }

  /**
   * `ValidateProposalContent`: the default configuration's verdict on a
   * proposal made of the title and description alone; it fails exactly when
   * one of them is leverage-related, and then names a restricted proposal type.
   */
  function ValidateProposalContent(title: string, description: string): (r: Outcome<ValidationError>)
    ensures r.Pass? <==> !IsLeverageRelated(title) && !IsLeverageRelated(description)
    ensures r.Fail? ==> r.error.RestrictedContent? && r.error.keyword in LeverageRestrictedProposalTypes
    ensures r.Fail? ==>
      NamesFirstMatch(LeverageRestrictedProposalTypes, [ToLower(title), ToLower(description)], r.error.keyword)
  {
    var p := Proposal(0, [], title, description);
    assert ScreenedText(p) == [ToLower(title), ToLower(description)];
    ContentDenialIsLeverageRelated(p);
    ValidateProposal(DefaultConfig(), p)
  }

  /** Under the default configuration, a message-free proposal is denied exactly when its text is leverage-related. */
  lemma ContentDenialIsLeverageRelated(p: Proposal)
    requires p.messages == []
    ensures ValidateProposal(DefaultConfig(), p).Pass? <==>
      !IsLeverageRelated(p.title) && !IsLeverageRelated(p.summary)
    ensures ValidateProposal(DefaultConfig(), p).Fail? ==>
      && ValidateProposal(DefaultConfig(), p).error.RestrictedContent?
      && ValidateProposal(DefaultConfig(), p).error.keyword in LeverageRestrictedProposalTypes
  {
    var texts := ScreenedText(p);
    forall k ensures OccursIn(k, texts) <==> Contains(ToLower(p.title), k) || Contains(ToLower(p.summary), k) {
      assert texts[0] in texts && texts[1] in texts;
    }
    var r := ValidateProposal(DefaultConfig(), p);
    if r.Fail? {
      var i :| IsFirstMatch(LeverageRestrictedProposalTypes, texts, i) && LeverageRestrictedProposalTypes[i] == r.error.keyword;
    }
  }
}
