/** The mint sub-machine: one token bundle with signed amounts. */
module TxMint {
  import opened Basics
  import opened TokenBundle

  /** The parsed data of a request. Allowed stands for the decision of the mint policy. */
  datatype MintEvent = TopLevel(numAssetGroups: uint32, allowed: bool) | Bundle(part: BundleEvent) | ConfirmMint

  /** The calls of the transaction hash builder. */
  datatype MintCall =
    | AddMintTopLevel(numAssetGroups: uint32)
    | AddMintGroup(policyId: PolicyId, numTokens: uint32)
    | AddMintToken(name: AssetName, amount: Amount)

  function CallsFor(e: MintEvent): seq<MintCall> {
    match e
    case TopLevel(n, _) => [AddMintTopLevel(n)]
    case Bundle(AssetGroup(id, n)) => [AddMintGroup(id, n)]
    case Bundle(TokenAmount(name, amount)) => [AddMintToken(name, amount)]
    case ConfirmMint => []
  }

  function CallsForAll(es: seq<MintEvent>): seq<MintCall> {
    if es == [] then [] else CallsForAll(es[..|es| - 1]) + CallsFor(es[|es| - 1])
  }

  datatype Phase = TOP_LEVEL_DATA | ASSET_GROUP | TOKEN | CONFIRM | FINISHED

  datatype State = State(phase: Phase, numAssetGroups: uint16, progress: Progress)

  const START := State(TOP_LEVEL_DATA, 0, Fresh(ZERO_KEY, []))

  /** The state after a request, or None if the request is refused. */
  function Step(s: State, e: MintEvent): Option<State> {
    match (s.phase, e)
    case (TOP_LEVEL_DATA, TopLevel(n, allowed)) =>
      if !(0 < n < TWO_16) || !allowed || s.progress.currentAssetGroup != 0 then None
      else Some(s.(phase := ASSET_GROUP, numAssetGroups := n))
    case (ASSET_GROUP, Bundle(b)) => StepBundle(s, b)
    case (TOKEN, Bundle(b)) => StepBundle(s, b)
    case (CONFIRM, ConfirmMint) => Some(s.(phase := FINISHED))
    case _ => None
  }

  function StepBundle(s: State, b: BundleEvent): Option<State> {
    match Advance(s.numAssetGroups, s.progress, b)
    case None => None
    case Some(p) =>
      Some(s.(progress := p,
              phase := if p.inGroup then TOKEN
                       else if p.currentAssetGroup == s.numAssetGroups then CONFIRM
                       else ASSET_GROUP))
  }

  function Run(s: State, es: seq<MintEvent>): Option<State>
    decreases |es|
  {
    if es == [] then Some(s)
    else
      match Step(s, es[0])
      case None => None
      case Some(t) => Run(t, es[1..])
  }

  predicate Finished(s: Option<State>) {
    s.Some? && s.value.phase == FINISHED
  }

  lemma RunNext(s: State, es: seq<MintEvent>)
    ensures es == [] ==> Run(s, es) == Some(s)
    ensures es != [] && Step(s, es[0]).None? ==> Run(s, es) == None
    ensures es != [] && Step(s, es[0]).Some? ==> Run(s, es) == Run(Step(s, es[0]).value, es[1..])
    ensures s.phase == FINISHED && Run(s, es).Some? ==> es == []
  {
  }

  lemma {:induction false} RunAppend(s: State, v: seq<MintEvent>, w: seq<MintEvent>)
    ensures Run(s, v + w) == match Run(s, v) case None => None case Some(t) => Run(t, w)
    decreases |v|
  {
    hide Step, Run;
    RunNext(s, v);
    RunNext(s, v + w);
    if v == [] {
      assert v + w == w;
    } else {
      assert (v + w)[0] == v[0] && (v + w)[1..] == v[1..] + w;
      if Step(s, v[0]).Some? {
        RunAppend(Step(s, v[0]).value, v[1..], w);
      }
    }
  }

  // ------------------------------------------------------------ what a finished run has received

  predicate WellFormed(groups: seq<Group>)
    ensures WellFormed(groups) ==> Short(groups)
  {
    0 < |groups| < TWO_16 && GroupsAccepted(None, groups)
  }

  function Bundles(es: seq<BundleEvent>): seq<MintEvent> {
    if es == [] then [] else [Bundle(es[0])] + Bundles(es[1..])
  }

  function Requests(groups: seq<Group>): seq<MintEvent>
    requires WellFormed(groups)
  {
    [TopLevel(|groups|, true)] + Bundles(BundleEvents(groups)) + [ConfirmMint]
  }

  function TokenCalls(tokens: seq<Token>): seq<MintCall> {
    if tokens == [] then [] else [AddMintToken(tokens[0].name, tokens[0].amount)] + TokenCalls(tokens[1..])
  }

  function GroupCalls(groups: seq<Group>): seq<MintCall>
    requires Short(groups)
  {
    if groups == [] then []
    else [AddMintGroup(groups[0].policyId, |groups[0].tokens|)] + TokenCalls(groups[0].tokens) + GroupCalls(groups[1..])
  }

  /** The word of builder calls that a minted bundle stands for. */
  function MintCalls(groups: seq<Group>): seq<MintCall>
    requires WellFormed(groups)
  {
    [AddMintTopLevel(|groups|)] + GroupCalls(groups)
  }

  ghost predicate Received(es: seq<MintEvent>, groups: seq<Group>) {
    WellFormed(groups) && Requests(groups) == es
  }

  lemma FromConfirm(s: State, es: seq<MintEvent>)
    requires s.phase == CONFIRM
    ensures Finished(Run(s, es)) <==> es == [ConfirmMint]
  {
    hide Run;
    RunNext(s, es);
    if es != [] && es[0].ConfirmMint? {
      RunNext(s.(phase := FINISHED), es[1..]);
      assert es == [es[0]] + es[1..];
    }
  }

  predicate InBundle(s: State) {
    s.phase in {ASSET_GROUP, TOKEN} && (s.phase == TOKEN <==> s.progress.inGroup)
  }

  lemma {:induction false} FromBundle(s: State, es: seq<MintEvent>) returns (bs: seq<BundleEvent>)
    requires InBundle(s) && Finished(Run(s, es))
    ensures Feed(s.numAssetGroups, s.progress, bs).Some?
    ensures Complete(s.numAssetGroups, Feed(s.numAssetGroups, s.progress, bs).value)
    ensures es == Bundles(bs) + [ConfirmMint]
    decreases |es|
  {
    hide Run, Advance, Feed;
    RunNext(s, es);
    var b := es[0].part;
    var t := Step(s, es[0]).value;
    assert es == [es[0]] + es[1..];
    if t.phase == CONFIRM {
      FromConfirm(t, es[1..]);
      bs := [b];
      FeedNext(s.numAssetGroups, t.progress, bs[1..]);
      assert Bundles(bs) == [es[0]] + Bundles([]);
    } else {
      var more := FromBundle(t, es[1..]);
      bs := [b] + more;
      assert bs[1..] == more;
    }
    FeedNext(s.numAssetGroups, s.progress, bs);
  }

  lemma {:induction false} RunBundle(s: State, bs: seq<BundleEvent>, rest: seq<MintEvent>) returns (t: State)
    requires InBundle(s) && Consistent(s.numAssetGroups, s.progress) && !Complete(s.numAssetGroups, s.progress)
    requires Feed(s.numAssetGroups, s.progress, bs).Some?
    requires Complete(s.numAssetGroups, Feed(s.numAssetGroups, s.progress, bs).value)
    ensures t.phase == CONFIRM && Run(s, Bundles(bs) + rest) == Run(t, rest)
    decreases |bs|
  {
    hide Run, Advance, Feed;
    var n, p := s.numAssetGroups, s.progress;
    FeedNext(n, p, bs);
    var es := Bundles(bs) + rest;
    assert es == [Bundle(bs[0])] + (Bundles(bs[1..]) + rest);
    RunNext(s, es);
    var q := Advance(n, p, bs[0]).value;
    AdvanceConsistent(n, p, bs[0]);
    t := Step(s, es[0]).value;
    if Complete(n, q) {
      NothingAfterComplete(n, q, bs[1..]);
      assert Bundles(bs[1..]) + rest == rest;
    } else {
      t := RunBundle(t, bs[1..], rest);
    }
  }

  lemma {:induction false} BundlesInjective(v: seq<BundleEvent>, w: seq<BundleEvent>)
    requires Bundles(v) == Bundles(w)
    ensures v == w
  {
    if v == [] {
      assert w == [];
    } else {
      assert w != [];
      assert Bundles(v)[0] == Bundles(w)[0];
      assert Bundles(v)[1..] == Bundles(v[1..]) && Bundles(w)[1..] == Bundles(w[1..]);
      BundlesInjective(v[1..], w[1..]);
      assert v == [v[0]] + v[1..] && w == [w[0]] + w[1..];
    }
  }

  /** No requests stand for two bundles. */
  lemma RequestsInjective(a: seq<Group>, b: seq<Group>)
    requires WellFormed(a) && WellFormed(b) && Requests(a) == Requests(b)
    ensures a == b
  {
    hide GroupsAccepted, Bundles, BundleEvents, Feed;
    var x, y := Requests(a), Requests(b);
    assert x[0] == y[0] && |a| == |b|;
    assert x[1..|x| - 1] == Bundles(BundleEvents(a)) && y[1..|y| - 1] == Bundles(BundleEvents(b));
    BundlesInjective(BundleEvents(a), BundleEvents(b));
    var es := BundleEvents(a);
    BundleReceived(|a|, ZERO_KEY, [], es);
    assert Carries(|a|, es, a) && Carries(|a|, es, b);
  }

  /** A finished run has received one well-formed bundle, and one only: as many groups as declared, each with its
      declared number of tokens, and all keys in canonical order. */
  lemma FinishedRun(es: seq<MintEvent>)
    ensures Finished(Run(START, es)) <==> exists groups :: Received(es, groups)
    ensures forall a, b :: Received(es, a) && Received(es, b) ==> a == b
  {
    forall a, b | Received(es, a) && Received(es, b) ensures a == b {
      RequestsInjective(a, b);
    }
    hide Run, GroupsAccepted, Bundles, BundleEvents, Feed;
    if Finished(Run(START, es)) {
      RunNext(START, es);
      var s := Step(START, es[0]).value;
      var bs := FromBundle(s, es[1..]);
      BundleReceived(s.numAssetGroups, ZERO_KEY, [], bs);
      var groups :| Carries(s.numAssetGroups, bs, groups);
      assert es == [es[0]] + es[1..];
      Glue(es, [es[0]], Bundles(bs), [ConfirmMint]);
      assert Received(es, groups);
    }
    if groups :| Received(es, groups) {
      var bs := BundleEvents(groups);
      Glue(es, [TopLevel(|groups|, true)], Bundles(bs), [ConfirmMint]);
      assert es[1..] == Bundles(bs) + [ConfirmMint];
      RunNext(START, es);
      var s := Step(START, es[0]).value;
      BundleReceived(s.numAssetGroups, ZERO_KEY, [], bs);
      assert Carries(s.numAssetGroups, bs, groups);
      var t := RunBundle(s, bs, [ConfirmMint]);
      FromConfirm(t, [ConfirmMint]);
    }
  }

  // ------------------------------------------------------------ the log

  lemma {:induction false} CallsAppend(v: seq<MintEvent>, w: seq<MintEvent>)
    ensures CallsForAll(v + w) == CallsForAll(v) + CallsForAll(w)
  {
    hide CallsFor;
    if w == [] {
      assert v + w == v;
    } else {
      var n := |w| - 1;
      assert (v + w)[..|v + w| - 1] == v + w[..n];
      CallsAppend(v, w[..n]);
    }
  }

  lemma CallsOne(e: MintEvent)
    ensures CallsForAll([e]) == CallsFor(e)
    ensures CallsForAll([]) == []
  {
    hide CallsFor;
    assert [e][..0] == [];
  }

  lemma CallsCons(e: MintEvent, es: seq<MintEvent>)
    ensures CallsForAll([e] + es) == CallsFor(e) + CallsForAll(es)
  {
    CallsAppend([e], es);
    CallsOne(e);
  }

  lemma {:induction false} TokenLog(tokens: seq<Token>, rest: seq<BundleEvent>)
    ensures CallsForAll(Bundles(TokenEvents(tokens) + rest)) == TokenCalls(tokens) + CallsForAll(Bundles(rest))
  {
    hide CallsForAll;
    if tokens == [] {
      assert TokenEvents(tokens) + rest == rest;
    } else {
      var e := TokenAmount(tokens[0].name, tokens[0].amount);
      assert TokenEvents(tokens) + rest == [e] + (TokenEvents(tokens[1..]) + rest);
      TokenLog(tokens[1..], rest);
      CallsCons(Bundle(e), Bundles(TokenEvents(tokens[1..]) + rest));
    }
  }

  lemma {:induction false} GroupLog(groups: seq<Group>)
    requires Short(groups)
    ensures CallsForAll(Bundles(BundleEvents(groups))) == GroupCalls(groups)
  {
    hide CallsForAll, TokenEvents;
    if groups == [] {
      CallsOne(ConfirmMint);
    } else {
      var g, more := groups[0], groups[1..];
      var e := AssetGroup(g.policyId, |g.tokens|);
      assert BundleEvents(groups) == [e] + (TokenEvents(g.tokens) + BundleEvents(more));
      CallsCons(Bundle(e), Bundles(TokenEvents(g.tokens) + BundleEvents(more)));
      TokenLog(g.tokens, BundleEvents(more));
      GroupLog(more);
    }
  }

  lemma RequestsLog(groups: seq<Group>)
    requires WellFormed(groups)
    ensures CallsForAll(Requests(groups)) == MintCalls(groups)
  {
    hide CallsForAll, Bundles, BundleEvents, GroupCalls, GroupsAccepted;
    var a, b := TopLevel(|groups|, true), Bundles(BundleEvents(groups));
    CallsAppend([a] + b, [ConfirmMint]);
    CallsCons(a, b);
    CallsOne(ConfirmMint);
    GroupLog(groups);
  }

  // ------------------------------------------------------------ the handlers

  predicate Invariant(s: State) {
    match s.phase
    case TOP_LEVEL_DATA => s.progress.currentAssetGroup == 0 && s.progress.currentToken == 0 && !s.progress.inGroup
    case CONFIRM => true
    case FINISHED => true
    case _ =>
      && InBundle(s) && s.progress.currentAssetGroup < s.numAssetGroups
      && (if s.phase == TOKEN then s.progress.currentToken < s.progress.numTokens else s.progress.currentToken == 0)
  }

  lemma InvariantKept(s: State, e: MintEvent)
    requires Invariant(s) && Step(s, e).Some?
    ensures Invariant(Step(s, e).value)
  {
    hide KeyLess;
  }

  /** mint_context_t. The log is the sequence of calls made to the transaction hash builder, the ghost
      field records the accepted requests. A method that returns false has ended the run. */
  class MintContext {
    var state: Phase
    var numAssetGroups: uint16
    var currentAssetGroup: uint16
    var numTokens: uint16
    var currentToken: uint16
    var policyId: PolicyId
    var assetName: AssetName
    var log: seq<MintCall>
    ghost var events: seq<MintEvent>

    constructor ()
      ensures Valid() && events == []
    {
      state, numAssetGroups, currentAssetGroup, numTokens, currentToken := TOP_LEVEL_DATA, 0, 0, 0, 0;
      policyId, assetName, log, events := ZERO_KEY, [], [], [];
    }

    ghost function Current(): State
      reads this
    {
      State(state, numAssetGroups,
            Progress(policyId, assetName, currentAssetGroup, currentToken, numTokens, state == TOKEN))
    }

    ghost predicate Valid()
      reads this
    {
      && Run(START, events) == Some(Current())
      && Invariant(Current())
      && log == CallsForAll(events)
    }

    /** signTxMint_init */
    method Initialize()
      modifies this
      ensures Valid() && events == [] && Current() == START && log == []
    {
      state, numAssetGroups, currentAssetGroup, numTokens, currentToken := TOP_LEVEL_DATA, 0, 0, 0, 0;
      policyId, assetName, log, events := ZERO_KEY, [], [], [];
    }

    method AdvanceState() returns (ok: bool)
      modifies this`state, this`currentToken, this`currentAssetGroup
      ensures ok <==> match old(state)
                      case TOP_LEVEL_DATA => numAssetGroups > 0 && old(currentAssetGroup) == 0
                      case ASSET_GROUP => old(currentAssetGroup) < numAssetGroups && numTokens > 0
                        && old(currentToken) == 0
                      case TOKEN => old(currentToken) == numTokens && old(currentAssetGroup) < numAssetGroups
                      case CONFIRM => true
                      case FINISHED => false
      ensures ok && old(state) != TOKEN ==>
        && currentToken == old(currentToken) && currentAssetGroup == old(currentAssetGroup)
        && state == (match old(state) case TOP_LEVEL_DATA => ASSET_GROUP case ASSET_GROUP => TOKEN case _ => FINISHED)
      ensures ok && old(state) == TOKEN ==>
        && currentToken == 0 && currentAssetGroup == old(currentAssetGroup) + 1
        && state == if currentAssetGroup == numAssetGroups then CONFIRM else ASSET_GROUP
    {
      match state {
        case TOP_LEVEL_DATA =>
          if !(numAssetGroups > 0 && currentAssetGroup == 0) { return false; }
          state := ASSET_GROUP;
        case ASSET_GROUP =>
          if !(currentAssetGroup < numAssetGroups && numTokens > 0 && currentToken == 0) { return false; }
          state := TOKEN;
        case TOKEN =>
          if currentToken != numTokens { return false; }
          currentToken := 0;
          if currentAssetGroup >= numAssetGroups { return false; }
          currentAssetGroup := currentAssetGroup + 1;
          state := if currentAssetGroup == numAssetGroups then CONFIRM else ASSET_GROUP;
        case CONFIRM =>
          state := FINISHED;
        case FINISHED =>
          return false;
      }
      return true;
    }

    /** Records an accepted request and the calls it caused. */
    ghost method Record(before: State, e: MintEvent)
      requires Run(START, events) == Some(before) && Invariant(before)
      requires Step(before, e) == Some(Current())
      requires log == CallsForAll(events) + CallsFor(e)
      modifies this`events
      ensures Valid() && events == old(events) + [e]
    {
      hide Run, Step, CallsFor, Invariant;
      RunAppend(START, events, [e]);
      RunNext(before, [e]);
      RunNext(Current(), [e][1..]);
      InvariantKept(before, e);
      CallsAppend(events, [e]);
      CallsOne(e);
      events := events + [e];
    }

    method HandleTopLevelData(n: uint32, allowed: bool) returns (ok: bool)
      requires Valid()
      modifies this
      ensures ok <==> Step(old(Current()), TopLevel(n, allowed)).Some?
      ensures ok ==> Step(old(Current()), TopLevel(n, allowed)) == Some(Current())
      ensures ok ==> Valid() && events == old(events) + [TopLevel(n, allowed)]
      ensures ok ==> log == old(log) + CallsFor(TopLevel(n, allowed))
    {
      hide Run, CallsForAll, Advance;
      ghost var before := Current();
      if state != TOP_LEVEL_DATA || n >= TWO_16 || n == 0 || !allowed { return false; }
      numAssetGroups := n;
      log := log + [AddMintTopLevel(n)];
      var advanced := AdvanceState();
      assert advanced;
      Record(before, TopLevel(n, allowed));
      return true;
    }

    method HandleAssetGroup(id: PolicyId, n: uint32) returns (ok: bool)
      requires Valid()
      modifies this
      ensures ok <==> Step(old(Current()), Bundle(AssetGroup(id, n))).Some?
      ensures ok ==> Step(old(Current()), Bundle(AssetGroup(id, n))) == Some(Current())
      ensures ok ==> Valid() && events == old(events) + [Bundle(AssetGroup(id, n))]
      ensures ok ==> log == old(log) + CallsFor(Bundle(AssetGroup(id, n)))
    {
      hide Run, KeyLess, CallsForAll;
      ghost var before := Current();
      if state != ASSET_GROUP { return false; }
      if currentAssetGroup > 0 {
        var ordered := FulfillsCanonicalOrdering(policyId, id);
        if !ordered { return false; }
      }
      if n >= TWO_16 || n == 0 { return false; }
      policyId, numTokens := id, n;
      log := log + [AddMintGroup(id, n)];
      var advanced := AdvanceState();
      assert advanced;
      Record(before, Bundle(AssetGroup(id, n)));
      return true;
    }

    method HandleToken(name: AssetName, amount: Amount) returns (ok: bool)
      requires Valid()
      modifies this
      ensures ok <==> Step(old(Current()), Bundle(TokenAmount(name, amount))).Some?
      ensures ok ==> Step(old(Current()), Bundle(TokenAmount(name, amount))) == Some(Current())
      ensures ok ==> Valid() && events == old(events) + [Bundle(TokenAmount(name, amount))]
      ensures ok ==> log == old(log) + CallsFor(Bundle(TokenAmount(name, amount)))
    {
      hide Run, KeyLess, CallsForAll;
      ghost var before := Current();
      if state != TOKEN { return false; }
      if currentToken > 0 {
        var ordered := FulfillsCanonicalOrdering(assetName, name);
        if !ordered { return false; }
      }
      assetName := name;
      log := log + [AddMintToken(name, amount)];
      currentToken := currentToken + 1;
      if currentToken == numTokens {
        var advanced := AdvanceState();
        assert advanced;
      }
      Record(before, Bundle(TokenAmount(name, amount)));
      return true;
    }

    method HandleConfirm() returns (ok: bool)
      requires Valid()
      modifies this
      ensures ok <==> Step(old(Current()), ConfirmMint).Some?
      ensures ok ==> Step(old(Current()), ConfirmMint) == Some(Current())
      ensures ok ==> Valid() && events == old(events) + [ConfirmMint]
      ensures ok ==> log == old(log) + CallsFor(ConfirmMint)
    {
      hide Run, CallsForAll, Advance;
      ghost var before := Current();
      if state != CONFIRM { return false; }
      var advanced := AdvanceState();
      assert advanced;
      Record(before, ConfirmMint);
      return true;
    }

    /** signTxMint_handleAPDU with the parsed data of the request. */
    method HandleAPDU(e: MintEvent) returns (ok: bool)
      requires Valid()
      modifies this
      ensures ok <==> Step(old(Current()), e).Some?
      ensures ok ==> Step(old(Current()), e) == Some(Current())
      ensures ok ==> Valid() && events == old(events) + [e]
      ensures ok ==> log == old(log) + CallsFor(e)
    {
      hide Valid, KeyLess;
      match e {
        case TopLevel(n, allowed) => ok := HandleTopLevelData(n, allowed);
        case Bundle(AssetGroup(id, n)) => ok := HandleAssetGroup(id, n);
        case Bundle(TokenAmount(name, amount)) => ok := HandleToken(name, amount);
        case ConfirmMint => ok := HandleConfirm();
      }
    }

    /** The calls of a finished sub-machine are the word of one well-formed bundle. */
    lemma FinishedMint() returns (groups: seq<Group>)
      requires Valid() && state == FINISHED
      ensures Received(events, groups) && WellFormed(groups) && log == MintCalls(groups)
    {
      hide Run, Requests, MintCalls, CallsForAll;
      FinishedRun(events);
      groups :| Received(events, groups);
      RequestsLog(groups);
    }
  }

  const WEIGHT := 0x4_0000_0000

  /** How far a mint is from its end. */
  function Left(s: State): (n: nat)
    ensures n <= 3 * WEIGHT
  {
    match s.phase
    case TOP_LEVEL_DATA => 3 * WEIGHT
    case ASSET_GROUP => WEIGHT + TokensLeft(s.numAssetGroups, s.progress)
    case TOKEN => WEIGHT + TokensLeft(s.numAssetGroups, s.progress)
    case CONFIRM => 1
    case FINISHED => 0
  }

  lemma StepDecreases(s: State, e: MintEvent)
    requires Invariant(s) && Step(s, e).Some?
    ensures Left(Step(s, e).value) < Left(s)
  {
    hide KeyLess, TokenBundle.Advance, TokensLeft;
    if e.Bundle? {
      AdvanceDecreases(s.numAssetGroups, s.progress, e.part);
    }
  }
}
