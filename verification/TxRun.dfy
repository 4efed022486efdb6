/** What the requests of a signing call stand for: one transaction, and every transaction that is acceptable. */
module TxRun {
  import opened Basics
  import Bip44
  import AuxData
  import V = VoteRegistration
  import TokenBundle
  import M = TxMint
  import O = TxOutput
  import P = TxPool
  import opened TxBody
  import TxUnique
  import opened TxMachine

  /** What the requests up to the confirmation bring. The counts in the init data are those that are sent. */
  datatype Transaction = Transaction(init: InitData, aux: Aux, body: Body)

  predicate Accepted(t: Transaction) {
    && InitAccepted(t.init)
    && (t.aux.NoAux? <==> !t.init.includeAuxData)
    && (t.aux.Registered? ==> AuxData.WellFormed(t.aux.registration))
    && Matches(Stored(t.init), t.body)
    && WellFormed(Stored(t.init).Setting(), t.body)
  }

  // ------------------------------------------------------------ the requests of a transaction

  function RegistrationRequests(es: seq<AuxData.Event>): (rs: seq<TxRequest>)
    ensures |rs| == |es|
  {
    if es == [] then [] else RegistrationRequests(es[..|es| - 1]) + [OfRegistration(es[|es| - 1])]
  }

  function OutputPartRequests(collateral: bool, es: seq<O.OutputEvent>): (rs: seq<TxRequest>)
    ensures |rs| == |es|
  {
    if es == [] then []
    else
      OutputPartRequests(collateral, es[..|es| - 1])
      + [if collateral then OfCollateralOutput(es[|es| - 1]) else OfOutput(es[|es| - 1])]
  }

  function PoolRequests(es: seq<P.PoolEvent>): (rs: seq<TxRequest>)
    ensures |rs| == |es|
  {
    if es == [] then [] else PoolRequests(es[..|es| - 1]) + [OfPool(es[|es| - 1])]
  }

  function MintRequests(es: seq<M.MintEvent>): (rs: seq<TxRequest>)
    ensures |rs| == |es|
  {
    if es == [] then [] else MintRequests(es[..|es| - 1]) + [OfMint(es[|es| - 1])]
  }

  function SignerRequests(paths: seq<Bip44.Path>): (rs: seq<TxRequest>)
    ensures |rs| == |paths|
  {
    if paths == [] then [] else SignerRequests(paths[..|paths| - 1]) + [WitnessRequest(paths[|paths| - 1])]
  }

  function AuxRequests(a: Aux): seq<TxRequest> {
    match a
    case NoAux => []
    case GivenHash(h) => [AuxDataHashRequest(h)]
    case Registered(r) => [RegistrationRequest] + RegistrationRequests(AuxData.Events(r))
  }

  /** Element i of section k comes in one request. */
  predicate IsSimple(b: Body, k: nat, i: nat) {
    && i < Size(b, k) && k !in {OUTPUTS, MINT, COLLATERAL_OUTPUT}
    && (k == CERTIFICATES ==> b.certificates[i].Plain?)
  }

  function ElementAt(b: Body, k: nat, i: nat): Element
    requires IsSimple(b, k, i)
  {
    if k == INPUTS then InputElement(b.inputs[i])
    else if k == FEE then FeeElement(b.fee.value)
    else if k == TTL then TtlElement(b.ttl.value)
    else if k == CERTIFICATES then CertificateElement(b.certificates[i].plain)
    else if k == WITHDRAWALS then WithdrawalElement(b.withdrawals[i])
    else if k == VALIDITY_INTERVAL then ValidityIntervalStartElement(b.validityIntervalStart.value)
    else if k == SCRIPT_DATA_HASH then ScriptDataHashElement(b.scriptDataHash.value)
    else if k == COLLATERAL_INPUTS then CollateralInputElement(b.collateralInputs[i])
    else if k == REQUIRED_SIGNERS then RequiredSignerElement(b.requiredSigners[i])
    else if k == TOTAL_COLLATERAL then TotalCollateralElement(b.totalCollateral.value)
    else if k == REFERENCE_INPUTS then ReferenceInputElement(b.referenceInputs[i])
    else if k == VOTING_PROCEDURES then VotingProcedureElement(b.votingProcedures[i])
    else if k == TREASURY then TreasuryElement(b.treasury.value)
    else DonationElement(b.donation.value)
  }

  function OutputRequests(collateral: bool, o: O.Output): seq<TxRequest> {
    if O.WellFormed(false, o) then OutputPartRequests(collateral, O.Requests(o)) else []
  }

  /** The requests that bring element i of section k. */
  function ItemRequests(b: Body, k: nat, i: nat): seq<TxRequest>
    requires i < Size(b, k)
  {
    if IsSimple(b, k, i) then [ElementRequest(ElementAt(b, k, i))]
    else if k == OUTPUTS then OutputRequests(false, b.outputs[i])
    else if k == CERTIFICATES then
      [PoolCertificateRequest] + PoolRequests(P.Requests(b.certificates[i].certificate))
    else if k == MINT then
      (if M.WellFormed(b.mint.value) then MintRequests(M.Requests(b.mint.value)) else [])
    else OutputRequests(true, b.collateralOutput.value)
  }

  function SectionRequests(b: Body, k: nat, n: nat): seq<TxRequest>
    requires n <= Size(b, k)
  {
    if n == 0 then [] else SectionRequests(b, k, n - 1) + ItemRequests(b, k, n - 1)
  }

  /** The requests that bring the sections before section k. */
  function RequestsUpTo(b: Body, k: nat): seq<TxRequest> {
    if k == 0 then [] else RequestsUpTo(b, k - 1) + SectionRequests(b, k - 1, Size(b, k - 1))
  }

  function BodyRequests(b: Body): seq<TxRequest> {
    RequestsUpTo(b, END)
  }

  /** The requests before the confirmation. */
  function Requests(t: Transaction): seq<TxRequest> {
    [InitRequest(t.init)] + AuxRequests(t.aux) + BodyRequests(t.body)
  }

  ghost predicate Received(rs: seq<TxRequest>, t: Transaction) {
    Accepted(t) && Requests(t) == rs
  }

  // ------------------------------------------------------------ what a state has been told

  /** The requests of the sub-machine at work. */
  function PartRequests(s: State): seq<TxRequest> {
    match s.part
    case Idle => []
    case RegistrationPart(_, es) => [RegistrationRequest] + RegistrationRequests(es)
    case OutputPart(_, es) => OutputPartRequests(s.stage != OUTPUTS_SUBMACHINE, es)
    case PoolPart(_, es) => [PoolCertificateRequest] + PoolRequests(es)
    case MintPart(_, es) => MintRequests(es)
  }

  function LastRequests(s: State): seq<TxRequest> {
    if s.stage in {WITNESSES, NONE} then [ConfirmRequest] + SignerRequests(s.signers) else []
  }

  /** The requests since the init request that a state stands for. */
  function Heard(s: State): seq<TxRequest> {
    AuxRequests(s.aux) + (BodyRequests(s.body) + (PartRequests(s) + LastRequests(s)))
  }

  ghost predicate Tells(rs: seq<TxRequest>, s: State) {
    if rs == [] then s == START
    else
      && rs[0].InitRequest? && InitAccepted(rs[0].data) && s.params == Stored(rs[0].data)
      && s.stage != INIT && rs == [rs[0]] + Heard(s)
  }

  lemma {:induction false} SameSectionRequests(b: Body, c: Body, k: nat, n: nat)
    requires n <= Size(b, k) && n <= Size(c, k)
    requires forall i :: 0 <= i < n ==> ItemRequests(b, k, i) == ItemRequests(c, k, i)
    ensures SectionRequests(b, k, n) == SectionRequests(c, k, n)
  {
    hide ItemRequests, Size;
    if n > 0 {
      SameSectionRequests(b, c, k, n - 1);
    }
  }

  lemma SameItems(b: Body, c: Body, k: nat, j: nat)
    requires SameExcept(b, c, k) && j != k
    ensures Size(b, j) == Size(c, j)
    ensures forall i :: 0 <= i < Size(b, j) ==> ItemRequests(b, j, i) == ItemRequests(c, j, i)
  {
    hide OutputRequests, MintRequests, PoolRequests, M.WellFormed;
  }

  lemma {:induction false} SameRequestsUpTo(b: Body, c: Body, k: nat, j: nat)
    requires SameExcept(b, c, k) && j <= k
    ensures RequestsUpTo(b, j) == RequestsUpTo(c, j)
  {
    hide ItemRequests, Size, SameExcept, SectionRequests;
    if j > 0 {
      SameRequestsUpTo(b, c, k, j - 1);
      SameItems(b, c, k, j - 1);
      SameSectionRequests(b, c, j - 1, Size(b, j - 1));
    }
  }

  lemma {:induction false} NothingAfter(b: Body, k: nat, j: nat)
    requires k < j && forall i :: k < i < j ==> Size(b, i) == 0
    ensures RequestsUpTo(b, j) == RequestsUpTo(b, k + 1)
  {
    hide ItemRequests, Size;
    if j > k + 1 {
      NothingAfter(b, k, j - 1);
      assert SectionRequests(b, j - 1, Size(b, j - 1)) == [];
    }
  }

  /** The items of section k are the same but for the last one of the second body. */
  predicate ItemsKept(b: Body, c: Body, k: nat) {
    Size(b, k) < Size(c, k) && forall i :: 0 <= i < Size(b, k) ==> ItemRequests(b, k, i) == ItemRequests(c, k, i)
  }

  /** An element received in section k is told by its own requests, after all the others. */
  lemma BodyGrows(p: Params, b: Body, c: Body, k: nat)
    requires k < END && Progressed(p, b, k) && GrownBy(b, c, k) && ItemsKept(b, c, k)
    ensures BodyRequests(c) == BodyRequests(b) + ItemRequests(c, k, Size(b, k))
  {
    hide ItemRequests, Size, SameExcept, Expected;
    var n := Size(b, k);
    forall j: nat | j != k ensures Size(b, j) == Size(c, j) {
      SizeElsewhere(b, c, k, j);
    }
    NothingAfter(b, k, END);
    NothingAfter(c, k, END);
    SameRequestsUpTo(b, c, k, k);
    SameSectionRequests(b, c, k, n);
    var x, y, z := RequestsUpTo(b, k), SectionRequests(b, k, n), ItemRequests(c, k, n);
    assert RequestsUpTo(b, k + 1) == x + y;
    assert RequestsUpTo(c, k + 1) == x + (y + z);
    assert x + (y + z) == (x + y) + z;
  }

  lemma ElementTold(p: Params, b: Body, e: Element)
    requires var k := SectionOf(e); Progressed(p, b, k) && Size(b, k) < Expected(p, k)
    ensures BodyRequests(Extended(b, e)) == BodyRequests(b) + [ElementRequest(e)]
  {
    hide BodyRequests, ItemRequests, Progressed;
    var k, c := SectionOf(e), Extended(b, e);
    ElementGrows(p, b, e);
    ElementItems(p, b, e);
    BodyGrows(p, b, c, k);
  }

  lemma ElementItems(p: Params, b: Body, e: Element)
    requires var k := SectionOf(e); Size(b, k) < Expected(p, k)
    ensures var k, c := SectionOf(e), Extended(b, e);
            ItemsKept(b, c, k) && ItemRequests(c, k, Size(b, k)) == [ElementRequest(e)]
  {
    hide PoolRequests, P.Requests;
    ElementGrows(p, b, e);
  }

  lemma OutputTold(p: Params, b: Body, o: O.Output)
    requires Progressed(p, b, OUTPUTS) && O.WellFormed(false, o)
    ensures BodyRequests(b.(outputs := b.outputs + [o]))
            == BodyRequests(b) + OutputPartRequests(false, O.Requests(o))
  {
    hide BodyRequests, OutputPartRequests, Progressed, O.WellFormed, O.Requests;
    BodyGrows(p, b, b.(outputs := b.outputs + [o]), OUTPUTS);
  }

  lemma CertificateTold(p: Params, b: Body, c: P.Certificate)
    requires Progressed(p, b, CERTIFICATES)
    ensures BodyRequests(b.(certificates := b.certificates + [Pool(c)]))
            == BodyRequests(b) + ([PoolCertificateRequest] + PoolRequests(P.Requests(c)))
  {
    hide BodyRequests, PoolRequests, Progressed, P.Requests;
    BodyGrows(p, b, b.(certificates := b.certificates + [Pool(c)]), CERTIFICATES);
  }

  lemma MintTold(p: Params, b: Body, groups: seq<TokenBundle.Group>)
    requires Progressed(p, b, MINT) && b.mint.None? && M.WellFormed(groups)
    ensures BodyRequests(b.(mint := Some(groups))) == BodyRequests(b) + MintRequests(M.Requests(groups))
  {
    hide BodyRequests, MintRequests, Progressed, M.Requests, M.WellFormed;
    BodyGrows(p, b, b.(mint := Some(groups)), MINT);
  }

  lemma CollateralOutputTold(p: Params, b: Body, o: O.Output)
    requires Progressed(p, b, COLLATERAL_OUTPUT) && b.collateralOutput.None? && O.WellFormed(false, o)
    ensures BodyRequests(b.(collateralOutput := Some(o)))
            == BodyRequests(b) + OutputPartRequests(true, O.Requests(o))
  {
    hide BodyRequests, OutputPartRequests, Progressed, O.WellFormed, O.Requests;
    BodyGrows(p, b, b.(collateralOutput := Some(o)), COLLATERAL_OUTPUT);
  }

  lemma NothingToBring()
    ensures BodyRequests(EMPTY) == []
  {
    hide ItemRequests;
    NothingAfter(EMPTY, 0, END);
    assert SectionRequests(EMPTY, 0, Size(EMPTY, 0)) == [];
    assert RequestsUpTo(EMPTY, 0) == [];
  }

  // ------------------------------------------------------------ from an accepted run back to the transaction

  lemma OnlyBodyTold(s: State, t: State)
    requires t.aux == s.aux && t.stage !in {WITNESSES, NONE} && s.stage !in {WITNESSES, NONE} && t.part.Idle?
    requires BodyRequests(t.body) == BodyRequests(s.body) + PartRequests(s)
    ensures Heard(t) == Heard(s)
  {
    hide BodyRequests, AuxRequests;
    var a, b, c := AuxRequests(s.aux), BodyRequests(s.body), PartRequests(s);
    assert (b + c) + ([] + []) == b + (c + []);
  }

  lemma OutputPollTold(s: State, collateral: bool)
    requires OutputInvariant(collateral, s.part) && s.part.output.phase == O.FINISHED
    requires s.stage == if collateral then COLLATERAL_OUTPUT_SUBMACHINE else OUTPUTS_SUBMACHINE
    requires AtWork(s, if collateral then COLLATERAL_OUTPUT else OUTPUTS)
    ensures BodyRequests(Poll(s).body) == BodyRequests(s.body) + PartRequests(s)
  {
    hide O.Run, O.WellFormed, O.Requests, O.Invariant, BodyRequests, OutputPartRequests, Progressed, Poll, OutputOf;
    var o := FinishedOutput(collateral, s.part);
    if collateral {
      CollateralOutputPolled(s, o);
      CollateralOutputTold(s.params, s.body, o);
    } else {
      OutputPolled(s, o);
      OutputTold(s.params, s.body, o);
    }
  }

  lemma PoolPollTold(keyHashOf: Bip44.Path -> KeyHash, s: State)
    requires PoolInvariant(keyHashOf, s.params.Setting(), s.part) && s.part.pool.phase == P.FINISHED
    requires AtWork(s, CERTIFICATES)
    ensures BodyRequests(Poll(s).body) == BodyRequests(s.body) + PartRequests(s)
  {
    hide P.Run, P.WellFormed, P.Requests, BodyRequests, PoolRequests, Progressed, Poll, CertificateOf;
    var c := FinishedPool(keyHashOf, s.params.Setting(), s.part);
    PoolPolled(s, c);
    CertificateTold(s.params, s.body, c);
  }

  lemma MintPollTold(s: State)
    requires MintInvariant(s.part) && s.part.mint.phase == M.FINISHED && AtWork(s, MINT)
    ensures BodyRequests(Poll(s).body) == BodyRequests(s.body) + PartRequests(s)
  {
    hide M.Run, M.WellFormed, M.Requests, M.Invariant, BodyRequests, MintRequests, Progressed, Poll, GroupsOf;
    var groups := FinishedMint(s.part);
    MintPolled(s, groups);
    MintTold(s.params, s.body, groups);
  }

  lemma RegistrationPollTold(keyHashOf: Bip44.Path -> KeyHash, s: State)
    requires Invariant(keyHashOf, s) && s.part.RegistrationPart? && PartFinished(s.part)
    ensures Heard(Poll(s)) == Heard(s)
  {
    hide V.Run, BodyRequests, RegistrationRequests, Poll, AuxData.Events, WellFormed, AuxData.WellFormed, Progressed;
    RegistrationPolled(keyHashOf, s);
    NothingToBring();
    assert s.aux.NoAux?;
    var a := [RegistrationRequest] + RegistrationRequests(s.part.registrationEvents);
    assert a + ([] + ([] + [])) == [] + ([] + (a + []));
  }

  /** Polling moves the requests of a sub-machine to the element they bring. */
  lemma PollTold(keyHashOf: Bip44.Path -> KeyHash, s: State)
    requires Invariant(keyHashOf, s)
    ensures Heard(Poll(s)) == Heard(s)
  {
    hide BodyRequests, PartRequests, WellFormed, AuxInvariant, OutputInvariant, PoolInvariant, MintInvariant,
         RegistrationInvariant, AtWork, Poll, Heard, GrownBy, Grown;
    if !PartFinished(s.part) {
      NothingToPoll(s);
    } else if s.part.RegistrationPart? {
      RegistrationPollTold(keyHashOf, s);
    } else {
      var k := PollGrows(keyHashOf, s);
      GrownParts(s, k, Poll(s).body);
      PartTold(keyHashOf, s);
      OnlyBodyTold(s, Poll(s));
    }
  }

  lemma GrownParts(s: State, k: nat, b: Body)
    requires AtWork(s, k)
    ensures k < END
    ensures var t := Grown(s, k, b);
            t.aux == s.aux && t.stage !in {WITNESSES, NONE} && t.part.Idle?
  {
    hide Size, Expected, Progressed;
  }

  lemma PartTold(keyHashOf: Bip44.Path -> KeyHash, s: State)
    requires Invariant(keyHashOf, s) && PartFinished(s.part) && !s.part.RegistrationPart?
    ensures BodyRequests(Poll(s).body) == BodyRequests(s.body) + PartRequests(s)
  {
    hide BodyRequests, PartRequests, WellFormed, AtWork, Poll, O.Run, M.Run, P.Run, V.Run, O.Invariant, M.Invariant,
         Progressed;
    match s.stage {
      case OUTPUTS_SUBMACHINE => OutputPollTold(s, false);
      case COLLATERAL_OUTPUT_SUBMACHINE => OutputPollTold(s, true);
      case CERTIFICATES_POOL_SUBMACHINE => PoolPollTold(keyHashOf, s);
      case MINT_SUBMACHINE => MintPollTold(s);
      case _ => assert false;
    }
  }

  lemma ElementHeard(keyHashOf: Bip44.Path -> KeyHash, s: State, e: Element, allowed: bool)
    requires Invariant(keyHashOf, s) && HandledElement(s, e, allowed).Some?
    ensures Heard(HandledElement(s, e, allowed).value) == Heard(s) + [ElementRequest(e)]
  {
    hide BodyRequests, AuxRequests, WellFormed, ElementAccepted, Extended, Progressed, Size, Expected, AuxInvariant;
    GrownParts(s, SectionOf(e), Extended(s.body, e));
    ElementTold(s.params, s.body, e);
    var a, b := AuxRequests(s.aux), BodyRequests(s.body);
    assert a + ((b + [ElementRequest(e)]) + ([] + [])) == a + (b + ([] + [])) + [ElementRequest(e)];
  }

  /** The last part of what a state has been told has grown by one request. */
  lemma LastHeard(s: State, t: State, r: TxRequest)
    requires t.aux == s.aux && t.body == s.body
    requires PartRequests(t) + LastRequests(t) == PartRequests(s) + LastRequests(s) + [r]
    ensures Heard(t) == Heard(s) + [r]
  {
    hide BodyRequests, AuxRequests;
    var a, b, c := AuxRequests(s.aux), BodyRequests(s.body), PartRequests(s) + LastRequests(s);
    assert a + (b + (c + [r])) == a + (b + c) + [r];
  }

  lemma PartSnoc(collateral: bool)
    ensures forall es, e :: OutputPartRequests(collateral, es + [e])
                            == OutputPartRequests(collateral, es)
                               + [if collateral then OfCollateralOutput(e) else OfOutput(e)]
  {
    forall es: seq<O.OutputEvent>, e
      ensures OutputPartRequests(collateral, es + [e])
              == OutputPartRequests(collateral, es) + [if collateral then OfCollateralOutput(e) else OfOutput(e)]
    {
      assert (es + [e])[..|es|] == es;
    }
  }

  lemma OtherSnoc()
    ensures forall es, e :: PoolRequests(es + [e]) == PoolRequests(es) + [OfPool(e)]
    ensures forall es, e :: MintRequests(es + [e]) == MintRequests(es) + [OfMint(e)]
    ensures forall es, e :: RegistrationRequests(es + [e]) == RegistrationRequests(es) + [OfRegistration(e)]
    ensures forall ps, p :: SignerRequests(ps + [p]) == SignerRequests(ps) + [WitnessRequest(p)]
  {
    forall es: seq<P.PoolEvent>, e ensures PoolRequests(es + [e]) == PoolRequests(es) + [OfPool(e)] {
      assert (es + [e])[..|es|] == es;
    }
    forall es: seq<M.MintEvent>, e ensures MintRequests(es + [e]) == MintRequests(es) + [OfMint(e)] {
      assert (es + [e])[..|es|] == es;
    }
    forall es: seq<AuxData.Event>, e
      ensures RegistrationRequests(es + [e]) == RegistrationRequests(es) + [OfRegistration(e)]
    {
      assert (es + [e])[..|es|] == es;
    }
    forall ps: seq<Bip44.Path>, p ensures SignerRequests(ps + [p]) == SignerRequests(ps) + [WitnessRequest(p)] {
      assert (ps + [p])[..|ps|] == ps;
    }
  }

  lemma PartHeard(keyHashOf: Bip44.Path -> KeyHash, s: State, r: TxRequest)
    requires Invariant(keyHashOf, s) && HandledPart(keyHashOf, s, r).Some?
    ensures Heard(HandledPart(keyHashOf, s, r).value) == Heard(s) + [r]
  {
    hide WellFormed, AtWork, AuxData.WellFormed, AuxInvariant, O.Step, M.Step, P.Step, V.Step, O.Run, M.Run, P.Run,
         V.Run, O.Invariant, M.Invariant, BodyRequests, Heard, OutputPartRequests, PoolRequests, MintRequests,
         RegistrationRequests;
    var t := HandledPart(keyHashOf, s, r).value;
    PartSnoc(r.OfCollateralOutput?);
    OtherSnoc();
    NoPartRequests();
    LastHeard(s, t, r);
  }

  lemma NoPartRequests()
    ensures OutputPartRequests(false, []) == [] && OutputPartRequests(true, []) == [] && PoolRequests([]) == []
    ensures MintRequests([]) == [] && RegistrationRequests([]) == [] && SignerRequests([]) == []
  {
  }

  lemma ControlHeard(keyHashOf: Bip44.Path -> KeyHash, s: State, r: TxRequest, allowed: bool)
    requires Invariant(keyHashOf, s) && HandledControl(s, r, allowed).Some? && !r.InitRequest?
    ensures Heard(HandledControl(s, r, allowed).value) == Heard(s) + [r]
  {
    hide WellFormed, AtWork, AuxData.WellFormed, WitnessAllowed, Progressed, BodyRequests, Heard, OutputPartRequests,
         PoolRequests, MintRequests, RegistrationRequests, SignerRequests, Stored, InitAccepted;
    var t := HandledControl(s, r, allowed).value;
    OtherSnoc();
    NoPartRequests();
    match r {
      case AuxDataHashRequest(h) => HashHeard(s, t, h);
      case _ => LastHeard(s, t, r);
    }
  }

  lemma HashHeard(s: State, t: State, h: Hash32)
    requires s.body == EMPTY && s.aux.NoAux? && s.part.Idle? && t == s.(stage := AT(INPUTS), aux := GivenHash(h))
    requires s.stage == AUX_DATA
    ensures Heard(t) == Heard(s) + [AuxDataHashRequest(h)]
  {
    hide BodyRequests;
    NothingToBring();
  }

  /** A request that is accepted is told by the state it leads to, after all earlier ones. */
  lemma HandledHeard(keyHashOf: Bip44.Path -> KeyHash, s: State, r: TxRequest, allowed: bool)
    requires Invariant(keyHashOf, s) && Handled(keyHashOf, s, r, allowed).Some? && !r.InitRequest?
    ensures Heard(Handled(keyHashOf, s, r, allowed).value) == Heard(s) + [r]
  {
    hide Invariant, HandledElement, HandledPart, HandledControl, Heard;
    match r {
      case ElementRequest(e) => ElementHeard(keyHashOf, s, e, allowed);
      case OfRegistration(_) => PartHeard(keyHashOf, s, r);
      case OfOutput(_) => PartHeard(keyHashOf, s, r);
      case OfPool(_) => PartHeard(keyHashOf, s, r);
      case OfMint(_) => PartHeard(keyHashOf, s, r);
      case OfCollateralOutput(_) => PartHeard(keyHashOf, s, r);
      case _ => ControlHeard(keyHashOf, s, r, allowed);
    }
  }

  /** Only the first request is an init request, and it changes the stage and the parameters alone. */
  lemma InitHandled(keyHashOf: Bip44.Path -> KeyHash, s: State, r: TxRequest)
    requires Invariant(keyHashOf, s) && Handled(keyHashOf, s, r, true).Some?
    ensures r.InitRequest? <==> s.stage == INIT
    ensures var t := Handled(keyHashOf, s, r, true).value;
      && t.stage != INIT
      && (r.InitRequest? ==> s == START && InitAccepted(r.data) && t.params == Stored(r.data) && Heard(t) == [])
      && (!r.InitRequest? ==> t.params == s.params)
  {
    hide WellFormed, AtWork, AuxData.WellFormed, AuxInvariant, WitnessAllowed, BodyRequests, Stored, InitAccepted,
         ElementAccepted, Extended, O.Step, M.Step, P.Step, V.Step, Progressed, Size, Expected, O.Run, M.Run, P.Run,
         V.Run;
    if r.InitRequest? {
      NothingToBring();
    }
  }

  /** Every accepted run is told by the state it leads to. */
  lemma {:induction false} RunTells(keyHashOf: Bip44.Path -> KeyHash, rs: seq<TxRequest>)
    requires Run(keyHashOf, START, rs).Some?
    ensures Tells(rs, Run(keyHashOf, START, rs).value)
    decreases |rs|
  {
    hide Invariant, Run, Poll, Handled, Heard, InitAccepted, Stored;
    RunNext(keyHashOf, START, rs);
    if rs != [] {
      var n := |rs| - 1;
      var r := rs[n];
      assert rs == rs[..n] + [r];
      RunSnoc(keyHashOf, START, rs[..n], r);
      StartKept(keyHashOf);
      RunKept(keyHashOf, START, rs[..n]);
      RunTells(keyHashOf, rs[..n]);
      StepTells(keyHashOf, rs[..n], Run(keyHashOf, START, rs[..n]).value, r);
    }
  }

  lemma StepTells(keyHashOf: Bip44.Path -> KeyHash, rs: seq<TxRequest>, s: State, r: TxRequest)
    requires Tells(rs, s) && Invariant(keyHashOf, s) && Step(keyHashOf, s, r, true).Some?
    ensures Tells(rs + [r], Step(keyHashOf, s, r, true).value)
  {
    hide Invariant, Poll, Handled, Heard, InitAccepted, Stored;
    PollKept(keyHashOf, s);
    PollTold(keyHashOf, s);
    InitHandled(keyHashOf, Poll(s), r);
    PolledStage(s);
    var t := Step(keyHashOf, s, r, true).value;
    if r.InitRequest? {
      assert rs == [] && rs + [r] == [r];
    } else {
      HandledHeard(keyHashOf, Poll(s), r, true);
      assert rs != [];
      assert (rs + [r])[0] == rs[0];
      assert [rs[0]] + Heard(s) + [r] == [rs[0]] + (Heard(s) + [r]);
    }
  }

  lemma PolledStage(s: State)
    ensures Poll(s).params == s.params
    ensures s.stage != INIT ==> Poll(s).stage != INIT
    ensures Poll(START) == START
  {
    hide OutputOf, GroupsOf, CertificateOf, RegistrationOf, Size, Expected;
  }

  // ------------------------------------------------------------ and from a transaction to its run

  function CutList<A>(s: seq<A>, j: nat, k: nat, i: nat): seq<A> {
    if j < k then s else if j == k && i <= |s| then s[..i] else []
  }

  function CutOption<A>(o: Option<A>, j: nat, k: nat, i: nat): Option<A> {
    if j < k || (j == k && i > 0) then o else None
  }

  /** The sections before section k, and its first i elements. */
  function Cut(b: Body, k: nat, i: nat): Body {
    Body(CutList(b.inputs, INPUTS, k, i), CutList(b.outputs, OUTPUTS, k, i), CutOption(b.fee, FEE, k, i),
         CutOption(b.ttl, TTL, k, i), CutList(b.certificates, CERTIFICATES, k, i),
         CutList(b.withdrawals, WITHDRAWALS, k, i), CutOption(b.validityIntervalStart, VALIDITY_INTERVAL, k, i),
         CutOption(b.mint, MINT, k, i), CutOption(b.scriptDataHash, SCRIPT_DATA_HASH, k, i),
         CutList(b.collateralInputs, COLLATERAL_INPUTS, k, i), CutList(b.requiredSigners, REQUIRED_SIGNERS, k, i),
         CutOption(b.collateralOutput, COLLATERAL_OUTPUT, k, i), CutOption(b.totalCollateral, TOTAL_COLLATERAL, k, i),
         CutList(b.referenceInputs, REFERENCE_INPUTS, k, i), CutList(b.votingProcedures, VOTING_PROCEDURES, k, i),
         CutOption(b.treasury, TREASURY, k, i), CutOption(b.donation, DONATION, k, i))
  }

  lemma CutWhole(b: Body, k: nat)
    requires k < END
    ensures Cut(b, k, Size(b, k)) == Cut(b, k + 1, 0)
  {
  }

  lemma CutEnds(b: Body)
    ensures Cut(b, 0, 0) == EMPTY && Cut(b, END, 0) == b
  {
  }

  lemma CutSize(b: Body, k: nat, i: nat)
    requires i <= Size(b, k)
    ensures Size(Cut(b, k, i), k) == i
  {
  }

  /** Receiving element i of section k leads from one part of the body to the next. */
  lemma CutExtended(b: Body, k: nat, i: nat)
    requires IsSimple(b, k, i)
    ensures SectionOf(ElementAt(b, k, i)) == k
    ensures Extended(Cut(b, k, i), ElementAt(b, k, i)) == Cut(b, k, i + 1)
  {
    hide Cut, ElementAt, Extended, SectionOf;
    if k in {INPUTS, COLLATERAL_INPUTS, REFERENCE_INPUTS} {
      InputsExtended(b, k, i);
    } else if k in {CERTIFICATES, WITHDRAWALS, REQUIRED_SIGNERS, VOTING_PROCEDURES} {
      ListExtended(b, k, i);
    } else {
      OptionExtended(b, k);
    }
  }

  lemma InputsExtended(b: Body, k: nat, i: nat)
    requires IsSimple(b, k, i) && k in {INPUTS, COLLATERAL_INPUTS, REFERENCE_INPUTS}
    ensures SectionOf(ElementAt(b, k, i)) == k
    ensures Extended(Cut(b, k, i), ElementAt(b, k, i)) == Cut(b, k, i + 1)
  {
  }

  lemma ListExtended(b: Body, k: nat, i: nat)
    requires IsSimple(b, k, i) && k in {CERTIFICATES, WITHDRAWALS, REQUIRED_SIGNERS, VOTING_PROCEDURES}
    ensures SectionOf(ElementAt(b, k, i)) == k
    ensures Extended(Cut(b, k, i), ElementAt(b, k, i)) == Cut(b, k, i + 1)
  {
  }

  lemma OptionExtended(b: Body, k: nat)
    requires IsSimple(b, k, 0)
    requires k in {FEE, TTL, VALIDITY_INTERVAL, SCRIPT_DATA_HASH, TOTAL_COLLATERAL, TREASURY, DONATION}
    ensures SectionOf(ElementAt(b, k, 0)) == k
    ensures Extended(Cut(b, k, 0), ElementAt(b, k, 0)) == Cut(b, k, 1)
  {
  }

  lemma CutOutputs(b: Body, i: nat)
    requires i < |b.outputs|
    ensures var c := Cut(b, OUTPUTS, i); c.(outputs := c.outputs + [b.outputs[i]]) == Cut(b, OUTPUTS, i + 1)
  {
  }

  lemma CutCertificates(b: Body, i: nat)
    requires i < |b.certificates|
    ensures var c := Cut(b, CERTIFICATES, i);
            c.(certificates := c.certificates + [b.certificates[i]]) == Cut(b, CERTIFICATES, i + 1)
  {
  }

  lemma CutParts(b: Body)
    ensures b.mint.Some? ==> Cut(b, MINT, 0).(mint := b.mint) == Cut(b, MINT, 1)
    ensures b.collateralOutput.Some? ==>
            Cut(b, COLLATERAL_OUTPUT, 0).(collateralOutput := b.collateralOutput) == Cut(b, COLLATERAL_OUTPUT, 1)
  {
  }

  lemma CutAccepted(g: Setting, b: Body, k: nat, i: nat)
    requires WellFormed(g, b) && IsSimple(b, k, i)
    ensures ElementAccepted(g, Cut(b, k, i), ElementAt(b, k, i))
  {
    hide O.WellFormed, M.WellFormed, P.WellFormed, TokenBundle.KeyLess, TokenBundle.Ascending, Accounts;
    if k == WITHDRAWALS && i > 0 {
      TokenBundle.AscendingOrdered(None, Accounts(b.withdrawals));
      assert Accounts(b.withdrawals)[i - 1] == b.withdrawals[i - 1].account;
      assert Accounts(b.withdrawals)[i] == b.withdrawals[i].account;
    }
  }

  function StageAt(p: Params, k: nat, i: nat): Stage {
    if k >= END then CONFIRM else if i < Expected(p, k) then AT(k) else StageOf(Next(p, k))
  }

  /** The state in which the first i elements of section k have just been received. */
  function At(p: Params, aux: Aux, b: Body, k: nat, i: nat): State {
    State(StageAt(p, k, i), p, aux, Cut(b, k, i), Idle, [])
  }

  lemma AtWhole(p: Params, aux: Aux, b: Body, k: nat)
    requires k < END && Size(b, k) == Expected(p, k)
    ensures At(p, aux, b, k, Size(b, k)) == At(p, aux, b, k + 1, 0)
  {
    hide Size, Expected, Cut;
    CutWhole(b, k);
  }

  /** The requests are accepted and lead, once the sub-machines have been polled, to the state. */
  ghost predicate Reaches(keyHashOf: Bip44.Path -> KeyHash, rs: seq<TxRequest>, s: State) {
    Run(keyHashOf, START, rs).Some? && Poll(Run(keyHashOf, START, rs).value) == s
  }

  lemma ReachesNext(keyHashOf: Bip44.Path -> KeyHash, rs: seq<TxRequest>, s: State, r: TxRequest)
    requires Reaches(keyHashOf, rs, s) && Handled(keyHashOf, s, r, true).Some?
    ensures Run(keyHashOf, START, rs + [r]) == Handled(keyHashOf, s, r, true)
  {
    hide Run, Poll, Handled;
    RunSnoc(keyHashOf, START, rs, r);
  }

  lemma Unpolled(keyHashOf: Bip44.Path -> KeyHash, rs: seq<TxRequest>, s: State)
    requires Run(keyHashOf, START, rs) == Some(s) && !PartFinished(s.part)
    ensures Reaches(keyHashOf, rs, s)
  {
    hide Run, Poll;
    NothingToPoll(s);
  }

  lemma SimpleItem(keyHashOf: Bip44.Path -> KeyHash, rs: seq<TxRequest>, p: Params, aux: Aux, b: Body, k: nat, i: nat)
    requires Reaches(keyHashOf, rs, At(p, aux, b, k, i)) && WellFormed(p.Setting(), b)
    requires IsSimple(b, k, i) && Size(b, k) == Expected(p, k) && k < END
    ensures Reaches(keyHashOf, rs + [ElementRequest(ElementAt(b, k, i))], At(p, aux, b, k, i + 1))
  {
    hide Run, Reaches, WellFormed, ElementAccepted, ElementAt, Extended, Cut, Size, Expected;
    var s, e := At(p, aux, b, k, i), ElementAt(b, k, i);
    CutExtended(b, k, i);
    CutAccepted(p.Setting(), b, k, i);
    SimpleInSection(b, k, i);
    CutSize(b, k, i + 1);
    ReachesNext(keyHashOf, rs, s, ElementRequest(e));
    Unpolled(keyHashOf, rs + [ElementRequest(e)], At(p, aux, b, k, i + 1));
  }

  lemma SimpleInSection(b: Body, k: nat, i: nat)
    requires IsSimple(b, k, i)
    ensures i < Size(b, k)
  {
  }

  /** The state in which a sub-machine has accepted the first n of its requests. */
  function InOutput(s: State, collateral: bool, es: seq<O.OutputEvent>): State {
    if O.Run(collateral, O.START, es).None? then s
    else
      Opened(s, if collateral then COLLATERAL_OUTPUT_SUBMACHINE else OUTPUTS_SUBMACHINE,
             OutputPart(O.Run(collateral, O.START, es).value, es))
  }

  lemma OutputPrefix(collateral: bool, es: seq<O.OutputEvent>)
    requires es != [] && O.Run(collateral, O.START, es).Some?
    ensures var m := |es| - 1;
            var t := O.Run(collateral, O.START, es[..m]);
      && t.Some? && O.Step(collateral, t.value, es[m]) == O.Run(collateral, O.START, es)
      && t.value.phase != O.FINISHED
  {
    hide O.Run, O.Step;
    var m := |es| - 1;
    var t := O.Run(collateral, O.START, es[..m]);
    assert es == es[..m] + [es[m]];
    O.RunAppend(collateral, O.START, es[..m], [es[m]]);
    O.RunNext(collateral, t.value, [es[m]]);
    if O.Step(collateral, t.value, es[m]).Some? {
      O.RunNext(collateral, O.Step(collateral, t.value, es[m]).value, [es[m]][1..]);
    }
  }

  lemma {:induction false} OutputRun(keyHashOf: Bip44.Path -> KeyHash, rs: seq<TxRequest>, s: State, collateral: bool,
                                     es: seq<O.OutputEvent>)
    requires Reaches(keyHashOf, rs, s) && s.stage == AT(if collateral then COLLATERAL_OUTPUT else OUTPUTS)
    requires es != [] && O.Run(collateral, O.START, es).Some?
    ensures Run(keyHashOf, START, rs + OutputPartRequests(collateral, es)) == Some(InOutput(s, collateral, es))
    decreases |es|
  {
    hide Run, O.Run, O.Step, Reaches, OutputPartRequests;
    var m := |es| - 1;
    var e := es[m];
    var r := if collateral then OfCollateralOutput(e) else OfOutput(e);
    assert es == es[..m] + [e];
    PartSnoc(collateral);
    NoPartRequests();
    OutputPrefix(collateral, es);
    var before := OutputPartRequests(collateral, es[..m]);
    assert rs + OutputPartRequests(collateral, es) == (rs + before) + [r];
    if m == 0 {
      assert rs + before == rs;
      assert es[..m] == [];
      O.RunNext(collateral, O.START, []);
      ReachesNext(keyHashOf, rs, s, r);
    } else {
      OutputRun(keyHashOf, rs, s, collateral, es[..m]);
      Unpolled(keyHashOf, rs + before, InOutput(s, collateral, es[..m]));
      ReachesNext(keyHashOf, rs + before, InOutput(s, collateral, es[..m]), r);
    }
  }

  function InPool(s: State, env: P.Env, es: seq<P.PoolEvent>): State {
    if P.Run(env, P.START, es).None? then s
    else Opened(s, CERTIFICATES_POOL_SUBMACHINE, PoolPart(P.Run(env, P.START, es).value, es))
  }

  lemma PoolPrefix(env: P.Env, es: seq<P.PoolEvent>)
    requires es != [] && P.Run(env, P.START, es).Some?
    ensures var m := |es| - 1;
            var t := P.Run(env, P.START, es[..m]);
      t.Some? && P.Step(env, t.value, es[m]) == P.Run(env, P.START, es) && t.value.phase != P.FINISHED
  {
    hide P.Run, P.Step;
    var m := |es| - 1;
    var t := P.Run(env, P.START, es[..m]);
    assert es == es[..m] + [es[m]];
    P.RunAppend(env, P.START, es[..m], [es[m]]);
    P.RunNext(env, t.value, [es[m]]);
    if P.Step(env, t.value, es[m]).Some? {
      P.RunNext(env, P.Step(env, t.value, es[m]).value, [es[m]][1..]);
    }
  }

  lemma {:induction false} PoolRun(keyHashOf: Bip44.Path -> KeyHash, rs: seq<TxRequest>, s: State,
                                   es: seq<P.PoolEvent>)
    requires Reaches(keyHashOf, rs, InPool(s, P.Env(s.params.Setting(), keyHashOf), []))
    requires P.Run(P.Env(s.params.Setting(), keyHashOf), P.START, es).Some?
    ensures Run(keyHashOf, START, rs + PoolRequests(es))
            == Some(InPool(s, P.Env(s.params.Setting(), keyHashOf), es)) || es == []
    decreases |es|
  {
    hide Run, P.Run, P.Step, Reaches, PoolRequests;
    var env := P.Env(s.params.Setting(), keyHashOf);
    if es != [] {
      var m := |es| - 1;
      var e := es[m];
      assert es == es[..m] + [e];
      OtherSnoc();
      NoPartRequests();
      PoolPrefix(env, es);
      var before := PoolRequests(es[..m]);
      assert rs + PoolRequests(es) == (rs + before) + [OfPool(e)];
      if m == 0 {
        assert rs + before == rs && es[..m] == [];
      } else {
        PoolRun(keyHashOf, rs, s, es[..m]);
        Unpolled(keyHashOf, rs + before, InPool(s, env, es[..m]));
      }
      ReachesNext(keyHashOf, rs + before, InPool(s, env, es[..m]), OfPool(e));
    }
  }

  function InMint(s: State, es: seq<M.MintEvent>): State {
    if M.Run(M.START, es).None? then s else Opened(s, MINT_SUBMACHINE, MintPart(M.Run(M.START, es).value, es))
  }

  lemma MintPrefix(es: seq<M.MintEvent>)
    requires es != [] && M.Run(M.START, es).Some?
    ensures var m := |es| - 1;
            var t := M.Run(M.START, es[..m]);
      t.Some? && M.Step(t.value, es[m]) == M.Run(M.START, es) && t.value.phase != M.FINISHED
  {
    hide M.Run, M.Step;
    var m := |es| - 1;
    var t := M.Run(M.START, es[..m]);
    assert es == es[..m] + [es[m]];
    M.RunAppend(M.START, es[..m], [es[m]]);
    M.RunNext(t.value, [es[m]]);
    if M.Step(t.value, es[m]).Some? {
      M.RunNext(M.Step(t.value, es[m]).value, [es[m]][1..]);
    }
  }

  lemma {:induction false} MintRun(keyHashOf: Bip44.Path -> KeyHash, rs: seq<TxRequest>, s: State,
                                   es: seq<M.MintEvent>)
    requires Reaches(keyHashOf, rs, s) && s.stage == AT(MINT) && es != [] && M.Run(M.START, es).Some?
    ensures Run(keyHashOf, START, rs + MintRequests(es)) == Some(InMint(s, es))
    decreases |es|
  {
    hide Run, M.Run, M.Step, Reaches, MintRequests;
    var m := |es| - 1;
    var e := es[m];
    assert es == es[..m] + [e];
    OtherSnoc();
    NoPartRequests();
    MintPrefix(es);
    var before := MintRequests(es[..m]);
    assert rs + MintRequests(es) == (rs + before) + [OfMint(e)];
    if m == 0 {
      assert rs + before == rs && es[..m] == [];
      M.RunNext(M.START, []);
      ReachesNext(keyHashOf, rs, s, OfMint(e));
    } else {
      MintRun(keyHashOf, rs, s, es[..m]);
      Unpolled(keyHashOf, rs + before, InMint(s, es[..m]));
      ReachesNext(keyHashOf, rs + before, InMint(s, es[..m]), OfMint(e));
    }
  }

  function InRegistration(s: State, es: seq<AuxData.Event>): State {
    if V.Run(V.START, es).None? then s
    else Opened(s, AUX_DATA_CVOTE_REGISTRATION_SUBMACHINE, RegistrationPart(V.Run(V.START, es).value, es))
  }

  lemma RegistrationPrefix(es: seq<AuxData.Event>)
    requires es != [] && V.Run(V.START, es).Some?
    ensures var m := |es| - 1;
            var t := V.Run(V.START, es[..m]);
      t.Some? && V.Step(t.value, es[m]) == V.Run(V.START, es) && t.value.phase != V.AT_FINISHED
  {
    hide V.Run, V.Step;
    var m := |es| - 1;
    var t := V.Run(V.START, es[..m]);
    assert es == es[..m] + [es[m]];
    V.RunAppend(V.START, es[..m], [es[m]]);
    V.RunNext(t.value, [es[m]]);
    V.RunCons(t.value, es[m], []);
    assert [es[m]] + [] == [es[m]];
    if V.Step(t.value, es[m]).Some? {
      V.RunNext(V.Step(t.value, es[m]).value, []);
    }
  }

  lemma {:induction false} RegistrationRun(keyHashOf: Bip44.Path -> KeyHash, rs: seq<TxRequest>, s: State,
                                           es: seq<AuxData.Event>)
    requires Reaches(keyHashOf, rs, InRegistration(s, [])) && V.Run(V.START, es).Some?
    ensures Run(keyHashOf, START, rs + RegistrationRequests(es)) == Some(InRegistration(s, es)) || es == []
    decreases |es|
  {
    hide Run, V.Run, V.Step, Reaches, RegistrationRequests;
    if es != [] {
      var m := |es| - 1;
      var e := es[m];
      assert es == es[..m] + [e];
      OtherSnoc();
      NoPartRequests();
      RegistrationPrefix(es);
      var before := RegistrationRequests(es[..m]);
      assert rs + RegistrationRequests(es) == (rs + before) + [OfRegistration(e)];
      if m == 0 {
        assert rs + before == rs && es[..m] == [];
      } else {
        RegistrationRun(keyHashOf, rs, s, es[..m]);
        Unpolled(keyHashOf, rs + before, InRegistration(s, es[..m]));
      }
      ReachesNext(keyHashOf, rs + before, InRegistration(s, es[..m]), OfRegistration(e));
    }
  }

  lemma OutputItem(keyHashOf: Bip44.Path -> KeyHash, rs: seq<TxRequest>, p: Params, aux: Aux, b: Body, i: nat)
    requires Reaches(keyHashOf, rs, At(p, aux, b, OUTPUTS, i)) && i < |b.outputs| == p.numOutputs
    requires O.WellFormed(false, b.outputs[i])
    ensures Reaches(keyHashOf, rs + OutputRequests(false, b.outputs[i]), At(p, aux, b, OUTPUTS, i + 1))
  {
    hide Run, O.Run, Reaches, O.WellFormed, O.Requests, Cut, OutputPartRequests, Poll;
    var s, o := At(p, aux, b, OUTPUTS, i), b.outputs[i];
    var es := O.Requests(o);
    O.RequestsAccepted(false, o);
    O.RunNext(false, O.START, es);
    OutputRun(keyHashOf, rs, s, false, es);
    OutputOfReceived(false, es, o);
    OutputPolled(InOutput(s, false, es), o);
    CutOutputs(b, i);
    CutSize(b, OUTPUTS, i + 1);
    Landed(keyHashOf, rs + OutputPartRequests(false, es), InOutput(s, false, es), At(p, aux, b, OUTPUTS, i + 1));
  }

  lemma Landed(keyHashOf: Bip44.Path -> KeyHash, rs: seq<TxRequest>, s: State, t: State)
    requires Run(keyHashOf, START, rs) == Some(s) && Poll(s) == t
    ensures Reaches(keyHashOf, rs, t)
  {
  }

  lemma CollateralOutputItem(keyHashOf: Bip44.Path -> KeyHash, rs: seq<TxRequest>, p: Params, aux: Aux, b: Body)
    requires Reaches(keyHashOf, rs, At(p, aux, b, COLLATERAL_OUTPUT, 0))
    requires p.includeCollateralOutput && b.collateralOutput.Some?
    requires O.WellFormed(true, b.collateralOutput.value) && O.WellFormed(false, b.collateralOutput.value)
    ensures Reaches(keyHashOf, rs + OutputRequests(true, b.collateralOutput.value), At(p, aux, b, COLLATERAL_OUTPUT, 1))
  {
    hide Run, O.Run, Reaches, O.WellFormed, O.Requests, Cut, OutputPartRequests, Poll;
    var s, o := At(p, aux, b, COLLATERAL_OUTPUT, 0), b.collateralOutput.value;
    var es := O.Requests(o);
    O.RequestsAccepted(true, o);
    O.RunNext(true, O.START, es);
    OutputRun(keyHashOf, rs, s, true, es);
    OutputOfReceived(true, es, o);
    CollateralOutputPolled(InOutput(s, true, es), o);
    CutParts(b);
    CutSize(b, COLLATERAL_OUTPUT, 1);
    Landed(keyHashOf, rs + OutputPartRequests(true, es), InOutput(s, true, es), At(p, aux, b, COLLATERAL_OUTPUT, 1));
  }

  lemma MintItem(keyHashOf: Bip44.Path -> KeyHash, rs: seq<TxRequest>, p: Params, aux: Aux, b: Body)
    requires Reaches(keyHashOf, rs, At(p, aux, b, MINT, 0)) && p.includeMint && b.mint.Some?
    requires M.WellFormed(b.mint.value)
    ensures Reaches(keyHashOf, rs + MintRequests(M.Requests(b.mint.value)), At(p, aux, b, MINT, 1))
  {
    hide Run, M.Run, Reaches, M.WellFormed, M.Requests, Cut, MintRequests, Poll;
    var s, groups := At(p, aux, b, MINT, 0), b.mint.value;
    var es := M.Requests(groups);
    M.FinishedRun(es);
    assert M.Received(es, groups);
    M.RunNext(M.START, es);
    MintRun(keyHashOf, rs, s, es);
    GroupsOfReceived(es, groups);
    MintPolled(InMint(s, es), groups);
    CutParts(b);
    CutSize(b, MINT, 1);
    Landed(keyHashOf, rs + MintRequests(es), InMint(s, es), At(p, aux, b, MINT, 1));
  }

  lemma PoolItem(keyHashOf: Bip44.Path -> KeyHash, rs: seq<TxRequest>, p: Params, aux: Aux, b: Body, i: nat)
    requires Reaches(keyHashOf, rs, At(p, aux, b, CERTIFICATES, i)) && i < |b.certificates| == p.numCertificates
    requires b.certificates[i].Pool? && P.WellFormed(p.Setting(), b.certificates[i].certificate)
    ensures Reaches(keyHashOf,
                    rs + ([PoolCertificateRequest] + PoolRequests(P.Requests(b.certificates[i].certificate))),
                    At(p, aux, b, CERTIFICATES, i + 1))
  {
    hide Run, P.Run, Reaches, P.WellFormed, P.Requests, Cut, PoolRequests, Poll;
    var s, c := At(p, aux, b, CERTIFICATES, i), b.certificates[i].certificate;
    var es, env := P.Requests(c), P.Env(p.Setting(), keyHashOf);
    P.ModeOf(p.Setting(), c);
    ReachesNext(keyHashOf, rs, s, PoolCertificateRequest);
    P.RunNext(env, P.START, []);
    Unpolled(keyHashOf, rs + [PoolCertificateRequest], InPool(s, env, []));
    P.RequestsAccepted(env, c);
    P.RunNext(env, P.START, es);
    PoolRun(keyHashOf, rs + [PoolCertificateRequest], s, es);
    assert rs + [PoolCertificateRequest] + PoolRequests(es) == rs + ([PoolCertificateRequest] + PoolRequests(es));
    CertificateOfReceived(p.Setting(), es, c);
    PoolPolled(InPool(s, env, es), c);
    CutCertificates(b, i);
    CutSize(b, CERTIFICATES, i + 1);
    Landed(keyHashOf, rs + ([PoolCertificateRequest] + PoolRequests(es)), InPool(s, env, es),
           At(p, aux, b, CERTIFICATES, i + 1));
  }

  /** Every item of an acceptable body is accepted when its turn has come. */
  lemma ItemRun(keyHashOf: Bip44.Path -> KeyHash, rs: seq<TxRequest>, p: Params, aux: Aux, b: Body, k: nat, i: nat)
    requires Reaches(keyHashOf, rs, At(p, aux, b, k, i)) && WellFormed(p.Setting(), b)
    requires k < END && i < Size(b, k) == Expected(p, k)
    ensures Reaches(keyHashOf, rs + ItemRequests(b, k, i), At(p, aux, b, k, i + 1))
  {
    hide Run, Reaches, At, O.WellFormed, M.WellFormed, P.WellFormed, TokenBundle.Ascending, Accounts, OutputRequests;
    if IsSimple(b, k, i) {
      SimpleItem(keyHashOf, rs, p, aux, b, k, i);
    } else if k == OUTPUTS {
      OutputItem(keyHashOf, rs, p, aux, b, i);
    } else if k == CERTIFICATES {
      assert CertificateAccepted(p.Setting(), b.certificates[i]);
      PoolItem(keyHashOf, rs, p, aux, b, i);
    } else if k == MINT {
      MintItem(keyHashOf, rs, p, aux, b);
    } else {
      O.WellFormedAnyway(true, b.collateralOutput.value);
      CollateralOutputItem(keyHashOf, rs, p, aux, b);
    }
  }

  lemma {:induction false} SectionRun(keyHashOf: Bip44.Path -> KeyHash, rs: seq<TxRequest>, p: Params, aux: Aux,
                                      b: Body, k: nat, n: nat)
    requires Reaches(keyHashOf, rs, At(p, aux, b, k, 0)) && WellFormed(p.Setting(), b)
    requires k < END && n <= Size(b, k) == Expected(p, k)
    ensures Reaches(keyHashOf, rs + SectionRequests(b, k, n), At(p, aux, b, k, n))
    decreases n
  {
    hide Reaches, At, WellFormed, Size, Expected, ItemRequests;
    if n == 0 {
      assert rs + SectionRequests(b, k, n) == rs;
    } else {
      SectionRun(keyHashOf, rs, p, aux, b, k, n - 1);
      ItemRun(keyHashOf, rs + SectionRequests(b, k, n - 1), p, aux, b, k, n - 1);
      assert rs + SectionRequests(b, k, n - 1) + ItemRequests(b, k, n - 1) == rs + SectionRequests(b, k, n);
    }
  }

  lemma {:induction false} BodyRun(keyHashOf: Bip44.Path -> KeyHash, rs: seq<TxRequest>, p: Params, aux: Aux, b: Body,
                                   k: nat)
    requires Reaches(keyHashOf, rs, At(p, aux, b, 0, 0)) && WellFormed(p.Setting(), b) && k <= END
    requires forall j :: 0 <= j < k ==> Size(b, j) == Expected(p, j)
    ensures Reaches(keyHashOf, rs + RequestsUpTo(b, k), At(p, aux, b, k, 0))
    decreases k
  {
    hide Reaches, At, WellFormed, Size, Expected, SectionRequests;
    if k == 0 {
      assert rs + RequestsUpTo(b, k) == rs;
    } else {
      BodyRun(keyHashOf, rs, p, aux, b, k - 1);
      SectionRun(keyHashOf, rs + RequestsUpTo(b, k - 1), p, aux, b, k - 1, Size(b, k - 1));
      AtWhole(p, aux, b, k - 1);
      var x, y := RequestsUpTo(b, k - 1), SectionRequests(b, k - 1, Size(b, k - 1));
      assert (rs + x) + y == rs + (x + y);
    }
  }

  lemma SizesMatch(p: Params, b: Body, k: nat)
    requires Matches(p, b)
    ensures Size(b, k) == Expected(p, k)
  {
  }

  /** The state at the confirmation of a transaction. */
  function Confirming(t: Transaction): State {
    State(CONFIRM, Stored(t.init), t.aux, t.body, Idle, [])
  }

  lemma BodyOpens(keyHashOf: Bip44.Path -> KeyHash, rs: seq<TxRequest>, s: State, b: Body)
    requires Run(keyHashOf, START, rs) == Some(s)
    requires Poll(s) == State(AT(INPUTS), s.params, Poll(s).aux, EMPTY, Idle, []) && s.params.numInputs > 0
    ensures Reaches(keyHashOf, rs, At(s.params, Poll(s).aux, b, 0, 0))
  {
    hide Run, Poll;
    CutEnds(b);
  }

  /** The requests before the body. */
  lemma AuxRun(keyHashOf: Bip44.Path -> KeyHash, t: Transaction)
    requires Accepted(t)
    ensures Reaches(keyHashOf, [InitRequest(t.init)] + AuxRequests(t.aux), At(Stored(t.init), t.aux, t.body, 0, 0))
  {
    hide Run, Reaches, Poll, WellFormed, Matches, At, InitAccepted, AuxData.WellFormed, RegistrationRequests, V.Run;
    var p := Stored(t.init);
    var i := [InitRequest(t.init)];
    StoredInit(t.init);
    RunNext(keyHashOf, START, []);
    Unpolled(keyHashOf, [], START);
    ReachesNext(keyHashOf, [], START, InitRequest(t.init));
    assert [] + i == i;
    var s := State(if p.includeAuxData then AUX_DATA else AT(INPUTS), p, NoAux, EMPTY, Idle, []);
    NothingToPoll(s);
    match t.aux {
      case NoAux =>
        BodyOpens(keyHashOf, i, s, t.body);
        assert i + AuxRequests(t.aux) == i;
      case GivenHash(h) =>
        Unpolled(keyHashOf, i, s);
        ReachesNext(keyHashOf, i, s, AuxDataHashRequest(h));
        var u := s.(stage := AT(INPUTS), aux := GivenHash(h));
        NothingToPoll(u);
        BodyOpens(keyHashOf, i + [AuxDataHashRequest(h)], u, t.body);
      case Registered(r) =>
        Unpolled(keyHashOf, i, s);
        RegistrationAccepted(keyHashOf, i, s, r);
        var es := AuxData.Events(r);
        BodyOpens(keyHashOf, i + ([RegistrationRequest] + RegistrationRequests(es)), InRegistration(s, es), t.body);
    }
  }

  lemma RegistrationAccepted(keyHashOf: Bip44.Path -> KeyHash, rs: seq<TxRequest>, s: State, r: AuxData.Registration)
    requires Reaches(keyHashOf, rs, s) && s.stage == AUX_DATA && s.part.Idle? && AuxData.WellFormed(r)
    ensures var es := AuxData.Events(r);
            var u := InRegistration(s, es);
      && Run(keyHashOf, START, rs + ([RegistrationRequest] + RegistrationRequests(es))) == Some(u)
      && u.params == s.params && Poll(u) == s.(stage := AT(INPUTS), aux := Registered(r), part := Idle)
  {
    hide Run, Reaches, AuxData.WellFormed, RegistrationRequests, V.Run, AuxData.Events, RegistrationOf;
    var es := AuxData.Events(r);
    ReachesNext(keyHashOf, rs, s, RegistrationRequest);
    V.RunNext(V.START, []);
    Unpolled(keyHashOf, rs + [RegistrationRequest], InRegistration(s, []));
    V.RegistrationAccepted(r);
    V.RunNext(V.START, es);
    RegistrationRun(keyHashOf, rs + [RegistrationRequest], s, es);
    assert rs + [RegistrationRequest] + RegistrationRequests(es)
        == rs + ([RegistrationRequest] + RegistrationRequests(es));
    RegistrationOfReceived(es, r);
  }

  /** The requests of every acceptable transaction are accepted up to its confirmation. */
  lemma TransactionAccepted(keyHashOf: Bip44.Path -> KeyHash, t: Transaction)
    requires Accepted(t)
    ensures Reaches(keyHashOf, Requests(t), Confirming(t))
  {
    hide Reaches, At, WellFormed, Size, Expected, RequestsUpTo, AuxRequests, Stored, InitAccepted, Matches,
         AuxData.WellFormed;
    var p := Stored(t.init);
    StoredMode(t.init);
    AuxRun(keyHashOf, t);
    forall j: nat ensures Size(t.body, j) == Expected(p, j) { SizesMatch(p, t.body, j); }
    BodyRun(keyHashOf, [InitRequest(t.init)] + AuxRequests(t.aux), p, t.aux, t.body, END);
    AtEnd(p, t.aux, t.body);
  }

  lemma StoredMode(d: InitData)
    ensures Stored(d).txSigningMode == d.txSigningMode && Stored(d).includeAuxData == d.includeAuxData
  {
  }

  lemma AtEnd(p: Params, aux: Aux, b: Body)
    ensures At(p, aux, b, END, 0) == State(CONFIRM, p, aux, b, Idle, [])
  {
    CutEnds(b);
  }

  // ------------------------------------------------------------ whole runs

  lemma ConfirmHandled(keyHashOf: Bip44.Path -> KeyHash, s: State)
    ensures Handled(keyHashOf, s, ConfirmRequest, true).Some? <==> s.stage == CONFIRM
    ensures s.stage == CONFIRM ==>
            Handled(keyHashOf, s, ConfirmRequest, true)
            == Some(s.(stage := if s.params.numWitnesses > 0 then WITNESSES else NONE))
  {
  }

  /** The transaction of a state at the confirmation. */
  lemma TransactionOf(keyHashOf: Bip44.Path -> KeyHash, rs: seq<TxRequest>) returns (t: Transaction)
    requires Run(keyHashOf, START, rs).Some? && Poll(Run(keyHashOf, START, rs).value).stage == CONFIRM
    ensures Received(rs, t)
  {
    hide Run, Invariant, Poll, WellFormed, Progressed, BodyRequests, AuxRequests, InitAccepted, Stored, Matches,
         AuxData.WellFormed;
    var s := Run(keyHashOf, START, rs).value;
    StartKept(keyHashOf);
    RunKept(keyHashOf, START, rs);
    RunTells(keyHashOf, rs);
    PollKept(keyHashOf, s);
    PollTold(keyHashOf, s);
    PolledStage(s);
    var u := Poll(s);
    t := Transaction(rs[0].data, u.aux, u.body);
    StoredMode(t.init);
    AtConfirm(keyHashOf, u);
    var i, a, b := [InitRequest(t.init)], AuxRequests(u.aux), BodyRequests(u.body);
    assert Heard(u) == a + (b + ([] + []));
    assert i + (a + (b + ([] + []))) == i + a + b;
  }

  lemma AtConfirm(keyHashOf: Bip44.Path -> KeyHash, u: State)
    requires Invariant(keyHashOf, u) && u.stage == CONFIRM
    ensures u.part.Idle? && Matches(u.params, u.body) && WellFormed(u.params.Setting(), u.body)
    ensures u.aux.NoAux? <==> !u.params.includeAuxData
    ensures u.aux.Registered? ==> AuxData.WellFormed(u.aux.registration)
    ensures PartRequests(u) == [] && LastRequests(u) == []
  {
    hide WellFormed, Matches, AuxData.WellFormed;
    MatchesAtEnd(u.params, u.body);
  }

  lemma MatchesAtEnd(p: Params, b: Body)
    requires Progressed(p, b, END)
    ensures Matches(p, b)
  {
    CompleteBody(Frame(p, seq(32, _ => 0), _ => seq(28, _ => 0)), b);
  }

  /** A confirm request is accepted exactly if the requests before it are those of an acceptable transaction, and then
      of one only, which is what the machine has received. */
  lemma ConfirmedRun(keyHashOf: Bip44.Path -> KeyHash, rs: seq<TxRequest>)
    ensures Run(keyHashOf, START, rs + [ConfirmRequest]).Some? <==> exists t :: Received(rs, t)
    ensures forall t :: Received(rs, t) ==> Reaches(keyHashOf, rs, Confirming(t))
    ensures forall t, u :: Received(rs, t) && Received(rs, u) ==> t == u
  {
    hide Run, Poll, Requests, Accepted, Handled, Stored;
    forall t | Received(rs, t) ensures Reaches(keyHashOf, rs, Confirming(t)) {
      TransactionAccepted(keyHashOf, t);
    }
    forall t, u | Received(rs, t) && Received(rs, u) ensures t == u {
      assert Confirming(t) == Confirming(u);
      FirstIsInit(t);
      FirstIsInit(u);
    }
    RunSnoc(keyHashOf, START, rs, ConfirmRequest);
    if Run(keyHashOf, START, rs).Some? {
      ConfirmHandled(keyHashOf, Poll(Run(keyHashOf, START, rs).value));
      if Poll(Run(keyHashOf, START, rs).value).stage == CONFIRM {
        var t := TransactionOf(keyHashOf, rs);
      }
    }
  }

  lemma FirstIsInit(t: Transaction)
    ensures |Requests(t)| > 0 && Requests(t)[0] == InitRequest(t.init)
  {
    hide BodyRequests, AuxRequests;
  }

  // ------------------------------------------------------------ runs to the last signature

  /** The requests of a transaction, its confirmation, and the requests of all announced witnesses. */
  ghost predicate ReceivedAndSigned(rs: seq<TxRequest>, t: Transaction, signers: seq<Bip44.Path>) {
    && Accepted(t) && rs == Requests(t) + ([ConfirmRequest] + SignerRequests(signers))
    && |signers| == Stored(t.init).numWitnesses && SignersAllowed(Confirmed(t, signers))
  }

  /** The state after the confirmation and some signatures. */
  function Confirmed(t: Transaction, signers: seq<Bip44.Path>): State {
    Confirming(t).(stage := if |signers| < Stored(t.init).numWitnesses then WITNESSES else NONE, signers := signers)
  }

  lemma {:induction false} SignersRun(keyHashOf: Bip44.Path -> KeyHash, t: Transaction, signers: seq<Bip44.Path>)
    requires Accepted(t) && |signers| <= Stored(t.init).numWitnesses && SignersAllowed(Confirmed(t, signers))
    ensures Run(keyHashOf, START, Requests(t) + ([ConfirmRequest] + SignerRequests(signers)))
            == Some(Confirmed(t, signers))
    decreases |signers|
  {
    hide Run, Poll, Requests, Accepted, Stored, Reaches, WitnessAllowed, OwnerPath, SignerRequests;
    var rs := Requests(t);
    if signers == [] {
      NoPartRequests();
      TransactionAccepted(keyHashOf, t);
      ReachesNext(keyHashOf, rs, Confirming(t), ConfirmRequest);
      assert rs + ([ConfirmRequest] + []) == rs + [ConfirmRequest];
    } else {
      var m := |signers| - 1;
      var path := signers[m];
      assert signers == signers[..m] + [path];
      OtherSnoc();
      SignersRun(keyHashOf, t, signers[..m]);
      var before := rs + ([ConfirmRequest] + SignerRequests(signers[..m]));
      assert rs + ([ConfirmRequest] + SignerRequests(signers)) == before + [WitnessRequest(path)];
      Unpolled(keyHashOf, before, Confirmed(t, signers[..m]));
      assert SignersAllowed(Confirmed(t, signers));
      ReachesNext(keyHashOf, before, Confirmed(t, signers[..m]), WitnessRequest(path));
    }
  }

  /** What a state after the confirmation stands for. */
  lemma SignedTransactionOf(keyHashOf: Bip44.Path -> KeyHash, rs: seq<TxRequest>) returns (t: Transaction)
    requires Run(keyHashOf, START, rs).Some? && Run(keyHashOf, START, rs).value.stage in {WITNESSES, NONE}
    ensures var s := Run(keyHashOf, START, rs).value;
      && Accepted(t) && rs == Requests(t) + ([ConfirmRequest] + SignerRequests(s.signers))
      && |s.signers| <= Stored(t.init).numWitnesses && s == Confirmed(t, s.signers) && SignersAllowed(s)
  {
    hide Run, Poll, WellFormed, Progressed, BodyRequests, AuxRequests, InitAccepted, Stored, Matches,
         AuxData.WellFormed, SignerRequests, SignersAllowed;
    var s := Run(keyHashOf, START, rs).value;
    StartKept(keyHashOf);
    RunKept(keyHashOf, START, rs);
    RunTells(keyHashOf, rs);
    t := Transaction(rs[0].data, s.aux, s.body);
    StoredMode(t.init);
    MatchesAtEnd(s.params, s.body);
    var i, a, b, l := [InitRequest(t.init)], AuxRequests(s.aux), BodyRequests(s.body),
      [ConfirmRequest] + SignerRequests(s.signers);
    assert Heard(s) == a + (b + ([] + l));
    assert i + (a + (b + ([] + l))) == (i + a + b) + l;
  }

  /** What may be signed in each signing mode, in numbers. In the pool modes it is one pool registration and nothing
      else for which its signatures could stand. */
  lemma SignedInNumbers(keyHashOf: Bip44.Path -> KeyHash, rs: seq<TxRequest>)
    requires Run(keyHashOf, START, rs).Some? && Run(keyHashOf, START, rs).value.stage in {WITNESSES, NONE}
    ensures var s := Run(keyHashOf, START, rs).value;
      && s.body.inputs != [] && s.body.fee.Some? && |s.body.votingProcedures| <= 1
      && s.params.networkId <= 15 && (s.params.networkId == 1 ==> s.params.protocolMagic == 764824073)
      && (s.params.txSigningMode in {P.ORDINARY_TX, P.MULTISIG_TX} ==>
            && s.body.collateralInputs == [] && s.body.collateralOutput == None && s.body.totalCollateral == None
            && s.body.referenceInputs == [])
      && (s.params.txSigningMode in {P.POOL_REGISTRATION_OWNER, P.POOL_REGISTRATION_OPERATOR} ==>
            && |s.body.certificates| == 1 && s.body.withdrawals == [] && s.body.mint == None
            && s.body.scriptDataHash == None && s.body.collateralInputs == [] && s.body.requiredSigners == []
            && s.body.collateralOutput == None && s.body.totalCollateral == None && s.body.referenceInputs == []
            && s.body.votingProcedures == [] && s.body.treasury == None && s.body.donation == None)
      && (forall c :: c in s.body.certificates ==>
            (c.Pool? <==> s.params.txSigningMode in {P.POOL_REGISTRATION_OWNER, P.POOL_REGISTRATION_OPERATOR}))
  {
    hide Run, Stored, InitAccepted, WellFormed, SignersAllowed, Requests, SignerRequests;
    var t := SignedTransactionOf(keyHashOf, rs);
    InitInNumbers(t.init);
    StoredInNumbers(t.init);
    CertificateModes(t);
  }

  lemma CertificateModes(t: Transaction)
    requires Accepted(t)
    ensures forall c :: c in t.body.certificates ==> (c.Pool? <==> P.IsPoolMode(Stored(t.init).txSigningMode))
  {
    hide InitAccepted, Matches;
    forall c | c in t.body.certificates ensures c.Pool? <==> P.IsPoolMode(Stored(t.init).txSigningMode) {
      var i :| 0 <= i < |t.body.certificates| && t.body.certificates[i] == c;
      assert CertificateAccepted(Stored(t.init).Setting(), t.body.certificates[i]);
    }
  }

  /** Who signs in the pool modes, element by element: the path of a stake key in owner mode, that of a payment key or
      of a pool cold key in operator mode. */
  lemma SignersInNumbers(keyHashOf: Bip44.Path -> KeyHash, rs: seq<TxRequest>, i: nat)
    requires Run(keyHashOf, START, rs).Some? && Run(keyHashOf, START, rs).value.stage in {WITNESSES, NONE}
    requires i < |Run(keyHashOf, START, rs).value.signers|
    ensures var s := Run(keyHashOf, START, rs).value; var p := s.signers[i];
      && (s.params.txSigningMode == P.POOL_REGISTRATION_OWNER ==>
            |p| == 5 && p[0] == 0x8000_073C && p[1] == 0x8000_0717 && p[2] >= 0x8000_0000 && p[3] == 2
            && p[4] < 0x8000_0000)
      && (s.params.txSigningMode == P.POOL_REGISTRATION_OPERATOR ==>
            || (|p| == 5 && p[0] in {0x8000_002C, 0x8000_073C} && p[1] == 0x8000_0717 && p[2] >= 0x8000_0000
                && p[3] % 256 <= 1)
            || (|p| == 4 && p[0] == 0x8000_073D && p[1] == 0x8000_0717 && p[2] == 0x8000_0000
                && p[3] >= 0x8000_0000))
  {
    hide Run, WitnessAllowed, Accepted, Confirmed, OwnerPath;
    var s := Run(keyHashOf, START, rs).value;
    var _ := SignedTransactionOf(keyHashOf, rs);
    WitnessInNumbers(s.params.txSigningMode, s.signers[i], OwnerPath(s.body), true);
  }

  /** A run ends exactly if it brings an acceptable transaction, its confirmation, and as many witnesses as announced,
      all of them allowed; and then it brings one transaction only. */
  lemma FinishedRun(keyHashOf: Bip44.Path -> KeyHash, rs: seq<TxRequest>)
    ensures Run(keyHashOf, START, rs).Some? && Run(keyHashOf, START, rs).value.stage == NONE
       <==> exists t, signers :: ReceivedAndSigned(rs, t, signers)
    ensures forall t, signers, u, others :: ReceivedAndSigned(rs, t, signers) && ReceivedAndSigned(rs, u, others) ==>
            t == u && signers == others
  {
    hide Run, Requests, Accepted, Stored, SignerRequests, SignersAllowed;
    if Run(keyHashOf, START, rs).Some? && Run(keyHashOf, START, rs).value.stage == NONE {
      var t := SignedTransactionOf(keyHashOf, rs);
      assert ReceivedAndSigned(rs, t, Run(keyHashOf, START, rs).value.signers);
    }
    if t, signers :| ReceivedAndSigned(rs, t, signers) {
      SignersRun(keyHashOf, t, signers);
    }
    forall t, signers, u, others | ReceivedAndSigned(rs, t, signers) && ReceivedAndSigned(rs, u, others)
      ensures t == u && signers == others
    {
      SignersRun(keyHashOf, t, signers);
      SignersRun(keyHashOf, u, others);
      FirstIsInit(t);
      FirstIsInit(u);
      assert rs[0] == Requests(t)[0] == Requests(u)[0];
      assert Confirmed(t, signers) == Confirmed(u, others);
    }
  }

  // ------------------------------------------------------------ what the init request announced

  /** The body has as many elements in every list as the init request sent. */
  predicate AsAnnounced(d: InitData, b: Body) {
    && |b.inputs| == d.numInputs && |b.outputs| == d.numOutputs && |b.certificates| == d.numCertificates
    && |b.withdrawals| == d.numWithdrawals && |b.collateralInputs| == d.numCollateralInputs
    && |b.requiredSigners| == d.numRequiredSigners && |b.referenceInputs| == d.numReferenceInputs
    && |b.votingProcedures| == d.numVotingProcedures
  }

  /** A transaction that is accepted has what its init request announced exactly if no count was narrowed. */
  lemma AnnouncedBody(t: Transaction)
    requires Accepted(t)
    ensures AsAnnounced(t.init, t.body) <==> CountsFit(t.init.(numWitnesses := 0))
  {
    hide InitAccepted, WellFormed, AuxData.WellFormed;
  }
}
