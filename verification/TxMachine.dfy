/** The main machine of transaction signing as a function: its stages, its requests, and the state after each. */
module TxMachine {
  import opened Basics
  import Bip44
  import AuxData
  import V = VoteRegistration
  import TokenBundle
  import M = TxMint
  import O = TxOutput
  import P = TxPool
  import opened TxBody
  import TxUnique

  /** The stages. AT(k) waits for a request of section k of the body. */
  datatype Stage =
    | NONE | INIT | AUX_DATA | AUX_DATA_CVOTE_REGISTRATION_SUBMACHINE
    | AT(section: nat)
    | OUTPUTS_SUBMACHINE | CERTIFICATES_POOL_SUBMACHINE | MINT_SUBMACHINE | COLLATERAL_OUTPUT_SUBMACHINE
    | CONFIRM | WITNESSES

  function StageOf(k: nat): Stage {
    if k < END then AT(k) else CONFIRM
  }

  const NO_PARAMS :=
    Params(false, 0, 0, P.ORDINARY_TX, 0, 0, false, 0, 0, false, false, false, false, 0, 0, false, false, false, 0, 0,
           false, false, 0)

  const MAINNET_NETWORK_ID := 1
  const MAINNET_PROTOCOL_MAGIC := 764824073
  const TX_OPTIONS_TAG_CBOR_SETS := 1
  const MAXIMUM_NETWORK_ID := 15
  const SIGN_MAX_VOTING_PROCEDURES := 1

  /** The parsed data of the init request. Counts are sent in 32 bits. */
  datatype InitData = InitData(
    txOptions: uint64, networkId: uint8, protocolMagic: uint32, txSigningMode: SigningMode,
    numInputs: uint32, numOutputs: uint32, includeTtl: bool, numCertificates: uint32, numWithdrawals: uint32,
    includeAuxData: bool, includeValidityIntervalStart: bool, includeMint: bool, includeScriptDataHash: bool,
    numCollateralInputs: uint32, numRequiredSigners: uint32, includeNetworkId: bool, includeCollateralOutput: bool,
    includeTotalCollateral: bool, numReferenceInputs: uint32, numVotingProcedures: uint32,
    includeTreasury: bool, includeDonation: bool, numWitnesses: uint32)

  /** What is stored: every count is narrowed to 16 bits before anything is checked. */
  function Stored(d: InitData): Params {
    Params(
      d.txOptions % 2 == TX_OPTIONS_TAG_CBOR_SETS, d.networkId, d.protocolMagic, d.txSigningMode,
      Narrow16(d.numInputs), Narrow16(d.numOutputs), d.includeTtl, Narrow16(d.numCertificates),
      Narrow16(d.numWithdrawals), d.includeAuxData, d.includeValidityIntervalStart, d.includeMint,
      d.includeScriptDataHash, Narrow16(d.numCollateralInputs), Narrow16(d.numRequiredSigners), d.includeNetworkId,
      d.includeCollateralOutput, d.includeTotalCollateral, Narrow16(d.numReferenceInputs),
      Narrow16(d.numVotingProcedures), d.includeTreasury, d.includeDonation, Narrow16(d.numWitnesses))
  }

  /** policyForSignTxInit, as far as it denies: combinations that could mix up what a witness stands for. */
  predicate InitPolicy(p: Params) {
    && p.networkId < 16
    && (p.networkId == MAINNET_NETWORK_ID ==> p.protocolMagic == MAINNET_PROTOCOL_MAGIC)
    && match p.txSigningMode
       case POOL_REGISTRATION_OWNER => PoolInit(p)
       case POOL_REGISTRATION_OPERATOR => PoolInit(p)
       case PLUTUS_TX => true
       case _ =>
         p.numCollateralInputs == 0 && !p.includeCollateralOutput && !p.includeTotalCollateral
           && p.numReferenceInputs == 0
  }

  predicate PoolInit(p: Params) {
    && p.numCertificates == 1 && p.numWithdrawals == 0 && !p.includeMint && !p.includeScriptDataHash
    && p.numCollateralInputs == 0 && p.numRequiredSigners == 0 && !p.includeCollateralOutput
    && !p.includeTotalCollateral && p.numReferenceInputs == 0 && p.numVotingProcedures == 0
    && !p.includeTreasury && !p.includeDonation
  }

  predicate InitAccepted(d: InitData) {
    && d.txOptions < 2
    && Stored(d).numVotingProcedures <= 1
    && Stored(d).numInputs > 0
    && InitPolicy(Stored(d))
  }

  /** The checks of the init request in numbers: what may not be announced in each signing mode. */
  lemma InitInNumbers(d: InitData)
    ensures InitAccepted(d) <==>
      && d.txOptions <= 1 && d.networkId <= 15 && (d.networkId == 1 ==> d.protocolMagic == 764824073)
      && d.numInputs % 65536 != 0 && d.numVotingProcedures % 65536 <= 1
      && (d.txSigningMode in {P.ORDINARY_TX, P.MULTISIG_TX} ==>
            && d.numCollateralInputs % 65536 == 0 && !d.includeCollateralOutput && !d.includeTotalCollateral
            && d.numReferenceInputs % 65536 == 0)
      && (d.txSigningMode in {P.POOL_REGISTRATION_OWNER, P.POOL_REGISTRATION_OPERATOR} ==>
            && d.numCertificates % 65536 == 1 && d.numWithdrawals % 65536 == 0 && !d.includeMint
            && !d.includeScriptDataHash && d.numCollateralInputs % 65536 == 0 && d.numRequiredSigners % 65536 == 0
            && !d.includeCollateralOutput && !d.includeTotalCollateral && d.numReferenceInputs % 65536 == 0
            && d.numVotingProcedures % 65536 == 0 && !d.includeTreasury && !d.includeDonation)
  {
  }

  /** Every flag and count is stored in its own field; sets are tagged exactly if the options are 1. */
  lemma StoredInNumbers(d: InitData)
    requires InitAccepted(d)
    ensures var p := Stored(d);
      && (p.tagCborSets <==> d.txOptions == 1) && p.networkId == d.networkId && p.protocolMagic == d.protocolMagic
      && p.txSigningMode == d.txSigningMode && p.numInputs == d.numInputs % 65536
      && p.numOutputs == d.numOutputs % 65536 && p.includeTtl == d.includeTtl
      && p.numCertificates == d.numCertificates % 65536 && p.numWithdrawals == d.numWithdrawals % 65536
      && p.includeAuxData == d.includeAuxData && p.includeValidityIntervalStart == d.includeValidityIntervalStart
      && p.includeMint == d.includeMint && p.includeScriptDataHash == d.includeScriptDataHash
      && p.numCollateralInputs == d.numCollateralInputs % 65536
      && p.numRequiredSigners == d.numRequiredSigners % 65536 && p.includeNetworkId == d.includeNetworkId
      && p.includeCollateralOutput == d.includeCollateralOutput
      && p.includeTotalCollateral == d.includeTotalCollateral
      && p.numReferenceInputs == d.numReferenceInputs % 65536
      && p.numVotingProcedures == d.numVotingProcedures % 65536 && p.includeTreasury == d.includeTreasury
      && p.includeDonation == d.includeDonation && p.numWitnesses == d.numWitnesses % 65536
  {
  }

  lemma StoredInit(d: InitData)
    requires InitAccepted(d)
    ensures var p := Stored(d);
            p.numInputs > 0 && (P.IsPoolMode(p.txSigningMode) ==> p.numCertificates == 1)
  {
  }

  // ------------------------------------------------------------ the counts of the init request

  /** The counts that are stored are the counts that were sent. */
  predicate CountsKept(d: InitData) {
    var p := Stored(d);
    && p.numInputs == d.numInputs && p.numOutputs == d.numOutputs && p.numCertificates == d.numCertificates
    && p.numWithdrawals == d.numWithdrawals && p.numCollateralInputs == d.numCollateralInputs
    && p.numRequiredSigners == d.numRequiredSigners && p.numReferenceInputs == d.numReferenceInputs
    && p.numVotingProcedures == d.numVotingProcedures && p.numWitnesses == d.numWitnesses
  }

  predicate CountsFit(d: InitData) {
    && d.numInputs < TWO_16 && d.numOutputs < TWO_16 && d.numCertificates < TWO_16 && d.numWithdrawals < TWO_16
    && d.numCollateralInputs < TWO_16 && d.numRequiredSigners < TWO_16 && d.numReferenceInputs < TWO_16
    && d.numVotingProcedures < TWO_16 && d.numWitnesses < TWO_16
  }

  /** Exactly when the machine expects what was sent. */
  lemma StoredCounts(d: InitData)
    ensures CountsKept(d) <==> CountsFit(d)
  {
  }

  /** An accepted init request that sends 65537 inputs and 65537 voting procedures: the machine expects one of each,
      and the limit of one voting procedure is met. */
  lemma CountsNarrowed()
    ensures var d := InitData(0, MAINNET_NETWORK_ID, MAINNET_PROTOCOL_MAGIC, P.ORDINARY_TX, 65537, 0, false, 0, 0,
                              false, false, false, false, 0, 0, false, false, false, 0, 65537, false, false, 1);
            InitAccepted(d) && Stored(d).numInputs == 1 && Stored(d).numVotingProcedures == 1
  {
  }

  /** The limits on the counts hold of what was sent, too, exactly if nothing is lost when it is narrowed. */
  lemma LimitsMeant(d: InitData)
    requires InitAccepted(d)
    ensures d.numVotingProcedures <= SIGN_MAX_VOTING_PROCEDURES <==> d.numVotingProcedures < TWO_16
    ensures P.IsPoolMode(d.txSigningMode) ==> (d.numCertificates == 1 <==> d.numCertificates < TWO_16)
  {
  }

  // ------------------------------------------------------------ requests

  predicate InOrder(ws: seq<Withdrawal>, account: Account) {
    ws != [] ==> TokenBundle.KeyLess(ws[|ws| - 1].account, account)
  }

  /** The elements of a body that come in one request. */
  datatype Element =
    | InputElement(input: Input) | FeeElement(fee: uint64) | TtlElement(ttl: uint64)
    | CertificateElement(certificate: PlainCertificate) | WithdrawalElement(withdrawal: Withdrawal)
    | ValidityIntervalStartElement(start: uint64) | ScriptDataHashElement(hash: Hash32)
    | CollateralInputElement(collateral: Input) | RequiredSignerElement(keyHash: KeyHash)
    | TotalCollateralElement(totalCollateral: uint64) | ReferenceInputElement(reference: Input)
    | VotingProcedureElement(vote: VotingProcedure) | TreasuryElement(treasury: uint64)
    | DonationElement(donation: uint64)

  /** The parsed requests of the signing call. */
  datatype TxRequest =
    | InitRequest(data: InitData)
    | AuxDataHashRequest(auxDataHash: Hash32) | RegistrationRequest | OfRegistration(part: AuxData.Event)
    | ElementRequest(element: Element)
    | OfOutput(outputPart: O.OutputEvent) | PoolCertificateRequest | OfPool(poolPart: P.PoolEvent)
    | OfMint(mintPart: M.MintEvent) | OfCollateralOutput(collateralPart: O.OutputEvent)
    | ConfirmRequest | WitnessRequest(path: Bip44.Path)

  function SectionOf(e: Element): (k: nat)
    ensures k < END
  {
    match e
    case InputElement(_) => INPUTS
    case FeeElement(_) => FEE
    case TtlElement(_) => TTL
    case CertificateElement(_) => CERTIFICATES
    case WithdrawalElement(_) => WITHDRAWALS
    case ValidityIntervalStartElement(_) => VALIDITY_INTERVAL
    case ScriptDataHashElement(_) => SCRIPT_DATA_HASH
    case CollateralInputElement(_) => COLLATERAL_INPUTS
    case RequiredSignerElement(_) => REQUIRED_SIGNERS
    case TotalCollateralElement(_) => TOTAL_COLLATERAL
    case ReferenceInputElement(_) => REFERENCE_INPUTS
    case VotingProcedureElement(_) => VOTING_PROCEDURES
    case TreasuryElement(_) => TREASURY
    case DonationElement(_) => DONATION
  }

  function Extended(b: Body, e: Element): Body {
    match e
    case InputElement(i) => b.(inputs := b.inputs + [i])
    case FeeElement(n) => b.(fee := Some(n))
    case TtlElement(n) => b.(ttl := Some(n))
    case CertificateElement(c) => b.(certificates := b.certificates + [Plain(c)])
    case WithdrawalElement(w) => b.(withdrawals := b.withdrawals + [w])
    case ValidityIntervalStartElement(n) => b.(validityIntervalStart := Some(n))
    case ScriptDataHashElement(h) => b.(scriptDataHash := Some(h))
    case CollateralInputElement(i) => b.(collateralInputs := b.collateralInputs + [i])
    case RequiredSignerElement(h) => b.(requiredSigners := b.requiredSigners + [h])
    case TotalCollateralElement(n) => b.(totalCollateral := Some(n))
    case ReferenceInputElement(i) => b.(referenceInputs := b.referenceInputs + [i])
    case VotingProcedureElement(v) => b.(votingProcedures := b.votingProcedures + [v])
    case TreasuryElement(n) => b.(treasury := Some(n))
    case DonationElement(n) => b.(donation := Some(n))
  }

  /** What is checked besides the stage and the decision of the policy and the user. */
  predicate ElementAccepted(g: Setting, b: Body, e: Element) {
    match e
    case CertificateElement(_) => !P.IsPoolMode(g.mode)
    case WithdrawalElement(w) => InOrder(b.withdrawals, w.account)
    case CollateralInputElement(_) => |b.collateralInputs| < COLLATERAL_LABELS
    case ReferenceInputElement(_) => |b.referenceInputs| < REFERENCE_LABELS
    case DonationElement(n) => n > 0
    case _ => true
  }

  /** The witness policy. In owner mode only a stake key path equal to the path of the owner given by path may sign,
      and none may if there is no such owner; in operator mode payment and pool cold keys may. For the other
      modes the decision is a parameter. */
  predicate WitnessAllowed(mode: SigningMode, path: Bip44.Path, ownerPath: Option<Bip44.Path>, allowed: bool) {
    match mode
    case POOL_REGISTRATION_OWNER => Bip44.ClassifyPath(path) == Bip44.PathOrdinaryStakingKey && ownerPath == Some(path)
    case POOL_REGISTRATION_OPERATOR => Bip44.ClassifyPath(path) in {Bip44.PathOrdinaryPaymentKey, Bip44.PathPoolColdKey}
    case _ => allowed
  }

  /** The witness policy element by element: in owner mode the path of the owner, which must be that of a stake key; in
      operator mode the path of a payment key or of a pool cold key. */
  lemma WitnessInNumbers(mode: SigningMode, path: Bip44.Path, ownerPath: Option<Bip44.Path>, allowed: bool)
    ensures mode == P.POOL_REGISTRATION_OWNER ==>
      (WitnessAllowed(mode, path, ownerPath, allowed)
       <==> ownerPath == Some(path) && |path| == 5 && path[0] == 0x8000_073C && path[1] == 0x8000_0717
            && path[2] >= 0x8000_0000 && path[3] == 2 && path[4] < 0x8000_0000)
    ensures mode == P.POOL_REGISTRATION_OPERATOR ==>
      (WitnessAllowed(mode, path, ownerPath, allowed)
       <==> || (|path| == 5 && path[0] in {0x8000_002C, 0x8000_073C} && path[1] == 0x8000_0717
                && path[2] >= 0x8000_0000 && path[3] % 256 <= 1)
            || (|path| == 4 && path[0] == 0x8000_073D && path[1] == 0x8000_0717 && path[2] == 0x8000_0000
                && path[3] >= 0x8000_0000))
    ensures mode in {P.ORDINARY_TX, P.MULTISIG_TX, P.PLUTUS_TX} ==>
      (WitnessAllowed(mode, path, ownerPath, allowed) <==> allowed)
  {
    hide Bip44.ClassifyPath;
    Bip44.ClassesInNumbers(path);
    Bip44.OtherClassesInNumbers(path);
  }

  // ------------------------------------------------------------ states

  /** The stage after an element of section k has been received. */
  function After(p: Params, b: Body, k: nat): Stage
    requires k < END
  {
    if Size(b, k) < Expected(p, k) then AT(k) else StageOf(Next(p, k))
  }

  /** The auxiliary data that have been received: none, a hash, or a vote registration. */
  datatype Aux = NoAux | GivenHash(hash: Hash32) | Registered(registration: AuxData.Registration)

  /** The sub-machine at work, with the requests it has accepted. */
  datatype Part =
    | Idle
    | RegistrationPart(registration: V.State, registrationEvents: seq<AuxData.Event>)
    | OutputPart(output: O.State, outputEvents: seq<O.OutputEvent>)
    | PoolPart(pool: P.State, poolEvents: seq<P.PoolEvent>)
    | MintPart(mint: M.State, mintEvents: seq<M.MintEvent>)

  /** What has been received, and who has signed. */
  datatype State = State(stage: Stage, params: Params, aux: Aux, body: Body, part: Part, signers: seq<Bip44.Path>)

  const START := State(INIT, NO_PARAMS, NoAux, EMPTY, Idle, [])

  /** The state after section k of the body has received something. */
  function Grown(s: State, k: nat, b: Body): State
    requires k < END
  {
    s.(body := b, stage := After(s.params, b, k), part := Idle)
  }

  predicate PartFinished(p: Part) {
    match p
    case Idle => false
    case RegistrationPart(t, _) => t.phase == V.AT_FINISHED
    case OutputPart(t, _) => t.phase == O.FINISHED
    case PoolPart(t, _) => t.phase == P.FINISHED
    case MintPart(t, _) => t.phase == M.FINISHED
  }

  ghost function RegistrationOf(es: seq<AuxData.Event>): Option<AuxData.Registration> {
    if exists r :: V.Received(es, r) then var r :| V.Received(es, r); Some(r) else None
  }

  ghost function OutputOf(collateral: bool, es: seq<O.OutputEvent>): Option<O.Output> {
    if exists o :: O.Received(collateral, es, o) then var o :| O.Received(collateral, es, o); Some(o) else None
  }

  ghost function CertificateOf(g: Setting, es: seq<P.PoolEvent>): Option<P.Certificate> {
    if exists c :: P.Received(g, es, c) then var c :| P.Received(g, es, c); Some(c) else None
  }

  ghost function GroupsOf(es: seq<M.MintEvent>): Option<seq<TokenBundle.Group>> {
    if exists groups :: M.Received(es, groups) then var groups :| M.Received(es, groups); Some(groups) else None
  }

  lemma RegistrationOfReceived(es: seq<AuxData.Event>, r: AuxData.Registration)
    requires V.Received(es, r)
    ensures RegistrationOf(es) == Some(r)
  {
    V.FinishedRun(es);
  }

  lemma OutputOfReceived(collateral: bool, es: seq<O.OutputEvent>, o: O.Output)
    requires O.Received(collateral, es, o)
    ensures OutputOf(collateral, es) == Some(o)
  {
    hide O.Received;
    TxUnique.OutputReceivedOnce(collateral, es, o, OutputOf(collateral, es).value);
  }

  lemma CertificateOfReceived(g: Setting, es: seq<P.PoolEvent>, c: P.Certificate)
    requires P.Received(g, es, c)
    ensures CertificateOf(g, es) == Some(c)
  {
    hide P.WellFormed, P.Requests;
    P.RequestsInjective(g, c, CertificateOf(g, es).value);
  }

  lemma GroupsOfReceived(es: seq<M.MintEvent>, groups: seq<TokenBundle.Group>)
    requires M.Received(es, groups)
    ensures GroupsOf(es) == Some(groups)
  {
    M.RequestsInjective(groups, GroupsOf(es).value);
  }

  /** checkForFinishedSubmachines: what a finished sub-machine has received is added when the next request arrives. */
  ghost function Poll(s: State): State {
    match s.part
    case Idle => s
    case RegistrationPart(t, es) =>
      if t.phase != V.AT_FINISHED || RegistrationOf(es).None? then s
      else s.(stage := AT(INPUTS), aux := Registered(RegistrationOf(es).value), part := Idle)
    case OutputPart(t, es) =>
      if t.phase != O.FINISHED || OutputOf(s.stage != OUTPUTS_SUBMACHINE, es).None? then s
      else
        var o := OutputOf(s.stage != OUTPUTS_SUBMACHINE, es).value;
        if s.stage == OUTPUTS_SUBMACHINE then Grown(s, OUTPUTS, s.body.(outputs := s.body.outputs + [o]))
        else Grown(s, COLLATERAL_OUTPUT, s.body.(collateralOutput := Some(o)))
    case PoolPart(t, es) =>
      if t.phase != P.FINISHED || CertificateOf(s.params.Setting(), es).None? then s
      else
        var c := CertificateOf(s.params.Setting(), es).value;
        Grown(s, CERTIFICATES, s.body.(certificates := s.body.certificates + [Pool(c)]))
    case MintPart(t, es) =>
      if t.phase != M.FINISHED || GroupsOf(es).None? then s
      else Grown(s, MINT, s.body.(mint := Some(GroupsOf(es).value)))
  }

  // ------------------------------------------------------------ steps

  function HandledElement(s: State, e: Element, allowed: bool): Option<State> {
    if s.stage == AT(SectionOf(e)) && allowed && ElementAccepted(s.params.Setting(), s.body, e)
    then Some(Grown(s, SectionOf(e), Extended(s.body, e))) else None
  }

  /** A request to a sub-machine. The first request of an output or of the mint starts its sub-machine. */
  function HandledPart(keyHashOf: Bip44.Path -> KeyHash, s: State, r: TxRequest): Option<State> {
    match r
    case OfRegistration(e) =>
      if s.stage != AUX_DATA_CVOTE_REGISTRATION_SUBMACHINE then None else StepRegistration(s, e)
    case OfOutput(e) =>
      if s.stage == AT(OUTPUTS) then StepOutput(Opened(s, OUTPUTS_SUBMACHINE, OutputPart(O.START, [])), false, e)
      else if s.stage == OUTPUTS_SUBMACHINE then StepOutput(s, false, e) else None
    case OfPool(e) => if s.stage != CERTIFICATES_POOL_SUBMACHINE then None else StepPool(keyHashOf, s, e)
    case OfMint(e) =>
      if s.stage == AT(MINT) then StepMint(Opened(s, MINT_SUBMACHINE, MintPart(M.START, [])), e)
      else if s.stage == MINT_SUBMACHINE then StepMint(s, e) else None
    case OfCollateralOutput(e) =>
      if s.stage == AT(COLLATERAL_OUTPUT)
      then StepOutput(Opened(s, COLLATERAL_OUTPUT_SUBMACHINE, OutputPart(O.START, [])), true, e)
      else if s.stage == COLLATERAL_OUTPUT_SUBMACHINE then StepOutput(s, true, e) else None
    case _ => None
  }

  function Opened(s: State, stage: Stage, part: Part): State {
    s.(stage := stage, part := part)
  }

  function StepRegistration(s: State, e: AuxData.Event): Option<State> {
    if !s.part.RegistrationPart? then None
    else
      match V.Step(s.part.registration, e)
      case None => None
      case Some(t) => Some(s.(part := RegistrationPart(t, s.part.registrationEvents + [e])))
  }

  function StepOutput(s: State, collateral: bool, e: O.OutputEvent): Option<State> {
    if !s.part.OutputPart? then None
    else
      match O.Step(collateral, s.part.output, e)
      case None => None
      case Some(t) => Some(s.(part := OutputPart(t, s.part.outputEvents + [e])))
  }

  function StepPool(keyHashOf: Bip44.Path -> KeyHash, s: State, e: P.PoolEvent): Option<State> {
    if !s.part.PoolPart? then None
    else
      match P.Step(P.Env(s.params.Setting(), keyHashOf), s.part.pool, e)
      case None => None
      case Some(t) => Some(s.(part := PoolPart(t, s.part.poolEvents + [e])))
  }

  function StepMint(s: State, e: M.MintEvent): Option<State> {
    if !s.part.MintPart? then None
    else
      match M.Step(s.part.mint, e)
      case None => None
      case Some(t) => Some(s.(part := MintPart(t, s.part.mintEvents + [e])))
  }

  /** The path of the owner given by path in a body whose certificate registers a pool. */
  function OwnerPath(b: Body): Option<Bip44.Path> {
    if b.certificates != [] && b.certificates[0].Pool? then P.PathOwner(None, b.certificates[0].certificate.owners)
    else None
  }

  /** The requests that open or close a part of the run. */
  function HandledControl(s: State, r: TxRequest, allowed: bool): Option<State> {
    match r
    case InitRequest(d) =>
      if s.stage != INIT || !allowed || !InitAccepted(d) then None
      else Some(s.(params := Stored(d), stage := if Stored(d).includeAuxData then AUX_DATA else AT(INPUTS)))
    case AuxDataHashRequest(h) =>
      if s.stage != AUX_DATA || !allowed then None else Some(s.(stage := AT(INPUTS), aux := GivenHash(h)))
    case RegistrationRequest =>
      if s.stage != AUX_DATA || !allowed then None
      else Some(Opened(s, AUX_DATA_CVOTE_REGISTRATION_SUBMACHINE, RegistrationPart(V.START, [])))
    case PoolCertificateRequest =>
      if s.stage != AT(CERTIFICATES) || !P.IsPoolMode(s.params.txSigningMode) then None
      else Some(Opened(s, CERTIFICATES_POOL_SUBMACHINE, PoolPart(P.START, [])))
    case ConfirmRequest =>
      if s.stage != CONFIRM || !allowed then None
      else Some(s.(stage := if s.params.numWitnesses > 0 then WITNESSES else NONE))
    case WitnessRequest(path) =>
      if s.stage != WITNESSES || !WitnessAllowed(s.params.txSigningMode, path, OwnerPath(s.body), allowed) then None
      else
        Some(s.(signers := s.signers + [path],
                stage := if |s.signers| + 1 == s.params.numWitnesses then NONE else WITNESSES))
    case _ => None
  }

  /** A request in a state in which no sub-machine has just finished. */
  function Handled(keyHashOf: Bip44.Path -> KeyHash, s: State, r: TxRequest, allowed: bool): Option<State> {
    match r
    case ElementRequest(e) => HandledElement(s, e, allowed)
    case OfRegistration(_) => HandledPart(keyHashOf, s, r)
    case OfOutput(_) => HandledPart(keyHashOf, s, r)
    case OfPool(_) => HandledPart(keyHashOf, s, r)
    case OfMint(_) => HandledPart(keyHashOf, s, r)
    case OfCollateralOutput(_) => HandledPart(keyHashOf, s, r)
    case _ => HandledControl(s, r, allowed)
  }

  /** The state after a request, or None if the request is refused. */
  ghost function Step(keyHashOf: Bip44.Path -> KeyHash, s: State, r: TxRequest, allowed: bool): Option<State> {
    Handled(keyHashOf, Poll(s), r, allowed)
  }

  /** What an element of one request does to the body, and at which point of the run it may come, in words. */
  lemma ElementInWords(keyHashOf: Bip44.Path -> KeyHash, s: State, e: Element, allowed: bool)
    ensures var p := Poll(s); var b := p.body; var r := Step(keyHashOf, s, ElementRequest(e), allowed);
      && (r.Some? <==>
          && allowed
          && match e
             case InputElement(_) => p.stage == AT(0)
             case FeeElement(_) => p.stage == AT(2)
             case TtlElement(_) => p.stage == AT(3)
             case CertificateElement(_) =>
               p.stage == AT(4)
               && p.params.txSigningMode !in {P.POOL_REGISTRATION_OWNER, P.POOL_REGISTRATION_OPERATOR}
             case WithdrawalElement(w) =>
               p.stage == AT(5)
               && (b.withdrawals == []
                   || TokenBundle.Precedes(b.withdrawals[|b.withdrawals| - 1].account, w.account))
             case ValidityIntervalStartElement(_) => p.stage == AT(6)
             case ScriptDataHashElement(_) => p.stage == AT(8)
             case CollateralInputElement(_) => p.stage == AT(9) && |b.collateralInputs| < 1000
             case RequiredSignerElement(_) => p.stage == AT(10)
             case TotalCollateralElement(_) => p.stage == AT(12)
             case ReferenceInputElement(_) => p.stage == AT(13) && |b.referenceInputs| < 10000
             case VotingProcedureElement(_) => p.stage == AT(14)
             case TreasuryElement(_) => p.stage == AT(15)
             case DonationElement(n) => p.stage == AT(16) && n >= 1)
      && (r.Some? ==>
            r.value.body
            == match e
               case InputElement(i) => b.(inputs := b.inputs + [i])
               case FeeElement(n) => b.(fee := Some(n))
               case TtlElement(n) => b.(ttl := Some(n))
               case CertificateElement(c) => b.(certificates := b.certificates + [Plain(c)])
               case WithdrawalElement(w) => b.(withdrawals := b.withdrawals + [w])
               case ValidityIntervalStartElement(n) => b.(validityIntervalStart := Some(n))
               case ScriptDataHashElement(h) => b.(scriptDataHash := Some(h))
               case CollateralInputElement(i) => b.(collateralInputs := b.collateralInputs + [i])
               case RequiredSignerElement(h) => b.(requiredSigners := b.requiredSigners + [h])
               case TotalCollateralElement(n) => b.(totalCollateral := Some(n))
               case ReferenceInputElement(i) => b.(referenceInputs := b.referenceInputs + [i])
               case VotingProcedureElement(v) => b.(votingProcedures := b.votingProcedures + [v])
               case TreasuryElement(n) => b.(treasury := Some(n))
               case DonationElement(n) => b.(donation := Some(n)))
  {
    hide Poll, TokenBundle.KeyLess, TokenBundle.Precedes, After;
    var b := Poll(s).body;
    if e.WithdrawalElement? && b.withdrawals != [] {
      TokenBundle.KeyOrderInWords(b.withdrawals[|b.withdrawals| - 1].account, e.withdrawal.account);
    }
  }

  /** The decision of the policies and the user only matters for acceptance. */
  lemma AllowedAnyway(keyHashOf: Bip44.Path -> KeyHash, s: State, r: TxRequest, allowed: bool)
    requires Step(keyHashOf, s, r, allowed).Some?
    ensures Step(keyHashOf, s, r, true) == Step(keyHashOf, s, r, allowed)
  {
    hide Poll, HandledPart, ElementAccepted, InitAccepted, Bip44.ClassifyPath, Extended, Grown, SectionOf;
  }

  /** The state after a sequence of requests, all allowed, or None if one of them is refused. */
  ghost function Run(keyHashOf: Bip44.Path -> KeyHash, s: State, rs: seq<TxRequest>): Option<State>
    decreases |rs|
  {
    if rs == [] then Some(s)
    else
      match Step(keyHashOf, s, rs[0], true)
      case None => None
      case Some(t) => Run(keyHashOf, t, rs[1..])
  }

  lemma RunNext(keyHashOf: Bip44.Path -> KeyHash, s: State, rs: seq<TxRequest>)
    ensures rs == [] ==> Run(keyHashOf, s, rs) == Some(s)
    ensures rs != [] && Step(keyHashOf, s, rs[0], true).None? ==> Run(keyHashOf, s, rs) == None
    ensures rs != [] && Step(keyHashOf, s, rs[0], true).Some? ==>
            Run(keyHashOf, s, rs) == Run(keyHashOf, Step(keyHashOf, s, rs[0], true).value, rs[1..])
  {
  }

  lemma {:induction false} RunAppend(keyHashOf: Bip44.Path -> KeyHash, s: State, v: seq<TxRequest>, w: seq<TxRequest>)
    ensures Run(keyHashOf, s, v + w)
         == match Run(keyHashOf, s, v) case None => None case Some(t) => Run(keyHashOf, t, w)
    decreases |v|
  {
    hide Step, Run;
    RunNext(keyHashOf, s, v);
    RunNext(keyHashOf, s, v + w);
    if v == [] {
      assert v + w == w;
    } else {
      assert (v + w)[0] == v[0] && (v + w)[1..] == v[1..] + w;
      if Step(keyHashOf, s, v[0], true).Some? {
        RunAppend(keyHashOf, Step(keyHashOf, s, v[0], true).value, v[1..], w);
      }
    }
  }

  lemma RunSnoc(keyHashOf: Bip44.Path -> KeyHash, s: State, rs: seq<TxRequest>, r: TxRequest)
    ensures Run(keyHashOf, s, rs + [r])
         == match Run(keyHashOf, s, rs) case None => None case Some(t) => Step(keyHashOf, t, r, true)
  {
    hide Step, Run;
    RunAppend(keyHashOf, s, rs, [r]);
    if Run(keyHashOf, s, rs).Some? {
      var t := Run(keyHashOf, s, rs).value;
      RunNext(keyHashOf, t, [r]);
      if Step(keyHashOf, t, r, true).Some? {
        RunNext(keyHashOf, Step(keyHashOf, t, r, true).value, [r][1..]);
      }
    }
  }

  // ------------------------------------------------------------ what every run keeps

  lemma CertificateWellFormed(g: Setting, b: Body, x: Certificate)
    requires WellFormed(g, b) && CertificateAccepted(g, x)
    ensures WellFormed(g, b.(certificates := b.certificates + [x]))
  {
  }

  lemma AccountsSnoc(ws: seq<Withdrawal>, w: Withdrawal)
    ensures Accounts(ws + [w]) == Accounts(ws) + [w.account]
  {
    assert (ws + [w])[..|ws|] == ws;
  }

  lemma WithdrawalWellFormed(g: Setting, b: Body, w: Withdrawal)
    requires WellFormed(g, b) && InOrder(b.withdrawals, w.account)
    ensures WellFormed(g, b.(withdrawals := b.withdrawals + [w]))
  {
    hide TokenBundle.KeyLess, TokenBundle.Ascending, Accounts, O.WellFormed, CertificateAccepted, M.WellFormed;
    AccountsSnoc(b.withdrawals, w);
    TokenBundle.AscendingSnoc(None, Accounts(b.withdrawals), w.account);
  }

  lemma OutputWellFormed(g: Setting, b: Body, o: O.Output)
    requires WellFormed(g, b) && O.WellFormed(false, o)
    ensures WellFormed(g, b.(outputs := b.outputs + [o]))
  {
    hide TokenBundle.Ascending, Accounts, O.WellFormed, CertificateAccepted, M.WellFormed;
  }

  lemma MintWellFormed(g: Setting, b: Body, groups: seq<TokenBundle.Group>)
    requires WellFormed(g, b) && M.WellFormed(groups)
    ensures WellFormed(g, b.(mint := Some(groups)))
  {
    hide TokenBundle.Ascending, Accounts, O.WellFormed, CertificateAccepted, M.WellFormed;
  }

  lemma CollateralOutputWellFormed(g: Setting, b: Body, o: O.Output)
    requires WellFormed(g, b) && O.WellFormed(true, o)
    ensures WellFormed(g, b.(collateralOutput := Some(o)))
  {
    hide TokenBundle.Ascending, Accounts, O.WellFormed, CertificateAccepted, M.WellFormed;
  }

  /** The body has reached section k, which still expects something. */
  predicate AtWork(s: State, k: nat) {
    k < END && Progressed(s.params, s.body, k) && Size(s.body, k) < Expected(s.params, k)
  }

  /** The auxiliary data are those announced, once they have been received. */
  predicate AuxInvariant(s: State) {
    if s.stage in {INIT, AUX_DATA, AUX_DATA_CVOTE_REGISTRATION_SUBMACHINE} then s.aux.NoAux?
    else (s.aux.NoAux? <==> !s.params.includeAuxData) && (s.aux.Registered? ==> AuxData.WellFormed(s.aux.registration))
  }

  predicate OutputInvariant(collateral: bool, p: Part) {
    p.OutputPart? && O.Run(collateral, O.START, p.outputEvents) == Some(p.output) && O.Invariant(p.output)
  }

  predicate MintInvariant(p: Part) {
    p.MintPart? && M.Run(M.START, p.mintEvents) == Some(p.mint) && M.Invariant(p.mint)
  }

  predicate PoolInvariant(keyHashOf: Bip44.Path -> KeyHash, g: Setting, p: Part) {
    p.PoolPart? && P.Run(P.Env(g, keyHashOf), P.START, p.poolEvents) == Some(p.pool)
  }

  predicate RegistrationInvariant(p: Part) {
    p.RegistrationPart? && V.Run(V.START, p.registrationEvents) == Some(p.registration)
  }

  predicate BeforeBody(s: State) {
    s.params.includeAuxData && s.params.numInputs > 0 && s.body == EMPTY
  }

  predicate StageInvariant(keyHashOf: Bip44.Path -> KeyHash, s: State) {
    match s.stage
    case INIT => s == START
    case AUX_DATA => s.part.Idle? && BeforeBody(s)
    case AUX_DATA_CVOTE_REGISTRATION_SUBMACHINE => RegistrationInvariant(s.part) && BeforeBody(s)
    case AT(k) => s.part.Idle? && AtWork(s, k)
    case OUTPUTS_SUBMACHINE => OutputInvariant(false, s.part) && AtWork(s, OUTPUTS)
    case CERTIFICATES_POOL_SUBMACHINE =>
      PoolInvariant(keyHashOf, s.params.Setting(), s.part) && AtWork(s, CERTIFICATES)
    case MINT_SUBMACHINE => MintInvariant(s.part) && AtWork(s, MINT)
    case COLLATERAL_OUTPUT_SUBMACHINE => OutputInvariant(true, s.part) && AtWork(s, COLLATERAL_OUTPUT)
    case CONFIRM => s.part.Idle? && Progressed(s.params, s.body, END)
    case WITNESSES =>
      s.part.Idle? && Progressed(s.params, s.body, END) && |s.signers| < s.params.numWitnesses && SignersAllowed(s)
    case NONE =>
      s.part.Idle? && Progressed(s.params, s.body, END) && |s.signers| == s.params.numWitnesses && SignersAllowed(s)
  }

  /** Every signer has passed the witness policy. */
  predicate SignersAllowed(s: State) {
    forall i :: 0 <= i < |s.signers| ==>
      WitnessAllowed(s.params.txSigningMode, s.signers[i], OwnerPath(s.body), true)
  }

  predicate Invariant(keyHashOf: Bip44.Path -> KeyHash, s: State) {
    && WellFormed(s.params.Setting(), s.body)
    && (s.stage !in {WITNESSES, NONE} ==> s.signers == [])
    && AuxInvariant(s) && StageInvariant(keyHashOf, s)
  }

  lemma {:induction false} ProgressedNext(p: Params, b: Body, k: nat)
    requires k < END && Progressed(p, b, k) && Size(b, k) == Expected(p, k)
    ensures Progressed(p, b, Next(p, k)) && Size(b, Next(p, k)) == 0
  {
    hide Size, Expected;
    NothingAtEnd(b);
  }

  lemma NothingAtEnd(b: Body)
    ensures Size(b, END) == 0
  {
  }

  /** A body that has grown by one element of section k. */
  predicate GrownBy(b: Body, c: Body, k: nat) {
    SameExcept(b, c, k) && Size(c, k) == Size(b, k) + 1
  }

  lemma GrownKept(keyHashOf: Bip44.Path -> KeyHash, s: State, k: nat, c: Body)
    requires AtWork(s, k) && GrownBy(s.body, c, k)
    ensures StageInvariant(keyHashOf, Grown(s, k, c)) && Grown(s, k, c).stage != INIT
    ensures Grown(s, k, c).stage !in {AUX_DATA, AUX_DATA_CVOTE_REGISTRATION_SUBMACHINE, WITNESSES, NONE}
  {
    hide Size, Expected, SameExcept, WellFormed;
    forall j: nat | j != k ensures Size(s.body, j) == Size(c, j) {
      SizeElsewhere(s.body, c, k, j);
    }
    assert Progressed(s.params, c, k);
    if Size(c, k) == Expected(s.params, k) {
      ProgressedNext(s.params, c, k);
    }
  }

  lemma SizeElsewhere(b: Body, c: Body, k: nat, j: nat)
    requires SameExcept(b, c, k) && j != k
    ensures Size(b, j) == Size(c, j)
  {
  }

  /** A finished output was received in full. */
  lemma FinishedOutput(collateral: bool, p: Part) returns (o: O.Output)
    requires OutputInvariant(collateral, p) && p.output.phase == O.FINISHED
    ensures OutputOf(collateral, p.outputEvents) == Some(o) && O.Received(collateral, p.outputEvents, o)
    ensures O.WellFormed(collateral, o) && O.WellFormed(false, o)
  {
    hide O.Run, O.WellFormed, O.Invariant, O.Requests;
    O.FinishedRun(collateral, p.outputEvents);
    o :| O.Received(collateral, p.outputEvents, o);
    OutputOfReceived(collateral, p.outputEvents, o);
  }

  lemma FinishedMint(p: Part) returns (groups: seq<TokenBundle.Group>)
    requires MintInvariant(p) && p.mint.phase == M.FINISHED
    ensures GroupsOf(p.mintEvents) == Some(groups) && M.Received(p.mintEvents, groups) && M.WellFormed(groups)
  {
    hide M.Run, M.WellFormed, M.Invariant, M.Requests;
    M.FinishedRun(p.mintEvents);
    groups :| M.Received(p.mintEvents, groups);
    GroupsOfReceived(p.mintEvents, groups);
  }

  lemma FinishedPool(keyHashOf: Bip44.Path -> KeyHash, g: Setting, p: Part) returns (c: P.Certificate)
    requires PoolInvariant(keyHashOf, g, p) && p.pool.phase == P.FINISHED
    ensures CertificateOf(g, p.poolEvents) == Some(c) && P.Received(g, p.poolEvents, c) && P.WellFormed(g, c)
  {
    hide P.Run, P.WellFormed, P.Requests;
    P.FinishedRun(P.Env(g, keyHashOf), p.poolEvents);
    c :| P.Received(g, p.poolEvents, c);
    CertificateOfReceived(g, p.poolEvents, c);
  }

  lemma FinishedRegistration(p: Part) returns (r: AuxData.Registration)
    requires RegistrationInvariant(p) && p.registration.phase == V.AT_FINISHED
    ensures RegistrationOf(p.registrationEvents) == Some(r) && V.Received(p.registrationEvents, r)
    ensures AuxData.WellFormed(r)
  {
    hide V.Run, AuxData.WellFormed, AuxData.Events;
    V.FinishedRun(p.registrationEvents);
    r :| V.Received(p.registrationEvents, r);
    RegistrationOfReceived(p.registrationEvents, r);
  }

  lemma BodyStarted(keyHashOf: Bip44.Path -> KeyHash, s: State)
    requires s.stage == AT(INPUTS) && s.part.Idle? && s.body == EMPTY && s.params.numInputs > 0
    ensures StageInvariant(keyHashOf, s)
  {
  }

  lemma OutputPolled(s: State, o: O.Output)
    requires s.part.OutputPart? && s.part.output.phase == O.FINISHED && s.stage == OUTPUTS_SUBMACHINE
    requires OutputOf(false, s.part.outputEvents) == Some(o)
    ensures Poll(s) == Grown(s, OUTPUTS, s.body.(outputs := s.body.outputs + [o]))
  {
    hide OutputOf, Grown;
  }

  lemma CollateralOutputPolled(s: State, o: O.Output)
    requires s.part.OutputPart? && s.part.output.phase == O.FINISHED && s.stage == COLLATERAL_OUTPUT_SUBMACHINE
    requires OutputOf(true, s.part.outputEvents) == Some(o)
    ensures Poll(s) == Grown(s, COLLATERAL_OUTPUT, s.body.(collateralOutput := Some(o)))
  {
    hide OutputOf, Grown;
  }

  /** What polling does in a reachable state: the element received is added to the body, which grows by it. */
  lemma PollGrows(keyHashOf: Bip44.Path -> KeyHash, s: State) returns (k: nat)
    requires Invariant(keyHashOf, s) && PartFinished(s.part) && !s.part.RegistrationPart?
    ensures AtWork(s, k) && GrownBy(s.body, Poll(s).body, k) && Poll(s) == Grown(s, k, Poll(s).body)
    ensures WellFormed(s.params.Setting(), Poll(s).body)
    ensures s.stage !in {INIT, AUX_DATA, AUX_DATA_CVOTE_REGISTRATION_SUBMACHINE, WITNESSES, NONE}
  {
    hide Progressed, WellFormed, Poll, Grown, O.WellFormed, O.Received, M.WellFormed, M.Received, P.WellFormed,
         P.Received, OutputOf, GroupsOf, CertificateOf, O.Run, M.Run, P.Run, O.Invariant, M.Invariant, Size, Expected,
         BeforeBody, V.Run;
    match s.stage {
      case OUTPUTS_SUBMACHINE =>
        k := OUTPUTS;
        var o := FinishedOutput(false, s.part);
        OutputPolled(s, o);
        GrownFields(s, k, s.body.(outputs := s.body.outputs + [o]));
        OutputWellFormed(s.params.Setting(), s.body, o);
        OneMore(s.params, s.body, s.body.(outputs := s.body.outputs + [o]), k);
      case COLLATERAL_OUTPUT_SUBMACHINE =>
        k := COLLATERAL_OUTPUT;
        var o := FinishedOutput(true, s.part);
        CollateralOutputPolled(s, o);
        GrownFields(s, k, s.body.(collateralOutput := Some(o)));
        CollateralOutputWellFormed(s.params.Setting(), s.body, o);
        OneMore(s.params, s.body, s.body.(collateralOutput := Some(o)), k);
      case CERTIFICATES_POOL_SUBMACHINE =>
        k := CERTIFICATES;
        var c := FinishedPool(keyHashOf, s.params.Setting(), s.part);
        PoolPolled(s, c);
        GrownFields(s, k, s.body.(certificates := s.body.certificates + [Pool(c)]));
        CertificateWellFormed(s.params.Setting(), s.body, Pool(c));
        OneMore(s.params, s.body, s.body.(certificates := s.body.certificates + [Pool(c)]), k);
      case MINT_SUBMACHINE =>
        k := MINT;
        var groups := FinishedMint(s.part);
        MintPolled(s, groups);
        GrownFields(s, k, s.body.(mint := Some(groups)));
        MintWellFormed(s.params.Setting(), s.body, groups);
        OneMore(s.params, s.body, s.body.(mint := Some(groups)), k);
      case _ => assert false;
    }
  }

  lemma GrownFields(s: State, k: nat, b: Body)
    requires k < END
    ensures Grown(s, k, b).body == b && Grown(s, k, b).params == s.params && Grown(s, k, b).part.Idle?
  {
  }

  lemma PoolPolled(s: State, c: P.Certificate)
    requires s.part.PoolPart? && s.part.pool.phase == P.FINISHED
    requires CertificateOf(s.params.Setting(), s.part.poolEvents) == Some(c)
    ensures Poll(s) == Grown(s, CERTIFICATES, s.body.(certificates := s.body.certificates + [Pool(c)]))
  {
    hide CertificateOf, Grown;
  }

  lemma MintPolled(s: State, groups: seq<TokenBundle.Group>)
    requires s.part.MintPart? && s.part.mint.phase == M.FINISHED
    requires GroupsOf(s.part.mintEvents) == Some(groups)
    ensures Poll(s) == Grown(s, MINT, s.body.(mint := Some(groups)))
  {
    hide GroupsOf, Grown;
  }

  /** A list has one more element, or an optional element has arrived. */
  lemma OneMore(p: Params, b: Body, c: Body, k: nat)
    requires Size(b, k) < Expected(p, k)
    requires || (k == OUTPUTS && exists o :: c == b.(outputs := b.outputs + [o]))
             || (k == CERTIFICATES && exists x :: c == b.(certificates := b.certificates + [x]))
             || (k == MINT && c == b.(mint := c.mint) && c.mint.Some?)
             || (k == COLLATERAL_OUTPUT && c == b.(collateralOutput := c.collateralOutput) && c.collateralOutput.Some?)
    ensures GrownBy(b, c, k)
  {
  }

  lemma PollFinished(keyHashOf: Bip44.Path -> KeyHash, s: State)
    requires Invariant(keyHashOf, s) && PartFinished(s.part)
    ensures Invariant(keyHashOf, Poll(s)) && !PartFinished(Poll(s).part)
  {
    hide WellFormed, Poll, AtWork, StageInvariant, GrownBy, AuxData.WellFormed;
    if s.part.RegistrationPart? {
      RegistrationPolled(keyHashOf, s);
    } else {
      var k := PollGrows(keyHashOf, s);
      InSection(s, k);
      GrownKept(keyHashOf, s, k, Poll(s).body);
    }
  }

  lemma InSection(s: State, k: nat)
    requires AtWork(s, k)
    ensures k < END
  {
  }

  lemma RegistrationPolled(keyHashOf: Bip44.Path -> KeyHash, s: State)
    requires Invariant(keyHashOf, s) && s.part.RegistrationPart? && PartFinished(s.part)
    ensures s.stage == AUX_DATA_CVOTE_REGISTRATION_SUBMACHINE
    ensures Poll(s).aux.Registered? && V.Received(s.part.registrationEvents, Poll(s).aux.registration)
    ensures Poll(s) == s.(stage := AT(INPUTS), aux := Poll(s).aux, part := Idle)
    ensures Invariant(keyHashOf, Poll(s))
  {
    hide V.Run, AuxData.WellFormed, RegistrationOf, V.Received, WellFormed, O.Run, M.Run, P.Run, O.Invariant,
         M.Invariant, Progressed, Size, Expected;
    var r := FinishedRegistration(s.part);
    BodyStarted(keyHashOf, Poll(s));
  }

  lemma PollKept(keyHashOf: Bip44.Path -> KeyHash, s: State)
    requires Invariant(keyHashOf, s)
    ensures Invariant(keyHashOf, Poll(s)) && !PartFinished(Poll(s).part)
    ensures !PartFinished(s.part) ==> Poll(s) == s
  {
    hide Invariant;
    if PartFinished(s.part) {
      PollFinished(keyHashOf, s);
    } else {
      NothingToPoll(s);
    }
  }

  lemma NothingToPoll(s: State)
    requires !PartFinished(s.part)
    ensures Poll(s) == s
  {
  }

  lemma ElementWellFormed(g: Setting, b: Body, e: Element)
    requires WellFormed(g, b) && ElementAccepted(g, b, e)
    ensures WellFormed(g, Extended(b, e))
  {
    hide WellFormed;
    match e {
      case CertificateElement(c) => CertificateWellFormed(g, b, Plain(c));
      case WithdrawalElement(w) => WithdrawalWellFormed(g, b, w);
      case _ => StillWellFormed(g, b, Extended(b, e));
    }
  }

  lemma ElementGrows(p: Params, b: Body, e: Element)
    requires Size(b, SectionOf(e)) < Expected(p, SectionOf(e))
    ensures GrownBy(b, Extended(b, e), SectionOf(e))
  {
  }

  lemma ElementKept(keyHashOf: Bip44.Path -> KeyHash, s: State, e: Element, allowed: bool)
    requires Invariant(keyHashOf, s) && HandledElement(s, e, allowed).Some?
    ensures Invariant(keyHashOf, HandledElement(s, e, allowed).value)
  {
    hide WellFormed, ElementAccepted, Extended, Progressed, Size, Expected, GrownBy, AuxData.WellFormed;
    ElementWellFormed(s.params.Setting(), s.body, e);
    ElementGrows(s.params, s.body, e);
    GrownKept(keyHashOf, s, SectionOf(e), Extended(s.body, e));
  }

  lemma OutputKept(collateral: bool, p: Part, e: O.OutputEvent)
    requires OutputInvariant(collateral, p) && O.Step(collateral, p.output, e).Some?
    ensures OutputInvariant(collateral, OutputPart(O.Step(collateral, p.output, e).value, p.outputEvents + [e]))
  {
    hide O.Run, O.Step, O.Invariant;
    var t := O.Step(collateral, p.output, e).value;
    O.RunAppend(collateral, O.START, p.outputEvents, [e]);
    O.RunNext(collateral, p.output, [e]);
    O.RunNext(collateral, t, [e][1..]);
    O.InvariantKept(collateral, p.output, e);
  }

  lemma MintKept(p: Part, e: M.MintEvent)
    requires MintInvariant(p) && M.Step(p.mint, e).Some?
    ensures MintInvariant(MintPart(M.Step(p.mint, e).value, p.mintEvents + [e]))
  {
    hide M.Run, M.Step, M.Invariant;
    var t := M.Step(p.mint, e).value;
    M.RunAppend(M.START, p.mintEvents, [e]);
    M.RunNext(p.mint, [e]);
    M.RunNext(t, [e][1..]);
    M.InvariantKept(p.mint, e);
  }

  lemma PoolKept(keyHashOf: Bip44.Path -> KeyHash, g: Setting, p: Part, e: P.PoolEvent)
    requires PoolInvariant(keyHashOf, g, p) && P.Step(P.Env(g, keyHashOf), p.pool, e).Some?
    ensures PoolInvariant(keyHashOf, g,
                          PoolPart(P.Step(P.Env(g, keyHashOf), p.pool, e).value, p.poolEvents + [e]))
  {
    hide P.Run, P.Step;
    var env := P.Env(g, keyHashOf);
    P.RunAppend(env, P.START, p.poolEvents, [e]);
    P.RunNext(env, p.pool, [e]);
    P.RunNext(env, P.Step(env, p.pool, e).value, [e][1..]);
  }

  lemma RegistrationKept(p: Part, e: AuxData.Event)
    requires RegistrationInvariant(p) && V.Step(p.registration, e).Some?
    ensures RegistrationInvariant(RegistrationPart(V.Step(p.registration, e).value, p.registrationEvents + [e]))
  {
    hide V.Run, V.Step;
    V.RunAppend(V.START, p.registrationEvents, [e]);
    V.RunCons(p.registration, e, []);
    V.RunNext(V.Step(p.registration, e).value, []);
    assert [e] + [] == [e];
  }

  lemma FreshParts(keyHashOf: Bip44.Path -> KeyHash, g: Setting, collateral: bool)
    ensures OutputInvariant(collateral, OutputPart(O.START, []))
    ensures MintInvariant(MintPart(M.START, []))
    ensures PoolInvariant(keyHashOf, g, PoolPart(P.START, []))
    ensures RegistrationInvariant(RegistrationPart(V.START, []))
  {
  }

  lemma PartKept(keyHashOf: Bip44.Path -> KeyHash, s: State, r: TxRequest)
    requires Invariant(keyHashOf, s) && HandledPart(keyHashOf, s, r).Some?
    ensures Invariant(keyHashOf, HandledPart(keyHashOf, s, r).value)
  {
    hide WellFormed, Progressed, Size, Expected, AuxData.WellFormed, O.Step, M.Step, P.Step, V.Step, OutputInvariant,
         MintInvariant, PoolInvariant, RegistrationInvariant;
    FreshParts(keyHashOf, s.params.Setting(), false);
    FreshParts(keyHashOf, s.params.Setting(), true);
    match r {
      case OfRegistration(e) => RegistrationKept(s.part, e);
      case OfOutput(e) => OutputKept(false, if s.stage == AT(OUTPUTS) then OutputPart(O.START, []) else s.part, e);
      case OfPool(e) => PoolKept(keyHashOf, s.params.Setting(), s.part, e);
      case OfMint(e) => MintKept(if s.stage == AT(MINT) then MintPart(M.START, []) else s.part, e);
      case OfCollateralOutput(e) =>
        OutputKept(true, if s.stage == AT(COLLATERAL_OUTPUT) then OutputPart(O.START, []) else s.part, e);
      case _ => assert false;
    }
  }

  lemma ControlKept(keyHashOf: Bip44.Path -> KeyHash, s: State, r: TxRequest, allowed: bool)
    requires Invariant(keyHashOf, s) && HandledControl(s, r, allowed).Some?
    ensures Invariant(keyHashOf, HandledControl(s, r, allowed).value)
  {
    hide WellFormed, Progressed, Size, Expected, InitAccepted, Stored, WitnessAllowed, AuxData.WellFormed,
         OutputInvariant, MintInvariant, PoolInvariant, RegistrationInvariant;
    var t := HandledControl(s, r, allowed).value;
    FreshParts(keyHashOf, s.params.Setting(), false);
    match r {
      case InitRequest(d) =>
        StoredInit(d);
        NothingWellFormed(t.params.Setting());
        if t.stage == AT(INPUTS) { BodyStarted(keyHashOf, t); }
      case AuxDataHashRequest(h) => BodyStarted(keyHashOf, t);
      case WitnessRequest(path) => AllowedWitness(s.params.txSigningMode, path, OwnerPath(s.body), allowed);
      case _ =>
    }
  }

  lemma AllowedWitness(mode: SigningMode, path: Bip44.Path, ownerPath: Option<Bip44.Path>, allowed: bool)
    requires WitnessAllowed(mode, path, ownerPath, allowed)
    ensures WitnessAllowed(mode, path, ownerPath, true)
  {
    hide Bip44.ClassifyPath;
  }

  lemma NothingWellFormed(g: Setting)
    ensures WellFormed(g, EMPTY)
  {
  }

  /** Every accepted request keeps the invariant. */
  lemma StepKept(keyHashOf: Bip44.Path -> KeyHash, s: State, r: TxRequest, allowed: bool)
    requires Invariant(keyHashOf, s) && Step(keyHashOf, s, r, allowed).Some?
    ensures Invariant(keyHashOf, Step(keyHashOf, s, r, allowed).value)
  {
    hide Invariant, Poll, HandledElement, HandledPart, HandledControl;
    PollKept(keyHashOf, s);
    HandledKept(keyHashOf, Poll(s), r, allowed);
  }

  lemma HandledKept(keyHashOf: Bip44.Path -> KeyHash, s: State, r: TxRequest, allowed: bool)
    requires Invariant(keyHashOf, s) && Handled(keyHashOf, s, r, allowed).Some?
    ensures Invariant(keyHashOf, Handled(keyHashOf, s, r, allowed).value)
  {
    hide Invariant, HandledElement, HandledPart, HandledControl;
    match r {
      case ElementRequest(e) => ElementKept(keyHashOf, s, e, allowed);
      case OfRegistration(_) => PartKept(keyHashOf, s, r);
      case OfOutput(_) => PartKept(keyHashOf, s, r);
      case OfPool(_) => PartKept(keyHashOf, s, r);
      case OfMint(_) => PartKept(keyHashOf, s, r);
      case OfCollateralOutput(_) => PartKept(keyHashOf, s, r);
      case _ => ControlKept(keyHashOf, s, r, allowed);
    }
  }

  lemma StartKept(keyHashOf: Bip44.Path -> KeyHash)
    ensures Invariant(keyHashOf, START)
  {
    NothingWellFormed(START.params.Setting());
  }

  /** Whatever is accepted, the invariant holds. */
  lemma {:induction false} RunKept(keyHashOf: Bip44.Path -> KeyHash, s: State, rs: seq<TxRequest>)
    requires Invariant(keyHashOf, s) && Run(keyHashOf, s, rs).Some?
    ensures Invariant(keyHashOf, Run(keyHashOf, s, rs).value)
    decreases |rs|
  {
    hide Invariant, Step, Run;
    RunNext(keyHashOf, s, rs);
    if rs != [] {
      StepKept(keyHashOf, s, rs[0], true);
      RunKept(keyHashOf, Step(keyHashOf, s, rs[0], true).value, rs[1..]);
    }
  }

  // ------------------------------------------------------------ the rank of a state

  /** Weights that put the sections before their elements, and these before the steps of a sub-machine. */
  const SLOT := 0x40_0000_0000
  const SECTION := 0x40_0000_0000_0000
  const MAX_REQUESTS := 20 * SECTION

  function SectionRank(p: Params, b: Body, k: nat, sub: nat): nat
    requires k <= END
  {
    (END - k) * SECTION + (if Size(b, k) < Expected(p, k) then Expected(p, k) - Size(b, k) else 0) * SLOT + sub
  }

  /** How far a run is from its end: the sections left, the elements left in this section, and what is left
      for the sub-machine at work. */
  function StageRank(p: Params, b: Body, s: Stage, sub: nat): nat {
    match s
    case INIT => MAX_REQUESTS
    case AUX_DATA => 19 * SECTION
    case AUX_DATA_CVOTE_REGISTRATION_SUBMACHINE => 18 * SECTION + 1 + sub
    case AT(k) => if k < END then SectionRank(p, b, k, SLOT / 2) else 0
    case OUTPUTS_SUBMACHINE => SectionRank(p, b, OUTPUTS, 1 + sub)
    case CERTIFICATES_POOL_SUBMACHINE => SectionRank(p, b, CERTIFICATES, 1 + sub)
    case MINT_SUBMACHINE => SectionRank(p, b, MINT, 1 + sub)
    case COLLATERAL_OUTPUT_SUBMACHINE => SectionRank(p, b, COLLATERAL_OUTPUT, 1 + sub)
    case CONFIRM => TWO_16
    case WITNESSES => sub
    case NONE => 0
  }

  lemma ExpectedBound(p: Params, k: nat)
    ensures Expected(p, k) < TWO_16
  {
  }

  /** An element completed in section k, whatever section comes next, is progress. */
  lemma RankAfter(p: Params, b: Body, c: Body, k: nat, sub: nat)
    requires k < END && Size(b, k) < Expected(p, k) && Size(c, k) == Size(b, k) + 1
    ensures StageRank(p, c, After(p, c, k), sub) < SectionRank(p, b, k, 1)
  {
    hide Size, Expected;
    var n := Next(p, k);
    ExpectedBound(p, k);
    if n < END {
      ExpectedBound(p, n);
    }
  }

  lemma RankInit(p: Params, b: Body, sub: nat)
    ensures StageRank(p, b, AT(INPUTS), sub) < 18 * SECTION
  {
    hide Size, Expected;
    ExpectedBound(p, INPUTS);
  }

  lemma RankSub(p: Params, b: Body, k: nat, sub: nat)
    requires k < END && sub < SLOT / 2
    ensures SectionRank(p, b, k, sub) < StageRank(p, b, AT(k), 0)
  {
    hide Size, Expected;
  }

  /** What is left for the sub-machine at work or for the witnesses. */
  function SubLeft(s: State): nat {
    match s.part
    case RegistrationPart(t, _) => V.Left(t)
    case OutputPart(t, _) => O.Left(t)
    case PoolPart(t, _) => P.Left(t)
    case MintPart(t, _) => M.Left(t)
    case Idle => if s.stage == WITNESSES && |s.signers| < s.params.numWitnesses
                 then s.params.numWitnesses - |s.signers| else 0
  }

  function Rank(s: State): nat {
    StageRank(s.params, s.body, s.stage, SubLeft(s))
  }

  /** Whatever section comes next, an element received in section k is progress. */
  lemma GrownRank(s: State, k: nat, c: Body)
    requires AtWork(s, k) && GrownBy(s.body, c, k)
    ensures Rank(Grown(s, k, c)) < SectionRank(s.params, s.body, k, 1)
  {
    hide Size, Expected, SameExcept, Progressed;
    RankAfter(s.params, s.body, c, k, SubLeft(Grown(s, k, c)));
  }

  lemma PartRank(keyHashOf: Bip44.Path -> KeyHash, s: State, k: nat)
    requires Invariant(keyHashOf, s) && AtWork(s, k) && !s.part.Idle? && !s.part.RegistrationPart?
    ensures SectionRank(s.params, s.body, k, 1) <= Rank(s)
  {
    hide Size, Expected, WellFormed, O.Run, M.Run, P.Run, V.Run, O.Invariant, M.Invariant, AuxData.WellFormed,
         Progressed;
    OneSection(keyHashOf, s, k);
  }

  /** A state works in one section only. */
  lemma OneSection(keyHashOf: Bip44.Path -> KeyHash, s: State, k: nat)
    requires Invariant(keyHashOf, s) && AtWork(s, k) && !s.part.Idle? && !s.part.RegistrationPart?
    ensures match s.stage
            case OUTPUTS_SUBMACHINE => k == OUTPUTS
            case CERTIFICATES_POOL_SUBMACHINE => k == CERTIFICATES
            case MINT_SUBMACHINE => k == MINT
            case COLLATERAL_OUTPUT_SUBMACHINE => k == COLLATERAL_OUTPUT
            case _ => false
  {
    hide Size, Expected, WellFormed, O.Run, M.Run, P.Run, V.Run, O.Invariant, M.Invariant, AuxData.WellFormed;
  }

  lemma PollRank(keyHashOf: Bip44.Path -> KeyHash, s: State)
    requires Invariant(keyHashOf, s)
    ensures Rank(Poll(s)) <= Rank(s)
  {
    hide Invariant, AtWork, GrownBy, Poll, SectionRank;
    if PartFinished(s.part) {
      if s.part.RegistrationPart? {
        RegistrationPolled(keyHashOf, s);
        RankInit(Poll(s).params, Poll(s).body, SubLeft(Poll(s)));
      } else {
        var k := PollGrows(keyHashOf, s);
        GrownRank(s, k, Poll(s).body);
        PartRank(keyHashOf, s, k);
      }
    } else {
      NothingToPoll(s);
    }
  }

  lemma ElementRank(keyHashOf: Bip44.Path -> KeyHash, s: State, e: Element, allowed: bool)
    requires Invariant(keyHashOf, s) && HandledElement(s, e, allowed).Some?
    ensures Rank(HandledElement(s, e, allowed).value) < Rank(s)
  {
    hide WellFormed, ElementAccepted, Extended, Progressed, Size, Expected, GrownBy, AuxData.WellFormed, SameExcept;
    ElementGrows(s.params, s.body, e);
    GrownRank(s, SectionOf(e), Extended(s.body, e));
  }

  lemma PartDecreases(keyHashOf: Bip44.Path -> KeyHash, s: State, r: TxRequest)
    requires Invariant(keyHashOf, s) && HandledPart(keyHashOf, s, r).Some?
    ensures Rank(HandledPart(keyHashOf, s, r).value) < Rank(s)
  {
    hide WellFormed, Size, Expected, AuxData.WellFormed, O.Step, M.Step, P.Step, V.Step, O.Run, M.Run, P.Run, V.Run,
         O.Invariant, M.Invariant, O.Left, M.Left, P.Left, V.Left, Progressed;
    FreshParts(keyHashOf, s.params.Setting(), false);
    FreshParts(keyHashOf, s.params.Setting(), true);
    match r {
      case OfRegistration(e) => V.StepDecreases(s.part.registration, e);
      case OfOutput(e) => O.StepDecreases(false, if s.stage == AT(OUTPUTS) then O.START else s.part.output, e);
      case OfPool(e) => P.StepExtends(P.Env(s.params.Setting(), keyHashOf), s.part.pool, e);
      case OfMint(e) => M.StepDecreases(if s.stage == AT(MINT) then M.START else s.part.mint, e);
      case OfCollateralOutput(e) =>
        O.StepDecreases(true, if s.stage == AT(COLLATERAL_OUTPUT) then O.START else s.part.output, e);
      case _ => assert false;
    }
  }

  lemma ControlDecreases(keyHashOf: Bip44.Path -> KeyHash, s: State, r: TxRequest, allowed: bool)
    requires Invariant(keyHashOf, s) && HandledControl(s, r, allowed).Some?
    ensures Rank(HandledControl(s, r, allowed).value) < Rank(s)
  {
    hide WellFormed, Progressed, Size, Expected, InitAccepted, Stored, WitnessAllowed, AuxData.WellFormed,
         OutputInvariant, MintInvariant, PoolInvariant, RegistrationInvariant, SectionRank, V.Left, P.Left;
    var t := HandledControl(s, r, allowed).value;
    RankInit(t.params, t.body, SubLeft(t));
    if r.PoolCertificateRequest? {
      RankSub(s.params, s.body, CERTIFICATES, 1 + P.Left(P.START));
    }
  }

  /** With every accepted request the rank decreases, so every run is finite. */
  lemma StepDecreases(keyHashOf: Bip44.Path -> KeyHash, s: State, r: TxRequest, allowed: bool)
    requires Invariant(keyHashOf, s) && Step(keyHashOf, s, r, allowed).Some?
    ensures Rank(Step(keyHashOf, s, r, allowed).value) < Rank(s)
  {
    hide Invariant, Poll, HandledElement, HandledPart, HandledControl, Rank;
    PollKept(keyHashOf, s);
    PollRank(keyHashOf, s);
    var t := Poll(s);
    match r {
      case ElementRequest(e) => ElementRank(keyHashOf, t, e, allowed);
      case OfRegistration(_) => PartDecreases(keyHashOf, t, r);
      case OfOutput(_) => PartDecreases(keyHashOf, t, r);
      case OfPool(_) => PartDecreases(keyHashOf, t, r);
      case OfMint(_) => PartDecreases(keyHashOf, t, r);
      case OfCollateralOutput(_) => PartDecreases(keyHashOf, t, r);
      case _ => ControlDecreases(keyHashOf, t, r, allowed);
    }
  }

  /** No run is longer than the rank of the state it starts in. */
  lemma {:induction false} RunBounded(keyHashOf: Bip44.Path -> KeyHash, s: State, rs: seq<TxRequest>)
    requires Invariant(keyHashOf, s) && Run(keyHashOf, s, rs).Some?
    ensures |rs| + Rank(Run(keyHashOf, s, rs).value) <= Rank(s)
    decreases |rs|
  {
    hide Invariant, Step, Run, Rank;
    RunNext(keyHashOf, s, rs);
    if rs != [] {
      StepKept(keyHashOf, s, rs[0], true);
      StepDecreases(keyHashOf, s, rs[0], true);
      RunBounded(keyHashOf, Step(keyHashOf, s, rs[0], true).value, rs[1..]);
    }
  }
}
