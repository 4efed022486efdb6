/** The main machine of transaction signing: stages, counters, the union of contexts selected by the stage, and
    the sub-machines that are polled when the next request arrives. */
module SignTx {
  import opened Basics
  import Bip44
  import AuxData
  import Cbor
  import V = VoteRegistration
  import TokenBundle
  import M = TxMint
  import O = TxOutput
  import P = TxPool
  import opened TxBody
  import B = TxHashBuilder
  import TxItems
  import TxBytes
  import TxContent
  import TxReader
  import TxUnique
  import opened TxMachine
  import TxRun

  /** ins_sign_tx_body_context_t */
  datatype BodyCtx = BodyCtx(
    currentInput: uint16, currentOutput: uint16, currentCertificate: uint16, currentWithdrawal: uint16,
    currentCollateral: uint16, currentRequiredSigner: uint16, currentReferenceInput: uint16,
    currentVotingProcedure: uint16, feeReceived: bool, ttlReceived: bool, validityIntervalStartReceived: bool,
    mintReceived: bool, scriptDataHashReceived: bool, collateralOutputReceived: bool, totalCollateralReceived: bool,
    treasuryReceived: bool, donationReceived: bool, previousRewardAccount: seq<byte>)

  const FRESH_CTX :=
    BodyCtx(0, 0, 0, 0, 0, 0, 0, 0, false, false, false, false, false, false, false, false, false, [])

  /** The union txPartCtx: the variant that was initialised last. */
  datatype TxPart =
    | Unset
    | AuxDataPart(auxDataReceived: bool)
    | BodyPart(body: BodyCtx)
    | WitnessPart(currentWitness: uint16)

  datatype Witness = Witness(path: Bip44.Path, signature: seq<byte>)

  predicate Agrees(c: BodyCtx, b: Body) {
    && c.currentInput == |b.inputs| && c.currentOutput == |b.outputs| && c.feeReceived == b.fee.Some?
    && c.ttlReceived == b.ttl.Some? && c.currentCertificate == |b.certificates|
    && c.currentWithdrawal == |b.withdrawals|
    && c.validityIntervalStartReceived == b.validityIntervalStart.Some? && c.mintReceived == b.mint.Some?
    && c.scriptDataHashReceived == b.scriptDataHash.Some? && c.currentCollateral == |b.collateralInputs|
    && c.currentRequiredSigner == |b.requiredSigners|
    && c.collateralOutputReceived == b.collateralOutput.Some?
    && c.totalCollateralReceived == b.totalCollateral.Some? && c.currentReferenceInput == |b.referenceInputs|
    && c.currentVotingProcedure == |b.votingProcedures| && c.treasuryReceived == b.treasury.Some?
    && c.donationReceived == b.donation.Some?
    && (b.withdrawals != [] ==> c.previousRewardAccount == b.withdrawals[|b.withdrawals| - 1].account)
  }

  /** policyForSignTxInit, branch by branch; the warnings are left out. */
  method PolicyForSignTxInit(p: Params) returns (permitted: bool)
    ensures permitted <==> InitPolicy(p)
    ensures permitted <==>
      && p.networkId <= 15 && (p.networkId == 1 ==> p.protocolMagic == 764824073)
      && (p.txSigningMode in {P.ORDINARY_TX, P.MULTISIG_TX} ==>
            && p.numCollateralInputs == 0 && !p.includeCollateralOutput && !p.includeTotalCollateral
            && p.numReferenceInputs == 0)
      && (p.txSigningMode in {P.POOL_REGISTRATION_OWNER, P.POOL_REGISTRATION_OPERATOR} ==>
            && p.numCertificates == 1 && p.numWithdrawals == 0 && !p.includeMint && !p.includeScriptDataHash
            && p.numCollateralInputs == 0 && p.numRequiredSigners == 0 && !p.includeCollateralOutput
            && !p.includeTotalCollateral && p.numReferenceInputs == 0 && p.numVotingProcedures == 0
            && !p.includeTreasury && !p.includeDonation)
  {
    if p.networkId > MAXIMUM_NETWORK_ID { return false; }
    if p.networkId == MAINNET_NETWORK_ID && p.protocolMagic != MAINNET_PROTOCOL_MAGIC { return false; }
    match p.txSigningMode {
      case PLUTUS_TX =>
      case ORDINARY_TX =>
        if p.numCollateralInputs > 0 || p.includeCollateralOutput { return false; }
        if p.includeTotalCollateral || p.numReferenceInputs > 0 { return false; }
      case MULTISIG_TX =>
        if p.numCollateralInputs > 0 || p.includeCollateralOutput { return false; }
        if p.includeTotalCollateral || p.numReferenceInputs > 0 { return false; }
      case _ =>
        if p.numCertificates != 1 || p.numWithdrawals != 0 || p.includeMint { return false; }
        if p.includeScriptDataHash || p.numCollateralInputs > 0 || p.numRequiredSigners > 0 { return false; }
        if p.includeCollateralOutput || p.includeTotalCollateral || p.numReferenceInputs > 0 { return false; }
        if p.numVotingProcedures > 0 || p.includeTreasury || p.includeDonation { return false; }
    }
    return true;
  }

  /** _parseTxOptions: only the one known flag is accepted. */
  method ParseTxOptions(options: uint64) returns (ok: bool, tagCborSets: bool)
    ensures ok <==> options < 2
    ensures tagCborSets <==> options % 2 == TX_OPTIONS_TAG_CBOR_SETS
  {
    tagCborSets := options % 2 == TX_OPTIONS_TAG_CBOR_SETS;
    ok := options - options % 2 == 0;
  }

  /** constructInputLabel: the text is cut to the buffer, and the assertion takes it for cut if it fills the buffer. */
  method ConstructInputLabel(prefix: string, index: uint16) returns (ok: bool, text: string)
    ensures ok <==> LabelFits(prefix, index)
    ensures ok ==> text == InputLabel(prefix, index)
  {
    text := InputLabel(prefix, index);
    if |text| >= UI_INPUT_LABEL_SIZE { text := text[..UI_INPUT_LABEL_SIZE - 1]; }
    ok := |text| + 1 < UI_INPUT_LABEL_SIZE;
  }

  /** The checks of the init request. The network id is checked once more by the policy. */
  method CheckInit(d: InitData) returns (ok: bool)
    ensures ok <==> InitAccepted(d)
  {
    hide InitPolicy, Stored;
    var known, tagCborSets := ParseTxOptions(d.txOptions);
    if !known { return false; }
    var p := Stored(d);
    if p.numVotingProcedures > SIGN_MAX_VOTING_PROCEDURES || p.numInputs == 0 { return false; }
    ok := PolicyForSignTxInit(p);
  }

  lemma FirstSection(f: Frame, log: seq<Call>)
    requires log == [InitBuilder(f.params)] + [EnterInputs(f.params.numInputs)]
    ensures Stands(f, FRESH_CTX, EMPTY, log, INPUTS)
  {
    assert SectionItems(f, EMPTY, INPUTS) == [];
  }

  /** The counters and the log are those of the body received so far, which has reached section k. */
  predicate Stands(f: Frame, c: BodyCtx, b: Body, log: seq<Call>, k: nat) {
    Agrees(c, b) && Progressed(f.params, b, k) && log == LogUpTo(f, b, k)
  }

  /** Moving on from a complete section opens the next one, which is still empty. */
  lemma Entered(f: Frame, b: Body, k: nat)
    requires Progressed(f.params, b, k) && Size(b, k) == Expected(f.params, k) && k < END
    ensures Progressed(f.params, b, k + 1)
    ensures k + 1 < END ==> Size(b, k + 1) == 0
    ensures LogUpTo(f, b, k + 1) == LogUpTo(f, b, k) + SectionStart(f, k + 1)
  {
    hide SectionStart, LogUpTo, Size, Expected;
    SizeAtEnd(b);
    LogNext(f, b, k + 1 - 1);
  }

  lemma SizeAtEnd(b: Body)
    ensures Size(b, END) == 0
  {
  }

  /** The owner path is that of the one owner given by path in the one certificate, and in owner mode it is the
      only path that has signed. */
  predicate PoolLinked(p: Params, certificates: seq<Certificate>, inPool: bool, ownerPath: Option<Bip44.Path>,
                       witnesses: seq<Witness>)
  {
    && (!P.IsPoolMode(p.txSigningMode) ==> ownerPath.None?)
    && (P.IsPoolMode(p.txSigningMode) ==> p.numCertificates == 1)
    && (certificates == [] && !inPool ==> ownerPath.None?)
    && (certificates != [] && certificates[0].Pool? ==>
        ownerPath == P.PathOwner(None, certificates[0].certificate.owners))
    && (p.txSigningMode == P.POOL_REGISTRATION_OWNER ==>
        forall i :: 0 <= i < |witnesses| ==> ownerPath == Some(witnesses[i].path))
  }

  /** The hash of the auxiliary data is the one that was given, or that of the finished registration. */
  predicate AuxDataLinked(auxDataHash: Hash32, given: Option<Hash32>, registered: bool, registrationHash: Hash32) {
    match given
    case Some(h) => auxDataHash == h
    case None => registered && auxDataHash == registrationHash
  }

  function Counted(c: BodyCtx): BodyCtx {
    if c.currentCertificate + 1 < TWO_16 then c.(currentCertificate := c.currentCertificate + 1) else c
  }

  lemma CertificateLogged(f: Frame, b: Body, x: Certificate)
    requires Progressed(f.params, b, CERTIFICATES)
    ensures var b1 := b.(certificates := b.certificates + [x]);
      && Progressed(f.params, b1, CERTIFICATES)
      && LogUpTo(f, b1, CERTIFICATES) == LogUpTo(f, b, CERTIFICATES) + CertificateWord(f.Env(), x)
  {
    hide Progressed, LogUpTo, CertificatesWord, CertificateWord;
    CertificatesSnoc(f.Env(), b.certificates, x);
    Added(f, b, b.(certificates := b.certificates + [x]), CERTIFICATES, CertificateWord(f.Env(), x));
  }

  lemma CertificateReceived(f: Frame, c: BodyCtx, b: Body, log: seq<Call>, x: Certificate)
    requires Stands(f, c, b, log, CERTIFICATES) && Size(b, CERTIFICATES) < Expected(f.params, CERTIFICATES)
    ensures c.currentCertificate < f.params.numCertificates
    ensures var b1 := b.(certificates := b.certificates + [x]);
      && Stands(f, Counted(c), b1, log + CertificateWord(f.Env(), x), CERTIFICATES)
      && Size(b1, CERTIFICATES) <= Expected(f.params, CERTIFICATES)
      && (Size(b1, CERTIFICATES) == Expected(f.params, CERTIFICATES)
          <==> c.currentCertificate + 1 == f.params.numCertificates)
  {
    hide Progressed, LogUpTo, CertificateWord;
    CertificateLogged(f, b, x);
  }

  lemma PlainCertificateLinked(p: Params, certificates: seq<Certificate>, c: PlainCertificate,
    ownerPath: Option<Bip44.Path>)
    requires PoolLinked(p, certificates, false, ownerPath, []) && !P.IsPoolMode(p.txSigningMode)
    ensures PoolLinked(p, certificates + [Plain(c)], false, ownerPath, [])
  {
  }

  lemma OnlyCertificate(f: Frame, c: BodyCtx, b: Body, log: seq<Call>)
    requires Stands(f, c, b, log, CERTIFICATES) && Size(b, CERTIFICATES) < Expected(f.params, CERTIFICATES)
    requires f.params.numCertificates == 1
    ensures b.certificates == []
  {
    hide Progressed, LogUpTo;
  }

  lemma NoOwnerYet(p: Params, certificates: seq<Certificate>, ownerPath: Option<Bip44.Path>, witnesses: seq<Witness>)
    requires PoolLinked(p, certificates, false, ownerPath, witnesses) && certificates == []
    ensures ownerPath.None? && PoolLinked(p, certificates, true, ownerPath, witnesses)
  {
  }

  lemma PoolStarts(p: Params)
    requires P.IsPoolMode(p.txSigningMode) ==> p.numCertificates == 1
    ensures PoolLinked(p, [], false, None, [])
  {
  }

  lemma OneCertificate(p: Params, certificates: seq<Certificate>, inPool: bool, ownerPath: Option<Bip44.Path>,
                       witnesses: seq<Witness>)
    requires PoolLinked(p, certificates, inPool, ownerPath, witnesses) && P.IsPoolMode(p.txSigningMode)
    ensures p.numCertificates == 1
  {
  }

  /** An element of section k is being received, and `word` is what it has added to the log so far. */
  predicate Receives(f: Frame, c: BodyCtx, b: Body, log: seq<Call>, k: nat, word: seq<Call>) {
    && Agrees(c, b) && Progressed(f.params, b, k) && Size(b, k) < Expected(f.params, k)
    && log == LogUpTo(f, b, k) + word
  }

  lemma SubLog<A>(f: Frame, c: BodyCtx, b: Body, log: seq<Call>, k: nat, word: A -> seq<Call>, calls: seq<A>, n: nat)
    requires n <= |calls| && Receives(f, c, b, log, k, Flat(word, calls[..n]))
    ensures Receives(f, c, b, log + Flat(word, calls[n..]), k, Flat(word, calls))
  {
    hide Flat, LogUpTo, Progressed, Agrees, Size, Expected;
    FlatAppend(word, calls[..n], calls[n..]);
    assert calls[..n] + calls[n..] == calls;
    Glue(log + Flat(word, calls[n..]), LogUpTo(f, b, k), Flat(word, calls[..n]), Flat(word, calls[n..]));
  }

  lemma SubStarts<A>(f: Frame, c: BodyCtx, b: Body, log: seq<Call>, k: nat, word: A -> seq<Call>)
    requires Stands(f, c, b, log, k) && Size(b, k) < Expected(f.params, k)
    ensures Receives(f, c, b, log, k, Flat(word, []))
  {
    hide LogUpTo, Progressed, Agrees, Size, Expected;
    assert Flat(word, []) == [];
  }

  /** Comparing with the account kept from the previous request is comparing with the last withdrawal. */
  lemma OrderChecked(f: Frame, c: BodyCtx, b: Body, log: seq<Call>, account: Account)
    requires Stands(f, c, b, log, WITHDRAWALS)
    ensures InOrder(b.withdrawals, account)
            <==> c.currentWithdrawal == 0 || TokenBundle.KeyLess(c.previousRewardAccount, account)
  {
    hide Progressed, LogUpTo, TokenBundle.KeyLess;
  }

  lemma OwnerInPool(p: Params, before: Option<Bip44.Path>, after: Option<Bip44.Path>)
    requires PoolLinked(p, [], true, before, []) && P.IsPoolMode(p.txSigningMode)
    ensures PoolLinked(p, [], true, after, [])
  {
  }

  lemma NothingMinted(mint: M.MintContext)
    requires mint.Valid() && mint.events == []
    ensures mint.log == [] && mint.Current() == M.START
  {
  }

  lemma WholeBody(f: Frame, c: BodyCtx, b: Body, log: seq<Call>)
    requires Stands(f, c, b, log, END)
    ensures log == BodyWord(f, b) && Progressed(f.params, b, END) && Matches(f.params, b)
  {
    hide LogUpTo, Agrees;
    CompleteBody(f, b);
  }

  /** policyForSignTxWitness with the policies of the pool modes. */
  method PolicyForSignTxWitness(mode: SigningMode, path: Bip44.Path, ownerPath: Option<Bip44.Path>, allowed: bool)
      returns (permitted: bool)
    ensures permitted <==> WitnessAllowed(mode, path, ownerPath, allowed)
  {
    hide Bip44.ClassifyPath;
    match mode {
      case POOL_REGISTRATION_OWNER =>
        match Bip44.ClassifyPath(path) {
          case PathOrdinaryStakingKey =>
            if ownerPath.None? { return false; }
            permitted := path == ownerPath.value;
          case _ => permitted := false;
        }
      case POOL_REGISTRATION_OPERATOR =>
        match Bip44.ClassifyPath(path) {
          case PathOrdinaryPaymentKey => permitted := true;
          case PathPoolColdKey => permitted := true;
          case _ => permitted := false;
        }
      case _ => permitted := allowed;
    }
  }

  /** Every signature is over this hash. */
  predicate AllSign(sign: (Bip44.Path, Hash32) -> seq<byte>, witnesses: seq<Witness>, txHash: Hash32) {
    forall i :: 0 <= i < |witnesses| ==> witnesses[i].signature == sign(witnesses[i].path, txHash)
  }

  lemma AllSignMore(sign: (Bip44.Path, Hash32) -> seq<byte>, witnesses: seq<Witness>, txHash: Hash32, path: Bip44.Path)
    requires AllSign(sign, witnesses, txHash)
    ensures AllSign(sign, witnesses + [Witness(path, sign(path, txHash))], txHash)
  {
  }

  lemma WitnessLinked(p: Params, certificates: seq<Certificate>, ownerPath: Option<Bip44.Path>,
                      witnesses: seq<Witness>, path: Bip44.Path, signature: seq<byte>, allowed: bool)
    requires PoolLinked(p, certificates, false, ownerPath, witnesses)
    requires WitnessAllowed(p.txSigningMode, path, ownerPath, allowed)
    ensures PoolLinked(p, certificates, false, ownerPath, witnesses + [Witness(path, signature)])
  {
    hide Bip44.ClassifyPath;
  }

  lemma FirstSigner(p: Params, certificates: seq<Certificate>, ownerPath: Option<Bip44.Path>, witnesses: seq<Witness>)
    requires PoolLinked(p, certificates, false, ownerPath, witnesses) && p.txSigningMode == P.POOL_REGISTRATION_OWNER
    ensures |witnesses| > 0 ==> ownerPath == Some(witnesses[0].path)
  {
  }

  lemma OutputLogged(f: Frame, b: Body, o: O.Output)
    requires Progressed(f.params, b, OUTPUTS) && O.WellFormed(false, o)
    ensures var b1 := b.(outputs := b.outputs + [o]);
            Progressed(f.params, b1, OUTPUTS)
            && LogUpTo(f, b1, OUTPUTS) == LogUpTo(f, b, OUTPUTS) + Flat(OutputCallWord, O.OutputCalls(o))
  {
    hide Progressed, LogUpTo, Flat, O.WellFormed, O.OutputCalls;
    FlatSnoc(OutputWord, b.outputs, o);
    Added(f, b, b.(outputs := b.outputs + [o]), OUTPUTS, Flat(OutputCallWord, O.OutputCalls(o)));
  }

  lemma OutputReceived(f: Frame, c: BodyCtx, b: Body, log: seq<Call>, o: O.Output)
    requires O.WellFormed(false, o) && Receives(f, c, b, log, OUTPUTS, Flat(OutputCallWord, O.OutputCalls(o)))
    ensures c.currentOutput < f.params.numOutputs
    ensures var c1, b1 := c.(currentOutput := c.currentOutput + 1), b.(outputs := b.outputs + [o]);
      && Stands(f, c1, b1, log, OUTPUTS) && Size(b1, OUTPUTS) <= Expected(f.params, OUTPUTS)
      && (Size(b1, OUTPUTS) == Expected(f.params, OUTPUTS) <==> c1.currentOutput == f.params.numOutputs)
  {
    hide Progressed, LogUpTo, Flat, O.WellFormed, O.OutputCalls;
    OutputLogged(f, b, o);
  }

  lemma MintLogged(f: Frame, b: Body, groups: seq<TokenBundle.Group>)
    requires b.mint.None? && Progressed(f.params, b, MINT) && M.WellFormed(groups)
    ensures var b1 := b.(mint := Some(groups));
            Progressed(f.params, b1, MINT)
            && LogUpTo(f, b1, MINT) == LogUpTo(f, b, MINT) + Flat(MintCallWord, M.MintCalls(groups))
  {
    hide Progressed, LogUpTo, Flat, M.WellFormed, M.MintCalls;
    Added(f, b, b.(mint := Some(groups)), MINT, Flat(MintCallWord, M.MintCalls(groups)));
  }

  lemma MintReceived(f: Frame, c: BodyCtx, b: Body, log: seq<Call>, groups: seq<TokenBundle.Group>)
    requires M.WellFormed(groups) && Receives(f, c, b, log, MINT, Flat(MintCallWord, M.MintCalls(groups)))
    ensures var b1 := b.(mint := Some(groups));
            Stands(f, c.(mintReceived := true), b1, log, MINT) && Size(b1, MINT) == Expected(f.params, MINT)
  {
    hide Progressed, LogUpTo, Flat, M.WellFormed, M.MintCalls;
    MintLogged(f, b, groups);
  }

  lemma CollateralOutputLogged(f: Frame, b: Body, o: O.Output)
    requires b.collateralOutput.None? && Progressed(f.params, b, COLLATERAL_OUTPUT) && O.WellFormed(false, o)
    ensures var b1 := b.(collateralOutput := Some(o));
            Progressed(f.params, b1, COLLATERAL_OUTPUT)
            && LogUpTo(f, b1, COLLATERAL_OUTPUT)
               == LogUpTo(f, b, COLLATERAL_OUTPUT) + Flat(CollateralCallWord, O.OutputCalls(o))
  {
    hide Progressed, LogUpTo, Flat, O.WellFormed, O.OutputCalls;
    Added(f, b, b.(collateralOutput := Some(o)), COLLATERAL_OUTPUT, Flat(CollateralCallWord, O.OutputCalls(o)));
  }

  lemma CollateralOutputReceived(f: Frame, c: BodyCtx, b: Body, log: seq<Call>, o: O.Output)
    requires O.WellFormed(false, o)
    requires Receives(f, c, b, log, COLLATERAL_OUTPUT, Flat(CollateralCallWord, O.OutputCalls(o)))
    ensures var b1 := b.(collateralOutput := Some(o));
      && Stands(f, c.(collateralOutputReceived := true), b1, log, COLLATERAL_OUTPUT)
      && Size(b1, COLLATERAL_OUTPUT) == Expected(f.params, COLLATERAL_OUTPUT)
  {
    hide Progressed, LogUpTo, Flat, O.WellFormed, O.OutputCalls;
    CollateralOutputLogged(f, b, o);
  }

  lemma PoolReceived(f: Frame, c: BodyCtx, b: Body, log: seq<Call>, x: P.Certificate)
    requires P.WellFormed(f.params.Setting(), x)
    requires Receives(f, c, b, log, CERTIFICATES, Flat(PoolCallWord, P.CertificateCalls(f.Env(), x)))
    ensures c.currentCertificate < f.params.numCertificates
    ensures var b1 := b.(certificates := b.certificates + [Pool(x)]);
      && Stands(f, Counted(c), b1, log, CERTIFICATES)
      && Size(b1, CERTIFICATES) <= Expected(f.params, CERTIFICATES)
      && (Size(b1, CERTIFICATES) == Expected(f.params, CERTIFICATES)
          <==> c.currentCertificate + 1 == f.params.numCertificates)
  {
    hide Progressed, LogUpTo, Flat, P.CertificateCalls;
    CertificateLogged(f, b, Pool(x));
  }

  lemma PoolCertificateLinked(p: Params, x: P.Certificate, ownerPath: Option<Bip44.Path>)
    requires PoolLinked(p, [], true, ownerPath, []) && ownerPath == P.PathOwner(None, x.owners)
    ensures PoolLinked(p, [Pool(x)], false, ownerPath, [])
  {
  }

  // ------------------------------------------------------------ elements that come in one request

  /** The call that an element stands for. */
  function ElementCall(e: Element): Call {
    match e
    case InputElement(i) => AddInput(i)
    case FeeElement(n) => AddFee(n)
    case TtlElement(n) => AddTtl(n)
    case CertificateElement(c) => AddCertificate(c)
    case WithdrawalElement(w) => AddWithdrawal(w.account, w.amount)
    case ValidityIntervalStartElement(n) => AddValidityIntervalStart(n)
    case ScriptDataHashElement(h) => AddScriptDataHash(h)
    case CollateralInputElement(i) => AddCollateralInput(i)
    case RequiredSignerElement(h) => AddRequiredSigner(h)
    case TotalCollateralElement(n) => AddTotalCollateral(n)
    case ReferenceInputElement(i) => AddReferenceInput(i)
    case VotingProcedureElement(v) => AddVotingProcedure(v)
    case TreasuryElement(n) => AddTreasury(n)
    case DonationElement(n) => AddDonation(n)
  }

  function Successor(n: uint16): uint16 {
    Narrow16(n + 1)
  }

  /** The RESPOND step of an element: its counter moves on, or its flag is set. */
  function CountedElement(c: BodyCtx, e: Element): BodyCtx {
    match e
    case InputElement(_) => c.(currentInput := Successor(c.currentInput))
    case FeeElement(_) => c.(feeReceived := true)
    case TtlElement(_) => c.(ttlReceived := true)
    case CertificateElement(_) => Counted(c)
    case WithdrawalElement(w) =>
      c.(previousRewardAccount := w.account, currentWithdrawal := Successor(c.currentWithdrawal))
    case ValidityIntervalStartElement(_) => c.(validityIntervalStartReceived := true)
    case ScriptDataHashElement(_) => c.(scriptDataHashReceived := true)
    case CollateralInputElement(_) => c.(currentCollateral := Successor(c.currentCollateral))
    case RequiredSignerElement(_) => c.(currentRequiredSigner := Successor(c.currentRequiredSigner))
    case TotalCollateralElement(_) => c.(totalCollateralReceived := true)
    case ReferenceInputElement(_) => c.(currentReferenceInput := Successor(c.currentReferenceInput))
    case VotingProcedureElement(_) => c.(currentVotingProcedure := Successor(c.currentVotingProcedure))
    case TreasuryElement(_) => c.(treasuryReceived := true)
    case DonationElement(_) => c.(donationReceived := true)
  }

  /** The comparison after which the stage advances: the last element of a list, or an optional element. */
  predicate IsLast(p: Params, c: BodyCtx, e: Element) {
    match e
    case InputElement(_) => c.currentInput == p.numInputs
    case CertificateElement(_) => c.currentCertificate == p.numCertificates
    case WithdrawalElement(_) => c.currentWithdrawal == p.numWithdrawals
    case CollateralInputElement(_) => c.currentCollateral == p.numCollateralInputs
    case RequiredSignerElement(_) => c.currentRequiredSigner == p.numRequiredSigners
    case ReferenceInputElement(_) => c.currentReferenceInput == p.numReferenceInputs
    case VotingProcedureElement(_) => c.currentVotingProcedure == p.numVotingProcedures
    case _ => true
  }

  predicate IsOptional(e: Element) {
    match e
    case FeeElement(_) => true
    case TtlElement(_) => true
    case ValidityIntervalStartElement(_) => true
    case ScriptDataHashElement(_) => true
    case TotalCollateralElement(_) => true
    case TreasuryElement(_) => true
    case DonationElement(_) => true
    case _ => false
  }

  lemma OptionAdded(f: Frame, b: Body, e: Element)
    requires IsOptional(e) && Size(b, SectionOf(e)) < Expected(f.params, SectionOf(e))
    ensures SectionItems(f, Extended(b, e), SectionOf(e)) == SectionItems(f, b, SectionOf(e)) + [ElementCall(e)]
  {
  }

  lemma ListAdded(f: Frame, b: Body, e: Element)
    requires !IsOptional(e)
    ensures SectionItems(f, Extended(b, e), SectionOf(e)) == SectionItems(f, b, SectionOf(e)) + [ElementCall(e)]
  {
    hide Flat, CertificatesWord;
    match e {
      case InputElement(i) => FlatSnoc(InputWord, b.inputs, i);
      case CertificateElement(x) => CertificatesSnoc(f.Env(), b.certificates, Plain(x));
      case WithdrawalElement(w) => FlatSnoc(WithdrawalWord, b.withdrawals, w);
      case CollateralInputElement(i) => FlatSnoc(CollateralInputWord, b.collateralInputs, i);
      case RequiredSignerElement(h) => FlatSnoc(SignerWord, b.requiredSigners, h);
      case ReferenceInputElement(i) => FlatSnoc(ReferenceInputWord, b.referenceInputs, i);
      case VotingProcedureElement(v) => FlatSnoc(VotingWord, b.votingProcedures, v);
    }
  }

  lemma OptionCounted(p: Params, c: BodyCtx, b: Body, e: Element)
    requires IsOptional(e) && Agrees(c, b) && Size(b, SectionOf(e)) < Expected(p, SectionOf(e))
    ensures Agrees(CountedElement(c, e), Extended(b, e))
    ensures IsLast(p, CountedElement(c, e), e) && Size(Extended(b, e), SectionOf(e)) == Expected(p, SectionOf(e))
  {
  }

  lemma ListCounted(p: Params, c: BodyCtx, b: Body, e: Element)
    requires !IsOptional(e) && Agrees(c, b) && Size(b, SectionOf(e)) < Expected(p, SectionOf(e))
    ensures Agrees(CountedElement(c, e), Extended(b, e))
    ensures Size(Extended(b, e), SectionOf(e)) <= Expected(p, SectionOf(e))
    ensures IsLast(p, CountedElement(c, e), e) <==> Size(Extended(b, e), SectionOf(e)) == Expected(p, SectionOf(e))
  {
    hide Agrees, CountedElement, Extended, IsLast, Size, Expected;
    if e.InputElement? || e.CertificateElement? || e.WithdrawalElement? {
      FirstListsCounted(p, c, b, e);
    } else {
      LastListsCounted(p, c, b, e);
    }
  }

  lemma FirstListsCounted(p: Params, c: BodyCtx, b: Body, e: Element)
    requires e.InputElement? || e.CertificateElement? || e.WithdrawalElement?
    requires Agrees(c, b) && Size(b, SectionOf(e)) < Expected(p, SectionOf(e))
    ensures Agrees(CountedElement(c, e), Extended(b, e))
    ensures Size(Extended(b, e), SectionOf(e)) <= Expected(p, SectionOf(e))
    ensures IsLast(p, CountedElement(c, e), e) <==> Size(Extended(b, e), SectionOf(e)) == Expected(p, SectionOf(e))
  {
  }

  lemma LastListsCounted(p: Params, c: BodyCtx, b: Body, e: Element)
    requires e.CollateralInputElement? || e.RequiredSignerElement? || e.ReferenceInputElement?
             || e.VotingProcedureElement?
    requires Agrees(c, b) && Size(b, SectionOf(e)) < Expected(p, SectionOf(e))
    ensures Agrees(CountedElement(c, e), Extended(b, e))
    ensures Size(Extended(b, e), SectionOf(e)) <= Expected(p, SectionOf(e))
    ensures IsLast(p, CountedElement(c, e), e) <==> Size(Extended(b, e), SectionOf(e)) == Expected(p, SectionOf(e))
  {
  }

  /** Receiving an element adds its call to the log, itself to the body, and one to its counter. */
  lemma ElementReceived(f: Frame, c: BodyCtx, b: Body, log: seq<Call>, e: Element)
    requires Stands(f, c, b, log, SectionOf(e)) && Size(b, SectionOf(e)) < Expected(f.params, SectionOf(e))
    ensures Stands(f, CountedElement(c, e), Extended(b, e), log + [ElementCall(e)], SectionOf(e))
    ensures Size(Extended(b, e), SectionOf(e)) <= Expected(f.params, SectionOf(e))
    ensures IsLast(f.params, CountedElement(c, e), e)
            <==> Size(Extended(b, e), SectionOf(e)) == Expected(f.params, SectionOf(e))
  {
    hide Progressed, LogUpTo, Agrees, SectionItems, SameExcept, CountedElement, Extended, ElementCall, IsLast, Size,
         Expected, SectionOf, IsOptional;
    if IsOptional(e) {
      OptionAdded(f, b, e);
      OptionCounted(f.params, c, b, e);
    } else {
      ListAdded(f, b, e);
      ListCounted(f.params, c, b, e);
    }
    ElementGrown(f.params, b, e);
    Added(f, b, Extended(b, e), SectionOf(e), [ElementCall(e)]);
  }

  lemma ElementGrown(p: Params, b: Body, e: Element)
    requires Size(b, SectionOf(e)) < Expected(p, SectionOf(e))
    ensures SameExcept(b, Extended(b, e), SectionOf(e))
  {
    hide GrownBy, Extended, SameExcept;
    ElementGrows(p, b, e);
    GrownElsewhere(b, Extended(b, e), SectionOf(e));
  }

  lemma GrownElsewhere(b: Body, c: Body, k: nat)
    requires GrownBy(b, c, k)
    ensures SameExcept(b, c, k)
  {
  }

  function Signers(ws: seq<Witness>): (paths: seq<Bip44.Path>)
    ensures |paths| == |ws|
  {
    if ws == [] then [] else Signers(ws[..|ws| - 1]) + [ws[|ws| - 1].path]
  }

  lemma {:induction false} SignersAt(ws: seq<Witness>, i: nat)
    requires i < |ws|
    ensures Signers(ws)[i] == ws[i].path
  {
    if i < |ws| - 1 { SignersAt(ws[..|ws| - 1], i); }
  }

  lemma SignersSnoc(ws: seq<Witness>, w: Witness)
    ensures Signers(ws + [w]) == Signers(ws) + [w.path]
  {
    assert (ws + [w])[..|ws|] == ws;
  }

  /** The log of a state: the word of what the body has received, and the calls of the sub-machine at work. */
  ghost function LogOf(f: Frame, s: State): seq<Call> {
    match s.stage
    case INIT => []
    case AUX_DATA => []
    case AUX_DATA_CVOTE_REGISTRATION_SUBMACHINE => []
    case AT(k) => LogUpTo(f, s.body, k)
    case OUTPUTS_SUBMACHINE =>
      LogUpTo(f, s.body, OUTPUTS)
      + Flat(OutputCallWord, if s.part.OutputPart? then O.CallsForAll(s.part.outputEvents) else [])
    case COLLATERAL_OUTPUT_SUBMACHINE =>
      LogUpTo(f, s.body, COLLATERAL_OUTPUT)
      + Flat(CollateralCallWord, if s.part.OutputPart? then O.CallsForAll(s.part.outputEvents) else [])
    case CERTIFICATES_POOL_SUBMACHINE =>
      LogUpTo(f, s.body, CERTIFICATES) + Flat(PoolCallWord, if s.part.PoolPart? then s.part.pool.log else [])
    case MINT_SUBMACHINE =>
      LogUpTo(f, s.body, MINT)
      + Flat(MintCallWord, if s.part.MintPart? then M.CallsForAll(s.part.mintEvents) else [])
    case _ => BodyWord(f, s.body)
  }

  /** The member of the union stageContext that was initialised last. */
  datatype StageContext = NO_CONTEXT | REGISTRATION_CONTEXT | OUTPUT_CONTEXT | POOL_CONTEXT | MINT_CONTEXT

  /** ins_sign_tx_context_t. The log is the sequence of calls made to the transaction hash builder. The members of
      the union stageContext are objects of their own, of which only the one named by stageContext is used. The ghost
      fields are the part of the transaction body received so far, the hash of the auxiliary data if it was given, and
      the accepted requests. */
  class SigningContext {
    var stage: Stage
    var params: Params
    var auxDataHash: Hash32
    var txHash: Hash32
    var txPartCtx: TxPart
    var stageContext: StageContext
    var log: seq<Call>
    var witnesses: seq<Witness>
    const output: O.OutputContext
    const mint: M.MintContext
    const pool: P.PoolContext
    const registration: V.RegistrationContext
    const hashOf: seq<byte> -> Hash32
    const sign: (Bip44.Path, Hash32) -> seq<byte>
    ghost var body: Body
    ghost var givenAuxDataHash: Option<Hash32>
    ghost var requests: seq<TxRequest>

    /** The functions stand for the derivation of keys and their hashes, for hashing and for signing. */
    constructor (keyHashOf: Bip44.Path -> KeyHash, hashOf: seq<byte> -> Hash32,
                 sign: (Bip44.Path, Hash32) -> seq<byte>,
                 pubKeyOf: Bip44.Path -> AuxData.PublicKey, hash: seq<byte> -> AuxData.Hash,
                 signPayload: (Bip44.Path, AuxData.Hash) -> AuxData.Signature)
      ensures Valid() && stage == INIT && requests == []
      ensures pool.keyHashOf == keyHashOf && this.hashOf == hashOf && this.sign == sign
    {
      hide Consistent, Current, Run, WellFormed, V.RegistrationContext.Valid, O.OutputContext.Valid,
           M.MintContext.Valid, P.PoolContext.Valid, B.HashedBytes;
      output := new O.OutputContext();
      mint := new M.MintContext();
      pool := new P.PoolContext(keyHashOf);
      registration := new V.RegistrationContext(pubKeyOf, hash, signPayload);
      this.hashOf, this.sign := hashOf, sign;
      stage, txPartCtx, stageContext, log, witnesses, body := INIT, Unset, NO_CONTEXT, [], [], EMPTY;
      givenAuxDataHash, requests := None, [];
      auxDataHash, txHash := seq(32, _ => 0), seq(32, _ => 0);
      params := NO_PARAMS;
      new;
      Started();
    }

    lemma Started()
      requires stage == INIT && params == NO_PARAMS && txPartCtx == Unset && log == [] && witnesses == []
      requires body == EMPTY && givenAuxDataHash.None? && requests == []
      requires registration.Valid() && registration.events == [] && pool.poolOwnerPath.None?
      ensures Valid()
    {
      hide WellFormed, V.RegistrationContext.Valid, B.HashedBytes;
      NothingWellFormed(NO_PARAMS.Setting());
      assert Current() == START;
    }

    ghost function CallFrame(): Frame
      reads this`params, this`auxDataHash
    {
      Frame(params, auxDataHash, pool.keyHashOf)
    }

    ghost function Repr(): set<object>
    {
      {this, output, mint, pool, registration, registration.builder}
    }

    /** The machine is at section k, with no sub-machine at work. */
    ghost predicate Standing(k: nat)
      reads this
    {
      txPartCtx.BodyPart? && Stands(CallFrame(), txPartCtx.body, body, log, k)
    }

    ghost predicate Complete(k: nat)
      reads this
    {
      Size(body, k) == Expected(params, k)
    }

    /** The mint sub-machine has been initialised and has received nothing. */
    ghost predicate MintReady()
      reads this, mint
    {
      mint.Valid() && mint.events == [] && stageContext == MINT_CONTEXT
    }

    /** The machine has moved on from section k to the next one that waits, falling through the others. */
    ghost predicate Arrived(k: nat)
      requires k < END
      reads this
    {
      && stage == StageOf(Next(params, k)) && Standing(Next(params, k))
      && (Next(params, k) < END ==> Size(body, Next(params, k)) == 0)
    }

    /** In a complete section the counters and flags are what the assertions of tx_advanceStage ask for. */
    lemma AllReceived(k: nat)
      requires Standing(k) && Complete(k)
      ensures k == INPUTS ==> (txPartCtx.body.currentInput == params.numInputs)
      ensures k == OUTPUTS ==> (txPartCtx.body.currentOutput == params.numOutputs)
      ensures k == FEE ==> (txPartCtx.body.feeReceived)
      ensures k == TTL ==> (params.includeTtl ==> txPartCtx.body.ttlReceived)
      ensures k == CERTIFICATES ==> (txPartCtx.body.currentCertificate == params.numCertificates)
      ensures k == WITHDRAWALS ==> (txPartCtx.body.currentWithdrawal == params.numWithdrawals)
      ensures k == VALIDITY_INTERVAL && params.includeValidityIntervalStart ==>
              txPartCtx.body.validityIntervalStartReceived
      ensures k == MINT ==> (params.includeMint ==> txPartCtx.body.mintReceived)
      ensures k == SCRIPT_DATA_HASH ==> (params.includeScriptDataHash ==> txPartCtx.body.scriptDataHashReceived)
      ensures k == COLLATERAL_INPUTS ==> (txPartCtx.body.currentCollateral == params.numCollateralInputs)
      ensures k == REQUIRED_SIGNERS ==> (txPartCtx.body.currentRequiredSigner == params.numRequiredSigners)
      ensures k == COLLATERAL_OUTPUT ==> (params.includeCollateralOutput ==> txPartCtx.body.collateralOutputReceived)
      ensures k == TOTAL_COLLATERAL ==> (params.includeTotalCollateral ==> txPartCtx.body.totalCollateralReceived)
      ensures k == REFERENCE_INPUTS ==> (txPartCtx.body.currentReferenceInput == params.numReferenceInputs)
      ensures k == VOTING_PROCEDURES ==> (txPartCtx.body.currentVotingProcedure == params.numVotingProcedures)
      ensures k == TREASURY ==> (params.includeTreasury ==> txPartCtx.body.treasuryReceived)
      ensures k == DONATION ==> (params.includeDonation ==> txPartCtx.body.donationReceived)
    {
      hide Progressed, LogUpTo, B.HashedBytes;
    }

    // The cases of tx_advanceStage for the sections of the body, one method for each. A case that falls through
    // calls the next one. The assertions of the source are asserted here: they cannot fail.

    method LeaveInputs()
      requires stage == AT(INPUTS) && Standing(INPUTS) && Complete(INPUTS)
      modifies this`stage, this`log, this`stageContext, output, mint
      ensures Arrived(INPUTS)
      ensures output.Valid()
      ensures stage == AT(MINT) ==> MintReady()
    {
      hide Progressed, LogUpTo, SectionItems, Agrees, B.HashedBytes;
      AllReceived(INPUTS);
      assert txPartCtx.body.currentInput == params.numInputs;
      Entered(CallFrame(), body, INPUTS);
      log := log + [EnterOutputs(params.numOutputs)];
      output.Initialize(false);
      stageContext := OUTPUT_CONTEXT;
      stage := AT(OUTPUTS);
      if params.numOutputs > 0 {
        return;
      }
      LeaveOutputs();
    }

    method LeaveOutputs()
      requires stage == AT(OUTPUTS) && Standing(OUTPUTS) && Complete(OUTPUTS)
      modifies this`stage, this`log, this`stageContext, mint
      ensures Arrived(OUTPUTS)
      ensures stage == AT(MINT) ==> MintReady()
    {
      hide Progressed, LogUpTo, SectionItems, Agrees, B.HashedBytes;
      AllReceived(OUTPUTS);
      assert txPartCtx.body.currentOutput == params.numOutputs;
      Entered(CallFrame(), body, OUTPUTS);
      stage := AT(FEE);
    }

    method LeaveFee()
      requires stage == AT(FEE) && Standing(FEE) && Complete(FEE)
      modifies this`stage, this`log, this`stageContext, mint
      ensures Arrived(FEE)
      ensures stage == AT(MINT) ==> MintReady()
    {
      hide Progressed, LogUpTo, SectionItems, Agrees, B.HashedBytes;
      AllReceived(FEE);
      assert txPartCtx.body.feeReceived;
      Entered(CallFrame(), body, FEE);
      stage := AT(TTL);
      if params.includeTtl {
        return;
      }
      LeaveTtl();
    }

    method LeaveTtl()
      requires stage == AT(TTL) && Standing(TTL) && Complete(TTL)
      modifies this`stage, this`log, this`stageContext, mint
      ensures Arrived(TTL)
      ensures stage == AT(MINT) ==> MintReady()
    {
      hide Progressed, LogUpTo, SectionItems, Agrees, B.HashedBytes;
      AllReceived(TTL);
      assert params.includeTtl ==> txPartCtx.body.ttlReceived;
      Entered(CallFrame(), body, TTL);
      stage := AT(CERTIFICATES);
      if params.numCertificates > 0 {
        log := log + [EnterCertificates(params.numCertificates)];
        return;
      }
      LeaveCertificates();
    }

    method LeaveCertificates()
      requires stage == AT(CERTIFICATES) && Standing(CERTIFICATES) && Complete(CERTIFICATES)
      modifies this`stage, this`log, this`stageContext, mint
      ensures Arrived(CERTIFICATES)
      ensures stage == AT(MINT) ==> MintReady()
    {
      hide Progressed, LogUpTo, SectionItems, Agrees, B.HashedBytes;
      AllReceived(CERTIFICATES);
      assert txPartCtx.body.currentCertificate == params.numCertificates;
      Entered(CallFrame(), body, CERTIFICATES);
      stage := AT(WITHDRAWALS);
      if params.numWithdrawals > 0 {
        log := log + [EnterWithdrawals(params.numWithdrawals)];
        return;
      }
      LeaveWithdrawals();
    }

    method LeaveWithdrawals()
      requires stage == AT(WITHDRAWALS) && Standing(WITHDRAWALS) && Complete(WITHDRAWALS)
      modifies this`stage, this`log, this`stageContext, mint
      ensures Arrived(WITHDRAWALS)
      ensures stage == AT(MINT) ==> MintReady()
    {
      hide Progressed, LogUpTo, SectionItems, Agrees, B.HashedBytes;
      AllReceived(WITHDRAWALS);
      assert txPartCtx.body.currentWithdrawal == params.numWithdrawals;
      Entered(CallFrame(), body, WITHDRAWALS);
      if params.includeAuxData {
        log := log + [AddAuxData(auxDataHash)];
      }
      stage := AT(VALIDITY_INTERVAL);
      if params.includeValidityIntervalStart {
        return;
      }
      LeaveValidityInterval();
    }

    method LeaveValidityInterval()
      requires stage == AT(VALIDITY_INTERVAL) && Standing(VALIDITY_INTERVAL) && Complete(VALIDITY_INTERVAL)
      modifies this`stage, this`log, this`stageContext, mint
      ensures Arrived(VALIDITY_INTERVAL)
      ensures stage == AT(MINT) ==> MintReady()
    {
      hide Progressed, LogUpTo, SectionItems, Agrees, M.MintContext.Valid, B.HashedBytes;
      AllReceived(VALIDITY_INTERVAL);
      assert params.includeValidityIntervalStart ==> txPartCtx.body.validityIntervalStartReceived;
      Entered(CallFrame(), body, VALIDITY_INTERVAL);
      stage := AT(MINT);
      if params.includeMint {
        log := log + [EnterMint];
        mint.Initialize();
        stageContext := MINT_CONTEXT;
        return;
      }
      LeaveMint();
    }

    method LeaveMint()
      requires stage == AT(MINT) && Standing(MINT) && Complete(MINT)
      modifies this`stage, this`log
      ensures Arrived(MINT)
    {
      hide Progressed, LogUpTo, SectionItems, Agrees, B.HashedBytes;
      AllReceived(MINT);
      assert params.includeMint ==> txPartCtx.body.mintReceived;
      Entered(CallFrame(), body, MINT);
      stage := AT(SCRIPT_DATA_HASH);
      if params.includeScriptDataHash {
        return;
      }
      LeaveScriptDataHash();
    }

    method LeaveScriptDataHash()
      requires stage == AT(SCRIPT_DATA_HASH) && Standing(SCRIPT_DATA_HASH) && Complete(SCRIPT_DATA_HASH)
      modifies this`stage, this`log
      ensures Arrived(SCRIPT_DATA_HASH)
    {
      hide Progressed, LogUpTo, SectionItems, Agrees, B.HashedBytes;
      AllReceived(SCRIPT_DATA_HASH);
      assert params.includeScriptDataHash ==> txPartCtx.body.scriptDataHashReceived;
      Entered(CallFrame(), body, SCRIPT_DATA_HASH);
      stage := AT(COLLATERAL_INPUTS);
      if params.numCollateralInputs > 0 {
        log := log + [EnterCollateralInputs(params.numCollateralInputs)];
        return;
      }
      LeaveCollateralInputs();
    }

    method LeaveCollateralInputs()
      requires stage == AT(COLLATERAL_INPUTS) && Standing(COLLATERAL_INPUTS) && Complete(COLLATERAL_INPUTS)
      modifies this`stage, this`log
      ensures Arrived(COLLATERAL_INPUTS)
    {
      hide Progressed, LogUpTo, SectionItems, Agrees, B.HashedBytes;
      AllReceived(COLLATERAL_INPUTS);
      assert txPartCtx.body.currentCollateral == params.numCollateralInputs;
      Entered(CallFrame(), body, COLLATERAL_INPUTS);
      stage := AT(REQUIRED_SIGNERS);
      if params.numRequiredSigners > 0 {
        log := log + [EnterRequiredSigners(params.numRequiredSigners)];
        return;
      }
      LeaveRequiredSigners();
    }

    method LeaveRequiredSigners()
      requires stage == AT(REQUIRED_SIGNERS) && Standing(REQUIRED_SIGNERS) && Complete(REQUIRED_SIGNERS)
      modifies this`stage, this`log
      ensures Arrived(REQUIRED_SIGNERS)
    {
      hide Progressed, LogUpTo, SectionItems, Agrees, B.HashedBytes;
      AllReceived(REQUIRED_SIGNERS);
      assert txPartCtx.body.currentRequiredSigner == params.numRequiredSigners;
      Entered(CallFrame(), body, REQUIRED_SIGNERS);
      if params.includeNetworkId {
        log := log + [AddNetworkId(params.networkId)];
      }
      stage := AT(COLLATERAL_OUTPUT);
      if params.includeCollateralOutput {
        return;
      }
      LeaveCollateralOutput();
    }

    method LeaveCollateralOutput()
      requires stage == AT(COLLATERAL_OUTPUT) && Standing(COLLATERAL_OUTPUT) && Complete(COLLATERAL_OUTPUT)
      modifies this`stage, this`log
      ensures Arrived(COLLATERAL_OUTPUT)
    {
      hide Progressed, LogUpTo, SectionItems, Agrees, B.HashedBytes;
      AllReceived(COLLATERAL_OUTPUT);
      assert params.includeCollateralOutput ==> txPartCtx.body.collateralOutputReceived;
      Entered(CallFrame(), body, COLLATERAL_OUTPUT);
      stage := AT(TOTAL_COLLATERAL);
      if params.includeTotalCollateral {
        return;
      }
      LeaveTotalCollateral();
    }

    method LeaveTotalCollateral()
      requires stage == AT(TOTAL_COLLATERAL) && Standing(TOTAL_COLLATERAL) && Complete(TOTAL_COLLATERAL)
      modifies this`stage, this`log
      ensures Arrived(TOTAL_COLLATERAL)
    {
      hide Progressed, LogUpTo, SectionItems, Agrees, B.HashedBytes;
      AllReceived(TOTAL_COLLATERAL);
      assert params.includeTotalCollateral ==> txPartCtx.body.totalCollateralReceived;
      Entered(CallFrame(), body, TOTAL_COLLATERAL);
      stage := AT(REFERENCE_INPUTS);
      if params.numReferenceInputs > 0 {
        log := log + [EnterReferenceInputs(params.numReferenceInputs)];
        return;
      }
      LeaveReferenceInputs();
    }

    method LeaveReferenceInputs()
      requires stage == AT(REFERENCE_INPUTS) && Standing(REFERENCE_INPUTS) && Complete(REFERENCE_INPUTS)
      modifies this`stage, this`log
      ensures Arrived(REFERENCE_INPUTS)
    {
      hide Progressed, LogUpTo, SectionItems, Agrees, B.HashedBytes;
      AllReceived(REFERENCE_INPUTS);
      assert txPartCtx.body.currentReferenceInput == params.numReferenceInputs;
      Entered(CallFrame(), body, REFERENCE_INPUTS);
      stage := AT(VOTING_PROCEDURES);
      if params.numVotingProcedures > 0 {
        log := log + [EnterVotingProcedures(params.numVotingProcedures)];
        return;
      }
      LeaveVotingProcedures();
    }

    method LeaveVotingProcedures()
      requires stage == AT(VOTING_PROCEDURES) && Standing(VOTING_PROCEDURES) && Complete(VOTING_PROCEDURES)
      modifies this`stage, this`log
      ensures Arrived(VOTING_PROCEDURES)
    {
      hide Progressed, LogUpTo, SectionItems, Agrees, B.HashedBytes;
      AllReceived(VOTING_PROCEDURES);
      assert txPartCtx.body.currentVotingProcedure == params.numVotingProcedures;
      Entered(CallFrame(), body, VOTING_PROCEDURES);
      stage := AT(TREASURY);
      if params.includeTreasury {
        return;
      }
      LeaveTreasury();
    }

    method LeaveTreasury()
      requires stage == AT(TREASURY) && Standing(TREASURY) && Complete(TREASURY)
      modifies this`stage, this`log
      ensures Arrived(TREASURY)
    {
      hide Progressed, LogUpTo, SectionItems, Agrees, B.HashedBytes;
      AllReceived(TREASURY);
      assert params.includeTreasury ==> txPartCtx.body.treasuryReceived;
      Entered(CallFrame(), body, TREASURY);
      stage := AT(DONATION);
      if params.includeDonation {
        return;
      }
      LeaveDonation();
    }

    method LeaveDonation()
      requires stage == AT(DONATION) && Standing(DONATION) && Complete(DONATION)
      modifies this`stage, this`log
      ensures Arrived(DONATION)
    {
      hide Progressed, LogUpTo, SectionItems, Agrees, B.HashedBytes;
      AllReceived(DONATION);
      assert params.includeDonation ==> txPartCtx.body.donationReceived;
      Entered(CallFrame(), body, DONATION);
      stage := CONFIRM;
    }

    /** The switch of tx_advanceStage at a stage of the body. */
    method AdvanceBody()
      requires stage.AT? && stage.section < END && Standing(stage.section) && Complete(stage.section)
      modifies this`stage, this`log, this`stageContext, output, mint
      ensures Arrived(old(stage.section)) && (stage.AT? || stage == CONFIRM)
      ensures stage == AT(MINT) ==> MintReady()
    {
      hide Standing, Complete, Arrived, B.HashedBytes;
      var k := stage.section;
      if k == INPUTS { LeaveInputs(); }
      else if k == OUTPUTS { LeaveOutputs(); }
      else if k == FEE { LeaveFee(); }
      else if k == TTL { LeaveTtl(); }
      else if k == CERTIFICATES { LeaveCertificates(); }
      else if k == WITHDRAWALS { LeaveWithdrawals(); }
      else if k == VALIDITY_INTERVAL { LeaveValidityInterval(); }
      else if k == MINT { LeaveMint(); }
      else if k == SCRIPT_DATA_HASH { LeaveScriptDataHash(); }
      else if k == COLLATERAL_INPUTS { LeaveCollateralInputs(); }
      else if k == REQUIRED_SIGNERS { LeaveRequiredSigners(); }
      else if k == COLLATERAL_OUTPUT { LeaveCollateralOutput(); }
      else if k == TOTAL_COLLATERAL { LeaveTotalCollateral(); }
      else if k == REFERENCE_INPUTS { LeaveReferenceInputs(); }
      else if k == VOTING_PROCEDURES { LeaveVotingProcedures(); }
      else if k == TREASURY { LeaveTreasury(); }
      else { LeaveDonation(); }
      Later(k);
    }

    lemma Later(k: nat)
      requires k < END && Arrived(k)
      ensures (stage.AT? && stage.section > k) || stage == CONFIRM
    {
    }

    // ------------------------------------------------------------ the invariant of every run

    /** A sub-machine is at work in section k and has made the calls of `word` so far. */
    ghost predicate Receiving(k: nat, word: seq<Call>)
      reads this
    {
      txPartCtx.BodyPart? && Receives(CallFrame(), txPartCtx.body, body, log, k, word)
    }

    /** The hash has been computed over the whole log, and every signature is over this hash. */
    ghost predicate Finalised()
      reads this
    {
      && Progressed(params, body, END) && log == BodyWord(CallFrame(), body)
      && txHash == hashOf(B.HashedBytes(log)) && AllSign(sign, witnesses, txHash)
    }

    ghost predicate Untouched()
      reads this, registration, registration.builder
    {
      log == [] && body == EMPTY && registration.Valid() && registration.events == []
    }

    ghost predicate PoolFacts()
      reads this, pool
    {
      PoolLinked(params, body.certificates, stage == CERTIFICATES_POOL_SUBMACHINE, pool.poolOwnerPath, witnesses)
    }

    ghost predicate AuxDataFacts()
      reads this, registration, registration.builder
    {
      stage !in {INIT, AUX_DATA, AUX_DATA_CVOTE_REGISTRATION_SUBMACHINE} && params.includeAuxData ==>
        AuxDataLinked(auxDataHash, givenAuxDataHash, registration.Valid() && registration.state == V.AT_FINISHED,
                      registration.auxDataHash)
    }

    ghost predicate AtStage()
      reads this, output, mint, pool, registration, registration.builder
    {
      match stage
      case INIT => txPartCtx == Unset && Untouched() && givenAuxDataHash.None?
      case AUX_DATA => txPartCtx == AuxDataPart(false) && params.includeAuxData && params.numInputs > 0 && Untouched()
        && givenAuxDataHash.None?
      case AUX_DATA_CVOTE_REGISTRATION_SUBMACHINE =>
        txPartCtx == AuxDataPart(false) && params.includeAuxData && params.numInputs > 0
        && log == [] && body == EMPTY && registration.Valid() && givenAuxDataHash.None?
        && stageContext == REGISTRATION_CONTEXT
      case AT(k) =>
        k < END && Standing(k) && Size(body, k) < Expected(params, k)
        && (k == MINT ==> MintReady())
      case OUTPUTS_SUBMACHINE => Receiving(OUTPUTS, Flat(OutputCallWord, output.log)) && output.Valid()
        && !output.collateral && stageContext == OUTPUT_CONTEXT
      case CERTIFICATES_POOL_SUBMACHINE =>
        Receiving(CERTIFICATES, Flat(PoolCallWord, pool.log)) && pool.Valid()
        && pool.CommonData() == params.Setting() && P.IsPoolMode(params.txSigningMode) && body.certificates == []
        && stageContext == POOL_CONTEXT
      case MINT_SUBMACHINE =>
        Receiving(MINT, Flat(MintCallWord, mint.log)) && mint.Valid() && stageContext == MINT_CONTEXT
      case COLLATERAL_OUTPUT_SUBMACHINE =>
        Receiving(COLLATERAL_OUTPUT, Flat(CollateralCallWord, output.log)) && output.Valid() && output.collateral
        && stageContext == OUTPUT_CONTEXT
      case CONFIRM => Standing(END)
      case WITNESSES => txPartCtx.WitnessPart? && txPartCtx.currentWitness == |witnesses| < params.numWitnesses
        && Finalised()
      case NONE => |witnesses| == params.numWitnesses && Finalised()
    }

    ghost predicate Consistent()
      reads this, output, mint, pool, registration, registration.builder
    {
      && WellFormed(params.Setting(), body)
      && (stage != WITNESSES && stage != NONE ==> witnesses == [])
      && PoolFacts() && AuxDataFacts() && AtStage()
    }

    /** Section k is complete and everything else is as the invariant has it. */
    ghost predicate Ready(k: nat)
      reads this, pool, registration, registration.builder
    {
      && stage == AT(k) && k < END && Standing(k) && Complete(k)
      && WellFormed(params.Setting(), body) && witnesses == [] && PoolFacts() && AuxDataFacts()
    }

    /** tx_advanceStage at a stage of the body: no assertion in it fails, and the invariant holds afterwards. */
    method AdvanceStage()
      requires stage.AT? && Ready(stage.section)
      modifies this`stage, this`log, this`stageContext, output, mint
      ensures Consistent() && stage == StageOf(Next(params, old(stage.section)))
    {
      hide Stands, WellFormed, AtStage, PoolLinked, AuxDataLinked, V.RegistrationContext.Valid, B.HashedBytes;
      var k := stage.section;
      AdvanceBody();
      Resume(k);
    }

    lemma Open(k: nat)
      requires AtStage() && stage == AT(k)
      ensures k < END && Standing(k) && Size(body, k) < Expected(params, k)
    {
    }

    lemma Stay(k: nat)
      requires stage == AT(k) && k < END && k != MINT && Standing(k) && Size(body, k) < Expected(params, k)
      ensures AtStage()
    {
      hide Stands, B.HashedBytes;
    }

    /** Having moved on from section k, the machine is in a state of the invariant again. */
    lemma Resume(k: nat)
      requires k < END && Arrived(k)
      requires stage == AT(MINT) ==> MintReady()
      ensures AtStage()
    {
      hide Stands, M.MintContext.Valid, B.HashedBytes;
    }

    /** The common end of the handlers of these elements: the call of the builder, the RESPOND step, and the next
        stage after the last element of a section. */
    method Take(e: Element)
      requires Consistent() && stage == AT(SectionOf(e)) && !e.CertificateElement?
      requires ElementAccepted(params.Setting(), body, e)
      modifies this`stage, this`txPartCtx, this`log, this`body, this`stageContext, output, mint
      ensures Consistent() && body == Extended(old(body), e) && stage == After(params, body, SectionOf(e))
    {
      hide Stands, Size, Expected, WellFormed, Arrived, AtStage, PoolLinked, AuxDataLinked, StageOf, Next, Untouched,
           Receiving, Finalised, O.OutputContext.Valid, M.MintContext.Valid, P.PoolContext.Valid, ElementAccepted,
           V.RegistrationContext.Valid, CountedElement, ElementCall, IsLast, MintReady, Extended, SectionOf,
           B.HashedBytes;
      Open(SectionOf(e));
      ElementReceived(CallFrame(), txPartCtx.body, body, log, e);
      ElementWellFormed(params.Setting(), body, e);
      SameCertificates(body, e);
      NotMint(e);
      log := log + [ElementCall(e)];
      txPartCtx := BodyPart(CountedElement(txPartCtx.body, e));
      body := Extended(body, e);
      if IsLast(params, txPartCtx.body, e) {
        AdvanceStage();
      } else {
        Stay(SectionOf(e));
      }
    }

    lemma NotMint(e: Element)
      ensures SectionOf(e) != MINT
    {
    }

    lemma SameCertificates(b: Body, e: Element)
      requires !e.CertificateElement?
      ensures Extended(b, e).certificates == b.certificates
    {
    }

    method HandleFee(amount: uint64, allowed: bool) returns (ok: bool)
      requires Consistent()
      modifies this`stage, this`txPartCtx, this`log, this`body, this`stageContext, output, mint
      ensures ok <==> old(stage) == AT(FEE) && allowed
      ensures ok ==> Consistent() && body == old(body).(fee := Some(amount))
      ensures ok ==> stage == After(params, body, FEE)
    {
      hide Consistent, After, B.HashedBytes;
      if stage != AT(FEE) || !allowed { return false; }
      Take(FeeElement(amount));
      return true;
    }

    method HandleTtl(slot: uint64, allowed: bool) returns (ok: bool)
      requires Consistent()
      modifies this`stage, this`txPartCtx, this`log, this`body, this`stageContext, output, mint
      ensures ok <==> old(stage) == AT(TTL) && allowed
      ensures ok ==> Consistent() && body == old(body).(ttl := Some(slot))
      ensures ok ==> stage == After(params, body, TTL)
    {
      hide Consistent, After, B.HashedBytes;
      if stage != AT(TTL) || !allowed { return false; }
      Take(TtlElement(slot));
      return true;
    }

    method HandleValidityIntervalStart(slot: uint64, allowed: bool) returns (ok: bool)
      requires Consistent()
      modifies this`stage, this`txPartCtx, this`log, this`body, this`stageContext, output, mint
      ensures ok <==> old(stage) == AT(VALIDITY_INTERVAL) && allowed
      ensures ok ==> Consistent() && body == old(body).(validityIntervalStart := Some(slot))
      ensures ok ==> stage == After(params, body, VALIDITY_INTERVAL)
    {
      hide Consistent, After, B.HashedBytes;
      if stage != AT(VALIDITY_INTERVAL) || !allowed { return false; }
      Take(ValidityIntervalStartElement(slot));
      return true;
    }

    method HandleScriptDataHash(hash: Hash32, allowed: bool) returns (ok: bool)
      requires Consistent()
      modifies this`stage, this`txPartCtx, this`log, this`body, this`stageContext, output, mint
      ensures ok <==> old(stage) == AT(SCRIPT_DATA_HASH) && allowed
      ensures ok ==> Consistent() && body == old(body).(scriptDataHash := Some(hash))
      ensures ok ==> stage == After(params, body, SCRIPT_DATA_HASH)
    {
      hide Consistent, After, B.HashedBytes;
      if stage != AT(SCRIPT_DATA_HASH) || !allowed { return false; }
      Take(ScriptDataHashElement(hash));
      return true;
    }

    method HandleTotalCollateral(amount: uint64, allowed: bool) returns (ok: bool)
      requires Consistent()
      modifies this`stage, this`txPartCtx, this`log, this`body, this`stageContext, output, mint
      ensures ok <==> old(stage) == AT(TOTAL_COLLATERAL) && allowed
      ensures ok ==> Consistent() && body == old(body).(totalCollateral := Some(amount))
      ensures ok ==> stage == After(params, body, TOTAL_COLLATERAL)
    {
      hide Consistent, After, B.HashedBytes;
      if stage != AT(TOTAL_COLLATERAL) || !allowed { return false; }
      Take(TotalCollateralElement(amount));
      return true;
    }

    method HandleTreasury(amount: uint64, allowed: bool) returns (ok: bool)
      requires Consistent()
      modifies this`stage, this`txPartCtx, this`log, this`body, this`stageContext, output, mint
      ensures ok <==> old(stage) == AT(TREASURY) && allowed
      ensures ok ==> Consistent() && body == old(body).(treasury := Some(amount))
      ensures ok ==> stage == After(params, body, TREASURY)
    {
      hide Consistent, After, B.HashedBytes;
      if stage != AT(TREASURY) || !allowed { return false; }
      Take(TreasuryElement(amount));
      return true;
    }

    method HandleDonation(amount: uint64, allowed: bool) returns (ok: bool)
      requires Consistent()
      modifies this`stage, this`txPartCtx, this`log, this`body, this`stageContext, output, mint
      ensures ok <==> old(stage) == AT(DONATION) && allowed && amount > 0
      ensures ok ==> Consistent() && body == old(body).(donation := Some(amount))
      ensures ok ==> stage == After(params, body, DONATION)
    {
      hide Consistent, After, B.HashedBytes;
      if stage != AT(DONATION) || amount == 0 || !allowed { return false; }
      Take(DonationElement(amount));
      return true;
    }

    lemma Counters()
      requires Consistent() && stage.AT?
      ensures txPartCtx.BodyPart? && Agrees(txPartCtx.body, body)
    {
      hide Agrees, LogUpTo, Progressed, Size, Expected, B.HashedBytes;
      Open(stage.section);
    }

    method HandleInput(input: Input, allowed: bool) returns (ok: bool)
      requires Consistent()
      modifies this`stage, this`txPartCtx, this`log, this`body, this`stageContext, output, mint
      ensures ok <==> old(stage) == AT(INPUTS) && allowed
      ensures ok ==> Consistent() && body == old(body).(inputs := old(body).inputs + [input])
      ensures ok ==> stage == After(params, body, INPUTS)
    {
      hide Consistent, After, LabelFits, Decimal, B.HashedBytes;
      if stage != AT(INPUTS) || !allowed { return false; }
      Counters();
      LabelsFit(txPartCtx.body.currentInput);
      var labelled, text := ConstructInputLabel(INPUT_PREFIX, txPartCtx.body.currentInput);
      assert labelled;
      Take(InputElement(input));
      return true;
    }

    method HandleCollateralInput(input: Input, allowed: bool) returns (ok: bool)
      requires Consistent()
      modifies this`stage, this`txPartCtx, this`log, this`body, this`stageContext, output, mint
      ensures ok <==> old(stage) == AT(COLLATERAL_INPUTS) && allowed && |old(body).collateralInputs| < COLLATERAL_LABELS
      ensures ok ==> Consistent() && body == old(body).(collateralInputs := old(body).collateralInputs + [input])
      ensures ok ==> stage == After(params, body, COLLATERAL_INPUTS)
    {
      hide Consistent, After, LabelFits, Decimal, B.HashedBytes;
      if stage != AT(COLLATERAL_INPUTS) || !allowed { return false; }
      Counters();
      LabelsFit(txPartCtx.body.currentCollateral);
      var labelled, text := ConstructInputLabel(COLLATERAL_PREFIX, txPartCtx.body.currentCollateral);
      if !labelled { return false; }
      Take(CollateralInputElement(input));
      return true;
    }

    method HandleRequiredSigner(keyHash: KeyHash, allowed: bool) returns (ok: bool)
      requires Consistent()
      modifies this`stage, this`txPartCtx, this`log, this`body, this`stageContext, output, mint
      ensures ok <==> old(stage) == AT(REQUIRED_SIGNERS) && allowed
      ensures ok ==> Consistent() && body == old(body).(requiredSigners := old(body).requiredSigners + [keyHash])
      ensures ok ==> stage == After(params, body, REQUIRED_SIGNERS)
    {
      hide Consistent, After, B.HashedBytes;
      if stage != AT(REQUIRED_SIGNERS) || !allowed { return false; }
      Take(RequiredSignerElement(keyHash));
      return true;
    }

    method HandleReferenceInput(input: Input, allowed: bool) returns (ok: bool)
      requires Consistent()
      modifies this`stage, this`txPartCtx, this`log, this`body, this`stageContext, output, mint
      ensures ok <==> old(stage) == AT(REFERENCE_INPUTS) && allowed && |old(body).referenceInputs| < REFERENCE_LABELS
      ensures ok ==> Consistent() && body == old(body).(referenceInputs := old(body).referenceInputs + [input])
      ensures ok ==> stage == After(params, body, REFERENCE_INPUTS)
    {
      hide Consistent, After, LabelFits, Decimal, B.HashedBytes;
      if stage != AT(REFERENCE_INPUTS) || !allowed { return false; }
      Counters();
      LabelsFit(txPartCtx.body.currentReferenceInput);
      var labelled, text := ConstructInputLabel(REFERENCE_PREFIX, txPartCtx.body.currentReferenceInput);
      if !labelled { return false; }
      Take(ReferenceInputElement(input));
      return true;
    }

    method HandleVotingProcedure(procedure: VotingProcedure, allowed: bool) returns (ok: bool)
      requires Consistent()
      modifies this`stage, this`txPartCtx, this`log, this`body, this`stageContext, output, mint
      ensures ok <==> old(stage) == AT(VOTING_PROCEDURES) && allowed
      ensures ok ==> Consistent() && body == old(body).(votingProcedures := old(body).votingProcedures + [procedure])
      ensures ok ==> stage == After(params, body, VOTING_PROCEDURES)
    {
      hide Consistent, After, B.HashedBytes;
      if stage != AT(VOTING_PROCEDURES) || !allowed { return false; }
      Take(VotingProcedureElement(procedure));
      return true;
    }

    // ------------------------------------------------------------ init and auxiliary data

    /** The cases of tx_advanceStage before the body. */
    method LeaveAuxData()
      requires stage == AUX_DATA && txPartCtx.AuxDataPart?
      requires params.includeAuxData ==> txPartCtx.auxDataReceived
      requires log == [] && body == EMPTY
      modifies this`stage, this`txPartCtx, this`stageContext, this`log
      ensures stage == AT(INPUTS) && Standing(INPUTS)
    {
      stage := AT(INPUTS);
      txPartCtx := BodyPart(FRESH_CTX);
      stageContext := NO_CONTEXT;
      log := log + [InitBuilder(params)];
      log := log + [EnterInputs(params.numInputs)];
      FirstSection(CallFrame(), log);
    }

    lemma OpenInit()
      requires Consistent() && stage == INIT
      ensures Untouched() && givenAuxDataHash.None? && witnesses == [] && pool.poolOwnerPath.None?
    {
      hide WellFormed, AuxDataLinked, V.RegistrationContext.Valid, B.HashedBytes;
    }

    lemma AuxDataNext()
      requires stage == AUX_DATA && txPartCtx == AuxDataPart(false) && params.includeAuxData && params.numInputs > 0
      requires Untouched() && givenAuxDataHash.None?
      ensures AtStage()
    {
    }

    /** The init request: parsing, narrowing of the counts, and the policy. */
    method HandleInit(d: InitData, allowed: bool) returns (ok: bool)
      requires Consistent()
      modifies this`stage, this`txPartCtx, this`stageContext, this`log, this`params
      ensures ok <==> old(stage) == INIT && allowed && InitAccepted(d)
      ensures ok ==> Consistent() && params == Stored(d) && body == EMPTY
      ensures ok ==> stage == if params.includeAuxData then AUX_DATA else AT(INPUTS)
    {
      hide Consistent, InitAccepted, Stored, B.HashedBytes;
      if stage != INIT { return false; }
      var checked := CheckInit(d);
      if !checked || !allowed { return false; }
      OpenInit();
      StoredInit(d);
      StoreInit(d);
      return true;
    }

    /** The end of the init handler: the parameters are stored, and the first stage begins. */
    method StoreInit(d: InitData)
      requires stage == INIT && Untouched() && givenAuxDataHash.None? && witnesses == [] && pool.poolOwnerPath.None?
      requires Stored(d).numInputs > 0
      requires P.IsPoolMode(Stored(d).txSigningMode) ==> Stored(d).numCertificates == 1
      modifies this`stage, this`txPartCtx, this`stageContext, this`log, this`params
      ensures Consistent() && params == Stored(d) && body == EMPTY
      ensures stage == if params.includeAuxData then AUX_DATA else AT(INPUTS)
    {
      hide Stands, O.OutputContext.Valid, M.MintContext.Valid, P.PoolContext.Valid, V.RegistrationContext.Valid,
           Finalised, Receiving, Stored, WellFormed, PoolLinked, AuxDataLinked, Size, Expected, AtStage, Agrees,
           Progressed, LogUpTo, MintReady, Flat, B.HashedBytes;
      PoolStarts(Stored(d));
      params := Stored(d);
      NothingWellFormed(params.Setting());
      stage := AUX_DATA;
      txPartCtx := AuxDataPart(false);
      if params.includeAuxData {
        AuxDataNext();
      } else {
        LeaveAuxData();
        StandingEmpty();
        Stay(INPUTS);
      }
    }

    method HandleAuxDataHash(hash: Hash32, allowed: bool) returns (ok: bool)
      requires Consistent()
      modifies this`stage, this`txPartCtx, this`stageContext, this`log, this`auxDataHash, this`givenAuxDataHash
      ensures ok <==> old(stage) == AUX_DATA && allowed
      ensures ok ==> Consistent() && stage == AT(INPUTS) && auxDataHash == hash && givenAuxDataHash == Some(hash)
    {
      hide Stands, O.OutputContext.Valid, M.MintContext.Valid, P.PoolContext.Valid, V.RegistrationContext.Valid,
           Finalised, Receiving, WellFormed, PoolLinked, B.HashedBytes;
      if stage != AUX_DATA || !allowed { return false; }
      assert params.includeAuxData;
      auxDataHash := hash;
      givenAuxDataHash := Some(hash);
      txPartCtx := AuxDataPart(true);
      LeaveAuxData();
      StandingEmpty();
      return true;
    }

    lemma StandingEmpty()
      requires Standing(INPUTS) && body == EMPTY && params.numInputs > 0
      ensures Size(body, INPUTS) < Expected(params, INPUTS)
    {
    }

    /** The other kind of auxiliary data: the vote registration sub-machine takes over. */
    method HandleAuxDataRegistration(allowed: bool) returns (ok: bool)
      requires Consistent()
      modifies this`stage, this`stageContext
      ensures ok <==> old(stage) == AUX_DATA && allowed
      ensures ok ==> Consistent() && stage == AUX_DATA_CVOTE_REGISTRATION_SUBMACHINE
      ensures ok ==> registration.Valid() && registration.events == []
    {
      hide Stands, O.OutputContext.Valid, M.MintContext.Valid, P.PoolContext.Valid, V.RegistrationContext.Valid,
           Finalised, Receiving, WellFormed, PoolLinked, B.HashedBytes;
      if stage != AUX_DATA || !allowed { return false; }
      stage := AUX_DATA_CVOTE_REGISTRATION_SUBMACHINE;
      stageContext := REGISTRATION_CONTEXT;
      return true;
    }

    method HandleRegistrationAPDU(e: AuxData.Event) returns (ok: bool)
      requires Consistent()
      modifies registration, registration.builder
      ensures ok <==> old(stage) == AUX_DATA_CVOTE_REGISTRATION_SUBMACHINE
                      && V.Step(old(registration.Current()), e).Some?
      ensures ok ==> Consistent() && registration.events == old(registration.events) + [e]
      ensures ok ==> V.Step(old(registration.Current()), e) == Some(registration.Current())
    {
      hide Stands, O.OutputContext.Valid, M.MintContext.Valid, P.PoolContext.Valid, V.RegistrationContext.Valid,
           Finalised, Receiving, WellFormed, PoolLinked, V.Step, B.HashedBytes;
      if stage != AUX_DATA_CVOTE_REGISTRATION_SUBMACHINE { return false; }
      assert stageContext == REGISTRATION_CONTEXT;
      ok := registration.HandleAPDU(e);
    }

    // ------------------------------------------------------------ certificates and withdrawals

    /** A certificate other than a pool registration; policyForSignTxCertificate denies it in the pool modes. */
    method HandleCertificate(certificate: PlainCertificate, allowed: bool) returns (ok: bool)
      requires Consistent()
      modifies this`stage, this`txPartCtx, this`log, this`body, this`stageContext, output, mint
      ensures ok <==> old(stage) == AT(CERTIFICATES) && !P.IsPoolMode(params.txSigningMode) && allowed
      ensures ok ==> Consistent()
      ensures ok ==> body == old(body).(certificates := old(body).certificates + [Plain(certificate)])
      ensures ok ==> stage == After(params, body, CERTIFICATES)
    {
      hide Stands, Size, Expected, WellFormed, Arrived, AtStage, PoolLinked, AuxDataLinked, StageOf, Next, Untouched,
           Receiving, Finalised, O.OutputContext.Valid, M.MintContext.Valid, P.PoolContext.Valid,
           V.RegistrationContext.Valid, B.HashedBytes;
      if stage != AT(CERTIFICATES) || P.IsPoolMode(params.txSigningMode) || !allowed { return false; }
      Open(CERTIFICATES);
      CertificateReceived(CallFrame(), txPartCtx.body, body, log, Plain(certificate));
      log := log + [AddCertificate(certificate)];
      ghost var before := body;
      body := body.(certificates := body.certificates + [Plain(certificate)]);
      CertificateWellFormed(params.Setting(), before, Plain(certificate));
      PlainCertificateLinked(params, before.certificates, certificate, pool.poolOwnerPath);
      CountCertificate();
      return true;
    }

    /** tx_advanceCertificatesStateIfAppropriate */
    method CountCertificate()
      requires stage == AT(CERTIFICATES) && txPartCtx.BodyPart? && body.certificates != []
      requires txPartCtx.body.currentCertificate < params.numCertificates
      requires Stands(CallFrame(), Counted(txPartCtx.body), body, log, CERTIFICATES)
      requires Size(body, CERTIFICATES) <= Expected(params, CERTIFICATES)
      requires Size(body, CERTIFICATES) == Expected(params, CERTIFICATES)
               <==> txPartCtx.body.currentCertificate + 1 == params.numCertificates
      requires WellFormed(params.Setting(), body) && witnesses == [] && PoolFacts() && AuxDataFacts()
      modifies this`stage, this`txPartCtx, this`log, this`stageContext, output, mint
      ensures Consistent() && stage == After(params, body, CERTIFICATES)
    {
      hide Stands, Size, Expected, WellFormed, Arrived, AtStage, PoolLinked, AuxDataLinked, Untouched, Receiving,
           Finalised, O.OutputContext.Valid, M.MintContext.Valid, P.PoolContext.Valid, V.RegistrationContext.Valid,
           B.HashedBytes;
      txPartCtx := BodyPart(Counted(txPartCtx.body));
      if txPartCtx.body.currentCertificate == params.numCertificates {
        AdvanceStage();
      } else {
        Stay(CERTIFICATES);
      }
    }

    /** A pool registration, allowed in the pool modes only: its sub-machine takes over. */
    method HandlePoolCertificate() returns (ok: bool)
      requires Consistent()
      modifies this`stage, this`stageContext, pool
      ensures ok <==> old(stage) == AT(CERTIFICATES) && P.IsPoolMode(params.txSigningMode)
      ensures ok ==> Consistent() && stage == CERTIFICATES_POOL_SUBMACHINE
      ensures ok ==> pool.events == [] && pool.Current() == P.START
    {
      hide Stands, WellFormed, PoolLinked, AuxDataLinked, Untouched, Finalised, O.OutputContext.Valid,
           M.MintContext.Valid, V.RegistrationContext.Valid, P.PoolContext.Valid, Receives, Flat, Size, Expected,
           B.HashedBytes;
      if stage != AT(CERTIFICATES) || !P.IsPoolMode(params.txSigningMode) { return false; }
      OneCertificate(params, body.certificates, false, pool.poolOwnerPath, witnesses);
      OnlyCertificate(CallFrame(), txPartCtx.body, body, log);
      SubStarts(CallFrame(), txPartCtx.body, body, log, CERTIFICATES, PoolCallWord);
      NoOwnerYet(params, body.certificates, pool.poolOwnerPath, witnesses);
      stage := CERTIFICATES_POOL_SUBMACHINE;
      pool.Initialize(params.Setting());
      stageContext := POOL_CONTEXT;
      return true;
    }

    method HandlePoolAPDU(e: P.PoolEvent) returns (ok: bool)
      requires Consistent()
      modifies this`log, pool
      ensures ok <==> old(stage) == CERTIFICATES_POOL_SUBMACHINE
                      && P.Step(P.Env(params.Setting(), pool.keyHashOf), old(pool.Current()), e).Some?
      ensures ok ==> Consistent() && pool.events == old(pool.events) + [e]
      ensures ok ==> P.Step(P.Env(params.Setting(), pool.keyHashOf), old(pool.Current()), e) == Some(pool.Current())
    {
      hide Stands, WellFormed, AuxDataLinked, Untouched, Finalised, O.OutputContext.Valid, M.MintContext.Valid,
           V.RegistrationContext.Valid, P.PoolContext.Valid, P.Step, Stands, Receives, Size, Expected, PoolLinked,
           Flat, B.HashedBytes;
      if stage != CERTIFICATES_POOL_SUBMACHINE { return false; }
      assert stageContext == POOL_CONTEXT;
      ghost var before := pool.Current();
      var n := |pool.log|;
      ghost var environment := pool.Environment();
      ok := pool.HandleAPDU(e);
      if ok {
        P.StepExtends(environment, before, e);
        assert pool.log[..n] == before.log;
        OwnerInPool(params, old(pool.poolOwnerPath), pool.poolOwnerPath);
        SubLog(CallFrame(), txPartCtx.body, body, log, CERTIFICATES, PoolCallWord, pool.log, n);
        log := log + Flat(PoolCallWord, pool.log[n..]);
      }
    }

    /** _addWithdrawalToTxHash: compares with the account of the previous withdrawal, which it keeps. */
    method AddWithdrawalToTxHash(account: Account, amount: uint64, validateCanonicalOrdering: bool) returns (ok: bool)
      requires txPartCtx.BodyPart?
      modifies this`txPartCtx, this`log
      ensures ok <==> validateCanonicalOrdering ==>
                      TokenBundle.KeyLess(old(txPartCtx.body.previousRewardAccount), account)
      ensures ok ==> txPartCtx == BodyPart(old(txPartCtx.body).(previousRewardAccount := account))
      ensures ok ==> log == old(log) + [AddWithdrawal(account, amount)]
    {
      if validateCanonicalOrdering {
        var ordered := TokenBundle.FulfillsCanonicalOrdering(txPartCtx.body.previousRewardAccount, account);
        if !ordered { return false; }
      }
      txPartCtx := BodyPart(txPartCtx.body.(previousRewardAccount := account));
      log := log + [AddWithdrawal(account, amount)];
      return true;
    }

    /** The RESPOND step of the withdrawal screens. */
    method CountWithdrawal()
      requires stage == AT(WITHDRAWALS) && txPartCtx.BodyPart?
      requires Stands(CallFrame(), txPartCtx.body.(currentWithdrawal := Successor(txPartCtx.body.currentWithdrawal)),
                      body, log, WITHDRAWALS)
      requires Size(body, WITHDRAWALS) <= Expected(params, WITHDRAWALS)
      requires Size(body, WITHDRAWALS) == Expected(params, WITHDRAWALS)
               <==> Successor(txPartCtx.body.currentWithdrawal) == params.numWithdrawals
      requires WellFormed(params.Setting(), body) && witnesses == [] && PoolFacts() && AuxDataFacts()
      modifies this`stage, this`txPartCtx, this`log, this`stageContext, output, mint
      ensures Consistent() && stage == After(params, body, WITHDRAWALS)
    {
      hide Stands, Size, Expected, WellFormed, Arrived, AtStage, PoolLinked, AuxDataLinked, Untouched, Receiving,
           Finalised, O.OutputContext.Valid, M.MintContext.Valid, P.PoolContext.Valid, V.RegistrationContext.Valid,
           B.HashedBytes;
      txPartCtx := BodyPart(txPartCtx.body.(currentWithdrawal := Successor(txPartCtx.body.currentWithdrawal)));
      if txPartCtx.body.currentWithdrawal == params.numWithdrawals {
        AdvanceStage();
      } else {
        Stay(WITHDRAWALS);
      }
    }

    lemma WithdrawalCounted(p: Params, c: BodyCtx, b: Body, w: Withdrawal)
      ensures SectionOf(WithdrawalElement(w)) == WITHDRAWALS
      ensures ElementCall(WithdrawalElement(w)) == AddWithdrawal(w.account, w.amount)
      ensures Extended(b, WithdrawalElement(w)) == b.(withdrawals := b.withdrawals + [w])
      ensures var c1 := c.(previousRewardAccount := w.account);
              CountedElement(c, WithdrawalElement(w)) == c1.(currentWithdrawal := Successor(c1.currentWithdrawal))
      ensures IsLast(p, CountedElement(c, WithdrawalElement(w)), WithdrawalElement(w))
              <==> Successor(c.currentWithdrawal) == p.numWithdrawals
    {
    }

    /** Reward accounts must come in the canonical order of map keys. */
    method HandleWithdrawal(account: Account, amount: uint64, allowed: bool) returns (ok: bool)
      requires Consistent()
      modifies this`stage, this`txPartCtx, this`log, this`body, this`stageContext, output, mint
      ensures ok <==> old(stage) == AT(WITHDRAWALS) && allowed && InOrder(old(body).withdrawals, account)
      ensures ok ==> Consistent()
      ensures ok ==> body == old(body).(withdrawals := old(body).withdrawals + [Withdrawal(account, amount)])
      ensures ok ==> stage == After(params, body, WITHDRAWALS)
    {
      hide Stands, Size, Expected, WellFormed, Arrived, AtStage, PoolLinked, AuxDataLinked, Untouched, Receiving,
           Finalised, O.OutputContext.Valid, M.MintContext.Valid, P.PoolContext.Valid, V.RegistrationContext.Valid,
           TokenBundle.KeyLess, InOrder, StageOf, Next, CountedElement, IsLast, ElementCall, Extended, Successor,
           SectionOf, Agrees, Progressed, LogUpTo, MintReady, Flat, B.HashedBytes;
      if stage != AT(WITHDRAWALS) || !allowed { return false; }
      Open(WITHDRAWALS);
      ghost var w := Withdrawal(account, amount);
      OrderChecked(CallFrame(), txPartCtx.body, body, log, account);
      WithdrawalCounted(params, txPartCtx.body, body, w);
      ElementReceived(CallFrame(), txPartCtx.body, body, log, WithdrawalElement(w));
      ok := AddWithdrawalToTxHash(account, amount, txPartCtx.body.currentWithdrawal > 0);
      assert ok <==> InOrder(old(body).withdrawals, account);
      if !ok { return; }
      WithdrawalWellFormed(params.Setting(), body, w);
      body := body.(withdrawals := body.withdrawals + [w]);
      CountWithdrawal();
    }

    // ------------------------------------------------------------ outputs and mint

    /** signTx_handleOutputAPDU: the first request of an output starts the sub-machine. */
    method HandleOutputAPDU(e: O.OutputEvent) returns (ok: bool)
      requires Consistent()
      modifies this`stage, this`log, this`stageContext, output
      ensures ok <==> (old(stage) == AT(OUTPUTS) && O.Step(false, O.START, e).Some?)
                      || (old(stage) == OUTPUTS_SUBMACHINE && O.Step(false, old(output.Current()), e).Some?)
      ensures ok ==> Consistent() && stage == OUTPUTS_SUBMACHINE
      ensures ok ==> output.events == (if old(stage) == OUTPUTS_SUBMACHINE then old(output.events) else []) + [e]
      ensures ok ==> O.Step(false, if old(stage) == OUTPUTS_SUBMACHINE then old(output.Current()) else O.START, e)
                     == Some(output.Current())
    {
      hide WellFormed, PoolLinked, AuxDataLinked, Untouched, Finalised, O.OutputContext.Valid, M.MintContext.Valid,
           V.RegistrationContext.Valid, P.PoolContext.Valid, O.Step, Stands, Receives, Size, Expected, O.CallsFor,
           Flat, B.HashedBytes;
      if stage == AT(OUTPUTS) {
        assert Standing(OUTPUTS);
        SubStarts(CallFrame(), txPartCtx.body, body, log, OUTPUTS, OutputCallWord);
        output.Initialize(false);
        stageContext := OUTPUT_CONTEXT;
        stage := OUTPUTS_SUBMACHINE;
      }
      if stage != OUTPUTS_SUBMACHINE { return false; }
      assert stageContext == OUTPUT_CONTEXT;
      var n := |output.log|;
      ok := output.HandleAPDU(e);
      if ok {
        SubLog(CallFrame(), txPartCtx.body, body, log, OUTPUTS, OutputCallWord, output.log, n);
        log := log + Flat(OutputCallWord, output.log[n..]);
      }
    }

    /** signTx_handleMintAPDU: the sub-machine was initialised when the stage was entered. */
    method HandleMintAPDU(e: M.MintEvent) returns (ok: bool)
      requires Consistent()
      modifies this`stage, this`log, this`stageContext, mint
      ensures ok <==> (old(stage) == AT(MINT) || old(stage) == MINT_SUBMACHINE) && M.Step(old(mint.Current()), e).Some?
      ensures ok ==> Consistent() && stage == MINT_SUBMACHINE
      ensures old(stage) == AT(MINT) ==> old(mint.Current()) == M.START && old(mint.events) == []
      ensures ok ==> mint.events == old(mint.events) + [e]
      ensures ok ==> M.Step(old(mint.Current()), e) == Some(mint.Current())
    {
      hide WellFormed, PoolLinked, AuxDataLinked, Untouched, Finalised, O.OutputContext.Valid,
           V.RegistrationContext.Valid, P.PoolContext.Valid, M.Step, Stands, Receives, Size, Expected, M.CallsFor,
           Flat, M.Run, B.HashedBytes;
      if stage == AT(MINT) {
        assert Standing(MINT);
        SubStarts(CallFrame(), txPartCtx.body, body, log, MINT, MintCallWord);
        NothingMinted(mint);
        assert mint.Current() == M.START;
        stage := MINT_SUBMACHINE;
      }
      if stage != MINT_SUBMACHINE { return false; }
      assert stageContext == MINT_CONTEXT;
      var n := |mint.log|;
      ok := mint.HandleAPDU(e);
      if ok {
        SubLog(CallFrame(), txPartCtx.body, body, log, MINT, MintCallWord, mint.log, n);
        log := log + Flat(MintCallWord, mint.log[n..]);
      }
    }

    /** signTx_handleCollateralOutputAPDU: the first request starts the sub-machine. */
    method HandleCollateralOutputAPDU(e: O.OutputEvent) returns (ok: bool)
      requires Consistent()
      modifies this`stage, this`log, this`stageContext, output
      ensures ok <==> (old(stage) == AT(COLLATERAL_OUTPUT) && O.Step(true, O.START, e).Some?)
                      || (old(stage) == COLLATERAL_OUTPUT_SUBMACHINE && O.Step(true, old(output.Current()), e).Some?)
      ensures ok ==> Consistent() && stage == COLLATERAL_OUTPUT_SUBMACHINE
      ensures ok ==> output.events
                     == (if old(stage) == COLLATERAL_OUTPUT_SUBMACHINE then old(output.events) else []) + [e]
      ensures ok ==> O.Step(true,
                            if old(stage) == COLLATERAL_OUTPUT_SUBMACHINE then old(output.Current()) else O.START, e)
                     == Some(output.Current())
    {
      hide WellFormed, PoolLinked, AuxDataLinked, Untouched, Finalised, O.OutputContext.Valid, M.MintContext.Valid,
           V.RegistrationContext.Valid, P.PoolContext.Valid, O.Step, Stands, Receives, Size, Expected, O.CallsFor,
           Flat, B.HashedBytes;
      if stage == AT(COLLATERAL_OUTPUT) {
        assert Standing(COLLATERAL_OUTPUT);
        SubStarts(CallFrame(), txPartCtx.body, body, log, COLLATERAL_OUTPUT, CollateralCallWord);
        output.Initialize(true);
        stageContext := OUTPUT_CONTEXT;
        stage := COLLATERAL_OUTPUT_SUBMACHINE;
      }
      if stage != COLLATERAL_OUTPUT_SUBMACHINE { return false; }
      assert stageContext == OUTPUT_CONTEXT;
      var n := |output.log|;
      ok := output.HandleAPDU(e);
      if ok {
        SubLog(CallFrame(), txPartCtx.body, body, log, COLLATERAL_OUTPUT, CollateralCallWord, output.log, n);
        log := log + Flat(CollateralCallWord, output.log[n..]);
      }
    }

    // ------------------------------------------------------------ confirmation and witnesses

    /** The hash is computed over the whole log; without witnesses the run ends here. */
    method HandleConfirm(allowed: bool) returns (ok: bool)
      requires Consistent()
      modifies this`stage, this`txPartCtx, this`txHash
      ensures ok <==> old(stage) == CONFIRM && allowed
      ensures ok ==> Consistent() && stage == if params.numWitnesses > 0 then WITNESSES else NONE
      ensures ok ==> txHash == hashOf(B.HashedBytes(log)) && log == BodyWord(CallFrame(), body) && Matches(params, body)
    {
      hide WellFormed, PoolLinked, AuxDataLinked, Untouched, O.OutputContext.Valid, M.MintContext.Valid,
           V.RegistrationContext.Valid, P.PoolContext.Valid, Receives, Size, Expected, Progressed, LogUpTo, Agrees,
           Matches, Stands, BodyWord, B.HashedBytes;
      if stage != CONFIRM || !allowed { return false; }
      WholeBody(CallFrame(), txPartCtx.body, body, log);
      txHash := hashOf(B.HashedBytes(log));
      stage := WITNESSES;
      txPartCtx := WitnessPart(0);
      if params.numWitnesses == 0 {
        stage := NONE;
      }
      return true;
    }

    /** signTx_handleWitnessAPDU. In owner mode the witness policy only lets the owner path sign. */
    method HandleWitness(path: Bip44.Path, allowed: bool) returns (ok: bool)
      requires Consistent()
      modifies this`stage, this`txPartCtx, this`witnesses
      ensures ok <==> old(stage) == WITNESSES && WitnessAllowed(params.txSigningMode, path, pool.poolOwnerPath, allowed)
      ensures ok ==> Consistent() && witnesses == old(witnesses) + [Witness(path, sign(path, txHash))]
      ensures ok ==> stage == if |witnesses| == params.numWitnesses then NONE else WITNESSES
    {
      hide WellFormed, AuxDataLinked, Untouched, O.OutputContext.Valid, M.MintContext.Valid,
           V.RegistrationContext.Valid, P.PoolContext.Valid, Receives, Size, Expected, Progressed, LogUpTo, Stands,
           WitnessAllowed, BodyWord, PoolLinked, AllSign, MintReady, Agrees, Bip44.ClassifyPath, Flat, B.HashedBytes;
      if stage != WITNESSES { return false; }
      assert txPartCtx.currentWitness < params.numWitnesses;
      var permitted := PolicyForSignTxWitness(params.txSigningMode, path, pool.poolOwnerPath, allowed);
      if !permitted { return false; }
      WitnessLinked(params, body.certificates, pool.poolOwnerPath, witnesses, path, sign(path, txHash), allowed);
      AllSignMore(sign, witnesses, txHash, path);
      witnesses := witnesses + [Witness(path, sign(path, txHash))];
      txPartCtx := WitnessPart(txPartCtx.currentWitness + 1);
      if txPartCtx.currentWitness == params.numWitnesses {
        stage := NONE;
      }
      return true;
    }

    // ------------------------------------------------------------ finished sub-machines

    /** The output received is appended to the body. */
    method FinishOutput() returns (ghost o: O.Output)
      requires Consistent() && stage == OUTPUTS_SUBMACHINE && output.state == O.FINISHED
      modifies this`stage, this`txPartCtx, this`log, this`body, this`stageContext, output, mint
      ensures Consistent() && stage == After(params, body, OUTPUTS)
      ensures O.Received(false, old(output.events), o) && body == old(body).(outputs := old(body).outputs + [o])
    {
      hide Stands, Receives, Size, Expected, WellFormed, Arrived, AtStage, PoolLinked, AuxDataLinked, StageOf, Next,
           Untouched, Finalised, O.OutputContext.Valid, M.MintContext.Valid, P.PoolContext.Valid,
           V.RegistrationContext.Valid, O.WellFormed, O.OutputCalls, O.Received, Flat, MintReady, B.HashedBytes;
      o := OpenedOutput();
      OutputReceived(CallFrame(), txPartCtx.body, body, log, o);
      OutputWellFormed(params.Setting(), body, o);
      stage := AT(OUTPUTS);
      txPartCtx := BodyPart(txPartCtx.body.(currentOutput := txPartCtx.body.currentOutput + 1));
      body := body.(outputs := body.outputs + [o]);
      if txPartCtx.body.currentOutput == params.numOutputs {
        AdvanceStage();
      } else {
        Stay(OUTPUTS);
      }
    }

    lemma OpenedOutput() returns (o: O.Output)
      requires AtStage() && stage == OUTPUTS_SUBMACHINE && output.state == O.FINISHED
      ensures O.Received(false, output.events, o)
      ensures O.WellFormed(false, o) && Receiving(OUTPUTS, Flat(OutputCallWord, O.OutputCalls(o)))
    {
      hide Receives, O.OutputContext.Valid, O.WellFormed, O.OutputCalls, Flat, O.Received, B.HashedBytes;
      o := output.FinishedOutput();
    }

    method FinishMint() returns (ghost groups: seq<TokenBundle.Group>)
      requires Consistent() && stage == MINT_SUBMACHINE && mint.state == M.FINISHED
      modifies this`stage, this`txPartCtx, this`log, this`body, this`stageContext, output, mint
      ensures Consistent() && stage == After(params, body, MINT)
      ensures M.Received(old(mint.events), groups) && body == old(body).(mint := Some(groups))
    {
      hide Stands, Receives, Size, Expected, WellFormed, Arrived, AtStage, PoolLinked, AuxDataLinked, StageOf, Next,
           Untouched, Finalised, O.OutputContext.Valid, M.MintContext.Valid, P.PoolContext.Valid,
           V.RegistrationContext.Valid, M.WellFormed, M.MintCalls, M.Received, Flat, MintReady, B.HashedBytes;
      groups := OpenedMint();
      MintReceived(CallFrame(), txPartCtx.body, body, log, groups);
      MintWellFormed(params.Setting(), body, groups);
      stage := AT(MINT);
      txPartCtx := BodyPart(txPartCtx.body.(mintReceived := true));
      body := body.(mint := Some(groups));
      AdvanceStage();
    }

    lemma OpenedMint() returns (groups: seq<TokenBundle.Group>)
      requires AtStage() && stage == MINT_SUBMACHINE && mint.state == M.FINISHED
      ensures M.Received(mint.events, groups)
      ensures M.WellFormed(groups) && Receiving(MINT, Flat(MintCallWord, M.MintCalls(groups)))
    {
      hide Receives, M.MintContext.Valid, M.WellFormed, M.MintCalls, Flat, M.Received, B.HashedBytes;
      groups := mint.FinishedMint();
    }

    method FinishCollateralOutput() returns (ghost o: O.Output)
      requires Consistent() && stage == COLLATERAL_OUTPUT_SUBMACHINE && output.state == O.FINISHED
      modifies this`stage, this`txPartCtx, this`log, this`body, this`stageContext, output, mint
      ensures Consistent() && stage == After(params, body, COLLATERAL_OUTPUT)
      ensures O.Received(true, old(output.events), o) && body == old(body).(collateralOutput := Some(o))
    {
      hide Stands, Receives, Size, Expected, WellFormed, Arrived, AtStage, PoolLinked, AuxDataLinked, StageOf, Next,
           Untouched, Finalised, O.OutputContext.Valid, M.MintContext.Valid, P.PoolContext.Valid,
           V.RegistrationContext.Valid, O.WellFormed, O.OutputCalls, O.Received, Flat, MintReady, B.HashedBytes;
      o := OpenedCollateralOutput();
      CollateralOutputReceived(CallFrame(), txPartCtx.body, body, log, o);
      CollateralOutputWellFormed(params.Setting(), body, o);
      stage := AT(COLLATERAL_OUTPUT);
      txPartCtx := BodyPart(txPartCtx.body.(collateralOutputReceived := true));
      body := body.(collateralOutput := Some(o));
      AdvanceStage();
    }

    lemma OpenedCollateralOutput() returns (o: O.Output)
      requires AtStage() && stage == COLLATERAL_OUTPUT_SUBMACHINE && output.state == O.FINISHED
      ensures O.Received(true, output.events, o)
      ensures O.WellFormed(true, o) && O.WellFormed(false, o)
      ensures Receiving(COLLATERAL_OUTPUT, Flat(CollateralCallWord, O.OutputCalls(o)))
    {
      hide Receives, O.OutputContext.Valid, O.WellFormed, O.OutputCalls, Flat, O.Received, B.HashedBytes;
      o := output.FinishedOutput();
    }

    method FinishPool() returns (ghost c: P.Certificate)
      requires Consistent() && stage == CERTIFICATES_POOL_SUBMACHINE && pool.state == P.FINISHED
      modifies this`stage, this`txPartCtx, this`log, this`body, this`stageContext, output, mint
      ensures Consistent() && stage == After(params, body, CERTIFICATES)
      ensures P.Received(params.Setting(), old(pool.events), c)
      ensures body == old(body).(certificates := old(body).certificates + [Pool(c)])
    {
      hide Stands, Receives, Size, Expected, WellFormed, Arrived, AtStage, PoolLinked, AuxDataLinked, StageOf, Next,
           Untouched, Finalised, O.OutputContext.Valid, M.MintContext.Valid, P.PoolContext.Valid,
           V.RegistrationContext.Valid, P.WellFormed, P.CertificateCalls, P.Received, Flat, MintReady, B.HashedBytes;
      c := OpenedPool();
      PoolReceived(CallFrame(), txPartCtx.body, body, log, c);
      CertificateWellFormed(params.Setting(), body, Pool(c));
      stage := AT(CERTIFICATES);
      PoolCertificateLinked(params, c, pool.poolOwnerPath);
      body := body.(certificates := body.certificates + [Pool(c)]);
      assert body.certificates == [Pool(c)];
      CountCertificate();
    }

    lemma OpenedPool() returns (c: P.Certificate)
      requires AtStage() && stage == CERTIFICATES_POOL_SUBMACHINE && pool.state == P.FINISHED
      ensures P.Received(params.Setting(), pool.events, c) && P.WellFormed(params.Setting(), c)
      ensures pool.poolOwnerPath == P.PathOwner(None, c.owners)
      ensures Receiving(CERTIFICATES, Flat(PoolCallWord, P.CertificateCalls(CallFrame().Env(), c)))
      ensures P.IsPoolMode(params.txSigningMode) && body.certificates == []
    {
      hide Receives, P.PoolContext.Valid, P.WellFormed, P.CertificateCalls, Flat, P.Received, B.HashedBytes;
      c := pool.FinishedCertificate();
      assert pool.Environment() == CallFrame().Env();
    }

    method FinishRegistration()
      requires Consistent() && stage == AUX_DATA_CVOTE_REGISTRATION_SUBMACHINE && registration.state == V.AT_FINISHED
      modifies this`stage, this`txPartCtx, this`stageContext, this`log, this`auxDataHash
      ensures Consistent() && stage == AT(INPUTS) && auxDataHash == registration.auxDataHash
      ensures Current() == Poll(old(Current()))
    {
      hide Stands, O.OutputContext.Valid, M.MintContext.Valid, P.PoolContext.Valid, V.RegistrationContext.Valid,
           Finalised, Receiving, WellFormed, PoolLinked, Poll, RegistrationOf, B.HashedBytes;
      ghost var before := Current();
      OpenRegistration();
      stage := AUX_DATA;
      txPartCtx := AuxDataPart(true);
      auxDataHash := registration.auxDataHash;
      LeaveAuxData();
      StandingEmpty();
      PolledRegistration(before);
    }

    // ------------------------------------------------------------ the state as a value

    ghost function ReceivedAux(): Aux
      reads this, registration
    {
      if stage in {INIT, AUX_DATA, AUX_DATA_CVOTE_REGISTRATION_SUBMACHINE} || !params.includeAuxData then NoAux
      else
        match givenAuxDataHash
        case Some(h) => GivenHash(h)
        case None =>
          match RegistrationOf(registration.events)
          case Some(r) => Registered(r)
          case None => NoAux
    }

    ghost function Working(): Part
      reads this, output, mint, pool, registration
    {
      match stage
      case AUX_DATA_CVOTE_REGISTRATION_SUBMACHINE => RegistrationPart(registration.Current(), registration.events)
      case OUTPUTS_SUBMACHINE => OutputPart(output.Current(), output.events)
      case COLLATERAL_OUTPUT_SUBMACHINE => OutputPart(output.Current(), output.events)
      case CERTIFICATES_POOL_SUBMACHINE => PoolPart(pool.Current(), pool.events)
      case MINT_SUBMACHINE => MintPart(mint.Current(), mint.events)
      case _ => Idle
    }

    ghost function Current(): State
      reads this, output, mint, pool, registration
    {
      State(stage, params, ReceivedAux(), body, Working(), Signers(witnesses))
    }

    /** The fields are consistent, and they are what the accepted requests have made of them. */
    ghost predicate Valid()
      reads this, output, mint, pool, registration, registration.builder
    {
      Consistent() && Run(pool.keyHashOf, START, requests) == Some(Current())
    }

    // ------------------------------------------------------------ polling the sub-machines

    predicate SubFinished()
      reads this, output, mint, pool, registration
    {
      match stage
      case AUX_DATA_CVOTE_REGISTRATION_SUBMACHINE => registration.state == V.AT_FINISHED
      case OUTPUTS_SUBMACHINE => output.state == O.FINISHED
      case CERTIFICATES_POOL_SUBMACHINE => pool.state == P.FINISHED
      case MINT_SUBMACHINE => mint.state == M.FINISHED
      case COLLATERAL_OUTPUT_SUBMACHINE => output.state == O.FINISHED
      case _ => false
    }

    lemma AfterIdle(p: Params, b: Body, k: nat)
      requires k < END
      ensures After(p, b, k).AT? || After(p, b, k) == CONFIRM
    {
      hide Size, Expected, B.HashedBytes;
    }

    /** What a finished sub-machine has received is what polling adds. */
    lemma PolledOutput(s: State, collateral: bool, o: O.Output)
      requires s.part.OutputPart? && s.part.output.phase == O.FINISHED
      requires s.stage == if collateral then COLLATERAL_OUTPUT_SUBMACHINE else OUTPUTS_SUBMACHINE
      requires O.Received(collateral, s.part.outputEvents, o)
      ensures !collateral ==> Poll(s) == Grown(s, OUTPUTS, s.body.(outputs := s.body.outputs + [o]))
      ensures collateral ==> Poll(s) == Grown(s, COLLATERAL_OUTPUT, s.body.(collateralOutput := Some(o)))
    {
      hide Poll, Grown, OutputOf, O.Received, B.HashedBytes;
      OutputOfReceived(collateral, s.part.outputEvents, o);
      if collateral { CollateralOutputPolled(s, o); } else { OutputPolled(s, o); }
    }

    lemma PolledPool(s: State, c: P.Certificate)
      requires s.part.PoolPart? && s.part.pool.phase == P.FINISHED
      requires P.Received(s.params.Setting(), s.part.poolEvents, c)
      ensures Poll(s) == Grown(s, CERTIFICATES, s.body.(certificates := s.body.certificates + [Pool(c)]))
    {
      hide Poll, Grown, CertificateOf, P.Received, B.HashedBytes;
      CertificateOfReceived(s.params.Setting(), s.part.poolEvents, c);
      PoolPolled(s, c);
    }

    lemma PolledMint(s: State, groups: seq<TokenBundle.Group>)
      requires s.part.MintPart? && s.part.mint.phase == M.FINISHED && M.Received(s.part.mintEvents, groups)
      ensures Poll(s) == Grown(s, MINT, s.body.(mint := Some(groups)))
    {
      hide Poll, Grown, GroupsOf, M.Received, B.HashedBytes;
      GroupsOfReceived(s.part.mintEvents, groups);
      MintPolled(s, groups);
    }

    /** checkForFinishedSubmachines: the main machine only finds out that a sub-machine has finished when the next
        request arrives. */
    method CheckForFinishedSubmachines()
      requires Consistent()
      modifies this`stage, this`txPartCtx, this`log, this`body, this`auxDataHash, this`stageContext, output, mint
      ensures Consistent() && Current() == Poll(old(Current()))
    {
      hide Consistent, Poll, Current, B.HashedBytes;
      if !SubFinished() {
        SubUnfinished();
        return;
      }
      match stage {
        case OUTPUTS_SUBMACHINE => PollOutputs();
        case COLLATERAL_OUTPUT_SUBMACHINE => PollOutputs();
        case CERTIFICATES_POOL_SUBMACHINE => PollCertificatesAndMint();
        case MINT_SUBMACHINE => PollCertificatesAndMint();
        case AUX_DATA_CVOTE_REGISTRATION_SUBMACHINE => FinishRegistration();
        case _ =>
      }
    }

    /** A finished output is added as polling says. */
    method PollOutputs()
      requires Consistent() && stage in {OUTPUTS_SUBMACHINE, COLLATERAL_OUTPUT_SUBMACHINE} && SubFinished()
      modifies this`stage, this`txPartCtx, this`log, this`body, this`stageContext, output, mint
      ensures Consistent() && Current() == Poll(old(Current()))
    {
      hide Consistent, After, Poll, RegistrationOf, O.Received, Signers, B.HashedBytes;
      ghost var before := Current();
      if stage == OUTPUTS_SUBMACHINE {
        ghost var o := FinishOutput();
        PolledOutput(before, false, o);
        AfterIdle(params, body, OUTPUTS);
      } else {
        ghost var o := FinishCollateralOutput();
        PolledOutput(before, true, o);
        AfterIdle(params, body, COLLATERAL_OUTPUT);
      }
    }

    /** A finished pool registration or mint is added as polling says. */
    method PollCertificatesAndMint()
      requires Consistent() && stage in {CERTIFICATES_POOL_SUBMACHINE, MINT_SUBMACHINE} && SubFinished()
      modifies this`stage, this`txPartCtx, this`log, this`body, this`stageContext, output, mint
      ensures Consistent() && Current() == Poll(old(Current()))
    {
      hide Consistent, After, Poll, RegistrationOf, M.Received, P.Received, Signers, B.HashedBytes;
      ghost var before := Current();
      if stage == MINT_SUBMACHINE {
        ghost var groups := FinishMint();
        PolledMint(before, groups);
        AfterIdle(params, body, MINT);
      } else {
        ghost var c := FinishPool();
        PolledPool(before, c);
        AfterIdle(params, body, CERTIFICATES);
      }
    }

    lemma SubUnfinished()
      requires !SubFinished()
      ensures Poll(Current()) == Current()
    {
      hide Poll, ReceivedAux, B.HashedBytes;
      NothingToPoll(Current());
    }

    lemma OpenRegistration()
      requires Consistent() && stage == AUX_DATA_CVOTE_REGISTRATION_SUBMACHINE
      ensures params.includeAuxData && givenAuxDataHash.None?
      ensures registration.state == V.AT_FINISHED ==> RegistrationOf(registration.events).Some?
    {
      hide WellFormed, PoolFacts, AuxDataFacts, V.Run, V.Received, B.HashedBytes;
      if registration.state == V.AT_FINISHED {
        V.FinishedRun(registration.events);
        var r :| V.Received(registration.events, r);
        RegistrationOfReceived(registration.events, r);
      }
    }

    lemma PolledRegistration(s: State)
      requires s.part.RegistrationPart? && s.part.registration.phase == V.AT_FINISHED
      requires RegistrationOf(s.part.registrationEvents).Some?
      ensures Poll(s) == s.(stage := AT(INPUTS), aux := Registered(RegistrationOf(s.part.registrationEvents).value),
                            part := Idle)
    {
    }

    // ------------------------------------------------------------ one request

    /** The handlers of the requests that bring one element of the body each. */
    method HandleOneElement(e: Element, allowed: bool) returns (ok: bool)
      requires Consistent()
      modifies this`stage, this`txPartCtx, this`log, this`body, this`stageContext, output, mint
      ensures ok <==> old(stage) == AT(SectionOf(e)) && allowed
                      && ElementAccepted(params.Setting(), old(body), e)
      ensures ok ==> Consistent() && body == Extended(old(body), e) && stage == After(params, body, SectionOf(e))
    {
      hide Consistent, InOrder, After, B.HashedBytes;
      match e {
        case InputElement(i) => ok := HandleInput(i, allowed);
        case FeeElement(n) => ok := HandleFee(n, allowed);
        case TtlElement(n) => ok := HandleTtl(n, allowed);
        case CertificateElement(c) => ok := HandleCertificate(c, allowed);
        case WithdrawalElement(w) => ok := HandleWithdrawal(w.account, w.amount, allowed);
        case ValidityIntervalStartElement(n) => ok := HandleValidityIntervalStart(n, allowed);
        case ScriptDataHashElement(h) => ok := HandleScriptDataHash(h, allowed);
        case CollateralInputElement(i) => ok := HandleCollateralInput(i, allowed);
        case RequiredSignerElement(h) => ok := HandleRequiredSigner(h, allowed);
        case TotalCollateralElement(n) => ok := HandleTotalCollateral(n, allowed);
        case ReferenceInputElement(i) => ok := HandleReferenceInput(i, allowed);
        case VotingProcedureElement(v) => ok := HandleVotingProcedure(v, allowed);
        case TreasuryElement(n) => ok := HandleTreasury(n, allowed);
        case DonationElement(n) => ok := HandleDonation(n, allowed);
      }
    }

    method HandleElement(e: Element, allowed: bool) returns (ok: bool)
      requires Consistent()
      modifies this`stage, this`txPartCtx, this`log, this`body, this`stageContext, output, mint
      ensures ok <==> HandledElement(old(Current()), e, allowed).Some?
      ensures ok ==> Consistent() && HandledElement(old(Current()), e, allowed) == Some(Current())
    {
      hide Consistent, ElementAccepted, After, RegistrationOf, Extended, SectionOf, B.HashedBytes;
      ok := HandleOneElement(e, allowed);
      if ok {
        AfterIdle(params, body, SectionOf(e));
      }
    }

    /** The requests of outputs. */
    method HandleOutputPart(r: TxRequest) returns (ok: bool)
      requires Consistent() && (r.OfOutput? || r.OfCollateralOutput?)
      modifies this`stage, this`log, this`stageContext, output
      ensures ok <==> HandledPart(pool.keyHashOf, old(Current()), r).Some?
      ensures ok ==> Consistent() && HandledPart(pool.keyHashOf, old(Current()), r) == Some(Current())
    {
      hide Consistent, O.Step, RegistrationOf, Signers, B.HashedBytes;
      if r.OfOutput? {
        ok := HandleOutputAPDU(r.outputPart);
      } else {
        ok := HandleCollateralOutputAPDU(r.collateralPart);
      }
    }

    /** The requests that a sub-machine handles. */
    method HandlePart(r: TxRequest) returns (ok: bool)
      requires Consistent()
      modifies this`stage, this`log, this`stageContext, output, mint, pool, registration, registration.builder
      ensures ok <==> HandledPart(pool.keyHashOf, old(Current()), r).Some?
      ensures ok ==> Consistent() && HandledPart(pool.keyHashOf, old(Current()), r) == Some(Current())
      ensures !r.OfRegistration? ==> unchanged(registration)
    {
      hide Consistent, M.Step, P.Step, V.Step, RegistrationOf, Signers, StepOutput, B.HashedBytes;
      match r {
        case OfRegistration(e) => ok := HandleRegistrationAPDU(e);
        case OfPool(e) => ok := HandlePoolAPDU(e);
        case OfMint(e) => ok := HandleMintAPDU(e);
        case OfOutput(_) => ok := HandleOutputPart(r);
        case OfCollateralOutput(_) => ok := HandleOutputPart(r);
        case _ => ok := false;
      }
    }

    /** The witness policy looks at the path kept while the certificate was received. */
    lemma OwnerPathKept(path: Bip44.Path, allowed: bool)
      requires Consistent() && stage == WITNESSES
      ensures WitnessAllowed(params.txSigningMode, path, pool.poolOwnerPath, allowed)
              <==> WitnessAllowed(params.txSigningMode, path, OwnerPath(body), allowed)
    {
      hide AuxDataLinked, Bip44.ClassifyPath, P.WellFormed, O.WellFormed, M.WellFormed, TokenBundle.Ascending,
           Accounts, P.PathOwner, BodyWord, AllSign, Progressed, B.HashedBytes;
      MatchesParams();
      if P.IsPoolMode(params.txSigningMode) {
        assert CertificateAccepted(params.Setting(), body.certificates[0]);
      }
    }

    lemma MatchesParams()
      requires AtStage() && stage in {WITNESSES, NONE}
      ensures Matches(params, body)
    {
      hide BodyWord, AllSign, Progressed, Matches, B.HashedBytes;
      CompleteBody(CallFrame(), body);
    }

    /** The requests before the body. */
    method HandleOpening(r: TxRequest, allowed: bool) returns (ok: bool)
      requires Consistent() && (r.InitRequest? || r.AuxDataHashRequest?)
      modifies this`stage, this`txPartCtx, this`log, this`params, this`auxDataHash, this`givenAuxDataHash,
               this`stageContext
      ensures ok <==> HandledControl(old(Current()), r, allowed).Some?
      ensures ok ==> Consistent() && HandledControl(old(Current()), r, allowed) == Some(Current())
      ensures ok ==> auxDataHash == if r.AuxDataHashRequest? then r.auxDataHash else old(auxDataHash)
    {
      hide Consistent, InitAccepted, Stored, RegistrationOf, V.RegistrationContext.Valid, B.HashedBytes;
      if r.InitRequest? {
        if stage == INIT { NothingReceived(); }
        ok := HandleInit(r.data, allowed);
      } else {
        if stage == AUX_DATA { AuxDataAwaited(); }
        ok := HandleAuxDataHash(r.auxDataHash, allowed);
      }
    }

    /** The requests that start the sub-machines for registrations. */
    method HandleStart(r: TxRequest, allowed: bool) returns (ok: bool)
      requires Consistent() && (r.RegistrationRequest? || r.PoolCertificateRequest?)
      modifies this`stage, this`stageContext, pool
      ensures ok <==> HandledControl(old(Current()), r, allowed).Some?
      ensures ok ==> Consistent() && HandledControl(old(Current()), r, allowed) == Some(Current())
    {
      hide Consistent, RegistrationOf, P.IsPoolMode, V.RegistrationContext.Valid, B.HashedBytes;
      if r.RegistrationRequest? {
        ok := HandleAuxDataRegistration(allowed);
        if ok { RegistrationFresh(); }
      } else {
        ok := HandlePoolCertificate();
      }
    }

    /** The requests after the body. */
    method HandleClosing(r: TxRequest, allowed: bool) returns (ok: bool)
      requires Consistent() && (r.ConfirmRequest? || r.WitnessRequest?)
      modifies this`stage, this`txPartCtx, this`txHash, this`witnesses
      ensures ok <==> HandledControl(old(Current()), r, allowed).Some?
      ensures ok ==> Consistent() && HandledControl(old(Current()), r, allowed) == Some(Current())
      ensures ok ==> witnesses == if r.WitnessRequest? then old(witnesses) + [Witness(r.path, sign(r.path, txHash))]
                                  else old(witnesses)
      ensures ok ==> txHash == if r.ConfirmRequest? then hashOf(B.HashedBytes(log)) else old(txHash)
    {
      hide Consistent, WitnessAllowed, RegistrationOf, Matches, OwnerPath, Signers, BodyWord, B.HashedBytes;
      if r.ConfirmRequest? {
        ok := HandleConfirm(allowed);
      } else {
        if stage == WITNESSES { OwnerPathKept(r.path, allowed); }
        ok := HandleWitness(r.path, allowed);
        if ok { SignersSnoc(old(witnesses), Witness(r.path, sign(r.path, txHash))); }
      }
    }

    /** The requests that open or close a part of the run. */
    method HandleControl(r: TxRequest, allowed: bool) returns (ok: bool)
      requires Consistent()
      modifies this`stage, this`txPartCtx, this`log, this`params, this`auxDataHash, this`givenAuxDataHash, this`txHash,
               this`witnesses, this`stageContext, pool
      ensures ok <==> HandledControl(old(Current()), r, allowed).Some?
      ensures ok ==> Consistent() && HandledControl(old(Current()), r, allowed) == Some(Current())
      ensures ok ==> witnesses == if r.WitnessRequest? then old(witnesses) + [Witness(r.path, sign(r.path, txHash))]
                                  else old(witnesses)
      ensures ok ==> txHash == if r.ConfirmRequest? then hashOf(B.HashedBytes(log)) else old(txHash)
      ensures ok ==> auxDataHash == if r.AuxDataHashRequest? then r.auxDataHash else old(auxDataHash)
    {
      hide Consistent, Current, HandledControl, B.HashedBytes;
      if r.InitRequest? || r.AuxDataHashRequest? {
        ok := HandleOpening(r, allowed);
      } else if r.RegistrationRequest? || r.PoolCertificateRequest? {
        ok := HandleStart(r, allowed);
      } else if r.ConfirmRequest? || r.WitnessRequest? {
        ok := HandleClosing(r, allowed);
      } else {
        OtherRequest(r, allowed);
        ok := false;
      }
    }

    lemma OtherRequest(r: TxRequest, allowed: bool)
      requires !r.InitRequest? && !r.AuxDataHashRequest? && !r.RegistrationRequest? && !r.PoolCertificateRequest?
      requires !r.ConfirmRequest? && !r.WitnessRequest?
      ensures HandledControl(Current(), r, allowed).None?
    {
    }

    lemma NothingReceived()
      requires Consistent() && stage == INIT
      ensures body == EMPTY
    {
    }

    lemma AuxDataAwaited()
      requires Consistent() && stage == AUX_DATA
      ensures params.includeAuxData
    {
    }

    lemma RegistrationFresh()
      requires registration.Valid() && registration.events == []
      ensures registration.Current() == V.START
    {
    }

    /** lookup_subhandler and the handlers: one request in a state in which no sub-machine has just finished. */
    method Handle(r: TxRequest, allowed: bool) returns (ok: bool)
      requires Consistent()
      modifies this`stage, this`txPartCtx, this`log, this`body, this`params, this`auxDataHash, this`givenAuxDataHash,
               this`txHash, this`witnesses, this`stageContext, output, mint, pool, registration, registration.builder
      ensures ok <==> Handled(pool.keyHashOf, old(Current()), r, allowed).Some?
      ensures ok ==> Consistent() && Handled(pool.keyHashOf, old(Current()), r, allowed) == Some(Current())
      ensures ok ==> witnesses == if r.WitnessRequest? then old(witnesses) + [Witness(r.path, sign(r.path, txHash))]
                                  else old(witnesses)
      ensures ok ==> txHash == if r.ConfirmRequest? then hashOf(B.HashedBytes(log)) else old(txHash)
      ensures ok ==> auxDataHash == if r.AuxDataHashRequest? then r.auxDataHash else old(auxDataHash)
    {
      hide Consistent, HandledElement, HandledPart, HandledControl, Current, B.HashedBytes;
      match r {
        case ElementRequest(e) => ok := HandleElement(e, allowed);
        case OfRegistration(_) => ok := HandlePart(r);
        case OfOutput(_) => ok := HandlePart(r);
        case OfPool(_) => ok := HandlePart(r);
        case OfMint(_) => ok := HandlePart(r);
        case OfCollateralOutput(_) => ok := HandlePart(r);
        case _ => ok := HandleControl(r, allowed);
      }
    }

    /** Records an accepted request. */
    ghost method Record(before: State, r: TxRequest, allowed: bool)
      requires Run(pool.keyHashOf, START, requests) == Some(before)
      requires Consistent() && Step(pool.keyHashOf, before, r, allowed) == Some(Current())
      modifies this`requests
      ensures Valid() && Current() == old(Current()) && requests == old(requests) + [r]
    {
      hide Run, Step, WellFormed, PoolLinked, AuxDataLinked, Stands, Receives, Progressed, BodyWord, AllSign, Size,
           Expected, Flat, RegistrationOf, O.OutputContext.Valid, M.MintContext.Valid, P.PoolContext.Valid,
           V.RegistrationContext.Valid, Signers, B.HashedBytes;
      AllowedAnyway(pool.keyHashOf, before, r, allowed);
      RunSnoc(pool.keyHashOf, START, requests, r);
      requests := requests + [r];
    }

    /** signTx_handleAPDU. A request is accepted exactly as the step function says, which gives the new state; what the
        builder has been called for is what this state stands for, and the rank decreases, so every run is finite. */
    method HandleAPDU(r: TxRequest, allowed: bool) returns (ok: bool)
      requires Valid()
      modifies Repr()
      ensures ok <==> Step(pool.keyHashOf, old(Current()), r, allowed).Some?
      ensures ok ==> Valid() && Step(pool.keyHashOf, old(Current()), r, allowed) == Some(Current())
      ensures ok ==> requests == old(requests) + [r] && log == LogOf(CallFrame(), Current())
      ensures ok ==> Rank(Current()) < Rank(old(Current()))
      ensures ok ==> witnesses == if r.WitnessRequest? then old(witnesses) + [Witness(r.path, sign(r.path, txHash))]
                                  else old(witnesses)
      ensures ok ==> txHash == if r.ConfirmRequest? then hashOf(B.HashedBytes(log)) else old(txHash)
      ensures ok && r.AuxDataHashRequest? ==> auxDataHash == r.auxDataHash
    {
      hide Consistent, Run, Poll, Handled, Current, LogOf, Rank, TxMachine.Invariant, CallFrame, B.HashedBytes;
      ghost var before := Current();
      StartKept(pool.keyHashOf);
      RunKept(pool.keyHashOf, START, requests);
      CheckForFinishedSubmachines();
      ok := Handle(r, allowed);
      if ok {
        StepDecreases(pool.keyHashOf, before, r, allowed);
        Record(before, r, allowed);
        LogIs();
      }
    }

    /** The log is that of the state. */
    lemma LogIs()
      requires Consistent()
      ensures log == LogOf(CallFrame(), Current())
    {
      hide WellFormed, PoolFacts, AuxDataFacts, Agrees, Progressed, LogUpTo, Flat, O.Run, M.Run, P.Run, V.Run,
           O.Invariant, M.Invariant, O.CallsForAll, M.CallsForAll, RegistrationOf, Size, Expected, B.HashedBytes;
    }

    // ------------------------------------------------------------ what is signed

    /** Everything that is signed in a run is the hash of the log, which is the word of the one transaction body that
        the accepted requests brought; this body has exactly the elements announced, and each of them is acceptable.
        */
    lemma SignedTransaction() returns (t: TxRun.Transaction)
      requires Valid() && (stage == WITNESSES || stage == NONE)
      ensures TxRun.Accepted(t) && body == t.body && params == Stored(t.init)
      ensures requests == TxRun.Requests(t) + ([ConfirmRequest] + TxRun.SignerRequests(Signers(witnesses)))
      ensures log == BodyWord(CallFrame(), t.body) && txHash == hashOf(B.HashedBytes(log))
      ensures forall i :: 0 <= i < |witnesses| ==> witnesses[i].signature == sign(witnesses[i].path, txHash)
      ensures |witnesses| <= params.numWitnesses
    {
      hide WellFormed, PoolLinked, AuxDataLinked, Progressed, BodyWord, Matches, Run, TxRun.Accepted, TxRun.Requests,
           TxRun.SignerRequests, Stored, Working, ReceivedAux, SignersAllowed, B.HashedBytes;
      t := TxRun.SignedTransactionOf(pool.keyHashOf, requests);
    }

    lemma SignedBody()
      requires Consistent() && (stage == WITNESSES || stage == NONE)
      ensures Matches(params, body) && WellFormed(params.Setting(), body) && log == BodyWord(CallFrame(), body)
    {
      hide WellFormed, PoolLinked, AuxDataLinked, Progressed, BodyWord, Matches, B.HashedBytes;
      MatchesParams();
    }

    /** No assertion of the transaction hash builder fails. The bytes that it hashes, over whose hash every signature is
        made, are the CBOR of the body, unless the body has a legacy output with a reference script: then they are not
        the CBOR of anything. */
    lemma SignedBytes()
      requires Valid() && (stage == WITNESSES || stage == NONE)
      ensures B.Run(B.BLANK, log).Some? && B.CanFinalize(B.Run(B.BLANK, log).value)
      ensures (exists i :: Cbor.Fits(i) && Cbor.Encode(i) == B.HashedBytes(log))
              <==> forall k :: 0 <= k < |body.outputs| ==> !TxItems.IsStray(body.outputs[k])
      ensures (forall k :: 0 <= k < |body.outputs| ==> !TxItems.IsStray(body.outputs[k])) ==>
              && Matches(params, body) && Cbor.Fits(TxItems.BodyItem(CallFrame(), body))
              && txHash == hashOf(Cbor.Encode(TxItems.BodyItem(CallFrame(), body)))
    {
      hide Consistent, WellFormed, BodyWord, Matches, Run, Current, Cbor.Encode, Cbor.Fits, TxItems.BodyItem,
           TxItems.IsStray, B.CanFinalize, B.Run, B.HashedBytes;
      SignedHash();
      SignedBody();
      TxBytes.BodyBytes(B.BLANK, CallFrame(), body);
      TxBytes.HashedItem(CallFrame(), body);
    }

    lemma SignedHash()
      requires Consistent() && (stage == WITNESSES || stage == NONE)
      ensures txHash == hashOf(B.HashedBytes(log))
    {
      hide WellFormed, PoolLinked, AuxDataLinked, Progressed, BodyWord, Matches, B.HashedBytes;
    }

    /** No other body that the same init request announces stands for what is signed, but for keys given by path
        in one and by hash in the other, and addresses given as such in one and by parameters in the other. */
    lemma SignedBodyUnique(other: Body)
      requires Valid() && (stage == WITNESSES || stage == NONE)
      requires Matches(params, other) && WellFormed(params.Setting(), other) && BodyWord(CallFrame(), other) == log
      ensures TxUnique.Known(CallFrame().Env(), other) == TxUnique.Known(CallFrame().Env(), body)
    {
      hide Consistent, WellFormed, BodyWord, Matches, TxUnique.Known, Run, Current, B.HashedBytes;
      SignedBody();
      TxUnique.WordDeterminesBody(CallFrame(), other, body);
    }

    /** No other transaction has the bytes over whose hash the signatures are made: its body, whatever its init request,
        has the content of the body that was received. */
    lemma SignedContent(f: Frame, other: Body)
      requires Valid() && (stage == WITNESSES || stage == NONE) && TxContent.Encodable(body)
      requires TxItems.Whole(f, other) && TxContent.Encodable(other)
      requires B.HashedBytes(BodyWord(f, other)) == B.HashedBytes(log)
      ensures TxContent.Content(f.Env(), other) == TxContent.Content(CallFrame().Env(), body)
    {
      hide Consistent, WellFormed, BodyWord, Matches, TxContent.Content, TxContent.Encodable, Run, Current,
           B.HashedBytes;
      SignedBody();
      TxContent.BytesDetermineBody(f, other, CallFrame(), body);
    }

    /** Nothing is signed before the hash has been computed. */
    lemma NothingSignedBefore()
      requires Valid() && stage != WITNESSES && stage != NONE
      ensures witnesses == []
    {
      hide Run, Current, B.HashedBytes;
    }

    /** In owner mode every signature is made with the path of the one owner given by path in the one
        certificate; if no owner is given by path nothing is signed. */
    lemma OwnerModeSignatures(certificate: P.Certificate, i: nat)
      requires Valid() && stage in {WITNESSES, NONE} && params.txSigningMode == P.POOL_REGISTRATION_OWNER
      requires body.certificates == [Pool(certificate)]
      ensures i < |certificate.owners| && certificate.owners[i].ByPath? ==>
              && (forall j :: 0 <= j < |witnesses| ==> witnesses[j].path == certificate.owners[i].path)
              && (forall j :: 0 <= j < |certificate.owners| && certificate.owners[j].ByPath? ==> j == i)
      ensures (forall j :: 0 <= j < |certificate.owners| ==> certificate.owners[j].ByHash?) ==> witnesses == []
    {
      hide P.OwnerAccepted, Run, Current, B.HashedBytes;
      assert CertificateAccepted(params.Setting(), body.certificates[0]);
      if i < |certificate.owners| && certificate.owners[i].ByPath? {
        P.OneOwnerByPath(params.txSigningMode, None, certificate.owners, i);
      }
      if forall j :: 0 <= j < |certificate.owners| ==> certificate.owners[j].ByHash? {
        P.NoOwnerByPath(None, certificate.owners);
        FirstSigner(params, body.certificates, pool.poolOwnerPath, witnesses);
      }
    }

    /** The one certificate of owner mode is a pool registration. */
    lemma OwnerModeCertificate() returns (certificate: P.Certificate)
      requires Valid() && stage in {WITNESSES, NONE} && P.IsPoolMode(params.txSigningMode)
      ensures body.certificates == [Pool(certificate)] && P.WellFormed(params.Setting(), certificate)
    {
      hide P.WellFormed, Run, Current, B.HashedBytes;
      SignedBody();
      certificate := body.certificates[0].certificate;
    }

    /** A transaction that is signed in a pool mode has one certificate, a pool registration, and nothing else for which
        its signatures could stand: no withdrawal, mint, collateral, required signer, vote, treasury or donation. */
    lemma PoolModeBody()
      requires Valid() && stage in {WITNESSES, NONE}
      requires params.txSigningMode in {P.POOL_REGISTRATION_OWNER, P.POOL_REGISTRATION_OPERATOR}
      ensures exists c :: body.certificates == [Pool(c)]
      ensures body.withdrawals == [] && body.mint == None && body.scriptDataHash == None
      ensures body.collateralInputs == [] && body.requiredSigners == [] && body.collateralOutput == None
      ensures body.totalCollateral == None && body.referenceInputs == [] && body.votingProcedures == []
      ensures body.treasury == None && body.donation == None
    {
      hide Consistent, Run;
      TxRun.SignedInNumbers(pool.keyHashOf, requests);
      assert body.certificates[0] in body.certificates;
      assert body.certificates == [Pool(body.certificates[0].certificate)];
    }

    /** A transaction that is signed in ordinary or multisig mode has no collateral, no reference inputs and no pool
        registration. */
    lemma OrdinaryModeBody()
      requires Valid() && stage in {WITNESSES, NONE} && params.txSigningMode in {P.ORDINARY_TX, P.MULTISIG_TX}
      ensures body.collateralInputs == [] && body.collateralOutput == None && body.totalCollateral == None
      ensures body.referenceInputs == [] && forall c :: c in body.certificates ==> c.Plain?
    {
      hide Consistent, Run;
      TxRun.SignedInNumbers(pool.keyHashOf, requests);
    }

    /** In the pool modes every signature is made with the path of a stake key, or with that of a payment key or of a
        pool cold key; Bip44.ClassesInNumbers and Bip44.OtherClassesInNumbers say which paths these are. */
    lemma PoolModeSignatures()
      requires Valid() && stage in {WITNESSES, NONE}
      ensures params.txSigningMode == P.POOL_REGISTRATION_OWNER ==>
              forall w :: w in witnesses ==> Bip44.ClassifyPath(w.path) == Bip44.PathOrdinaryStakingKey
      ensures params.txSigningMode == P.POOL_REGISTRATION_OPERATOR ==>
              forall w :: w in witnesses ==>
                Bip44.ClassifyPath(w.path) in {Bip44.PathOrdinaryPaymentKey, Bip44.PathPoolColdKey}
    {
      hide Consistent, Run, Bip44.ClassifyPath, OwnerPath;
      var _ := TxRun.SignedTransactionOf(pool.keyHashOf, requests);
      forall w | w in witnesses
        ensures WitnessAllowed(params.txSigningMode, w.path, OwnerPath(body), true)
      {
        var i :| 0 <= i < |witnesses| && witnesses[i] == w;
        SignersAt(witnesses, i);
      }
    }

    /** Once something may be signed and no legacy output has a reference script, an independent reader of the bytes
        over whose hash all signatures are made finds the body that was received, with keys by their hashes. */
    lemma SignedDocument()
      requires Valid() && (stage == WITNESSES || stage == NONE) && TxContent.Encodable(body)
      ensures txHash == hashOf(B.HashedBytes(log))
      ensures TxReader.ReadTransaction(B.HashedBytes(log)) == Some(TxContent.DocumentOf(CallFrame(), body))
    {
      hide Consistent, WellFormed, BodyWord, Matches, TxContent.DocumentOf, TxContent.Encodable, Run, Current,
           B.HashedBytes, TxReader.ReadTransaction;
      SignedHash();
      SignedBody();
      TxContent.BytesRead(CallFrame(), body);
    }

    /** Once the auxiliary data have been received, their hash is the one that was given, or that of the bytes of the
        registration received, signed with its staking key; the accepted requests say which. */
    lemma AuxDataSigned()
      requires Valid() && stage !in {INIT, AUX_DATA, AUX_DATA_CVOTE_REGISTRATION_SUBMACHINE} && params.includeAuxData
      ensures match Current().aux
              case NoAux => false
              case GivenHash(h) => auxDataHash == h
              case Registered(r) => auxDataHash == SignedRegistrationHash(r)
    {
      hide V.RegistrationContext.Valid, WellFormed, PoolLinked, AtStage, Run, AuxData.Events, AuxData.WellFormed,
           Cbor.Encode, RegistrationOf, AuxData.PayloadItem, AuxData.AuxiliaryItem, B.HashedBytes;
      if givenAuxDataHash.None? {
        registration.FinishedRegistration();
        var r :| V.Received(registration.events, r) && auxDataHash == SignedRegistrationHash(r);
        RegistrationOfReceived(registration.events, r);
      }
    }

    /** The hash of the auxiliary data of a registration. */
    ghost function SignedRegistrationHash(r: AuxData.Registration): Hash32 {
      if !AuxData.WellFormed(r) then seq(32, _ => 0)
      else
        var payload := Cbor.Encode(AuxData.PayloadItem(registration.pubKeyOf, r));
        var signature := registration.sign(r.stakingPath, registration.hash(payload));
        registration.hash(Cbor.Encode(AuxData.AuxiliaryItem(registration.pubKeyOf, r, signature)))
    }
  }
}
