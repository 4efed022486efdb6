/** Transaction bodies: what the init request fixes, the sections in their order, and the word of hash-builder
    calls that a body stands for. */
module TxBody {
  import opened Basics
  import Bip44
  import TokenBundle
  import TxMint
  import TxOutput
  import TxPool

  type Hash32 = TxPool.Hash32
  type KeyHash = TxPool.KeyHash
  type Account = TxPool.Account
  type SigningMode = TxPool.SigningMode
  type Setting = TxPool.Setting

  /** What the init request fixes, with the counts as they are stored: in 16 bits. */
  datatype Params = Params(
    tagCborSets: bool, networkId: uint8, protocolMagic: uint32, txSigningMode: SigningMode,
    numInputs: uint16, numOutputs: uint16, includeTtl: bool, numCertificates: uint16, numWithdrawals: uint16,
    includeAuxData: bool, includeValidityIntervalStart: bool, includeMint: bool, includeScriptDataHash: bool,
    numCollateralInputs: uint16, numRequiredSigners: uint16, includeNetworkId: bool, includeCollateralOutput: bool,
    includeTotalCollateral: bool, numReferenceInputs: uint16, numVotingProcedures: uint16,
    includeTreasury: bool, includeDonation: bool, numWitnesses: uint16)
  {
    function Setting(): Setting {
      TxPool.Setting(txSigningMode, networkId)
    }
  }

  datatype Input = Input(txHash: Hash32, index: uint32)

  datatype Withdrawal = Withdrawal(account: Account, amount: uint64)

  datatype Credential = KeyCredential(keyHash: KeyHash) | ScriptCredential(scriptHash: KeyHash)

  datatype DRep = DRepKey(keyHash: KeyHash) | DRepScript(scriptHash: KeyHash) | ALWAYS_ABSTAIN | ALWAYS_NO_CONFIDENCE

  const ANCHOR_URL_LENGTH_MAX := 128

  type Url = s: seq<byte> | |s| <= ANCHOR_URL_LENGTH_MAX witness []

  datatype Anchor = Anchor(url: Url, hash: Hash32)

  /** A certificate other than a pool registration, as its builder call receives it. */
  datatype PlainCertificate =
    | StakeRegistration(stake: Credential) | StakeDeregistration(stake: Credential)
    | StakeRegistrationConway(stake: Credential, deposit: uint64)
    | StakeDeregistrationConway(stake: Credential, deposit: uint64)
    | StakeDelegation(stake: Credential, poolKeyHash: KeyHash) | VoteDelegation(stake: Credential, drep: DRep)
    | AuthorizeCommitteeHot(cold: Credential, hot: Credential)
    | ResignCommitteeCold(cold: Credential, anchor: Option<Anchor>)
    | DRepRegistration(drepCredential: Credential, deposit: uint64, anchor: Option<Anchor>)
    | DRepDeregistration(drepCredential: Credential, deposit: uint64)
    | DRepUpdate(drepCredential: Credential, anchor: Option<Anchor>)
    | PoolRetirement(poolKeyHash: KeyHash, epoch: uint64)

  datatype Certificate = Plain(plain: PlainCertificate) | Pool(certificate: TxPool.Certificate)

  datatype VoterType =
    | COMMITTEE_HOT_KEY_HASH | COMMITTEE_HOT_SCRIPT_HASH | DREP_KEY_HASH | DREP_SCRIPT_HASH | STAKE_POOL_KEY_HASH

  datatype Vote = VOTE_NO | VOTE_YES | VOTE_ABSTAIN

  /** One voter with one vote on one governance action. */
  datatype VotingProcedure = VotingProcedure(
    voterType: VoterType, voterHash: KeyHash, actionTxHash: Hash32, actionIndex: uint32, vote: Vote,
    anchor: Option<Anchor>)

  datatype Body = Body(
    inputs: seq<Input>, outputs: seq<TxOutput.Output>, fee: Option<uint64>, ttl: Option<uint64>,
    certificates: seq<Certificate>, withdrawals: seq<Withdrawal>, validityIntervalStart: Option<uint64>,
    mint: Option<seq<TokenBundle.Group>>, scriptDataHash: Option<Hash32>, collateralInputs: seq<Input>,
    requiredSigners: seq<KeyHash>, collateralOutput: Option<TxOutput.Output>, totalCollateral: Option<uint64>,
    referenceInputs: seq<Input>, votingProcedures: seq<VotingProcedure>, treasury: Option<uint64>,
    donation: Option<uint64>)

  const EMPTY := Body([], [], None, None, [], [], None, None, None, [], [], None, None, [], [], None, None)

  /** The calls of the transaction hash builder. */
  datatype Call =
    | InitBuilder(params: Params)
    | EnterInputs(n: nat) | AddInput(input: Input)
    | EnterOutputs(n: nat) | OnOutput(output: TxOutput.OutputCall)
    | AddFee(amount: uint64) | AddTtl(slot: uint64)
    | EnterCertificates(n: nat) | AddCertificate(certificate: PlainCertificate) | OnPool(pool: TxPool.PoolCall)
    | EnterWithdrawals(n: nat) | AddWithdrawal(account: Account, amount: uint64)
    | AddAuxData(hash: Hash32) | AddValidityIntervalStart(slot: uint64)
    | EnterMint | OnMint(mint: TxMint.MintCall)
    | AddScriptDataHash(hash: Hash32)
    | EnterCollateralInputs(n: nat) | AddCollateralInput(input: Input)
    | EnterRequiredSigners(n: nat) | AddRequiredSigner(keyHash: KeyHash)
    | AddNetworkId(networkId: uint8)
    | OnCollateralOutput(output: TxOutput.OutputCall) | AddTotalCollateral(amount: uint64)
    | EnterReferenceInputs(n: nat) | AddReferenceInput(input: Input)
    | EnterVotingProcedures(n: nat) | AddVotingProcedure(procedure: VotingProcedure)
    | AddTreasury(amount: uint64) | AddDonation(amount: uint64)

  // ------------------------------------------------------------ words

  /** The words of the elements of a list, one after the other. */
  function Flat<A, B>(word: A -> seq<B>, s: seq<A>): seq<B> {
    if s == [] then [] else Flat(word, s[..|s| - 1]) + word(s[|s| - 1])
  }

  lemma FlatSnoc<A, B>(word: A -> seq<B>, s: seq<A>, x: A)
    ensures Flat(word, s + [x]) == Flat(word, s) + word(x)
  {
    assert (s + [x])[..|s|] == s;
  }

  lemma {:induction false} FlatAppend<A, B>(word: A -> seq<B>, s: seq<A>, t: seq<A>)
    ensures Flat(word, s + t) == Flat(word, s) + Flat(word, t)
  {
    if t == [] {
      assert s + t == s;
    } else {
      var n := |t| - 1;
      FlatAppend(word, s, t[..n]);
      assert s + t == (s + t[..n]) + [t[n]];
      FlatSnoc(word, s + t[..n], t[n]);
    }
  }

  lemma FlatPrepend<A, B>(word: A -> seq<B>, x: A, s: seq<A>)
    ensures Flat(word, [x] + s) == word(x) + Flat(word, s)
  {
    FlatAppend(word, [x], s);
    assert Flat(word, [x]) == Flat(word, []) + word(x) by {
      FlatSnoc(word, [], x);
      assert [] + [x] == [x];
    }
  }

  function InputWord(i: Input): seq<Call> { [AddInput(i)] }

  function CollateralInputWord(i: Input): seq<Call> { [AddCollateralInput(i)] }

  function ReferenceInputWord(i: Input): seq<Call> { [AddReferenceInput(i)] }

  function WithdrawalWord(w: Withdrawal): seq<Call> { [AddWithdrawal(w.account, w.amount)] }

  function SignerWord(h: KeyHash): seq<Call> { [AddRequiredSigner(h)] }

  function VotingWord(v: VotingProcedure): seq<Call> { [AddVotingProcedure(v)] }

  function OutputCallWord(c: TxOutput.OutputCall): seq<Call> { [OnOutput(c)] }

  function CollateralCallWord(c: TxOutput.OutputCall): seq<Call> { [OnCollateralOutput(c)] }

  function MintCallWord(c: TxMint.MintCall): seq<Call> { [OnMint(c)] }

  function PoolCallWord(c: TxPool.PoolCall): seq<Call> { [OnPool(c)] }

  function OutputWord(o: TxOutput.Output): seq<Call> {
    if TxOutput.WellFormed(false, o) then Flat(OutputCallWord, TxOutput.OutputCalls(o)) else []
  }

  function CollateralOutputWord(o: TxOutput.Output): seq<Call> {
    if TxOutput.WellFormed(false, o) then Flat(CollateralCallWord, TxOutput.OutputCalls(o)) else []
  }

  function MintWord(groups: seq<TokenBundle.Group>): seq<Call> {
    if TxMint.WellFormed(groups) then Flat(MintCallWord, TxMint.MintCalls(groups)) else []
  }

  /** What the words depend on besides the body: the parameters, the hash of the auxiliary data and the
      derivation of key hashes. */
  datatype Frame = Frame(params: Params, auxDataHash: Hash32, keyHashOf: Bip44.Path -> KeyHash) {
    function Env(): TxPool.Env {
      TxPool.Env(params.Setting(), keyHashOf)
    }
  }

  function CertificateWord(env: TxPool.Env, c: Certificate): seq<Call> {
    match c
    case Plain(p) => [AddCertificate(p)]
    case Pool(p) =>
      if |p.owners| < TWO_16 && |p.relays| < TWO_16
      then Flat(PoolCallWord, TxPool.CertificateCalls(env, p)) else []
  }

  function CertificatesWord(env: TxPool.Env, cs: seq<Certificate>): seq<Call> {
    if cs == [] then []
    else CertificatesWord(env, cs[..|cs| - 1]) + CertificateWord(env, cs[|cs| - 1])
  }

  lemma CertificatesSnoc(env: TxPool.Env, cs: seq<Certificate>, c: Certificate)
    ensures CertificatesWord(env, cs + [c]) == CertificatesWord(env, cs) + CertificateWord(env, c)
  {
    assert (cs + [c])[..|cs|] == cs;
  }

  lemma {:induction false} CertificatesFlat(env: TxPool.Env, word: Certificate -> seq<Call>, cs: seq<Certificate>)
    requires forall c :: word(c) == CertificateWord(env, c)
    ensures CertificatesWord(env, cs) == Flat(word, cs)
  {
    hide CertificateWord;
    if cs != [] {
      CertificatesFlat(env, word, cs[..|cs| - 1]);
    }
  }

  function If(b: bool, c: Call): seq<Call> {
    if b then [c] else []
  }

  // ------------------------------------------------------------ sections

  /** The sections that wait for requests, in their order. */
  const INPUTS := 0
  const OUTPUTS := 1
  const FEE := 2
  const TTL := 3
  const CERTIFICATES := 4
  const WITHDRAWALS := 5
  const VALIDITY_INTERVAL := 6
  const MINT := 7
  const SCRIPT_DATA_HASH := 8
  const COLLATERAL_INPUTS := 9
  const REQUIRED_SIGNERS := 10
  const COLLATERAL_OUTPUT := 11
  const TOTAL_COLLATERAL := 12
  const REFERENCE_INPUTS := 13
  const VOTING_PROCEDURES := 14
  const TREASURY := 15
  const DONATION := 16
  const END := 17

  /** What is logged on entering a section. The hash of the auxiliary data goes in on leaving the withdrawals,
      the network id on leaving the required signers. */
  function SectionStart(f: Frame, k: nat): seq<Call> {
    var p := f.params;
    if k == INPUTS then [EnterInputs(p.numInputs)]
    else if k == OUTPUTS then [EnterOutputs(p.numOutputs)]
    else if k == CERTIFICATES then If(p.numCertificates > 0, EnterCertificates(p.numCertificates))
    else if k == WITHDRAWALS then If(p.numWithdrawals > 0, EnterWithdrawals(p.numWithdrawals))
    else if k == VALIDITY_INTERVAL then If(p.includeAuxData, AddAuxData(f.auxDataHash))
    else if k == MINT then If(p.includeMint, EnterMint)
    else if k == COLLATERAL_INPUTS then If(p.numCollateralInputs > 0, EnterCollateralInputs(p.numCollateralInputs))
    else if k == REQUIRED_SIGNERS then If(p.numRequiredSigners > 0, EnterRequiredSigners(p.numRequiredSigners))
    else if k == COLLATERAL_OUTPUT then If(p.includeNetworkId, AddNetworkId(p.networkId))
    else if k == REFERENCE_INPUTS then If(p.numReferenceInputs > 0, EnterReferenceInputs(p.numReferenceInputs))
    else if k == VOTING_PROCEDURES then If(p.numVotingProcedures > 0, EnterVotingProcedures(p.numVotingProcedures))
    else []
  }

  /** What the elements received in a section add. */
  function SectionItems(f: Frame, b: Body, k: nat): seq<Call> {
    if k == INPUTS then Flat(InputWord, b.inputs)
    else if k == OUTPUTS then Flat(OutputWord, b.outputs)
    else if k == FEE then (if b.fee.Some? then [AddFee(b.fee.value)] else [])
    else if k == TTL then (if b.ttl.Some? then [AddTtl(b.ttl.value)] else [])
    else if k == CERTIFICATES then CertificatesWord(f.Env(), b.certificates)
    else if k == WITHDRAWALS then Flat(WithdrawalWord, b.withdrawals)
    else if k == VALIDITY_INTERVAL then
      (if b.validityIntervalStart.Some? then [AddValidityIntervalStart(b.validityIntervalStart.value)] else [])
    else if k == MINT then (if b.mint.Some? then MintWord(b.mint.value) else [])
    else if k == SCRIPT_DATA_HASH then
      (if b.scriptDataHash.Some? then [AddScriptDataHash(b.scriptDataHash.value)] else [])
    else if k == COLLATERAL_INPUTS then Flat(CollateralInputWord, b.collateralInputs)
    else if k == REQUIRED_SIGNERS then Flat(SignerWord, b.requiredSigners)
    else if k == COLLATERAL_OUTPUT then
      (if b.collateralOutput.Some? then CollateralOutputWord(b.collateralOutput.value) else [])
    else if k == TOTAL_COLLATERAL then
      (if b.totalCollateral.Some? then [AddTotalCollateral(b.totalCollateral.value)] else [])
    else if k == REFERENCE_INPUTS then Flat(ReferenceInputWord, b.referenceInputs)
    else if k == VOTING_PROCEDURES then Flat(VotingWord, b.votingProcedures)
    else if k == TREASURY then (if b.treasury.Some? then [AddTreasury(b.treasury.value)] else [])
    else if k == DONATION then (if b.donation.Some? then [AddDonation(b.donation.value)] else [])
    else []
  }

  /** The log up to and with section k. */
  function LogUpTo(f: Frame, b: Body, k: nat): seq<Call> {
    (if k == 0 then [InitBuilder(f.params)] else LogUpTo(f, b, k - 1)) + SectionStart(f, k) + SectionItems(f, b, k)
  }

  /** How many elements section k expects, an optional element counting as one. */
  function Expected(p: Params, k: nat): nat {
    if k == INPUTS then p.numInputs else if k == OUTPUTS then p.numOutputs else if k == FEE then 1
    else if k == TTL then One(p.includeTtl) else if k == CERTIFICATES then p.numCertificates
    else if k == WITHDRAWALS then p.numWithdrawals
    else if k == VALIDITY_INTERVAL then One(p.includeValidityIntervalStart)
    else if k == MINT then One(p.includeMint) else if k == SCRIPT_DATA_HASH then One(p.includeScriptDataHash)
    else if k == COLLATERAL_INPUTS then p.numCollateralInputs
    else if k == REQUIRED_SIGNERS then p.numRequiredSigners
    else if k == COLLATERAL_OUTPUT then One(p.includeCollateralOutput)
    else if k == TOTAL_COLLATERAL then One(p.includeTotalCollateral)
    else if k == REFERENCE_INPUTS then p.numReferenceInputs
    else if k == VOTING_PROCEDURES then p.numVotingProcedures
    else if k == TREASURY then One(p.includeTreasury) else if k == DONATION then One(p.includeDonation)
    else 0
  }

  function One(b: bool): nat {
    if b then 1 else 0
  }

  /** How many elements of section k a body has. */
  function Size(b: Body, k: nat): nat {
    if k == INPUTS then |b.inputs| else if k == OUTPUTS then |b.outputs| else if k == FEE then One(b.fee.Some?)
    else if k == TTL then One(b.ttl.Some?) else if k == CERTIFICATES then |b.certificates|
    else if k == WITHDRAWALS then |b.withdrawals|
    else if k == VALIDITY_INTERVAL then One(b.validityIntervalStart.Some?)
    else if k == MINT then One(b.mint.Some?) else if k == SCRIPT_DATA_HASH then One(b.scriptDataHash.Some?)
    else if k == COLLATERAL_INPUTS then |b.collateralInputs|
    else if k == REQUIRED_SIGNERS then |b.requiredSigners|
    else if k == COLLATERAL_OUTPUT then One(b.collateralOutput.Some?)
    else if k == TOTAL_COLLATERAL then One(b.totalCollateral.Some?)
    else if k == REFERENCE_INPUTS then |b.referenceInputs|
    else if k == VOTING_PROCEDURES then |b.votingProcedures|
    else if k == TREASURY then One(b.treasury.Some?) else if k == DONATION then One(b.donation.Some?)
    else 0
  }

  /** The sections before k are complete and those after it are empty. */
  predicate Progressed(p: Params, b: Body, k: nat) {
    && (forall j :: 0 <= j < k ==> Size(b, j) == Expected(p, j))
    && (forall j :: k < j < END ==> Size(b, j) == 0)
  }

  /** The next section that waits for a request, or the end. */
  function Next(p: Params, k: nat): (n: nat)
    requires k < END
    ensures k < n <= END
    ensures n < END ==> Expected(p, n) > 0
    ensures forall j :: k < j < n ==> Expected(p, j) == 0
    decreases END - k
  {
    if k + 1 == END || Expected(p, k + 1) > 0 then k + 1 else Next(p, k + 1)
  }

  lemma EmptySection(f: Frame, b: Body, k: nat)
    requires Size(b, k) == 0
    ensures SectionItems(f, b, k) == []
  {
  }

  lemma LogNext(f: Frame, b: Body, k: nat)
    requires Size(b, k + 1) == 0
    ensures LogUpTo(f, b, k + 1) == LogUpTo(f, b, k) + SectionStart(f, k + 1)
  {
    hide SectionStart, SectionItems;
    EmptySection(f, b, k + 1);
  }

  /** Only the section of the new element changes in the log. */
  lemma {:induction false} LogSame(f: Frame, b: Body, c: Body, k: nat)
    requires forall j :: 0 <= j <= k ==> SectionItems(f, b, j) == SectionItems(f, c, j)
    ensures LogUpTo(f, b, k) == LogUpTo(f, c, k)
  {
    hide SectionStart, SectionItems;
    if k > 0 {
      LogSame(f, b, c, k - 1);
    }
  }

  lemma LogExtended(f: Frame, b: Body, c: Body, k: nat, word: seq<Call>)
    requires forall j :: 0 <= j < k ==> SectionItems(f, b, j) == SectionItems(f, c, j)
    requires SectionItems(f, c, k) == SectionItems(f, b, k) + word
    ensures LogUpTo(f, c, k) == LogUpTo(f, b, k) + word
  {
    hide SectionStart, SectionItems;
    if k > 0 {
      LogSame(f, b, c, k - 1);
    }
  }

  /** The two bodies differ in section k at most. */
  predicate SameExcept(b: Body, c: Body, k: nat) {
    && (k == INPUTS || b.inputs == c.inputs) && (k == OUTPUTS || b.outputs == c.outputs)
    && (k == FEE || b.fee == c.fee) && (k == TTL || b.ttl == c.ttl)
    && (k == CERTIFICATES || b.certificates == c.certificates) && (k == WITHDRAWALS || b.withdrawals == c.withdrawals)
    && (k == VALIDITY_INTERVAL || b.validityIntervalStart == c.validityIntervalStart) && (k == MINT || b.mint == c.mint)
    && (k == SCRIPT_DATA_HASH || b.scriptDataHash == c.scriptDataHash)
    && (k == COLLATERAL_INPUTS || b.collateralInputs == c.collateralInputs)
    && (k == REQUIRED_SIGNERS || b.requiredSigners == c.requiredSigners)
    && (k == COLLATERAL_OUTPUT || b.collateralOutput == c.collateralOutput)
    && (k == TOTAL_COLLATERAL || b.totalCollateral == c.totalCollateral)
    && (k == REFERENCE_INPUTS || b.referenceInputs == c.referenceInputs)
    && (k == VOTING_PROCEDURES || b.votingProcedures == c.votingProcedures)
    && (k == TREASURY || b.treasury == c.treasury) && (k == DONATION || b.donation == c.donation)
  }

  lemma SameElsewhere(f: Frame, b: Body, c: Body, k: nat, j: nat)
    requires SameExcept(b, c, k) && j != k
    ensures SectionItems(f, b, j) == SectionItems(f, c, j) && Size(b, j) == Size(c, j)
  {
  }

  /** An element received in section k adds its word to the log. */
  lemma Added(f: Frame, b: Body, c: Body, k: nat, word: seq<Call>)
    requires SameExcept(b, c, k) && SectionItems(f, c, k) == SectionItems(f, b, k) + word
    requires Progressed(f.params, b, k)
    ensures Progressed(f.params, c, k) && LogUpTo(f, c, k) == LogUpTo(f, b, k) + word
  {
    hide SectionItems, Size, SameExcept, LogUpTo;
    forall j: nat | j != k
      ensures SectionItems(f, b, j) == SectionItems(f, c, j) && Size(b, j) == Size(c, j)
    {
      SameElsewhere(f, b, c, k, j);
    }
    LogExtended(f, b, c, k, word);
  }

  /** Asset names of up to 32 bytes, links of up to 128 and paths of up to five elements can occur in a body. */
  lemma SizesInNumbers(name: seq<byte>, url: seq<byte>, path: seq<uint32>)
      returns (n: TokenBundle.AssetName, u: Url, p: Bip44.Path)
    requires |name| <= 32 && |url| <= 128 && |path| <= 5
    ensures n == name && u == url && p == path
  {
    n, u, p := name, url, path;
  }

  // ------------------------------------------------------------ the labels of inputs

  const UI_INPUT_LABEL_SIZE := 20
  const INPUT_PREFIX := "Input"
  const COLLATERAL_PREFIX := "Collat. input"
  const REFERENCE_PREFIX := "Refer. input"

  /** How many collateral and reference inputs can be labelled. */
  const COLLATERAL_LABELS := 1000
  const REFERENCE_LABELS := 10000

  function Decimal(n: nat): string {
    if n < 10 then ['0' + n as char] else Decimal(n / 10) + ['0' + (n % 10) as char]
  }

  /** The text that constructInputLabel prints. */
  function InputLabel(prefix: string, index: nat): string {
    prefix + " #" + Decimal(index)
  }

  /** The assertion of constructInputLabel: a label of 19 characters would fit its buffer, but is taken for one that has
      been cut. */
  predicate LabelFits(prefix: string, index: nat) {
    |InputLabel(prefix, index)| + 1 < UI_INPUT_LABEL_SIZE
  }

  lemma DecimalLength(n: nat)
    requires n < 100000
    ensures |Decimal(n)|
         == if n < 10 then 1 else if n < 100 then 2 else if n < 1000 then 3 else if n < 10000 then 4 else 5
  {
    assert |Decimal(n)| == if n < 10 then 1 else |Decimal(n / 10)| + 1;
    assert |Decimal(n / 10)| == if n < 100 then 1 else |Decimal(n / 100)| + 1;
    assert |Decimal(n / 100)| == if n < 1000 then 1 else |Decimal(n / 1000)| + 1;
    assert |Decimal(n / 1000)| == if n < 10000 then 1 else |Decimal(n / 10000)| + 1;
  }

  /** Every index of an input can be shown; that of a collateral input exactly if it is below 1000, and that of a
      reference input exactly if it is below 10000. */
  lemma LabelsFit(index: uint16)
    ensures LabelFits(INPUT_PREFIX, index)
    ensures LabelFits(COLLATERAL_PREFIX, index) <==> index < 1000
    ensures LabelFits(REFERENCE_PREFIX, index) <==> index < 10000
  {
    hide Decimal;
    DecimalLength(index);
  }

  // ------------------------------------------------------------ whole bodies

  function Accounts(ws: seq<Withdrawal>): (s: seq<seq<byte>>)
    ensures |s| == |ws| && forall i :: 0 <= i < |s| ==> s[i] == ws[i].account
  {
    if ws == [] then [] else Accounts(ws[..|ws| - 1]) + [ws[|ws| - 1].account]
  }

  predicate CertificateAccepted(g: Setting, c: Certificate) {
    match c
    case Plain(_) => !TxPool.IsPoolMode(g.mode)
    case Pool(p) => TxPool.WellFormed(g, p)
  }

  /** Every element is one that its section accepts; in particular reward accounts, policy ids and asset names
      are in canonical order, and the labels of collateral and reference inputs fit their screens. */
  predicate WellFormed(g: Setting, b: Body) {
    && (forall i :: 0 <= i < |b.outputs| ==> TxOutput.WellFormed(false, b.outputs[i]))
    && (forall i :: 0 <= i < |b.certificates| ==> CertificateAccepted(g, b.certificates[i]))
    && TokenBundle.Ascending(None, Accounts(b.withdrawals))
    && (b.mint.Some? ==> TxMint.WellFormed(b.mint.value))
    && |b.collateralInputs| <= COLLATERAL_LABELS && |b.referenceInputs| <= REFERENCE_LABELS
    && (b.collateralOutput.Some? ==> TxOutput.WellFormed(true, b.collateralOutput.value))
    && (b.donation.Some? ==> b.donation.value > 0)
  }

  /** The conditions on a whole body in numbers. */
  lemma BodyInNumbers(g: Setting, b: Body)
    ensures WellFormed(g, b)
       <==> && (forall i :: 0 <= i < |b.outputs| ==> TxOutput.WellFormed(false, b.outputs[i]))
            && (forall i :: 0 <= i < |b.certificates| ==> CertificateAccepted(g, b.certificates[i]))
            && (forall i, j :: 0 <= i < j < |b.withdrawals| ==>
                  TokenBundle.Precedes(b.withdrawals[i].account, b.withdrawals[j].account))
            && (b.mint.Some? ==> 0 < |b.mint.value| < 65536 && TokenBundle.GroupsAccepted(None, b.mint.value))
            && |b.collateralInputs| <= 1000 && |b.referenceInputs| <= 10000
            && (b.collateralOutput.Some? ==> TxOutput.WellFormed(true, b.collateralOutput.value))
            && (b.donation.Some? ==> b.donation.value >= 1)
  {
    hide TxOutput.WellFormed, CertificateAccepted, TokenBundle.Ascending, TokenBundle.Precedes,
         TokenBundle.GroupsAccepted;
    var accounts := Accounts(b.withdrawals);
    TokenBundle.AscendingInWords(accounts);
    forall i, j | 0 <= i < j < |accounts|
      ensures TokenBundle.Precedes(accounts[i], accounts[j])
         <==> TokenBundle.Precedes(b.withdrawals[i].account, b.withdrawals[j].account)
    {
    }
  }

  /** What makes a body well-formed does not depend on its other sections. */
  lemma StillWellFormed(g: Setting, b: Body, c: Body)
    requires WellFormed(g, b)
    requires b.outputs == c.outputs && b.certificates == c.certificates && b.withdrawals == c.withdrawals
    requires b.mint == c.mint && b.collateralOutput == c.collateralOutput
    requires b.collateralInputs == c.collateralInputs || |c.collateralInputs| <= COLLATERAL_LABELS
    requires b.referenceInputs == c.referenceInputs || |c.referenceInputs| <= REFERENCE_LABELS
    requires b.donation == c.donation || (c.donation.Some? && c.donation.value > 0)
    ensures WellFormed(g, c)
  {
  }

  /** The body has exactly what the init request announced. */
  predicate Matches(p: Params, b: Body) {
    && |b.inputs| == p.numInputs && |b.outputs| == p.numOutputs && b.fee.Some?
    && b.ttl.Some? == p.includeTtl && |b.certificates| == p.numCertificates && |b.withdrawals| == p.numWithdrawals
    && b.validityIntervalStart.Some? == p.includeValidityIntervalStart && b.mint.Some? == p.includeMint
    && b.scriptDataHash.Some? == p.includeScriptDataHash && |b.collateralInputs| == p.numCollateralInputs
    && |b.requiredSigners| == p.numRequiredSigners && b.collateralOutput.Some? == p.includeCollateralOutput
    && b.totalCollateral.Some? == p.includeTotalCollateral && |b.referenceInputs| == p.numReferenceInputs
    && |b.votingProcedures| == p.numVotingProcedures && b.treasury.Some? == p.includeTreasury
    && b.donation.Some? == p.includeDonation
  }

  /** The word that the init request and the elements of a body stand for, section after section. */
  function BodyWord(f: Frame, b: Body): seq<Call> {
    LogUpTo(f, b, END)
  }

  lemma CompleteBody(f: Frame, b: Body)
    requires Progressed(f.params, b, END)
    ensures Matches(f.params, b)
  {
    var p := f.params;
    assert Size(b, 0) == Expected(p, 0) && Size(b, 1) == Expected(p, 1) && Size(b, 2) == Expected(p, 2);
    assert Size(b, 3) == Expected(p, 3) && Size(b, 4) == Expected(p, 4) && Size(b, 5) == Expected(p, 5);
    assert Size(b, 6) == Expected(p, 6) && Size(b, 7) == Expected(p, 7) && Size(b, 8) == Expected(p, 8);
    assert Size(b, 9) == Expected(p, 9) && Size(b, 10) == Expected(p, 10) && Size(b, 11) == Expected(p, 11);
    assert Size(b, 12) == Expected(p, 12) && Size(b, 13) == Expected(p, 13) && Size(b, 14) == Expected(p, 14);
    assert Size(b, 15) == Expected(p, 15) && Size(b, 16) == Expected(p, 16);
  }
}
