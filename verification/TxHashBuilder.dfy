/** The transaction hash builder as a step function: which calls it lets through, and the bytes that it hashes. A call
    that fails an assertion has no next state. */
module TxHashBuilder {
  import opened Basics
  import opened Cbor
  import TokenBundle
  import M = TxMint
  import O = TxOutput
  import P = TxPool
  import opened TxBody

  const CBOR_TAG_EMBEDDED_CBOR_BYTE_STRING := 24
  const CBOR_TAG_UNIT_INTERVAL := 30
  const CBOR_TAG_SET := 258

  // ------------------------------------------------------------ the entries of the body

  /** The entries of the body map in their order. Two of them are not sections that wait for requests. */
  const IN_INPUTS := 0
  const IN_OUTPUTS := 1
  const IN_FEE := 2
  const IN_TTL := 3
  const IN_CERTIFICATES := 4
  const IN_WITHDRAWALS := 5
  const IN_AUX_DATA := 6
  const IN_VALIDITY_INTERVAL_START := 7
  const IN_MINT := 8
  const IN_SCRIPT_DATA_HASH := 9
  const IN_COLLATERAL_INPUTS := 10
  const IN_REQUIRED_SIGNERS := 11
  const IN_NETWORK_ID := 12
  const IN_COLLATERAL_OUTPUT := 13
  const IN_TOTAL_COLLATERAL := 14
  const IN_REFERENCE_INPUTS := 15
  const IN_VOTING_PROCEDURES := 16
  const IN_TREASURY := 17
  const IN_DONATION := 18
  const ENTRIES := 19

  /** The key of an entry: proposals and updates, which have keys of their own, are not supported. */
  function Key(e: nat): (k: nat)
    requires e < ENTRIES
    ensures k < 24
  {
    if e <= IN_WITHDRAWALS then e
    else if e <= IN_MINT then e + 1
    else if e == IN_SCRIPT_DATA_HASH then 11
    else if e <= IN_VOTING_PROCEDURES then e + 3
    else e + 4
  }

  /** How many elements an entry still waits for; a fee and the elements of one request count as one. */
  function Remaining(p: Params, e: nat): uint16 {
    if e == IN_INPUTS then p.numInputs else if e == IN_OUTPUTS then p.numOutputs else if e == IN_FEE then 1
    else if e == IN_TTL then One(p.includeTtl) else if e == IN_CERTIFICATES then p.numCertificates
    else if e == IN_WITHDRAWALS then p.numWithdrawals else if e == IN_AUX_DATA then One(p.includeAuxData)
    else if e == IN_VALIDITY_INTERVAL_START then One(p.includeValidityIntervalStart)
    else if e == IN_MINT then One(p.includeMint) else if e == IN_SCRIPT_DATA_HASH then One(p.includeScriptDataHash)
    else if e == IN_COLLATERAL_INPUTS then p.numCollateralInputs
    else if e == IN_REQUIRED_SIGNERS then p.numRequiredSigners
    else if e == IN_NETWORK_ID then One(p.includeNetworkId)
    else if e == IN_COLLATERAL_OUTPUT then One(p.includeCollateralOutput)
    else if e == IN_TOTAL_COLLATERAL then One(p.includeTotalCollateral)
    else if e == IN_REFERENCE_INPUTS then p.numReferenceInputs
    else if e == IN_VOTING_PROCEDURES then p.numVotingProcedures
    else if e == IN_TREASURY then One(p.includeTreasury) else if e == IN_DONATION then One(p.includeDonation)
    else 0
  }

  /** The entries that are lists. */
  predicate IsList(e: nat) {
    e in {IN_INPUTS, IN_OUTPUTS, IN_CERTIFICATES, IN_WITHDRAWALS, IN_COLLATERAL_INPUTS, IN_REQUIRED_SIGNERS,
          IN_REFERENCE_INPUTS, IN_VOTING_PROCEDURES}
  }

  /** The counters of the builder, by entry. */
  type Counters = s: seq<uint16> | |s| == ENTRIES witness seq(19, _ => 0)

  function InitialCounters(p: Params): (c: Counters)
    ensures forall e :: 0 <= e < ENTRIES ==> c[e] == Remaining(p, e)
  {
    seq(ENTRIES, e requires 0 <= e => Remaining(p, e))
  }

  /** The size of the body map. */
  function NumItems(p: Params): (n: nat)
    ensures 3 <= n <= ENTRIES
  {
    3 + One(p.includeTtl) + One(p.numCertificates > 0) + One(p.numWithdrawals > 0) + One(p.includeAuxData)
    + One(p.includeValidityIntervalStart) + One(p.includeMint) + One(p.includeScriptDataHash)
    + One(p.numCollateralInputs > 0) + One(p.numRequiredSigners > 0) + One(p.includeNetworkId)
    + One(p.includeCollateralOutput) + One(p.includeTotalCollateral) + One(p.numReferenceInputs > 0)
    + One(p.numVotingProcedures > 0) + One(p.includeTreasury) + One(p.includeDonation)
  }

  // ------------------------------------------------------------ the states

  datatype PoolPhase =
    | POOL_INIT | POOL_KEY_HASH | POOL_VRF | POOL_FINANCIALS | POOL_REWARD_ACCOUNT | POOL_OWNERS | POOL_RELAYS

  datatype Phase = BUILDER_INIT | IN(entry: nat) | IN_POOL(part: PoolPhase)

  datatype OutputPhase = OUTPUT_INIT | TOP_LEVEL_DATA | ASSET_GROUP | DATUM_HASH | DATUM_INLINE | SCRIPT_CHUNKS

  /** The union within the data of an output: the member that was written last. A call that would read another member
      is refused here; the theorems show that no such call is made for a body. */
  datatype Inner =
    | Multiasset(remainingAssetGroups: uint16, remainingTokens: uint16)
    | DatumData(datumBytes: uint32)
    | ScriptData(scriptBytes: uint32)

  /** The union of the data of an output or a mint and those of a pool registration. */
  datatype Data =
    | OutputData(outputState: OutputPhase, format: O.Format, includeDatum: bool, includeRefScript: bool, inner: Inner)
    | PoolCertificateData(remainingOwners: uint16, remainingRelays: uint16)

  /** tx_hash_builder_t: what is still expected, and the bytes hashed so far. */
  datatype State = State(phase: Phase, tagCborSets: bool, left: Counters, data: Data, hashed: seq<byte>) {
    /** One element less is expected. */
    function Less(e: nat): State
      requires e < ENTRIES && left[e] > 0
    {
      this.(left := left[e := left[e] - 1])
    }
  }

  const NO_OUTPUT := OutputData(OUTPUT_INIT, O.ARRAY_LEGACY, false, false, Multiasset(0, 0))

  /** txHashBuilder_init, in a context that has been filled with zeros. */
  function Initialized(p: Params): State {
    State(BUILDER_INIT, p.tagCborSets, InitialCounters(p), NO_OUTPUT, Head(Map, NumItems(p)))
  }

  function Appended(s: State, bytes: seq<byte>): State {
    s.(hashed := s.hashed + bytes)
  }

  /** assertCanLeaveCurrentOutput */
  predicate CanLeaveCurrentOutput(d: Data) {
    d.OutputData?
    && match d.outputState
       case OUTPUT_INIT =>
         d.inner.Multiasset? && d.inner.remainingAssetGroups == 0 && !d.includeDatum && !d.includeRefScript
       case TOP_LEVEL_DATA =>
         d.inner.Multiasset? && d.inner.remainingAssetGroups == 0 && !d.includeDatum && !d.includeRefScript
       case ASSET_GROUP => d.inner == Multiasset(0, 0) && !d.includeDatum && !d.includeRefScript
       case DATUM_HASH => !d.includeRefScript
       case DATUM_INLINE => d.inner == DatumData(0) && !d.includeRefScript
       case SCRIPT_CHUNKS => d.inner == ScriptData(0)
  }

  /** What is asserted of an entry that has been entered. */
  predicate Complete(s: State, e: nat)
    requires e < ENTRIES
  {
    if e == IN_OUTPUTS then s.left[IN_OUTPUTS] == 0 && CanLeaveCurrentOutput(s.data)
    else if e == IN_COLLATERAL_OUTPUT then CanLeaveCurrentOutput(s.data)
    else if e == IN_MINT then
      s.data.OutputData? && s.data.outputState == ASSET_GROUP && s.data.inner == Multiasset(0, 0)
    else IsList(e) ==> s.left[e] == 0
  }

  /** The functions assertCanLeave...: an entry that has not been entered must not be expected, and the one before it
      is asked. The first three entries are always there. */
  predicate CanLeave(s: State, e: nat)
    requires e < ENTRIES
    decreases e
  {
    if s.phase == IN(e) then Complete(s, e)
    else e > IN_FEE && s.left[e] == 0 && CanLeave(s, e - 1)
  }

  /** Moves on to an entry and writes its key. */
  function Enter(s: State, e: nat): Option<State>
    requires 0 < e < ENTRIES
  {
    if !CanLeave(s, e - 1) then None
    else Some(Appended(s, Head(Unsigned, Key(e))).(phase := IN(e)))
  }

  function SetTag(tagCborSets: bool): seq<byte> {
    if tagCborSets then Head(Tag, CBOR_TAG_SET) else []
  }

  /** An entry with one value. Only the last two are not checked to be expected. */
  function AddValue(s: State, e: nat, bytes: seq<byte>): Option<State>
    requires 0 < e < ENTRIES
  {
    if s.left[e] == 0 && e != IN_TREASURY && e != IN_DONATION then None
    else
      match Enter(s, e)
      case None => None
      case Some(t) => Some(Appended(t, bytes))
  }

  /** An entry with a list, which must not be empty. */
  function EnterList(s: State, e: nat, head: seq<byte>): Option<State>
    requires 0 < e < ENTRIES
  {
    if s.left[e] == 0 then None
    else
      match Enter(s, e)
      case None => None
      case Some(t) => Some(Appended(t, head))
  }

  /** An element of a list. */
  function AddElement(s: State, e: nat, bytes: seq<byte>): Option<State>
    requires IsList(e) && e < ENTRIES
  {
    if s.phase != IN(e) || s.left[e] == 0 then None
    else Some(Appended(s.Less(e), bytes))
  }

  // ------------------------------------------------------------ what is written

  function BytesToken(b: seq<byte>): seq<byte>
    requires |b| < TWO_64
  {
    Head(Bytes, |b|) + b
  }

  function TextToken(b: seq<byte>): seq<byte>
    requires |b| < TWO_64
  {
    Head(Text, |b|) + b
  }

  /** cbor_append_txInput */
  function InputBytes(i: Input): seq<byte> {
    Head(Array, 2) + BytesToken(i.txHash) + Head(Unsigned, i.index)
  }

  function WithdrawalBytes(w: Withdrawal): seq<byte> {
    BytesToken(w.account) + Head(Unsigned, w.amount)
  }

  function CredentialBytes(c: Credential): seq<byte> {
    match c
    case KeyCredential(h) => Head(Array, 2) + Head(Unsigned, 0) + BytesToken(h)
    case ScriptCredential(h) => Head(Array, 2) + Head(Unsigned, 1) + BytesToken(h)
  }

  function DRepBytes(d: DRep): seq<byte> {
    match d
    case DRepKey(h) => Head(Array, 2) + Head(Unsigned, 0) + BytesToken(h)
    case DRepScript(h) => Head(Array, 2) + Head(Unsigned, 1) + BytesToken(h)
    case ALWAYS_ABSTAIN => Head(Array, 1) + Head(Unsigned, 2)
    case ALWAYS_NO_CONFIDENCE => Head(Array, 1) + Head(Unsigned, 3)
  }

  function AnchorBytes(a: Option<Anchor>): seq<byte> {
    match a
    case None => [NULL_BYTE]
    case Some(x) => Head(Array, 2) + TextToken(x.url) + BytesToken(x.hash)
  }

  function PlainCertificateBytes(c: PlainCertificate): seq<byte> {
    match c
    case StakeRegistration(k) => Head(Array, 2) + Head(Unsigned, 0) + CredentialBytes(k)
    case StakeDeregistration(k) => Head(Array, 2) + Head(Unsigned, 1) + CredentialBytes(k)
    case StakeRegistrationConway(k, n) =>
      Head(Array, 3) + Head(Unsigned, 7) + CredentialBytes(k) + Head(Unsigned, n)
    case StakeDeregistrationConway(k, n) =>
      Head(Array, 3) + Head(Unsigned, 8) + CredentialBytes(k) + Head(Unsigned, n)
    case StakeDelegation(k, h) => Head(Array, 3) + Head(Unsigned, 2) + CredentialBytes(k) + BytesToken(h)
    case VoteDelegation(k, d) => Head(Array, 3) + Head(Unsigned, 9) + CredentialBytes(k) + DRepBytes(d)
    case AuthorizeCommitteeHot(k, h) => Head(Array, 3) + Head(Unsigned, 14) + CredentialBytes(k) + CredentialBytes(h)
    case ResignCommitteeCold(k, a) => Head(Array, 3) + Head(Unsigned, 15) + CredentialBytes(k) + AnchorBytes(a)
    case DRepRegistration(k, n, a) =>
      Head(Array, 4) + Head(Unsigned, 16) + CredentialBytes(k) + Head(Unsigned, n) + AnchorBytes(a)
    case DRepDeregistration(k, n) => Head(Array, 3) + Head(Unsigned, 17) + CredentialBytes(k) + Head(Unsigned, n)
    case DRepUpdate(k, a) => Head(Array, 3) + Head(Unsigned, 18) + CredentialBytes(k) + AnchorBytes(a)
    case PoolRetirement(h, n) => Head(Array, 3) + Head(Unsigned, 4) + BytesToken(h) + Head(Unsigned, n)
  }

  function VoterCode(t: VoterType): uint64 {
    match t
    case COMMITTEE_HOT_KEY_HASH => 0
    case COMMITTEE_HOT_SCRIPT_HASH => 1
    case DREP_KEY_HASH => 2
    case DREP_SCRIPT_HASH => 3
    case STAKE_POOL_KEY_HASH => 4
  }

  function VoteCode(v: Vote): uint64 {
    match v
    case VOTE_NO => 0
    case VOTE_YES => 1
    case VOTE_ABSTAIN => 2
  }

  /** The voter and, for a single vote, a map from the action to the vote. */
  function VotingBytes(v: VotingProcedure): seq<byte> {
    Head(Array, 2) + Head(Unsigned, VoterCode(v.voterType)) + BytesToken(v.voterHash)
    + (Head(Map, 1) + (Head(Array, 2) + BytesToken(v.actionTxHash) + Head(Unsigned, v.actionIndex))
       + (Head(Array, 2) + Head(Unsigned, VoteCode(v.vote)) + AnchorBytes(v.anchor)))
  }

  function ValueHead(top: O.TopLevelData): seq<byte> {
    if Narrow16(top.numAssetGroups) == 0 then Head(Unsigned, top.amount)
    else Head(Array, 2) + Head(Unsigned, top.amount) + Head(Map, Narrow16(top.numAssetGroups))
  }

  /** cbor_append_txOutput_array, cbor_append_txOutput_map */
  function TopLevelBytes(top: O.TopLevelData): seq<byte>
    requires |top.destination.address| < TWO_64
  {
    match top.format
    case ARRAY_LEGACY =>
      Head(Array, 2 + One(top.includeDatum)) + BytesToken(top.destination.address) + ValueHead(top)
    case MAP_BABBAGE =>
      Head(Map, 2 + One(top.includeDatum) + One(top.includeRefScript)) + Head(Unsigned, 0)
      + BytesToken(top.destination.address) + Head(Unsigned, 1) + ValueHead(top)
  }

  /** The low 64 bits of an amount, unsigned. */
  function UnsignedAmount(n: TokenBundle.Amount): uint64 {
    n % TWO_64
  }

  function SignedAmount(n: TokenBundle.Amount): seq<byte> {
    if n < 0 then Head(Negative, -1 - n) else Head(Unsigned, n)
  }

  /** What is written before a datum in the later format. */
  function DatumKey(f: O.Format, kind: uint64): seq<byte> {
    if f == O.MAP_BABBAGE then Head(Unsigned, 2) + Head(Array, 2) + Head(Unsigned, kind) else []
  }

  function FinancialsBytes(f: P.Financials): seq<byte> {
    Head(Unsigned, f.pledge) + Head(Unsigned, f.cost)
    + (Head(Tag, CBOR_TAG_UNIT_INTERVAL)
       + (Head(Array, 2) + Head(Unsigned, f.marginNumerator) + Head(Unsigned, f.marginDenominator)))
  }

  function PortBytes(port: Option<uint16>): seq<byte> {
    match port
    case None => [NULL_BYTE]
    case Some(n) => Head(Unsigned, n)
  }

  const IPV4_SIZE := 4
  const IPV6_SIZE := 16

  function Ipv4Bytes(ip: Option<seq<byte>>): seq<byte> {
    match ip
    case None => [NULL_BYTE]
    case Some(b) => Head(Bytes, IPV4_SIZE) + b
  }

  /** The four words of an address, each with its bytes in reverse: the devices read them with the least significant
      byte first and they are written with the most significant one first. */
  function SwappedWords(b: seq<byte>): (s: seq<byte>)
    requires |b| == IPV6_SIZE
    ensures |s| == IPV6_SIZE
  {
    [b[3], b[2], b[1], b[0], b[7], b[6], b[5], b[4], b[11], b[10], b[9], b[8], b[15], b[14], b[13], b[12]]
  }

  function Ipv6Bytes(ip: Option<seq<byte>>): seq<byte>
    requires ip.Some? ==> |ip.value| == IPV6_SIZE
  {
    match ip
    case None => [NULL_BYTE]
    case Some(b) => Head(Bytes, IPV6_SIZE) + SwappedWords(b)
  }

  /** The sizes that the parser of a relay has made sure of. */
  predicate RelaySizes(r: P.Relay) {
    match r
    case SingleHostIp(_, ipv4, ipv6) =>
      (ipv4.Some? ==> |ipv4.value| == IPV4_SIZE) && (ipv6.Some? ==> |ipv6.value| == IPV6_SIZE)
    case SingleHostName(_, name) => |name| <= P.DNS_NAME_SIZE_MAX
    case MultipleHostName(name) => |name| <= P.DNS_NAME_SIZE_MAX
  }

  function RelayBytes(r: P.Relay): seq<byte>
    requires RelaySizes(r)
  {
    match r
    case SingleHostIp(port, ipv4, ipv6) =>
      Head(Array, 4) + Head(Unsigned, 0) + PortBytes(port) + Ipv4Bytes(ipv4) + Ipv6Bytes(ipv6)
    case SingleHostName(port, name) => Head(Array, 3) + Head(Unsigned, 1) + PortBytes(port) + TextToken(name)
    case MultipleHostName(name) => Head(Array, 2) + Head(Unsigned, 2) + TextToken(name)
  }

  function MetadataBytes(m: Option<P.PoolMetadata>): seq<byte>
    requires m.Some? ==> |m.value.url| < TWO_64
  {
    match m
    case None => [NULL_BYTE]
    case Some(x) => Head(Array, 2) + TextToken(x.url) + BytesToken(x.hash)
  }

  // ------------------------------------------------------------ outputs and mint

  /** processOutputTopLevel. The counter of tokens is not read before it is written. */
  function AddTopLevelData(s: State, top: O.TopLevelData): Option<State> {
    if |top.destination.address| >= O.BUFFER_SIZE_PARANOIA then None
    else
      Some(Appended(s, TopLevelBytes(top)).(
             data := OutputData(TOP_LEVEL_DATA, top.format, top.includeDatum, top.includeRefScript,
                                Multiasset(Narrow16(top.numAssetGroups), 0))))
  }

  /** addTokenGroup */
  function AddTokenGroup(s: State, policyId: TokenBundle.PolicyId, numTokens: uint16): Option<State> {
    var d := s.data;
    if !d.OutputData? || !d.inner.Multiasset? then None
    else if !(d.outputState == TOP_LEVEL_DATA || (d.outputState == ASSET_GROUP && d.inner.remainingTokens == 0))
    then None
    else if d.inner.remainingAssetGroups == 0 || numTokens == 0 then None
    else
      Some(Appended(s, BytesToken(policyId) + Head(Map, numTokens)).(
             data := d.(outputState := ASSET_GROUP, inner := Multiasset(d.inner.remainingAssetGroups - 1, numTokens))))
  }

  /** addToken, with the amount as it is written. */
  function AddToken(s: State, name: TokenBundle.AssetName, amount: seq<byte>): Option<State> {
    var d := s.data;
    if !d.OutputData? || d.outputState != ASSET_GROUP || !d.inner.Multiasset? || d.inner.remainingTokens == 0 then None
    else
      Some(Appended(s, BytesToken(name) + amount).(
             data := d.(inner := d.inner.(remainingTokens := d.inner.remainingTokens - 1))))
  }

  /** No groups and no tokens are left. */
  predicate TokensDone(d: Data) {
    d.OutputData?
    && ((d.outputState == TOP_LEVEL_DATA && d.inner.Multiasset? && d.inner.remainingAssetGroups == 0)
        || (d.outputState == ASSET_GROUP && d.inner == Multiasset(0, 0)))
  }

  /** txHashBuilder_addOutput_datum */
  function AddDatum(s: State, inline: bool, size: uint32, bytes: seq<byte>): Option<State> {
    var d := s.data;
    if !TokensDone(d) || !d.includeDatum then None
    else if inline && (d.format != O.MAP_BABBAGE || size >= O.BUFFER_SIZE_PARANOIA) then None
    else
      Some(Appended(s, DatumKey(d.format, if inline then 1 else 0) + bytes).(
             data := d.(outputState := if inline then DATUM_INLINE else DATUM_HASH, inner := DatumData(size))))
  }

  /** txHashBuilder_addOutput_datum_inline_chunk */
  function AddDatumChunk(s: State, chunk: seq<byte>): Option<State> {
    var d := s.data;
    if !d.OutputData? || d.outputState != DATUM_INLINE || !d.inner.DatumData? || |chunk| > d.inner.datumBytes then None
    else Some(Appended(s, chunk).(data := d.(inner := DatumData(d.inner.datumBytes - |chunk|))))
  }

  predicate DatumDone(d: Data) {
    d.OutputData? && (d.outputState == DATUM_HASH || (d.outputState == DATUM_INLINE && d.inner == DatumData(0)))
  }

  /** txHashBuilder_addOutput_referenceScript: the format of the output does not matter. */
  function AddReferenceScript(s: State, size: uint32): Option<State> {
    var d := s.data;
    if !(TokensDone(d) || DatumDone(d)) || !d.includeRefScript then None
    else
      Some(Appended(s, Head(Unsigned, 3) + Head(Tag, CBOR_TAG_EMBEDDED_CBOR_BYTE_STRING) + Head(Bytes, size)).(
             data := d.(outputState := SCRIPT_CHUNKS, inner := ScriptData(size))))
  }

  /** txHashBuilder_addOutput_referenceScript_dataChunk */
  function AddScriptChunk(s: State, chunk: seq<byte>): Option<State> {
    var d := s.data;
    if !d.OutputData? || d.outputState != SCRIPT_CHUNKS || !d.inner.ScriptData? || |chunk| > d.inner.scriptBytes
    then None
    else Some(Appended(s, chunk).(data := d.(inner := ScriptData(d.inner.scriptBytes - |chunk|))))
  }

  /** The calls for the parts of an output after its top level data. Tokens are asserted to come in entry e. */
  function OutputPart(s: State, e: nat, c: O.OutputCall): Option<State> {
    match c
    case AddTopLevel(_) => None
    case AddTokenGroup(id, n) => if s.phase != IN(e) then None else AddTokenGroup(s, id, Narrow16(n))
    case AddToken(name, n) => if s.phase != IN(e) then None else AddToken(s, name, Head(Unsigned, UnsignedAmount(n)))
    case AddDatumHash(h) => AddDatum(s, false, |h|, BytesToken(h))
    case AddInlineDatum(n) => AddDatum(s, true, n, Head(Tag, CBOR_TAG_EMBEDDED_CBOR_BYTE_STRING) + Head(Bytes, n))
    case AddDatumChunk(c) => AddDatumChunk(s, c)
    case AddRefScript(n) => AddReferenceScript(s, n)
    case AddRefScriptChunk(c) => AddScriptChunk(s, c)
  }

  function OnOutputCall(s: State, c: O.OutputCall): Option<State> {
    if !c.AddTopLevel? then OutputPart(s, IN_OUTPUTS, c)
    else if s.phase != IN(IN_OUTPUTS) || s.left[IN_OUTPUTS] == 0 || !CanLeaveCurrentOutput(s.data) then None
    else AddTopLevelData(s.Less(IN_OUTPUTS), c.top)
  }

  function OnCollateralOutputCall(s: State, c: O.OutputCall): Option<State> {
    if !c.AddTopLevel? then OutputPart(s, IN_COLLATERAL_OUTPUT, c)
    else if s.left[IN_COLLATERAL_OUTPUT] == 0 then None
    else
      match Enter(s, IN_COLLATERAL_OUTPUT)
      case None => None
      case Some(t) => AddTopLevelData(t, c.top)
  }

  /** Of the data of an output a mint reads the state and the counters only; the other members are reset here. */
  function OnMintCall(s: State, c: M.MintCall): Option<State> {
    if s.phase != IN(IN_MINT) then None
    else
      match c
      case AddMintTopLevel(n) =>
        if Narrow16(n) == 0 then None
        else
          Some(Appended(s, Head(Map, Narrow16(n))).(
                 data := OutputData(TOP_LEVEL_DATA, O.ARRAY_LEGACY, false, false, Multiasset(Narrow16(n), 0))))
      case AddMintGroup(id, n) => AddTokenGroup(s, id, Narrow16(n))
      case AddMintToken(name, n) => AddToken(s, name, SignedAmount(n))
  }

  // ------------------------------------------------------------ pool registrations

  function EnterPoolOwners(s: State): Option<State> {
    if s.phase != IN_POOL(POOL_REWARD_ACCOUNT) || !s.data.PoolCertificateData? then None
    else Some(Appended(s, SetTag(s.tagCborSets) + Head(Array, s.data.remainingOwners)).(phase := IN_POOL(POOL_OWNERS)))
  }

  /** Owners are entered here if none were expected. */
  function EnterPoolRelays(s: State): Option<State> {
    if !s.data.PoolCertificateData? || s.data.remainingOwners != 0 then None
    else
      match if s.phase == IN_POOL(POOL_REWARD_ACCOUNT) then EnterPoolOwners(s) else Some(s)
      case None => None
      case Some(t) =>
        if t.phase != IN_POOL(POOL_OWNERS) then None
        else Some(Appended(t, Head(Array, s.data.remainingRelays)).(phase := IN_POOL(POOL_RELAYS)))
  }

  /** addPoolMetadata_updateState: owners and relays are entered here if none were expected. */
  function EnterPoolMetadata(s: State): Option<State> {
    if !s.data.PoolCertificateData? || s.data.remainingRelays != 0 then None
    else if s.phase == IN_POOL(POOL_RELAYS) then Some(s)
    else EnterPoolRelays(s)
  }

  /** The calls of a pool registration. The lengths of relays and of the metadata are those that the parsers allow. */
  function OnPoolCall(s: State, c: P.PoolCall): Option<State> {
    match c
    case EnterCertificate(o, r) =>
      if s.phase != IN(IN_CERTIFICATES) || s.left[IN_CERTIFICATES] == 0 || s.data != PoolCertificateData(0, 0) then None
      else
        Some(Appended(s.Less(IN_CERTIFICATES), Head(Array, 10) + Head(Unsigned, 3)).(
               phase := IN_POOL(POOL_INIT), data := PoolCertificateData(o, r)))
    case AddPoolKeyHash(h) => PoolField(s, POOL_INIT, BytesToken(h), POOL_KEY_HASH)
    case AddVrfKeyHash(h) => PoolField(s, POOL_KEY_HASH, BytesToken(h), POOL_VRF)
    case AddFinancials(f) => PoolField(s, POOL_VRF, FinancialsBytes(f), POOL_FINANCIALS)
    case AddRewardAccount(a) => PoolField(s, POOL_FINANCIALS, BytesToken(a), POOL_REWARD_ACCOUNT)
    case EnterOwners => EnterPoolOwners(s)
    case AddOwner(h) =>
      if s.phase != IN_POOL(POOL_OWNERS) || !s.data.PoolCertificateData? || s.data.remainingOwners == 0 then None
      else Some(Appended(s, BytesToken(h)).(data := s.data.(remainingOwners := s.data.remainingOwners - 1)))
    case EnterRelays => EnterPoolRelays(s)
    case AddRelayCall(r) =>
      if s.phase != IN_POOL(POOL_RELAYS) || !s.data.PoolCertificateData? || s.data.remainingRelays == 0
         || !RelaySizes(r)
      then None
      else Some(Appended(s, RelayBytes(r)).(data := s.data.(remainingRelays := s.data.remainingRelays - 1)))
    case AddMetadata(m) =>
      if m.Some? && |m.value.url| > P.URL_SIZE_MAX then None
      else
        match EnterPoolMetadata(s)
        case None => None
        case Some(t) => Some(Appended(t, MetadataBytes(m)).(phase := IN(IN_CERTIFICATES)))
  }

  function PoolField(s: State, at: PoolPhase, bytes: seq<byte>, next: PoolPhase): Option<State> {
    if s.phase != IN_POOL(at) then None else Some(Appended(s, bytes).(phase := IN_POOL(next)))
  }

  // ------------------------------------------------------------ all calls

  /** The state after a call, or None if an assertion of the builder fails. */
  function Step(s: State, c: Call): Option<State> {
    match c
    case InitBuilder(p) => Some(Initialized(p))
    case EnterInputs(_) =>
      if s.phase != BUILDER_INIT then None
      else
        Some(Appended(s, Head(Unsigned, Key(IN_INPUTS)) + SetTag(s.tagCborSets) + Head(Array, s.left[IN_INPUTS])).(
               phase := IN(IN_INPUTS)))
    case AddInput(i) => AddElement(s, IN_INPUTS, InputBytes(i))
    case EnterOutputs(_) =>
      (match Enter(s, IN_OUTPUTS)
       case None => None
       case Some(t) => Some(Appended(t, Head(Array, t.left[IN_OUTPUTS])).(data := Fresh(t.data))))
    case OnOutput(o) => OnOutputCall(s, o)
    case AddFee(n) => AddValue(s, IN_FEE, Head(Unsigned, n))
    case AddTtl(n) => AddValue(s, IN_TTL, Head(Unsigned, n))
    case EnterCertificates(_) =>
      (match EnterList(s, IN_CERTIFICATES, SetTag(s.tagCborSets) + Head(Array, s.left[IN_CERTIFICATES]))
       case None => None
       case Some(t) => Some(t.(data := PoolCertificateData(0, 0))))
    case AddCertificate(x) => AddElement(s, IN_CERTIFICATES, PlainCertificateBytes(x))
    case OnPool(x) => OnPoolCall(s, x)
    case EnterWithdrawals(_) => EnterList(s, IN_WITHDRAWALS, Head(Map, s.left[IN_WITHDRAWALS]))
    case AddWithdrawal(a, n) => AddElement(s, IN_WITHDRAWALS, WithdrawalBytes(Withdrawal(a, n)))
    case AddAuxData(h) => AddValue(s, IN_AUX_DATA, BytesToken(h))
    case AddValidityIntervalStart(n) => AddValue(s, IN_VALIDITY_INTERVAL_START, Head(Unsigned, n))
    case EnterMint => AddValue(s, IN_MINT, [])
    case OnMint(x) => OnMintCall(s, x)
    case AddScriptDataHash(h) => AddValue(s, IN_SCRIPT_DATA_HASH, BytesToken(h))
    case EnterCollateralInputs(_) =>
      EnterList(s, IN_COLLATERAL_INPUTS, SetTag(s.tagCborSets) + Head(Array, s.left[IN_COLLATERAL_INPUTS]))
    case AddCollateralInput(i) => AddElement(s, IN_COLLATERAL_INPUTS, InputBytes(i))
    case EnterRequiredSigners(_) =>
      EnterList(s, IN_REQUIRED_SIGNERS, SetTag(s.tagCborSets) + Head(Array, s.left[IN_REQUIRED_SIGNERS]))
    case AddRequiredSigner(h) => AddElement(s, IN_REQUIRED_SIGNERS, BytesToken(h))
    case AddNetworkId(n) => AddValue(s, IN_NETWORK_ID, Head(Unsigned, n))
    case OnCollateralOutput(o) => OnCollateralOutputCall(s, o)
    case AddTotalCollateral(n) => AddValue(s, IN_TOTAL_COLLATERAL, Head(Unsigned, n))
    case EnterReferenceInputs(_) =>
      EnterList(s, IN_REFERENCE_INPUTS, SetTag(s.tagCborSets) + Head(Array, s.left[IN_REFERENCE_INPUTS]))
    case AddReferenceInput(i) => AddElement(s, IN_REFERENCE_INPUTS, InputBytes(i))
    case EnterVotingProcedures(_) => EnterList(s, IN_VOTING_PROCEDURES, Head(Map, s.left[IN_VOTING_PROCEDURES]))
    case AddVotingProcedure(v) => AddElement(s, IN_VOTING_PROCEDURES, VotingBytes(v))
    case AddTreasury(n) => AddValue(s, IN_TREASURY, Head(Unsigned, n))
    case AddDonation(n) => AddValue(s, IN_DONATION, Head(Unsigned, n))
  }

  /** Entering the outputs only writes the state of the output. */
  function Fresh(d: Data): Data {
    if d.OutputData? then d.(outputState := OUTPUT_INIT) else d
  }

  function Run(s: State, calls: seq<Call>): Option<State>
    decreases |calls|
  {
    if calls == [] then Some(s)
    else
      match Step(s, calls[0])
      case None => None
      case Some(t) => Run(t, calls[1..])
  }

  const BLANK := State(BUILDER_INIT, false, [0, 0, 0, 0, 0, 0, 0, 0, 0, 0, 0, 0, 0, 0, 0, 0, 0, 0, 0], NO_OUTPUT, [])

  /** The bytes that are hashed for a word of builder calls. */
  function HashedBytes(calls: seq<Call>): seq<byte> {
    match Run(BLANK, calls)
    case None => []
    case Some(t) => t.hashed
  }

  /** The assertion of txHashBuilder_finalize. */
  predicate CanFinalize(s: State) {
    CanLeave(s, IN_DONATION)
  }

  lemma RunNext(s: State, calls: seq<Call>)
    ensures calls == [] ==> Run(s, calls) == Some(s)
    ensures calls != [] && Step(s, calls[0]).None? ==> Run(s, calls) == None
    ensures calls != [] && Step(s, calls[0]).Some? ==> Run(s, calls) == Run(Step(s, calls[0]).value, calls[1..])
  {
  }

  lemma RunOne(s: State, c: Call)
    ensures Run(s, [c]) == Step(s, c)
  {
    hide Step, Run;
    RunNext(s, [c]);
    if Step(s, c).Some? {
      RunNext(Step(s, c).value, [c][1..]);
    }
  }

  lemma {:induction false} RunAppend(s: State, v: seq<Call>, w: seq<Call>)
    ensures Run(s, v + w) == match Run(s, v) case None => None case Some(t) => Run(t, w)
    decreases |v|
  {
    hide Step, Run;
    RunNext(s, v);
    RunNext(s, v + w);
    if v == [] {
      assert v + w == w;
    } else {
      assert (v + w)[0] == v[0] && (v + w)[1..] == v[1..] + w;
      if Step(s, v[0]).Some? {
        RunAppend(Step(s, v[0]).value, v[1..], w);
      }
    }
  }
}
