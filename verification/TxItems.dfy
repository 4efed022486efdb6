/** The CBOR of a transaction body: the data items of its map, keys and values one after the other. */
module TxItems {
  import opened Basics
  import opened Cbor
  import Bip44
  import TokenBundle
  import O = TxOutput
  import P = TxPool
  import opened TxBody
  import opened TxHashBuilder

  /** A complete transaction body. */
  predicate Whole(f: Frame, b: Body) {
    Matches(f.params, b) && WellFormed(f.params.Setting(), b)
  }

  function ListItem(tagged: bool, items: seq<Item>): Item {
    if tagged then Tagged(CBOR_TAG_SET, Arr(items)) else Arr(items)
  }

  function InputItems(i: Input): seq<Item> {
    [Arr([Bstr(i.txHash), Uint(i.index)])]
  }

  function WithdrawalItems(w: Withdrawal): seq<Item> {
    [Bstr(w.account), Uint(w.amount)]
  }

  function SignerItems(h: KeyHash): seq<Item> {
    [Bstr(h)]
  }

  // ------------------------------------------------------------ votes and certificates

  function CredentialItem(c: Credential): Item {
    match c
    case KeyCredential(h) => Arr([Uint(0), Bstr(h)])
    case ScriptCredential(h) => Arr([Uint(1), Bstr(h)])
  }

  function DRepItem(d: DRep): Item {
    match d
    case DRepKey(h) => Arr([Uint(0), Bstr(h)])
    case DRepScript(h) => Arr([Uint(1), Bstr(h)])
    case ALWAYS_ABSTAIN => Arr([Uint(2)])
    case ALWAYS_NO_CONFIDENCE => Arr([Uint(3)])
  }

  function AnchorItem(a: Option<Anchor>): Item {
    match a
    case None => Null
    case Some(x) => Arr([Tstr(x.url), Bstr(x.hash)])
  }

  /** One vote of one voter: a map from the voter to a map from the action to the vote. */
  function VotingItems(v: VotingProcedure): seq<Item> {
    [Arr([Uint(VoterCode(v.voterType)), Bstr(v.voterHash)]),
     MapOf([Arr([Bstr(v.actionTxHash), Uint(v.actionIndex)]), Arr([Uint(VoteCode(v.vote)), AnchorItem(v.anchor)])])]
  }

  /** The fields of a certificate, the first of which is the number of its kind. */
  function PlainCertificateFields(c: PlainCertificate): seq<Item> {
    match c
    case StakeRegistration(k) => [Uint(0), CredentialItem(k)]
    case StakeDeregistration(k) => [Uint(1), CredentialItem(k)]
    case StakeDelegation(k, h) => [Uint(2), CredentialItem(k), Bstr(h)]
    case PoolRetirement(h, n) => [Uint(4), Bstr(h), Uint(n)]
    case StakeRegistrationConway(k, n) => [Uint(7), CredentialItem(k), Uint(n)]
    case StakeDeregistrationConway(k, n) => [Uint(8), CredentialItem(k), Uint(n)]
    case VoteDelegation(k, d) => [Uint(9), CredentialItem(k), DRepItem(d)]
    case AuthorizeCommitteeHot(k, h) => [Uint(14), CredentialItem(k), CredentialItem(h)]
    case ResignCommitteeCold(k, a) => [Uint(15), CredentialItem(k), AnchorItem(a)]
    case DRepRegistration(k, n, a) => [Uint(16), CredentialItem(k), Uint(n), AnchorItem(a)]
    case DRepDeregistration(k, n) => [Uint(17), CredentialItem(k), Uint(n)]
    case DRepUpdate(k, a) => [Uint(18), CredentialItem(k), AnchorItem(a)]
  }

  function OwnerItems(keyHashOf: Bip44.Path -> P.KeyHash, owners: seq<P.KeyRef>): (items: seq<Item>)
    ensures |items| == |owners|
  {
    if owners == [] then [] else [Bstr(P.HashOf(keyHashOf, owners[0]))] + OwnerItems(keyHashOf, owners[1..])
  }

  function PortItem(port: Option<uint16>): Item {
    match port
    case None => Null
    case Some(n) => Uint(n)
  }

  function AddressItem(ip: Option<seq<byte>>): Item {
    match ip
    case None => Null
    case Some(b) => Bstr(b)
  }

  function RelayItem(r: P.Relay): Item
    requires P.RelayAccepted(r)
  {
    match r
    case SingleHostIp(port, ipv4, ipv6) =>
      Arr([Uint(0), PortItem(port), AddressItem(ipv4),
           AddressItem(if ipv6.Some? then Some(SwappedWords(ipv6.value)) else None)])
    case SingleHostName(port, name) => Arr([Uint(1), PortItem(port), Tstr(name)])
    case MultipleHostName(name) => Arr([Uint(2), Tstr(name)])
  }

  function RelayItems(relays: seq<P.Relay>): (items: seq<Item>)
    requires P.RelaysAccepted(relays)
    ensures |items| == |relays|
  {
    if relays == [] then [] else [RelayItem(relays[0])] + RelayItems(relays[1..])
  }

  function MetadataItem(m: Option<P.PoolMetadata>): Item {
    match m
    case None => Null
    case Some(x) => Arr([Tstr(x.url), Bstr(x.hash)])
  }

  /** The ten fields of a pool registration. */
  function PoolFields(f: Frame, c: P.Certificate): (items: seq<Item>)
    requires P.RelaysAccepted(c.relays)
    ensures |items| == 10
  {
    [Uint(3), Bstr(P.HashOf(f.keyHashOf, c.poolKey)), Bstr(c.vrfKeyHash), Uint(c.financials.pledge),
     Uint(c.financials.cost),
     Tagged(CBOR_TAG_UNIT_INTERVAL, Arr([Uint(c.financials.marginNumerator), Uint(c.financials.marginDenominator)])),
     Bstr(P.AccountBytes(f.Env(), c.rewardAccount)), ListItem(f.params.tagCborSets, OwnerItems(f.keyHashOf, c.owners)),
     Arr(RelayItems(c.relays)), MetadataItem(c.metadata)]
  }

  function CertificateItems(f: Frame, c: Certificate): seq<Item> {
    match c
    case Plain(x) => [Arr(PlainCertificateFields(x))]
    case Pool(x) => if P.RelaysAccepted(x.relays) then [Arr(PoolFields(f, x))] else []
  }

  function CertificatesItems(f: Frame, cs: seq<Certificate>): seq<Item> {
    if cs == [] then [] else CertificatesItems(f, cs[..|cs| - 1]) + CertificateItems(f, cs[|cs| - 1])
  }

  // ------------------------------------------------------------ tokens and outputs

  /** Amounts are signed in a mint only. */
  function AmountItem(signed: bool, n: TokenBundle.Amount): Item {
    if !signed then Uint(UnsignedAmount(n)) else if n < 0 then Nint(n) else Uint(n)
  }

  function TokenEntries(signed: bool, tokens: seq<TokenBundle.Token>): (items: seq<Item>)
    ensures |items| == 2 * |tokens|
  {
    if tokens == [] then []
    else [Bstr(tokens[0].name), AmountItem(signed, tokens[0].amount)] + TokenEntries(signed, tokens[1..])
  }

  /** A map from policy ids to maps from asset names to amounts. */
  function GroupEntries(signed: bool, groups: seq<TokenBundle.Group>): (items: seq<Item>)
    ensures |items| == 2 * |groups|
  {
    if groups == [] then []
    else
      [Bstr(groups[0].policyId), MapOf(TokenEntries(signed, groups[0].tokens))] + GroupEntries(signed, groups[1..])
  }

  function ValueItem(o: O.Output): Item {
    if o.groups == [] then Uint(o.amount) else Arr([Uint(o.amount), MapOf(GroupEntries(false, o.groups))])
  }

  function Embedded(chunks: seq<seq<byte>>): Item {
    Tagged(CBOR_TAG_EMBEDDED_CBOR_BYTE_STRING, Bstr(Concat(chunks)))
  }

  /** The legacy format has a place for the hash of a datum only; the later one has a key for a pair. */
  function DatumItems(format: O.Format, d: Option<O.Datum>): seq<Item> {
    match d
    case None => []
    case Some(ByHash(h)) => if format == O.ARRAY_LEGACY then [Bstr(h)] else [Uint(2), Arr([Uint(0), Bstr(h)])]
    case Some(Inline(chunks)) => [Uint(2), Arr([Uint(1), Embedded(chunks)])]
  }

  function ScriptItems(s: Option<seq<seq<byte>>>): seq<Item> {
    match s
    case None => []
    case Some(chunks) => [Uint(3), Embedded(chunks)]
  }

  /** A legacy output has no place for a reference script, which is written after it all the same. */
  function Stray(o: O.Output): (items: seq<Item>)
    ensures |items| == if IsStray(o) then 2 else 0
  {
    if o.format == O.ARRAY_LEGACY then ScriptItems(o.script) else []
  }

  predicate IsStray(o: O.Output) {
    o.format == O.ARRAY_LEGACY && o.script.Some?
  }

  function OutputItem(o: O.Output): Item {
    match o.format
    case ARRAY_LEGACY => Arr([Bstr(o.destination.address), ValueItem(o)] + DatumItems(o.format, o.datum))
    case MAP_BABBAGE =>
      MapOf([Uint(0), Bstr(o.destination.address), Uint(1), ValueItem(o)] + DatumItems(o.format, o.datum)
            + ScriptItems(o.script))
  }

  function OutputItems(o: O.Output): seq<Item> {
    [OutputItem(o)] + Stray(o)
  }

  function Strays(outputs: seq<O.Output>): nat {
    if outputs == [] then 0 else Strays(outputs[..|outputs| - 1]) + One(IsStray(outputs[|outputs| - 1]))
  }

  lemma {:induction false} OutputItemsLength(outputs: seq<O.Output>)
    ensures |Flat(OutputItems, outputs)| == |outputs| + 2 * Strays(outputs)
  {
    hide OutputItem, IsStray;
    if outputs != [] {
      OutputItemsLength(outputs[..|outputs| - 1]);
    }
  }

  // ------------------------------------------------------------ the map

  /** The value of an entry that is there. What the outputs have written too much comes after their list. */
  function ValueItems(f: Frame, b: Body, e: nat): seq<Item>
    requires Matches(f.params, b) && Included(f.params, e)
  {
    var tagged := f.params.tagCborSets;
    if e == IN_INPUTS then [ListItem(tagged, Flat(InputItems, b.inputs))]
    else if e == IN_OUTPUTS then
      OutputItemsLength(b.outputs);
      var all := Flat(OutputItems, b.outputs);
      [Arr(all[..|b.outputs|])] + all[|b.outputs|..]
    else if e == IN_FEE then [Uint(b.fee.value)]
    else if e == IN_TTL then [Uint(b.ttl.value)]
    else if e == IN_CERTIFICATES then [ListItem(tagged, CertificatesItems(f, b.certificates))]
    else if e == IN_WITHDRAWALS then [MapOf(Flat(WithdrawalItems, b.withdrawals))]
    else if e == IN_AUX_DATA then [Bstr(f.auxDataHash)]
    else if e == IN_VALIDITY_INTERVAL_START then [Uint(b.validityIntervalStart.value)]
    else if e == IN_MINT then [MapOf(GroupEntries(true, b.mint.value))]
    else if e == IN_SCRIPT_DATA_HASH then [Bstr(b.scriptDataHash.value)]
    else if e == IN_COLLATERAL_INPUTS then [ListItem(tagged, Flat(InputItems, b.collateralInputs))]
    else if e == IN_REQUIRED_SIGNERS then [ListItem(tagged, Flat(SignerItems, b.requiredSigners))]
    else if e == IN_NETWORK_ID then [Uint(f.params.networkId)]
    else if e == IN_COLLATERAL_OUTPUT then [OutputItem(b.collateralOutput.value)]
    else if e == IN_TOTAL_COLLATERAL then [Uint(b.totalCollateral.value)]
    else if e == IN_REFERENCE_INPUTS then [ListItem(tagged, Flat(InputItems, b.referenceInputs))]
    else if e == IN_VOTING_PROCEDURES then [MapOf(Flat(VotingItems, b.votingProcedures))]
    else if e == IN_TREASURY then [Uint(b.treasury.value)]
    else [Uint(b.donation.value)]
  }

  /** The first three entries are always there, the others if they are expected. */
  predicate Included(p: Params, e: nat) {
    e <= IN_FEE || (e < ENTRIES && Remaining(p, e) > 0)
  }

  function EntryItems(f: Frame, b: Body, e: nat): seq<Item>
    requires Matches(f.params, b) && e < ENTRIES
  {
    if !Included(f.params, e) then [] else [Uint(Key(e))] + ValueItems(f, b, e)
  }

  function ItemsUpTo(f: Frame, b: Body, e: nat): seq<Item>
    requires Matches(f.params, b) && e < ENTRIES
  {
    (if e == 0 then [] else ItemsUpTo(f, b, e - 1)) + EntryItems(f, b, e)
  }

  /** The data items that are written in the map of a body. */
  function BodyItems(f: Frame, b: Body): seq<Item>
    requires Matches(f.params, b)
  {
    ItemsUpTo(f, b, IN_DONATION)
  }

  /** The map that a body stands for. */
  function BodyItem(f: Frame, b: Body): Item
    requires Matches(f.params, b)
  {
    MapOf(BodyItems(f, b))
  }
}
