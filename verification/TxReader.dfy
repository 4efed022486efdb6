/** A reader of transaction bodies, written from the CDDL of the ledger alone: the keys, tags and codes of the Conway
    era as numbers. It returns what a body says, or None for data items that the application does not write. */
module TxReader {
  import opened Basics
  import opened Cbor
  import TokenBundle
  import O = TxOutput
  import P = TxPool
  import opened TxBody

  /** What a data item tells of a transaction: its body, the two entries that are no part of it in the model, and
      whether its sets are tagged. */
  datatype Document = Document(tagged: bool, auxDataHash: Option<Hash32>, networkId: Option<uint8>, body: Body)

  // ------------------------------------------------------------ lists and maps

  predicate IsNumber(i: Item) {
    i.Uint? && i.v < 0x1_0000_0000_0000_0000
  }

  predicate IsBytes(i: Item, size: nat) {
    i.Bstr? && |i.bytes| == size
  }

  predicate IsArray(i: Item, size: nat) {
    i.Arr? && |i.items| == size
  }

  function ReadAll<A>(read: Item -> Option<A>, items: seq<Item>): (r: Option<seq<A>>)
    ensures r.Some? ==> |r.value| == |items|
  {
    if items == [] then Some([])
    else
      match (ReadAll(read, items[..|items| - 1]), read(items[|items| - 1]))
      case (Some(xs), Some(x)) => Some(xs + [x])
      case _ => None
  }

  /** The entries of a map, each a key and a value. */
  function ReadPairs<A>(read: (Item, Item) -> Option<A>, items: seq<Item>): Option<seq<A>> {
    if items == [] then Some([])
    else if |items| == 1 then None
    else
      match (ReadPairs(read, items[..|items| - 2]), read(items[|items| - 2], items[|items| - 1]))
      case (Some(xs), Some(x)) => Some(xs + [x])
      case _ => None
  }

  /** The elements of a set, which is an array, with tag 258 if sets are tagged. */
  function ElementsOf(tagged: bool, i: Item): Option<seq<Item>> {
    if tagged && i.Tagged? && i.tag == 258 && i.item.Arr? then Some(i.item.items)
    else if !tagged && i.Arr? then Some(i.items)
    else None
  }

  // ------------------------------------------------------------ elements

  function ReadInput(i: Item): Option<Input> {
    if IsArray(i, 2) && IsBytes(i.items[0], 32) && IsNumber(i.items[1]) && i.items[1].v < 0x1_0000_0000
    then Some(Input(i.items[0].bytes, i.items[1].v))
    else None
  }

  function ReadKeyHash(i: Item): Option<KeyHash> {
    if IsBytes(i, 28) then Some(i.bytes) else None
  }

  function ReadHash32(i: Item): Option<Hash32> {
    if IsBytes(i, 32) then Some(i.bytes) else None
  }

  function ReadNumber(i: Item): Option<uint64> {
    if IsNumber(i) then Some(i.v) else None
  }

  function ReadWithdrawal(key: Item, value: Item): Option<Withdrawal> {
    if IsBytes(key, 29) && IsNumber(value) then Some(Withdrawal(key.bytes, value.v)) else None
  }

  function ReadCredential(i: Item): Option<Credential> {
    if !IsArray(i, 2) || !IsBytes(i.items[1], 28) then None
    else if i.items[0] == Uint(0) then Some(KeyCredential(i.items[1].bytes))
    else if i.items[0] == Uint(1) then Some(ScriptCredential(i.items[1].bytes))
    else None
  }

  function ReadDRep(i: Item): Option<DRep> {
    if IsArray(i, 2) && i.items[0] == Uint(0) && IsBytes(i.items[1], 28) then Some(DRepKey(i.items[1].bytes))
    else if IsArray(i, 2) && i.items[0] == Uint(1) && IsBytes(i.items[1], 28) then Some(DRepScript(i.items[1].bytes))
    else if IsArray(i, 1) && i.items[0] == Uint(2) then Some(ALWAYS_ABSTAIN)
    else if IsArray(i, 1) && i.items[0] == Uint(3) then Some(ALWAYS_NO_CONFIDENCE)
    else None
  }

  function ReadAnchor(i: Item): Option<Option<Anchor>> {
    if i == Null then Some(None)
    else if IsArray(i, 2) && i.items[0].Tstr? && |i.items[0].text| <= 128 && IsBytes(i.items[1], 32)
    then Some(Some(Anchor(i.items[0].text, i.items[1].bytes)))
    else None
  }

  function ReadVoterType(n: nat): Option<VoterType> {
    if n == 0 then Some(COMMITTEE_HOT_KEY_HASH)
    else if n == 1 then Some(COMMITTEE_HOT_SCRIPT_HASH)
    else if n == 2 then Some(DREP_KEY_HASH)
    else if n == 3 then Some(DREP_SCRIPT_HASH)
    else if n == 4 then Some(STAKE_POOL_KEY_HASH)
    else None
  }

  function ReadVote(n: nat): Option<Vote> {
    if n == 0 then Some(VOTE_NO) else if n == 1 then Some(VOTE_YES) else if n == 2 then Some(VOTE_ABSTAIN) else None
  }

  /** A voter and a map with one vote on one action. */
  function ReadVoting(key: Item, value: Item): Option<VotingProcedure> {
    if !(IsArray(key, 2) && IsNumber(key.items[0]) && IsBytes(key.items[1], 28)) then None
    else if !(value.MapOf? && |value.entries| == 2) then None
    else
      var action, vote := value.entries[0], value.entries[1];
      if !(IsArray(action, 2) && IsBytes(action.items[0], 32)) then None
      else if !(IsNumber(action.items[1]) && action.items[1].v < 0x1_0000_0000) then None
      else if !(IsArray(vote, 2) && IsNumber(vote.items[0])) then None
      else
        match (ReadVoterType(key.items[0].v), ReadVote(vote.items[0].v), ReadAnchor(vote.items[1]))
        case (Some(t), Some(v), Some(a)) =>
          Some(VotingProcedure(t, key.items[1].bytes, action.items[0].bytes, action.items[1].v, v, a))
        case _ => None
  }

  // ------------------------------------------------------------ certificates

  /** A certificate that begins with a credential and goes on with at most one of a number, an anchor and a hash. */
  function ReadPlain(s: seq<Item>): Option<PlainCertificate>
    requires |s| >= 2
  {
    if s[0] == Uint(4) then
      if |s| == 3 && IsBytes(s[1], 28) && IsNumber(s[2]) then Some(PoolRetirement(s[1].bytes, s[2].v)) else None
    else
      match ReadCredential(s[1])
      case None => None
      case Some(k) =>
        if |s| == 2 then
          if s[0] == Uint(0) then Some(StakeRegistration(k))
          else if s[0] == Uint(1) then Some(StakeDeregistration(k)) else None
        else if |s| == 3 && s[0] == Uint(2) && IsBytes(s[2], 28) then Some(StakeDelegation(k, s[2].bytes))
        else if |s| == 3 && s[0] == Uint(7) && IsNumber(s[2]) then Some(StakeRegistrationConway(k, s[2].v))
        else if |s| == 3 && s[0] == Uint(8) && IsNumber(s[2]) then Some(StakeDeregistrationConway(k, s[2].v))
        else if |s| == 3 && s[0] == Uint(9) && ReadDRep(s[2]).Some? then Some(VoteDelegation(k, ReadDRep(s[2]).value))
        else if |s| == 3 && s[0] == Uint(14) && ReadCredential(s[2]).Some? then
          Some(AuthorizeCommitteeHot(k, ReadCredential(s[2]).value))
        else if |s| == 3 && s[0] == Uint(15) && ReadAnchor(s[2]).Some? then
          Some(ResignCommitteeCold(k, ReadAnchor(s[2]).value))
        else if |s| == 4 && s[0] == Uint(16) && IsNumber(s[2]) && ReadAnchor(s[3]).Some? then
          Some(DRepRegistration(k, s[2].v, ReadAnchor(s[3]).value))
        else if |s| == 3 && s[0] == Uint(17) && IsNumber(s[2]) then Some(DRepDeregistration(k, s[2].v))
        else if |s| == 3 && s[0] == Uint(18) && ReadAnchor(s[2]).Some? then Some(DRepUpdate(k, ReadAnchor(s[2]).value))
        else None
  }

  function ReadPort(i: Item): Option<Option<uint16>> {
    if i == Null then Some(None) else if i.Uint? && i.v < 0x1_0000 then Some(Some(i.v)) else None
  }

  function ReadAddress(i: Item, size: nat): Option<Option<seq<byte>>> {
    if i == Null then Some(None) else if IsBytes(i, size) then Some(Some(i.bytes)) else None
  }

  /** The device received each word of an IPv6 address with its bytes in reverse. */
  function Received(ip: Option<seq<byte>>): Option<seq<byte>>
    requires ip.Some? ==> |ip.value| == 16
  {
    match ip
    case None => None
    case Some(a) =>
      Some([a[3], a[2], a[1], a[0], a[7], a[6], a[5], a[4], a[11], a[10], a[9], a[8], a[15], a[14], a[13], a[12]])
  }

  function ReadRelay(i: Item): Option<P.Relay> {
    if !i.Arr? then None
    else
      var s := i.items;
      if |s| == 4 && s[0] == Uint(0) then
        match (ReadPort(s[1]), ReadAddress(s[2], 4), ReadAddress(s[3], 16))
        case (Some(port), Some(ipv4), Some(ipv6)) => Some(P.SingleHostIp(port, ipv4, Received(ipv6)))
        case _ => None
      else if |s| == 3 && s[0] == Uint(1) && ReadPort(s[1]).Some? && s[2].Tstr? then
        Some(P.SingleHostName(ReadPort(s[1]).value, s[2].text))
      else if |s| == 2 && s[0] == Uint(2) && s[1].Tstr? then Some(P.MultipleHostName(s[1].text))
      else None
  }

  function ReadMetadata(i: Item): Option<Option<P.PoolMetadata>> {
    if i == Null then Some(None)
    else if IsArray(i, 2) && i.items[0].Tstr? && IsBytes(i.items[1], 32)
    then Some(Some(P.PoolMetadata(i.items[1].bytes, i.items[0].text)))
    else None
  }

  function ReadOwner(i: Item): Option<P.KeyRef> {
    if IsBytes(i, 28) then Some(P.ByHash(i.bytes)) else None
  }

  /** The margin is a pair of numbers with tag 30. */
  function ReadFinancials(pledge: Item, cost: Item, margin: Item): Option<P.Financials> {
    if !(IsNumber(pledge) && IsNumber(cost) && margin.Tagged? && margin.tag == 30 && IsArray(margin.item, 2)) then None
    else
      var m := margin.item.items;
      if IsNumber(m[0]) && IsNumber(m[1]) then Some(P.Financials(pledge.v, cost.v, m[0].v, m[1].v)) else None
  }

  /** The ten fields of a pool registration, the first of which is 3. */
  function ReadPool(tagged: bool, s: seq<Item>): Option<P.Certificate>
    requires |s| == 10
  {
    if !(s[0] == Uint(3) && IsBytes(s[1], 28) && IsBytes(s[2], 32) && IsBytes(s[6], 29)) then None
    else if !(ElementsOf(tagged, s[7]).Some? && s[8].Arr?) then None
    else
      var owners, relays := ElementsOf(tagged, s[7]).value, s[8].items;
      if |owners| >= 0x1_0000 || |relays| >= 0x1_0000 then None
      else
        match (ReadFinancials(s[3], s[4], s[5]), ReadAll(ReadOwner, owners), ReadAll(ReadRelay, relays),
               ReadMetadata(s[9]))
        case (Some(f), Some(o), Some(r), Some(m)) =>
          Some(P.Certificate(|o|, |r|, P.ByHash(s[1].bytes), s[2].bytes, f, P.GivenAccount(s[6].bytes), o, r, m))
        case _ => None
  }

  function ReadCertificate(tagged: bool, i: Item): Option<Certificate> {
    if !i.Arr? || |i.items| < 2 then None
    else if |i.items| == 10 then
      match ReadPool(tagged, i.items)
      case None => None
      case Some(c) => Some(Pool(c))
    else
      match ReadPlain(i.items)
      case None => None
      case Some(c) => Some(Plain(c))
  }

  function CertificateReader(tagged: bool): Item -> Option<Certificate> {
    i => ReadCertificate(tagged, i)
  }

  // ------------------------------------------------------------ tokens and outputs

  function ReadToken(signed: bool, key: Item, value: Item): Option<TokenBundle.Token> {
    if !(key.Bstr? && |key.bytes| <= 32) then None
    else if IsNumber(value) then Some(TokenBundle.Token(key.bytes, value.v))
    else if signed && value.Nint? && -0x8000_0000_0000_0000 <= value.n < 0 then
      Some(TokenBundle.Token(key.bytes, value.n))
    else None
  }

  function TokenReader(signed: bool): (Item, Item) -> Option<TokenBundle.Token> {
    (key, value) => ReadToken(signed, key, value)
  }

  function ReadGroup(signed: bool, key: Item, value: Item): Option<TokenBundle.Group> {
    if !(IsBytes(key, 28) && value.MapOf?) then None
    else
      match ReadPairs(TokenReader(signed), value.entries)
      case None => None
      case Some(tokens) => Some(TokenBundle.Group(key.bytes, tokens))
  }

  function GroupReader(signed: bool): (Item, Item) -> Option<TokenBundle.Group> {
    (key, value) => ReadGroup(signed, key, value)
  }

  function ReadGroups(signed: bool, i: Item): Option<seq<TokenBundle.Group>> {
    if i.MapOf? then ReadPairs(GroupReader(signed), i.entries) else None
  }

  function ReadMint(i: Item): Option<seq<TokenBundle.Group>> {
    ReadGroups(true, i)
  }

  /** An amount, or a pair of an amount and tokens. */
  function ReadValue(i: Item): Option<(uint64, seq<TokenBundle.Group>)> {
    if IsNumber(i) then Some((i.v, []))
    else if IsArray(i, 2) && IsNumber(i.items[0]) then
      match ReadGroups(false, i.items[1])
      case None => None
      case Some(groups) => Some((i.items[0].v, groups))
    else None
  }

  /** Embedded CBOR: bytes with tag 24. */
  predicate IsEmbedded(i: Item) {
    i.Tagged? && i.tag == 24 && i.item.Bstr?
  }

  function ReadDatum(i: Item): Option<O.Datum> {
    if IsArray(i, 2) && i.items[0] == Uint(0) && IsBytes(i.items[1], 32) then Some(O.ByHash(i.items[1].bytes))
    else if IsArray(i, 2) && i.items[0] == Uint(1) && IsEmbedded(i.items[1]) then
      Some(O.Inline([i.items[1].item.bytes]))
    else None
  }

  /** An output of the legacy format: address, value and, if there is one, the hash of a datum. */
  function ReadLegacy(s: seq<Item>): Option<O.Output> {
    if !((|s| == 2 || |s| == 3) && s[0].Bstr?) then None
    else if |s| == 3 && !IsBytes(s[2], 32) then None
    else
      match ReadValue(s[1])
      case None => None
      case Some((n, groups)) =>
        Some(O.Output(O.ARRAY_LEGACY, O.ThirdParty(s[0].bytes), n, groups,
                      if |s| == 3 then Some(O.ByHash(s[2].bytes)) else None, None, false))
  }

  /** What comes behind address and value: a datum with key 2 and a reference script with key 3, both optional. */
  function ReadExtras(s: seq<Item>): Option<(Option<O.Datum>, Option<seq<seq<byte>>>)> {
    if s == [] then Some((None, None))
    else if |s| == 2 && s[0] == Uint(3) && IsEmbedded(s[1]) then Some((None, Some([s[1].item.bytes])))
    else if |s| >= 2 && s[0] == Uint(2) && ReadDatum(s[1]).Some? then
      if |s| == 2 then Some((ReadDatum(s[1]), None))
      else if |s| == 4 && s[2] == Uint(3) && IsEmbedded(s[3]) then Some((ReadDatum(s[1]), Some([s[3].item.bytes])))
      else None
    else None
  }

  /** An output of the later format: a map from 0 to the address and from 1 to the value, and what comes behind. */
  function ReadBabbage(s: seq<Item>): Option<O.Output> {
    if !(|s| >= 4 && s[0] == Uint(0) && s[1].Bstr? && s[2] == Uint(1)) then None
    else
      match (ReadValue(s[3]), ReadExtras(s[4..]))
      case (Some((n, groups)), Some((datum, script))) =>
        Some(O.Output(O.MAP_BABBAGE, O.ThirdParty(s[1].bytes), n, groups, datum, script, false))
      case _ => None
  }

  function ReadOutput(i: Item): Option<O.Output> {
    if i.Arr? then ReadLegacy(i.items) else if i.MapOf? then ReadBabbage(i.entries) else None
  }

  // ------------------------------------------------------------ the map of a body

  /** The values for the given keys, in this order; nothing else may be there. */
  function ReadEntries(items: seq<Item>, keys: seq<nat>): (r: Option<seq<Option<Item>>>)
    ensures r.Some? ==> |r.value| == |keys|
  {
    if keys == [] then if items == [] then Some([]) else None
    else
      var there := |items| >= 2 && items[0] == Uint(keys[0]);
      match ReadEntries(if there then items[2..] else items, keys[1..])
      case None => None
      case Some(vs) => Some([if there then Some(items[1]) else None] + vs)
  }

  function ReadField<A>(read: Item -> Option<A>, v: Option<Item>): Option<Option<A>> {
    match v
    case None => Some(None)
    case Some(i) => if read(i).Some? then Some(read(i)) else None
  }

  function ReadSet<A>(tagged: bool, read: Item -> Option<A>, v: Option<Item>): Option<seq<A>> {
    match v
    case None => Some([])
    case Some(i) => if ElementsOf(tagged, i).Some? then ReadAll(read, ElementsOf(tagged, i).value) else None
  }

  function ReadMap<A>(read: (Item, Item) -> Option<A>, v: Option<Item>): Option<seq<A>> {
    match v
    case None => Some([])
    case Some(i) => if i.MapOf? then ReadPairs(read, i.entries) else None
  }

  function ReadNetworkId(i: Item): Option<uint8> {
    if i.Uint? && i.v < 256 then Some(i.v) else None
  }

  /** Inputs, outputs, fee, time to live, certificates, withdrawals, hash of auxiliary data, validity interval start,
      mint, script data hash, collateral inputs, required signers, network id, collateral output, total collateral,
      reference inputs, voting procedures, treasury and donation. */
  const KEYS: seq<nat> := [0, 1, 2, 3, 4, 5, 7, 8, 9, 11, 13, 14, 15, 16, 17, 18, 19, 21, 22]

  function ReadContent(tagged: bool, v: seq<Option<Item>>): Option<Body>
    requires |v| == 19
  {
    match (ReadSet(tagged, ReadInput, v[0]), ReadSet(false, ReadOutput, v[1]), ReadField(ReadNumber, v[2]),
           ReadField(ReadNumber, v[3]), ReadSet(tagged, CertificateReader(tagged), v[4]),
           ReadMap(ReadWithdrawal, v[5]), ReadField(ReadNumber, v[7]), ReadField(ReadMint, v[8]),
           ReadField(ReadHash32, v[9]), ReadSet(tagged, ReadInput, v[10]), ReadSet(tagged, ReadKeyHash, v[11]),
           ReadField(ReadOutput, v[13]), ReadField(ReadNumber, v[14]), ReadSet(tagged, ReadInput, v[15]),
           ReadMap(ReadVoting, v[16]), ReadField(ReadNumber, v[17]), ReadField(ReadNumber, v[18]))
    case (Some(inputs), Some(outputs), Some(fee), Some(ttl), Some(certificates), Some(withdrawals), Some(start),
          Some(mint), Some(scriptDataHash), Some(collateralInputs), Some(signers), Some(collateralOutput),
          Some(totalCollateral), Some(referenceInputs), Some(votes), Some(treasury), Some(donation)) =>
      Some(Body(inputs, outputs, fee, ttl, certificates, withdrawals, start, mint, scriptDataHash, collateralInputs,
                signers, collateralOutput, totalCollateral, referenceInputs, votes, treasury, donation))
    case _ => None
  }

  function ReadBody(i: Item): Option<Document> {
    if !i.MapOf? then None
    else
      match ReadEntries(i.entries, KEYS)
      case None => None
      case Some(v) =>
        var tagged := v[0].Some? && v[0].value.Tagged?;
        match (ReadField(ReadHash32, v[6]), ReadField(ReadNetworkId, v[12]), ReadContent(tagged, v))
        case (Some(auxDataHash), Some(networkId), Some(body)) =>
          Some(Document(tagged, auxDataHash, networkId, body))
        case _ => None
  }

  /** Bytes that are one data item and nothing else. */
  function ReadTransaction(bytes: seq<byte>): Option<Document> {
    match Decode(bytes)
    case None => None
    case Some((i, rest)) => if rest == [] then ReadBody(i) else None
  }
}
