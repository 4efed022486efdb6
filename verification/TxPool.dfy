/** The pool registration sub-machine: one certificate with counted owners and relays. */
module TxPool {
  import opened Basics
  import opened Bip44

  datatype SigningMode = ORDINARY_TX | MULTISIG_TX | PLUTUS_TX | POOL_REGISTRATION_OWNER | POOL_REGISTRATION_OPERATOR

  predicate IsPoolMode(m: SigningMode) {
    m == POOL_REGISTRATION_OWNER || m == POOL_REGISTRATION_OPERATOR
  }

  const LOVELACE_MAX_SUPPLY := 45_000_000_000_000_000
  const MARGIN_DENOMINATOR_MAX := 1_000_000_000_000_000
  const KEY_HASH_LENGTH := 28
  const POOL_MAX_OWNERS := 1000
  const URL_SIZE_MAX := 128
  const DNS_NAME_SIZE_MAX := 128
  const REWARD_ACCOUNT_SIZE := 29
  const REWARD_KEY := 14
  const REWARD_SCRIPT := 15

  type KeyHash = s: seq<byte> | |s| == KEY_HASH_LENGTH witness seq(28, _ => 0)
  type Hash32 = s: seq<byte> | |s| == 32 witness seq(32, _ => 0)
  type Account = s: seq<byte> | |s| == REWARD_ACCOUNT_SIZE witness seq(29, _ => 0)

  datatype KeyRef = ByHash(hash: KeyHash) | ByPath(path: Path)

  function HashOf(keyHashOf: Path -> KeyHash, r: KeyRef): KeyHash {
    match r
    case ByHash(h) => h
    case ByPath(p) => keyHashOf(p)
  }

  /** The reward account of a pool: its bytes, or the path of a stake key. */
  datatype RewardAccountRef = GivenAccount(account: Account) | AccountOfPath(path: Path)

  datatype Relay =
    | SingleHostIp(port: Option<uint16>, ipv4: Option<seq<byte>>, ipv6: Option<seq<byte>>)
    | SingleHostName(port: Option<uint16>, name: seq<byte>)
    | MultipleHostName(name: seq<byte>)

  datatype PoolMetadata = PoolMetadata(hash: Hash32, url: seq<byte>)

  datatype Financials = Financials(pledge: uint64, cost: uint64, marginNumerator: uint64, marginDenominator: uint64)

  predicate FinancialsAccepted(f: Financials) {
    && f.pledge < LOVELACE_MAX_SUPPLY && f.cost < LOVELACE_MAX_SUPPLY
    && 0 < f.marginDenominator <= MARGIN_DENOMINATOR_MAX
    && f.marginNumerator <= f.marginDenominator
  }

  predicate RelayAccepted(r: Relay) {
    match r
    case SingleHostIp(port, ipv4, ipv6) =>
      && port.Some? && (ipv4.Some? || ipv6.Some?)
      && (ipv4.Some? ==> |ipv4.value| == 4) && (ipv6.Some? ==> |ipv6.value| == 16)
    case SingleHostName(port, name) => port.Some? && |name| <= DNS_NAME_SIZE_MAX && UnambiguousAscii(name)
    case MultipleHostName(name) => |name| <= DNS_NAME_SIZE_MAX && UnambiguousAscii(name)
  }

  predicate MetadataAccepted(m: Option<PoolMetadata>) {
    m.Some? ==> |m.value.url| <= URL_SIZE_MAX && forall i :: 0 <= i < |m.value.url| ==> 33 <= m.value.url[i] <= 126
  }

  predicate PoolKeyAccepted(mode: SigningMode, r: KeyRef) {
    match mode
    case POOL_REGISTRATION_OWNER => r.ByHash?
    case POOL_REGISTRATION_OPERATOR => r.ByPath?
    case _ => false
  }

  /** The owner policy, but for the single-account check, whose decision and that of the user is a parameter. */
  predicate OwnerAccepted(mode: SigningMode, r: KeyRef, allowed: bool) {
    && allowed
    && match mode
       case POOL_REGISTRATION_OWNER => r.ByPath? ==> IsOrdinaryStakingKeyPath(r.path)
       case POOL_REGISTRATION_OPERATOR => r.ByHash?
       case _ => false
  }

  /** Given bytes must have the header of a reward account of the network; a path must be that of a stake key. */
  predicate RewardAccountAccepted(networkId: uint8, r: RewardAccountRef) {
    match r
    case GivenAccount(a) => a[0] / 16 in {REWARD_KEY, REWARD_SCRIPT} && a[0] % 16 == networkId
    case AccountOfPath(path) => IsOrdinaryStakingKeyPath(path)
  }

  predicate CountsAccepted(mode: SigningMode, numOwners: uint16) {
    match mode
    case POOL_REGISTRATION_OWNER => numOwners > 0
    case POOL_REGISTRATION_OPERATOR => true
    case _ => false
  }

  /** The parsed data of a request. */
  datatype PoolEvent =
    | Init(numOwners: uint32, numRelays: uint32)
    | PoolKey(poolKey: KeyRef)
    | VrfKey(vrfKeyHash: Hash32)
    | PoolFinancials(financials: Financials)
    | RewardAccount(rewardAccount: RewardAccountRef)
    | Owner(owner: KeyRef, allowed: bool)
    | AddRelay(relay: Relay)
    | Metadata(metadata: Option<PoolMetadata>)
    | ConfirmPool

  /** The calls of the transaction hash builder. */
  datatype PoolCall =
    | EnterCertificate(numOwners: uint16, numRelays: uint16)
    | AddPoolKeyHash(hash: KeyHash)
    | AddVrfKeyHash(vrf: Hash32)
    | AddFinancials(financials: Financials)
    | AddRewardAccount(account: Account)
    | EnterOwners
    | AddOwner(hash: KeyHash)
    | EnterRelays
    | AddRelayCall(relay: Relay)
    | AddMetadata(metadata: Option<PoolMetadata>)

  datatype Phase =
    | INIT | POOL_KEY | VRF_KEY | FINANCIALS | REWARD_ACCOUNT | OWNERS | RELAYS | METADATA | CONFIRM | FINISHED

  /** pool_registration_context_t, the owner path kept in the transaction context, and the calls made so far. */
  datatype State = State(phase: Phase, numOwners: uint16, numRelays: uint16, currentOwner: uint16,
                         currentRelay: uint16, ownerPath: Option<Path>, log: seq<PoolCall>)

  const START := State(INIT, 0, 0, 0, 0, None, [])

  /** What the init request of the signing call fixes for a certificate. Network ids have been checked to be below
      16. */
  datatype Setting = Setting(mode: SigningMode, networkId: uint8)

  /** The environment of a run: the setting and the derivation of key hashes. */
  datatype Env = Env(setting: Setting, keyHashOf: Path -> KeyHash)

  /** The bytes of a reward account, with the header of the network if it is derived. */
  function AccountBytes(env: Env, r: RewardAccountRef): Account {
    match r
    case GivenAccount(a) => a
    case AccountOfPath(path) => [16 * REWARD_KEY + env.setting.networkId % 16] + env.keyHashOf(path)
  }

  /** The owners are entered and, if there is none, the relays; if there is none of these either, the metadata. */
  function EnterLists(s: State): State {
    var t := s.(phase := OWNERS, log := s.log + [EnterOwners]);
    if s.numOwners > 0 then t else LeaveOwners(t)
  }

  function LeaveOwners(s: State): State {
    s.(phase := if s.numRelays > 0 then RELAYS else METADATA, log := s.log + [EnterRelays])
  }

  /** The state after a request, or None if the request is refused. */
  function Step(env: Env, s: State, e: PoolEvent): Option<State> {
    match (s.phase, e)
    case (INIT, Init(o, r)) =>
      if !CountsAccepted(env.setting.mode, Narrow16(o)) then None
      else
        Some(State(POOL_KEY, Narrow16(o), Narrow16(r), 0, 0, s.ownerPath,
                   s.log + [EnterCertificate(Narrow16(o), Narrow16(r))]))
    case (POOL_KEY, PoolKey(k)) =>
      if !PoolKeyAccepted(env.setting.mode, k) then None
      else Some(s.(phase := VRF_KEY, log := s.log + [AddPoolKeyHash(HashOf(env.keyHashOf, k))]))
    case (VRF_KEY, VrfKey(h)) =>
      if !IsPoolMode(env.setting.mode) then None else Some(s.(phase := FINANCIALS, log := s.log + [AddVrfKeyHash(h)]))
    case (FINANCIALS, PoolFinancials(f)) =>
      if !FinancialsAccepted(f) then None else Some(s.(phase := REWARD_ACCOUNT, log := s.log + [AddFinancials(f)]))
    case (REWARD_ACCOUNT, RewardAccount(a)) =>
      if !RewardAccountAccepted(env.setting.networkId, a) || !IsPoolMode(env.setting.mode) then None
      else Some(EnterLists(s.(log := s.log + [AddRewardAccount(AccountBytes(env, a))])))
    case (OWNERS, Owner(k, allowed)) =>
      if !OwnerAccepted(env.setting.mode, k, allowed) || (k.ByPath? && s.ownerPath.Some?)
         || s.currentOwner >= s.numOwners || s.currentOwner >= POOL_MAX_OWNERS
      then None
      else
        var t := s.(currentOwner := s.currentOwner + 1, log := s.log + [AddOwner(HashOf(env.keyHashOf, k))],
                    ownerPath := if k.ByPath? then Some(k.path) else s.ownerPath);
        Some(if t.currentOwner == t.numOwners then LeaveOwners(t) else t)
    case (RELAYS, AddRelay(r)) =>
      if !RelayAccepted(r) || !IsPoolMode(env.setting.mode) || s.currentRelay >= s.numRelays then None
      else
        var t := s.(currentRelay := s.currentRelay + 1, log := s.log + [AddRelayCall(r)]);
        Some(if t.currentRelay == t.numRelays then t.(phase := METADATA) else t)
    case (METADATA, Metadata(m)) =>
      if !MetadataAccepted(m) then None else Some(s.(phase := CONFIRM, log := s.log + [AddMetadata(m)]))
    case (CONFIRM, ConfirmPool) => Some(s.(phase := FINISHED))
    case _ => None
  }

  function Run(env: Env, s: State, es: seq<PoolEvent>): Option<State>
    decreases |es|
  {
    if es == [] then Some(s)
    else
      match Step(env, s, es[0])
      case None => None
      case Some(t) => Run(env, t, es[1..])
  }

  predicate Finished(s: Option<State>) {
    s.Some? && s.value.phase == FINISHED
  }

  lemma RunNext(env: Env, s: State, es: seq<PoolEvent>)
    ensures es == [] ==> Run(env, s, es) == Some(s)
    ensures es != [] && Step(env, s, es[0]).None? ==> Run(env, s, es) == None
    ensures es != [] && Step(env, s, es[0]).Some? ==> Run(env, s, es) == Run(env, Step(env, s, es[0]).value, es[1..])
    ensures s.phase == FINISHED && Run(env, s, es).Some? ==> es == []
  {
  }

  lemma {:induction false} RunAppend(env: Env, s: State, v: seq<PoolEvent>, w: seq<PoolEvent>)
    ensures Run(env, s, v + w) == match Run(env, s, v) case None => None case Some(t) => Run(env, t, w)
    decreases |v|
  {
    hide Step, Run;
    RunNext(env, s, v);
    RunNext(env, s, v + w);
    if v == [] {
      assert v + w == w;
    } else {
      assert (v + w)[0] == v[0] && (v + w)[1..] == v[1..] + w;
      if Step(env, s, v[0]).Some? {
        RunAppend(env, Step(env, s, v[0]).value, v[1..], w);
      }
    }
  }

  // ------------------------------------------------------------ certificates

  /** A certificate with the counts of owners and relays as they are sent: in 32 bits. */
  datatype Certificate = Certificate(
    numOwners: uint32, numRelays: uint32, poolKey: KeyRef, vrfKeyHash: Hash32, financials: Financials,
    rewardAccount: RewardAccountRef, owners: seq<KeyRef>, relays: seq<Relay>, metadata: Option<PoolMetadata>)

  /** Every owner passes the policy, and at most one of them is given by path. */
  predicate OwnersAccepted(mode: SigningMode, known: Option<Path>, owners: seq<KeyRef>)
    decreases |owners|
  {
    owners != [] ==>
      && OwnerAccepted(mode, owners[0], true)
      && (owners[0].ByPath? ==> known.None?)
      && OwnersAccepted(mode, if owners[0].ByPath? then Some(owners[0].path) else known, owners[1..])
  }

  /** The path of the owner given by path, if there is one. */
  function PathOwner(known: Option<Path>, owners: seq<KeyRef>): Option<Path>
    decreases |owners|
  {
    if owners == [] then known
    else PathOwner(if owners[0].ByPath? then Some(owners[0].path) else known, owners[1..])
  }

  predicate RelaysAccepted(relays: seq<Relay>) {
    forall i :: 0 <= i < |relays| ==> RelayAccepted(relays[i])
  }

  predicate WellFormed(g: Setting, c: Certificate) {
    && |c.owners| <= POOL_MAX_OWNERS && |c.relays| < TWO_16
    && Narrow16(c.numOwners) == |c.owners| && Narrow16(c.numRelays) == |c.relays|
    && CountsAccepted(g.mode, |c.owners|)
    && PoolKeyAccepted(g.mode, c.poolKey)
    && FinancialsAccepted(c.financials)
    && RewardAccountAccepted(g.networkId, c.rewardAccount)
    && OwnersAccepted(g.mode, None, c.owners)
    && RelaysAccepted(c.relays)
    && MetadataAccepted(c.metadata)
  }

  lemma {:induction false} OwnersInWords(mode: SigningMode, known: Option<Path>, owners: seq<KeyRef>)
    ensures OwnersAccepted(mode, known, owners)
       <==> && (forall i :: 0 <= i < |owners| ==> OwnerAccepted(mode, owners[i], true))
            && (forall i :: 0 <= i < |owners| && owners[i].ByPath? ==> known.None?)
            && (forall i, j :: 0 <= i < j < |owners| ==> owners[i].ByHash? || owners[j].ByHash?)
    decreases |owners|
  {
    hide OwnerAccepted;
    if owners != [] {
      var rest, next := owners[1..], if owners[0].ByPath? then Some(owners[0].path) else known;
      OwnersInWords(mode, next, rest);
      assert forall i :: 0 < i < |owners| ==> owners[i] == rest[i - 1];
      if OwnersAccepted(mode, known, owners) {
        forall i, j | 0 <= i < j < |owners| ensures owners[i].ByHash? || owners[j].ByHash? {
          assert owners[j] == rest[j - 1];
          if i > 0 { assert owners[i] == rest[i - 1]; }
        }
      } else if forall i :: 0 <= i < |owners| ==> OwnerAccepted(mode, owners[i], true) {
        forall i | 0 <= i < |rest| ensures rest[i] == owners[i + 1] {}
        assert forall i :: 0 <= i < |rest| ==> OwnerAccepted(mode, rest[i], true);
      }
    }
  }

  /** Acceptable owners: in owner mode hashes and at most one path, that of a stake key; in operator mode hashes. */
  lemma OwnersInNumbers(mode: SigningMode, owners: seq<KeyRef>)
    requires IsPoolMode(mode)
    ensures OwnersAccepted(mode, None, owners)
       <==> && (forall i, j :: 0 <= i < j < |owners| ==> owners[i].ByHash? || owners[j].ByHash?)
            && forall i :: 0 <= i < |owners| && owners[i].ByPath? ==>
                 var p := owners[i].path;
                 mode == POOL_REGISTRATION_OWNER && |p| == 5 && p[0] == 0x8000_073C && p[1] == 0x8000_0717
                 && p[2] >= 0x8000_0000 && p[3] == 2 && p[4] < 0x8000_0000
  {
    OwnersInWords(mode, None, owners);
    hide OwnersAccepted;
  }

  /** An acceptable certificate in numbers. */
  lemma CertificateInNumbers(g: Setting, c: Certificate)
    ensures WellFormed(g, c)
       <==> && |c.owners| <= 1000 && |c.relays| < 65536
            && c.numOwners % 65536 == |c.owners| && c.numRelays % 65536 == |c.relays|
            && ((g.mode == POOL_REGISTRATION_OWNER && |c.owners| > 0 && c.poolKey.ByHash?)
                || (g.mode == POOL_REGISTRATION_OPERATOR && c.poolKey.ByPath?))
            && c.financials.pledge < 45_000_000_000_000_000 && c.financials.cost < 45_000_000_000_000_000
            && 0 < c.financials.marginDenominator <= 1_000_000_000_000_000
            && c.financials.marginNumerator <= c.financials.marginDenominator
            && RewardAccountAccepted(g.networkId, c.rewardAccount)
            && OwnersAccepted(g.mode, None, c.owners)
            && RelaysAccepted(c.relays)
            && (c.metadata.Some? ==>
                  |c.metadata.value.url| <= 128
                  && forall i :: 0 <= i < |c.metadata.value.url| ==> 0x21 <= c.metadata.value.url[i] <= 0x7e)
  {
    hide OwnersAccepted, RelaysAccepted, RewardAccountAccepted;
  }

  /** Reward accounts: given bytes begin with e or f and the network, a derived one with e and the network; a path is
      that of a stake key. */
  lemma RewardAccountInNumbers(env: Env, r: RewardAccountRef)
    requires env.setting.networkId < 16
    ensures RewardAccountAccepted(env.setting.networkId, r)
       <==> match r
            case GivenAccount(a) => a[0] == 0xe0 + env.setting.networkId || a[0] == 0xf0 + env.setting.networkId
            case AccountOfPath(p) =>
              |p| == 5 && p[0] == 0x8000_073C && p[1] == 0x8000_0717 && p[2] >= 0x8000_0000 && p[3] == 2
              && p[4] < 0x8000_0000
    ensures AccountBytes(env, r)
         == match r case GivenAccount(a) => a
                    case AccountOfPath(p) => [0xe0 + env.setting.networkId] + env.keyHashOf(p)
  {
  }

  /** A relay has a port if it is named by its address or by a name with one, an address of 4 or 16 bytes or both, and a
      name of printable text of at most 128 characters. */
  lemma RelayInNumbers(r: Relay)
    ensures RelayAccepted(r)
       <==> match r
            case SingleHostIp(port, ipv4, ipv6) =>
              port.Some? && (ipv4.Some? || ipv6.Some?) && (ipv4.Some? ==> |ipv4.value| == 4)
              && (ipv6.Some? ==> |ipv6.value| == 16)
            case SingleHostName(port, name) => port.Some? && |name| <= 128 && UnambiguousAscii(name)
            case MultipleHostName(name) => |name| <= 128 && UnambiguousAscii(name)
  {
    hide UnambiguousAscii;
  }

  function OwnerEvents(owners: seq<KeyRef>): (es: seq<PoolEvent>)
    ensures |es| == |owners|
  {
    if owners == [] then [] else [Owner(owners[0], true)] + OwnerEvents(owners[1..])
  }

  function RelayEvents(relays: seq<Relay>): (es: seq<PoolEvent>)
    ensures |es| == |relays|
  {
    if relays == [] then [] else [AddRelay(relays[0])] + RelayEvents(relays[1..])
  }

  /** The requests by which a certificate arrives. */
  function Requests(c: Certificate): seq<PoolEvent> {
    [Init(c.numOwners, c.numRelays), PoolKey(c.poolKey), VrfKey(c.vrfKeyHash), PoolFinancials(c.financials),
     RewardAccount(c.rewardAccount)]
    + OwnerEvents(c.owners) + RelayEvents(c.relays) + [Metadata(c.metadata), ConfirmPool]
  }

  ghost predicate Received(g: Setting, es: seq<PoolEvent>, c: Certificate) {
    WellFormed(g, c) && Requests(c) == es
  }

  function OwnerCalls(keyHashOf: Path -> KeyHash, owners: seq<KeyRef>): (s: seq<PoolCall>)
    ensures |s| == |owners|
  {
    if owners == [] then [] else [AddOwner(HashOf(keyHashOf, owners[0]))] + OwnerCalls(keyHashOf, owners[1..])
  }

  function RelayCalls(relays: seq<Relay>): (s: seq<PoolCall>)
    ensures |s| == |relays|
  {
    if relays == [] then [] else [AddRelayCall(relays[0])] + RelayCalls(relays[1..])
  }

  /** The word of builder calls that a certificate stands for: exactly the declared number of owners and relays. */
  function CertificateCalls(env: Env, c: Certificate): seq<PoolCall>
    requires |c.owners| < TWO_16 && |c.relays| < TWO_16
  {
    [EnterCertificate(|c.owners|, |c.relays|), AddPoolKeyHash(HashOf(env.keyHashOf, c.poolKey)),
     AddVrfKeyHash(c.vrfKeyHash), AddFinancials(c.financials), AddRewardAccount(AccountBytes(env, c.rewardAccount)),
     EnterOwners]
    + OwnerCalls(env.keyHashOf, c.owners) + [EnterRelays] + RelayCalls(c.relays) + [AddMetadata(c.metadata)]
  }

  // ------------------------------------------------------------ from a finished run back to the certificate

  lemma FromMetadata(env: Env, s: State, es: seq<PoolEvent>)
    requires s.phase == METADATA
    ensures Finished(Run(env, s, es)) <==>
            |es| == 2 && es[0].Metadata? && MetadataAccepted(es[0].metadata) && es[1] == ConfirmPool
    ensures Finished(Run(env, s, es)) ==>
            Run(env, s, es).value == s.(phase := FINISHED, log := s.log + [AddMetadata(es[0].metadata)])
  {
    hide Run, MetadataAccepted;
    RunNext(env, s, es);
    if es != [] && Step(env, s, es[0]).Some? {
      var t := Step(env, s, es[0]).value;
      RunNext(env, t, es[1..]);
      if |es| > 1 && es[1].ConfirmPool? {
        RunNext(env, t.(phase := FINISHED), es[1..][1..]);
      }
    }
  }

  lemma {:induction false} FromRelays(env: Env, s: State, es: seq<PoolEvent>)
      returns (relays: seq<Relay>, rest: seq<PoolEvent>)
    requires s.phase == RELAYS && s.currentRelay < s.numRelays && Finished(Run(env, s, es))
    ensures |relays| == s.numRelays - s.currentRelay && RelaysAccepted(relays) && es == RelayEvents(relays) + rest
    ensures Run(env, s, es)
         == Run(env, s.(phase := METADATA, currentRelay := s.numRelays, log := s.log + RelayCalls(relays)), rest)
    decreases |es|
  {
    hide Run, RelayAccepted;
    RunNext(env, s, es);
    var r := es[0].relay;
    var t := Step(env, s, es[0]).value;
    assert es == [es[0]] + es[1..];
    var more := [];
    rest := es[1..];
    if t.phase == RELAYS {
      more, rest := FromRelays(env, t, es[1..]);
    }
    relays := [r] + more;
    assert relays[1..] == more;
    Glue(t.log + RelayCalls(more), s.log, [AddRelayCall(r)], RelayCalls(more));
    if t.phase == METADATA {
      assert t.log == s.log + RelayCalls(relays);
    }
  }

  lemma {:induction false} FromOwners(env: Env, s: State, es: seq<PoolEvent>)
      returns (owners: seq<KeyRef>, rest: seq<PoolEvent>)
    requires s.phase == OWNERS && s.currentOwner < s.numOwners && Finished(Run(env, s, es))
    ensures |owners| == s.numOwners - s.currentOwner && OwnersAccepted(env.setting.mode, s.ownerPath, owners)
    ensures s.numOwners <= POOL_MAX_OWNERS
    ensures es == OwnerEvents(owners) + rest
    ensures Run(env, s, es)
         == Run(env, LeaveOwners(s.(currentOwner := s.numOwners, ownerPath := PathOwner(s.ownerPath, owners),
                                    log := s.log + OwnerCalls(env.keyHashOf, owners))), rest)
    decreases |es|
  {
    hide Run, IsOrdinaryStakingKeyPath, HashOf;
    RunNext(env, s, es);
    var k := es[0].owner;
    var t := Step(env, s, es[0]).value;
    assert es == [es[0]] + es[1..];
    var call := [AddOwner(HashOf(env.keyHashOf, k))];
    if t.phase == OWNERS {
      var more;
      more, rest := FromOwners(env, t, es[1..]);
      owners := [k] + more;
      assert owners[1..] == more;
      Glue(t.log + OwnerCalls(env.keyHashOf, more), s.log, call, OwnerCalls(env.keyHashOf, more));
      Glue(es, [es[0]], OwnerEvents(more), rest);
    } else {
      owners, rest := [k], es[1..];
      assert owners[1..] == [];
      assert OwnerCalls(env.keyHashOf, owners) == call + OwnerCalls(env.keyHashOf, []) == call;
      assert PathOwner(s.ownerPath, owners) == t.ownerPath;
    }
  }

  /** The first five requests and what they make of the state. */
  lemma FirstFive(env: Env, es: seq<PoolEvent>) returns (s: State)
    requires Finished(Run(env, START, es))
    ensures |es| >= 5
    ensures && es[0].Init? && CountsAccepted(env.setting.mode, Narrow16(es[0].numOwners))
            && es[1].PoolKey? && PoolKeyAccepted(env.setting.mode, es[1].poolKey)
            && es[2].VrfKey?
            && es[3].PoolFinancials? && FinancialsAccepted(es[3].financials)
            && es[4].RewardAccount? && RewardAccountAccepted(env.setting.networkId, es[4].rewardAccount)
    ensures s == State(REWARD_ACCOUNT, Narrow16(es[0].numOwners), Narrow16(es[0].numRelays), 0, 0, None,
                       [EnterCertificate(Narrow16(es[0].numOwners), Narrow16(es[0].numRelays)),
                        AddPoolKeyHash(HashOf(env.keyHashOf, es[1].poolKey)), AddVrfKeyHash(es[2].vrfKeyHash),
                        AddFinancials(es[3].financials), AddRewardAccount(AccountBytes(env, es[4].rewardAccount))])
    ensures Run(env, START, es) == Run(env, EnterLists(s), es[5..])
  {
    hide Run, PoolKeyAccepted, FinancialsAccepted, HashOf, EnterLists;
    RunNext(env, START, es);
    var s1 := Step(env, START, es[0]).value;
    RunNext(env, s1, es[1..]);
    var s2 := Step(env, s1, es[1]).value;
    RunNext(env, s2, es[1..][1..]);
    assert es[1..][1..] == es[2..];
    var s3 := Step(env, s2, es[2]).value;
    RunNext(env, s3, es[2..][1..]);
    assert es[2..][1..] == es[3..];
    var s4 := Step(env, s3, es[3]).value;
    RunNext(env, s4, es[3..][1..]);
    assert es[3..][1..] == es[4..] && es[4..][1..] == es[5..];
    s := s4.(log := s4.log + [AddRewardAccount(AccountBytes(env, es[4].rewardAccount))]);
  }

  /** The owners and relays of a run that has received the reward account. */
  lemma FromLists(env: Env, s: State, es: seq<PoolEvent>)
      returns (owners: seq<KeyRef>, relays: seq<Relay>, last: seq<PoolEvent>, t: State)
    requires s.phase == REWARD_ACCOUNT && s.currentOwner == 0 && s.currentRelay == 0 && s.ownerPath.None?
    requires Finished(Run(env, EnterLists(s), es))
    ensures |owners| == s.numOwners <= POOL_MAX_OWNERS && OwnersAccepted(env.setting.mode, None, owners)
    ensures |relays| == s.numRelays && RelaysAccepted(relays)
    ensures es == OwnerEvents(owners) + (RelayEvents(relays) + last)
    ensures t.phase == METADATA && t.ownerPath == PathOwner(None, owners)
    ensures t.log == s.log + [EnterOwners] + OwnerCalls(env.keyHashOf, owners) + [EnterRelays] + RelayCalls(relays)
    ensures Run(env, EnterLists(s), es) == Run(env, t, last)
  {
    hide Run, HashOf, OwnerAccepted, RelayAccepted;
    t := EnterLists(s);
    var rest;
    owners, rest := [], es;
    if t.phase == OWNERS {
      owners, rest := FromOwners(env, t, es);
      t := LeaveOwners(t.(currentOwner := t.numOwners, ownerPath := PathOwner(None, owners),
                          log := t.log + OwnerCalls(env.keyHashOf, owners)));
    }
    Owned(s.log + [EnterOwners], OwnerCalls(env.keyHashOf, owners), t.log);
    relays, last := [], rest;
    if t.phase == RELAYS {
      relays, last := FromRelays(env, t, rest);
      t := t.(phase := METADATA, currentRelay := t.numRelays, log := t.log + RelayCalls(relays));
    } else {
      assert t.log == t.log + RelayCalls(relays) && rest == RelayEvents(relays) + last;
    }
  }

  lemma CertificateOf(env: Env, es: seq<PoolEvent>) returns (c: Certificate)
    requires Finished(Run(env, START, es))
    ensures Received(env.setting, es, c)
    ensures Run(env, START, es).value.log == CertificateCalls(env, c)
    ensures Run(env, START, es).value.ownerPath == PathOwner(None, c.owners)
  {
    hide Run, PoolKeyAccepted, FinancialsAccepted, HashOf, OwnerAccepted, RelayAccepted, MetadataAccepted, EnterLists,
         OwnerCalls, RelayCalls, Requests, CertificateCalls, OwnersAccepted;
    var s := FirstFive(env, es);
    var owners, relays, last, t := FromLists(env, s, es[5..]);
    FromMetadata(env, t, last);
    c := Certificate(es[0].numOwners, es[0].numRelays, es[1].poolKey, es[2].vrfKeyHash, es[3].financials,
      es[4].rewardAccount, owners, relays, last[0].metadata);
    Flattened(es, c, RelayEvents(relays) + last, last);
    Ended(env, c, s.log + [EnterOwners], Run(env, START, es).value.log);
  }

  lemma Owned(head: seq<PoolCall>, calls: seq<PoolCall>, log: seq<PoolCall>)
    requires log == head + calls + [EnterRelays] || (calls == [] && log == head + [EnterRelays])
    ensures log == head + calls + [EnterRelays]
  {
    assert calls == [] ==> head + calls == head;
  }

  lemma Flattened(es: seq<PoolEvent>, c: Certificate, rest: seq<PoolEvent>, last: seq<PoolEvent>)
    requires |es| >= 5 && |last| == 2
    requires es[0] == Init(c.numOwners, c.numRelays) && es[1] == PoolKey(c.poolKey) && es[2] == VrfKey(c.vrfKeyHash)
    requires es[3] == PoolFinancials(c.financials) && es[4] == RewardAccount(c.rewardAccount)
    requires es[5..] == OwnerEvents(c.owners) + rest && rest == RelayEvents(c.relays) + last
    requires last[0] == Metadata(c.metadata) && last[1] == ConfirmPool
    ensures es == Requests(c)
  {
    var first := [Init(c.numOwners, c.numRelays), PoolKey(c.poolKey), VrfKey(c.vrfKeyHash),
                  PoolFinancials(c.financials), RewardAccount(c.rewardAccount)];
    assert es == first + es[5..];
    assert last == [Metadata(c.metadata), ConfirmPool];
  }

  lemma Ended(env: Env, c: Certificate, head: seq<PoolCall>, log: seq<PoolCall>)
    requires |c.owners| < TWO_16 && |c.relays| < TWO_16
    requires head == [EnterCertificate(|c.owners|, |c.relays|), AddPoolKeyHash(HashOf(env.keyHashOf, c.poolKey)),
                      AddVrfKeyHash(c.vrfKeyHash), AddFinancials(c.financials),
                      AddRewardAccount(AccountBytes(env, c.rewardAccount))] + [EnterOwners]
    requires log == head + OwnerCalls(env.keyHashOf, c.owners) + [EnterRelays] + RelayCalls(c.relays)
                    + [AddMetadata(c.metadata)]
    ensures log == CertificateCalls(env, c)
  {
    hide OwnerCalls, RelayCalls;
  }

  // ------------------------------------------------------------ and from a certificate to its run

  lemma {:induction false} RunRelays(env: Env, s: State, relays: seq<Relay>, rest: seq<PoolEvent>)
    requires s.phase == RELAYS && 0 < |relays| == s.numRelays - s.currentRelay && RelaysAccepted(relays)
    requires IsPoolMode(env.setting.mode)
    ensures Run(env, s, RelayEvents(relays) + rest)
         == Run(env, s.(phase := METADATA, currentRelay := s.numRelays, log := s.log + RelayCalls(relays)), rest)
    decreases |relays|
  {
    hide Run, RelayAccepted;
    var e, more := AddRelay(relays[0]), relays[1..];
    Glue(RelayEvents(relays) + rest, [e], RelayEvents(more), rest);
    RunNext(env, s, RelayEvents(relays) + rest);
    assert (RelayEvents(relays) + rest)[1..] == RelayEvents(more) + rest;
    var t := Step(env, s, e).value;
    Glue(t.log + RelayCalls(more), s.log, [AddRelayCall(relays[0])], RelayCalls(more));
    if more == [] {
      assert RelayEvents(more) + rest == rest;
      assert t.log == s.log + RelayCalls(relays);
    } else {
      RunRelays(env, t, more, rest);
    }
  }

  lemma {:induction false} RunOwners(env: Env, s: State, owners: seq<KeyRef>, rest: seq<PoolEvent>)
    requires s.phase == OWNERS && 0 < |owners| == s.numOwners - s.currentOwner && s.numOwners <= POOL_MAX_OWNERS
    requires OwnersAccepted(env.setting.mode, s.ownerPath, owners)
    ensures Run(env, s, OwnerEvents(owners) + rest)
         == Run(env, LeaveOwners(s.(currentOwner := s.numOwners, ownerPath := PathOwner(s.ownerPath, owners),
                                    log := s.log + OwnerCalls(env.keyHashOf, owners))), rest)
    decreases |owners|
  {
    hide Run, IsOrdinaryStakingKeyPath, HashOf;
    var e, more := Owner(owners[0], true), owners[1..];
    Glue(OwnerEvents(owners) + rest, [e], OwnerEvents(more), rest);
    RunNext(env, s, OwnerEvents(owners) + rest);
    assert (OwnerEvents(owners) + rest)[1..] == OwnerEvents(more) + rest;
    var t := Step(env, s, e).value;
    var call := [AddOwner(HashOf(env.keyHashOf, owners[0]))];
    if more == [] {
      assert OwnerEvents(more) + rest == rest;
      assert OwnerCalls(env.keyHashOf, owners) == call + OwnerCalls(env.keyHashOf, []) == call;
      assert PathOwner(s.ownerPath, owners) == t.ownerPath;
    } else {
      Glue(t.log + OwnerCalls(env.keyHashOf, more), s.log, call, OwnerCalls(env.keyHashOf, more));
      RunOwners(env, t, more, rest);
    }
  }

  /** The first five requests of a well-formed certificate are accepted. */
  lemma RunFirstFive(env: Env, es: seq<PoolEvent>, c: Certificate) returns (s: State)
    requires |es| >= 5 && es[0].Init? && CountsAccepted(env.setting.mode, Narrow16(es[0].numOwners))
    requires es[1] == PoolKey(c.poolKey) && PoolKeyAccepted(env.setting.mode, c.poolKey)
    requires es[2] == VrfKey(c.vrfKeyHash)
    requires es[3] == PoolFinancials(c.financials) && FinancialsAccepted(c.financials)
    requires es[4] == RewardAccount(c.rewardAccount)
    requires RewardAccountAccepted(env.setting.networkId, c.rewardAccount)
    ensures s.phase == REWARD_ACCOUNT && s.numOwners == Narrow16(es[0].numOwners) && s.currentOwner == 0
    ensures s.numRelays == Narrow16(es[0].numRelays) && s.currentRelay == 0 && s.ownerPath.None?
    ensures Run(env, START, es) == Run(env, EnterLists(s), es[5..])
  {
    hide Run, FinancialsAccepted, HashOf, EnterLists;
    RunNext(env, START, es);
    var s1 := Step(env, START, es[0]).value;
    RunNext(env, s1, es[1..]);
    var s2 := Step(env, s1, es[1]).value;
    RunNext(env, s2, es[1..][1..]);
    assert es[1..][1..] == es[2..];
    var s3 := Step(env, s2, es[2]).value;
    RunNext(env, s3, es[2..][1..]);
    assert es[2..][1..] == es[3..];
    var s4 := Step(env, s3, es[3]).value;
    RunNext(env, s4, es[3..][1..]);
    assert es[3..][1..] == es[4..] && es[4..][1..] == es[5..];
    s := s4.(log := s4.log + [AddRewardAccount(AccountBytes(env, es[4].rewardAccount))]);
  }

  lemma RequestsAccepted(env: Env, c: Certificate)
    requires WellFormed(env.setting, c)
    ensures Finished(Run(env, START, Requests(c)))
  {
    hide Run, PoolKeyAccepted, FinancialsAccepted, HashOf, OwnerAccepted, RelayAccepted, MetadataAccepted;
    var es := Requests(c);
    var last := [Metadata(c.metadata), ConfirmPool];
    Tail(c);
    var s := RunFirstFive(env, es, c);
    var t := EnterLists(s);
    var rest := RelayEvents(c.relays) + last;
    if c.owners == [] {
      assert OwnerEvents(c.owners) + rest == rest;
    } else {
      RunOwners(env, t, c.owners, rest);
      t := LeaveOwners(t.(currentOwner := t.numOwners, ownerPath := PathOwner(None, c.owners),
                          log := t.log + OwnerCalls(env.keyHashOf, c.owners)));
    }
    if c.relays == [] {
      assert rest == last;
    } else {
      ModeOf(env.setting, c);
      RunRelays(env, t, c.relays, last);
      t := t.(phase := METADATA, currentRelay := t.numRelays, log := t.log + RelayCalls(c.relays));
    }
    FromMetadata(env, t, last);
  }

  lemma ModeOf(g: Setting, c: Certificate)
    requires WellFormed(g, c)
    ensures IsPoolMode(g.mode)
  {
  }

  lemma Tail(c: Certificate)
    ensures var es := Requests(c);
      && |es| >= 5 && es[0] == Init(c.numOwners, c.numRelays) && es[1] == PoolKey(c.poolKey)
      && es[2] == VrfKey(c.vrfKeyHash) && es[3] == PoolFinancials(c.financials)
      && es[4] == RewardAccount(c.rewardAccount)
      && es[5..] == OwnerEvents(c.owners) + (RelayEvents(c.relays) + [Metadata(c.metadata), ConfirmPool])
  {
  }

  lemma {:induction false} OwnerEventsInjective(a: seq<KeyRef>, b: seq<KeyRef>)
    requires OwnerEvents(a) == OwnerEvents(b)
    ensures a == b
  {
    assert |OwnerEvents(a)| == |a| && |OwnerEvents(b)| == |b|;
    if a != [] {
      assert OwnerEvents(a)[0] == OwnerEvents(b)[0];
      assert OwnerEvents(a)[1..] == OwnerEvents(a[1..]) && OwnerEvents(b)[1..] == OwnerEvents(b[1..]);
      OwnerEventsInjective(a[1..], b[1..]);
      assert a == [a[0]] + a[1..] && b == [b[0]] + b[1..];
    }
  }

  lemma {:induction false} RelayEventsInjective(a: seq<Relay>, b: seq<Relay>)
    requires RelayEvents(a) == RelayEvents(b)
    ensures a == b
  {
    assert |RelayEvents(a)| == |a| && |RelayEvents(b)| == |b|;
    if a != [] {
      assert RelayEvents(a)[0] == RelayEvents(b)[0];
      assert RelayEvents(a)[1..] == RelayEvents(a[1..]) && RelayEvents(b)[1..] == RelayEvents(b[1..]);
      RelayEventsInjective(a[1..], b[1..]);
      assert a == [a[0]] + a[1..] && b == [b[0]] + b[1..];
    }
  }

  /** No requests stand for two certificates. */
  lemma RequestsInjective(g: Setting, c: Certificate, d: Certificate)
    requires WellFormed(g, c) && WellFormed(g, d) && Requests(c) == Requests(d)
    ensures c == d
  {
    hide OwnersAccepted, RelaysAccepted, MetadataAccepted, FinancialsAccepted, PoolKeyAccepted, CountsAccepted,
         OwnerEvents, RelayEvents;
    Tail(c);
    Tail(d);
    assert |c.owners| == |d.owners| && |c.relays| == |d.relays|;
    var n, m := |c.owners|, |c.relays|;
    var x, y := Requests(c)[5..], Requests(d)[5..];
    assert x[..n] == OwnerEvents(c.owners) && y[..n] == OwnerEvents(d.owners);
    assert x[n..n + m] == RelayEvents(c.relays) && y[n..n + m] == RelayEvents(d.relays);
    assert x[n + m] == Metadata(c.metadata) && y[n + m] == Metadata(d.metadata);
    OwnerEventsInjective(c.owners, d.owners);
    RelayEventsInjective(c.relays, d.relays);
  }

  /** A finished run has received one well-formed certificate with as many owners and relays as the stored counts
      say, and one only. Its log is the word of the certificate, and the path kept for the witness policy is that of
      the one owner given by path, if there is one. */
  lemma FinishedRun(env: Env, es: seq<PoolEvent>)
    ensures Finished(Run(env, START, es)) <==> exists c :: Received(env.setting, es, c)
    ensures forall c :: Received(env.setting, es, c) ==>
            && Run(env, START, es).value.log == CertificateCalls(env, c)
            && Run(env, START, es).value.ownerPath == PathOwner(None, c.owners)
    ensures forall c, d :: Received(env.setting, es, c) && Received(env.setting, es, d) ==> c == d
  {
    hide Run, CertificateCalls, Requests, WellFormed;
    forall c, d | Received(env.setting, es, c) && Received(env.setting, es, d) ensures c == d {
      RequestsInjective(env.setting, c, d);
    }
    if c :| Received(env.setting, es, c) {
      RequestsAccepted(env, c);
    }
    if Finished(Run(env, START, es)) {
      var c := CertificateOf(env, es);
      assert Received(env.setting, es, c);
    }
  }

  // ------------------------------------------------------------ the limits on the counts

  /** The init handler accepts counts above its limits. */
  lemma LimitsNotChecked(env: Env)
    requires IsPoolMode(env.setting.mode)
    ensures Step(env, START, Init(POOL_MAX_OWNERS + 1, 1001)).Some?
  {
  }

  /** What an accepted init request stores: counts within the limits, or the counts that were sent, exactly if
      they are so in their low 16 bits, or fit these. */
  lemma StoredCounts(env: Env, o: uint32, r: uint32)
    requires Step(env, START, Init(o, r)).Some?
    ensures var s := Step(env, START, Init(o, r)).value;
      && (s.numOwners <= POOL_MAX_OWNERS && s.numRelays <= 1000
          <==> o % TWO_16 <= POOL_MAX_OWNERS && r % TWO_16 <= 1000)
      && (s.numOwners == o && s.numRelays == r <==> o < TWO_16 && r < TWO_16)
  {
  }

  /** The limit on owners is enforced in the end, by the screen of the first owner beyond it: a certificate that
      declares more is never finished. */
  lemma OwnersLimited(env: Env, es: seq<PoolEvent>)
    requires Finished(Run(env, START, es))
    ensures es != [] && es[0].Init? && es[0].numOwners % TWO_16 <= POOL_MAX_OWNERS
  {
    hide Run;
    FinishedRun(env, es);
    var c :| Received(env.setting, es, c);
  }

  /** The limit on relays is never enforced: a certificate with any number of relays below 65536 in place of its own
      is accepted to the end. */
  lemma RelaysUnlimited(env: Env, c: Certificate, relays: seq<Relay>)
    requires WellFormed(env.setting, c) && RelaysAccepted(relays) && |relays| < TWO_16
    ensures Finished(Run(env, START, Requests(c.(numRelays := |relays|, relays := relays))))
  {
    hide Run, Requests;
    RequestsAccepted(env, c.(numRelays := |relays|, relays := relays));
  }

  /** If two owners were given by path the certificate would be refused: the path kept is the only one. */
  lemma {:induction false} OneOwnerByPath(mode: SigningMode, known: Option<Path>, owners: seq<KeyRef>, i: nat)
    requires OwnersAccepted(mode, known, owners) && i < |owners| && owners[i].ByPath?
    ensures known.None? && PathOwner(known, owners) == Some(owners[i].path)
    ensures forall j :: 0 <= j < |owners| && owners[j].ByPath? ==> j == i
    decreases |owners|
  {
    hide OwnerAccepted;
    var more := owners[1..];
    if i == 0 {
      NoneByPath(mode, Some(owners[0].path), more);
      assert forall j :: 0 < j < |owners| ==> owners[j] == more[j - 1];
    } else {
      OneOwnerByPath(mode, if owners[0].ByPath? then Some(owners[0].path) else known, more, i - 1);
      assert forall j :: 0 < j < |owners| ==> owners[j] == more[j - 1];
    }
  }

  lemma {:induction false} NoneByPath(mode: SigningMode, known: Option<Path>, owners: seq<KeyRef>)
    requires OwnersAccepted(mode, known, owners) && known.Some?
    ensures PathOwner(known, owners) == known
    ensures forall j :: 0 <= j < |owners| ==> owners[j].ByHash?
    decreases |owners|
  {
    hide OwnerAccepted;
    if owners != [] {
      NoneByPath(mode, known, owners[1..]);
      assert forall j :: 0 < j < |owners| ==> owners[j] == owners[1..][j - 1];
    }
  }

  lemma {:induction false} NoOwnerByPath(known: Option<Path>, owners: seq<KeyRef>)
    requires forall j :: 0 <= j < |owners| ==> owners[j].ByHash?
    ensures PathOwner(known, owners) == known
    decreases |owners|
  {
    if owners != [] {
      NoOwnerByPath(known, owners[1..]);
    }
  }

  // ------------------------------------------------------------ the handlers

  /** pool_registration_context_t with the owner path of the transaction context. The log is the sequence of calls
      made to the transaction hash builder, the ghost field records the accepted requests. */
  class PoolContext {
    const keyHashOf: Path -> KeyHash
    var txSigningMode: SigningMode
    var networkId: uint8
    var state: Phase
    var currentOwner: uint16
    var numOwnersGivenByPath: uint16
    var currentRelay: uint16
    var numOwners: uint16
    var numRelays: uint16
    var poolOwnerPath: Option<Path>
    var log: seq<PoolCall>
    ghost var events: seq<PoolEvent>

    constructor (keyHashOf: Path -> KeyHash)
      ensures Valid() && events == [] && poolOwnerPath.None? && this.keyHashOf == keyHashOf
    {
      this.keyHashOf := keyHashOf;
      txSigningMode, networkId, state, poolOwnerPath, log, events := ORDINARY_TX, 0, INIT, None, [], [];
      currentOwner, numOwnersGivenByPath, currentRelay, numOwners, numRelays := 0, 0, 0, 0, 0;
    }

    ghost function Current(): State
      reads this
    {
      State(state, numOwners, numRelays, currentOwner, currentRelay, poolOwnerPath, log)
    }

    function CommonData(): Setting
      reads this`txSigningMode, this`networkId
    {
      Setting(txSigningMode, networkId)
    }

    ghost function Environment(): Env
      reads this`txSigningMode, this`networkId
    {
      Env(CommonData(), keyHashOf)
    }

    ghost predicate Valid()
      reads this
    {
      && Run(Environment(), START, events) == Some(Current())
      && (state == INIT ==> Current() == START)
      && (state == OWNERS ==> currentOwner < numOwners)
      && (state == RELAYS ==> currentRelay < numRelays)
      && (state in {POOL_KEY, VRF_KEY, FINANCIALS, REWARD_ACCOUNT} ==> currentOwner == 0)
      && (state in {POOL_KEY, VRF_KEY, FINANCIALS, REWARD_ACCOUNT, OWNERS} ==> currentRelay == 0)
      && (txSigningMode == POOL_REGISTRATION_OPERATOR ==> poolOwnerPath.None?)
      && numOwnersGivenByPath == if poolOwnerPath.Some? then 1 else 0
    }

    /** signTxPoolRegistration_init, in a transaction that has not seen an owner path. */
    method Initialize(g: Setting)
      requires poolOwnerPath.None?
      modifies this
      ensures Valid() && events == [] && CommonData() == g && poolOwnerPath.None? && Current() == START
    {
      txSigningMode, networkId, state, log, events := g.mode, g.networkId, INIT, [], [];
      currentOwner, numOwnersGivenByPath, currentRelay, numOwners, numRelays := 0, 0, 0, 0, 0;
    }

    /** advanceState: from the reward account on it falls through lists that are empty. */
    method AdvanceState() returns (ok: bool)
      modifies this`state, this`log
      ensures ok <==> match old(state)
                      case REWARD_ACCOUNT => numOwners == 0 ==>
                        currentOwner == 0 && (numRelays == 0 ==> currentRelay == 0)
                      case OWNERS => currentOwner == numOwners && (numRelays == 0 ==> currentRelay == 0)
                      case RELAYS => currentRelay == numRelays
                      case FINISHED => false
                      case _ => true
      ensures ok ==> Current() == match old(state)
                                  case INIT => old(Current()).(phase := POOL_KEY)
                                  case POOL_KEY => old(Current()).(phase := VRF_KEY)
                                  case VRF_KEY => old(Current()).(phase := FINANCIALS)
                                  case FINANCIALS => old(Current()).(phase := REWARD_ACCOUNT)
                                  case REWARD_ACCOUNT => EnterLists(old(Current()))
                                  case OWNERS => LeaveOwners(old(Current()))
                                  case RELAYS => old(Current()).(phase := METADATA)
                                  case METADATA => old(Current()).(phase := CONFIRM)
                                  case _ => old(Current()).(phase := FINISHED)
    {
      var at := state;
      match state {
        case INIT => state := POOL_KEY; return true;
        case POOL_KEY => state := VRF_KEY; return true;
        case VRF_KEY => state := FINANCIALS; return true;
        case FINANCIALS => state := REWARD_ACCOUNT; return true;
        case METADATA => state := CONFIRM; return true;
        case CONFIRM => state := FINISHED; return true;
        case FINISHED => return false;
        case _ =>
      }
      if at == REWARD_ACCOUNT {
        log := log + [EnterOwners];
        state := OWNERS;
        if numOwners > 0 { return true; }
        at := OWNERS;
      }
      if at == OWNERS {
        if currentOwner != numOwners { return false; }
        log := log + [EnterRelays];
        state := RELAYS;
        if numRelays > 0 { return true; }
        at := RELAYS;
      }
      if currentRelay != numRelays { return false; }
      state := METADATA;
      return true;
    }

    /** Records an accepted request. */
    ghost method Record(before: State, e: PoolEvent)
      requires Run(Environment(), START, events) == Some(before)
      requires Step(Environment(), before, e) == Some(Current())
      modifies this`events
      ensures Run(Environment(), START, events) == Some(Current()) && events == old(events) + [e]
    {
      hide Run, Step;
      RunAppend(Environment(), START, events, [e]);
      RunNext(Environment(), before, [e]);
      RunNext(Environment(), Current(), [e][1..]);
      events := events + [e];
    }

    /** The counts are compared with their limits before they are stored, when the fields still hold
        zeros: any count passes and is narrowed to 16 bits. */
    method HandleInit(o: uint32, r: uint32) returns (ok: bool)
      requires Valid()
      modifies this
      ensures CommonData() == old(CommonData())
      ensures ok <==> Step(Environment(), old(Current()), Init(o, r)).Some?
      ensures ok ==> Step(Environment(), old(Current()), Init(o, r)) == Some(Current())
      ensures ok ==> Valid() && events == old(events) + [Init(o, r)]
    {
      hide Run;
      ghost var before := Current();
      if state != INIT { return false; }
      currentOwner, currentRelay := 0, 0;
      if numOwners > 1000 || numRelays > 1000 { return false; }
      numOwners, numRelays := Narrow16(o), Narrow16(r);
      if !CountsAccepted(txSigningMode, numOwners) { return false; }
      log := log + [EnterCertificate(numOwners, numRelays)];
      var advanced := AdvanceState();
      assert advanced;
      Record(before, Init(o, r));
      return true;
    }

    method HandlePoolKey(k: KeyRef) returns (ok: bool)
      requires Valid()
      modifies this
      ensures CommonData() == old(CommonData())
      ensures ok <==> Step(Environment(), old(Current()), PoolKey(k)).Some?
      ensures ok ==> Step(Environment(), old(Current()), PoolKey(k)) == Some(Current())
      ensures ok ==> Valid() && events == old(events) + [PoolKey(k)]
    {
      hide Run, IsOrdinaryStakingKeyPath, RelayAccepted, MetadataAccepted, FinancialsAccepted, HashOf, OwnerAccepted;
      ghost var before := Current();
      if state != POOL_KEY { return false; }
      if !PoolKeyAccepted(txSigningMode, k) { return false; }
      log := log + [AddPoolKeyHash(HashOf(keyHashOf, k))];
      var advanced := AdvanceState();
      assert advanced;
      Record(before, PoolKey(k));
      return true;
    }

    method HandleVrfKey(h: Hash32) returns (ok: bool)
      requires Valid()
      modifies this
      ensures CommonData() == old(CommonData())
      ensures ok <==> Step(Environment(), old(Current()), VrfKey(h)).Some?
      ensures ok ==> Step(Environment(), old(Current()), VrfKey(h)) == Some(Current())
      ensures ok ==> Valid() && events == old(events) + [VrfKey(h)]
    {
      hide Run, IsOrdinaryStakingKeyPath, RelayAccepted, MetadataAccepted, FinancialsAccepted, HashOf, OwnerAccepted;
      ghost var before := Current();
      if state != VRF_KEY { return false; }
      if !IsPoolMode(txSigningMode) { return false; }
      log := log + [AddVrfKeyHash(h)];
      var advanced := AdvanceState();
      assert advanced;
      Record(before, VrfKey(h));
      return true;
    }

    method HandleFinancials(f: Financials) returns (ok: bool)
      requires Valid()
      modifies this
      ensures CommonData() == old(CommonData())
      ensures ok <==> Step(Environment(), old(Current()), PoolFinancials(f)).Some?
      ensures ok ==> Step(Environment(), old(Current()), PoolFinancials(f)) == Some(Current())
      ensures ok ==> Valid() && events == old(events) + [PoolFinancials(f)]
    {
      hide Run, IsOrdinaryStakingKeyPath, RelayAccepted, MetadataAccepted, FinancialsAccepted, HashOf, OwnerAccepted;
      ghost var before := Current();
      if state != FINANCIALS { return false; }
      if !FinancialsAccepted(f) { return false; }
      log := log + [AddFinancials(f)];
      var advanced := AdvanceState();
      assert advanced;
      Record(before, PoolFinancials(f));
      return true;
    }

    method HandleRewardAccount(a: RewardAccountRef) returns (ok: bool)
      requires Valid()
      modifies this
      ensures CommonData() == old(CommonData())
      ensures ok <==> Step(Environment(), old(Current()), RewardAccount(a)).Some?
      ensures ok ==> Step(Environment(), old(Current()), RewardAccount(a)) == Some(Current())
      ensures ok ==> Valid() && events == old(events) + [RewardAccount(a)]
    {
      hide Run, IsOrdinaryStakingKeyPath, RelayAccepted, MetadataAccepted, FinancialsAccepted, HashOf, OwnerAccepted;
      ghost var before := Current();
      if state != REWARD_ACCOUNT { return false; }
      if !RewardAccountAccepted(networkId, a) || !IsPoolMode(txSigningMode) { return false; }
      log := log + [AddRewardAccount(AccountBytes(Env(CommonData(), keyHashOf), a))];
      var advanced := AdvanceState();
      assert advanced;
      Record(before, RewardAccount(a));
      return true;
    }

    /** The parsing of an owner and its policy. A second owner given by path is refused. */
    method TakeOwner(k: KeyRef, allowed: bool) returns (ok: bool)
      requires numOwnersGivenByPath == if poolOwnerPath.Some? then 1 else 0
      requires txSigningMode == POOL_REGISTRATION_OPERATOR ==> poolOwnerPath.None?
      modifies this`numOwnersGivenByPath, this`poolOwnerPath
      ensures ok <==> OwnerAccepted(txSigningMode, k, allowed) && !(k.ByPath? && old(poolOwnerPath).Some?)
      ensures ok ==> poolOwnerPath == if k.ByPath? then Some(k.path) else old(poolOwnerPath)
      ensures ok ==> numOwnersGivenByPath == if poolOwnerPath.Some? then 1 else 0
      ensures ok && txSigningMode == POOL_REGISTRATION_OPERATOR ==> poolOwnerPath.None?
    {
      hide IsOrdinaryStakingKeyPath;
      if k.ByPath? {
        numOwnersGivenByPath := numOwnersGivenByPath + 1;
        if poolOwnerPath.Some? { return false; }
        poolOwnerPath := Some(k.path);
        if !IsOrdinaryStakingKeyPath(k.path) || !allowed { return false; }
      }
      match txSigningMode {
        case POOL_REGISTRATION_OWNER => if numOwnersGivenByPath > 1 { return false; }
        case POOL_REGISTRATION_OPERATOR => if numOwnersGivenByPath != 0 || !k.ByHash? { return false; }
        case _ => return false;
      }
      return allowed;
    }

    /** The step function, for an owner. */
    static lemma OwnerStep(env: Env, s: State, k: KeyRef, allowed: bool)
      ensures Step(env, s, Owner(k, allowed)).Some? <==>
              && s.phase == OWNERS && OwnerAccepted(env.setting.mode, k, allowed) && !(k.ByPath? && s.ownerPath.Some?)
              && s.currentOwner < s.numOwners && s.currentOwner < POOL_MAX_OWNERS
      ensures Step(env, s, Owner(k, allowed)).Some? ==>
              var t := s.(currentOwner := s.currentOwner + 1, log := s.log + [AddOwner(HashOf(env.keyHashOf, k))],
                          ownerPath := if k.ByPath? then Some(k.path) else s.ownerPath);
              Step(env, s, Owner(k, allowed)).value == if t.currentOwner == t.numOwners then LeaveOwners(t) else t
    {
      hide OwnerAccepted, HashOf;
    }

    /** The screen of an owner, shown in both pool modes, asserts that its index is below 1000. */
    method HandleOwner(k: KeyRef, allowed: bool) returns (ok: bool)
      requires Valid()
      modifies this
      ensures CommonData() == old(CommonData())
      ensures ok <==> Step(Environment(), old(Current()), Owner(k, allowed)).Some?
      ensures ok ==> Step(Environment(), old(Current()), Owner(k, allowed)) == Some(Current())
      ensures ok ==> Valid() && events == old(events) + [Owner(k, allowed)]
    {
      hide Run, Step, IsOrdinaryStakingKeyPath, HashOf, OwnerAccepted;
      ghost var before := Current();
      OwnerStep(Environment(), before, k, allowed);
      if state != OWNERS { return false; }
      var taken := TakeOwner(k, allowed);
      if !taken { return false; }
      log := log + [AddOwner(HashOf(keyHashOf, k))];
      if currentOwner >= POOL_MAX_OWNERS { return false; }
      currentOwner := currentOwner + 1;
      if currentOwner == numOwners {
        var advanced := AdvanceState();
        assert advanced;
      }
      Record(before, Owner(k, allowed));
      return true;
    }

    method HandleRelay(r: Relay) returns (ok: bool)
      requires Valid()
      modifies this
      ensures CommonData() == old(CommonData())
      ensures ok <==> Step(Environment(), old(Current()), AddRelay(r)).Some?
      ensures ok ==> Step(Environment(), old(Current()), AddRelay(r)) == Some(Current())
      ensures ok ==> Valid() && events == old(events) + [AddRelay(r)]
    {
      hide Run, IsOrdinaryStakingKeyPath, RelayAccepted, MetadataAccepted, FinancialsAccepted, HashOf, OwnerAccepted;
      ghost var before := Current();
      if state != RELAYS { return false; }
      if !RelayAccepted(r) || !IsPoolMode(txSigningMode) { return false; }
      log := log + [AddRelayCall(r)];
      currentRelay := currentRelay + 1;
      if currentRelay == numRelays {
        var advanced := AdvanceState();
        assert advanced;
      }
      Record(before, AddRelay(r));
      return true;
    }

    method HandleMetadata(m: Option<PoolMetadata>) returns (ok: bool)
      requires Valid()
      modifies this
      ensures CommonData() == old(CommonData())
      ensures ok <==> Step(Environment(), old(Current()), Metadata(m)).Some?
      ensures ok ==> Step(Environment(), old(Current()), Metadata(m)) == Some(Current())
      ensures ok ==> Valid() && events == old(events) + [Metadata(m)]
    {
      hide Run, IsOrdinaryStakingKeyPath, RelayAccepted, MetadataAccepted, FinancialsAccepted, HashOf, OwnerAccepted;
      ghost var before := Current();
      if state != METADATA { return false; }
      if !MetadataAccepted(m) { return false; }
      log := log + [AddMetadata(m)];
      var advanced := AdvanceState();
      assert advanced;
      Record(before, Metadata(m));
      return true;
    }

    method HandleConfirm() returns (ok: bool)
      requires Valid()
      modifies this
      ensures CommonData() == old(CommonData())
      ensures ok <==> Step(Environment(), old(Current()), ConfirmPool).Some?
      ensures ok ==> Step(Environment(), old(Current()), ConfirmPool) == Some(Current())
      ensures ok ==> Valid() && events == old(events) + [ConfirmPool]
    {
      hide Run, IsOrdinaryStakingKeyPath, RelayAccepted, MetadataAccepted, FinancialsAccepted, HashOf, OwnerAccepted;
      ghost var before := Current();
      if state != CONFIRM { return false; }
      var advanced := AdvanceState();
      assert advanced;
      Record(before, ConfirmPool);
      return true;
    }

    /** signTxPoolRegistration_handleAPDU with the parsed data of the request. */
    method HandleAPDU(e: PoolEvent) returns (ok: bool)
      requires Valid()
      modifies this
      ensures CommonData() == old(CommonData())
      ensures ok <==> Step(Environment(), old(Current()), e).Some?
      ensures ok ==> Valid() && events == old(events) + [e] && Step(Environment(), old(Current()), e) == Some(Current())
    {
      hide Valid, IsOrdinaryStakingKeyPath, RelayAccepted, MetadataAccepted, FinancialsAccepted, HashOf;
      match e {
        case Init(o, r) => ok := HandleInit(o, r);
        case PoolKey(k) => ok := HandlePoolKey(k);
        case VrfKey(h) => ok := HandleVrfKey(h);
        case PoolFinancials(f) => ok := HandleFinancials(f);
        case RewardAccount(a) => ok := HandleRewardAccount(a);
        case Owner(k, allowed) => ok := HandleOwner(k, allowed);
        case AddRelay(r) => ok := HandleRelay(r);
        case Metadata(m) => ok := HandleMetadata(m);
        case ConfirmPool => ok := HandleConfirm();
      }
    }

    /** The calls of a finished sub-machine are the word of one well-formed certificate. */
    lemma FinishedCertificate() returns (c: Certificate)
      requires Valid() && state == FINISHED
      ensures Received(CommonData(), events, c)
      ensures WellFormed(CommonData(), c) && log == CertificateCalls(Environment(), c)
      ensures poolOwnerPath == PathOwner(None, c.owners)
    {
      hide Run, CertificateCalls, WellFormed;
      FinishedRun(Environment(), events);
      c :| Received(CommonData(), events, c);
    }
  }

  /** Calls are only ever added, and every accepted request brings the certificate closer to its end. */
  lemma StepExtends(env: Env, s: State, e: PoolEvent)
    requires Step(env, s, e).Some?
    ensures s.log <= Step(env, s, e).value.log
    ensures Left(Step(env, s, e).value) < Left(s)
  {
    hide IsOrdinaryStakingKeyPath, RelayAccepted, MetadataAccepted, FinancialsAccepted, HashOf, OwnerAccepted;
  }

  /** How far a certificate is from its end. */
  function Left(s: State): (n: nat)
    ensures n <= 3 * TWO_32
  {
    match s.phase
    case INIT => 3 * TWO_32
    case POOL_KEY => 2 * TWO_32 + 4
    case VRF_KEY => 2 * TWO_32 + 3
    case FINANCIALS => 2 * TWO_32 + 2
    case REWARD_ACCOUNT => 2 * TWO_32 + 1
    case OWNERS => TWO_32 + if s.currentOwner <= s.numOwners then s.numOwners - s.currentOwner else 0
    case RELAYS => 2 + if s.currentRelay <= s.numRelays then s.numRelays - s.currentRelay else 0
    case METADATA => 2
    case CONFIRM => 1
    case FINISHED => 0
  }
}
