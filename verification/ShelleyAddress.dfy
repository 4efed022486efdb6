/** Shelley addresses: address parameters, their validity, and the derivation of address bytes. */
module ShelleyAddress {
  import opened Basics
  import opened Bip44
  import opened BufView
  import opened Pointer

  const HASH_LENGTH := 28
  const MAXIMUM_NETWORK_ID := 15

  type Hash28 = s: seq<byte> | |s| == HASH_LENGTH witness seq(28, _ => 0)

  datatype AddressType =
    | BASE_PAYMENT_KEY_STAKE_KEY | BASE_PAYMENT_SCRIPT_STAKE_KEY
    | BASE_PAYMENT_KEY_STAKE_SCRIPT | BASE_PAYMENT_SCRIPT_STAKE_SCRIPT
    | POINTER_KEY | POINTER_SCRIPT | ENTERPRISE_KEY | ENTERPRISE_SCRIPT | BYRON | REWARD_KEY | REWARD_SCRIPT
  {
    function Code(): (c: nat)
      ensures c < 16
    {
      match this
      case BASE_PAYMENT_KEY_STAKE_KEY => 0 case BASE_PAYMENT_SCRIPT_STAKE_KEY => 1
      case BASE_PAYMENT_KEY_STAKE_SCRIPT => 2 case BASE_PAYMENT_SCRIPT_STAKE_SCRIPT => 3
      case POINTER_KEY => 4 case POINTER_SCRIPT => 5 case ENTERPRISE_KEY => 6 case ENTERPRISE_SCRIPT => 7
      case BYRON => 8 case REWARD_KEY => 14 case REWARD_SCRIPT => 15
    }
  }

  /** isSupportedAddressType, with the type it names. */
  function TypeOf(code: nat): Option<AddressType> {
    if code == 0 then Some(BASE_PAYMENT_KEY_STAKE_KEY) else if code == 1 then Some(BASE_PAYMENT_SCRIPT_STAKE_KEY)
    else if code == 2 then Some(BASE_PAYMENT_KEY_STAKE_SCRIPT)
    else if code == 3 then Some(BASE_PAYMENT_SCRIPT_STAKE_SCRIPT)
    else if code == 4 then Some(POINTER_KEY) else if code == 5 then Some(POINTER_SCRIPT)
    else if code == 6 then Some(ENTERPRISE_KEY) else if code == 7 then Some(ENTERPRISE_SCRIPT)
    else if code == 8 then Some(BYRON) else if code == 14 then Some(REWARD_KEY)
    else if code == 15 then Some(REWARD_SCRIPT) else None
  }

  predicate IsBase(t: AddressType) {
    t in {BASE_PAYMENT_KEY_STAKE_KEY, BASE_PAYMENT_SCRIPT_STAKE_KEY, BASE_PAYMENT_KEY_STAKE_SCRIPT,
          BASE_PAYMENT_SCRIPT_STAKE_SCRIPT}
  }

  predicate IsPointer(t: AddressType) { t in {POINTER_KEY, POINTER_SCRIPT} }

  predicate IsEnterprise(t: AddressType) { t in {ENTERPRISE_KEY, ENTERPRISE_SCRIPT} }

  predicate IsReward(t: AddressType) { t in {REWARD_KEY, REWARD_SCRIPT} }

  /** determinePaymentChoice */
  predicate PaysToPath(t: AddressType) {
    t in {BASE_PAYMENT_KEY_STAKE_KEY, BASE_PAYMENT_KEY_STAKE_SCRIPT, POINTER_KEY, ENTERPRISE_KEY, BYRON}
  }

  predicate PaysToScript(t: AddressType) {
    t in {BASE_PAYMENT_SCRIPT_STAKE_KEY, BASE_PAYMENT_SCRIPT_STAKE_SCRIPT, POINTER_SCRIPT, ENTERPRISE_SCRIPT}
  }

  /** The union for the payment part; its variant is selected by the address type. */
  datatype Payment = PaymentPath(path: Path) | PaymentScript(hash: Hash28) | NoPayment

  /** The union for the staking part together with its tag. */
  datatype Staking =
    | NoStaking | StakingKeyPath(path: Path) | StakingKeyHash(hash: Hash28)
    | BlockchainPointer(blockIndex: uint32, txIndex: uint32, certificateIndex: uint32)
    | StakingScriptHash(hash: Hash28)

  /** addressParams_t. Only one of the network id and the protocol magic is meaningful. */
  datatype AddressParams =
    AddressParams(kind: AddressType, networkId: uint8, protocolMagic: uint32, payment: Payment, staking: Staking)

  /** What parsing guarantees. */
  predicate Parsed(p: AddressParams) {
    && (p.payment.PaymentPath? <==> PaysToPath(p.kind))
    && (p.payment.PaymentScript? <==> PaysToScript(p.kind))
  }

  /** isStakingInfoConsistentWithAddressType. A pointer is accepted for every type that stakes to a script. */
  predicate StakingConsistent(p: AddressParams) {
    match p.kind
    case BASE_PAYMENT_KEY_STAKE_KEY => p.staking.StakingKeyHash? || p.staking.StakingKeyPath?
    case BASE_PAYMENT_SCRIPT_STAKE_KEY => p.staking.StakingKeyHash? || p.staking.StakingKeyPath?
    case REWARD_KEY => p.staking.StakingKeyHash? || p.staking.StakingKeyPath?
    case BASE_PAYMENT_KEY_STAKE_SCRIPT => p.staking.StakingScriptHash? || p.staking.BlockchainPointer?
    case BASE_PAYMENT_SCRIPT_STAKE_SCRIPT => p.staking.StakingScriptHash? || p.staking.BlockchainPointer?
    case REWARD_SCRIPT => p.staking.StakingScriptHash? || p.staking.BlockchainPointer?
    case POINTER_KEY => p.staking.BlockchainPointer?
    case POINTER_SCRIPT => p.staking.BlockchainPointer?
    case _ => p.staking.NoStaking?
  }

  predicate PaymentValid(p: AddressParams) {
    PaysToPath(p.kind) && p.payment.PaymentPath? ==>
      && ClassifyPath(p.payment.path) == PathOrdinaryPaymentKey
      && (if p.kind == BYRON then HasByronPrefix(p.payment.path) else HasShelleyPrefix(p.payment.path))
  }

  predicate IsValidAddressParams(p: AddressParams) {
    && (p.kind != BYRON ==> p.networkId <= MAXIMUM_NETWORK_ID)
    && StakingConsistent(p)
    && (p.staking.StakingKeyPath? ==> ClassifyPath(p.staking.path) == PathOrdinaryStakingKey)
    && PaymentValid(p)
  }

  /** Valid parameters in numbers: which staking data go with which type, and the elements of the two paths. Payment
      paths begin with 44' for Byron addresses only, and with 1852' for all others. */
  lemma ParamsInNumbers(p: AddressParams)
    ensures IsValidAddressParams(p) <==>
      && (p.kind != BYRON ==> p.networkId <= 15)
      && (p.kind in {BASE_PAYMENT_KEY_STAKE_KEY, BASE_PAYMENT_SCRIPT_STAKE_KEY, REWARD_KEY} ==>
            p.staking.StakingKeyHash? || p.staking.StakingKeyPath?)
      && (p.kind in {BASE_PAYMENT_KEY_STAKE_SCRIPT, BASE_PAYMENT_SCRIPT_STAKE_SCRIPT, REWARD_SCRIPT} ==>
            p.staking.StakingScriptHash? || p.staking.BlockchainPointer?)
      && (p.kind in {POINTER_KEY, POINTER_SCRIPT} ==> p.staking.BlockchainPointer?)
      && (p.kind in {ENTERPRISE_KEY, ENTERPRISE_SCRIPT, BYRON} ==> p.staking.NoStaking?)
      && (p.staking.StakingKeyPath? ==>
            var s := p.staking.path;
            |s| == 5 && s[0] == 0x8000_073C && s[1] == 0x8000_0717 && s[2] >= 0x8000_0000 && s[3] == 2
            && s[4] < 0x8000_0000)
      && (p.kind in {BASE_PAYMENT_KEY_STAKE_KEY, BASE_PAYMENT_KEY_STAKE_SCRIPT, POINTER_KEY, ENTERPRISE_KEY, BYRON}
          && p.payment.PaymentPath? ==>
            var s := p.payment.path;
            |s| == 5 && s[0] == (if p.kind == BYRON then 0x8000_002C else 0x8000_073C) && s[1] == 0x8000_0717
            && s[2] >= 0x8000_0000 && s[3] % 256 <= 1)
  {
    hide ClassifyPath;
    if p.staking.StakingKeyPath? { ClassesInNumbers(p.staking.path); }
    if p.payment.PaymentPath? { ClassesInNumbers(p.payment.path); }
  }

  // ------------------------------------------------------------ headers

  /** constructShelleyAddressHeader: the type in the high half of the byte, the network in the low half. */
  function Header(t: AddressType, networkId: nat): byte
    requires networkId <= MAXIMUM_NETWORK_ID
  {
    16 * t.Code() + networkId
  }

  lemma TypeOfCode(t: AddressType)
    ensures TypeOf(t.Code()) == Some(t)
  {
  }

  lemma HeaderRead(t: AddressType, networkId: nat)
    requires networkId <= MAXIMUM_NETWORK_ID
    ensures TypeOf(Header(t, networkId) / 16) == Some(t) && Header(t, networkId) % 16 == networkId
  {
    TypeOfCode(t);
  }

  // ------------------------------------------------------------ addresses and their bytes

  /** What an address stands for. */
  datatype Address =
    | BaseAddress(kind: AddressType, networkId: nat, payment: Hash28, staking: Hash28)
    | PointerAddress(kind: AddressType, networkId: nat, payment: Hash28, blockIndex: uint32, txIndex: uint32,
                     certificateIndex: uint32)
    | EnterpriseAddress(kind: AddressType, networkId: nat, payment: Hash28)
    | RewardAddress(kind: AddressType, networkId: nat, staking: Hash28)

  predicate AddressWellFormed(a: Address) {
    && a.networkId <= MAXIMUM_NETWORK_ID
    && (a.BaseAddress? <==> IsBase(a.kind)) && (a.PointerAddress? <==> IsPointer(a.kind))
    && (a.EnterpriseAddress? <==> IsEnterprise(a.kind)) && (a.RewardAddress? <==> IsReward(a.kind))
  }

  function PointerBytes(blockIndex: nat, txIndex: nat, certificateIndex: nat): seq<byte> {
    VarUInt(blockIndex) + VarUInt(txIndex) + VarUInt(certificateIndex)
  }

  function Payload(a: Address): seq<byte> {
    match a
    case BaseAddress(_, _, payment, staking) => payment + staking
    case PointerAddress(_, _, payment, b, t, c) => payment + PointerBytes(b, t, c)
    case EnterpriseAddress(_, _, payment) => payment
    case RewardAddress(_, _, staking) => staking
  }

  function AddressBytes(a: Address): seq<byte>
    requires AddressWellFormed(a)
  {
    [Header(a.kind, a.networkId)] + Payload(a)
  }

  /** Reads three variable-length numbers that take all of the data. */
  function ReadPointer(s: seq<byte>): Option<(nat, nat, nat)> {
    match ReadVarUInt(0, s)
    case None => None
    case Some((b, s1)) =>
      match ReadVarUInt(0, s1)
      case None => None
      case Some((t, s2)) =>
        match ReadVarUInt(0, s2)
        case None => None
        case Some((c, s3)) => if s3 == [] then Some((b, t, c)) else None
  }

  /** The pointer of a pointer address is uniquely decodable. */
  lemma ReadOfPointerBytes(blockIndex: nat, txIndex: nat, certificateIndex: nat)
    ensures ReadPointer(PointerBytes(blockIndex, txIndex, certificateIndex))
            == Some((blockIndex, txIndex, certificateIndex))
  {
    hide VarUInt, ReadVarUInt;
    var b, t, c := VarUInt(blockIndex), VarUInt(txIndex), VarUInt(certificateIndex);
    assert b + t + c == b + (t + c) && c == c + [];
    ReadOfVarUInt(blockIndex, t + c);
    ReadOfVarUInt(txIndex, c);
    ReadOfVarUInt(certificateIndex, []);
  }

  /** Reads an address back from its bytes. */
  function ReadAddress(s: seq<byte>): Option<Address> {
    if s == [] || TypeOf(s[0] / 16).None? then None
    else
      var kind, networkId, payload := TypeOf(s[0] / 16).value, s[0] % 16, s[1..];
      if IsBase(kind) then
        if |payload| == 2 * HASH_LENGTH
        then Some(BaseAddress(kind, networkId, payload[..HASH_LENGTH], payload[HASH_LENGTH..])) else None
      else if IsPointer(kind) then
        if |payload| < HASH_LENGTH then None
        else
          match ReadPointer(payload[HASH_LENGTH..])
          case None => None
          case Some((b, t, c)) =>
            if b < TWO_32 && t < TWO_32 && c < TWO_32
            then Some(PointerAddress(kind, networkId, payload[..HASH_LENGTH], b, t, c)) else None
      else if IsEnterprise(kind) then
        if |payload| == HASH_LENGTH then Some(EnterpriseAddress(kind, networkId, payload)) else None
      else if IsReward(kind) then
        if |payload| == HASH_LENGTH then Some(RewardAddress(kind, networkId, payload)) else None
      else None
  }

  /** Address bytes determine the type, the network, the credentials and the pointer. */
  lemma ReadOfAddressBytes(a: Address)
    requires AddressWellFormed(a)
    ensures ReadAddress(AddressBytes(a)) == Some(a)
  {
    hide PointerBytes, ReadPointer, Header, TypeOf;
    var s := AddressBytes(a);
    HeaderRead(a.kind, a.networkId);
    assert s[1..] == Payload(a);
    match a
    case BaseAddress(_, _, payment, staking) =>
      assert Payload(a)[..HASH_LENGTH] == payment && Payload(a)[HASH_LENGTH..] == staking;
    case PointerAddress(_, _, payment, b, t, c) =>
      assert Payload(a)[..HASH_LENGTH] == payment && Payload(a)[HASH_LENGTH..] == PointerBytes(b, t, c);
      ReadOfPointerBytes(b, t, c);
    case EnterpriseAddress(_, _, payment) =>
    case RewardAddress(_, _, staking) =>
  }

  lemma AddressLength(a: Address)
    requires AddressWellFormed(a)
    ensures 29 <= |AddressBytes(a)| <= 57
  {
    hide VarUInt;
    if a.PointerAddress? {
      VarUIntLength(a.blockIndex);
      VarUIntLength(a.txIndex);
      VarUIntLength(a.certificateIndex);
    }
  }

  // ------------------------------------------------------------ derivation

  /** The last bytes of the staking union, which a pointer does not reach: they are what was there before. */
  type Stale = s: seq<byte> | |s| == 16 witness seq(16, _ => 0)

  const NOTHING_STALE: Stale := [0, 0, 0, 0, 0, 0, 0, 0, 0, 0, 0, 0, 0, 0, 0, 0]

  /** The 32-bit word at an offset, least significant byte first, as the devices read it. */
  function WordAt(s: seq<byte>, i: nat): uint32
    requires i + 4 <= |s|
  {
    var bytes := [s[i + 3], s[i + 2], s[i + 1], s[i]];
    BeOfFromBe(bytes);
    Pow256Values();
    FromBe(bytes)
  }

  function WordBytes(v: uint32): (s: seq<byte>)
    ensures |s| == 4
  {
    var bytes := Be(4, v);
    [bytes[3], bytes[2], bytes[1], bytes[0]]
  }

  /** The path member of the staking union, five words and the length, where the bytes of a hash have been stored. None
      stands for a length that no path has. */
  function PathOver(h: Hash28): Option<Path> {
    var n := WordAt(h, 20);
    if n > 5 then None
    else Some([WordAt(h, 0), WordAt(h, 4), WordAt(h, 8), WordAt(h, 12), WordAt(h, 16)][..n])
  }

  /** The staking union read as a path. */
  function PathRead(s: Staking): Option<Path> {
    match s
    case StakingKeyPath(path) => Some(path)
    case StakingKeyHash(h) => PathOver(h)
    case _ => None
  }

  /** The staking union read as the hash of a script. */
  function ScriptHashRead(s: Staking, stale: Stale): Option<Hash28> {
    match s
    case StakingScriptHash(h) => Some(h)
    case BlockchainPointer(b, t, c) => Some(WordBytes(b) + WordBytes(t) + WordBytes(c) + stale)
    case _ => None
  }

  /** The payment credential of an address that has one. */
  function PaymentHash(keyHashOf: Path -> Hash28, p: AddressParams): Hash28
    requires Parsed(p) && (PaysToPath(p.kind) || PaysToScript(p.kind))
  {
    if PaysToPath(p.kind) then keyHashOf(p.payment.path) else p.payment.hash
  }

  /** The staking credential of a base address. */
  function StakingHash(keyHashOf: Path -> Hash28, s: Staking): Option<Hash28> {
    match s
    case StakingKeyPath(path) => Some(keyHashOf(path))
    case StakingKeyHash(h) => Some(h)
    case StakingScriptHash(h) => Some(h)
    case _ => None
  }

  /** The address that parameters stand for, or None if an assertion of the derivation fails. */
  function AddressOf(keyHashOf: Path -> Hash28, p: AddressParams, stale: Stale): (a: Option<Address>)
    requires Parsed(p) && p.kind != BYRON && p.networkId <= MAXIMUM_NETWORK_ID
    ensures a.Some? ==> AddressWellFormed(a.value) && a.value.kind == p.kind && a.value.networkId == p.networkId
  {
    if IsBase(p.kind) then
      match StakingHash(keyHashOf, p.staking)
      case None => None
      case Some(h) => Some(BaseAddress(p.kind, p.networkId, PaymentHash(keyHashOf, p), h))
    else if IsPointer(p.kind) then
      if !p.staking.BlockchainPointer? then None
      else Some(PointerAddress(p.kind, p.networkId, PaymentHash(keyHashOf, p), p.staking.blockIndex,
                               p.staking.txIndex, p.staking.certificateIndex))
    else if IsEnterprise(p.kind) then
      Some(EnterpriseAddress(p.kind, p.networkId, PaymentHash(keyHashOf, p)))
    else if p.kind == REWARD_KEY then
      match PathRead(p.staking)
      case None => None
      case Some(path) =>
        if IsOrdinaryStakingKeyPath(path) then Some(RewardAddress(p.kind, p.networkId, keyHashOf(path))) else None
    else
      assert p.kind == REWARD_SCRIPT;
      match ScriptHashRead(p.staking, stale)
      case None => None
      case Some(h) => Some(RewardAddress(p.kind, p.networkId, h))
  }

  /** The bytes of 1852'/1815'/account'/2/index and of the length 5: what a key hash must be to be read as the path of a
      stake key. The account and the index are free but for their first bit. */
  predicate IsStakePathBytes(h: Hash28) {
    && h[..8] == [0x3C, 0x07, 0x00, 0x80, 0x17, 0x07, 0x00, 0x80] && h[11] >= 128
    && h[12..16] == [2, 0, 0, 0] && h[19] < 128 && h[20..24] == [5, 0, 0, 0]
  }

  lemma WordIs(s: seq<byte>, i: nat, v: uint32)
    requires i + 4 <= |s|
    ensures WordAt(s, i) == v <==> s[i..i + 4] == WordBytes(v)
  {
    hide Be, FromBe;
    var bytes, w := [s[i + 3], s[i + 2], s[i + 1], s[i]], Be(4, v);
    Pow256Values();
    FromBeOfBe(4, v);
    BeOfFromBe(bytes);
    assert w == [w[0], w[1], w[2], w[3]];
    assert s[i..i + 4] == [s[i], s[i + 1], s[i + 2], s[i + 3]];
    assert WordAt(s, i) == v <==> bytes == w;
  }

  /** Read as a path, the bytes of a hash are that of a stake key exactly if they are as above. */
  lemma StakePathRead(h: Hash28)
    ensures (PathOver(h).Some? && IsOrdinaryStakingKeyPath(PathOver(h).value)) <==> IsStakePathBytes(h)
  {
    hide WordAt, WordBytes;
    var a, b, c, d := Harden(PURPOSE_SHELLEY), Harden(ADA_COIN_TYPE), CHAIN_STAKING_KEY, 5;
    WordIs(h, 0, a);
    WordIs(h, 4, b);
    WordIs(h, 12, c);
    WordIs(h, 20, d);
    Constants();
    HardenedWord(h, 8);
    HardenedWord(h, 16);
    assert h[..8] == h[0..4] + h[4..8];
    assert [0x3C, 0x07, 0x00, 0x80, 0x17, 0x07, 0x00, 0x80] == WordBytes(a) + WordBytes(b);
  }

  lemma FourBytes(v: uint32, a: byte, b: byte, c: byte, d: byte)
    requires v == 256 * (256 * (256 * (a as int) + b) + c) + d
    ensures WordBytes(v) == [d, c, b, a]
  {
    var y: nat := 256 * (a as int) + b;
    var z: nat := 256 * y + c;
    assert v / 256 == z && v % 256 == d && z / 256 == y && z % 256 == c && y / 256 == a && y % 256 == b;
    assert Be(1, a) == [] + [a];
    assert Be(2, y) == Be(1, a) + [b];
    assert Be(3, z) == Be(2, y) + [c];
    assert Be(4, v) == Be(3, z) + [d];
  }

  lemma Constants()
    ensures WordBytes(Harden(PURPOSE_SHELLEY)) == [0x3C, 0x07, 0x00, 0x80]
    ensures WordBytes(Harden(ADA_COIN_TYPE)) == [0x17, 0x07, 0x00, 0x80]
    ensures WordBytes(CHAIN_STAKING_KEY) == [2, 0, 0, 0] && WordBytes(5) == [5, 0, 0, 0]
    ensures WordBytes(0) == [0, 0, 0, 0]
  {
    hide WordBytes;
    FourBytes(Harden(PURPOSE_SHELLEY), 0x80, 0, 0x07, 0x3C);
    FourBytes(Harden(ADA_COIN_TYPE), 0x80, 0, 0x07, 0x17);
    FourBytes(CHAIN_STAKING_KEY, 0, 0, 0, 2);
    FourBytes(5, 0, 0, 0, 5);
    FourBytes(0, 0, 0, 0, 0);
  }

  lemma HardenedWord(s: seq<byte>, i: nat)
    requires i + 4 <= |s|
    ensures IsHardened(WordAt(s, i)) <==> s[i + 3] >= 128
  {
    var bytes := [s[i + 3], s[i + 2], s[i + 1], s[i]];
    assert bytes[..3] == [s[i + 3], s[i + 2], s[i + 1]];
    assert bytes[..3][..2] == [s[i + 3], s[i + 2]];
    assert bytes[..3][..2][..1] == [s[i + 3]];
    assert FromBe(bytes[..3][..2][..1]) == s[i + 3];
    assert FromBe(bytes[..3][..2]) == 256 * s[i + 3] as int + s[i + 2];
    assert FromBe(bytes[..3]) == 256 * FromBe(bytes[..3][..2]) + s[i + 1];
  }

  /** Exactly when the derivation succeeds for valid parameters: a pointer must not come with a base address, and the
      key hash of a reward address must happen to be the bytes of a stake key path. */
  lemma DerivableParams(keyHashOf: Path -> Hash28, p: AddressParams, stale: Stale)
    requires Parsed(p) && p.kind != BYRON && IsValidAddressParams(p)
    ensures AddressOf(keyHashOf, p, stale).Some? <==>
            && !(IsBase(p.kind) && p.staking.BlockchainPointer?)
            && (p.kind == REWARD_KEY && p.staking.StakingKeyHash? ==> IsStakePathBytes(p.staking.hash))
  {
    hide IsOrdinaryStakingKeyPath, PaymentValid, IsStakePathBytes, PathOver;
    if p.staking.StakingKeyPath? {
      StakingKeyClass(p.staking.path);
    }
    if p.staking.StakingKeyHash? {
      StakePathRead(p.staking.hash);
    }
  }

  lemma StakingKeyClass(path: Path)
    requires ClassifyPath(path) == PathOrdinaryStakingKey
    ensures IsOrdinaryStakingKeyPath(path)
  {
  }

  /** Valid parameters for which the derivation aborts: a base address that stakes to a script, with a pointer, and
      a reward address with a key hash. */
  lemma ValidButNotDerivable(keyHashOf: Path -> Hash28, stale: Stale)
    ensures var p := AddressParams(BASE_PAYMENT_SCRIPT_STAKE_SCRIPT, 1, 0, PaymentScript(seq(28, _ => 0)),
                                   BlockchainPointer(1, 2, 3));
      && Parsed(p) && IsValidAddressParams(p) && AddressOf(keyHashOf, p, stale).None?
    ensures var p := AddressParams(REWARD_KEY, 1, 0, NoPayment, StakingKeyHash(seq(28, _ => 0)));
      && Parsed(p) && IsValidAddressParams(p) && AddressOf(keyHashOf, p, stale).None?
  {
    var h: Hash28 := seq(28, _ => 0);
    ZeroHash(h);
  }

  lemma ZeroHash(h: Hash28)
    requires forall i :: 0 <= i < |h| ==> h[i] == 0
    ensures PathOver(h) == Some([])
  {
    Constants();
    WordIs(h, 20, 0);
    assert h[20..24] == [0, 0, 0, 0];
  }

  /** The ordinary base address of the first account, 1852'/1815'/0'/0/0 with 1852'/1815'/0'/2/0, has 57 bytes: the
      header of its type and network and the two key hashes. With 44' in the payment path it is refused. */
  lemma OrdinaryBaseAddress(keyHashOf: Path -> Hash28, stale: Stale)
    ensures var payment, staking := [0x8000_073C, 0x8000_0717, 0x8000_0000, 0, 0],
              [0x8000_073C, 0x8000_0717, 0x8000_0000, 2, 0];
            var p := AddressParams(BASE_PAYMENT_KEY_STAKE_KEY, 1, 0, PaymentPath(payment), StakingKeyPath(staking));
            && Parsed(p) && IsValidAddressParams(p) && AddressFits(keyHashOf, p, stale, 57)
            && AddressBytes(AddressOf(keyHashOf, p, stale).value) == [0x01] + keyHashOf(payment) + keyHashOf(staking)
    ensures var payment, staking := [0x8000_002C, 0x8000_0717, 0x8000_0000, 0, 0],
              [0x8000_073C, 0x8000_0717, 0x8000_0000, 2, 0];
            var p := AddressParams(BASE_PAYMENT_KEY_STAKE_KEY, 1, 0, PaymentPath(payment), StakingKeyPath(staking));
            Parsed(p) && !IsValidAddressParams(p)
  {
    hide ClassifyPath, IsValidAddressParams;
    var payment, byron, staking := [0x8000_073C, 0x8000_0717, 0x8000_0000, 0, 0],
      [0x8000_002C, 0x8000_0717, 0x8000_0000, 0, 0], [0x8000_073C, 0x8000_0717, 0x8000_0000, 2, 0];
    ParamsInNumbers(AddressParams(BASE_PAYMENT_KEY_STAKE_KEY, 1, 0, PaymentPath(payment), StakingKeyPath(staking)));
    ParamsInNumbers(AddressParams(BASE_PAYMENT_KEY_STAKE_KEY, 1, 0, PaymentPath(byron), StakingKeyPath(staking)));
  }

  /** Addresses in bytes: the type in the high half of the first byte and the network in the low half, then the payment
      and the staking credential or the three numbers of a pointer. */
  lemma AddressInBytes(keyHashOf: Path -> Hash28, p: AddressParams, stale: Stale)
    requires Parsed(p) && p.kind != BYRON && IsValidAddressParams(p) && AddressOf(keyHashOf, p, stale).Some?
    ensures var header := match p.kind
                          case BASE_PAYMENT_KEY_STAKE_KEY => 0x00 case BASE_PAYMENT_SCRIPT_STAKE_KEY => 0x10
                          case BASE_PAYMENT_KEY_STAKE_SCRIPT => 0x20 case BASE_PAYMENT_SCRIPT_STAKE_SCRIPT => 0x30
                          case POINTER_KEY => 0x40 case POINTER_SCRIPT => 0x50 case ENTERPRISE_KEY => 0x60
                          case ENTERPRISE_SCRIPT => 0x70 case REWARD_KEY => 0xe0 case _ => 0xf0;
            var payment := match p.payment
                           case PaymentPath(path) => keyHashOf(path) case PaymentScript(h) => h case NoPayment => [];
            var s := AddressBytes(AddressOf(keyHashOf, p, stale).value);
            && s[0] == header + p.networkId
            && (p.staking.NoStaking? ==> s[1..] == payment)
            && (p.staking.StakingKeyPath? ==> s[1..] == payment + keyHashOf(p.staking.path))
            && (p.staking.StakingKeyHash? && p.kind != REWARD_KEY ==> s[1..] == payment + p.staking.hash)
            && (p.staking.StakingScriptHash? ==> s[1..] == payment + p.staking.hash)
            && (p.kind in {POINTER_KEY, POINTER_SCRIPT} && p.staking.BlockchainPointer? ==>
                  s[1..] == payment + PointerBytes(p.staking.blockIndex, p.staking.txIndex, p.staking.certificateIndex))
  {
    hide PointerBytes, PathOver, IsOrdinaryStakingKeyPath, WordBytes, PaymentValid, ClassifyPath;
    var s := AddressBytes(AddressOf(keyHashOf, p, stale).value);
    assert s[1..] == Payload(AddressOf(keyHashOf, p, stale).value);
  }

  /** What was in memory before only matters for a reward address of a script with a pointer. */
  lemma StaleOnlyUnderPointer(keyHashOf: Path -> Hash28, p: AddressParams, v: Stale, w: Stale)
    requires Parsed(p) && p.kind != BYRON && p.networkId <= MAXIMUM_NETWORK_ID
    requires !(p.kind == REWARD_SCRIPT && p.staking.BlockchainPointer?)
    ensures AddressOf(keyHashOf, p, v) == AddressOf(keyHashOf, p, w)
  {
  }

  /** The credential appended for the payment part. */
  method AppendPayment(keyHashOf: Path -> Hash28, p: AddressParams, out: WriteView) returns (ok: bool)
    requires out.Valid() && Parsed(p) && (PaysToPath(p.kind) || PaysToScript(p.kind))
    modifies out`ptr, out.buffer
    ensures out.Valid() && (ok <==> HASH_LENGTH <= old(out.RemainingSize()))
    ensures ok ==> out.Contents() == old(out.Contents()) + PaymentHash(keyHashOf, p)
  {
    if PaysToPath(p.kind) {
      ok := out.AppendBuffer(keyHashOf(p.payment.path));
    } else {
      ok := out.AppendBuffer(p.payment.hash);
    }
  }

  /** deriveAddress_base, after the header */
  method AppendBase(keyHashOf: Path -> Hash28, p: AddressParams, out: WriteView) returns (ok: bool)
    requires out.Valid() && Parsed(p) && IsBase(p.kind)
    modifies out`ptr, out.buffer
    ensures out.Valid()
    ensures ok <==> StakingHash(keyHashOf, p.staking).Some? && 2 * HASH_LENGTH <= old(out.RemainingSize())
    ensures ok ==> out.Contents() == old(out.Contents())
                                     + (PaymentHash(keyHashOf, p) + StakingHash(keyHashOf, p.staking).value)
  {
    ghost var start := out.Contents();
    ok := AppendPayment(keyHashOf, p, out);
    if !ok { return; }
    match p.staking {
      case StakingKeyPath(path) => ok := out.AppendBuffer(keyHashOf(path));
      case StakingKeyHash(h) => ok := out.AppendBuffer(h);
      case StakingScriptHash(h) => ok := out.AppendBuffer(h);
      case _ => return false;
    }
    Glue(out.Contents(), start, PaymentHash(keyHashOf, p), StakingHash(keyHashOf, p.staking).value);
  }

  function PointerSize(s: Staking): nat
    requires s.BlockchainPointer?
  {
    |PointerBytes(s.blockIndex, s.txIndex, s.certificateIndex)|
  }

  /** The three numbers of a pointer, one after the other. */
  method AppendNumbers(blockIndex: uint32, txIndex: uint32, certificateIndex: uint32, out: WriteView)
      returns (ok: bool)
    requires out.Valid()
    modifies out`ptr, out.buffer
    ensures out.Valid()
    ensures ok ==> out.Contents() == old(out.Contents()) + PointerBytes(blockIndex, txIndex, certificateIndex)
    ensures ok <==> |PointerBytes(blockIndex, txIndex, certificateIndex)| <= old(out.RemainingSize())
  {
    hide VarUInt;
    ghost var start := out.Contents();
    ok := AppendVariableLengthUInt(out, blockIndex);
    if !ok { return false; }
    ok := AppendVariableLengthUInt(out, txIndex);
    if !ok { return false; }
    ok := AppendVariableLengthUInt(out, certificateIndex);
    Glued(start, VarUInt(blockIndex), VarUInt(txIndex), VarUInt(certificateIndex));
  }

  lemma Glued(s: seq<byte>, a: seq<byte>, b: seq<byte>, c: seq<byte>)
    ensures s + a + b + c == s + (a + b + c)
  {
  }

  /** deriveAddress_pointer, after the header */
  method AppendPointer(keyHashOf: Path -> Hash28, p: AddressParams, out: WriteView) returns (ok: bool)
    requires out.Valid() && Parsed(p) && IsPointer(p.kind) && p.staking.BlockchainPointer?
    modifies out`ptr, out.buffer
    ensures out.Valid()
    ensures ok ==> out.Contents() == old(out.Contents()) + (PaymentHash(keyHashOf, p)
                     + PointerBytes(p.staking.blockIndex, p.staking.txIndex, p.staking.certificateIndex))
    ensures ok <==> HASH_LENGTH + PointerSize(p.staking) <= old(out.RemainingSize())
  {
    hide PointerBytes;
    ghost var start := out.Contents();
    ok := AppendPayment(keyHashOf, p, out);
    if !ok { return false; }
    ok := AppendNumbers(p.staking.blockIndex, p.staking.txIndex, p.staking.certificateIndex, out);
    Glue(out.Contents(), start, PaymentHash(keyHashOf, p),
         PointerBytes(p.staking.blockIndex, p.staking.txIndex, p.staking.certificateIndex));
  }

  /** Whether the output buffer takes the address. */
  ghost predicate AddressFits(keyHashOf: Path -> Hash28, p: AddressParams, stale: Stale, size: nat)
    requires Parsed(p) && p.kind != BYRON && p.networkId <= MAXIMUM_NETWORK_ID
  {
    AddressOf(keyHashOf, p, stale).Some? && |AddressBytes(AddressOf(keyHashOf, p, stale).value)| <= size
  }

  /** deriveAddress, but for Byron addresses: refused exactly for parameters that are not valid, if the staking data
      cannot be used, or if the output buffer is too small. */
  method DeriveAddress(keyHashOf: Path -> Hash28, p: AddressParams, stale: Stale, out: WriteView) returns (ok: bool)
    requires out.Valid() && out.Contents() == [] && Parsed(p) && p.kind != BYRON
    modifies out`ptr, out.buffer
    ensures out.Valid()
    ensures ok <==> IsValidAddressParams(p) && AddressFits(keyHashOf, p, stale, old(out.RemainingSize()))
    ensures ok ==> out.Contents() == AddressBytes(AddressOf(keyHashOf, p, stale).value)
    ensures ok && p.payment.PaymentPath? ==>
      var s := p.payment.path;
      |s| == 5 && s[0] == 0x8000_073C && s[1] == 0x8000_0717 && s[2] >= 0x8000_0000 && s[3] % 256 <= 1
  {
    hide PointerBytes, VarUInt, PaymentValid, StakingConsistent, IsOrdinaryStakingKeyPath, PathOver, ClassifyPath;
    ParamsInNumbers(p);
    if !IsValidAddressParams(p) { return false; }
    ok := out.AppendBuffer([Header(p.kind, p.networkId)]);
    if !ok { return false; }
    if IsBase(p.kind) {
      ok := AppendBase(keyHashOf, p, out);
    } else if IsPointer(p.kind) {
      if !p.staking.BlockchainPointer? { return false; }
      ok := AppendPointer(keyHashOf, p, out);
    } else if IsEnterprise(p.kind) {
      ok := AppendPayment(keyHashOf, p, out);
    } else {
      ok := AppendReward(keyHashOf, p, stale, out);
    }
  }

  /** deriveAddress_reward, after the header */
  method AppendReward(keyHashOf: Path -> Hash28, p: AddressParams, stale: Stale, out: WriteView) returns (ok: bool)
    requires out.Valid() && Parsed(p) && IsReward(p.kind) && p.networkId <= MAXIMUM_NETWORK_ID
    modifies out`ptr, out.buffer
    ensures out.Valid()
    ensures ok <==> AddressOf(keyHashOf, p, stale).Some? && HASH_LENGTH <= old(out.RemainingSize())
    ensures ok ==> out.Contents() == old(out.Contents()) + Payload(AddressOf(keyHashOf, p, stale).value)
  {
    hide IsOrdinaryStakingKeyPath, PathOver;
    if p.kind == REWARD_KEY {
      var path := PathRead(p.staking);
      if path.None? { return false; }
      if !IsOrdinaryStakingKeyPath(path.value) { return false; }
      ok := out.AppendBuffer(keyHashOf(path.value));
    } else {
      var h := ScriptHashRead(p.staking, stale);
      if h.None? { return false; }
      ok := out.AppendBuffer(h.value);
    }
  }
}
