/** CIP-15 and CIP-36 vote registrations as data items, the requests they arrive in, and the builder
    that writes the auxiliary data and the signed payload at the same time. */
module AuxData {
  import opened Basics
  import opened Bip44
  import opened Cbor

  const METADATA_KEY_PAYLOAD: uint64 := 61284
  const METADATA_KEY_SIGNATURE: uint64 := 61285
  const SIGNATURE_KEY: uint64 := 1

  const PUBLIC_KEY_SIZE := 32
  const ED25519_SIGNATURE_LENGTH := 64
  const HASH_LENGTH := 32
  const MAX_ADDRESS_SIZE := 128

  type PublicKey = s: seq<byte> | |s| == PUBLIC_KEY_SIZE witness seq(32, _ => 0)
  type Signature = s: seq<byte> | |s| == ED25519_SIGNATURE_LENGTH witness seq(64, _ => 0)
  type Hash = s: seq<byte> | |s| == HASH_LENGTH witness seq(32, _ => 0)

  datatype Format = CIP15 | CIP36

  /** A vote key is sent as such or as the path from which the device derives it. */
  datatype KeyRef = Given(key: PublicKey) | Derived(path: Path)

  function KeyOf(pubKeyOf: Path -> PublicKey, r: KeyRef): PublicKey {
    match r
    case Given(k) => k
    case Derived(p) => pubKeyOf(p)
  }

  /** The parsed data of one request. Allowed stands for the decision of the address policy. */
  datatype Event =
    | Init(format: Format, numDelegations: uint32)
    | VoteKey(voteKey: KeyRef)
    | Delegate(voteKey: KeyRef, weight: uint32)
    | StakingKey(path: Path)
    | PaymentAddress(address: seq<byte>, allowed: bool)
    | Nonce(nonce: uint64)
    | VotingPurpose(purpose: Option<uint64>)
    | Confirm

  // ------------------------------------------------------------ registrations

  datatype Delegation = Delegation(voteKey: KeyRef, weight: uint32)

  datatype VoteKeys = Single(voteKey: KeyRef) | Several(delegations: seq<Delegation>)

  datatype Registration = Registration(
    format: Format, numDelegations: uint32, keys: VoteKeys, stakingPath: Path,
    address: seq<byte>, nonce: uint64, purpose: Option<uint64>)

  predicate KeyAccepted(format: Format, r: KeyRef) {
    r.Derived? ==> format == CIP36 && ClassifyPath(r.path) == PathCVoteKey
  }

  predicate KeysAccepted(format: Format, declared: uint16, keys: VoteKeys) {
    match keys
    case Single(k) => declared == 0 && KeyAccepted(format, k)
    case Several(ds) =>
      && 0 < |ds| == declared
      && forall i :: 0 <= i < |ds| ==> KeyAccepted(format, ds[i].voteKey)
  }

  predicate AddressAccepted(address: seq<byte>, allowed: bool) {
    allowed && 0 < |address| <= MAX_ADDRESS_SIZE
  }

  /** What the application accepts as a registration. The declared number of delegations counts
      modulo 2^16, and only then is it compared with zero for CIP-15. */
  predicate WellFormed(r: Registration) {
    && (r.format == CIP15 ==> Narrow16(r.numDelegations) == 0)
    && KeysAccepted(r.format, Narrow16(r.numDelegations), r.keys)
    && IsOrdinaryStakingKeyPath(r.stakingPath)
    && AddressAccepted(r.address, true)
    && (r.purpose.Some? ==> r.format == CIP36)
  }

  /** An acceptable registration in numbers: the declared number of delegations counts modulo 65536, paths of vote keys
      begin with 1694' and come with CIP-36 only, and the staking key path has chain 2. */
  lemma RegistrationInNumbers(r: Registration)
    ensures WellFormed(r)
       <==> && r.numDelegations % 65536 == (if r.keys.Several? then |r.keys.delegations| else 0)
            && (r.keys.Several? ==> r.format == CIP36 && |r.keys.delegations| > 0)
            && (r.keys.Single? ==> KeyAccepted(r.format, r.keys.voteKey))
            && (r.keys.Several? ==>
                  forall i :: 0 <= i < |r.keys.delegations| ==> KeyAccepted(r.format, r.keys.delegations[i].voteKey))
            && (var p := r.stakingPath;
                |p| == 5 && p[0] == 0x8000_073C && p[1] == 0x8000_0717 && p[2] >= 0x8000_0000 && p[3] == 2
                && p[4] < 0x8000_0000)
            && 1 <= |r.address| <= 128
            && (r.purpose.Some? ==> r.format == CIP36)
  {
    hide KeyAccepted;
  }

  lemma VoteKeyInNumbers(format: Format, k: KeyRef)
    ensures KeyAccepted(format, k)
       <==> (k.Derived? ==>
               var p := k.path;
               format == CIP36 && |p| == 5 && p[0] == 0x8000_069E && p[1] == 0x8000_0717 && p[2] >= 0x8000_0000
               && p[3] == 0 && p[4] < 0x8000_0000)
  {
    hide ClassifyPath;
    if k.Derived? { OtherClassesInNumbers(k.path); }
  }

  function DelegationEvents(ds: seq<Delegation>): (es: seq<Event>)
    ensures |es| == |ds|
  {
    if ds == [] then [] else [Delegate(ds[0].voteKey, ds[0].weight)] + DelegationEvents(ds[1..])
  }

  function KeyEvents(keys: VoteKeys): seq<Event> {
    match keys
    case Single(k) => [VoteKey(k)]
    case Several(ds) => DelegationEvents(ds)
  }

  function LastEvents(r: Registration): seq<Event> {
    [StakingKey(r.stakingPath), PaymentAddress(r.address, true), Nonce(r.nonce), VotingPurpose(r.purpose), Confirm]
  }

  /** The requests by which a registration arrives, in the only order there is. */
  function Events(r: Registration): seq<Event> {
    [Init(r.format, r.numDelegations)] + KeyEvents(r.keys) + LastEvents(r)
  }

  // ------------------------------------------------------------ data items

  function Entry(key: uint64, value: Item): (s: seq<Item>)
    requires Fits(value)
    ensures |s| == 2 && AllFit(s)
  {
    [Uint(key), value]
  }

  function DelegationItem(pubKeyOf: Path -> PublicKey, d: Delegation): (i: Item)
    ensures Fits(i)
  {
    Arr([Bstr(KeyOf(pubKeyOf, d.voteKey)), Uint(d.weight)])
  }

  function DelegationItems(pubKeyOf: Path -> PublicKey, ds: seq<Delegation>): (s: seq<Item>)
    ensures |s| == |ds| && AllFit(s)
  {
    if ds == [] then [] else [DelegationItem(pubKeyOf, ds[0])] + DelegationItems(pubKeyOf, ds[1..])
  }

  function KeysItem(pubKeyOf: Path -> PublicKey, keys: VoteKeys): (i: Item)
    requires keys.Several? ==> |keys.delegations| < TWO_16
    ensures Fits(i)
  {
    match keys
    case Single(k) => Bstr(KeyOf(pubKeyOf, k))
    case Several(ds) => Arr(DelegationItems(pubKeyOf, ds))
  }

  function PurposeOf(r: Registration): uint64 {
    if r.purpose.Some? then r.purpose.value else 0
  }

  /** The entries of the registration after the vote keys. */
  function LastEntries(pubKeyOf: Path -> PublicKey, r: Registration): (s: seq<Item>)
    requires WellFormed(r)
    ensures AllFit(s)
  {
    Entry(2, Bstr(pubKeyOf(r.stakingPath))) + Entry(3, Bstr(r.address)) + Entry(4, Uint(r.nonce))
    + if r.format == CIP36 then Entry(5, Uint(PurposeOf(r))) else []
  }

  /** The registration map: four entries for CIP-15, five for CIP-36. */
  function RegistrationItem(pubKeyOf: Path -> PublicKey, r: Registration): (i: Item)
    requires WellFormed(r)
    ensures Fits(i)
  {
    MapOf(Entry(1, KeysItem(pubKeyOf, r.keys)) + LastEntries(pubKeyOf, r))
  }

  /** What is signed: a map with the registration as its one entry. */
  function PayloadItem(pubKeyOf: Path -> PublicKey, r: Registration): (i: Item)
    requires WellFormed(r)
    ensures Fits(i)
  {
    MapOf(Entry(METADATA_KEY_PAYLOAD, RegistrationItem(pubKeyOf, r)))
  }

  function SignatureItem(signature: Signature): (i: Item)
    ensures Fits(i)
  {
    MapOf(Entry(SIGNATURE_KEY, Bstr(signature)))
  }

  /** The auxiliary data: the registration and its signature as metadata, and no scripts. */
  function AuxiliaryItem(pubKeyOf: Path -> PublicKey, r: Registration, signature: Signature): (i: Item)
    requires WellFormed(r)
    ensures Fits(i)
  {
    Arr([MapOf(Entry(METADATA_KEY_PAYLOAD, RegistrationItem(pubKeyOf, r))
               + Entry(METADATA_KEY_SIGNATURE, SignatureItem(signature))),
         Arr([])])
  }

  /** The signed payload and the auxiliary data with the numbers of CIP-15 and CIP-36: the registration under 61284,
      with vote keys, staking key, payment address, nonce and, for CIP-36, purpose under 1 to 5, and the signature
      under 1 in 61285. */
  lemma ItemsInNumbers(pubKeyOf: Path -> PublicKey, r: Registration, signature: Signature)
    requires WellFormed(r)
    ensures var registration := MapOf(
              [Uint(1), KeysItem(pubKeyOf, r.keys), Uint(2), Bstr(pubKeyOf(r.stakingPath)), Uint(3), Bstr(r.address),
               Uint(4), Uint(r.nonce)]
              + (if r.format == CIP36 then [Uint(5), Uint(if r.purpose.Some? then r.purpose.value else 0)] else []));
            && PayloadItem(pubKeyOf, r) == MapOf([Uint(61284), registration])
            && AuxiliaryItem(pubKeyOf, r, signature)
               == Arr([MapOf([Uint(61284), registration, Uint(61285), MapOf([Uint(1), Bstr(signature)])]), Arr([])])
  {
    hide KeysItem, KeyAccepted, IsOrdinaryStakingKeyPath;
    var purpose := if r.format == CIP36 then [Uint(5), Uint(PurposeOf(r))] else [];
    assert Entry(1, KeysItem(pubKeyOf, r.keys)) + LastEntries(pubKeyOf, r)
        == [Uint(1), KeysItem(pubKeyOf, r.keys), Uint(2), Bstr(pubKeyOf(r.stakingPath)), Uint(3), Bstr(r.address),
            Uint(4), Uint(r.nonce)] + purpose;
    var registration := RegistrationItem(pubKeyOf, r);
    assert Entry(61284, registration) + Entry(61285, SignatureItem(signature))
        == [Uint(61284), registration, Uint(61285), SignatureItem(signature)];
  }

  /** One vote key is written as such, several with their weights. */
  lemma {:induction false} KeysInWords(pubKeyOf: Path -> PublicKey, keys: VoteKeys, i: nat)
    requires keys.Several? ==> i < |keys.delegations| < 65536
    ensures keys.Single? ==>
            KeysItem(pubKeyOf, keys)
            == Bstr(match keys.voteKey case Given(k) => k case Derived(p) => pubKeyOf(p))
    ensures keys.Several? ==>
            var s := KeysItem(pubKeyOf, keys);
            s.Arr? && |s.items| == |keys.delegations|
            && s.items[i] == Arr([Bstr(match keys.delegations[i].voteKey
                                       case Given(k) => k
                                       case Derived(p) => pubKeyOf(p)),
                                  Uint(keys.delegations[i].weight)])
    decreases i
  {
    if keys.Several? && i > 0 {
      KeysInWords(pubKeyOf, Several(keys.delegations[1..]), i - 1);
    }
  }

  // ------------------------------------------------------------ bytes

  function MapSize(format: Format): uint64 {
    if format == CIP36 then 5 else 4
  }

  function BytesToken(b: seq<byte>): seq<byte>
    requires |b| < TWO_16
  {
    Head(Bytes, |b|) + b
  }

  /** What one request adds to both streams. */
  function EventBytes(pubKeyOf: Path -> PublicKey, format: Format, e: Event): seq<byte> {
    match e
    case Init(f, n) =>
      Head(Unsigned, METADATA_KEY_PAYLOAD) + Head(Map, MapSize(f))
      + if Narrow16(n) > 0 then Head(Unsigned, 1) + Head(Array, Narrow16(n)) else []
    case VoteKey(k) => Head(Unsigned, 1) + BytesToken(KeyOf(pubKeyOf, k))
    case Delegate(k, w) => Head(Array, 2) + BytesToken(KeyOf(pubKeyOf, k)) + Head(Unsigned, w)
    case StakingKey(p) => Head(Unsigned, 2) + BytesToken(pubKeyOf(p))
    case PaymentAddress(a, _) => if |a| < TWO_16 then Head(Unsigned, 3) + BytesToken(a) else []
    case Nonce(x) => Head(Unsigned, 4) + Head(Unsigned, x)
    case VotingPurpose(o) =>
      if format == CIP36 then Head(Unsigned, 5) + Head(Unsigned, if o.Some? then o.value else 0) else []
    case Confirm => []
  }

  function StreamBytes(pubKeyOf: Path -> PublicKey, format: Format, es: seq<Event>): seq<byte> {
    if es == [] then [] else EventBytes(pubKeyOf, format, es[0]) + StreamBytes(pubKeyOf, format, es[1..])
  }

  lemma {:induction false} StreamAppend(pubKeyOf: Path -> PublicKey, f: Format, v: seq<Event>, w: seq<Event>)
    ensures StreamBytes(pubKeyOf, f, v + w) == StreamBytes(pubKeyOf, f, v) + StreamBytes(pubKeyOf, f, w)
  {
    hide EventBytes;
    if v == [] {
      assert v + w == w;
    } else {
      assert (v + w)[1..] == v[1..] + w;
      StreamAppend(pubKeyOf, f, v[1..], w);
    }
  }

  lemma StreamOne(pubKeyOf: Path -> PublicKey, f: Format, e: Event)
    ensures StreamBytes(pubKeyOf, f, [e]) == EventBytes(pubKeyOf, f, e)
  {
    hide EventBytes;
    assert [e][1..] == [];
  }

  lemma StreamCons(pubKeyOf: Path -> PublicKey, f: Format, e: Event, es: seq<Event>)
    ensures StreamBytes(pubKeyOf, f, [e] + es) == EventBytes(pubKeyOf, f, e) + StreamBytes(pubKeyOf, f, es)
  {
    hide EventBytes;
    assert ([e] + es)[1..] == es;
  }

  lemma EncodeEntry(key: uint64, value: Item)
    requires Fits(value)
    ensures EncodeAll(Entry(key, value)) == Head(Unsigned, key) + Encode(value)
  {
    hide Head;
    EncodeAllOne(value);
    EncodeAllCons(Uint(key), [value], Entry(key, value));
  }

  lemma EncodeBytesToken(b: seq<byte>)
    requires |b| < TWO_16
    ensures Fits(Bstr(b)) && Encode(Bstr(b)) == BytesToken(b)
  {
  }

  lemma {:induction false} DelegationBytes(pubKeyOf: Path -> PublicKey, f: Format, ds: seq<Delegation>)
    ensures StreamBytes(pubKeyOf, f, DelegationEvents(ds)) == EncodeAll(DelegationItems(pubKeyOf, ds))
  {
    hide Head, Encode, EncodeAll, StreamBytes, BytesToken;
    if ds == [] {
      NothingWritten(pubKeyOf, f);
    } else {
      var e := Delegate(ds[0].voteKey, ds[0].weight);
      var k := KeyOf(pubKeyOf, ds[0].voteKey);
      StreamCons(pubKeyOf, f, e, DelegationEvents(ds[1..]));
      DelegationBytes(pubKeyOf, f, ds[1..]);
      EncodeBytesToken(k);
      EncodeUint(ds[0].weight);
      EncodeTwo(Bstr(k), Uint(ds[0].weight));
      EncodeAllCons(DelegationItem(pubKeyOf, ds[0]), DelegationItems(pubKeyOf, ds[1..]), DelegationItems(pubKeyOf, ds));
    }
  }

  lemma NothingWritten(pubKeyOf: Path -> PublicKey, f: Format)
    ensures StreamBytes(pubKeyOf, f, []) == EncodeAll([]) == []
  {
  }

  lemma LastBytes(pubKeyOf: Path -> PublicKey, r: Registration)
    requires WellFormed(r)
    ensures StreamBytes(pubKeyOf, r.format, LastEvents(r)) == EncodeAll(LastEntries(pubKeyOf, r))
  {
    hide Head, Encode, EncodeAll, StreamBytes, BytesToken, WellFormed, Fits, Entry;
    var f := r.format;
    var sk, pa, no, vp := StakingKey(r.stakingPath), PaymentAddress(r.address, true), Nonce(r.nonce),
      VotingPurpose(r.purpose);
    SmallEntries(pubKeyOf, r);
    var e2, e3, e4 := Entry(2, Bstr(pubKeyOf(r.stakingPath))), Entry(3, Bstr(r.address)), Entry(4, Uint(r.nonce));
    var e5 := if f == CIP36 then Entry(5, Uint(PurposeOf(r))) else [];
    EncodeAllAppend(e2, e3);
    EncodeAllAppend(e2 + e3, e4);
    EncodeAllAppend(e2 + e3 + e4, e5);
    StreamFive(pubKeyOf, f, sk, pa, no, vp, Confirm);
    NothingWritten(pubKeyOf, f);
  }

  lemma StreamFive(pubKeyOf: Path -> PublicKey, f: Format, a: Event, b: Event, c: Event, d: Event, e: Event)
    ensures StreamBytes(pubKeyOf, f, [a, b, c, d, e])
         == EventBytes(pubKeyOf, f, a) + EventBytes(pubKeyOf, f, b) + EventBytes(pubKeyOf, f, c)
            + EventBytes(pubKeyOf, f, d) + EventBytes(pubKeyOf, f, e)
  {
    hide EventBytes, StreamBytes;
    assert [a, b, c, d, e] == ((([a] + [b]) + [c]) + [d]) + [e];
    StreamAppend(pubKeyOf, f, (([a] + [b]) + [c]) + [d], [e]);
    StreamAppend(pubKeyOf, f, ([a] + [b]) + [c], [d]);
    StreamAppend(pubKeyOf, f, [a] + [b], [c]);
    StreamAppend(pubKeyOf, f, [a], [b]);
    StreamOne(pubKeyOf, f, a);
    StreamOne(pubKeyOf, f, b);
    StreamOne(pubKeyOf, f, c);
    StreamOne(pubKeyOf, f, d);
    StreamOne(pubKeyOf, f, e);
  }

  lemma SmallEntries(pubKeyOf: Path -> PublicKey, r: Registration)
    requires WellFormed(r)
    ensures |r.address| <= MAX_ADDRESS_SIZE && Fits(Bstr(pubKeyOf(r.stakingPath))) && Fits(Bstr(r.address))
    ensures Fits(Uint(r.nonce)) && Fits(Uint(PurposeOf(r)))
    ensures EncodeAll(Entry(2, Bstr(pubKeyOf(r.stakingPath))))
            == Head(Unsigned, 2) + BytesToken(pubKeyOf(r.stakingPath))
    ensures EncodeAll(Entry(3, Bstr(r.address))) == Head(Unsigned, 3) + BytesToken(r.address)
    ensures EncodeAll(Entry(4, Uint(r.nonce))) == Head(Unsigned, 4) + Head(Unsigned, r.nonce)
    ensures EncodeAll(Entry(5, Uint(PurposeOf(r)))) == Head(Unsigned, 5) + Head(Unsigned, PurposeOf(r))
  {
    hide Head, Encode, EncodeAll, Entry, BytesToken;
    EncodeBytesToken(pubKeyOf(r.stakingPath));
    EncodeBytesToken(r.address);
    EncodeUint(r.nonce);
    EncodeUint(PurposeOf(r));
    EncodeEntry(2, Bstr(pubKeyOf(r.stakingPath)));
    EncodeEntry(3, Bstr(r.address));
    EncodeEntry(4, Uint(r.nonce));
    EncodeEntry(5, Uint(PurposeOf(r)));
  }

  /** The bytes of all requests of a registration are its metadata key followed by the registration map:
      the declared sizes are met exactly. */
  lemma RegistrationBytes(pubKeyOf: Path -> PublicKey, r: Registration)
    requires WellFormed(r)
    ensures StreamBytes(pubKeyOf, r.format, Events(r))
         == EncodeAll(Entry(METADATA_KEY_PAYLOAD, RegistrationItem(pubKeyOf, r)))
  {
    hide Head, Encode, EncodeAll, StreamBytes, Fits, Entry, EventBytes, WellFormed, LastEvents;
    var f, n := r.format, Narrow16(r.numDelegations);
    var init := Init(f, r.numDelegations);
    KeyCount(r);
    var entries := Entry(1, KeysItem(pubKeyOf, r.keys)) + LastEntries(pubKeyOf, r);
    var size := Head(Unsigned, METADATA_KEY_PAYLOAD) + Head(Map, MapSize(f));
    StreamAppend(pubKeyOf, f, [init] + KeyEvents(r.keys), LastEvents(r));
    StreamAppend(pubKeyOf, f, [init], KeyEvents(r.keys));
    StreamOne(pubKeyOf, f, init);
    LastBytes(pubKeyOf, r);
    KeyBytes(pubKeyOf, r);
    EncodeAllAppend(Entry(1, KeysItem(pubKeyOf, r.keys)), LastEntries(pubKeyOf, r));
    EntryCount(pubKeyOf, r);
    EncodeMap(entries);
    EncodeEntry(METADATA_KEY_PAYLOAD, MapOf(entries));
    var k, l := EncodeAll(Entry(1, KeysItem(pubKeyOf, r.keys))), EncodeAll(LastEntries(pubKeyOf, r));
    assert (size + k) + l == Head(Unsigned, METADATA_KEY_PAYLOAD) + (Head(Map, MapSize(f)) + (k + l));
  }

  lemma KeyCount(r: Registration)
    requires WellFormed(r)
    ensures r.keys.Several? ==> |r.keys.delegations| < TWO_16
  {
  }

  lemma EntryCount(pubKeyOf: Path -> PublicKey, r: Registration)
    requires WellFormed(r)
    ensures |Entry(1, KeysItem(pubKeyOf, r.keys)) + LastEntries(pubKeyOf, r)| == 2 * MapSize(r.format)
  {
  }

  lemma KeyBytes(pubKeyOf: Path -> PublicKey, r: Registration)
    requires WellFormed(r)
    ensures EventBytes(pubKeyOf, r.format, Init(r.format, r.numDelegations))
            + StreamBytes(pubKeyOf, r.format, KeyEvents(r.keys))
         == Head(Unsigned, METADATA_KEY_PAYLOAD) + Head(Map, MapSize(r.format))
            + EncodeAll(Entry(1, KeysItem(pubKeyOf, r.keys)))
  {
    hide Head, Encode, EncodeAll, StreamBytes, Fits, Entry, BytesToken;
    var size := Head(Unsigned, METADATA_KEY_PAYLOAD) + Head(Map, MapSize(r.format));
    EncodeEntry(1, KeysItem(pubKeyOf, r.keys));
    match r.keys {
      case Single(k) =>
        StreamOne(pubKeyOf, r.format, VoteKey(k));
        EncodeBytesToken(KeyOf(pubKeyOf, k));
      case Several(ds) =>
        DelegationBytes(pubKeyOf, r.format, ds);
        EncodeArr(DelegationItems(pubKeyOf, ds));
        var h, a, d := Head(Unsigned, 1), Head(Array, |ds|), EncodeAll(DelegationItems(pubKeyOf, ds));
        assert (size + (h + a)) + d == size + (h + (a + d));
    }
  }

  /** Both streams of a finished registration: each is the encoding of one item, and the two share
      every byte of the registration. */
  lemma FinishedStreams(pubKeyOf: Path -> PublicKey, r: Registration, signature: Signature)
    requires WellFormed(r)
    ensures Head(Map, 1) + StreamBytes(pubKeyOf, r.format, Events(r)) == Encode(PayloadItem(pubKeyOf, r))
    ensures Head(Array, 2) + Head(Map, 2) + StreamBytes(pubKeyOf, r.format, Events(r)) + SignatureBytes(signature)
            + Head(Array, 0)
         == Encode(AuxiliaryItem(pubKeyOf, r, signature))
  {
    hide Head, Encode, EncodeAll, StreamBytes, Fits, Entry, WellFormed, Events, RegistrationItem;
    RegistrationBytes(pubKeyOf, r);
    var p := Entry(METADATA_KEY_PAYLOAD, RegistrationItem(pubKeyOf, r));
    var q := Entry(METADATA_KEY_SIGNATURE, SignatureItem(signature));
    EncodeMap(p);
    SignatureEntry(signature);
    EncodeAllAppend(p, q);
    EncodeMap(p + q);
    EncodeArr([]);
    NothingWritten(pubKeyOf, r.format);
    EncodeTwo(MapOf(p + q), Arr([]));
    var s := EncodeAll(p);
    assert (Head(Map, 2) + (s + SignatureBytes(signature))) == Head(Map, 2) + s + SignatureBytes(signature);
    assert Head(Array, 2) + (Head(Map, 2) + s + SignatureBytes(signature)) + Head(Array, 0)
        == Head(Array, 2) + Head(Map, 2) + s + SignatureBytes(signature) + Head(Array, 0);
  }

  function SignatureBytes(signature: Signature): seq<byte> {
    Head(Unsigned, METADATA_KEY_SIGNATURE) + Head(Map, 1) + Head(Unsigned, SIGNATURE_KEY) + BytesToken(signature)
  }

  lemma SignatureEntry(signature: Signature)
    ensures EncodeAll(Entry(METADATA_KEY_SIGNATURE, SignatureItem(signature))) == SignatureBytes(signature)
  {
    hide Head, Encode, EncodeAll, Fits, BytesToken;
    EncodeBytesToken(signature);
    var e := Entry(SIGNATURE_KEY, Bstr(signature));
    EncodeEntry(SIGNATURE_KEY, Bstr(signature));
    EncodeMap(e);
    EncodeEntry(METADATA_KEY_SIGNATURE, MapOf(e));
    assert Head(Unsigned, METADATA_KEY_SIGNATURE) + (Head(Map, 1)
             + (Head(Unsigned, SIGNATURE_KEY) + BytesToken(signature)))
        == SignatureBytes(signature);
  }

  // ------------------------------------------------------------ the builder

  datatype BuilderState =
    | BUILDER_INIT | IN_REGISTRATION_INIT | IN_PAYLOAD_INIT | IN_PAYLOAD_VOTE_KEY | IN_PAYLOAD_DELEGATIONS
    | IN_PAYLOAD_STAKING_KEY | IN_PAYLOAD_PAYMENT_ADDRESS | IN_PAYLOAD_NONCE | IN_PAYLOAD_VOTING_PURPOSE
    | IN_SIGNATURE | IN_AUXILIARY_SCRIPTS | BUILDER_FINISHED

  /** aux_data_hash_builder_t. Each of the two hash contexts is the bytes appended to it so far.
      A method that returns false has failed an assertion. */
  class Builder {
    var payload: seq<byte>
    var format: Format
    var remainingDelegations: uint16
    var state: BuilderState
    var auxData: seq<byte>

    constructor ()
      ensures state == BUILDER_INIT && payload == [] && auxData == Head(Array, 2)
    {
      payload, auxData := [], Head(Array, 2);
      format, remainingDelegations, state := CIP15, 0, BUILDER_INIT;
    }

    method AppendBoth(bytes: seq<byte>)
      modifies this`payload, this`auxData
      ensures payload == old(payload) + bytes && auxData == old(auxData) + bytes
    {
      payload, auxData := payload + bytes, auxData + bytes;
    }

    method Enter(format: Format) returns (ok: bool)
      modifies this
      ensures ok <==> old(state) == BUILDER_INIT
      ensures ok ==> state == IN_REGISTRATION_INIT && this.format == format
      ensures ok ==> payload == old(payload) + Head(Map, 1) && auxData == old(auxData) + Head(Map, 2)
    {
      this.format := format;
      if state != BUILDER_INIT { return false; }
      auxData := auxData + Head(Map, 2);
      payload := payload + Head(Map, 1);
      state := IN_REGISTRATION_INIT;
      return true;
    }

    method EnterPayload() returns (ok: bool)
      modifies this
      ensures ok <==> old(state) == IN_REGISTRATION_INIT
      ensures ok ==> state == IN_PAYLOAD_INIT && format == old(format)
      ensures ok ==> var b := Head(Unsigned, METADATA_KEY_PAYLOAD) + Head(Map, MapSize(format));
                     payload == old(payload) + b && auxData == old(auxData) + b
    {
      if state != IN_REGISTRATION_INIT { return false; }
      AppendBoth(Head(Unsigned, METADATA_KEY_PAYLOAD) + Head(Map, if format == CIP36 then 5 else 4));
      state := IN_PAYLOAD_INIT;
      return true;
    }

    method AddVoteKey(key: seq<byte>) returns (ok: bool)
      modifies this
      ensures ok <==> old(state) == IN_PAYLOAD_INIT && |key| == PUBLIC_KEY_SIZE
      ensures ok ==> state == IN_PAYLOAD_VOTE_KEY && format == old(format)
      ensures ok ==> var b := Head(Unsigned, 1) + BytesToken(key);
                     payload == old(payload) + b && auxData == old(auxData) + b
    {
      if state != IN_PAYLOAD_INIT || |key| != PUBLIC_KEY_SIZE { return false; }
      AppendBoth(Head(Unsigned, 1) + (Head(Bytes, |key|) + key));
      state := IN_PAYLOAD_VOTE_KEY;
      return true;
    }

    method EnterDelegations(numDelegations: uint16) returns (ok: bool)
      modifies this
      ensures ok <==> old(state) == IN_PAYLOAD_INIT
      ensures ok ==> state == IN_PAYLOAD_DELEGATIONS && format == old(format) && remainingDelegations == numDelegations
      ensures ok ==> var b := Head(Unsigned, 1) + Head(Array, numDelegations);
                     payload == old(payload) + b && auxData == old(auxData) + b
    {
      remainingDelegations := numDelegations;
      if state != IN_PAYLOAD_INIT { return false; }
      AppendBoth(Head(Unsigned, 1) + Head(Array, numDelegations));
      state := IN_PAYLOAD_DELEGATIONS;
      return true;
    }

    method AddDelegation(key: seq<byte>, weight: uint32) returns (ok: bool)
      modifies this
      ensures ok <==> old(state) == IN_PAYLOAD_DELEGATIONS && old(remainingDelegations) > 0 && |key| == PUBLIC_KEY_SIZE
      ensures ok ==> state == IN_PAYLOAD_DELEGATIONS && format == old(format)
      ensures ok ==> remainingDelegations == old(remainingDelegations) - 1
      ensures ok ==> var b := Head(Array, 2) + BytesToken(key) + Head(Unsigned, weight);
                     payload == old(payload) + b && auxData == old(auxData) + b
    {
      if state != IN_PAYLOAD_DELEGATIONS || remainingDelegations == 0 || |key| != PUBLIC_KEY_SIZE { return false; }
      remainingDelegations := remainingDelegations - 1;
      AppendBoth(Head(Array, 2) + (Head(Bytes, |key|) + key) + Head(Unsigned, weight));
      return true;
    }

    method AddStakingKey(key: seq<byte>) returns (ok: bool)
      modifies this
      ensures ok <==> && |key| == PUBLIC_KEY_SIZE
                      && (old(state) == IN_PAYLOAD_VOTE_KEY
                          || (old(state) == IN_PAYLOAD_DELEGATIONS && old(remainingDelegations) == 0))
      ensures ok ==> state == IN_PAYLOAD_STAKING_KEY && format == old(format)
      ensures ok ==> var b := Head(Unsigned, 2) + BytesToken(key);
                     payload == old(payload) + b && auxData == old(auxData) + b
    {
      match state {
        case IN_PAYLOAD_VOTE_KEY =>
        case IN_PAYLOAD_DELEGATIONS => if remainingDelegations != 0 { return false; }
        case _ => return false;
      }
      if |key| != PUBLIC_KEY_SIZE { return false; }
      AppendBoth(Head(Unsigned, 2) + (Head(Bytes, |key|) + key));
      state := IN_PAYLOAD_STAKING_KEY;
      return true;
    }

    method AddPaymentAddress(address: seq<byte>) returns (ok: bool)
      requires |address| < TWO_16
      modifies this
      ensures ok <==> old(state) == IN_PAYLOAD_STAKING_KEY && 0 < |address| < 1024
      ensures ok ==> state == IN_PAYLOAD_PAYMENT_ADDRESS && format == old(format)
      ensures ok ==> var b := Head(Unsigned, 3) + BytesToken(address);
                     payload == old(payload) + b && auxData == old(auxData) + b
    {
      if state != IN_PAYLOAD_STAKING_KEY || |address| == 0 || |address| >= 1024 { return false; }
      AppendBoth(Head(Unsigned, 3) + (Head(Bytes, |address|) + address));
      state := IN_PAYLOAD_PAYMENT_ADDRESS;
      return true;
    }

    method AddNonce(nonce: uint64) returns (ok: bool)
      modifies this
      ensures ok <==> old(state) == IN_PAYLOAD_PAYMENT_ADDRESS
      ensures ok ==> state == IN_PAYLOAD_NONCE && format == old(format)
      ensures ok ==> var b := Head(Unsigned, 4) + Head(Unsigned, nonce);
                     payload == old(payload) + b && auxData == old(auxData) + b
    {
      if state != IN_PAYLOAD_PAYMENT_ADDRESS { return false; }
      AppendBoth(Head(Unsigned, 4) + Head(Unsigned, nonce));
      state := IN_PAYLOAD_NONCE;
      return true;
    }

    method AddVotingPurpose(purpose: uint64) returns (ok: bool)
      modifies this
      ensures ok <==> old(state) == IN_PAYLOAD_NONCE
      ensures ok ==> state == IN_PAYLOAD_VOTING_PURPOSE && format == old(format)
      ensures ok ==> var b := Head(Unsigned, 5) + Head(Unsigned, purpose);
                     payload == old(payload) + b && auxData == old(auxData) + b
    {
      if state != IN_PAYLOAD_NONCE { return false; }
      AppendBoth(Head(Unsigned, 5) + Head(Unsigned, purpose));
      state := IN_PAYLOAD_VOTING_PURPOSE;
      return true;
    }

    method FinalizePayload() returns (ok: bool, preimage: seq<byte>)
      ensures ok <==> state in {IN_PAYLOAD_NONCE, IN_PAYLOAD_VOTING_PURPOSE}
      ensures ok ==> preimage == payload
    {
      ok, preimage := state == IN_PAYLOAD_NONCE || state == IN_PAYLOAD_VOTING_PURPOSE, payload;
    }

    method AddSignature(signature: seq<byte>) returns (ok: bool)
      modifies this
      ensures ok <==> old(state) in {IN_PAYLOAD_NONCE, IN_PAYLOAD_VOTING_PURPOSE}
                      && |signature| == ED25519_SIGNATURE_LENGTH
      ensures ok ==> state == IN_SIGNATURE && payload == old(payload) && format == old(format)
      ensures ok ==> auxData == old(auxData) + SignatureBytes(signature)
    {
      if !(state == IN_PAYLOAD_NONCE || state == IN_PAYLOAD_VOTING_PURPOSE) { return false; }
      if |signature| != ED25519_SIGNATURE_LENGTH { return false; }
      auxData := auxData + (Head(Unsigned, METADATA_KEY_SIGNATURE) + Head(Map, 1) + Head(Unsigned, SIGNATURE_KEY)
                            + (Head(Bytes, |signature|) + signature));
      state := IN_SIGNATURE;
      return true;
    }

    method AddAuxiliaryScripts() returns (ok: bool)
      modifies this
      ensures ok <==> old(state) == IN_SIGNATURE
      ensures ok ==> state == IN_AUXILIARY_SCRIPTS && payload == old(payload) && format == old(format)
      ensures ok ==> auxData == old(auxData) + Head(Array, 0)
    {
      if state != IN_SIGNATURE { return false; }
      auxData := auxData + Head(Array, 0);
      state := IN_AUXILIARY_SCRIPTS;
      return true;
    }

    method Finalize() returns (ok: bool, preimage: seq<byte>)
      modifies this`state
      ensures ok <==> old(state) == IN_AUXILIARY_SCRIPTS
      ensures ok ==> state == BUILDER_FINISHED && preimage == auxData
    {
      ok, preimage := state == IN_AUXILIARY_SCRIPTS, auxData;
      if ok { state := BUILDER_FINISHED; }
    }
  }
}
