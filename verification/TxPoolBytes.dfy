/** The bytes of pool registrations. */
module TxPoolBytes {
  import opened Basics
  import opened Cbor
  import Bip44
  import P = TxPool
  import opened TxBody
  import opened TxHashBuilder
  import opened TxItems
  import opened TxElementBytes
  import opened TxEntryBytes

  // ------------------------------------------------------------ pool registrations

  lemma PortEncoded(port: Option<uint16>)
    ensures Fits(PortItem(port)) && Encode(PortItem(port)) == PortBytes(port)
  {
  }

  lemma Ipv4Encoded(ip: Option<seq<byte>>)
    requires ip.Some? ==> |ip.value| == IPV4_SIZE
    ensures Fits(AddressItem(ip)) && Encode(AddressItem(ip)) == Ipv4Bytes(ip)
  {
  }

  lemma Ipv6Encoded(ip: Option<seq<byte>>)
    requires ip.Some? ==> |ip.value| == IPV6_SIZE
    ensures var x := AddressItem(if ip.Some? then Some(SwappedWords(ip.value)) else None);
            Fits(x) && Encode(x) == Ipv6Bytes(ip)
  {
    hide SwappedWords;
  }

  lemma RelayEncoded(r: P.Relay)
    requires P.RelayAccepted(r)
    ensures RelaySizes(r) && Encodes([RelayItem(r)], RelayBytes(r))
  {
    hide Head, Encode, EncodeAll, Fits, PortItem, AddressItem, PortBytes, Ipv4Bytes, Ipv6Bytes, TextToken,
         SwappedWords, UnambiguousAscii;
    match r {
      case SingleHostIp(port, ipv4, ipv6) =>
        NumberEncoded(0);
        PortEncoded(port);
        Ipv4Encoded(ipv4);
        Ipv6Encoded(ipv6);
        FourEncoded(Uint(0), PortItem(port), AddressItem(ipv4),
                    AddressItem(if ipv6.Some? then Some(SwappedWords(ipv6.value)) else None));
      case SingleHostName(port, name) =>
        NumberEncoded(1);
        PortEncoded(port);
        TextEncoded(name);
        ThreeEncoded(Uint(1), PortItem(port), Tstr(name));
      case MultipleHostName(name) =>
        NumberEncoded(2);
        TextEncoded(name);
        TwoEncoded(Uint(2), Tstr(name));
    }
  }

  lemma MetadataEncoded(m: Option<P.PoolMetadata>)
    requires m.Some? ==> |m.value.url| < TWO_64
    ensures Fits(MetadataItem(m)) && Encode(MetadataItem(m)) == MetadataBytes(m)
  {
    hide Head, Encode, Fits, BytesToken, TextToken;
    NullEncoded();
    if m.Some? {
      var x := m.value;
      TextEncoded(x.url);
      BytesEncoded(x.hash);
      FitsArr([Tstr(x.url), Bstr(x.hash)]);
      EncodeTwo(Tstr(x.url), Bstr(x.hash));
    }
  }

  /** A state within a pool registration that began in s, with the bytes written since. */
  function InPool(s: State, part: PoolPhase, owners: uint16, relays: uint16, bytes: seq<byte>): State
    requires s.left[IN_CERTIFICATES] > 0
  {
    s.Less(IN_CERTIFICATES).(phase := IN_POOL(part), data := PoolCertificateData(owners, relays),
                             hashed := s.hashed + bytes)
  }

  function RunPool(s: State, cs: seq<P.PoolCall>): Option<State>
    decreases |cs|
  {
    if cs == [] then Some(s)
    else
      match OnPoolCall(s, cs[0])
      case None => None
      case Some(t) => RunPool(t, cs[1..])
  }

  lemma PoolNext(s: State, c: P.PoolCall, cs: seq<P.PoolCall>)
    ensures RunPool(s, [c] + cs) == match OnPoolCall(s, c) case None => None case Some(t) => RunPool(t, cs)
  {
    hide OnPoolCall;
    assert ([c] + cs)[1..] == cs;
  }

  lemma {:induction false} PoolAppend(s: State, v: seq<P.PoolCall>, w: seq<P.PoolCall>)
    ensures RunPool(s, v + w) == match RunPool(s, v) case None => None case Some(t) => RunPool(t, w)
    decreases |v|
  {
    hide OnPoolCall;
    if v == [] {
      assert v + w == w;
    } else {
      assert v == [v[0]] + v[1..] && v + w == [v[0]] + (v[1..] + w);
      PoolNext(s, v[0], v[1..] + w);
      if OnPoolCall(s, v[0]).Some? {
        PoolAppend(OnPoolCall(s, v[0]).value, v[1..], w);
      }
    }
  }

  lemma OnPoolStep(s: State, c: P.PoolCall)
    ensures Step(s, OnPool(c)) == OnPoolCall(s, c)
  {
    hide OnPoolCall;
  }

  lemma {:induction false} PoolRun(s: State, cs: seq<P.PoolCall>)
    ensures Run(s, Flat(PoolCallWord, cs)) == RunPool(s, cs)
    decreases |cs|
  {
    hide Step, Run, OnPoolCall, Flat;
    if cs == [] {
      NoPoolCalls();
      RunNext(s, []);
    } else {
      var c := cs[0];
      assert cs == [c] + cs[1..];
      FlatPrepend(PoolCallWord, c, cs[1..]);
      OnPoolStep(s, c);
      RunOne(s, OnPool(c));
      RunAppend(s, [OnPool(c)], Flat(PoolCallWord, cs[1..]));
      if OnPoolCall(s, c).Some? {
        PoolRun(OnPoolCall(s, c).value, cs[1..]);
      }
    }
  }

  lemma NoPoolCalls()
    ensures Flat(PoolCallWord, []) == []
  {
  }

  lemma {:induction false} OwnersRun(s: State, relays: uint16, bytes: seq<byte>, keyHashOf: Bip44.Path -> KeyHash,
                                     owners: seq<P.KeyRef>)
    requires s.left[IN_CERTIFICATES] > 0 && |owners| < TWO_16
    ensures AllFit(OwnerItems(keyHashOf, owners))
    ensures RunPool(InPool(s, POOL_OWNERS, |owners|, relays, bytes), P.OwnerCalls(keyHashOf, owners))
         == Some(InPool(s, POOL_OWNERS, 0, relays, bytes + EncodeAll(OwnerItems(keyHashOf, owners))))
    decreases |owners|
  {
    hide OnPoolCall, Encode, EncodeAll, Fits, Encodes, BytesToken, P.HashOf;
    if owners == [] {
      NothingEncoded(bytes);
    } else {
      var h, rest := P.HashOf(keyHashOf, owners[0]), owners[1..];
      PoolNext(InPool(s, POOL_OWNERS, |owners|, relays, bytes), P.AddOwner(h), P.OwnerCalls(keyHashOf, rest));
      OwnerStep(s, |owners|, relays, bytes, h);
      OwnersRun(s, relays, bytes + BytesToken(h), keyHashOf, rest);
      BytesEncoded(h);
      OneEncoded(Bstr(h));
      Joined([Bstr(h)], BytesToken(h), OwnerItems(keyHashOf, rest));
      Glue(bytes + BytesToken(h) + EncodeAll(OwnerItems(keyHashOf, rest)), bytes, BytesToken(h),
           EncodeAll(OwnerItems(keyHashOf, rest)));
    }
  }

  lemma OwnerStep(s: State, owners: uint16, relays: uint16, bytes: seq<byte>, h: KeyHash)
    requires s.left[IN_CERTIFICATES] > 0 && owners > 0
    ensures OnPoolCall(InPool(s, POOL_OWNERS, owners, relays, bytes), P.AddOwner(h))
         == Some(InPool(s, POOL_OWNERS, owners - 1, relays, bytes + BytesToken(h)))
  {
    hide BytesToken;
    Glue(s.hashed + (bytes + BytesToken(h)), s.hashed, bytes, BytesToken(h));
  }

  lemma {:induction false} RelaysRun(s: State, bytes: seq<byte>, relays: seq<P.Relay>)
    requires s.left[IN_CERTIFICATES] > 0 && |relays| < TWO_16 && P.RelaysAccepted(relays)
    ensures AllFit(RelayItems(relays))
    ensures RunPool(InPool(s, POOL_RELAYS, 0, |relays|, bytes), P.RelayCalls(relays))
         == Some(InPool(s, POOL_RELAYS, 0, 0, bytes + EncodeAll(RelayItems(relays))))
    decreases |relays|
  {
    hide OnPoolCall, Encode, EncodeAll, Fits, Encodes, RelayBytes, RelayItem, P.RelayAccepted, RelaySizes;
    if relays == [] {
      NothingEncoded(bytes);
    } else {
      var r, rest := relays[0], relays[1..];
      PoolNext(InPool(s, POOL_RELAYS, 0, |relays|, bytes), P.AddRelayCall(r), P.RelayCalls(rest));
      RelayEncoded(r);
      RelayStep(s, |relays|, bytes, r);
      RelaysRun(s, bytes + RelayBytes(r), rest);
      Joined([RelayItem(r)], RelayBytes(r), RelayItems(rest));
      Glue(bytes + RelayBytes(r) + EncodeAll(RelayItems(rest)), bytes, RelayBytes(r), EncodeAll(RelayItems(rest)));
    }
  }

  lemma RelayStep(s: State, relays: uint16, bytes: seq<byte>, r: P.Relay)
    requires s.left[IN_CERTIFICATES] > 0 && relays > 0 && RelaySizes(r)
    ensures OnPoolCall(InPool(s, POOL_RELAYS, 0, relays, bytes), P.AddRelayCall(r))
         == Some(InPool(s, POOL_RELAYS, 0, relays - 1, bytes + RelayBytes(r)))
  {
    hide RelayBytes, RelaySizes;
    Glue(s.hashed + (bytes + RelayBytes(r)), s.hashed, bytes, RelayBytes(r));
  }

  lemma PoolOpened(s: State, owners: uint16, relays: uint16)
    requires InList(s, IN_CERTIFICATES) && s.left[IN_CERTIFICATES] > 0
    ensures OnPoolCall(s, P.EnterCertificate(owners, relays))
         == Some(InPool(s, POOL_INIT, owners, relays, Head(Array, 10) + Head(Unsigned, 3)))
  {
    hide Head;
  }

  lemma PoolFieldStep(s: State, at: PoolPhase, owners: uint16, relays: uint16, bytes: seq<byte>, more: seq<byte>,
                      next: PoolPhase)
    requires s.left[IN_CERTIFICATES] > 0
    ensures PoolField(InPool(s, at, owners, relays, bytes), at, more, next)
         == Some(InPool(s, next, owners, relays, bytes + more))
  {
    Glue(s.hashed + (bytes + more), s.hashed, bytes, more);
  }

  lemma OwnersOpened(s: State, owners: uint16, relays: uint16, bytes: seq<byte>)
    requires s.left[IN_CERTIFICATES] > 0
    ensures OnPoolCall(InPool(s, POOL_REWARD_ACCOUNT, owners, relays, bytes), P.EnterOwners)
         == Some(InPool(s, POOL_OWNERS, owners, relays, bytes + (SetTag(s.tagCborSets) + Head(Array, owners))))
  {
    hide Head, SetTag;
    Glue(s.hashed + (bytes + (SetTag(s.tagCborSets) + Head(Array, owners))), s.hashed, bytes,
         SetTag(s.tagCborSets) + Head(Array, owners));
  }

  lemma RelaysOpened(s: State, relays: uint16, bytes: seq<byte>)
    requires s.left[IN_CERTIFICATES] > 0
    ensures OnPoolCall(InPool(s, POOL_OWNERS, 0, relays, bytes), P.EnterRelays)
         == Some(InPool(s, POOL_RELAYS, 0, relays, bytes + Head(Array, relays)))
  {
    hide Head;
    Glue(s.hashed + (bytes + Head(Array, relays)), s.hashed, bytes, Head(Array, relays));
  }

  lemma PoolClosed(s: State, bytes: seq<byte>, m: Option<P.PoolMetadata>)
    requires s.left[IN_CERTIFICATES] > 0 && P.MetadataAccepted(m)
    ensures OnPoolCall(InPool(s, POOL_RELAYS, 0, 0, bytes), P.AddMetadata(m))
         == Some(s.Less(IN_CERTIFICATES).(phase := IN(IN_CERTIFICATES), data := PoolCertificateData(0, 0),
                                          hashed := s.hashed + (bytes + MetadataBytes(m))))
  {
    hide MetadataBytes;
    Glue(s.hashed + (bytes + MetadataBytes(m)), s.hashed, bytes, MetadataBytes(m));
  }

  /** What is written up to the reward account, and for the whole certificate. */
  function FirstBytes(f: Frame, c: P.Certificate): seq<byte> {
    Head(Array, 10) + Head(Unsigned, 3) + BytesToken(P.HashOf(f.keyHashOf, c.poolKey)) + BytesToken(c.vrfKeyHash)
    + FinancialsBytes(c.financials) + BytesToken(P.AccountBytes(f.Env(), c.rewardAccount))
  }

  function PoolBytes(f: Frame, c: P.Certificate): seq<byte>
    requires |c.owners| < TWO_16 && |c.relays| < TWO_16 && P.RelaysAccepted(c.relays) && P.MetadataAccepted(c.metadata)
    requires AllFit(OwnerItems(f.keyHashOf, c.owners)) && AllFit(RelayItems(c.relays))
  {
    FirstBytes(f, c) + (SetTag(f.params.tagCborSets) + Head(Array, |c.owners|))
    + EncodeAll(OwnerItems(f.keyHashOf, c.owners)) + Head(Array, |c.relays|) + EncodeAll(RelayItems(c.relays))
    + MetadataBytes(c.metadata)
  }

  function FirstPoolCalls(f: Frame, c: P.Certificate): seq<P.PoolCall>
    requires |c.owners| < TWO_16 && |c.relays| < TWO_16
  {
    [P.EnterCertificate(|c.owners|, |c.relays|), P.AddPoolKeyHash(P.HashOf(f.keyHashOf, c.poolKey)),
     P.AddVrfKeyHash(c.vrfKeyHash), P.AddFinancials(c.financials),
     P.AddRewardAccount(P.AccountBytes(f.Env(), c.rewardAccount)), P.EnterOwners]
  }

  lemma FirstCalls(s: State, f: Frame, c: P.Certificate, rest: seq<P.PoolCall>)
    requires InList(s, IN_CERTIFICATES) && s.left[IN_CERTIFICATES] > 0 && s.tagCborSets == f.params.tagCborSets
    requires |c.owners| < TWO_16 && |c.relays| < TWO_16
    ensures RunPool(s, FirstPoolCalls(f, c) + rest)
         == RunPool(InPool(s, POOL_OWNERS, |c.owners|, |c.relays|,
                           FirstBytes(f, c) + (SetTag(f.params.tagCborSets) + Head(Array, |c.owners|))), rest)
  {
    hide Head, BytesToken, FinancialsBytes, SetTag, P.HashOf, P.AccountBytes, RunPool, InPool, InList, PoolField;
    var o, r := |c.owners|, |c.relays|;
    var c1, c2 := P.EnterCertificate(o, r), P.AddPoolKeyHash(P.HashOf(f.keyHashOf, c.poolKey));
    var c3, c4 := P.AddVrfKeyHash(c.vrfKeyHash), P.AddFinancials(c.financials);
    var c5 := P.AddRewardAccount(P.AccountBytes(f.Env(), c.rewardAccount));
    var b1 := Head(Array, 10) + Head(Unsigned, 3);
    var b2 := b1 + BytesToken(c2.hash);
    var b3 := b2 + BytesToken(c3.vrf);
    var b4 := b3 + FinancialsBytes(c.financials);
    PoolOpened(s, o, r);
    PoolFieldStep(s, POOL_INIT, o, r, b1, BytesToken(c2.hash), POOL_KEY_HASH);
    PoolFieldStep(s, POOL_KEY_HASH, o, r, b2, BytesToken(c3.vrf), POOL_VRF);
    PoolFieldStep(s, POOL_VRF, o, r, b3, FinancialsBytes(c.financials), POOL_FINANCIALS);
    PoolFieldStep(s, POOL_FINANCIALS, o, r, b4, BytesToken(c5.account), POOL_REWARD_ACCOUNT);
    OwnersOpened(s, o, r, FirstBytes(f, c));
    PoolNext(InPool(s, POOL_REWARD_ACCOUNT, o, r, FirstBytes(f, c)), P.EnterOwners, rest);
    PoolNext(InPool(s, POOL_FINANCIALS, o, r, b4), c5, [P.EnterOwners] + rest);
    PoolNext(InPool(s, POOL_VRF, o, r, b3), c4, [c5] + ([P.EnterOwners] + rest));
    PoolNext(InPool(s, POOL_KEY_HASH, o, r, b2), c3, [c4] + ([c5] + ([P.EnterOwners] + rest)));
    PoolNext(InPool(s, POOL_INIT, o, r, b1), c2, [c3] + ([c4] + ([c5] + ([P.EnterOwners] + rest))));
    PoolNext(s, c1, [c2] + ([c3] + ([c4] + ([c5] + ([P.EnterOwners] + rest)))));
    assert [c1, c2, c3, c4, c5, P.EnterOwners] + rest
        == [c1] + ([c2] + ([c3] + ([c4] + ([c5] + ([P.EnterOwners] + rest)))));
  }

  /** A list of n fields of which some have been written. */
  predicate Fields(bytes: seq<byte>, n: uint64, items: seq<Item>) {
    AllFit(items) && bytes == Head(Array, n) + EncodeAll(items)
  }

  lemma FieldAdded(bytes: seq<byte>, n: uint64, items: seq<Item>, x: Item)
    requires Fields(bytes, n, items) && Fits(x)
    ensures Fields(bytes + Encode(x), n, items + [x])
  {
    hide Head, Encode, Fits;
    EncodeAllSnoc(items, x);
    Glue(bytes + Encode(x), Head(Array, n), EncodeAll(items), Encode(x));
  }

  lemma FinancialsAdded(bytes: seq<byte>, n: uint64, items: seq<Item>, m: P.Financials)
    requires Fields(bytes, n, items)
    ensures Fields(bytes + FinancialsBytes(m), n,
                   items + [Uint(m.pledge)] + [Uint(m.cost)]
                   + [Tagged(CBOR_TAG_UNIT_INTERVAL, Arr([Uint(m.marginNumerator), Uint(m.marginDenominator)]))])
  {
    hide Head, Encode, Fits, Fields;
    var margin := Arr([Uint(m.marginNumerator), Uint(m.marginDenominator)]);
    NumberEncoded(m.pledge);
    NumberEncoded(m.cost);
    NumberEncoded(m.marginNumerator);
    NumberEncoded(m.marginDenominator);
    EncodeTwo(Uint(m.marginNumerator), Uint(m.marginDenominator));
    FitsArr([Uint(m.marginNumerator), Uint(m.marginDenominator)]);
    TaggedEncoded(CBOR_TAG_UNIT_INTERVAL, margin);
    var p, c, t := Head(Unsigned, m.pledge), Head(Unsigned, m.cost), Encode(Tagged(CBOR_TAG_UNIT_INTERVAL, margin));
    FieldAdded(bytes, n, items, Uint(m.pledge));
    FieldAdded(bytes + p, n, items + [Uint(m.pledge)], Uint(m.cost));
    FieldAdded(bytes + p + c, n, items + [Uint(m.pledge)] + [Uint(m.cost)], Tagged(CBOR_TAG_UNIT_INTERVAL, margin));
    Glue(bytes + p + c, bytes, p, c);
    Glue(bytes + FinancialsBytes(m), bytes, p + c, t);
  }

  lemma TaggedEncoded(tag: uint64, x: Item)
    requires Fits(x)
    ensures Fits(Tagged(tag, x)) && Encode(Tagged(tag, x)) == Head(Tag, tag) + Encode(x)
  {
  }

  lemma ListItemEncoded(tagged: bool, items: seq<Item>)
    requires AllFit(items) && |items| < TWO_64
    ensures Fits(ListItem(tagged, items))
    ensures Encode(ListItem(tagged, items)) == SetTag(tagged) + Head(Array, |items|) + EncodeAll(items)
  {
    hide Head, Encode, EncodeAll, Fits;
    EncodeArr(items);
    FitsArr(items);
    TaggedEncoded(CBOR_TAG_SET, Arr(items));
    if tagged {
      Glue(Encode(ListItem(tagged, items)), Head(Tag, CBOR_TAG_SET), Head(Array, |items|), EncodeAll(items));
    } else {
      assert [] + Head(Array, |items|) == Head(Array, |items|);
    }
  }

  lemma PoolEncoded(f: Frame, c: P.Certificate)
    requires |c.owners| < TWO_16 && |c.relays| < TWO_16 && P.RelaysAccepted(c.relays) && P.MetadataAccepted(c.metadata)
    requires AllFit(OwnerItems(f.keyHashOf, c.owners)) && AllFit(RelayItems(c.relays))
    ensures Encodes([Arr(PoolFields(f, c))], PoolBytes(f, c))
  {
    hide Head, Encode, EncodeAll, Fits, Fields, BytesToken, SetTag, P.HashOf, P.AccountBytes, ListItem, OwnerItems,
         RelayItems, MetadataItem, MetadataBytes, FinancialsBytes;
    var k, v, a := P.HashOf(f.keyHashOf, c.poolKey), c.vrfKeyHash, P.AccountBytes(f.Env(), c.rewardAccount);
    var owners, relays := OwnerItems(f.keyHashOf, c.owners), RelayItems(c.relays);
    var tagged := f.params.tagCborSets;
    BytesEncoded(k);
    BytesEncoded(v);
    BytesEncoded(a);
    NumberEncoded(3);
    NoFields(10);
    var b := Head(Array, 10);
    FieldAdded(b, 10, [], Uint(3));
    FieldAdded(b + Head(Unsigned, 3), 10, [] + [Uint(3)], Bstr(k));
    FieldAdded(b + Head(Unsigned, 3) + BytesToken(k), 10, [] + [Uint(3)] + [Bstr(k)], Bstr(v));
    var first := [] + [Uint(3)] + [Bstr(k)] + [Bstr(v)];
    FinancialsAdded(b + Head(Unsigned, 3) + BytesToken(k) + BytesToken(v), 10, first, c.financials);
    var money := first + [Uint(c.financials.pledge)] + [Uint(c.financials.cost)] + [Tagged(CBOR_TAG_UNIT_INTERVAL,
      Arr([Uint(c.financials.marginNumerator), Uint(c.financials.marginDenominator)]))];
    FieldAdded(b + Head(Unsigned, 3) + BytesToken(k) + BytesToken(v) + FinancialsBytes(c.financials), 10, money,
               Bstr(a));
    var b7, items := FirstBytes(f, c), money + [Bstr(a)];
    ListItemEncoded(tagged, owners);
    FieldAdded(b7, 10, items, ListItem(tagged, owners));
    var head := SetTag(tagged) + Head(Array, |c.owners|);
    Glue(b7 + head + EncodeAll(owners), b7, head, EncodeAll(owners));
    var b8 := b7 + head + EncodeAll(owners);
    EncodeArr(relays);
    FitsArr(relays);
    FieldAdded(b8, 10, items + [ListItem(tagged, owners)], Arr(relays));
    Glue(b8 + Head(Array, |c.relays|) + EncodeAll(relays), b8, Head(Array, |c.relays|), EncodeAll(relays));
    MetadataEncoded(c.metadata);
    FieldAdded(b8 + Head(Array, |c.relays|) + EncodeAll(relays), 10, items + [ListItem(tagged, owners)] + [Arr(relays)],
               MetadataItem(c.metadata));
    assert items + [ListItem(tagged, owners)] + [Arr(relays)] + [MetadataItem(c.metadata)] == PoolFields(f, c);
    AllFields(PoolBytes(f, c), PoolFields(f, c));
  }

  lemma NoFields(n: uint64)
    ensures Fields(Head(Array, n), n, [])
  {
  }

  lemma AllFields(bytes: seq<byte>, items: seq<Item>)
    requires |items| < TWO_64 && Fields(bytes, |items|, items)
    ensures Encodes([Arr(items)], bytes)
  {
    hide Head, Encode, Fits;
    EncodeArr(items);
    FitsArr(items);
    OneEncoded(Arr(items));
  }

  lemma PoolFits(s: State, f: Frame, c: P.Certificate)
    requires |c.owners| < TWO_16 && |c.relays| < TWO_16 && P.RelaysAccepted(c.relays)
    ensures AllFit(OwnerItems(f.keyHashOf, c.owners)) && AllFit(RelayItems(c.relays))
  {
    hide RunPool, InPool, Fits, OwnerItems, RelayItems, P.RelayAccepted;
    var t := s.(left := s.left[IN_CERTIFICATES := 1]);
    OwnersRun(t, 0, [], f.keyHashOf, c.owners);
    RelaysRun(t, [], c.relays);
  }

  lemma PoolCallsSplit(f: Frame, c: P.Certificate)
    requires |c.owners| < TWO_16 && |c.relays| < TWO_16
    ensures P.CertificateCalls(f.Env(), c)
         == FirstPoolCalls(f, c)
          + (P.OwnerCalls(f.keyHashOf, c.owners)
             + ([P.EnterRelays] + (P.RelayCalls(c.relays) + [P.AddMetadata(c.metadata)])))
  {
    hide P.OwnerCalls, P.RelayCalls, P.HashOf, P.AccountBytes;
    var first, owners, relays, last :=
      FirstPoolCalls(f, c), P.OwnerCalls(f.keyHashOf, c.owners), P.RelayCalls(c.relays), [P.AddMetadata(c.metadata)];
    Glue(first + owners + [P.EnterRelays] + relays + last, first + owners + [P.EnterRelays], relays, last);
    Glue(first + owners + [P.EnterRelays] + (relays + last), first + owners, [P.EnterRelays], relays + last);
    Glue(first + owners + ([P.EnterRelays] + (relays + last)), first, owners, [P.EnterRelays] + (relays + last));
  }

  lemma LastCall(s: State, c: P.PoolCall)
    ensures RunPool(s, [c]) == OnPoolCall(s, c)
  {
    hide OnPoolCall;
    PoolNext(s, c, []);
    assert [c] + [] == [c];
  }

  lemma PoolTaken(s: State, f: Frame, c: P.Certificate)
    requires P.WellFormed(f.params.Setting(), c) && s.tagCborSets == f.params.tagCborSets
    ensures ElementTaken(s, IN_CERTIFICATES, CertificateWord(f.Env(), Pool(c)), CertificateItems(f, Pool(c)))
  {
    hide Step, Run, RunPool, Encode, EncodeAll, Fits, InPool, PoolFields, FirstPoolCalls, FirstBytes,
         P.OwnersAccepted, P.RelayAccepted, P.MetadataAccepted, Head, SetTag;
    assert IsList(IN_CERTIFICATES);
    PoolFits(s, f, c);
    PoolEncoded(f, c);
    if InList(s, IN_CERTIFICATES) && s.left[IN_CERTIFICATES] > 0 {
      var owners, relays := P.OwnerCalls(f.keyHashOf, c.owners), P.RelayCalls(c.relays);
      var last := [P.AddMetadata(c.metadata)];
      var b := FirstBytes(f, c) + (SetTag(f.params.tagCborSets) + Head(Array, |c.owners|));
      PoolCallsSplit(f, c);
      PoolRun(s, FirstPoolCalls(f, c) + (owners + ([P.EnterRelays] + (relays + last))));
      FirstCalls(s, f, c, owners + ([P.EnterRelays] + (relays + last)));
      PoolAppend(InPool(s, POOL_OWNERS, |c.owners|, |c.relays|, b), owners, [P.EnterRelays] + (relays + last));
      OwnersRun(s, |c.relays|, b, f.keyHashOf, c.owners);
      var b8 := b + EncodeAll(OwnerItems(f.keyHashOf, c.owners));
      PoolNext(InPool(s, POOL_OWNERS, 0, |c.relays|, b8), P.EnterRelays, relays + last);
      RelaysOpened(s, |c.relays|, b8);
      var b9 := b8 + Head(Array, |c.relays|);
      PoolAppend(InPool(s, POOL_RELAYS, 0, |c.relays|, b9), relays, last);
      RelaysRun(s, b9, c.relays);
      var b10 := b9 + EncodeAll(RelayItems(c.relays));
      LastCall(InPool(s, POOL_RELAYS, 0, 0, b10), P.AddMetadata(c.metadata));
      PoolClosed(s, b10, c.metadata);
    }
  }
}
