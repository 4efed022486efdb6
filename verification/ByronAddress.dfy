/** Byron addresses: the printer, and the extraction of the protocol magic from address bytes. */
module ByronAddress {
  import opened Basics
  import opened Cbor
  import opened BufView

  const ADDRESS_ROOT_SIZE := 28
  const PROTOCOL_MAGIC_ADDRESS_ATTRIBUTE_KEY := 2
  const MAINNET_PROTOCOL_MAGIC := 764824073
  const CBOR_TAG_EMBEDDED_CBOR_BYTE_STRING := 24
  const MAX_ADDRESS_ATTRIBUTES_MAP_LENGTH := 3
  const CARDANO_ADDRESS_TYPE_PUBKEY := 0

  type Root = s: seq<byte> | |s| == ADDRESS_ROOT_SIZE witness seq(28, _ => 0)

  // ------------------------------------------------------------ the address as a data item

  datatype Attribute = Attribute(key: uint64, value: seq<byte>)

  function AttributeEntries(attributes: seq<Attribute>): (es: seq<Item>)
    ensures |es| == 2 * |attributes|
  {
    if attributes == [] then []
    else [Uint(attributes[0].key), Bstr(attributes[0].value)] + AttributeEntries(attributes[1..])
  }

  /** array(3) of the root, the attributes and the address type. */
  function InnerItem(root: Root, attributes: seq<Attribute>, kind: uint64): Item {
    Arr([Bstr(root), MapOf(AttributeEntries(attributes)), Uint(kind)])
  }

  /** array(2) of the tagged bytes of an inner address and their checksum. */
  function PackedItem(crc32: seq<byte> -> uint32, raw: seq<byte>): Item {
    Arr([Tagged(CBOR_TAG_EMBEDDED_CBOR_BYTE_STRING, Bstr(raw)), Uint(crc32(raw))])
  }

  predicate AttributesFit(attributes: seq<Attribute>) {
    |attributes| < TWO_64 && forall i :: 0 <= i < |attributes| ==> |attributes[i].value| < TWO_64
  }

  /** Addresses of the main network do not carry a protocol magic; the others carry it as bytes that hold
      a CBOR number. */
  function MagicAttributes(magic: uint32): (attributes: seq<Attribute>)
    ensures AttributesFit(attributes)
  {
    if magic == MAINNET_PROTOCOL_MAGIC then []
    else [Attribute(PROTOCOL_MAGIC_ADDRESS_ATTRIBUTE_KEY, Encode(Uint(magic)))]
  }

  function AttributeBytes(attributes: seq<Attribute>): seq<byte>
    requires AttributesFit(attributes)
  {
    if attributes == [] then []
    else
      Head(Unsigned, attributes[0].key) + (Head(Bytes, |attributes[0].value|)
      + (attributes[0].value + AttributeBytes(attributes[1..])))
  }

  /** The bytes of an inner address, followed by something else. */
  function InnerBytes(root: Root, attributes: seq<Attribute>, kind: uint64, rest: seq<byte>): seq<byte>
    requires AttributesFit(attributes)
  {
    Head(Array, 3) + (Head(Bytes, ADDRESS_ROOT_SIZE) + (root
    + (Head(Map, |attributes|) + (AttributeBytes(attributes) + (Head(Unsigned, kind) + rest)))))
  }

  lemma {:induction false} AttributesEncoded(attributes: seq<Attribute>)
    requires AttributesFit(attributes)
    ensures AllFit(AttributeEntries(attributes))
    ensures EncodeAll(AttributeEntries(attributes)) == AttributeBytes(attributes)
  {
    hide Head, Encode, Fits;
    if attributes != [] {
      var a, tail := attributes[0], AttributeEntries(attributes[1..]);
      AttributesEncoded(attributes[1..]);
      EncodeUint(a.key);
      EncodeBstr(a.value);
      EncodeAllCons(Bstr(a.value), tail, [Bstr(a.value)] + tail);
      EncodeAllCons(Uint(a.key), [Bstr(a.value)] + tail, [Uint(a.key)] + ([Bstr(a.value)] + tail));
      assert AttributeEntries(attributes) == [Uint(a.key)] + ([Bstr(a.value)] + tail);
      assert (Head(Bytes, |a.value|) + a.value) + EncodeAll(tail)
          == Head(Bytes, |a.value|) + (a.value + EncodeAll(tail));
    }
  }

  lemma {:induction false} InnerEncoded(root: Root, attributes: seq<Attribute>, kind: uint64)
    requires AttributesFit(attributes)
    ensures Fits(InnerItem(root, attributes, kind))
    ensures Encode(InnerItem(root, attributes, kind)) == InnerBytes(root, attributes, kind, [])
  {
    hide Head, Encode, Fits, AttributeEntries, AttributeBytes;
    var entries := AttributeEntries(attributes);
    AttributesEncoded(attributes);
    EncodeBstr(root);
    EncodeMap(entries);
    EncodeUint(kind);
    EncodeThree(Bstr(root), MapOf(entries), Uint(kind));
    FitsThree(Bstr(root), MapOf(entries), Uint(kind));
    var a, h, m, b, k := Head(Array, 3), Head(Bytes, ADDRESS_ROOT_SIZE), Head(Map, |attributes|),
      AttributeBytes(attributes), Head(Unsigned, kind);
    assert a + (h + root) + (m + b) + k == a + (h + (root + (m + (b + (k + [])))));
  }

  lemma FitsThree(x: Item, y: Item, z: Item)
    requires Fits(x) && Fits(y) && Fits(z)
    ensures Fits(Arr([x, y, z]))
  {
  }

  lemma {:induction false} InnerFollowed(root: Root, attributes: seq<Attribute>, kind: uint64, rest: seq<byte>)
    requires AttributesFit(attributes)
    ensures InnerBytes(root, attributes, kind, []) + rest == InnerBytes(root, attributes, kind, rest)
  {
    hide Head, AttributeBytes;
    var a, h, m, b, k := Head(Array, 3), Head(Bytes, ADDRESS_ROOT_SIZE), Head(Map, |attributes|),
      AttributeBytes(attributes), Head(Unsigned, kind);
    assert (a + (h + (root + (m + (b + (k + [])))))) + rest == a + (h + (root + (m + (b + (k + rest)))));
  }

  lemma PackedEncoded(crc32: seq<byte> -> uint32, raw: seq<byte>)
    requires |raw| < TWO_64
    ensures Fits(PackedItem(crc32, raw))
    ensures Encode(PackedItem(crc32, raw))
         == Head(Array, 2) + (Head(Tag, CBOR_TAG_EMBEDDED_CBOR_BYTE_STRING) + (Head(Bytes, |raw|)
            + (raw + Head(Unsigned, crc32(raw)))))
  {
    hide Head;
    EncodeTwo(Tagged(CBOR_TAG_EMBEDDED_CBOR_BYTE_STRING, Bstr(raw)), Uint(crc32(raw)));
    var a, t, h, c := Head(Array, 2), Head(Tag, CBOR_TAG_EMBEDDED_CBOR_BYTE_STRING), Head(Bytes, |raw|),
      Head(Unsigned, crc32(raw));
    assert a + (t + (h + raw)) + c == a + (t + (h + (raw + c)));
  }

  // ------------------------------------------------------------ the printer

  /** The bytes of the inner address of a key. */
  function RawAddress(root: Root, protocolMagic: uint32): seq<byte> {
    InnerBytes(root, MagicAttributes(protocolMagic), CARDANO_ADDRESS_TYPE_PUBKEY, [])
  }

  /** cborEncodePubkeyAddressInner */
  method EncodePubkeyAddressInner(root: Root, protocolMagic: uint32, out: WriteView) returns (ok: bool)
    requires out.Valid()
    modifies out`ptr, out.buffer
    ensures out.Valid() && (ok <==> |RawAddress(root, protocolMagic)| <= old(out.RemainingSize()))
    ensures ok ==> out.Contents() == old(out.Contents()) + RawAddress(root, protocolMagic)
  {
    hide Head, Encode, MagicAttributes, AttributeBytes;
    ghost var start, attributes := out.Contents(), MagicAttributes(protocolMagic);
    MagicBytes(protocolMagic);
    ok := out.AppendToken(Array, 3);
    if !ok { return; }
    ok := out.AppendToken(Bytes, |root|);
    if !ok { return; }
    ok := out.AppendBuffer(root);
    if !ok { return; }
    ok := AppendAttributes(protocolMagic, out);
    if !ok { return; }
    ok := out.AppendToken(Unsigned, CARDANO_ADDRESS_TYPE_PUBKEY);
    if ok {
      Regrouped(start, Head(Array, 3), Head(Bytes, 28), root, Head(Map, |attributes|), AttributeBytes(attributes),
                Head(Unsigned, CARDANO_ADDRESS_TYPE_PUBKEY));
    }
  }

  lemma Regrouped(s: seq<byte>, a: seq<byte>, h: seq<byte>, r: seq<byte>, m: seq<byte>, b: seq<byte>, k: seq<byte>)
    ensures s + a + h + r + (m + b) + k == s + (a + (h + (r + (m + (b + (k + []))))))
  {
  }

  lemma MagicBytes(protocolMagic: uint32)
    ensures var attributes := MagicAttributes(protocolMagic);
      if protocolMagic == MAINNET_PROTOCOL_MAGIC then |attributes| == 0 && AttributeBytes(attributes) == []
      else
        && |attributes| == 1
        && AttributeBytes(attributes) == Head(Unsigned, PROTOCOL_MAGIC_ADDRESS_ATTRIBUTE_KEY)
             + (Head(Bytes, |Head(Unsigned, protocolMagic)|) + Head(Unsigned, protocolMagic))
  {
    hide Head, Encode;
    EncodeUint(protocolMagic);
    assert Head(Unsigned, protocolMagic) + [] == Head(Unsigned, protocolMagic);
  }

  /** The map of the attributes: empty, or the key of the protocol magic and, as bytes, its encoding. */
  method AppendAttributes(protocolMagic: uint32, out: WriteView) returns (ok: bool)
    requires out.Valid()
    modifies out`ptr, out.buffer
    ensures out.Valid()
    ensures var bytes := Head(Map, |MagicAttributes(protocolMagic)|) + AttributeBytes(MagicAttributes(protocolMagic));
            (ok <==> |bytes| <= old(out.RemainingSize())) && (ok ==> out.Contents() == old(out.Contents()) + bytes)
  {
    hide Head, Encode, MagicAttributes, AttributeBytes;
    MagicBytes(protocolMagic);
    ghost var start := out.Contents();
    if protocolMagic == MAINNET_PROTOCOL_MAGIC {
      ok := out.AppendToken(Map, 0);
      FourRegrouped(start, Head(Map, 0), [], [], []);
      return;
    }
    ghost var key, size := Head(Unsigned, PROTOCOL_MAGIC_ADDRESS_ATTRIBUTE_KEY),
      Head(Bytes, |Head(Unsigned, protocolMagic)|);
    ok := out.AppendToken(Map, 1);
    if !ok { return; }
    ok := out.AppendToken(Unsigned, PROTOCOL_MAGIC_ADDRESS_ATTRIBUTE_KEY);
    if !ok { return; }
    var scratch := Head(Unsigned, protocolMagic);
    ok := out.AppendToken(Bytes, |scratch|);
    if !ok { return; }
    ok := out.AppendBuffer(scratch);
    FourRegrouped(start, Head(Map, 1), key, size, scratch);
  }

  lemma FourRegrouped(s: seq<byte>, a: seq<byte>, b: seq<byte>, c: seq<byte>, d: seq<byte>)
    ensures s + a + b + c + d == s + (a + (b + (c + d)))
  {
  }

  /** The inner address always fits the buffer of 40 bytes, and fills it exactly if the magic is not that of the
      main network and takes more than 16 bits. */
  lemma RawAddressLength(root: Root, protocolMagic: uint32)
    ensures 33 <= |RawAddress(root, protocolMagic)| <= 40
    ensures |RawAddress(root, protocolMagic)| == 40
            <==> protocolMagic != 764824073 && protocolMagic >= TWO_16
  {
    hide Encode, MagicAttributes, AttributeBytes;
    MagicBytes(protocolMagic);
  }

  /** cborPackRawAddressWithChecksum */
  method PackRawAddressWithChecksum(crc32: seq<byte> -> uint32, raw: seq<byte>, output: WriteView) returns (ok: bool)
    requires output.Valid() && |raw| < BUFFER_SIZE_PARANOIA
    modifies output`ptr, output.buffer
    ensures output.Valid() && Fits(PackedItem(crc32, raw))
    ensures ok <==> |Encode(PackedItem(crc32, raw))| <= old(output.RemainingSize())
    ensures ok ==> output.Contents() == old(output.Contents()) + Encode(PackedItem(crc32, raw))
  {
    hide Head, Encode, Fits, PackedItem;
    PackedEncoded(crc32, raw);
    ghost var start := output.Contents();
    ok := output.AppendToken(Array, 2);
    if !ok { return; }
    ok := output.AppendToken(Tag, CBOR_TAG_EMBEDDED_CBOR_BYTE_STRING);
    if !ok { return; }
    ok := output.AppendToken(Bytes, |raw|);
    if !ok { return; }
    ok := output.AppendBuffer(raw);
    if !ok { return; }
    ok := output.AppendToken(Unsigned, crc32(raw));
    PackRegrouped(start, Head(Array, 2), Head(Tag, CBOR_TAG_EMBEDDED_CBOR_BYTE_STRING), Head(Bytes, |raw|), raw,
                  Head(Unsigned, crc32(raw)));
  }

  lemma PackRegrouped(s: seq<byte>, a: seq<byte>, t: seq<byte>, h: seq<byte>, r: seq<byte>, c: seq<byte>)
    ensures s + a + t + h + r + c == s + (a + (t + (h + (r + c))))
  {
  }

  /** The address of a root and a magic, as it is printed. */
  function AddressItem(crc32: seq<byte> -> uint32, root: Root, protocolMagic: uint32): Item {
    PackedItem(crc32, RawAddress(root, protocolMagic))
  }

  /** deriveAddress_byron, from the address root on: a buffer of 40 bytes is enough for the inner address. */
  method DeriveAddressByron(crc32: seq<byte> -> uint32, root: Root, protocolMagic: uint32, out: WriteView)
      returns (ok: bool)
    requires out.Valid()
    modifies out`ptr, out.buffer
    ensures out.Valid() && Fits(AddressItem(crc32, root, protocolMagic))
    ensures ok <==> |Encode(AddressItem(crc32, root, protocolMagic))| <= old(out.RemainingSize())
    ensures ok ==> out.Contents() == old(out.Contents()) + Encode(AddressItem(crc32, root, protocolMagic))
  {
    hide Encode, Fits, PackedItem, RawAddress;
    RawAddressLength(root, protocolMagic);
    var rawAddressBuffer := new byte[40];
    var raw := new WriteView(rawAddressBuffer);
    ok := EncodePubkeyAddressInner(root, protocolMagic, raw);
    var rawAddress := rawAddressBuffer[..raw.ptr];
    assert rawAddress == [] + RawAddress(root, protocolMagic) == RawAddress(root, protocolMagic);
    ok := PackRawAddressWithChecksum(crc32, rawAddress, out);
  }

  /** No printed address takes more than 50 bytes. */
  lemma AddressLength(crc32: seq<byte> -> uint32, root: Root, protocolMagic: uint32)
    ensures Fits(AddressItem(crc32, root, protocolMagic))
    ensures |Encode(AddressItem(crc32, root, protocolMagic))| <= 50
  {
    hide Encode, Fits, PackedItem, RawAddress;
    RawAddressLength(root, protocolMagic);
    PackedEncoded(crc32, RawAddress(root, protocolMagic));
  }

  lemma PrinterHeads()
    ensures Head(Array, 3) == [0x83] && Head(Array, 2) == [0x82] && Head(Map, 0) == [0xa0] && Head(Map, 1) == [0xa1]
    ensures Head(Bytes, 28) == [0x58, 0x1c] && Head(Unsigned, 0) == [0x00] && Head(Unsigned, 2) == [0x02]
    ensures Head(Tag, 24) == [0xd8, 0x18]
    ensures forall n :: 0 <= n < 24 ==> Head(Bytes, n) == [0x40 + n]
    ensures forall n :: 24 <= n < 256 ==> Head(Bytes, n) == [0x58, n]
  {
    HeadInBytes(Array, 3);
    HeadInBytes(Array, 2);
    HeadInBytes(Map, 0);
    HeadInBytes(Map, 1);
    HeadInBytes(Bytes, 28);
    HeadInBytes(Unsigned, 0);
    HeadInBytes(Unsigned, 2);
    HeadInBytes(Tag, 24);
    forall n | 0 <= n < 24 ensures Head(Bytes, n) == [0x40 + n] { HeadInBytes(Bytes, n); }
    forall n | 24 <= n < 256 ensures Head(Bytes, n) == [0x58, n] { HeadInBytes(Bytes, n); }
  }

  /** The inner address in bytes: no attribute on the main network, whose magic is 764824073, and elsewhere the magic
      under key 2. */
  lemma RawAddressInBytes(root: Root, protocolMagic: uint32)
    ensures var magic := Head(Unsigned, protocolMagic);
            RawAddress(root, protocolMagic)
            == if protocolMagic == 764824073 then [0x83, 0x58, 0x1c] + root + [0xa0, 0x00]
               else [0x83, 0x58, 0x1c] + root + [0xa1, 0x02, 0x40 + |magic|] + magic + [0x00]
  {
    PrinterHeads();
    MagicBytes(protocolMagic);
    hide Head, AttributeBytes, MagicAttributes, Encode;
    var magic := Head(Unsigned, protocolMagic);
    if protocolMagic == 764824073 {
      RawRegrouped([0x83], [0x58, 0x1c], root, [0xa0], [], [0x00]);
    } else {
      RawRegrouped([0x83], [0x58, 0x1c], root, [0xa1], [0x02] + ([0x40 + |magic|] + magic), [0x00]);
      assert [0xa1] + ([0x02] + ([0x40 + |magic|] + magic)) == [0xa1, 0x02, 0x40 + |magic|] + magic;
    }
  }

  lemma RawRegrouped(a: seq<byte>, h: seq<byte>, r: seq<byte>, m: seq<byte>, b: seq<byte>, k: seq<byte>)
    ensures a + (h + (r + (m + (b + (k + []))))) == (a + h) + r + (m + b) + k
  {
  }

  /** A printed address in bytes. */
  lemma AddressInBytes(crc32: seq<byte> -> uint32, root: Root, protocolMagic: uint32)
    ensures Fits(AddressItem(crc32, root, protocolMagic))
    ensures var raw := RawAddress(root, protocolMagic);
            33 <= |raw| <= 40
            && Encode(AddressItem(crc32, root, protocolMagic))
               == [0x82, 0xd8, 0x18, 0x58, |raw|] + raw + Head(Unsigned, crc32(raw))
  {
    PrinterHeads();
    hide Head, RawAddress, Encode, Fits;
    RawAddressLength(root, protocolMagic);
    var raw := RawAddress(root, protocolMagic);
    PackedEncoded(crc32, raw);
    hide PackedItem;
    assert [0x82] + ([0xd8, 0x18] + ([0x58, |raw|] + (raw + Head(Unsigned, crc32(raw)))))
        == [0x82, 0xd8, 0x18, 0x58, |raw|] + raw + Head(Unsigned, crc32(raw));
  }

  // ------------------------------------------------------------ extraction of the protocol magic

  const SIZE_MAX := 0xFFFF_FFFF

  /** A token of the given type at the front: its value and what follows it. */
  function Expect(m: Major, s: seq<byte>): (r: Option<(uint64, seq<byte>)>)
    ensures r.Some? ==> |r.value.1| <= |s|
  {
    match ReadToken(s)
    case None => None
    case Some(h) => if h.major == m then Some((h.value, s[h.size..])) else None
  }

  lemma ExpectHead(m: Major, v: uint64, rest: seq<byte>)
    requires IsKnown(m, v)
    ensures Expect(m, Head(m, v) + rest) == Some((v, rest))
  {
    hide Head, ReadToken;
    ReadTokenOfHead(m, v, rest);
    assert (Head(m, v) + rest)[|Head(m, v)|..] == rest;
  }

  /** parseBytesSizeToken */
  function ExpectBytes(s: seq<byte>): (r: Option<(nat, seq<byte>)>)
    ensures r.Some? ==> r.value.0 <= |r.value.1|
  {
    match Expect(Bytes, s)
    case None => None
    case Some((n, rest)) => if n < BUFFER_SIZE_PARANOIA && n <= |rest| then Some((n, rest)) else None
  }

  /** The attributes of the map: at most one protocol magic, which must not be that of the main network. The declared
      size of its value is not looked at; the size of every other value is skipped. */
  function ReadAttributes(n: nat, s: seq<byte>, found: Option<uint32>): Option<(Option<uint32>, seq<byte>)>
    decreases n
  {
    if n == 0 then Some((found, s))
    else
      match Expect(Unsigned, s)
      case None => None
      case Some((key, s1)) =>
        match ExpectBytes(s1)
        case None => None
        case Some((size, s2)) =>
          if key != PROTOCOL_MAGIC_ADDRESS_ATTRIBUTE_KEY then ReadAttributes(n - 1, s2[size..], found)
          else if found.Some? then None
          else
            match Expect(Unsigned, s2)
            case None => None
            case Some((magic, s3)) =>
              if magic >= SIZE_MAX || magic == MAINNET_PROTOCOL_MAGIC then None
              else ReadAttributes(n - 1, s3, Some(magic))
  }

  /** The inner address: array(3), the root, the attributes and the type. */
  function ReadInner(s: seq<byte>): Option<(Option<uint32>, seq<byte>)> {
    match Expect(Array, s)
    case None => None
    case Some((three, s1)) =>
      match ExpectBytes(s1)
      case None => None
      case Some((size, s2)) =>
        if three != 3 || size != ADDRESS_ROOT_SIZE then None
        else
          match Expect(Map, s2[ADDRESS_ROOT_SIZE..])
          case None => None
          case Some((n, s3)) =>
            if n > MAX_ADDRESS_ATTRIBUTES_MAP_LENGTH then None
            else
              match ReadAttributes(n, s3, None)
              case None => None
              case Some((found, s4)) =>
                match Expect(Unsigned, s4)
                case None => None
                case Some((_, s5)) => Some((found, s5))
  }

  /** What follows the inner address is its checksum, and nothing more. */
  predicate Checked(crc32: seq<byte> -> uint32, payload: seq<byte>, rest: seq<byte>) {
    Expect(Unsigned, rest) == Some((crc32(payload), []))
  }

  /** array(2), the tag of embedded data, and the size of the payload. */
  function Envelope(s: seq<byte>): (r: Option<(nat, seq<byte>)>)
    ensures r.Some? ==> r.value.0 <= |r.value.1|
  {
    match Expect(Array, s)
    case None => None
    case Some((two, s1)) =>
      if two != 2 then None
      else
        match Expect(Tag, s1)
        case None => None
        case Some((tag, s2)) => if tag != CBOR_TAG_EMBEDDED_CBOR_BYTE_STRING then None else ExpectBytes(s2)
  }

  /** The magic that extractProtocolMagic returns, or None if it refuses the address. */
  function ProtocolMagic(crc32: seq<byte> -> uint32, s: seq<byte>): Option<uint32> {
    match Envelope(s)
    case None => None
    case Some((size, payload)) =>
      match ReadInner(payload)
      case None => None
      case Some((found, rest)) =>
        if !Checked(crc32, payload[..size], rest) then None
        else Some(if found.Some? then found.value else MAINNET_PROTOCOL_MAGIC)
  }

  /** parseToken */
  method ParseToken(view: ReadView, m: Major) returns (value: Option<uint64>)
    requires view.Valid()
    modifies view
    ensures view.Valid()
    ensures match Expect(m, old(view.Rest()))
            case None => value == None
            case Some((v, rest)) => value == Some(v) && view.Rest() == rest
  {
    var token := view.ParseToken();
    value := if token.Some? && token.value.major == m then Some(token.value.value) else None;
  }

  method ParseBytesSizeToken(view: ReadView) returns (size: Option<nat>)
    requires view.Valid()
    modifies view
    ensures view.Valid()
    ensures match ExpectBytes(old(view.Rest()))
            case None => size == None
            case Some((n, rest)) => size == Some(n) && view.Rest() == rest
  {
    hide ReadToken, Expect;
    var value := ParseToken(view, Bytes);
    size := if value.Some? && value.value < BUFFER_SIZE_PARANOIA && value.value <= |view.Rest()|
            then Some(value.value) else None;
  }

  /** The loop over the attributes. */
  method ParseAttributes(view: ReadView, n: nat) returns (ok: bool, protocolMagic: uint32, protocolMagicFound: bool)
    requires view.Valid()
    modifies view
    ensures view.Valid()
    ensures match ReadAttributes(n, old(view.Rest()), None)
            case None => !ok
            case Some((found, rest)) =>
              && ok && view.Rest() == rest && protocolMagicFound == found.Some?
              && protocolMagic == if found.Some? then found.value else MAINNET_PROTOCOL_MAGIC
  {
    hide ReadToken, Expect, ExpectBytes;
    ok, protocolMagic, protocolMagicFound := false, MAINNET_PROTOCOL_MAGIC, false;
    var i := 0;
    ghost var start := view.Rest();
    while i < n
      invariant 0 <= i <= n && view.Valid()
      invariant !protocolMagicFound ==> protocolMagic == MAINNET_PROTOCOL_MAGIC
      invariant ReadAttributes(n, start, None)
             == ReadAttributes(n - i, view.Rest(), if protocolMagicFound then Some(protocolMagic) else None)
    {
      var currentKey := ParseToken(view, Unsigned);
      if currentKey.None? { return; }
      var currentValueSize := ParseBytesSizeToken(view);
      if currentValueSize.None? { return; }
      if currentKey.value == PROTOCOL_MAGIC_ADDRESS_ATTRIBUTE_KEY {
        if protocolMagicFound { return; }
        var parsedProtocolMagic := ParseToken(view, Unsigned);
        if parsedProtocolMagic.None? || parsedProtocolMagic.value >= SIZE_MAX { return; }
        if parsedProtocolMagic.value == MAINNET_PROTOCOL_MAGIC { return; }
        protocolMagic := parsedProtocolMagic.value;
        protocolMagicFound := true;
      } else {
        var skipped := view.Skip(currentValueSize.value);
      }
      i := i + 1;
    }
    ok := true;
  }

  method ParseInner(view: ReadView) returns (ok: bool, protocolMagic: uint32)
    requires view.Valid()
    modifies view
    ensures view.Valid()
    ensures match ReadInner(old(view.Rest()))
            case None => !ok
            case Some((found, rest)) =>
              ok && view.Rest() == rest && protocolMagic == if found.Some? then found.value else MAINNET_PROTOCOL_MAGIC
  {
    hide ReadToken, Expect, ExpectBytes, ReadAttributes;
    ok, protocolMagic := false, 0;
    var three := ParseToken(view, Array);
    if three != Some(3) { return; }
    var size := ParseBytesSizeToken(view);
    if size != Some(ADDRESS_ROOT_SIZE) { return; }
    var skipped := view.Skip(ADDRESS_ROOT_SIZE);
    var n := ParseToken(view, Map);
    if n.None? || n.value > MAX_ADDRESS_ATTRIBUTES_MAP_LENGTH { return; }
    var parsed, magic, found := ParseAttributes(view, n.value);
    if !parsed { return; }
    var kind := ParseToken(view, Unsigned);
    if kind.None? { return; }
    return true, magic;
  }

  method ParseEnvelope(view: ReadView) returns (size: Option<nat>)
    requires view.Valid()
    modifies view
    ensures view.Valid()
    ensures match Envelope(old(view.Rest()))
            case None => size == None
            case Some((n, payload)) => size == Some(n) && view.Rest() == payload
  {
    hide ReadToken, Expect, ExpectBytes;
    size := None;
    var two := ParseToken(view, Array);
    if two != Some(2) { return; }
    var tag := ParseToken(view, Tag);
    if tag != Some(CBOR_TAG_EMBEDDED_CBOR_BYTE_STRING) { return; }
    size := ParseBytesSizeToken(view);
  }

  method ParseChecksum(view: ReadView, checksum: uint32) returns (ok: bool)
    requires view.Valid()
    modifies view
    ensures ok <==> Expect(Unsigned, old(view.Rest())) == Some((checksum, []))
  {
    hide ReadToken, Expect;
    var parsed := ParseToken(view, Unsigned);
    ok := parsed == Some(checksum) && |view.Rest()| == 0;
  }

  method ExtractProtocolMagic(crc32: seq<byte> -> uint32, address: seq<byte>) returns (magic: Option<uint32>)
    ensures magic == if |address| < 1024 then ProtocolMagic(crc32, address) else None
  {
    hide ReadToken, Expect, Envelope, ReadInner;
    magic := None;
    if |address| >= BUFFER_SIZE_PARANOIA { return; }
    var view := new ReadView(address);
    var size := ParseEnvelope(view);
    if size.None? { return; }
    var unboxedAddressPayload := view.Rest()[..size.value];
    var ok, protocolMagic := ParseInner(view);
    if !ok { return; }
    ok := ParseChecksum(view, crc32(unboxedAddressPayload));
    if ok {
      magic := Some(protocolMagic);
    }
  }

  // ------------------------------------------------------------ round trip

  /** The number that the bytes of an attribute encode. */
  function NumberIn(value: seq<byte>): Option<uint64> {
    match ReadToken(value)
    case None => None
    case Some(h) => if h.major == Unsigned && h.size == |value| then Some(h.value) else None
  }

  /** The values are short, and those under the key of the protocol magic encode numbers. */
  predicate AttributesReadable(attributes: seq<Attribute>) {
    forall i :: 0 <= i < |attributes| ==>
      && |attributes[i].value| < 1024
      && (attributes[i].key == 2 ==> NumberIn(attributes[i].value).Some?)
  }

  /** The protocol magic that attributes declare. They are refused if they declare two, or one that does not
      fit, or that of the main network. */
  function Declared(attributes: seq<Attribute>, found: Option<uint32>): Option<Option<uint32>>
    requires AttributesReadable(attributes)
    decreases |attributes|
  {
    if attributes == [] then Some(found)
    else if attributes[0].key != PROTOCOL_MAGIC_ADDRESS_ATTRIBUTE_KEY then Declared(attributes[1..], found)
    else
      var magic := NumberIn(attributes[0].value).value;
      if found.Some? || magic >= SIZE_MAX || magic == MAINNET_PROTOCOL_MAGIC then None
      else Declared(attributes[1..], Some(magic))
  }

  /** The magic that attributes declare: at most one of them has the key 2, its number is below the largest 32-bit one and
      not that of the main network, and it is the result. */
  lemma {:induction false} DeclaredInNumbers(attributes: seq<Attribute>, found: Option<uint32>)
    requires AttributesReadable(attributes)
    ensures Declared(attributes, found).Some?
       <==> && (forall i, j :: 0 <= i < j < |attributes| ==> attributes[i].key != 2 || attributes[j].key != 2)
            && forall i :: 0 <= i < |attributes| && attributes[i].key == 2 ==>
                 && found.None? && NumberIn(attributes[i].value).value < 0xFFFF_FFFF
                 && NumberIn(attributes[i].value).value != 764824073
    ensures Declared(attributes, found).Some? && (forall i :: 0 <= i < |attributes| ==> attributes[i].key != 2) ==>
            Declared(attributes, found).value == found
    ensures Declared(attributes, found).Some? ==>
            forall i :: 0 <= i < |attributes| && attributes[i].key == 2 ==>
              Declared(attributes, found).value == Some(NumberIn(attributes[i].value).value)
  {
    hide NumberIn;
    if attributes != [] {
      var rest, n := attributes[1..], NumberIn(attributes[0].value);
      assert forall i :: 0 <= i < |rest| ==> rest[i] == attributes[i + 1];
      if attributes[0].key != 2 {
        DeclaredInNumbers(rest, found);
      } else if n.value < 0xFFFF_FFFF {
        DeclaredInNumbers(rest, Some(n.value));
      }
      assert forall i :: 0 < i < |attributes| ==> attributes[i] == rest[i - 1];
    }
  }

  lemma {:induction false} ReadOfAttributeBytes(attributes: seq<Attribute>, found: Option<uint32>, rest: seq<byte>)
    requires AttributesReadable(attributes) && AttributesFit(attributes)
    ensures ReadAttributes(|attributes|, AttributeBytes(attributes) + rest, found)
         == match Declared(attributes, found) case None => None case Some(f) => Some((f, rest))
    decreases |attributes|
  {
    hide Head, ReadToken, Expect, NumberIn;
    if attributes == [] {
      assert AttributeBytes(attributes) + rest == rest;
    } else {
      var a := attributes[0];
      var more := AttributeBytes(attributes[1..]) + rest;
      var afterKey := Head(Bytes, |a.value|) + (a.value + more);
      assert AttributeBytes(attributes) + rest == Head(Unsigned, a.key) + afterKey;
      ExpectHead(Unsigned, a.key, afterKey);
      ExpectHead(Bytes, |a.value|, a.value + more);
      assert (a.value + more)[|a.value|..] == more;
      if a.key == PROTOCOL_MAGIC_ADDRESS_ATTRIBUTE_KEY {
        NumberExpected(a.value, more);
        var magic := NumberIn(a.value).value;
        if found.None? && magic < SIZE_MAX && magic != MAINNET_PROTOCOL_MAGIC {
          ReadOfAttributeBytes(attributes[1..], Some(magic), rest);
        }
      } else {
        ReadOfAttributeBytes(attributes[1..], found, rest);
      }
    }
  }

  lemma NumberExpected(value: seq<byte>, more: seq<byte>)
    requires NumberIn(value).Some?
    ensures Expect(Unsigned, value + more) == Some((NumberIn(value).value, more))
  {
    hide Head, ReadToken, Expect;
    HeadOfReadToken(value);
    assert value[..|value|] == value;
    ExpectHead(Unsigned, NumberIn(value).value, more);
  }

  lemma {:induction false} ReadOfInnerBytes(root: Root, attributes: seq<Attribute>, kind: uint64, rest: seq<byte>)
    requires AttributesReadable(attributes) && |attributes| <= 3
    ensures AttributesFit(attributes)
    ensures ReadInner(InnerBytes(root, attributes, kind, rest))
         == match Declared(attributes, None) case None => None case Some(f) => Some((f, rest))
  {
    hide Head, ReadToken, Expect, AttributeBytes, Declared, ReadAttributes, AttributesReadable;
    Readable(attributes);
    var t4 := Head(Unsigned, kind) + rest;
    var t3 := AttributeBytes(attributes) + t4;
    var t2 := Head(Map, |attributes|) + t3;
    var t1 := Head(Bytes, ADDRESS_ROOT_SIZE) + (root + t2);
    ExpectHead(Array, 3, t1);
    ExpectHead(Bytes, ADDRESS_ROOT_SIZE, root + t2);
    assert (root + t2)[ADDRESS_ROOT_SIZE..] == t2;
    ExpectHead(Map, |attributes|, t3);
    ReadOfAttributeBytes(attributes, None, t4);
    ExpectHead(Unsigned, kind, rest);
  }

  lemma {:induction false} Readable(attributes: seq<Attribute>)
    requires AttributesReadable(attributes) && |attributes| <= 3
    ensures AttributesFit(attributes)
  {
  }

  /** What is extracted from any well-formed address, whatever its attributes, type and checksum function. */
  lemma {:induction false} ExtractedFromAddress(crc32: seq<byte> -> uint32, root: Root, attributes: seq<Attribute>,
    kind: uint64)
    requires AttributesReadable(attributes) && |attributes| <= 3
    requires Fits(InnerItem(root, attributes, kind))
    requires |Encode(InnerItem(root, attributes, kind))| < 1024
    ensures var raw := Encode(InnerItem(root, attributes, kind));
      && Fits(PackedItem(crc32, raw))
      && ProtocolMagic(crc32, Encode(PackedItem(crc32, raw)))
         == match Declared(attributes, None)
            case None => None
            case Some(f) => Some(if f.Some? then f.value else 764824073)
  {
    hide Head, ReadToken, Expect, InnerBytes, Declared, ReadInner, AttributesReadable, Encode, Fits, InnerItem,
         PackedItem;
    Readable(attributes);
    InnerEncoded(root, attributes, kind);
    var raw := InnerBytes(root, attributes, kind, []);
    var checksum := Head(Unsigned, crc32(raw));
    PackedEncoded(crc32, raw);
    var t2 := Head(Bytes, |raw|) + (raw + checksum);
    var t1 := Head(Tag, CBOR_TAG_EMBEDDED_CBOR_BYTE_STRING) + t2;
    ExpectHead(Array, 2, t1);
    ExpectHead(Tag, CBOR_TAG_EMBEDDED_CBOR_BYTE_STRING, t2);
    ExpectHead(Bytes, |raw|, raw + checksum);
    InnerFollowed(root, attributes, kind, checksum);
    ReadOfInnerBytes(root, attributes, kind, checksum);
    assert (raw + checksum)[..|raw|] == raw;
    assert checksum + [] == checksum;
    ExpectHead(Unsigned, crc32(raw), []);
  }

  /** The magic extracted from a printed address is the one it was printed with, except for the largest 32-bit
      number, with which the address is refused. */
  lemma ExtractedFromPrinted(crc32: seq<byte> -> uint32, root: Root, protocolMagic: uint32)
    ensures Fits(AddressItem(crc32, root, protocolMagic))
    ensures ProtocolMagic(crc32, Encode(AddressItem(crc32, root, protocolMagic)))
         == if protocolMagic < 0xFFFF_FFFF then Some(protocolMagic) else None
  {
    hide Encode, Fits, InnerItem, PackedItem, ProtocolMagic, InnerBytes, MagicAttributes;
    var attributes := MagicAttributes(protocolMagic);
    RawAddressLength(root, protocolMagic);
    InnerEncoded(root, attributes, CARDANO_ADDRESS_TYPE_PUBKEY);
    MagicDeclared(protocolMagic);
    ExtractedFromAddress(crc32, root, attributes, CARDANO_ADDRESS_TYPE_PUBKEY);
  }

  lemma MagicDeclared(protocolMagic: uint32)
    ensures var attributes := MagicAttributes(protocolMagic);
      && AttributesReadable(attributes) && |attributes| <= 1
      && Declared(attributes, None) == if protocolMagic == MAINNET_PROTOCOL_MAGIC then Some(None)
                                       else if protocolMagic >= SIZE_MAX then None else Some(Some(protocolMagic))
  {
    hide Head, ReadToken, Encode;
    EncodeUint(protocolMagic);
    ReadTokenOfHead(Unsigned, protocolMagic, []);
    assert Head(Unsigned, protocolMagic) + [] == Head(Unsigned, protocolMagic);
  }

  // ------------------------------------------------------------ what is accepted

  /** An attribute as it is read: the declared size of its value need not be the size of the number that is read
      as the protocol magic. */
  datatype ReadAttribute = ReadAttribute(declared: uint64, attribute: Attribute)

  predicate ReadOk(rs: seq<ReadAttribute>) {
    forall i :: 0 <= i < |rs| ==>
      && rs[i].declared < 1024
      && (if rs[i].attribute.key == 2
          then NumberIn(rs[i].attribute.value).Some? && |rs[i].attribute.value| <= 9
          else rs[i].declared == |rs[i].attribute.value|)
  }

  predicate SizesMet(rs: seq<ReadAttribute>) {
    forall i :: 0 <= i < |rs| ==> rs[i].declared == |rs[i].attribute.value|
  }

  function Attributes(rs: seq<ReadAttribute>): (attributes: seq<Attribute>)
    ensures |attributes| == |rs| && forall i :: 0 <= i < |rs| ==> attributes[i] == rs[i].attribute
  {
    if rs == [] then [] else [rs[0].attribute] + Attributes(rs[1..])
  }

  function ReadBytes(rs: seq<ReadAttribute>): seq<byte> {
    if rs == [] then []
    else
      Head(Unsigned, rs[0].attribute.key) + (Head(Bytes, rs[0].declared)
      + (rs[0].attribute.value + ReadBytes(rs[1..])))
  }

  lemma ExpectedBytes(m: Major, s: seq<byte>)
    requires Expect(m, s).Some?
    ensures var (v, rest) := Expect(m, s).value; s == Head(m, v) + rest
  {
    hide Head, ReadToken;
    HeadOfReadToken(s);
    var n := ReadToken(s).value.size;
    assert s == s[..n] + s[n..];
  }

  lemma NumberOfHead(v: uint64)
    ensures NumberIn(Head(Unsigned, v)) == Some(v) && |Head(Unsigned, v)| <= 9
  {
    hide Head, ReadToken;
    ReadTokenOfHead(Unsigned, v, []);
    assert Head(Unsigned, v) + [] == Head(Unsigned, v);
  }

  lemma {:induction false} ReadCons(r: ReadAttribute, rs: seq<ReadAttribute>, rest: seq<byte>, found: Option<uint32>)
    requires ReadOk([r]) && ReadOk(rs)
    ensures ReadOk([r] + rs) && AttributesReadable(Attributes([r] + rs)) && AttributesReadable(Attributes(rs))
    ensures ReadBytes([r] + rs) + rest
         == Head(Unsigned, r.attribute.key) + (Head(Bytes, r.declared) + (r.attribute.value + (ReadBytes(rs) + rest)))
    ensures Attributes([r] + rs) == [r.attribute] + Attributes(rs)
  {
    hide Head, NumberIn;
    var all := [r] + rs;
    assert all[0] == r && all[1..] == rs && [r][0] == r;
    assert forall i :: 0 < i < |all| ==> all[i] == rs[i - 1];
    FourRegrouped([], Head(Unsigned, r.attribute.key), Head(Bytes, r.declared), r.attribute.value,
      ReadBytes(rs) + rest);
    assert r.attribute.value + ReadBytes(rs) + rest == r.attribute.value + (ReadBytes(rs) + rest);
    var h, k, t := Head(Bytes, r.declared), Head(Unsigned, r.attribute.key), r.attribute.value + ReadBytes(rs);
    assert (k + (h + t)) + rest == k + (h + (t + rest));
  }

  lemma {:induction false} DeclaredCons(a: Attribute, attributes: seq<Attribute>, found: Option<uint32>)
    requires AttributesReadable([a] + attributes) && AttributesReadable(attributes)
    requires a.key == 2 ==> NumberIn(a.value).Some?
    ensures a.key != 2 ==>
            Declared([a] + attributes, found) == Declared(attributes, found)
    ensures a.key == 2 && found.None? ==>
            var v := NumberIn(a.value).value;
            v < SIZE_MAX && v != MAINNET_PROTOCOL_MAGIC ==>
              Declared([a] + attributes, found) == Declared(attributes, Some(v))
  {
    hide NumberIn;
    assert ([a] + attributes)[0] == a && ([a] + attributes)[1..] == attributes;
  }

  lemma {:induction false} AttributesRead(n: nat, s: seq<byte>, found: Option<uint32>)
      returns (rs: seq<ReadAttribute>, rest: seq<byte>)
    requires ReadAttributes(n, s, found).Some?
    ensures |rs| == n && ReadOk(rs) && AttributesReadable(Attributes(rs))
    ensures s == ReadBytes(rs) + rest
    ensures Declared(Attributes(rs), found).Some?
    ensures ReadAttributes(n, s, found) == Some((Declared(Attributes(rs), found).value, rest))
    decreases n
  {
    hide Head, ReadToken, Expect, ReadOk, NumberIn, AttributesReadable, ReadBytes, Declared;
    if n == 0 {
      rs, rest := [], s;
      NothingRead(s, found);
    } else {
      var (key, s1) := Expect(Unsigned, s).value;
      var (size, s2) := ExpectBytes(s1).value;
      ExpectedBytes(Unsigned, s);
      ExpectedBytes(Bytes, s1);
      var value, s3, next := s2[..size], s2[size..], found;
      if key == PROTOCOL_MAGIC_ADDRESS_ATTRIBUTE_KEY {
        var (magic, after) := Expect(Unsigned, s2).value;
        ExpectedBytes(Unsigned, s2);
        NumberOfHead(magic);
        value, s3, next := Head(Unsigned, magic), after, Some(magic);
      } else {
        assert s2 == value + s3;
      }
      var more;
      more, rest := AttributesRead(n - 1, s3, next);
      var r := ReadAttribute(size, Attribute(key, value));
      OneRead(r);
      ReadCons(r, more, rest, found);
      DeclaredCons(r.attribute, Attributes(more), found);
      rs := [r] + more;
    }
  }

  lemma {:induction false} NothingRead(s: seq<byte>, found: Option<uint32>)
    ensures ReadOk([]) && AttributesReadable(Attributes([])) && s == ReadBytes([]) + s
    ensures Declared(Attributes([]), found) == Some(found)
  {
  }

  lemma {:induction false} OneRead(r: ReadAttribute)
    requires r.declared < 1024
    requires if r.attribute.key == 2
             then NumberIn(r.attribute.value).Some? && |r.attribute.value| <= 9
             else r.declared == |r.attribute.value|
    ensures ReadOk([r])
  {
    hide NumberIn;
  }

  /** The bytes of an inner address as it is read, followed by something else. */
  function ReadInnerBytes(root: Root, rs: seq<ReadAttribute>, kind: uint64, rest: seq<byte>): seq<byte>
    requires |rs| < TWO_64
  {
    Head(Array, 3) + (Head(Bytes, ADDRESS_ROOT_SIZE) + (root
    + (Head(Map, |rs|) + (ReadBytes(rs) + (Head(Unsigned, kind) + rest)))))
  }

  lemma {:induction false} InnerRead(s: seq<byte>) returns (root: Root, rs: seq<ReadAttribute>, kind: uint64,
    rest: seq<byte>)
    requires ReadInner(s).Some?
    ensures |rs| <= 3 && ReadOk(rs) && AttributesReadable(Attributes(rs))
    ensures s == ReadInnerBytes(root, rs, kind, rest)
    ensures Declared(Attributes(rs), None).Some?
    ensures ReadInner(s) == Some((Declared(Attributes(rs), None).value, rest))
  {
    hide Head, ReadToken, Expect, ReadAttributes, ReadOk, AttributesReadable, Declared, ReadBytes;
    var (three, s1) := Expect(Array, s).value;
    var (size, s2) := ExpectBytes(s1).value;
    ExpectedBytes(Array, s);
    ExpectedBytes(Bytes, s1);
    root := s2[..ADDRESS_ROOT_SIZE];
    var t := s2[ADDRESS_ROOT_SIZE..];
    assert s2 == root + t;
    var (n, s3) := Expect(Map, t).value;
    ExpectedBytes(Map, t);
    var s4;
    rs, s4 := AttributesRead(n, s3, None);
    var (k, s5) := Expect(Unsigned, s4).value;
    ExpectedBytes(Unsigned, s4);
    kind, rest := k, s5;
  }

  /** What an accepted address looks like: the tokens are in their places and the checksum is over as many bytes as
      the payload is declared to have; only the sizes may be wrong. */
  ghost predicate ReadAs(crc32: seq<byte> -> uint32, s: seq<byte>, root: Root, rs: seq<ReadAttribute>, kind: uint64,
                         size: uint64, payload: seq<byte>)
  {
    && |rs| <= 3 && ReadOk(rs)
    && s == Head(Array, 2) + (Head(Tag, CBOR_TAG_EMBEDDED_CBOR_BYTE_STRING) + (Head(Bytes, size) + payload))
    && size <= |payload| && payload == ReadInnerBytes(root, rs, kind, Head(Unsigned, crc32(payload[..size])))
  }

  ghost predicate Declares(rs: seq<ReadAttribute>, magic: uint32) {
    && AttributesReadable(Attributes(rs))
    && match Declared(Attributes(rs), None)
       case None => false
       case Some(found) => magic == if found.Some? then found.value else 764824073
  }

  /** Every accepted address looks like this, and the magic extracted is the one its attributes declare. */
  lemma {:induction false} AddressRead(crc32: seq<byte> -> uint32, s: seq<byte>)
      returns (root: Root, rs: seq<ReadAttribute>, kind: uint64, size: uint64, payload: seq<byte>)
    requires ProtocolMagic(crc32, s).Some?
    ensures ReadAs(crc32, s, root, rs, kind, size, payload)
    ensures Declares(rs, ProtocolMagic(crc32, s).value)
  {
    hide Head, ReadToken, Expect, ReadInner, ReadInnerBytes, ReadOk, AttributesReadable, Declared;
    var (two, s1) := Expect(Array, s).value;
    var (tag, s2) := Expect(Tag, s1).value;
    ExpectedBytes(Array, s);
    ExpectedBytes(Tag, s1);
    ExpectedBytes(Bytes, s2);
    var (n, p) := ExpectBytes(s2).value;
    size, payload := n, p;
    var rest;
    root, rs, kind, rest := InnerRead(payload);
    ExpectedBytes(Unsigned, rest);
    assert Head(Unsigned, crc32(payload[..size])) + [] == Head(Unsigned, crc32(payload[..size]));
  }

  lemma {:induction false} SizesMetBytes(rs: seq<ReadAttribute>)
    requires AttributesFit(Attributes(rs)) && SizesMet(rs)
    ensures ReadBytes(rs) == AttributeBytes(Attributes(rs))
  {
    hide Head;
    if rs != [] {
      SizesMetBytes(rs[1..]);
    }
  }

  lemma SameHead(m: Major, v: uint64, w: uint64, x: seq<byte>, y: seq<byte>)
    requires IsKnown(m, v) && IsKnown(m, w) && Head(m, v) + x == Head(m, w) + y
    ensures v == w && x == y
  {
    hide Head, Expect;
    ExpectHead(m, v, x);
    ExpectHead(m, w, y);
  }

  lemma SameAfter(a: seq<byte>, x: seq<byte>, y: seq<byte>)
    requires a + x == a + y
    ensures x == y
  {
    assert (a + x)[|a|..] == x && (a + y)[|a|..] == y;
  }

  lemma {:induction false} SizesFromBytes(rs: seq<ReadAttribute>, x: seq<byte>, y: seq<byte>)
    requires AttributesFit(Attributes(rs)) && ReadBytes(rs) + x == AttributeBytes(Attributes(rs)) + y
    ensures SizesMet(rs) && x == y
  {
    hide Head;
    if rs == [] {
      assert ReadBytes(rs) + x == x && AttributeBytes(Attributes(rs)) + y == y;
    } else {
      var a, d := rs[0].attribute, rs[0].declared;
      var p, q := ReadBytes(rs[1..]), AttributeBytes(Attributes(rs[1..]));
      FiveRegrouped(Head(Unsigned, a.key), Head(Bytes, d), a.value, p, x);
      FiveRegrouped(Head(Unsigned, a.key), Head(Bytes, |a.value|), a.value, q, y);
      SameAfter(Head(Unsigned, a.key), Head(Bytes, d) + (a.value + (p + x)),
                Head(Bytes, |a.value|) + (a.value + (q + y)));
      SameHead(Bytes, d, |a.value|, a.value + (p + x), a.value + (q + y));
      SameAfter(a.value, p + x, q + y);
      SizesFromBytes(rs[1..], x, y);
    }
  }

  lemma FiveRegrouped(k: seq<byte>, h: seq<byte>, v: seq<byte>, p: seq<byte>, x: seq<byte>)
    ensures (k + (h + (v + p))) + x == k + (h + (v + (p + x)))
  {
  }

  lemma {:induction false} Short(rs: seq<ReadAttribute>)
    requires ReadOk(rs) && |rs| <= 3
    ensures AttributesFit(Attributes(rs))
  {
    hide NumberIn;
  }

  /** An accepted address is the well-formed address of what was read from it exactly if the declared sizes are
      those of the values and of the payload. */
  lemma {:induction false} WellFormedIfSizesMet(crc32: seq<byte> -> uint32, s: seq<byte>, root: Root,
                                                rs: seq<ReadAttribute>, kind: uint64, size: uint64, payload: seq<byte>)
    requires ReadAs(crc32, s, root, rs, kind, size, payload)
    ensures AttributesFit(Attributes(rs)) && Fits(InnerItem(root, Attributes(rs), kind))
    ensures var raw := Encode(InnerItem(root, Attributes(rs), kind));
      |raw| < TWO_64 ==>
      && Fits(PackedItem(crc32, raw))
      && (s == Encode(PackedItem(crc32, raw)) <==> SizesMet(rs) && size == |raw|)
  {
    hide Head, Encode, Fits, PackedItem, InnerItem, ReadOk, SizesMet, ReadBytes, AttributeBytes, AttributesFit,
         ReadInnerBytes, InnerBytes;
    Short(rs);
    var attributes := Attributes(rs);
    InnerEncoded(root, attributes, kind);
    var raw := InnerBytes(root, attributes, kind, []);
    if |raw| < TWO_64 {
      PackedEncoded(crc32, raw);
      var c, end := Head(Unsigned, crc32(payload[..size])), Head(Unsigned, crc32(raw));
      if SizesMet(rs) && size == |raw| {
        MetInner(root, rs, kind, c);
        InnerFollowed(root, attributes, kind, c);
        assert (raw + c)[..|raw|] == raw;
      }
      if s == Encode(PackedItem(crc32, raw)) {
        var t := Head(Tag, CBOR_TAG_EMBEDDED_CBOR_BYTE_STRING);
        SameAfter(Head(Array, 2), t + (Head(Bytes, size) + payload), t + (Head(Bytes, |raw|) + (raw + end)));
        SameAfter(t, Head(Bytes, size) + payload, Head(Bytes, |raw|) + (raw + end));
        SameHead(Bytes, size, |raw|, payload, raw + end);
        InnerFollowed(root, attributes, kind, end);
        InnerSizes(root, rs, kind, c, end);
      }
    }
  }

  /** An inner address whose protocol magic, 1, is declared to take no bytes, followed by something else. */
  function MisdeclaredBytes(root: Root, rest: seq<byte>): seq<byte> {
    Head(Array, 3) + (Head(Bytes, ADDRESS_ROOT_SIZE) + (root + (Head(Map, 1)
    + (Head(Unsigned, PROTOCOL_MAGIC_ADDRESS_ATTRIBUTE_KEY) + (Head(Bytes, 0)
    + (Head(Unsigned, 1) + (Head(Unsigned, CARDANO_ADDRESS_TYPE_PUBKEY) + rest)))))))
  }

  lemma MisdeclaredRead(root: Root, rest: seq<byte>)
    ensures ReadInner(MisdeclaredBytes(root, rest)) == Some((Some(1), rest))
  {
    hide Head, ReadToken, Expect;
    var s7 := Head(Unsigned, CARDANO_ADDRESS_TYPE_PUBKEY) + rest;
    var s6 := Head(Unsigned, 1) + s7;
    var s5 := Head(Bytes, 0) + s6;
    var s4 := Head(Unsigned, PROTOCOL_MAGIC_ADDRESS_ATTRIBUTE_KEY) + s5;
    var s3 := Head(Map, 1) + s4;
    var s2 := root + s3;
    ExpectHead(Array, 3, Head(Bytes, ADDRESS_ROOT_SIZE) + s2);
    ExpectHead(Bytes, ADDRESS_ROOT_SIZE, s2);
    assert s2[ADDRESS_ROOT_SIZE..] == s3;
    ExpectHead(Map, 1, s4);
    ExpectHead(Unsigned, PROTOCOL_MAGIC_ADDRESS_ATTRIBUTE_KEY, s5);
    ExpectHead(Bytes, 0, s6);
    ExpectHead(Unsigned, 1, s7);
    ExpectHead(Unsigned, CARDANO_ADDRESS_TYPE_PUBKEY, rest);
    assert ReadAttributes(0, s7, Some(1)) == Some((Some(1), s7));
    assert ReadAttributes(1, s4, None) == Some((Some(1), s7));
  }

  lemma MisdeclaredFollowed(root: Root, rest: seq<byte>)
    ensures MisdeclaredBytes(root, []) + rest == MisdeclaredBytes(root, rest)
    ensures |MisdeclaredBytes(root, [])| == 36
  {
    var a, b, c, d, e, f, g := Head(Array, 3), Head(Bytes, ADDRESS_ROOT_SIZE), Head(Map, 1),
      Head(Unsigned, PROTOCOL_MAGIC_ADDRESS_ATTRIBUTE_KEY), Head(Bytes, 0), Head(Unsigned, 1),
      Head(Unsigned, CARDANO_ADDRESS_TYPE_PUBKEY);
    assert |a| == 1 && |b| == 2 && |c| == 1 && |d| == 1 && |e| == 1 && |f| == 1 && |g| == 1;
    assert (a + (b + (root + (c + (d + (e + (f + (g + [])))))))) + rest
        == a + (b + (root + (c + (d + (e + (f + (g + rest)))))));
  }

  /** A reader of CBOR takes the number for the address type, and one byte is left. */
  lemma MisdeclaredDecoded(root: Root)
    ensures var i := Arr([Bstr(root), MapOf([Uint(PROTOCOL_MAGIC_ADDRESS_ATTRIBUTE_KEY), Bstr([])]), Uint(1)]);
            Fits(i) && MisdeclaredBytes(root, [])
                    == Encode(i) + Head(Unsigned, CARDANO_ADDRESS_TYPE_PUBKEY)
  {
    hide Head, Encode, Fits;
    var es := [Uint(PROTOCOL_MAGIC_ADDRESS_ATTRIBUTE_KEY), Bstr([])];
    EncodeUint(PROTOCOL_MAGIC_ADDRESS_ATTRIBUTE_KEY);
    EncodeUint(1);
    EncodeBstr([]);
    EncodeBstr(root);
    EncodeAllOne(es[1]);
    EncodeAllCons(es[0], [es[1]], es);
    EncodeMap(es);
    EncodeThree(Bstr(root), MapOf(es), Uint(1));
    FitsThree(Bstr(root), MapOf(es), Uint(1));
    var a, b, c, d, e, f, g := Head(Array, 3), Head(Bytes, ADDRESS_ROOT_SIZE), Head(Map, 1),
      Head(Unsigned, PROTOCOL_MAGIC_ADDRESS_ATTRIBUTE_KEY), Head(Bytes, 0), Head(Unsigned, 1),
      Head(Unsigned, CARDANO_ADDRESS_TYPE_PUBKEY);
    assert (a + (b + root) + (c + (d + (e + []))) + f) + g
        == a + (b + (root + (c + (d + (e + (f + (g + [])))))));
  }

  /** An address that is accepted, with magic 1, although its payload is not the encoding of any data item. */
  lemma MisdeclaredAccepted(crc32: seq<byte> -> uint32, root: Root)
    ensures Fits(PackedItem(crc32, MisdeclaredBytes(root, [])))
    ensures ProtocolMagic(crc32, Encode(PackedItem(crc32, MisdeclaredBytes(root, [])))) == Some(1)
    ensures forall i: Item | Fits(i) :: Encode(i) != MisdeclaredBytes(root, [])
  {
    hide Head, Encode, Fits, Decode, PackedItem, ReadToken, Expect, ReadInner, MisdeclaredBytes;
    var raw := MisdeclaredBytes(root, []);
    var c := Head(Unsigned, crc32(raw));
    MisdeclaredFollowed(root, c);
    PackedEncoded(crc32, raw);
    ExpectHead(Array, 2, Head(Tag, CBOR_TAG_EMBEDDED_CBOR_BYTE_STRING) + (Head(Bytes, |raw|) + (raw + c)));
    ExpectHead(Tag, CBOR_TAG_EMBEDDED_CBOR_BYTE_STRING, Head(Bytes, |raw|) + (raw + c));
    ExpectHead(Bytes, |raw|, raw + c);
    MisdeclaredRead(root, c);
    assert (raw + c)[..|raw|] == raw;
    ExpectHead(Unsigned, crc32(raw), []);
    assert c + [] == c;
    forall i: Item | Fits(i) ensures Encode(i) != raw {
      MisdeclaredDecoded(root);
      var j := Arr([Bstr(root), MapOf([Uint(PROTOCOL_MAGIC_ADDRESS_ATTRIBUTE_KEY), Bstr([])]), Uint(1)]);
      if Encode(i) == raw {
        assert Encode(i) + [] == Encode(i);
        EncodeInjective(i, j, [], Head(Unsigned, CARDANO_ADDRESS_TYPE_PUBKEY));
        assert false;
      }
    }
  }

  lemma {:induction false} MetInner(root: Root, rs: seq<ReadAttribute>, kind: uint64, c: seq<byte>)
    requires |rs| < TWO_64 && AttributesFit(Attributes(rs)) && SizesMet(rs)
    ensures ReadInnerBytes(root, rs, kind, c) == InnerBytes(root, Attributes(rs), kind, c)
  {
    hide Head, AttributesFit, SizesMet, ReadBytes, AttributeBytes;
    SizesMetBytes(rs);
  }

  lemma {:induction false} InnerSizes(root: Root, rs: seq<ReadAttribute>, kind: uint64, c: seq<byte>, end: seq<byte>)
    requires |rs| < TWO_64 && AttributesFit(Attributes(rs))
    requires ReadInnerBytes(root, rs, kind, c) == InnerBytes(root, Attributes(rs), kind, end)
    ensures SizesMet(rs)
  {
    hide Head, SizesMet, ReadBytes, AttributeBytes, AttributesFit;
    var h, m, k := Head(Bytes, ADDRESS_ROOT_SIZE), Head(Map, |rs|), Head(Unsigned, kind);
    var x, y := ReadBytes(rs) + (k + c), AttributeBytes(Attributes(rs)) + (k + end);
    SameAfter(Head(Array, 3), h + (root + (m + x)), h + (root + (m + y)));
    SameAfter(h, root + (m + x), root + (m + y));
    SameAfter(root, m + x, m + y);
    SameAfter(m, x, y);
    SizesFromBytes(rs, k + c, k + end);
  }
}
