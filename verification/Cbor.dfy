/** CBOR heads as the application writes and reads them, and CBOR data items.
    A token is written in the shortest form and only the shortest form is read back. */
module Cbor {
  import opened Basics

  /** Major types, numbered as in section 3.1 of RFC 8949. */
  datatype Major = Unsigned | Negative | Bytes | Text | Array | Map | Tag | Simple {
    function Code(): (c: nat)
      ensures c < 8
    {
      match this
      case Unsigned => 0 case Negative => 1 case Bytes => 2 case Text => 3
      case Array => 4 case Map => 5 case Tag => 6 case Simple => 7
    }
  }

  function MajorOf(c: nat): Major
    requires c < 8
  {
    if c == 0 then Unsigned else if c == 1 then Negative else if c == 2 then Bytes
    else if c == 3 then Text else if c == 4 then Array else if c == 5 then Map
    else if c == 6 then Tag else Simple
  }

  const NULL_BYTE: byte := 0xF6

  /** The number of bytes that follow the initial byte of a head. */
  function HeadWidth(v: uint64): nat {
    if v < 24 then 0 else if v < 0x100 then 1 else if v < 0x1_0000 then 2
    else if v < 0x1_0000_0000 then 4 else 8
  }

  /** The five low bits of the initial byte. */
  function HeadInfo(v: uint64): nat {
    if v < 24 then v else if v < 0x100 then 24 else if v < 0x1_0000 then 25
    else if v < 0x1_0000_0000 then 26 else 27
  }

  /** What cbor_writeToken writes for a definite head. */
  function Head(m: Major, v: uint64): (s: seq<byte>)
    ensures |s| == 1 + HeadWidth(v) <= 9
  {
    [32 * m.Code() + HeadInfo(v)] + Be(HeadWidth(v), v)
  }

  /** Heads in bytes, as section 3 of RFC 8949 lays them out: the type in the three high bits of the first byte, and the
      value in the others or behind it. */
  lemma HeadInBytes(m: Major, v: uint64)
    ensures var b := match m case Unsigned => 0x00 case Negative => 0x20 case Bytes => 0x40 case Text => 0x60
                             case Array => 0x80 case Map => 0xa0 case Tag => 0xc0 case Simple => 0xe0;
            Head(m, v)
            == if v < 24 then [b + v]
               else if v < 0x100 then [b + 24, v]
               else if v < 0x1_0000 then [b + 25, v / 0x100, v % 0x100]
               else if v < 0x1_0000_0000 then
                 [b + 26, v / 0x100_0000, v / 0x1_0000 % 0x100, v / 0x100 % 0x100, v % 0x100]
               else
                 [b + 27, v / 0x100_0000_0000_0000, v / 0x1_0000_0000_0000 % 0x100, v / 0x100_0000_0000 % 0x100,
                  v / 0x1_0000_0000 % 0x100, v / 0x100_0000 % 0x100, v / 0x1_0000 % 0x100, v / 0x100 % 0x100, v % 0x100]
  {
    hide Be;
    if v < 0x1_0000 {
      TwoBytes(v);
    } else if v < 0x1_0000_0000 {
      FourBytes(v);
    } else {
      EightBytes(v);
    }
  }

  lemma TwoBytes(v: nat)
    ensures Be(1, v) == [v % 0x100] && Be(2, v) == [v / 0x100 % 0x100, v % 0x100]
  {
    assert Be(1, v) == Be(0, v / 0x100) + [v % 0x100];
    assert Be(2, v) == Be(1, v / 0x100) + [v % 0x100];
    assert Be(1, v / 0x100) == Be(0, v / 0x100 / 0x100) + [v / 0x100 % 0x100];
  }

  lemma FourBytes(v: nat)
    ensures Be(4, v) == [v / 0x100_0000 % 0x100, v / 0x1_0000 % 0x100, v / 0x100 % 0x100, v % 0x100]
    ensures v < 0x1_0000_0000 ==> v / 0x100_0000 % 0x100 == v / 0x100_0000
  {
    var w := v / 0x100 / 0x100;
    assert Be(4, v) == Be(3, v / 0x100) + [v % 0x100];
    assert Be(3, v / 0x100) == Be(2, w) + [v / 0x100 % 0x100];
    TwoBytes(w);
    assert w == v / 0x1_0000 && w / 0x100 == v / 0x100_0000;
  }

  lemma EightBytes(v: uint64)
    ensures Be(8, v) == [v / 0x100_0000_0000_0000, v / 0x1_0000_0000_0000 % 0x100, v / 0x100_0000_0000 % 0x100,
                         v / 0x1_0000_0000 % 0x100, v / 0x100_0000 % 0x100, v / 0x1_0000 % 0x100, v / 0x100 % 0x100,
                         v % 0x100]
  {
    var a, b, c, d := v / 0x100, v / 0x100 / 0x100, v / 0x100 / 0x100 / 0x100, v / 0x100 / 0x100 / 0x100 / 0x100;
    assert Be(8, v) == Be(7, a) + [v % 0x100];
    assert Be(7, a) == Be(6, b) + [a % 0x100];
    assert Be(6, b) == Be(5, c) + [b % 0x100];
    assert Be(5, c) == Be(4, d) + [c % 0x100];
    FourBytes(d);
    assert b == v / 0x1_0000 && c == v / 0x100_0000 && d == v / 0x1_0000_0000;
    assert d / 0x100 == v / 0x100_0000_0000 && d / 0x1_0000 == v / 0x1_0000_0000_0000;
    assert d / 0x100_0000 == v / 0x100_0000_0000_0000;
  }

  datatype HeadRead = HeadRead(major: Major, value: uint64, size: nat)

  function InfoWidth(info: nat): nat {
    if info < 24 then 0 else if info == 24 then 1 else if info == 25 then 2
    else if info == 26 then 4 else 8
  }

  /** A definite head; a head that is not the shortest for its value is refused. */
  function ReadHead(s: seq<byte>): (r: Option<HeadRead>)
    ensures r.Some? ==> 1 <= r.value.size <= |s|
  {
    if |s| < 1 || s[0] % 32 > 27 then None
    else
      var w := InfoWidth(s[0] % 32);
      if |s| < 1 + w then None
      else
        var v := if w == 0 then s[0] % 32 else FromBe(s[1..1 + w]);
        if v < TWO_64 && HeadWidth(v) == w
        then Some(HeadRead(MajorOf(s[0] / 32), v, 1 + w))
        else None
  }

  lemma HeadWidthFits(v: uint64)
    ensures HeadWidth(v) > 0 ==> v < Pow256(HeadWidth(v))
  {
    Pow256Values();
  }

  lemma HeadBytes(m: Major, v: uint64)
    ensures var s := Head(m, v);
            s[0] / 32 == m.Code() && s[0] % 32 == HeadInfo(v) && InfoWidth(HeadInfo(v)) == HeadWidth(v)
  {
  }

  lemma MajorOfCode(m: Major)
    ensures MajorOf(m.Code()) == m
  {
  }

  /** Reading a head that was just written gives it back, whatever follows. */
  lemma ReadHeadOfHead(m: Major, v: uint64, rest: seq<byte>)
    ensures ReadHead(Head(m, v) + rest) == Some(HeadRead(m, v, |Head(m, v)|))
  {
    var s := Head(m, v) + rest;
    HeadBytes(m, v);
    MajorOfCode(m);
    var w := HeadWidth(v);
    assert s[0] == Head(m, v)[0];
    if w > 0 {
      assert s[1..1 + w] == Be(w, v);
      HeadWidthFits(v);
      FromBeOfBe(w, v);
    }
  }

  lemma InitialByte(b: byte)
    ensures b / 32 < 8 && b == 32 * MajorOf(b / 32).Code() + b % 32
  {
  }

  /** Every head that is read is the one that would be written for what it says. */
  lemma HeadOfReadHead(s: seq<byte>)
    requires ReadHead(s).Some?
    ensures var r := ReadHead(s).value; s[..r.size] == Head(r.major, r.value)
  {
    var r := ReadHead(s).value;
    var w := InfoWidth(s[0] % 32);
    InitialByte(s[0]);
    assert HeadWidth(r.value) == w && r.size == 1 + w && r.major == MajorOf(s[0] / 32);
    if w == 0 {
      assert r.value == s[0] % 32;
      assert s[..1] == [s[0]];
    } else {
      BeOfFromBe(s[1..1 + w]);
      InfoOfWidth(s[0] % 32, r.value);
      assert s[..r.size] == [s[0]] + s[1..1 + w];
    }
  }

  lemma InfoOfWidth(info: nat, v: uint64)
    requires info <= 27 && InfoWidth(info) == HeadWidth(v) > 0
    ensures HeadInfo(v) == info
  {
  }

  const INT64_MAX := 0x7FFF_FFFF_FFFF_FFFF

  /** The heads that cbor_parseToken knows how to parse: no texts and no simple values, and no negative numbers
      outside the range of signed 64-bit numbers. */
  predicate IsKnown(m: Major, v: uint64) {
    m != Text && m != Simple && (m == Negative ==> v <= INT64_MAX)
  }

  /** What cbor_parseToken reads at the front of s, apart from the markers of indefinite lengths. */
  function ReadToken(s: seq<byte>): (r: Option<HeadRead>)
    ensures r.Some? ==> 1 <= r.value.size <= |s|
  {
    match ReadHead(s)
    case None => None
    case Some(h) => if IsKnown(h.major, h.value) then Some(h) else None
  }

  /** A head that was just written is parsed exactly if it is of a known kind, whatever follows. */
  lemma ReadTokenOfHead(m: Major, v: uint64, rest: seq<byte>)
    ensures ReadToken(Head(m, v) + rest) == if IsKnown(m, v) then Some(HeadRead(m, v, |Head(m, v)|)) else None
    ensures IsKnown(m, v) <==> m in {Unsigned, Bytes, Array, Map, Tag} || (m == Negative && v < 0x8000_0000_0000_0000)
  {
    hide Head, ReadHead;
    ReadHeadOfHead(m, v, rest);
  }

  /** Every token that is parsed is the head that would be written for what it says. */
  lemma HeadOfReadToken(s: seq<byte>)
    requires ReadToken(s).Some?
    ensures var r := ReadToken(s).value; IsKnown(r.major, r.value) && s[..r.size] == Head(r.major, r.value)
  {
    hide Head, ReadHead;
    HeadOfReadHead(s);
  }

  // ---------------------------------------------------------------- data items

  /** A CBOR data item of the kinds the application produces.
      The entries of a map alternate between keys and values. */
  datatype Item =
    | Uint(v: nat)
    | Nint(n: int)
    | Bstr(bytes: seq<byte>)
    | Tstr(text: seq<byte>)
    | Arr(items: seq<Item>)
    | MapOf(entries: seq<Item>)
    | Tagged(tag: nat, item: Item)
    | Null

  /** Every length and number fits a head, and every map has a value for each key. */
  predicate Fits(i: Item) {
    match i
    case Uint(v) => v < TWO_64
    case Nint(n) => -TWO_64 <= n < 0
    case Bstr(b) => |b| < TWO_64
    case Tstr(b) => |b| < TWO_64
    case Arr(items) => |items| < TWO_64 && forall j :: 0 <= j < |items| ==> Fits(items[j])
    case MapOf(es) => |es| % 2 == 0 && |es| / 2 < TWO_64 && forall j :: 0 <= j < |es| ==> Fits(es[j])
    case Tagged(t, x) => t < TWO_64 && Fits(x)
    case Null => true
  }

  predicate AllFit(items: seq<Item>) {
    forall j :: 0 <= j < |items| ==> Fits(items[j])
  }

  function Encode(i: Item): (s: seq<byte>)
    requires Fits(i)
    ensures s != []
    decreases i, 1
  {
    match i
    case Uint(v) => Head(Unsigned, v)
    case Nint(n) => Head(Negative, -1 - n)
    case Bstr(b) => Head(Bytes, |b|) + b
    case Tstr(b) => Head(Text, |b|) + b
    case Arr(items) => Head(Array, |items|) + EncodeAll(items)
    case MapOf(es) => Head(Map, |es| / 2) + EncodeAll(es)
    case Tagged(t, x) => Head(Tag, t) + Encode(x)
    case Null => [NULL_BYTE]
  }

  function EncodeAll(items: seq<Item>): seq<byte>
    requires AllFit(items)
    decreases items, 0
  {
    if items == [] then [] else Encode(items[0]) + EncodeAll(items[1..])
  }

  lemma EncodeAllCons(i: Item, tail: seq<Item>, items: seq<Item>)
    requires Fits(i) && AllFit(tail) && items == [i] + tail
    ensures AllFit(items) && EncodeAll(items) == Encode(i) + EncodeAll(tail)
  {
    assert items[1..] == tail;
  }

  lemma {:induction false} EncodeAllAppend(xs: seq<Item>, ys: seq<Item>)
    requires AllFit(xs) && AllFit(ys)
    ensures AllFit(xs + ys)
    ensures EncodeAll(xs + ys) == EncodeAll(xs) + EncodeAll(ys)
  {
    hide Encode, Fits;
    if xs == [] {
      assert xs + ys == ys;
    } else {
      var x, tail := xs[0], xs[1..];
      EncodeAllAppend(tail, ys);
      EncodeAllCons(x, tail, xs);
      assert xs + ys == [x] + (tail + ys);
      EncodeAllCons(x, tail + ys, xs + ys);
      Glue(EncodeAll(xs + ys), Encode(x), EncodeAll(tail), EncodeAll(ys));
    }
  }

  lemma EncodeAllSnoc(xs: seq<Item>, x: Item)
    requires AllFit(xs) && Fits(x)
    ensures AllFit(xs + [x])
    ensures EncodeAll(xs + [x]) == EncodeAll(xs) + Encode(x)
  {
    EncodeAllAppend(xs, [x]);
    assert EncodeAll([x]) == Encode(x) + EncodeAll([]);
  }

  /** A reader of one data item: the well-formedness check of Appendix C of RFC 8949,
      restricted to definite lengths and shortest heads, returning the item and what follows it. */
  function Decode(s: seq<byte>): (r: Option<(Item, seq<byte>)>)
    ensures r.Some? ==> |r.value.1| < |s|
    decreases |s|, 0, 0
  {
    if |s| > 0 && s[0] == NULL_BYTE then Some((Null, s[1..]))
    else
      match ReadHead(s)
      case None => None
      case Some(h) => DecodeBody(h.major, h.value, s[h.size..])
  }

  /** What follows a head in the item it opens. */
  function DecodeBody(m: Major, v: uint64, t: seq<byte>): (r: Option<(Item, seq<byte>)>)
    ensures r.Some? ==> |r.value.1| <= |t|
    decreases |t|, 2, 0
  {
    match m
    case Unsigned => Some((Uint(v), t))
    case Negative => Some((Nint(-1 - v), t))
    case Bytes => if |t| < v then None else Some((Bstr(t[..v]), t[v..]))
    case Text => if |t| < v then None else Some((Tstr(t[..v]), t[v..]))
    case Array =>
      (match DecodeAll(v, t)
       case None => None
       case Some(p) => Some((Arr(p.0), p.1)))
    case Map =>
      (match DecodeAll(2 * v, t)
       case None => None
       case Some(p) => Some((MapOf(p.0), p.1)))
    case Tag =>
      (match Decode(t)
       case None => None
       case Some(p) => Some((Tagged(v, p.0), p.1)))
    case Simple => None
  }

  function DecodeAll(n: nat, s: seq<byte>): (r: Option<(seq<Item>, seq<byte>)>)
    ensures r.Some? ==> |r.value.1| <= |s| && |r.value.0| == n
    decreases |s|, 1, n
  {
    if n == 0 then Some(([], s))
    else
      match Decode(s)
      case None => None
      case Some(p) =>
        match DecodeAll(n - 1, p.1)
        case None => None
        case Some(q) => Some(([p.0] + q.0, q.1))
  }

  /** The head and the body of the encoding of an item other than null. */
  function HeadOf(i: Item): (h: (Major, uint64))
    requires Fits(i) && !i.Null?
  {
    match i
    case Uint(v) => (Unsigned, v)
    case Nint(n) => (Negative, -1 - n)
    case Bstr(b) => (Bytes, |b|)
    case Tstr(b) => (Text, |b|)
    case Arr(items) => (Array, |items|)
    case MapOf(es) => (Map, |es| / 2)
    case Tagged(t, x) => (Tag, t)
  }

  function BodyOf(i: Item): seq<byte>
    requires Fits(i) && !i.Null?
  {
    match i
    case Uint(v) => []
    case Nint(n) => []
    case Bstr(b) => b
    case Tstr(b) => b
    case Arr(items) => EncodeAll(items)
    case MapOf(es) => EncodeAll(es)
    case Tagged(t, x) => Encode(x)
  }

  lemma EncodeSplit(i: Item)
    requires Fits(i) && !i.Null?
    ensures Encode(i) == Head(HeadOf(i).0, HeadOf(i).1) + BodyOf(i)
  {
  }

  lemma DecodeStep(m: Major, v: uint64, t: seq<byte>)
    requires m != Simple
    ensures Decode(Head(m, v) + t) == DecodeBody(m, v, t)
  {
    var s := Head(m, v) + t;
    ReadHeadOfHead(m, v, t);
    HeadBytes(m, v);
    assert s[0] == Head(m, v)[0];
    assert s[|Head(m, v)|..] == t;
  }

  /** Reading back what was written returns the item and leaves the rest untouched. */
  lemma {:induction false} DecodeOfEncode(i: Item, rest: seq<byte>)
    requires Fits(i)
    ensures Decode(Encode(i) + rest) == Some((i, rest))
    decreases i, 2
  {
    if i.Null? {
      assert (Encode(i) + rest)[1..] == rest;
    } else {
      var (m, v) := HeadOf(i);
      EncodeSplit(i);
      assert Encode(i) + rest == Head(m, v) + (BodyOf(i) + rest);
      DecodeStep(m, v, BodyOf(i) + rest);
      DecodeBodyOfBody(i, rest);
    }
  }

  lemma {:induction false} DecodeBodyOfBody(i: Item, rest: seq<byte>)
    requires Fits(i) && !i.Null?
    ensures DecodeBody(HeadOf(i).0, HeadOf(i).1, BodyOf(i) + rest) == Some((i, rest))
    decreases i, 1
  {
    hide Head, ReadHead;
    var t := BodyOf(i) + rest;
    match i
    case Uint(v) => assert t == rest;
    case Nint(n) => assert t == rest;
    case Bstr(b) => assert t[..|b|] == b && t[|b|..] == rest;
    case Tstr(b) => assert t[..|b|] == b && t[|b|..] == rest;
    case Arr(items) => DecodeOfEncodeAll(items, rest);
    case MapOf(es) => DecodeOfEncodeAll(es, rest);
    case Tagged(_, x) => DecodeOfEncode(x, rest);
  }

  lemma {:induction false} DecodeOfEncodeAll(items: seq<Item>, rest: seq<byte>)
    requires AllFit(items)
    ensures DecodeAll(|items|, EncodeAll(items) + rest) == Some((items, rest))
    decreases items, 0
  {
    if items == [] {
      assert EncodeAll(items) + rest == rest;
    } else {
      var s := EncodeAll(items) + rest;
      assert s == Encode(items[0]) + (EncodeAll(items[1..]) + rest);
      DecodeOfEncode(items[0], EncodeAll(items[1..]) + rest);
      DecodeOfEncodeAll(items[1..], rest);
      assert items == [items[0]] + items[1..];
    }
  }

  lemma SplitFirst(s: seq<byte>)
    requires |s| > 0
    ensures s == [s[0]] + s[1..]
  {
  }

  /** Whatever the reader accepts is the encoding of what it returns. */
  lemma {:induction false} EncodeOfDecode(s: seq<byte>, i: Item, rest: seq<byte>)
    requires Decode(s) == Some((i, rest))
    ensures Fits(i) && s == Encode(i) + rest
    decreases |s|, 0, 0
  {
    hide Head, ReadHead, HeadInfo, HeadWidth;
    if s[0] == NULL_BYTE {
      SplitFirst(s);
      assert i == Null && rest == s[1..];
    } else {
      var h := ReadHead(s).value;
      var t := s[h.size..];
      BodyOfDecodeBody(h.major, h.value, t, i, rest);
      HeadOfReadHead(s);
      assert s == s[..h.size] + t;
      Glue(s, Head(h.major, h.value), BodyOf(i), rest);
      EncodeSplit(i);
    }
  }

  lemma {:induction false} BodyOfDecodeBody(m: Major, v: uint64, t: seq<byte>, i: Item, rest: seq<byte>)
    requires DecodeBody(m, v, t) == Some((i, rest))
    ensures Fits(i) && !i.Null? && HeadOf(i) == (m, v) && t == BodyOf(i) + rest
    decreases |t|, 2, 0
  {
    match m
    case Unsigned =>
    case Negative =>
    case Bytes => assert t == t[..v] + t[v..];
    case Text => assert t == t[..v] + t[v..];
    case Array => EncodeOfDecodeAll(v, t, i.items, rest);
    case Map => EncodeOfDecodeAll(2 * v, t, i.entries, rest);
    case Tag => EncodeOfDecode(t, i.item, rest);
  }

  lemma {:induction false} EncodeOfDecodeAll(n: nat, s: seq<byte>, items: seq<Item>, rest: seq<byte>)
    requires DecodeAll(n, s) == Some((items, rest))
    ensures AllFit(items) && s == EncodeAll(items) + rest
    decreases |s|, 1, n
  {
    if n > 0 {
      var (i, t) := Decode(s).value;
      var tail := DecodeAll(n - 1, t).value.0;
      EncodeOfDecode(s, i, t);
      EncodeOfDecodeAll(n - 1, t, tail, rest);
      EncodeAllCons(i, tail, items);
      Glue(s, Encode(i), EncodeAll(tail), rest);
    }
  }

  lemma EncodeInjective(i: Item, j: Item, r: seq<byte>, t: seq<byte>)
    requires Fits(i) && Fits(j)
    requires Encode(i) + r == Encode(j) + t
    ensures i == j && r == t
  {
    DecodeOfEncode(i, r);
    DecodeOfEncode(j, t);
  }

  // ---------------------------------------------------------------- small encodings

  lemma EncodeUint(v: nat)
    requires v < TWO_64
    ensures Fits(Uint(v)) && Encode(Uint(v)) == Head(Unsigned, v)
  {
  }

  lemma EncodeBstr(b: seq<byte>)
    requires |b| < TWO_64
    ensures Fits(Bstr(b)) && Encode(Bstr(b)) == Head(Bytes, |b|) + b
  {
  }

  lemma EncodeArr(items: seq<Item>)
    requires |items| < TWO_64 && AllFit(items)
    ensures Fits(Arr(items)) && Encode(Arr(items)) == Head(Array, |items|) + EncodeAll(items)
  {
  }

  lemma EncodeMap(es: seq<Item>)
    requires |es| % 2 == 0 && |es| / 2 < TWO_64 && AllFit(es)
    ensures Fits(MapOf(es)) && Encode(MapOf(es)) == Head(Map, |es| / 2) + EncodeAll(es)
  {
  }

  lemma EncodeAllOne(a: Item)
    requires Fits(a)
    ensures EncodeAll([a]) == Encode(a)
  {
    assert [a][1..] == [];
    assert EncodeAll([a]) == Encode(a) + EncodeAll([]);
  }

  lemma EncodeTwo(a: Item, b: Item)
    requires Fits(a) && Fits(b)
    ensures Encode(Arr([a, b])) == Head(Array, 2) + Encode(a) + Encode(b)
  {
    hide Head;
    EncodeAllOne(b);
    EncodeAllCons(a, [b], [a, b]);
    EncodeArr([a, b]);
    Glue(Encode(Arr([a, b])), Head(Array, 2), Encode(a), Encode(b));
  }

  lemma EncodeThree(a: Item, b: Item, c: Item)
    requires Fits(a) && Fits(b) && Fits(c)
    ensures Encode(Arr([a, b, c])) == Head(Array, 3) + Encode(a) + Encode(b) + Encode(c)
  {
    hide Head;
    EncodeAllOne(c);
    EncodeAllCons(b, [c], [b, c]);
    EncodeAllCons(a, [b, c], [a, b, c]);
    EncodeArr([a, b, c]);
    Glue(Encode(Arr([a, b, c])), Head(Array, 3), Encode(a), Encode(b) + Encode(c));
    Glue(Encode(Arr([a, b, c])), Head(Array, 3) + Encode(a), Encode(b), Encode(c));
  }

  // ---------------------------------------------------------------- examples

  /** Examples from Appendix A of RFC 8949, for each kind of data item. */
  lemma NumberExamples()
    ensures Encode(Uint(1000)) == [0x19, 0x03, 0xe8] && Encode(Nint(-1000)) == [0x39, 0x03, 0xe7]
    ensures Encode(Null) == [0xf6]
  {
    hide Head;
    HeadInBytes(Unsigned, 1000);
    HeadInBytes(Negative, 999);
  }

  lemma StringExamples()
    ensures Encode(Bstr([1, 2, 3, 4])) == [0x44, 0x01, 0x02, 0x03, 0x04] && Encode(Tstr([0x61])) == [0x61, 0x61]
  {
    hide Head;
    HeadInBytes(Bytes, 4);
    HeadInBytes(Text, 1);
  }

  lemma SmallNumber(v: nat)
    requires v < 24
    ensures Fits(Uint(v)) && Encode(Uint(v)) == [v]
  {
    hide Head;
    HeadInBytes(Unsigned, v);
  }

  lemma ListExamples()
    ensures Fits(Arr([Uint(2), Uint(3)])) && Encode(Arr([Uint(2), Uint(3)])) == [0x82, 0x02, 0x03]
    ensures Fits(MapOf([Uint(1), Uint(2)])) && Encode(MapOf([Uint(1), Uint(2)])) == [0xa1, 0x01, 0x02]
    ensures Fits(Tagged(1, Uint(3))) && Encode(Tagged(1, Uint(3))) == [0xc1, 0x03]
  {
    hide Head, Encode, EncodeAll;
    SmallNumber(1);
    SmallNumber(2);
    SmallNumber(3);
    HeadInBytes(Array, 2);
    HeadInBytes(Map, 1);
    HeadInBytes(Tag, 1);
    EncodeTwo(Uint(2), Uint(3));
    EncodeAllOne(Uint(2));
    EncodeAllCons(Uint(1), [Uint(2)], [Uint(1), Uint(2)]);
    EncodeMap([Uint(1), Uint(2)]);
    EncodeSplit(Tagged(1, Uint(3)));
  }
}
