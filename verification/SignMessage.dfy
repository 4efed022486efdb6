/** Message signing (CIP-8): the message arrives in chunks whose sizes are fixed by its length, and the signature is
    over a CBOR structure that holds the message or its hash. */
module SignMessage {
  import opened Basics
  import opened Bip44
  import opened BufView
  import opened Cbor
  import opened ShelleyAddress

  const FIRST_CHUNK_ASCII_SIZE := 198
  const FIRST_CHUNK_HEX_SIZE := 99
  const HIDDEN_CHUNK_SIZE := 250
  const UINT32_MAX := 0xFFFF_FFFF
  const TX_HASH_LENGTH := 32

  datatype Stage = NONE | INIT | CHUNKS | CONFIRM

  /** What the init request fixes about the message. */
  datatype Config = Config(msgLength: uint32, isAscii: bool, hashPayload: bool)

  /** A chunk request: the declared size and the data that follow. */
  datatype ChunkRequest = ChunkRequest(size: uint32, data: seq<byte>)

  datatype State = State(stage: Stage, remaining: nat, received: nat, hashed: seq<byte>, chunk: seq<byte>)

  /** The state after an init request. It does not reset the number of chunks that have been received, nor the last of
      them: after the first init request of a call the number is zero, after another one it may not be. */
  function Start(c: Config, carried: nat, chunk: seq<byte>): State {
    State(CHUNKS, c.msgLength, carried, [], chunk)
  }

  function FirstSize(c: Config): nat {
    if c.isAscii then FIRST_CHUNK_ASCII_SIZE else FIRST_CHUNK_HEX_SIZE
  }

  function Min(a: nat, b: nat): nat {
    if a <= b then a else b
  }

  /** The only size that the next chunk may have. */
  function NextSize(c: Config, s: State): nat {
    if s.received == 0 then Min(c.msgLength, FirstSize(c)) else Min(s.remaining, HIDDEN_CHUNK_SIZE)
  }

  predicate ChunkAccepted(c: Config, s: State, r: ChunkRequest) {
    && s.stage == CHUNKS
    && (s.received == 0 || c.hashPayload)
    && r.size <= s.remaining && r.size == NextSize(c, s) && |r.data| == r.size
    && (c.isAscii ==> UnambiguousAscii(r.data))
    && (s.received == 0 && !c.hashPayload ==> r.size == s.remaining)
    && (s.received == 0 ==> c.msgLength < UINT32_MAX)
  }

  /** The rules for chunks in numbers. The first one has 198 characters of text or 99 other bytes, and the others have
      250, unless the message is shorter. */
  lemma ChunkInNumbers(c: Config, s: State, r: ChunkRequest)
    ensures ChunkAccepted(c, s, r)
       <==> && s.stage == CHUNKS && r.size <= s.remaining && |r.data| == r.size
            && (c.isAscii ==> UnambiguousAscii(r.data))
            && (if s.received == 0 then
                  && (var first := if c.isAscii then 198 else 99;
                      r.size == if c.msgLength <= first then c.msgLength else first)
                  && (c.hashPayload || r.size == s.remaining) && c.msgLength < 0xFFFF_FFFF
                else c.hashPayload && r.size == if s.remaining <= 250 then s.remaining else 250)
  {
    hide UnambiguousAscii;
  }

  function Step(c: Config, s: State, r: ChunkRequest): Option<State> {
    if !ChunkAccepted(c, s, r) then None
    else
      Some(State(if s.remaining == r.size then CONFIRM else CHUNKS, s.remaining - r.size, s.received + 1,
                 s.hashed + r.data, r.data))
  }

  function Run(c: Config, s: State, rs: seq<ChunkRequest>): Option<State>
    decreases |rs|
  {
    if rs == [] then Some(s)
    else
      match Step(c, s, rs[0])
      case None => None
      case Some(t) => Run(c, t, rs[1..])
  }

  predicate Finished(s: Option<State>) {
    s.Some? && s.value.stage == CONFIRM
  }

  lemma {:induction false} RunSnoc(c: Config, s: State, rs: seq<ChunkRequest>, r: ChunkRequest)
    requires Run(c, s, rs).Some?
    ensures Run(c, s, rs + [r]) == Step(c, Run(c, s, rs).value, r)
    decreases |rs|
  {
    hide Step;
    if rs == [] {
      assert ([] + [r])[1..] == [];
    } else {
      assert (rs + [r])[1..] == rs[1..] + [r];
      RunSnoc(c, Step(c, s, rs[0]).value, rs[1..], r);
    }
  }

  // ------------------------------------------------------------ how a message is cut

  function LaterPieces(m: seq<byte>): seq<seq<byte>>
    decreases |m|
  {
    if m == [] then [] else [m[..Min(|m|, HIDDEN_CHUNK_SIZE)]] + LaterPieces(m[Min(|m|, HIDDEN_CHUNK_SIZE)..])
  }

  /** The first piece can be displayed; the others are as long as possible. An empty message has one empty piece. If
      chunks were carried over from before the init request, no piece counts as the first one. */
  function Pieces(c: Config, carried: nat, m: seq<byte>): seq<seq<byte>> {
    if carried == 0 then [m[..Min(|m|, FirstSize(c))]] + LaterPieces(m[Min(|m|, FirstSize(c))..])
    else if m == [] then [[]]
    else LaterPieces(m)
  }

  function Requests(pieces: seq<seq<byte>>): seq<ChunkRequest>
    requires forall i :: 0 <= i < |pieces| ==> |pieces[i]| < TWO_32
  {
    if pieces == [] then [] else [ChunkRequest(|pieces[0]|, pieces[0])] + Requests(pieces[1..])
  }

  predicate Readable(c: Config, pieces: seq<seq<byte>>) {
    c.isAscii ==> forall i :: 0 <= i < |pieces| ==> UnambiguousAscii(pieces[i])
  }

  /** The messages that can be signed. */
  predicate Acceptable(c: Config, carried: nat, m: seq<byte>) {
    && |m| == c.msgLength
    && (carried == 0 ==> |m| < UINT32_MAX && (c.hashPayload || |m| <= FirstSize(c)))
    && (carried > 0 ==> c.hashPayload)
    && Readable(c, Pieces(c, carried, m))
  }

  lemma {:induction false} LaterPiecesShort(m: seq<byte>)
    ensures forall i :: 0 <= i < |LaterPieces(m)| ==> 0 < |LaterPieces(m)[i]| <= HIDDEN_CHUNK_SIZE
    decreases |m|
  {
    if m != [] {
      LaterPiecesShort(m[Min(|m|, HIDDEN_CHUNK_SIZE)..]);
    }
  }

  lemma PiecesShort(c: Config, carried: nat, m: seq<byte>)
    ensures forall i :: 0 <= i < |Pieces(c, carried, m)| ==> |Pieces(c, carried, m)[i]| <= HIDDEN_CHUNK_SIZE
  {
    LaterPiecesShort(m[Min(|m|, FirstSize(c))..]);
    LaterPiecesShort(m);
  }

  /** The pieces put together are the message. */
  lemma {:induction false} LaterPiecesTogether(m: seq<byte>)
    ensures Concat(LaterPieces(m)) == m
    decreases |m|
  {
    if m != [] {
      var k := Min(|m|, HIDDEN_CHUNK_SIZE);
      LaterPiecesTogether(m[k..]);
      assert m == m[..k] + m[k..];
    }
  }

  // ------------------------------------------------------------ runs

  /** The requests from a later state on, if they complete the message. */
  lemma {:induction false} FromLater(c: Config, s: State, rs: seq<ChunkRequest>) returns (m: seq<byte>)
    requires s.stage == CHUNKS && s.received > 0 && s.remaining > 0 && Finished(Run(c, s, rs))
    ensures c.hashPayload && |m| == s.remaining && Readable(c, LaterPieces(m))
    ensures forall i :: 0 <= i < |LaterPieces(m)| ==> |LaterPieces(m)[i]| < TWO_32
    ensures rs == Requests(LaterPieces(m)) && Run(c, s, rs).value.hashed == s.hashed + m
    decreases |rs|
  {
    hide UnambiguousAscii;
    var r := rs[0];
    var t := Step(c, s, r).value;
    var k := |r.data|;
    assert rs == [r] + rs[1..];
    if t.stage == CONFIRM {
      OnlyConfirm(c, t, rs[1..]);
      m := r.data;
      assert m[..k] == m && m[k..] == [];
      assert LaterPieces(m) == [m];
    } else {
      var rest := FromLater(c, t, rs[1..]);
      m := r.data + rest;
      assert m[..k] == r.data && m[k..] == rest;
      assert LaterPieces(m) == [r.data] + LaterPieces(rest);
      assert s.hashed + r.data + rest == s.hashed + m;
      RequestsCons(r.data, LaterPieces(rest));
      ReadableCons(c, r.data, LaterPieces(rest));
    }
  }

  lemma OnlyConfirm(c: Config, s: State, rs: seq<ChunkRequest>)
    requires s.stage == CONFIRM && Run(c, s, rs).Some?
    ensures rs == []
  {
  }

  lemma RequestsCons(piece: seq<byte>, pieces: seq<seq<byte>>)
    requires |piece| < TWO_32 && forall i :: 0 <= i < |pieces| ==> |pieces[i]| < TWO_32
    ensures Requests([piece] + pieces) == [ChunkRequest(|piece|, piece)] + Requests(pieces)
  {
    assert ([piece] + pieces)[1..] == pieces;
  }

  lemma ReadableCons(c: Config, piece: seq<byte>, pieces: seq<seq<byte>>)
    ensures Readable(c, [piece] + pieces) <==> (c.isAscii ==> UnambiguousAscii(piece)) && Readable(c, pieces)
  {
    hide UnambiguousAscii;
    var all := [piece] + pieces;
    assert all[0] == piece;
    assert forall i :: 0 <= i < |pieces| ==> all[i + 1] == pieces[i];
  }

  lemma {:induction false} LaterAccepted(c: Config, s: State, m: seq<byte>)
    requires s.stage == CHUNKS && s.received > 0 && s.remaining == |m| > 0 && c.hashPayload
    requires Readable(c, LaterPieces(m))
    ensures forall i :: 0 <= i < |LaterPieces(m)| ==> |LaterPieces(m)[i]| < TWO_32
    ensures Finished(Run(c, s, Requests(LaterPieces(m))))
    decreases |m|
  {
    hide UnambiguousAscii;
    LaterPiecesShort(m);
    var k := Min(|m|, HIDDEN_CHUNK_SIZE);
    var piece, rest := m[..k], m[k..];
    LaterPiecesShort(rest);
    ReadableCons(c, piece, LaterPieces(rest));
    RequestsCons(piece, LaterPieces(rest));
    var rs := Requests(LaterPieces(m));
    assert rs[0] == ChunkRequest(|piece|, piece) && rs[1..] == Requests(LaterPieces(rest));
    var t := Step(c, s, rs[0]).value;
    if rest != [] {
      LaterAccepted(c, t, rest);
    }
  }

  /** The requests that bring a message. */
  ghost predicate Brings(c: Config, carried: nat, rs: seq<ChunkRequest>, m: seq<byte>) {
    && Acceptable(c, carried, m)
    && (forall i :: 0 <= i < |Pieces(c, carried, m)| ==> |Pieces(c, carried, m)[i]| < TWO_32)
    && rs == Requests(Pieces(c, carried, m))
  }

  lemma OnlyPiece(c: Config, m: seq<byte>)
    requires |m| <= FirstSize(c) && (c.isAscii ==> UnambiguousAscii(m))
    ensures Pieces(c, 0, m) == [m] && Readable(c, [m])
    ensures |m| < TWO_32 && Requests([m]) == [ChunkRequest(|m|, m)]
  {
    hide UnambiguousAscii;
    assert m[..|m|] == m && m[|m|..] == [];
    assert [m][1..] == [];
    assert Requests([m]) == [ChunkRequest(|m|, m)] + Requests([]);
  }

  lemma MorePieces(c: Config, piece: seq<byte>, rest: seq<byte>)
    requires |piece| == FirstSize(c) && rest != []
    ensures Pieces(c, 0, piece + rest) == [piece] + LaterPieces(rest)
  {
    var m := piece + rest;
    assert m[..|piece|] == piece && m[|piece|..] == rest;
  }

  /** The message of a run that begins with the first chunk of the call. */
  lemma FromFirst(c: Config, chunk: seq<byte>, rs: seq<ChunkRequest>) returns (m: seq<byte>)
    requires Finished(Run(c, Start(c, 0, chunk), rs))
    ensures Brings(c, 0, rs, m) && Run(c, Start(c, 0, chunk), rs).value.hashed == m
  {
    hide UnambiguousAscii, Pieces, LaterPieces, Requests, Readable;
    var s := Start(c, 0, chunk);
    var r := rs[0];
    var t := Step(c, s, r).value;
    assert rs == [r] + rs[1..];
    if t.stage == CONFIRM {
      OnlyConfirm(c, t, rs[1..]);
      m := r.data;
      OnlyPiece(c, m);
      assert [] + m == m;
    } else {
      var rest := FromLater(c, t, rs[1..]);
      m := r.data + rest;
      MorePieces(c, r.data, rest);
      RequestsCons(r.data, LaterPieces(rest));
      ReadableCons(c, r.data, LaterPieces(rest));
      assert [] + r.data + rest == m;
    }
    PiecesShort(c, 0, m);
  }

  /** The message of a run after another init request. */
  lemma FromCarried(c: Config, carried: nat, chunk: seq<byte>, rs: seq<ChunkRequest>) returns (m: seq<byte>)
    requires carried > 0 && Finished(Run(c, Start(c, carried, chunk), rs))
    ensures Brings(c, carried, rs, m) && Run(c, Start(c, carried, chunk), rs).value.hashed == m
  {
    hide UnambiguousAscii;
    var s := Start(c, carried, chunk);
    if c.msgLength == 0 {
      var r := rs[0];
      assert rs == [r] + rs[1..];
      OnlyConfirm(c, Step(c, s, r).value, rs[1..]);
      m := [];
      assert r.data == [];
      var pieces: seq<seq<byte>> := [m];
      assert Requests(pieces) == [ChunkRequest(0, [])];
      assert Readable(c, pieces);
    } else {
      m := FromLater(c, s, rs);
      assert [] + m == m;
    }
    PiecesShort(c, carried, m);
  }

  lemma FromStart(c: Config, carried: nat, chunk: seq<byte>, rs: seq<ChunkRequest>) returns (m: seq<byte>)
    requires Finished(Run(c, Start(c, carried, chunk), rs))
    ensures Brings(c, carried, rs, m) && Run(c, Start(c, carried, chunk), rs).value.hashed == m
  {
    if carried == 0 {
      m := FromFirst(c, chunk, rs);
    } else {
      m := FromCarried(c, carried, chunk, rs);
    }
  }

  lemma MessageAccepted(c: Config, carried: nat, chunk: seq<byte>, m: seq<byte>)
    requires Acceptable(c, carried, m)
    ensures (forall i :: 0 <= i < |Pieces(c, carried, m)| ==> |Pieces(c, carried, m)[i]| < TWO_32)
    ensures Finished(Run(c, Start(c, carried, chunk), Requests(Pieces(c, carried, m))))
  {
    hide UnambiguousAscii;
    PiecesShort(c, carried, m);
    if carried == 0 {
      FirstAccepted(c, chunk, m);
    } else if m == [] {
      var pieces: seq<seq<byte>> := [[]];
      assert Readable(c, pieces) && pieces[0] == [];
      var rs := Requests(pieces);
      assert rs == [ChunkRequest(0, [])] + [];
      assert rs[1..] == [];
    } else {
      LaterAccepted(c, Start(c, carried, chunk), m);
    }
  }

  lemma FirstAccepted(c: Config, chunk: seq<byte>, m: seq<byte>)
    requires Acceptable(c, 0, m)
    requires forall i :: 0 <= i < |Pieces(c, 0, m)| ==> |Pieces(c, 0, m)[i]| < TWO_32
    ensures Finished(Run(c, Start(c, 0, chunk), Requests(Pieces(c, 0, m))))
  {
    hide UnambiguousAscii;
    var k := Min(|m|, FirstSize(c));
    var piece, rest := m[..k], m[k..];
    LaterPiecesShort(rest);
    ReadableCons(c, piece, LaterPieces(rest));
    RequestsCons(piece, LaterPieces(rest));
    var rs := Requests(Pieces(c, 0, m));
    assert rs[0] == ChunkRequest(|piece|, piece) && rs[1..] == Requests(LaterPieces(rest));
    var t := Step(c, Start(c, 0, chunk), rs[0]).value;
    if rest != [] {
      LaterAccepted(c, t, rest);
    }
  }

  /** The runs that complete a message are exactly those that bring the pieces of an acceptable message; the
      message is the one that has been hashed, so there is only one, and its length fixes the sizes of all chunks. */
  lemma FinishedRun(c: Config, carried: nat, chunk: seq<byte>, rs: seq<ChunkRequest>)
    ensures Finished(Run(c, Start(c, carried, chunk), rs)) <==> exists m :: Brings(c, carried, rs, m)
    ensures forall m :: Brings(c, carried, rs, m) ==>
            && Finished(Run(c, Start(c, carried, chunk), rs))
            && Run(c, Start(c, carried, chunk), rs).value.hashed == m
  {
    hide Run, Pieces, Requests, Acceptable;
    if Finished(Run(c, Start(c, carried, chunk), rs)) {
      var m := FromStart(c, carried, chunk, rs);
    }
    forall m | Brings(c, carried, rs, m)
      ensures Finished(Run(c, Start(c, carried, chunk), rs))
      ensures Run(c, Start(c, carried, chunk), rs).value.hashed == m
    {
      MessageAccepted(c, carried, chunk, m);
      var n := FromStart(c, carried, chunk, rs);
      SamePieces(c, carried, m, n);
    }
  }

  lemma {:induction false} RequestsInjective(v: seq<seq<byte>>, w: seq<seq<byte>>)
    requires forall i :: 0 <= i < |v| ==> |v[i]| < TWO_32
    requires forall i :: 0 <= i < |w| ==> |w[i]| < TWO_32
    requires Requests(v) == Requests(w)
    ensures v == w
  {
    if v == [] {
      assert w == [];
    } else {
      var rs := Requests(v);
      assert w != [];
      assert rs[0] == ChunkRequest(|v[0]|, v[0]) == ChunkRequest(|w[0]|, w[0]);
      assert rs[1..] == Requests(v[1..]) == Requests(w[1..]);
      RequestsInjective(v[1..], w[1..]);
      assert v == [v[0]] + v[1..] && w == [w[0]] + w[1..];
    }
  }

  lemma SamePieces(c: Config, carried: nat, m: seq<byte>, n: seq<byte>)
    requires forall i :: 0 <= i < |Pieces(c, carried, m)| ==> |Pieces(c, carried, m)[i]| < TWO_32
    requires forall i :: 0 <= i < |Pieces(c, carried, n)| ==> |Pieces(c, carried, n)[i]| < TWO_32
    requires Requests(Pieces(c, carried, m)) == Requests(Pieces(c, carried, n))
    ensures m == n
  {
    hide Requests;
    RequestsInjective(Pieces(c, carried, m), Pieces(c, carried, n));
    Together(c, carried, m);
    Together(c, carried, n);
  }

  /** The pieces put together are the message. */
  lemma Together(c: Config, carried: nat, m: seq<byte>)
    ensures Concat(Pieces(c, carried, m)) == m
  {
    if carried == 0 {
      var k := Min(|m|, FirstSize(c));
      LaterPiecesTogether(m[k..]);
      assert Pieces(c, carried, m)[1..] == LaterPieces(m[k..]);
      assert m == m[..k] + m[k..];
    } else if m == [] {
      assert Concat([m]) == m + Concat([]);
    } else {
      LaterPiecesTogether(m);
    }
  }

  // ------------------------------------------------------------ which texts can be signed

  /** No piece begins or ends with a space because of where the text is cut; the first cut is after k bytes. */
  predicate CutsClear(m: seq<byte>, k: nat)
    requires k > 0
    decreases |m|
  {
    |m| > k ==> m[k - 1] != SPACE && m[k] != SPACE && CutsClear(m[k..], HIDDEN_CHUNK_SIZE)
  }

  lemma JoinedText(v: seq<byte>, w: seq<byte>)
    requires v != [] && w != []
    ensures UnambiguousAscii(v) && UnambiguousAscii(w)
       <==> UnambiguousAscii(v + w) && v[|v| - 1] != SPACE && w[0] != SPACE
  {
    var m := v + w;
    if UnambiguousAscii(m) {
      assert forall i :: 0 <= i < |v| ==> v[i] == m[i];
      assert forall i :: 0 <= i < |w| ==> w[i] == m[|v| + i];
    }
  }

  lemma {:induction false} LaterText(c: Config, m: seq<byte>)
    requires c.isAscii && m != []
    ensures Readable(c, LaterPieces(m)) <==> UnambiguousAscii(m) && CutsClear(m, HIDDEN_CHUNK_SIZE)
    decreases |m|
  {
    hide UnambiguousAscii, Readable;
    var k := Min(|m|, HIDDEN_CHUNK_SIZE);
    var piece, rest := m[..k], m[k..];
    assert m == piece + rest;
    ReadableCons(c, piece, LaterPieces(rest));
    if rest == [] {
      assert piece == m;
      NothingReadable(c);
    } else {
      LaterText(c, rest);
      JoinedText(piece, rest);
      assert piece[k - 1] == m[k - 1] && rest[0] == m[k];
    }
  }

  /** A text can be signed exactly if it is unambiguous as a whole and has no space at the places where it is cut.
      In particular the chunk of the empty text is refused. */
  lemma ReadableText(c: Config, m: seq<byte>)
    requires c.isAscii
    ensures Readable(c, Pieces(c, 0, m)) <==> UnambiguousAscii(m) && CutsClear(m, FIRST_CHUNK_ASCII_SIZE)
    ensures Readable(c, Pieces(c, 0, m)) ==> m != []
  {
    hide UnambiguousAscii, Readable;
    var k := Min(|m|, FirstSize(c));
    var piece, rest := m[..k], m[k..];
    assert m == piece + rest;
    ReadableCons(c, piece, LaterPieces(rest));
    NotEmpty(m);
    if rest == [] {
      assert piece == m;
      NothingReadable(c);
    } else {
      LaterText(c, rest);
      JoinedText(piece, rest);
      assert piece[k - 1] == m[k - 1] && rest[0] == m[k];
    }
  }

  lemma NothingReadable(c: Config)
    ensures Readable(c, [])
  {
  }

  lemma NotEmpty(m: seq<byte>)
    ensures UnambiguousAscii(m) ==> m != []
  {
  }

  // ------------------------------------------------------------ the structure that is signed

  const ADDRESS_TEXT: seq<byte> := [97, 100, 100, 114, 101, 115, 115]
  const SIGNATURE1_TEXT: seq<byte> := [83, 105, 103, 110, 97, 116, 117, 114, 101, 49]
  const ALGORITHM_EDDSA := -8

  /** The protected header: the algorithm and the address or key hash. */
  function ProtectedHeader(addressField: seq<byte>): Item {
    MapOf([Uint(1), Nint(ALGORITHM_EDDSA), Tstr(ADDRESS_TEXT), Bstr(addressField)])
  }

  /** Sig_structure: the context, the header as bytes, no external data, and the message or its hash. */
  function SigStructure(header: seq<byte>, payload: seq<byte>): Item {
    Arr([Tstr(SIGNATURE1_TEXT), Bstr(header), Bstr([]), Bstr(payload)])
  }

  lemma HeaderEncoded(addressField: seq<byte>)
    requires |addressField| < 256
    ensures Fits(ProtectedHeader(addressField))
    ensures Encode(ProtectedHeader(addressField))
         == Head(Map, 2) + Head(Unsigned, 1) + Head(Negative, 7) + Head(Text, 7) + ADDRESS_TEXT
            + Head(Bytes, |addressField|) + addressField
  {
    hide Head, Encode, Fits;
    EncodeUint(1);
    NegativeEncoded();
    TextEncoded(ADDRESS_TEXT);
    EncodeBstr(addressField);
    var w, x, y, z := Uint(1), Nint(ALGORITHM_EDDSA), Tstr(ADDRESS_TEXT), Bstr(addressField);
    EncodeAllFour(w, x, y, z);
    EncodeMap([w, x, y, z]);
    var m, a, b, c, d, e, f := Head(Map, 2), Head(Unsigned, 1), Head(Negative, 7), Head(Text, 7), ADDRESS_TEXT,
      Head(Bytes, |addressField|), addressField;
    assert m + (a + b + (c + d) + (e + f)) == m + a + b + c + d + e + f;
  }

  lemma NegativeEncoded()
    ensures Fits(Nint(ALGORITHM_EDDSA)) && Encode(Nint(ALGORITHM_EDDSA)) == Head(Negative, 7)
  {
  }

  lemma TextEncoded(t: seq<byte>)
    requires |t| < TWO_64
    ensures Fits(Tstr(t)) && Encode(Tstr(t)) == Head(Text, |t|) + t
  {
  }

  lemma EncodeAllFour(w: Item, x: Item, y: Item, z: Item)
    requires Fits(w) && Fits(x) && Fits(y) && Fits(z)
    ensures AllFit([w, x, y, z]) && EncodeAll([w, x, y, z]) == Encode(w) + Encode(x) + Encode(y) + Encode(z)
  {
    hide Encode, Fits;
    EncodeAllOne(w);
    EncodeAllSnoc([w], x);
    EncodeAllSnoc([w] + [x], y);
    EncodeAllSnoc([w] + [x] + [y], z);
    assert [w] + [x] + [y] + [z] == [w, x, y, z];
  }

  lemma SigStructureEncoded(header: seq<byte>, payload: seq<byte>)
    requires |header| < TWO_64 && |payload| < TWO_64
    ensures Fits(SigStructure(header, payload))
    ensures Encode(SigStructure(header, payload))
         == Head(Array, 4) + Head(Text, 10) + SIGNATURE1_TEXT + Head(Bytes, |header|) + header + Head(Bytes, 0)
            + Head(Bytes, |payload|) + payload
  {
    hide Head, Encode, Fits;
    TextEncoded(SIGNATURE1_TEXT);
    EncodeBstr(header);
    EncodeBstr([]);
    EncodeBstr(payload);
    var w, x, y, z := Tstr(SIGNATURE1_TEXT), Bstr(header), Bstr([]), Bstr(payload);
    EncodeAllFour(w, x, y, z);
    EncodeArr([w, x, y, z]);
    var m, a, b, c, d, e, f, g := Head(Array, 4), Head(Text, 10), SIGNATURE1_TEXT, Head(Bytes, |header|), header,
      Head(Bytes, 0), Head(Bytes, |payload|), payload;
    assert m + ((a + b) + (c + d) + (e + []) + (f + g)) == m + a + b + c + d + e + f + g;
  }

  /** The two structures in bytes. The header is a map from 1 to -8 and from "address" to the address field; the
      structure is an array of "Signature1", the header, nothing, and the payload. */
  lemma StructuresInBytes(addressField: seq<byte>, header: seq<byte>, payload: seq<byte>)
    requires 28 <= |addressField| <= 57 && 28 < |header| < 100 && |payload| < TWO_64
    ensures Fits(ProtectedHeader(addressField)) && Fits(SigStructure(header, payload))
    ensures Encode(ProtectedHeader(addressField))
         == [0xa2, 0x01, 0x27, 0x67, 0x61, 0x64, 0x64, 0x72, 0x65, 0x73, 0x73, 0x58, |addressField|] + addressField
    ensures Encode(SigStructure(header, payload))
         == [0x84, 0x6a, 0x53, 0x69, 0x67, 0x6e, 0x61, 0x74, 0x75, 0x72, 0x65, 0x31, 0x58, |header|] + header
            + [0x40] + Head(Bytes, |payload|) + payload
  {
    HeaderEncoded(addressField);
    SigStructureEncoded(header, payload);
    MessageHeads(|addressField|, |header|);
    hide Head, Encode, Fits, ProtectedHeader, SigStructure;
    assert [0xa2] + [0x01] + [0x27] + [0x67] + ADDRESS_TEXT + [0x58, |addressField|]
        == [0xa2, 0x01, 0x27, 0x67, 0x61, 0x64, 0x64, 0x72, 0x65, 0x73, 0x73, 0x58, |addressField|];
    assert [0x84] + [0x6a] + SIGNATURE1_TEXT + [0x58, |header|]
        == [0x84, 0x6a, 0x53, 0x69, 0x67, 0x6e, 0x61, 0x74, 0x75, 0x72, 0x65, 0x31, 0x58, |header|];
  }

  lemma MessageHeads(n: nat, k: nat)
    requires 24 <= n < 256 && 24 <= k < 256
    ensures Head(Map, 2) == [0xa2] && Head(Unsigned, 1) == [0x01] && Head(Negative, 7) == [0x27]
    ensures Head(Text, 7) == [0x67] && Head(Array, 4) == [0x84] && Head(Text, 10) == [0x6a]
    ensures Head(Bytes, 0) == [0x40] && Head(Bytes, n) == [0x58, n] && Head(Bytes, k) == [0x58, k]
  {
    HeadInBytes(Map, 2);
    HeadInBytes(Unsigned, 1);
    HeadInBytes(Negative, 7);
    HeadInBytes(Text, 7);
    HeadInBytes(Array, 4);
    HeadInBytes(Text, 10);
    HeadInBytes(Bytes, 0);
    HeadInBytes(Bytes, n);
    HeadInBytes(Bytes, k);
  }

  /** _createProtectedHeader: the buffer of 100 bytes is never filled. */
  method CreateProtectedHeader(addressField: seq<byte>) returns (header: seq<byte>)
    requires 28 <= |addressField| <= 57
    ensures Fits(ProtectedHeader(addressField)) && header == Encode(ProtectedHeader(addressField))
    ensures 28 < |header| < 100
  {
    hide Encode, Fits, ProtectedHeader, Head;
    HeaderEncoded(addressField);
    var buffer := new byte[100];
    var p := new WriteView(buffer);
    var ok := p.AppendToken(Map, 2);
    assert p.Contents() == Head(Map, 2);
    ok := p.AppendToken(Unsigned, 1);
    ok := p.AppendToken(Negative, 7);
    ok := p.AppendToken(Text, 7);
    ok := p.AppendBuffer(ADDRESS_TEXT);
    ok := p.AppendToken(Bytes, |addressField|);
    assert |addressField| < p.RemainingSize();
    ok := p.AppendBuffer(addressField);
    header := buffer[..p.ptr];
    assert header == p.Contents() == Encode(ProtectedHeader(addressField));
  }

  /** The structure built in a buffer of 400 bytes, which is never filled; its size is never that of a
      transaction hash. */
  method BuildSigStructure(header: seq<byte>, payload: seq<byte>) returns (bytes: seq<byte>)
    requires 28 < |header| < 100 && |payload| <= HIDDEN_CHUNK_SIZE
    ensures Fits(SigStructure(header, payload)) && bytes == Encode(SigStructure(header, payload))
    ensures |bytes| < 400 && |bytes| != TX_HASH_LENGTH
  {
    hide Encode, Fits, SigStructure, Head;
    SigStructureEncoded(header, payload);
    var buffer := new byte[400];
    var p := new WriteView(buffer);
    var ok := p.AppendToken(Array, 4);
    assert p.Contents() == Head(Array, 4);
    ok := p.AppendToken(Text, 10);
    ok := p.AppendBuffer(SIGNATURE1_TEXT);
    ok := p.AppendToken(Bytes, |header|);
    assert |header| < p.RemainingSize();
    ok := p.AppendBuffer(header);
    ok := p.AppendToken(Bytes, 0);
    ok := p.AppendToken(Bytes, |payload|);
    assert |payload| < p.RemainingSize();
    ok := p.AppendBuffer(payload);
    bytes := buffer[..p.ptr];
    assert bytes == p.Contents() == Encode(SigStructure(header, payload));
  }

  // ------------------------------------------------------------ the handlers

  /** policyForSignMsg, as far as it denies. */
  predicate Signable(path: Path, field: Option<AddressParams>) {
    && ClassifyPath(path) in {PathOrdinaryPaymentKey, PathOrdinaryStakingKey, PathMultisigPaymentKey,
         PathMultisigStakingKey, PathMintKey, PathDRepKey, PathCommitteeColdKey, PathCommitteeHotKey, PathPoolColdKey}
    && (field.Some? ==>
        && IsValidAddressParams(field.value)
        && field.value.kind in {BASE_PAYMENT_KEY_STAKE_KEY, BASE_PAYMENT_KEY_STAKE_SCRIPT, REWARD_KEY, ENTERPRISE_KEY})
  }

  /** Who may sign a message, element by element: payment, staking, DRep and committee keys, multisig payment and
      staking keys, mint keys and pool cold keys. */
  lemma SignableInNumbers(path: Path, field: Option<AddressParams>)
    ensures Signable(path, field) <==>
      && (|| (|path| == 5 && path[1] == 0x8000_0717 && path[2] >= 0x8000_0000
              && (|| (path[0] in {0x8000_002C, 0x8000_073C} && path[3] % 256 <= 1)
                  || (path[0] == 0x8000_073C && 2 <= path[3] <= 5 && path[4] < 0x8000_0000)
                  || (path[0] == 0x8000_073E && (path[3] % 256 == 0 || path[3] == 2) && path[4] < 0x8000_0000)))
          || (|path| == 4 && path[0] == 0x8000_073D && path[1] == 0x8000_0717 && path[2] == 0x8000_0000
              && path[3] >= 0x8000_0000)
          || (|path| == 3 && path[0] == 0x8000_073F && path[1] == 0x8000_0717 && path[2] >= 0x8000_0000))
      && (field.Some? ==>
            && IsValidAddressParams(field.value)
            && field.value.kind.Code() in {0, 2, 6, 14})
  {
    hide ClassifyPath, IsValidAddressParams;
    ClassesInNumbers(path);
    OtherClassesInNumbers(path);
  }

  method PolicyForSignMsg(path: Path, field: Option<AddressParams>) returns (permitted: bool)
    ensures permitted <==> Signable(path, field)
  {
    hide ClassifyPath, IsValidAddressParams;
    match ClassifyPath(path) {
      case PathOrdinaryAccount => return false;
      case PathMultisigAccount => return false;
      case PathCVoteAccount => return false;
      case PathCVoteKey => return false;
      case PathInvalid => return false;
      case _ =>
    }
    if field.None? { return true; }
    if !IsValidAddressParams(field.value) { return false; }
    match field.value.kind {
      case BASE_PAYMENT_KEY_STAKE_KEY => permitted := true;
      case BASE_PAYMENT_KEY_STAKE_SCRIPT => permitted := true;
      case REWARD_KEY => permitted := true;
      case ENTERPRISE_KEY => permitted := true;
      case _ => permitted := false;
    }
  }

  /** The address field of the protected header: the address of the parameters given, or the hash of the key that
      signs. None if the address cannot be derived. What was in memory before does not matter for the addresses that
      can be signed with. */
  function FieldBytes(keyHashOf: Path -> Hash28, path: Path, field: Option<AddressParams>): (r: Option<seq<byte>>)
    requires Signable(path, field) && (field.Some? ==> Parsed(field.value))
    ensures r.Some? ==> 28 <= |r.value| <= 57
  {
    match field
    case None => Some(keyHashOf(path))
    case Some(p) =>
      match AddressOf(keyHashOf, p, NOTHING_STALE)
      case None => None
      case Some(a) =>
        AddressLength(a);
        Some(AddressBytes(a))
  }

  /** _prepareAddressField, which the screens of the init request need as well. */
  method PrepareAddressField(keyHashOf: Path -> Hash28, path: Path, field: Option<AddressParams>)
      returns (ok: bool, bytes: seq<byte>)
    requires Signable(path, field) && (field.Some? ==> Parsed(field.value))
    ensures ok <==> FieldBytes(keyHashOf, path, field).Some?
    ensures ok ==> bytes == FieldBytes(keyHashOf, path, field).value
  {
    hide AddressBytes, AddressOf, ClassifyPath, StakingConsistent, PaymentValid;
    ok, bytes := true, [];
    match field {
      case None => bytes := keyHashOf(path);
      case Some(p) =>
        var buffer := new byte[128];
        var out := new WriteView(buffer);
        ok := DeriveAddress(keyHashOf, p, NOTHING_STALE, out);
        if ok {
          bytes := buffer[..out.ptr];
        }
    }
  }

  /** ins_sign_msg_context_t. The field `hashed` is what has been appended to the hash of the message since the last
      init request. The ghost fields are the chunk requests accepted since then, and the number of chunks and the last
      chunk that had been received before. When a call has ended, in stage NONE, the next request starts a new one
      with a new context. */
  class SignMsgContext {
    const keyHashOf: Path -> Hash28
    const hash: seq<byte> -> Hash28
    const sign: (Path, seq<byte>) -> seq<byte>
    const chunk: array<byte>
    var stage: Stage
    var signingPath: Path
    var addressParams: Option<AddressParams>
    var isAscii: bool
    var hashPayload: bool
    var msgLength: uint32
    var remainingBytes: uint32
    var receivedChunks: nat
    var chunkSize: nat
    var hashed: seq<byte>
    var signature: seq<byte>
    ghost var requests: seq<ChunkRequest>
    ghost var carried: nat
    ghost var carriedChunk: seq<byte>

    constructor (keyHashOf: Path -> Hash28, hash: seq<byte> -> Hash28, sign: (Path, seq<byte>) -> seq<byte>)
      ensures Valid() && stage == INIT && fresh(chunk) && receivedChunks == 0 && chunkSize == 0
      ensures this.keyHashOf == keyHashOf && this.hash == hash && this.sign == sign
    {
      this.keyHashOf, this.hash, this.sign := keyHashOf, hash, sign;
      chunk := new byte[HIDDEN_CHUNK_SIZE];
      stage, signingPath, addressParams, isAscii, hashPayload := INIT, [], None, false, false;
      msgLength, remainingBytes, receivedChunks, chunkSize, hashed, signature := 0, 0, 0, 0, [], [];
      requests, carried, carriedChunk := [], 0, [];
    }

    ghost function Settings(): Config
      reads this
    {
      Config(msgLength, isAscii, hashPayload)
    }

    ghost function Current(): State
      requires chunkSize <= chunk.Length
      reads this, chunk
    {
      State(stage, remainingBytes, receivedChunks, hashed, chunk[..chunkSize])
    }

    /** The init request has been accepted. */
    ghost predicate Begun()
      reads this
    {
      && (addressParams.Some? ==> Parsed(addressParams.value)) && Signable(signingPath, addressParams)
      && FieldBytes(keyHashOf, signingPath, addressParams).Some?
    }

    ghost predicate Valid()
      reads this, chunk
    {
      && chunk.Length == HIDDEN_CHUNK_SIZE && chunkSize <= chunk.Length
      && (stage in {CHUNKS, CONFIRM} ==>
          && Begun()
          && Run(Settings(), Start(Settings(), carried, carriedChunk), requests) == Some(Current()))
    }

    /** An init request, with an approving user. It is accepted at every stage; its last screen derives the address. */
    method HandleInit(msgLength: uint32, path: Path, hashPayload: bool, isAscii: bool, field: Option<AddressParams>)
        returns (ok: bool)
      requires Valid() && stage != NONE && (field.Some? ==> Parsed(field.value))
      modifies this`msgLength, this`remainingBytes, this`signingPath, this`hashPayload, this`isAscii,
               this`addressParams, this`hashed, this`stage, this`requests, this`carried, this`carriedChunk
      ensures ok <==> Signable(path, field) && FieldBytes(keyHashOf, path, field).Some?
      ensures ok ==> Valid() && stage == CHUNKS && Settings() == Config(msgLength, isAscii, hashPayload)
      ensures ok ==> signingPath == path && addressParams == field && requests == [] && hashed == []
      ensures ok ==> carried == receivedChunks && carriedChunk == chunk[..chunkSize]
      ensures ok ==> remainingBytes == msgLength
    {
      hide Signable, FieldBytes, Run, Parsed;
      this.msgLength, remainingBytes, signingPath := msgLength, msgLength, path;
      this.hashPayload, this.isAscii, addressParams := hashPayload, isAscii, field;
      var permitted := PolicyForSignMsg(path, field);
      if !permitted { return false; }
      var shown, bytes := PrepareAddressField(keyHashOf, path, field);
      if !shown { return false; }
      Begin();
      return true;
    }

    /** The context after an accepted init request: the hash starts anew, the number of chunks does not. */
    method Begin()
      requires chunk.Length == HIDDEN_CHUNK_SIZE && chunkSize <= chunk.Length && Begun() && remainingBytes == msgLength
      modifies this`hashed, this`stage, this`requests, this`carried, this`carriedChunk
      ensures Valid() && stage == CHUNKS && requests == [] && hashed == []
      ensures carried == receivedChunks && carriedChunk == chunk[..chunkSize]
    {
      hide Signable, FieldBytes, Run, Parsed;
      hashed, stage := [], CHUNKS;
      requests, carried, carriedChunk := [], receivedChunks, chunk[..chunkSize];
      RunNothing(Settings(), Current());
    }

    /** The size checks: the first chunk must be displayable, later ones as large as possible. */
    method CheckChunkSize(size: uint32) returns (ok: bool)
      requires receivedChunks > 0
      ensures ok <==> size <= remainingBytes
                      && size == if receivedChunks == 1 then Min(msgLength, FirstSize(Settings()))
                                 else Min(remainingBytes, HIDDEN_CHUNK_SIZE)
    {
      if size > remainingBytes { return false; }
      if receivedChunks == 1 {
        if isAscii {
          if size != Min(msgLength, FIRST_CHUNK_ASCII_SIZE) { return false; }
        } else {
          if size != Min(msgLength, FIRST_CHUNK_HEX_SIZE) { return false; }
        }
      } else {
        if size != Min(remainingBytes, HIDDEN_CHUNK_SIZE) { return false; }
      }
      return true;
    }

    /** A chunk request, with an approving user. */
    method HandleMsgChunk(r: ChunkRequest) returns (ok: bool)
      requires Valid() && stage != NONE
      modifies this, chunk
      ensures ok <==> ChunkAccepted(old(Settings()), old(Current()), r)
      ensures ok ==> Valid() && Settings() == old(Settings()) && requests == old(requests) + [r]
      ensures ok ==> carried == old(carried) && carriedChunk == old(carriedChunk)
      ensures ok ==> Current() == Step(old(Settings()), old(Current()), r).value
      ensures ok ==> signingPath == old(signingPath) && addressParams == old(addressParams)
    {
      hide UnambiguousAscii, Signable, Run, FieldBytes, Parsed, Min;
      if stage != CHUNKS { return false; }
      if !hashPayload && receivedChunks != 0 { return false; }
      receivedChunks := receivedChunks + 1;
      var fits := CheckChunkSize(r.size);
      if !fits { return false; }
      MinSmall(msgLength, remainingBytes);
      if |r.data| != r.size { return false; }
      StoreChunk(r.data);
      if isAscii && !UnambiguousAscii(r.data) { return false; }
      if receivedChunks == 1 {
        if !hashPayload && remainingBytes != 0 { return false; }
        if msgLength >= UINT32_MAX { return false; }
      } else {
        assert hashPayload;
      }
      if remainingBytes == 0 {
        stage := CONFIRM;
      }
      requests := requests + [r];
      RunSnoc(Settings(), Start(Settings(), carried, carriedChunk), old(requests), r);
      return true;
    }

    lemma MinSmall(a: nat, b: nat)
      ensures Min(a, FIRST_CHUNK_ASCII_SIZE) <= HIDDEN_CHUNK_SIZE && Min(a, FIRST_CHUNK_HEX_SIZE) <= HIDDEN_CHUNK_SIZE
      ensures Min(b, HIDDEN_CHUNK_SIZE) <= HIDDEN_CHUNK_SIZE
    {
    }

    method StoreChunk(data: seq<byte>)
      requires |data| <= remainingBytes && |data| <= chunk.Length
      modifies this`remainingBytes, this`chunkSize, this`hashed, chunk
      ensures remainingBytes == old(remainingBytes) - |data| && hashed == old(hashed) + data
      ensures chunkSize == |data| && chunk[..chunkSize] == data
    {
      remainingBytes := remainingBytes - |data|;
      chunkSize := |data|;
      CopyChunk(data);
      hashed := hashed + data;
    }

    method CopyChunk(data: seq<byte>)
      requires |data| <= chunk.Length
      modifies chunk
      ensures chunk[..|data|] == data
    {
      var i := 0;
      while i < |data|
        invariant 0 <= i <= |data| && chunk[..i] == data[..i]
      {
        chunk[i] := data[i];
        i := i + 1;
      }
    }

    /** What is signed as the payload. */
    ghost function Payload(): seq<byte>
      requires chunkSize <= chunk.Length
      reads this, chunk
    {
      if hashPayload then hash(hashed) else chunk[..chunkSize]
    }

    /** The confirm request. The stage is not checked here, but without an init request there is no address field. */
    method HandleConfirm() returns (ok: bool)
      requires Valid() && stage != NONE
      modifies this`signature, this`stage
      ensures ok <==> old(stage) != INIT && (hashPayload || receivedChunks == 1)
      ensures ok ==>
        && stage == NONE && Begun()
        && var header := ProtectedHeader(FieldBytes(keyHashOf, signingPath, addressParams).value);
           Fits(header) && Fits(SigStructure(Encode(header), Payload()))
           && signature == sign(signingPath, Encode(SigStructure(Encode(header), Payload())))
    {
      hide Encode, Fits, ProtectedHeader, SigStructure, FieldBytes, Run, Signable, Parsed;
      if stage == INIT { return false; }
      var prepared, addressField := PrepareAddressField(keyHashOf, signingPath, addressParams);
      assert prepared;
      var protectedHeader := CreateProtectedHeader(addressField);
      var payload;
      if hashPayload {
        payload := hash(hashed);
      } else {
        if receivedChunks != 1 { return false; }
        payload := chunk[..chunkSize];
      }
      var sigStructure := BuildSigStructure(protectedHeader, payload);
      signature := sign(signingPath, sigStructure);
      stage := NONE;
      return true;
    }

    /** The path that signs, element by element, as soon as a message has been begun; and the kinds of addresses that it
        may sign for. */
    lemma SigningPath()
      requires Valid() && stage in {CHUNKS, CONFIRM}
      ensures var p := signingPath;
        || (|p| == 5 && p[1] == 0x8000_0717 && p[2] >= 0x8000_0000
            && (|| (p[0] in {0x8000_002C, 0x8000_073C} && p[3] % 256 <= 1)
                || (p[0] == 0x8000_073C && 2 <= p[3] <= 5 && p[4] < 0x8000_0000)
                || (p[0] == 0x8000_073E && (p[3] % 256 == 0 || p[3] == 2) && p[4] < 0x8000_0000)))
        || (|p| == 4 && p[0] == 0x8000_073D && p[1] == 0x8000_0717 && p[2] == 0x8000_0000 && p[3] >= 0x8000_0000)
        || (|p| == 3 && p[0] == 0x8000_073F && p[1] == 0x8000_0717 && p[2] >= 0x8000_0000)
      ensures addressParams.Some? ==> addressParams.value.kind.Code() in {0, 2, 6, 14}
    {
      hide Run, Signable, FieldBytes;
      SignableInNumbers(signingPath, addressParams);
    }

    /** When all chunks have been received, the one message that they bring is what has been hashed, and it is
        what is signed if it is not to be hashed. */
    lemma WholeMessage() returns (m: seq<byte>)
      requires Valid() && stage == CONFIRM
      ensures Brings(Settings(), carried, requests, m) && |m| == msgLength && hashed == m
      ensures Payload() == if hashPayload then hash(m) else m
      ensures forall n :: Brings(Settings(), carried, requests, n) ==> n == m
    {
      hide Run, Begun, Acceptable, Pieces, Requests;
      FinishedRun(Settings(), carried, carriedChunk, requests);
      m := FromStart(Settings(), carried, carriedChunk, requests);
      OneChunk(Settings(), carried, carriedChunk, requests, m);
      Lengths(Settings(), carried, m);
    }

    lemma Lengths(c: Config, carried: nat, m: seq<byte>)
      requires Acceptable(c, carried, m)
      ensures |m| == c.msgLength
    {
    }

    /** The payload is that of a message. */
    ghost predicate StandsFor(m: seq<byte>)
      requires chunkSize <= chunk.Length
      reads this, chunk
    {
      Brings(Settings(), carried, requests, m) && Payload() == if hashPayload then hash(m) else m
    }

    /** Exactly when what a confirm request signs stands for a message that the chunks since the init request have
        brought: no bytes remain, and there has been a chunk. */
    lemma WhatIsSigned()
      requires Valid() && stage in {CHUNKS, CONFIRM}
      ensures (exists m :: StandsFor(m)) <==> remainingBytes == 0 && requests != []
    {
      hide Run, Begun, Acceptable, Pieces, Requests, Brings;
      FinishedRun(Settings(), carried, carriedChunk, requests);
      RunStage(Settings(), carried, carriedChunk, requests);
      if stage == CONFIRM {
        var m := WholeMessage();
        assert StandsFor(m);
      }
    }

    /** Bytes may remain, or nothing may have been received: then something else is signed, the hash of what there is,
        or the one chunk received before the init request. */
    lemma SignedEarly()
      requires Valid() && stage in {CHUNKS, CONFIRM}
      ensures |hashed| + remainingBytes == msgLength
      ensures requests == [] ==> Payload() == (if hashPayload then hash([]) else carriedChunk)
      ensures requests == [] ==> forall m :: !StandsFor(m)
    {
      hide Step, Begun, Acceptable, Pieces, Requests, Brings;
      RunProgress(Settings(), Start(Settings(), carried, carriedChunk), requests);
      WhatIsSigned();
    }
  }

  /** No chunk is left to come exactly if there has been one and no bytes remain. */
  lemma RunStage(c: Config, carried: nat, chunk: seq<byte>, rs: seq<ChunkRequest>)
    requires Run(c, Start(c, carried, chunk), rs).Some?
    ensures var t := Run(c, Start(c, carried, chunk), rs).value;
      t.stage == CONFIRM <==> t.remaining == 0 && rs != []
  {
    hide Step, Run;
    if rs == [] {
      RunNothing(c, Start(c, carried, chunk));
    } else {
      var n := |rs| - 1;
      assert rs == rs[..n] + [rs[n]];
      RunPrefix(c, Start(c, carried, chunk), rs[..n], rs[n]);
      RunSnoc(c, Start(c, carried, chunk), rs[..n], rs[n]);
      StepStage(c, Run(c, Start(c, carried, chunk), rs[..n]).value, rs[n]);
    }
  }

  lemma RunNothing(c: Config, s: State)
    ensures Run(c, s, []) == Some(s)
  {
  }

  lemma {:induction false} RunPrefix(c: Config, s: State, rs: seq<ChunkRequest>, r: ChunkRequest)
    requires Run(c, s, rs + [r]).Some?
    ensures Run(c, s, rs).Some?
    decreases |rs|
  {
    hide Step;
    if rs != [] {
      assert (rs + [r])[0] == rs[0] && (rs + [r])[1..] == rs[1..] + [r];
      RunPrefix(c, Step(c, s, rs[0]).value, rs[1..], r);
    }
  }

  lemma StepStage(c: Config, s: State, r: ChunkRequest)
    requires Step(c, s, r).Some?
    ensures Step(c, s, r).value.stage == CONFIRM <==> Step(c, s, r).value.remaining == 0
  {
    hide UnambiguousAscii;
  }

  lemma {:induction false} RunProgress(c: Config, s: State, rs: seq<ChunkRequest>)
    requires Run(c, s, rs).Some?
    ensures var t := Run(c, s, rs).value; |t.hashed| + t.remaining == |s.hashed| + s.remaining
    decreases |rs|
  {
    hide UnambiguousAscii;
    if rs != [] {
      RunProgress(c, Step(c, s, rs[0]).value, rs[1..]);
    }
  }

  /** Without hashing there is one chunk only, and it is the message. */
  lemma OneChunk(c: Config, carried: nat, chunk: seq<byte>, rs: seq<ChunkRequest>, m: seq<byte>)
    requires Brings(c, carried, rs, m) && Run(c, Start(c, carried, chunk), rs).Some?
    ensures !c.hashPayload ==> Run(c, Start(c, carried, chunk), rs).value.chunk == m
  {
    hide UnambiguousAscii, Readable;
    if !c.hashPayload {
      assert m[|m|..] == [] && m[..|m|] == m;
      assert Pieces(c, carried, m) == [m];
      assert Requests([m]) == [ChunkRequest(|m|, m)];
      assert rs[1..] == [];
    }
  }

  // ------------------------------------------------------------ confirmations that come too early

  const PAYMENT_PATH: Path := [Harden(PURPOSE_SHELLEY), Harden(ADA_COIN_TYPE), Harden(0), 0, 0]
  const OTHER_PATH: Path := [Harden(PURPOSE_SHELLEY), Harden(ADA_COIN_TYPE), Harden(0), 0, 1]

  lemma PathsSignable()
    ensures Signable(PAYMENT_PATH, None) && Signable(OTHER_PATH, None)
  {
    assert NarrowChain(PAYMENT_PATH) == 0 && NarrowChain(OTHER_PATH) == 0;
  }

  /** A text of five bytes is announced, to be hashed, and confirmed at once: the hash of nothing is signed, although no
      message of no bytes is acceptable. */
  method ConfirmedWithoutChunks(keyHashOf: Path -> Hash28, hash: seq<byte> -> Hash28,
                                sign: (Path, seq<byte>) -> seq<byte>) returns (ok: bool, c: SignMsgContext)
    ensures ok && c.chunkSize <= c.chunk.Length && c.msgLength == 5 && c.Payload() == hash([])
    ensures forall m :: !Brings(c.Settings(), c.carried, c.requests, m)
  {
    hide Signable, FieldBytes, Brings, Run;
    PathsSignable();
    c := new SignMsgContext(keyHashOf, hash, sign);
    assert FieldBytes(keyHashOf, PAYMENT_PATH, None).Some? by { KeyHashField(keyHashOf, PAYMENT_PATH); }
    ok := c.HandleInit(5, PAYMENT_PATH, true, true, None);
    NothingBrought(c.Settings(), c.carried);
    ok := c.HandleConfirm();
  }

  lemma NothingBrought(c: Config, carried: nat)
    ensures forall m :: !Brings(c, carried, [], m)
  {
    forall m ensures !Brings(c, carried, [], m) {
      assert |Pieces(c, carried, m)| > 0;
    }
  }

  lemma KeyHashField(keyHashOf: Path -> Hash28, path: Path)
    requires Signable(path, None)
    ensures FieldBytes(keyHashOf, path, None) == Some(keyHashOf(path))
  {
    hide Signable;
  }

  /** A second init request in the same call does not reset the chunk, so a message shown for one path can be signed
      with another, although a message of five bytes has been announced for that. */
  method StaleChunkSigned(keyHashOf: Path -> Hash28, hash: seq<byte> -> Hash28,
                          sign: (Path, seq<byte>) -> seq<byte>) returns (ok: bool, c: SignMsgContext)
    ensures ok && c.chunkSize <= c.chunk.Length && c.signingPath == OTHER_PATH && c.msgLength == 5
    ensures c.requests == [] && c.Payload() == [7]
  {
    hide Signable, FieldBytes, Run, UnambiguousAscii, Pieces, Brings, ProtectedHeader, SigStructure, Encode, Fits,
         Parsed;
    PathsSignable();
    KeyHashField(keyHashOf, PAYMENT_PATH);
    KeyHashField(keyHashOf, OTHER_PATH);
    c := new SignMsgContext(keyHashOf, hash, sign);
    ok := c.HandleInit(1, PAYMENT_PATH, false, false, None);
    assert c.Current() == Start(Config(1, false, false), 0, []);
    ok := c.HandleMsgChunk(ChunkRequest(1, [7]));
    assert c.Current().chunk == [7];
    ok := c.HandleInit(5, OTHER_PATH, false, false, None);
    c.SignedEarly();
    ok := c.HandleConfirm();
  }
}
