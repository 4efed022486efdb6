/** The bytes of outputs and of the mint. */
module TxOutputBytes {
  import opened Basics
  import opened Cbor
  import TokenBundle
  import M = TxMint
  import O = TxOutput
  import opened TxBody
  import opened TxHashBuilder
  import opened TxItems
  import opened TxElementBytes
  import opened TxEntryBytes

  // ------------------------------------------------------------ token bundles

  function AmountBytes(signed: bool, n: TokenBundle.Amount): seq<byte> {
    if signed then SignedAmount(n) else Head(Unsigned, UnsignedAmount(n))
  }

  lemma AmountEncoded(signed: bool, n: TokenBundle.Amount)
    ensures Fits(AmountItem(signed, n)) && Encode(AmountItem(signed, n)) == AmountBytes(signed, n)
  {
  }

  function TokensAdded(s: State, signed: bool, tokens: seq<TokenBundle.Token>): Option<State>
    decreases |tokens|
  {
    if tokens == [] then Some(s)
    else
      match AddToken(s, tokens[0].name, AmountBytes(signed, tokens[0].amount))
      case None => None
      case Some(t) => TokensAdded(t, signed, tokens[1..])
  }

  function GroupsAdded(s: State, signed: bool, groups: seq<TokenBundle.Group>): Option<State>
    decreases |groups|
  {
    if groups == [] then Some(s)
    else
      match AddTokenGroup(s, groups[0].policyId, Narrow16(|groups[0].tokens|))
      case None => None
      case Some(t) =>
        match TokensAdded(t, signed, groups[0].tokens)
        case None => None
        case Some(u) => GroupsAdded(u, signed, groups[1..])
  }

  /** The state with bytes appended and other data of the output. */
  function Moved(s: State, bytes: seq<byte>, d: Data): State {
    s.(hashed := s.hashed + bytes, data := d)
  }

  lemma MovedTwice(s: State, a: seq<byte>, d: Data, b: seq<byte>, g: Data)
    ensures Moved(Moved(s, a, d), b, g) == Moved(s, a + b, g)
  {
    Glue(s.hashed + (a + b), s.hashed, a, b);
  }

  lemma MovedNowhere(s: State)
    ensures AllFit([]) && Moved(s, EncodeAll([]), s.data) == s
  {
    NothingEncoded(s.hashed);
  }

  predicate InGroup(d: Data) {
    d.OutputData? && d.outputState == ASSET_GROUP && d.inner.Multiasset?
  }

  lemma TokenAdded(s: State, name: TokenBundle.AssetName, amount: seq<byte>)
    requires InGroup(s.data) && s.data.inner.remainingTokens > 0
    ensures var d := s.data.(inner := s.data.inner.(remainingTokens := s.data.inner.remainingTokens - 1));
            var t := Moved(s, BytesToken(name) + amount, d);
            AddToken(s, name, amount) == Some(t) && t.data == d
  {
  }

  lemma {:induction false} TokensEncoded(s: State, signed: bool, tokens: seq<TokenBundle.Token>)
    requires InGroup(s.data) && s.data.inner.remainingTokens == |tokens|
    ensures AllFit(TokenEntries(signed, tokens))
    ensures TokensAdded(s, signed, tokens)
         == Some(Moved(s, EncodeAll(TokenEntries(signed, tokens)),
                       s.data.(inner := s.data.inner.(remainingTokens := 0))))
    decreases |tokens|
  {
    hide Head, Encode, EncodeAll, Fits, Encodes, AmountItem, AmountBytes, BytesToken, Moved;
    if tokens == [] {
      MovedNowhere(s);
    } else {
      var x, rest := tokens[0], tokens[1..];
      BytesEncoded(x.name);
      AmountEncoded(signed, x.amount);
      PairEncoded(Bstr(x.name), AmountItem(signed, x.amount));
      var bytes := BytesToken(x.name) + AmountBytes(signed, x.amount);
      var d := s.data.(inner := s.data.inner.(remainingTokens := |rest|));
      var t := Moved(s, bytes, d);
      TokenAdded(s, x.name, AmountBytes(signed, x.amount));
      TokensEncoded(t, signed, rest);
      Joined([Bstr(x.name), AmountItem(signed, x.amount)], bytes, TokenEntries(signed, rest));
      MovedTwice(s, bytes, d, EncodeAll(TokenEntries(signed, rest)), d.(inner := d.inner.(remainingTokens := 0)));
    }
  }

  /** Groups can follow, and as many of them are expected. */
  predicate BeforeGroups(d: Data, n: nat) {
    && d.OutputData? && d.inner.Multiasset? && d.inner.remainingAssetGroups == n
    && (d.outputState == TOP_LEVEL_DATA || (d.outputState == ASSET_GROUP && d.inner.remainingTokens == 0))
  }

  function AfterGroups(d: Data, groups: seq<TokenBundle.Group>): Data
    requires d.OutputData?
  {
    if groups == [] then d else d.(outputState := ASSET_GROUP, inner := Multiasset(0, 0))
  }

  predicate Countable(groups: seq<TokenBundle.Group>) {
    |groups| < TWO_16 && forall i :: 0 <= i < |groups| ==> 0 < |groups[i].tokens| < TWO_16
  }

  lemma GroupAdded(s: State, id: TokenBundle.PolicyId, n: uint16)
    requires s.data.OutputData? && s.data.inner.Multiasset? && s.data.inner.remainingAssetGroups > 0 && n > 0
    requires BeforeGroups(s.data, s.data.inner.remainingAssetGroups)
    ensures var d := s.data.(outputState := ASSET_GROUP,
                             inner := Multiasset(s.data.inner.remainingAssetGroups - 1, n));
            var t := Moved(s, BytesToken(id) + Head(Map, n), d);
            AddTokenGroup(s, id, n) == Some(t) && t.data == d
  {
  }

  lemma GroupHead(signed: bool, g: TokenBundle.Group)
    requires AllFit(TokenEntries(signed, g.tokens)) && |g.tokens| < TWO_16
    ensures Encodes([Bstr(g.policyId), MapOf(TokenEntries(signed, g.tokens))],
                    BytesToken(g.policyId) + Head(Map, |g.tokens|) + EncodeAll(TokenEntries(signed, g.tokens)))
  {
    hide Head, Encode, EncodeAll, Fits, BytesToken, TokenEntries;
    var es := TokenEntries(signed, g.tokens);
    BytesEncoded(g.policyId);
    EncodeMap(es);
    PairEncoded(Bstr(g.policyId), MapOf(es));
    Glue(BytesToken(g.policyId) + Head(Map, |g.tokens|) + EncodeAll(es),
         BytesToken(g.policyId), Head(Map, |g.tokens|), EncodeAll(es));
  }

  /** All groups with their tokens, one after the other. */
  lemma {:induction false} GroupsEncoded(s: State, signed: bool, groups: seq<TokenBundle.Group>)
    requires Countable(groups) && BeforeGroups(s.data, |groups|)
    ensures AllFit(GroupEntries(signed, groups))
    ensures GroupsAdded(s, signed, groups)
         == Some(Moved(s, EncodeAll(GroupEntries(signed, groups)), AfterGroups(s.data, groups)))
    decreases |groups|
  {
    hide Head, Encode, EncodeAll, Fits, Encodes, TokenEntries, BytesToken, Moved, TokensAdded, AddTokenGroup;
    if groups == [] {
      MovedNowhere(s);
    } else {
      var g, rest := groups[0], groups[1..];
      var n := |g.tokens|;
      GroupAdded(s, g.policyId, n);
      var head := BytesToken(g.policyId) + Head(Map, n);
      var d := s.data.(outputState := ASSET_GROUP, inner := Multiasset(|rest|, n));
      var t := Moved(s, head, d);
      TokensEncoded(t, signed, g.tokens);
      var body := EncodeAll(TokenEntries(signed, g.tokens));
      var e := d.(inner := Multiasset(|rest|, 0));
      GroupHead(signed, g);
      MovedTwice(s, head, d, body, e);
      var u := Moved(s, head + body, e);
      assert u.data == e by { MovedData(s, head + body, e); }
      GroupsEncoded(u, signed, rest);
      Joined([Bstr(g.policyId), MapOf(TokenEntries(signed, g.tokens))], head + body, GroupEntries(signed, rest));
      MovedTwice(s, head + body, e, EncodeAll(GroupEntries(signed, rest)), AfterGroups(e, rest));
    }
  }

  lemma MovedData(s: State, bytes: seq<byte>, d: Data)
    ensures Moved(s, bytes, d).data == d
  {
  }

  // ------------------------------------------------------------ outputs

  /** The calls for the parts of an output, one after the other. */
  function Parts(s: State, e: nat, cs: seq<O.OutputCall>): Option<State>
    decreases |cs|
  {
    if cs == [] then Some(s)
    else
      match OutputPart(s, e, cs[0])
      case None => None
      case Some(t) => Parts(t, e, cs[1..])
  }

  lemma PartsNext(s: State, e: nat, c: O.OutputCall, cs: seq<O.OutputCall>)
    ensures Parts(s, e, [c] + cs) == match OutputPart(s, e, c) case None => None case Some(t) => Parts(t, e, cs)
  {
    hide OutputPart;
    assert ([c] + cs)[1..] == cs;
  }

  lemma {:induction false} PartsAppend(s: State, e: nat, v: seq<O.OutputCall>, w: seq<O.OutputCall>)
    ensures Parts(s, e, v + w) == match Parts(s, e, v) case None => None case Some(t) => Parts(t, e, w)
    decreases |v|
  {
    hide OutputPart;
    if v == [] {
      assert v + w == w;
    } else {
      assert v == [v[0]] + v[1..] && v + w == [v[0]] + (v[1..] + w);
      PartsNext(s, e, v[0], v[1..] + w);
      if OutputPart(s, e, v[0]).Some? {
        PartsAppend(OutputPart(s, e, v[0]).value, e, v[1..], w);
      }
    }
  }

  /** The word of calls in the outputs or for the collateral output. */
  function PartsWord(e: nat, cs: seq<O.OutputCall>): seq<Call> {
    if e == IN_OUTPUTS then Flat(OutputCallWord, cs) else Flat(CollateralCallWord, cs)
  }

  lemma PartsWordCons(e: nat, c: O.OutputCall, cs: seq<O.OutputCall>)
    ensures PartsWord(e, [c] + cs)
         == [if e == IN_OUTPUTS then OnOutput(c) else OnCollateralOutput(c)] + PartsWord(e, cs)
  {
    hide Flat;
    if e == IN_OUTPUTS {
      FlatPrepend(OutputCallWord, c, cs);
    } else {
      FlatPrepend(CollateralCallWord, c, cs);
    }
  }

  lemma OnPart(s: State, e: nat, c: O.OutputCall)
    requires e in {IN_OUTPUTS, IN_COLLATERAL_OUTPUT} && OutputPart(s, e, c).Some?
    ensures Step(s, if e == IN_OUTPUTS then OnOutput(c) else OnCollateralOutput(c)) == OutputPart(s, e, c)
  {
  }

  lemma {:induction false} PartsRun(s: State, e: nat, cs: seq<O.OutputCall>)
    requires e in {IN_OUTPUTS, IN_COLLATERAL_OUTPUT} && Parts(s, e, cs).Some?
    ensures Run(s, PartsWord(e, cs)) == Parts(s, e, cs)
    decreases |cs|
  {
    hide Step, Run, OutputPart, PartsWord;
    if cs == [] {
      NoParts(e);
      RunNext(s, []);
    } else {
      var c := cs[0];
      var call := if e == IN_OUTPUTS then OnOutput(c) else OnCollateralOutput(c);
      assert cs == [c] + cs[1..];
      OnPart(s, e, c);
      PartsWordCons(e, c, cs[1..]);
      RunOne(s, call);
      RunAppend(s, [call], PartsWord(e, cs[1..]));
      PartsRun(OutputPart(s, e, c).value, e, cs[1..]);
    }
  }

  lemma NoParts(e: nat)
    ensures PartsWord(e, []) == []
  {
  }

  lemma {:induction false} TokenParts(s: State, e: nat, tokens: seq<TokenBundle.Token>)
    requires s.phase == IN(e) && TokensAdded(s, false, tokens).Some?
    ensures Parts(s, e, O.TokenCalls(tokens)) == TokensAdded(s, false, tokens)
    decreases |tokens|
  {
    if tokens != [] {
      var c := O.AddToken(tokens[0].name, tokens[0].amount);
      PartsNext(s, e, c, O.TokenCalls(tokens[1..]));
      TokenParts(OutputPart(s, e, c).value, e, tokens[1..]);
    }
  }

  lemma {:induction false} TokensKeepPhase(s: State, signed: bool, tokens: seq<TokenBundle.Token>)
    requires TokensAdded(s, signed, tokens).Some?
    ensures TokensAdded(s, signed, tokens).value.phase == s.phase
    decreases |tokens|
  {
    hide Head, BytesToken, AmountBytes;
    if tokens != [] {
      TokensKeepPhase(AddToken(s, tokens[0].name, AmountBytes(signed, tokens[0].amount)).value, signed, tokens[1..]);
    }
  }

  lemma {:induction false} GroupParts(s: State, e: nat, groups: seq<TokenBundle.Group>)
    requires s.phase == IN(e) && TokenBundle.Short(groups) && GroupsAdded(s, false, groups).Some?
    ensures Parts(s, e, O.GroupCalls(groups)) == GroupsAdded(s, false, groups)
    decreases |groups|
  {
    hide Head, BytesToken, AmountBytes, Parts, TokensAdded, AddTokenGroup, O.GroupCalls, O.TokenCalls;
    GroupCallsNext(groups);
    if groups == [] {
      NothingFollows(s, e);
    } else {
      var g, rest := groups[0], groups[1..];
      var c := O.AddTokenGroup(g.policyId, |g.tokens|);
      PartsNext(s, e, c, O.TokenCalls(g.tokens) + O.GroupCalls(rest));
      var t := AddTokenGroup(s, g.policyId, |g.tokens|).value;
      GroupKeepsPhase(s, g.policyId, |g.tokens|);
      TokenParts(t, e, g.tokens);
      TokensKeepPhase(t, false, g.tokens);
      PartsAppend(t, e, O.TokenCalls(g.tokens), O.GroupCalls(rest));
      GroupParts(TokensAdded(t, false, g.tokens).value, e, rest);
    }
  }

  lemma GroupCallsNext(groups: seq<TokenBundle.Group>)
    requires TokenBundle.Short(groups)
    ensures groups == [] ==> O.GroupCalls(groups) == []
    ensures groups != [] ==>
            O.GroupCalls(groups) == [O.AddTokenGroup(groups[0].policyId, |groups[0].tokens|)]
                                  + (O.TokenCalls(groups[0].tokens) + O.GroupCalls(groups[1..]))
  {
    hide O.TokenCalls;
    if groups != [] {
      var g := groups[0];
      Glue(O.GroupCalls(groups), [O.AddTokenGroup(g.policyId, |g.tokens|)], O.TokenCalls(g.tokens),
           O.GroupCalls(groups[1..]));
    }
  }

  lemma NothingFollows(s: State, e: nat)
    ensures Parts(s, e, []) == Some(s)
  {
  }

  lemma GroupKeepsPhase(s: State, id: TokenBundle.PolicyId, n: uint16)
    requires AddTokenGroup(s, id, n).Some?
    ensures AddTokenGroup(s, id, n).value.phase == s.phase
  {
  }

  lemma {:induction false} DatumChunkParts(s: State, e: nat, chunks: seq<seq<byte>>)
    requires s.data.OutputData? && s.data.outputState == DATUM_INLINE
    requires O.Total(chunks) < TWO_32 && s.data.inner == DatumData(O.Total(chunks))
    ensures Parts(s, e, O.DatumCalls(chunks))
         == Some(Moved(s, Concat(chunks), s.data.(inner := DatumData(0))))
    decreases |chunks|
  {
    hide Parts, Moved;
    if chunks == [] {
      NothingFollows(s, e);
      MovedNowhere(s);
    } else {
      var d := s.data.(inner := DatumData(O.Total(chunks[1..])));
      PartsNext(s, e, O.AddDatumChunk(chunks[0]), O.DatumCalls(chunks[1..]));
      ChunkAdded(s, chunks[0], d);
      DatumChunkParts(Moved(s, chunks[0], d), e, chunks[1..]);
      MovedTwice(s, chunks[0], d, Concat(chunks[1..]), d.(inner := DatumData(0)));
    }
  }

  lemma ChunkAdded(s: State, chunk: seq<byte>, d: Data)
    requires s.data.OutputData? && d.OutputData? && d == s.data.(inner := d.inner)
    ensures Moved(s, chunk, d).data == d
    ensures s.data.outputState == DATUM_INLINE && d.inner.DatumData? && d.inner.datumBytes + |chunk| < TWO_32
            && s.data.inner == DatumData(d.inner.datumBytes + |chunk|) ==>
            AddDatumChunk(s, chunk) == Some(Moved(s, chunk, d))
    ensures s.data.outputState == SCRIPT_CHUNKS && d.inner.ScriptData? && d.inner.scriptBytes + |chunk| < TWO_32
            && s.data.inner == ScriptData(d.inner.scriptBytes + |chunk|) ==>
            AddScriptChunk(s, chunk) == Some(Moved(s, chunk, d))
  {
  }

  lemma {:induction false} ScriptChunkParts(s: State, e: nat, chunks: seq<seq<byte>>)
    requires s.data.OutputData? && s.data.outputState == SCRIPT_CHUNKS
    requires O.Total(chunks) < TWO_32 && s.data.inner == ScriptData(O.Total(chunks))
    ensures Parts(s, e, O.ScriptCalls(chunks))
         == Some(Moved(s, Concat(chunks), s.data.(inner := ScriptData(0))))
    decreases |chunks|
  {
    hide Parts, Moved;
    if chunks == [] {
      NothingFollows(s, e);
      MovedNowhere(s);
    } else {
      var d := s.data.(inner := ScriptData(O.Total(chunks[1..])));
      PartsNext(s, e, O.AddRefScriptChunk(chunks[0]), O.ScriptCalls(chunks[1..]));
      ChunkAdded(s, chunks[0], d);
      ScriptChunkParts(Moved(s, chunks[0], d), e, chunks[1..]);
      MovedTwice(s, chunks[0], d, Concat(chunks[1..]), d.(inner := ScriptData(0)));
    }
  }

  function AfterDatum(g: Data, d: Option<O.Datum>): Data
    requires g.OutputData?
  {
    match d
    case None => g
    case Some(ByHash(_)) => g.(outputState := DATUM_HASH, inner := DatumData(O.DATUM_HASH_LENGTH))
    case Some(Inline(_)) => g.(outputState := DATUM_INLINE, inner := DatumData(0))
  }

  function AfterScript(g: Data, s: Option<seq<seq<byte>>>): Data
    requires g.OutputData?
  {
    if s.None? then g else g.(outputState := SCRIPT_CHUNKS, inner := ScriptData(0))
  }

  lemma EmbeddedEncoded(chunks: seq<seq<byte>>)
    requires O.Total(chunks) < TWO_32
    ensures Fits(Embedded(chunks))
    ensures Encode(Embedded(chunks))
         == Head(Tag, CBOR_TAG_EMBEDDED_CBOR_BYTE_STRING) + Head(Bytes, O.Total(chunks)) + Concat(chunks)
  {
    hide Head;
    Glue(Encode(Embedded(chunks)), Head(Tag, CBOR_TAG_EMBEDDED_CBOR_BYTE_STRING), Head(Bytes, O.Total(chunks)),
         Concat(chunks));
  }

  lemma ScriptParts(s: State, e: nat, script: Option<seq<seq<byte>>>)
    requires TokensDone(s.data) || DatumDone(s.data)
    requires s.data.includeRefScript == script.Some? && (script.Some? ==> O.Total(script.value) < TWO_32)
    ensures AllFit(ScriptItems(script))
    ensures Parts(s, e, O.ScriptPart(script))
         == Some(Moved(s, EncodeAll(ScriptItems(script)), AfterScript(s.data, script)))
  {
    hide Parts, Moved, Head, Encode, EncodeAll, Fits, Embedded;
    if script.None? {
      NothingFollows(s, e);
      MovedNowhere(s);
    } else {
      var chunks := script.value;
      var n := O.Total(chunks);
      var d := s.data.(outputState := SCRIPT_CHUNKS, inner := ScriptData(n));
      var head := Head(Unsigned, 3) + Head(Tag, CBOR_TAG_EMBEDDED_CBOR_BYTE_STRING) + Head(Bytes, n);
      PartsNext(s, e, O.AddRefScript(n), O.ScriptCalls(chunks));
      ScriptAdded(s, n);
      ScriptChunkParts(Moved(s, head, d), e, chunks);
      MovedTwice(s, head, d, Concat(chunks), d.(inner := ScriptData(0)));
      EmbeddedEncoded(chunks);
      NumberEncoded(3);
      PairEncoded(Uint(3), Embedded(chunks));
      var tag, size := Head(Tag, CBOR_TAG_EMBEDDED_CBOR_BYTE_STRING), Head(Bytes, n);
      Glue(head + Concat(chunks), Head(Unsigned, 3), tag + size, Concat(chunks));
      Glue(head, Head(Unsigned, 3), tag, size);
    }
  }

  lemma ScriptAdded(s: State, n: uint32)
    requires (TokensDone(s.data) || DatumDone(s.data)) && s.data.includeRefScript
    ensures var d := s.data.(outputState := SCRIPT_CHUNKS, inner := ScriptData(n));
            var head := Head(Unsigned, 3) + Head(Tag, CBOR_TAG_EMBEDDED_CBOR_BYTE_STRING) + Head(Bytes, n);
            AddReferenceScript(s, n) == Some(Moved(s, head, d)) && Moved(s, head, d).data == d
  {
    hide Head;
  }

  lemma DatumOptionEncoded(kind: uint64, x: Item, bytes: seq<byte>)
    requires Fits(x) && Encode(x) == bytes
    ensures Encodes([Uint(2), Arr([Uint(kind), x])], DatumKey(O.MAP_BABBAGE, kind) + bytes)
  {
    hide Head, Encode, EncodeAll, Fits;
    NumberEncoded(2);
    NumberEncoded(kind);
    EncodeTwo(Uint(kind), x);
    FitsArr([Uint(kind), x]);
    PairEncoded(Uint(2), Arr([Uint(kind), x]));
    var key, two, k := Head(Unsigned, 2), Head(Array, 2), Head(Unsigned, kind);
    Glue(key + two + k + bytes, key + two, k, bytes);
    Glue(key + two + (k + bytes), key, two, k + bytes);
    Glue(two + (k + bytes), two, k, bytes);
  }

  lemma DatumAdded(s: State, inline: bool, n: uint32, bytes: seq<byte>)
    requires TokensDone(s.data) && s.data.includeDatum
    requires inline ==> s.data.format == O.MAP_BABBAGE && n < O.BUFFER_SIZE_PARANOIA
    ensures var d := s.data.(outputState := if inline then DATUM_INLINE else DATUM_HASH, inner := DatumData(n));
            var t := Moved(s, DatumKey(s.data.format, if inline then 1 else 0) + bytes, d);
            AddDatum(s, inline, n, bytes) == Some(t) && t.data == d
  {
    hide DatumKey;
  }

  lemma DatumParts(s: State, e: nat, datum: Option<O.Datum>)
    requires TokensDone(s.data) && s.data.includeDatum == datum.Some?
    requires datum.Some? ==> O.DatumAccepted(s.data.format, datum.value)
    ensures AllFit(DatumItems(s.data.format, datum))
    ensures Parts(s, e, O.DatumPart(datum))
         == Some(Moved(s, EncodeAll(DatumItems(s.data.format, datum)), AfterDatum(s.data, datum)))
  {
    hide Parts, Moved, Head, Encode, EncodeAll, Fits, Embedded, DatumKey, BytesToken, AddDatum;
    var format := s.data.format;
    match datum {
      case None =>
        NothingFollows(s, e);
        MovedNowhere(s);
      case Some(ByHash(h)) =>
        BytesEncoded(h);
        PartsNext(s, e, O.AddDatumHash(h), []);
        DatumAdded(s, false, |h|, BytesToken(h));
        NothingFollows(Moved(s, DatumKey(format, 0) + BytesToken(h), AfterDatum(s.data, datum)), e);
        assert [O.AddDatumHash(h)] + [] == [O.AddDatumHash(h)];
        if format == O.MAP_BABBAGE {
          DatumOptionEncoded(0, Bstr(h), BytesToken(h));
        } else {
          OneEncoded(Bstr(h));
          NoDatumKey(BytesToken(h));
        }
      case Some(Inline(chunks)) =>
        var n := O.Total(chunks);
        var head := Head(Tag, CBOR_TAG_EMBEDDED_CBOR_BYTE_STRING) + Head(Bytes, n);
        var d := s.data.(outputState := DATUM_INLINE, inner := DatumData(n));
        PartsNext(s, e, O.AddInlineDatum(n), O.DatumCalls(chunks));
        DatumAdded(s, true, n, head);
        DatumChunkParts(Moved(s, DatumKey(format, 1) + head, d), e, chunks);
        MovedTwice(s, DatumKey(format, 1) + head, d, Concat(chunks), AfterDatum(s.data, datum));
        EmbeddedEncoded(chunks);
        DatumOptionEncoded(1, Embedded(chunks), head + Concat(chunks));
        Glue(DatumKey(format, 1) + head + Concat(chunks), DatumKey(format, 1), head, Concat(chunks));
    }
  }

  lemma NoDatumKey(bytes: seq<byte>)
    ensures DatumKey(O.ARRAY_LEGACY, 0) + bytes == bytes
  {
  }

  /** The data of an output whose top level data have been added. */
  function TopData(o: O.Output): Data
    requires |o.groups| < TWO_16
  {
    OutputData(TOP_LEVEL_DATA, o.format, o.datum.Some?, o.script.Some?, Multiasset(|o.groups|, 0))
  }

  predicate PartsFit(o: O.Output) {
    && AllFit(GroupEntries(false, o.groups)) && AllFit(DatumItems(o.format, o.datum)) && AllFit(ScriptItems(o.script))
  }

  /** The bytes of the parts of an output after its top level data. */
  function PartsBytes(o: O.Output): seq<byte>
    requires PartsFit(o)
  {
    EncodeAll(GroupEntries(false, o.groups)) + EncodeAll(DatumItems(o.format, o.datum))
    + EncodeAll(ScriptItems(o.script))
  }

  lemma CountableGroups(o: O.Output)
    requires O.WellFormed(false, o)
    ensures Countable(o.groups)
  {
    hide TokenBundle.Ascending;
  }

  lemma AllParts(s: State, e: nat, o: O.Output)
    requires s.phase == IN(e) && O.WellFormed(false, o) && s.data == TopData(o)
    ensures PartsFit(o)
    ensures var r := Parts(s, e, O.PartsCalls(o));
            r.Some? && r.value == Moved(s, PartsBytes(o), r.value.data) && CanLeaveCurrentOutput(r.value.data)
  {
    hide Parts, EncodeAll, Fits, O.GroupCalls, O.DatumPart, O.ScriptPart, DatumItems, ScriptItems,
         TokenBundle.Ascending, O.Total, GroupsAdded, GroupEntries;
    CountableGroups(o);
    GroupsEncoded(s, false, o.groups);
    GroupParts(s, e, o.groups);
    var g := AfterGroups(s.data, o.groups);
    var t := Moved(s, EncodeAll(GroupEntries(false, o.groups)), g);
    DatumParts(t, e, o.datum);
    var h := AfterDatum(g, o.datum);
    var u := Moved(t, EncodeAll(DatumItems(o.format, o.datum)), h);
    ScriptParts(u, e, o.script);
    PartsAppend(s, e, O.GroupCalls(o.groups), O.DatumPart(o.datum) + O.ScriptPart(o.script));
    PartsAppend(t, e, O.DatumPart(o.datum), O.ScriptPart(o.script));
    MovedTwice(s, EncodeAll(GroupEntries(false, o.groups)), g, EncodeAll(DatumItems(o.format, o.datum)), h);
    MovedTwice(s, EncodeAll(GroupEntries(false, o.groups)) + EncodeAll(DatumItems(o.format, o.datum)), h,
               EncodeAll(ScriptItems(o.script)), AfterScript(h, o.script));
  }

  lemma ValueEncoded(o: O.Output)
    requires |o.groups| < TWO_16 && AllFit(GroupEntries(false, o.groups))
    ensures Fits(ValueItem(o))
    ensures Encode(ValueItem(o)) == ValueHead(O.Derived(O.TopOf(o))) + EncodeAll(GroupEntries(false, o.groups))
  {
    hide Head, Encode, EncodeAll, Fits, GroupEntries;
    var es := GroupEntries(false, o.groups);
    NumberEncoded(o.amount);
    NothingEncoded(Head(Unsigned, o.amount));
    if o.groups == [] {
      NoEntries();
    } else {
      EncodeMap(es);
      EncodeTwo(Uint(o.amount), MapOf(es));
      FitsArr([Uint(o.amount), MapOf(es)]);
      Glue(Encode(ValueItem(o)), Head(Array, 2) + Head(Unsigned, o.amount), Head(Map, |o.groups|), EncodeAll(es));
    }
  }

  lemma NoEntries()
    ensures GroupEntries(false, []) == []
  {
  }

  lemma Regrouped<T>(h: seq<T>, a: seq<T>, v: seq<T>, g: seq<T>, d: seq<T>, s: seq<T>)
    ensures h + a + v + (g + d + s) == h + (a + (v + g) + d) + s == h + (a + (v + g) + d + s)
  {
    var l, r := h + a + v + (g + d + s), h + (a + (v + g) + d) + s;
    Glue(l, h + a + v, g + d, s);
    Glue(h + a + v + (g + d), h + a + v, g, d);
    Glue(h + a + v + g, h + a, v, g);
    Glue(h + a + (v + g), h, a, v + g);
    Glue(h + (a + (v + g)) + d, h, a + (v + g), d);
    Glue(r, h, a + (v + g) + d, s);
  }

  lemma DatumItemsLength(format: O.Format, d: Option<O.Datum>)
    requires d.Some? ==> O.DatumAccepted(format, d.value)
    ensures |DatumItems(format, d)| == if format == O.ARRAY_LEGACY then One(d.Some?) else 2 * One(d.Some?)
  {
  }

  lemma LegacyEncoded(o: O.Output)
    requires O.WellFormed(false, o) && o.format == O.ARRAY_LEGACY
    requires PartsFit(o)
    ensures Encodes(OutputItems(o), TopLevelBytes(O.Derived(O.TopOf(o))) + PartsBytes(o))
  {
    hide Head, Encode, EncodeAll, Fits, GroupEntries, DatumItems, ScriptItems, ValueItem, ValueHead, BytesToken,
         TokenBundle.Ascending, O.DatumAccepted;
    var top := O.Derived(O.TopOf(o));
    var gs, ds, ss := GroupEntries(false, o.groups), DatumItems(o.format, o.datum), ScriptItems(o.script);
    var address := o.destination.address;
    BytesEncoded(address);
    ValueEncoded(o);
    DatumItemsLength(o.format, o.datum);
    PairEncoded(Bstr(address), ValueItem(o));
    Joined([Bstr(address), ValueItem(o)], BytesToken(address) + (ValueHead(top) + EncodeAll(gs)), ds);
    var fields := [Bstr(address), ValueItem(o)] + ds;
    EncodeArr(fields);
    OneEncoded(Arr(fields));
    Joined([Arr(fields)], Encode(Arr(fields)), ss);
    Regrouped(Head(Array, |fields|), BytesToken(address), ValueHead(top), EncodeAll(gs), EncodeAll(ds), EncodeAll(ss));
    assert Stray(o) == ss;
  }

  lemma BabbageEncoded(o: O.Output)
    requires O.WellFormed(false, o) && o.format == O.MAP_BABBAGE
    requires PartsFit(o)
    ensures Encodes(OutputItems(o), TopLevelBytes(O.Derived(O.TopOf(o))) + PartsBytes(o))
  {
    hide Head, Encode, EncodeAll, Fits, GroupEntries, DatumItems, ScriptItems, ValueItem, ValueHead, BytesToken,
         TokenBundle.Ascending, O.DatumAccepted;
    var top := O.Derived(O.TopOf(o));
    var gs, ds, ss := GroupEntries(false, o.groups), DatumItems(o.format, o.datum), ScriptItems(o.script);
    var address := o.destination.address;
    DatumItemsLength(o.format, o.datum);
    ScriptItemsLength(o.script);
    BabbageFront(o);
    var front := [Uint(0), Bstr(address), Uint(1), ValueItem(o)];
    var a := Head(Unsigned, 0) + BytesToken(address) + Head(Unsigned, 1);
    Joined(front, a + (ValueHead(top) + EncodeAll(gs)), ds);
    Joined(front + ds, a + (ValueHead(top) + EncodeAll(gs)) + EncodeAll(ds), ss);
    var es := front + ds + ss;
    EncodeMap(es);
    OneEncoded(MapOf(es));
    Regrouped(Head(Map, |es| / 2), a, ValueHead(top), EncodeAll(gs), EncodeAll(ds), EncodeAll(ss));
    BabbageTop(top);
    assert Stray(o) == [];
    assert OutputItems(o) == [MapOf(es)];
  }

  /** What is written for an output: the data item that it stands for and, behind a legacy output, a reference
      script. */
  lemma OutputEncoded(o: O.Output)
    requires O.WellFormed(false, o)
    requires PartsFit(o)
    ensures Encodes(OutputItems(o), TopLevelBytes(O.Derived(O.TopOf(o))) + PartsBytes(o))
  {
    hide *;
    match o.format {
      case ARRAY_LEGACY => LegacyEncoded(o);
      case MAP_BABBAGE => BabbageEncoded(o);
    }
  }

  lemma BabbageTop(top: O.TopLevelData)
    requires top.format == O.MAP_BABBAGE && |top.destination.address| < TWO_64
    ensures TopLevelBytes(top)
         == Head(Map, 2 + One(top.includeDatum) + One(top.includeRefScript))
          + (Head(Unsigned, 0) + BytesToken(top.destination.address) + Head(Unsigned, 1)) + ValueHead(top)
  {
    hide Head, BytesToken, ValueHead;
    var h, k, b, l := Head(Map, 2 + One(top.includeDatum) + One(top.includeRefScript)), Head(Unsigned, 0),
      BytesToken(top.destination.address), Head(Unsigned, 1);
    Glue(h + (k + b + l), h, k + b, l);
    Glue(h + (k + b), h, k, b);
  }

  lemma ScriptItemsLength(s: Option<seq<seq<byte>>>)
    ensures |ScriptItems(s)| == 2 * One(s.Some?)
  {
  }

  lemma BabbageFront(o: O.Output)
    requires |o.groups| < TWO_16 && AllFit(GroupEntries(false, o.groups)) && |o.destination.address| < TWO_64
    ensures Encodes([Uint(0), Bstr(o.destination.address), Uint(1), ValueItem(o)],
                    Head(Unsigned, 0) + BytesToken(o.destination.address) + Head(Unsigned, 1)
                    + (ValueHead(O.Derived(O.TopOf(o))) + EncodeAll(GroupEntries(false, o.groups))))
  {
    hide Head, Encode, EncodeAll, Fits, GroupEntries, ValueItem, ValueHead, BytesToken;
    var address := o.destination.address;
    NumberEncoded(0);
    NumberEncoded(1);
    BytesEncoded(address);
    ValueEncoded(o);
    PairEncoded(Uint(0), Bstr(address));
    EncodeAllSnoc([Uint(0), Bstr(address)], Uint(1));
    EncodeAllSnoc([Uint(0), Bstr(address)] + [Uint(1)], ValueItem(o));
    assert [Uint(0), Bstr(address)] + [Uint(1)] + [ValueItem(o)] == [Uint(0), Bstr(address), Uint(1), ValueItem(o)];
  }

 // ------------------------------------------------------------ the entries that hold outputs

  lemma TopLevelTaken(s: State, o: O.Output)
    requires InList(s, IN_OUTPUTS) && s.left[IN_OUTPUTS] > 0 && O.WellFormed(false, o)
    ensures var top := O.Derived(O.TopOf(o));
            Step(s, OnOutput(O.AddTopLevel(top))) == Some(Moved(s.Less(IN_OUTPUTS), TopLevelBytes(top), TopData(o)))
  {
    hide TopLevelBytes, TokenBundle.Ascending, CanLeaveCurrentOutput;
  }

  lemma CollateralTaken(s: State, o: O.Output, p: Params)
    requires At(s, p, IN_COLLATERAL_OUTPUT - 1) && p.includeCollateralOutput && O.WellFormed(false, o)
    ensures var top := O.Derived(O.TopOf(o));
            var t := Appended(s, Head(Unsigned, Key(IN_COLLATERAL_OUTPUT))).(phase := IN(IN_COLLATERAL_OUTPUT));
            Step(s, OnCollateralOutput(O.AddTopLevel(top))) == Some(Moved(t, TopLevelBytes(top), TopData(o)))
  {
    hide TopLevelBytes, TokenBundle.Ascending, CanLeave, Head;
  }

  lemma OutputTaken(s: State, o: O.Output)
    requires O.WellFormed(false, o)
    ensures ElementTaken(s, IN_OUTPUTS, OutputWord(o), OutputItems(o))
  {
    hide Step, Run, Parts, Encode, EncodeAll, Fits, O.DataFits, O.ResidueOf, TopLevelBytes, OutputItems, O.PartsCalls,
         CanLeaveCurrentOutput, PartsBytes, PartsWord, Head, Moved, TokenBundle.GroupsAccepted;
    var top := O.Derived(O.TopOf(o));
    var bytes := TopLevelBytes(top);
    assert IsList(IN_OUTPUTS);
    O.ShortGroups(o.groups);
    SomeParts(s, o);
    if InList(s, IN_OUTPUTS) && s.left[IN_OUTPUTS] > 0 {
      OutputEncoded(o);
      TopLevelTaken(s, o);
      var t := Moved(s.Less(IN_OUTPUTS), bytes, TopData(o));
      MovedFields(s.Less(IN_OUTPUTS), bytes, TopData(o));
      AllParts(t, IN_OUTPUTS, o);
      PartsRun(t, IN_OUTPUTS, O.PartsCalls(o));
        OutputsWord(O.AddTopLevel(top), O.PartsCalls(o));
      RunOne(s, OnOutput(O.AddTopLevel(top)));
      RunAppend(s, [OnOutput(O.AddTopLevel(top))], PartsWord(IN_OUTPUTS, O.PartsCalls(o)));
      var u := Parts(t, IN_OUTPUTS, O.PartsCalls(o)).value;
      MovedTwice(s.Less(IN_OUTPUTS), bytes, TopData(o), PartsBytes(o), u.data);
      MovedFields(s.Less(IN_OUTPUTS), bytes + PartsBytes(o), u.data);
    }
  }

  lemma MovedFields(s: State, bytes: seq<byte>, d: Data)
    ensures var t := Moved(s, bytes, d);
            t.data == d && t.hashed == s.hashed + bytes && t.phase == s.phase && Agree(s, t)
  {
  }

  lemma OutputsWord(c: O.OutputCall, cs: seq<O.OutputCall>)
    ensures Flat(OutputCallWord, [c] + cs) == [OnOutput(c)] + PartsWord(IN_OUTPUTS, cs)
    ensures Flat(CollateralCallWord, [c] + cs) == [OnCollateralOutput(c)] + PartsWord(IN_COLLATERAL_OUTPUT, cs)
  {
    FlatPrepend(OutputCallWord, c, cs);
    FlatPrepend(CollateralCallWord, c, cs);
  }

  /** The items of a well-formed output fit. */
  lemma SomeParts(s: State, o: O.Output)
    requires O.WellFormed(false, o)
    ensures PartsFit(o)
    ensures AllFit(OutputItems(o))
  {
    hide Parts, Moved, EncodeAll, Fits, OutputItems, PartsBytes, O.PartsCalls, O.DataFits, O.ResidueOf,
         TokenBundle.GroupsAccepted;
    AllParts(s.(phase := IN(IN_OUTPUTS), data := TopData(o)), IN_OUTPUTS, o);
    OutputEncoded(o);
  }

  lemma CollateralEntry(s: State, p: Params, o: O.Output)
    requires At(s, p, IN_COLLATERAL_OUTPUT - 1) && p.includeCollateralOutput && O.WellFormed(true, o)
    ensures EntryDone(s, p, IN_COLLATERAL_OUTPUT, CollateralOutputWord(o),
                      [Uint(Key(IN_COLLATERAL_OUTPUT))] + [OutputItem(o)])
  {
    hide Step, Run, Parts, Encode, EncodeAll, Fits, O.DataFits, O.ResidueOf, TopLevelBytes, OutputItem, O.PartsCalls,
         CanLeaveCurrentOutput, PartsBytes, PartsWord, Head, Moved, TokenBundle.GroupsAccepted,
         CanLeave, Remaining, Key, Flat;
    var e, top := IN_COLLATERAL_OUTPUT, O.Derived(O.TopOf(o));
    var bytes, key := TopLevelBytes(top), Head(Unsigned, Key(IN_COLLATERAL_OUTPUT));
    O.ShortGroups(o.groups);
    SomeParts(s, o);
    OutputEncoded(o);
    assert OutputItems(o) == [OutputItem(o)];
    CollateralTaken(s, o, p);
    var t := Appended(s, key).(phase := IN(e));
    MovedFields(t, bytes, TopData(o));
    AllParts(Moved(t, bytes, TopData(o)), e, o);
    PartsRun(Moved(t, bytes, TopData(o)), e, O.PartsCalls(o));
    OutputsWord(O.AddTopLevel(top), O.PartsCalls(o));
    RunOne(s, OnCollateralOutput(O.AddTopLevel(top)));
    RunAppend(s, [OnCollateralOutput(O.AddTopLevel(top))], PartsWord(e, O.PartsCalls(o)));
    var u := Run(s, CollateralOutputWord(o)).value;
    MovedTwice(t, bytes, TopData(o), PartsBytes(o), u.data);
    MovedFields(t, bytes + PartsBytes(o), u.data);
    NumberEncoded(Key(e));
    OneEncoded(Uint(Key(e)));
    EncodesBoth([Uint(Key(e))], key, [OutputItem(o)], bytes + PartsBytes(o));
    Glue(u.hashed, s.hashed, key, bytes + PartsBytes(o));
    Entered(u, e);
  }

  // ------------------------------------------------------------ the mint

  lemma {:induction false} MintTokensRun(s: State, tokens: seq<TokenBundle.Token>)
    requires s.phase == IN(IN_MINT) && TokensAdded(s, true, tokens).Some?
    ensures Run(s, Flat(MintCallWord, M.TokenCalls(tokens))) == TokensAdded(s, true, tokens)
    decreases |tokens|
  {
    hide Step, Run, Flat, AddToken, SignedAmount;
    if tokens == [] {
      NoMintCalls();
      RunNext(s, []);
    } else {
      var x := tokens[0];
      var c := M.AddMintToken(x.name, x.amount);
      FlatPrepend(MintCallWord, c, M.TokenCalls(tokens[1..]));
      MintTokenStep(s, x);
      RunOne(s, OnMint(c));
      RunAppend(s, [OnMint(c)], Flat(MintCallWord, M.TokenCalls(tokens[1..])));
      MintTokensRun(AddToken(s, x.name, AmountBytes(true, x.amount)).value, tokens[1..]);
    }
  }

  lemma NoMintCalls()
    ensures Flat(MintCallWord, []) == []
  {
  }

  lemma MintTokenStep(s: State, x: TokenBundle.Token)
    requires s.phase == IN(IN_MINT) && AddToken(s, x.name, AmountBytes(true, x.amount)).Some?
    ensures Step(s, OnMint(M.AddMintToken(x.name, x.amount))) == AddToken(s, x.name, AmountBytes(true, x.amount))
    ensures AddToken(s, x.name, AmountBytes(true, x.amount)).value.phase == s.phase
  {
    hide SignedAmount;
  }

  lemma MintGroupStep(s: State, id: TokenBundle.PolicyId, n: uint16)
    requires s.phase == IN(IN_MINT)
    ensures Step(s, OnMint(M.AddMintGroup(id, n))) == AddTokenGroup(s, id, n)
  {
    hide AddTokenGroup;
  }

  lemma MintGroupsNext(groups: seq<TokenBundle.Group>)
    requires TokenBundle.Short(groups)
    ensures groups == [] ==> M.GroupCalls(groups) == []
    ensures groups != [] ==>
            M.GroupCalls(groups) == [M.AddMintGroup(groups[0].policyId, |groups[0].tokens|)]
                                  + (M.TokenCalls(groups[0].tokens) + M.GroupCalls(groups[1..]))
  {
    hide M.TokenCalls;
    if groups != [] {
      var g := groups[0];
      Glue(M.GroupCalls(groups), [M.AddMintGroup(g.policyId, |g.tokens|)], M.TokenCalls(g.tokens),
           M.GroupCalls(groups[1..]));
    }
  }

  lemma {:induction false} MintGroupsRun(s: State, groups: seq<TokenBundle.Group>)
    requires s.phase == IN(IN_MINT) && TokenBundle.Short(groups) && GroupsAdded(s, true, groups).Some?
    ensures Run(s, Flat(MintCallWord, M.GroupCalls(groups))) == GroupsAdded(s, true, groups)
    decreases |groups|
  {
    hide Step, Run, Flat, AddTokenGroup, TokensAdded, M.GroupCalls, M.TokenCalls;
    MintGroupsNext(groups);
    if groups == [] {
      NoMintCalls();
      RunNext(s, []);
    } else {
      var g, rest := groups[0], groups[1..];
      var c := M.AddMintGroup(g.policyId, |g.tokens|);
      var ts, gs := Flat(MintCallWord, M.TokenCalls(g.tokens)), Flat(MintCallWord, M.GroupCalls(rest));
      FlatPrepend(MintCallWord, c, M.TokenCalls(g.tokens) + M.GroupCalls(rest));
      FlatAppend(MintCallWord, M.TokenCalls(g.tokens), M.GroupCalls(rest));
      MintGroupStep(s, g.policyId, |g.tokens|);
      RunOne(s, OnMint(c));
      RunAppend(s, [OnMint(c)], ts + gs);
      var t := AddTokenGroup(s, g.policyId, |g.tokens|).value;
      GroupKeepsPhase(s, g.policyId, |g.tokens|);
      MintTokensRun(t, g.tokens);
      TokensKeepPhase(t, true, g.tokens);
      RunAppend(t, ts, gs);
      MintGroupsRun(TokensAdded(t, true, g.tokens).value, rest);
    }
  }

  lemma MintOpened(s: State, p: Params, n: uint16)
    requires At(s, p, IN_MINT - 1) && p.includeMint && n > 0
    ensures var t := Appended(s, Head(Unsigned, Key(IN_MINT))).(phase := IN(IN_MINT));
            Step(s, EnterMint) == Some(t)
            && Step(t, OnMint(M.AddMintTopLevel(n)))
            == Some(Moved(t, Head(Map, n), OutputData(TOP_LEVEL_DATA, O.ARRAY_LEGACY, false, false, Multiasset(n, 0))))
  {
    hide Head, CanLeave;
    assert s.left[IN_MINT] == Remaining(p, IN_MINT);
    NothingAppended(Appended(s, Head(Unsigned, Key(IN_MINT))).(phase := IN(IN_MINT)));
  }

  lemma NothingAppended(s: State)
    ensures Appended(s, []) == s
  {
  }

  lemma MintEntry(s: State, p: Params, groups: seq<TokenBundle.Group>)
    requires At(s, p, IN_MINT - 1) && p.includeMint && M.WellFormed(groups)
    ensures EntryDone(s, p, IN_MINT, [EnterMint] + MintWord(groups),
                      [Uint(Key(IN_MINT))] + [MapOf(GroupEntries(true, groups))])
  {
    hide Step, Run, Encode, EncodeAll, Fits, GroupEntries, Head, Moved, CanLeave, Remaining, Key, Flat, GroupsAdded,
         TokenBundle.Ascending;
    var e, n := IN_MINT, |groups|;
    var key, es, calls := Head(Unsigned, Key(e)), GroupEntries(true, groups), M.GroupCalls(groups);
    var top := OutputData(TOP_LEVEL_DATA, O.ARRAY_LEGACY, false, false, Multiasset(n, 0));
    var t := Appended(s, key).(phase := IN(e));
    MintOpened(s, p, n);
    MovedFields(t, Head(Map, n), top);
    var u := Moved(t, Head(Map, n), top);
    GroupsEncoded(u, true, groups);
    MintGroupsRun(u, groups);
    FlatPrepend(MintCallWord, M.AddMintTopLevel(n), calls);
    RunOne(s, EnterMint);
    RunOne(t, OnMint(M.AddMintTopLevel(n)));
    RunAppend(t, [OnMint(M.AddMintTopLevel(n))], Flat(MintCallWord, calls));
    RunAppend(s, [EnterMint], MintWord(groups));
    var v := Run(s, [EnterMint] + MintWord(groups)).value;
    MovedTwice(t, Head(Map, n), top, EncodeAll(es), v.data);
    MovedFields(t, Head(Map, n) + EncodeAll(es), v.data);
    MovedFields(u, EncodeAll(es), AfterGroups(top, groups));
    EncodeMap(es);
    NumberEncoded(Key(e));
    PairEncoded(Uint(Key(e)), MapOf(es));
    assert [Uint(Key(e))] + [MapOf(es)] == [Uint(Key(e)), MapOf(es)];
    Glue(v.hashed, s.hashed, key, Head(Map, n) + EncodeAll(es));
    Entered(v, e);
  }
}
