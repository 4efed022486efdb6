/** The output sub-machine: an output arrives as top-level data, a token bundle, a datum and a
    reference script, the last two in chunks. */
module TxOutput {
  import opened Basics
  import opened TokenBundle

  const LOVELACE_MAX_SUPPLY := 45_000_000_000_000_000
  const MAX_CHUNK_SIZE := 240
  const BUFFER_SIZE_PARANOIA := 1024
  const DATUM_HASH_LENGTH := 32
  const MAX_ADDRESS_SIZE := 128
  const UINT32_MAX := 0xFFFF_FFFF

  type DatumHash = s: seq<byte> | |s| == DATUM_HASH_LENGTH witness seq(32, _ => 0)

  datatype Format = ARRAY_LEGACY | MAP_BABBAGE

  /** Where an output goes: the bytes of an address, or parameters with the address derived from them. */
  datatype Destination = ThirdParty(address: seq<byte>) | DeviceOwned(address: seq<byte>)

  /** The top level data of an output, and whether the policies will show the screen of its reference script. */
  datatype TopLevelData = TopLevelData(
    format: Format, destination: Destination, amount: uint64, numAssetGroups: uint32, includeDatum: bool,
      includeRefScript: bool, scriptShown: bool)

  /** The hash builder receives address bytes in any case, and no decisions. */
  function Derived(t: TopLevelData): TopLevelData {
    t.(destination := ThirdParty(t.destination.address), scriptShown := false)
  }

  /** The screen of a script asserts that its size is not the largest 32-bit number. */
  function ScriptLimit(shown: bool): nat {
    if shown then UINT32_MAX else TWO_32
  }

  /** What the bytes of the destination leave in the union where the group and token counters are read. */
  datatype Residue = Residue(currentAssetGroup: uint16, currentToken: uint16)

  function ByteAt(s: seq<byte>, i: nat): byte {
    if i < |s| then s[i] else 0
  }

  /** On the devices, whose words have 32 bits, the two counters lie over the bytes 76 to 79 of a third-party address,
      least significant first. Address parameters end before, and what is not written is zero. */
  function ResidueOf(d: Destination): Residue {
    match d
    case ThirdParty(a) => Residue(ByteAt(a, 76) + 256 * ByteAt(a, 77), ByteAt(a, 78) + 256 * ByteAt(a, 79))
    case DeviceOwned(_) => Residue(0, 0)
  }

  /** The parsed data of a request. Allowed stands for the decision of the address policies and for the screen of an
      address that is shown, which asserts that the text of the address fits. */
  datatype OutputEvent =
    | TopLevel(top: TopLevelData, allowed: bool)
    | Bundle(part: BundleEvent)
    | HashedDatum(hash: DatumHash)
    | InlineDatum(size: uint32, chunk: seq<byte>)
    | DatumChunk(chunk: seq<byte>)
    | RefScript(size: uint32, chunk: seq<byte>)
    | RefScriptChunk(chunk: seq<byte>)
    | ConfirmOutput

  /** The calls of the transaction hash builder. */
  datatype OutputCall =
    | AddTopLevel(top: TopLevelData)
    | AddTokenGroup(policyId: PolicyId, numTokens: uint32)
    | AddToken(name: AssetName, amount: Amount)
    | AddDatumHash(hash: DatumHash)
    | AddInlineDatum(size: uint32)
    | AddDatumChunk(chunk: seq<byte>)
    | AddRefScript(size: uint32)
    | AddRefScriptChunk(chunk: seq<byte>)

  function BundleCall(e: BundleEvent): OutputCall {
    match e
    case AssetGroup(id, n) => AddTokenGroup(id, n)
    case TokenAmount(name, amount) => AddToken(name, amount)
  }

  function CallsFor(e: OutputEvent): seq<OutputCall> {
    match e
    case TopLevel(top, _) => [AddTopLevel(Derived(top))]
    case Bundle(b) => [BundleCall(b)]
    case HashedDatum(h) => [AddDatumHash(h)]
    case InlineDatum(n, c) => [AddInlineDatum(n), AddDatumChunk(c)]
    case DatumChunk(c) => [AddDatumChunk(c)]
    case RefScript(n, c) => [AddRefScript(n), AddRefScriptChunk(c)]
    case RefScriptChunk(c) => [AddRefScriptChunk(c)]
    case ConfirmOutput => []
  }

  function CallsForAll(es: seq<OutputEvent>): seq<OutputCall> {
    if es == [] then [] else CallsForAll(es[..|es| - 1]) + CallsFor(es[|es| - 1])
  }

  // ------------------------------------------------------------ outputs

  datatype Datum = ByHash(hash: DatumHash) | Inline(chunks: seq<seq<byte>>)

  datatype Output = Output(format: Format, destination: Destination, amount: uint64, groups: seq<Group>,
                           datum: Option<Datum>, script: Option<seq<seq<byte>>>, scriptShown: bool)

  predicate ChunkAccepted(remaining: nat, chunk: seq<byte>, forced: bool) {
    && 0 < |chunk| <= MAX_CHUNK_SIZE
    && |chunk| <= remaining
    && (forced && remaining >= MAX_CHUNK_SIZE ==> |chunk| == MAX_CHUNK_SIZE)
  }

  /** Chunks that use up the remaining bytes exactly. */
  predicate ChunksAccepted(remaining: nat, chunks: seq<seq<byte>>, forced: bool)
    decreases |chunks|
  {
    if remaining == 0 then chunks == []
    else chunks != [] && ChunkAccepted(remaining, chunks[0], forced)
         && ChunksAccepted(remaining - |chunks[0]|, chunks[1..], forced)
  }

  function Total(chunks: seq<seq<byte>>): (n: nat)
    ensures n == |Concat(chunks)|
  {
    if chunks == [] then 0 else |chunks[0]| + Total(chunks[1..])
  }

  /** The first and the later chunks follow different rules: of a datum only the first, of a script only the
      later ones are forced to be of full size. */
  predicate DataAccepted(chunks: seq<seq<byte>>, forceFirst: bool, limit: nat) {
    && chunks != []
    && 0 < Total(chunks) < limit
    && ChunkAccepted(Total(chunks), chunks[0], forceFirst)
    && ChunksAccepted(Total(chunks) - |chunks[0]|, chunks[1..], !forceFirst)
  }

  predicate DatumAccepted(format: Format, d: Datum) {
    d.Inline? ==> format == MAP_BABBAGE && DataAccepted(d.chunks, true, BUFFER_SIZE_PARANOIA)
  }

  predicate DataFits(format: Format, datum: Option<Datum>, script: Option<seq<seq<byte>>>, shown: bool)
    ensures DataFits(format, datum, script, shown) ==>
      && (datum.Some? && datum.value.Inline? ==> datum.value.chunks != [] && Total(datum.value.chunks) < TWO_32)
      && (script.Some? ==> script.value != [] && Total(script.value) < TWO_32)
  {
    && (datum.Some? ==> DatumAccepted(format, datum.value))
    && (script.Some? ==> DataAccepted(script.value, false, ScriptLimit(shown)))
  }

  function TopOf(o: Output): TopLevelData
    requires |o.groups| < TWO_16
  {
    TopLevelData(o.format, o.destination, o.amount, |o.groups|, o.datum.Some?, o.script.Some?, o.scriptShown)
  }

  predicate WellFormed(collateral: bool, o: Output) {
    && |o.groups| < TWO_16
    && GroupsAccepted(None, o.groups)
    && TopAccepted(collateral, TopOf(o), true)
    && (o.groups != [] ==> Harmless(o.destination))
    && DataFits(o.format, o.datum, o.script, o.scriptShown)
  }

  /** The counters of tokens find no residue of the destination. */
  predicate Harmless(d: Destination) {
    ResidueOf(d) == Residue(0, 0)
  }

  predicate TopAccepted(collateral: bool, t: TopLevelData, allowed: bool) {
    && allowed
    && 0 < |t.destination.address| <= MAX_ADDRESS_SIZE
    && t.amount < LOVELACE_MAX_SUPPLY
    && t.numAssetGroups < TWO_16
    && (collateral ==> !t.includeDatum && !t.includeRefScript)
  }

  /** The limits on top level data in numbers. */
  lemma TopInNumbers(collateral: bool, t: TopLevelData)
    ensures TopAccepted(collateral, t, true)
       <==> && 1 <= |t.destination.address| <= 128 && t.amount < 45_000_000_000_000_000 && t.numAssetGroups < 65536
            && (collateral ==> !t.includeDatum && !t.includeRefScript)
  {
  }

  /** The rules for chunks in numbers: 240 bytes at most, and no fewer as long as more remain where this is asked for.
      */
  lemma ChunkInNumbers(remaining: nat, chunk: seq<byte>, forced: bool)
    ensures ChunkAccepted(remaining, chunk, forced)
       <==> 1 <= |chunk| <= 240 && |chunk| <= remaining && (forced && remaining >= 240 ==> |chunk| == 240)
  {
  }

  /** Inline data have less than 1024 bytes and are allowed in the later format only; a reference script has less than
      2^32 bytes, one that is shown one less. */
  lemma DataInNumbers(format: Format, d: Datum, script: seq<seq<byte>>, shown: bool)
    ensures DatumAccepted(format, d) && d.Inline? ==> format == MAP_BABBAGE && 0 < |Concat(d.chunks)| < 1024
    ensures DatumAccepted(format, d) <== d.ByHash?
    ensures DataFits(format, None, Some(script), shown) ==>
            0 < |Concat(script)| < if shown then 0xFFFF_FFFF else 0x1_0000_0000
  {
    hide ChunksAccepted;
  }

  function Bundles(es: seq<BundleEvent>): seq<OutputEvent> {
    if es == [] then [] else [Bundle(es[0])] + Bundles(es[1..])
  }

  function DatumChunks(chunks: seq<seq<byte>>): seq<OutputEvent> {
    if chunks == [] then [] else [DatumChunk(chunks[0])] + DatumChunks(chunks[1..])
  }

  function ScriptChunks(chunks: seq<seq<byte>>): seq<OutputEvent> {
    if chunks == [] then [] else [RefScriptChunk(chunks[0])] + ScriptChunks(chunks[1..])
  }

  function DatumEvents(d: Option<Datum>): seq<OutputEvent>
    requires d.Some? && d.value.Inline? ==> d.value.chunks != [] && Total(d.value.chunks) < TWO_32
  {
    match d
    case None => []
    case Some(ByHash(h)) => [HashedDatum(h)]
    case Some(Inline(cs)) => [InlineDatum(Total(cs), cs[0])] + DatumChunks(cs[1..])
  }

  function ScriptEvents(s: Option<seq<seq<byte>>>): seq<OutputEvent>
    requires s.Some? ==> s.value != [] && Total(s.value) < TWO_32
  {
    match s
    case None => []
    case Some(cs) => [RefScript(Total(cs), cs[0])] + ScriptChunks(cs[1..])
  }

  /** The requests by which an output arrives. */
  function Requests(o: Output): seq<OutputEvent>
    requires WellFormed(false, o)
  {
    [TopLevel(TopOf(o), true)] + Bundles(BundleEvents(o.groups)) + DatumEvents(o.datum)
    + ScriptEvents(o.script) + [ConfirmOutput]
  }

  // ------------------------------------------------------------ the sub-machine

  datatype Phase =
    | TOP_LEVEL_DATA | ASSET_GROUP | TOKEN | DATUM | DATUM_INLINE_CHUNKS
    | REFERENCE_SCRIPT | REFERENCE_SCRIPT_CHUNKS | CONFIRM | FINISHED

  /** The union stateData: the variant that was written last. */
  datatype StateData =
    | TopLevelPart(residue: Residue)
    | Tokens(progress: Progress)
    | DatumData(hashed: bool, datumRemainingBytes: nat)
    | ScriptData(refScriptRemainingBytes: nat)

  datatype State = State(phase: Phase, format: Format, numAssetGroups: uint16, includeDatum: bool,
                         includeRefScript: bool, scriptShown: bool, data: StateData)

  const START := State(TOP_LEVEL_DATA, ARRAY_LEGACY, 0, false, false, false, TopLevelPart(Residue(0, 0)))

  function AfterDatum(s: State): Phase {
    if s.includeRefScript then REFERENCE_SCRIPT else CONFIRM
  }

  function AfterTokens(s: State): Phase {
    if s.includeDatum then DATUM else AfterDatum(s)
  }

  /** The union read as the token variant after the destination has been written to it. */
  function Reinterpreted(r: Residue): Progress {
    Progress(ZERO_KEY, [], r.currentAssetGroup, r.currentToken, 0, false)
  }

  /** The state after a request, or None if the request is refused. */
  function Step(collateral: bool, s: State, e: OutputEvent): Option<State> {
    match (s.phase, e)
    case (TOP_LEVEL_DATA, TopLevel(top, allowed)) =>
      if !TopAccepted(collateral, top, allowed) then None
      else
        var residue := ResidueOf(top.destination);
        var t := State(TOP_LEVEL_DATA, top.format, top.numAssetGroups, top.includeDatum, top.includeRefScript,
                       top.scriptShown, TopLevelPart(residue));
        if top.numAssetGroups == 0 then Some(t.(phase := AfterTokens(t)))
        else if residue.currentAssetGroup != 0 then None
        else Some(t.(phase := ASSET_GROUP, data := Tokens(Reinterpreted(residue))))
    case (ASSET_GROUP, Bundle(b)) => StepBundle(s, b)
    case (TOKEN, Bundle(b)) => StepBundle(s, b)
    case (DATUM, HashedDatum(_)) =>
      if collateral then None else Some(s.(phase := AfterDatum(s), data := DatumData(true, 0)))
    case (DATUM, InlineDatum(n, c)) =>
      if collateral || n == 0 || !ChunkAccepted(n, c, true) || s.format != MAP_BABBAGE || n >= BUFFER_SIZE_PARANOIA
      then None
      else
        Some(s.(phase := if n == |c| then AfterDatum(s) else DATUM_INLINE_CHUNKS, data := DatumData(false, n - |c|)))
    case (DATUM_INLINE_CHUNKS, DatumChunk(c)) =>
      if collateral || !s.data.DatumData? || !ChunkAccepted(s.data.datumRemainingBytes, c, false) then None
      else
        var left := s.data.datumRemainingBytes - |c|;
        Some(s.(phase := if left == 0 then AfterDatum(s) else s.phase, data := DatumData(false, left)))
    case (REFERENCE_SCRIPT, RefScript(n, c)) =>
      if collateral || n == 0 || n >= ScriptLimit(s.scriptShown) || !ChunkAccepted(n, c, false) then None
      else Some(s.(phase := if n == |c| then CONFIRM else REFERENCE_SCRIPT_CHUNKS, data := ScriptData(n - |c|)))
    case (REFERENCE_SCRIPT_CHUNKS, RefScriptChunk(c)) =>
      if collateral || !s.data.ScriptData? || !ChunkAccepted(s.data.refScriptRemainingBytes, c, true) then None
      else
        var left := s.data.refScriptRemainingBytes - |c|;
        Some(s.(phase := if left == 0 then CONFIRM else s.phase, data := ScriptData(left)))
    case (CONFIRM, ConfirmOutput) => Some(s.(phase := FINISHED))
    case _ => None
  }

  function StepBundle(s: State, b: BundleEvent): Option<State> {
    if !s.data.Tokens? then None
    else
      match Advance(s.numAssetGroups, s.data.progress, b)
      case None => None
      case Some(p) =>
        Some(s.(data := Tokens(p),
                phase := if p.inGroup then TOKEN
                         else if p.currentAssetGroup == s.numAssetGroups then AfterTokens(s)
                         else ASSET_GROUP))
  }

  function Run(collateral: bool, s: State, es: seq<OutputEvent>): Option<State>
    decreases |es|
  {
    if es == [] then Some(s)
    else
      match Step(collateral, s, es[0])
      case None => None
      case Some(t) => Run(collateral, t, es[1..])
  }

  predicate Finished(s: Option<State>) {
    s.Some? && s.value.phase == FINISHED
  }

  lemma RunNext(collateral: bool, s: State, es: seq<OutputEvent>)
    ensures es == [] ==> Run(collateral, s, es) == Some(s)
    ensures es != [] && Step(collateral, s, es[0]).None? ==> Run(collateral, s, es) == None
    ensures es != [] && Step(collateral, s, es[0]).Some? ==>
            Run(collateral, s, es) == Run(collateral, Step(collateral, s, es[0]).value, es[1..])
    ensures s.phase == FINISHED && Run(collateral, s, es).Some? ==> es == []
  {
  }

  lemma {:induction false} RunAppend(collateral: bool, s: State, v: seq<OutputEvent>, w: seq<OutputEvent>)
    ensures Run(collateral, s, v + w)
         == match Run(collateral, s, v) case None => None case Some(t) => Run(collateral, t, w)
    decreases |v|
  {
    hide Step, Run;
    RunNext(collateral, s, v);
    RunNext(collateral, s, v + w);
    if v == [] {
      assert v + w == w;
    } else {
      assert (v + w)[0] == v[0] && (v + w)[1..] == v[1..] + w;
      if Step(collateral, s, v[0]).Some? {
        RunAppend(collateral, Step(collateral, s, v[0]).value, v[1..], w);
      }
    }
  }

  // ------------------------------------------------------------ from a finished run back to the output

  lemma FromConfirm(collateral: bool, s: State, es: seq<OutputEvent>)
    requires s.phase == CONFIRM
    ensures Finished(Run(collateral, s, es)) <==> es == [ConfirmOutput]
  {
    hide Run;
    RunNext(collateral, s, es);
    if es != [] && es[0].ConfirmOutput? {
      RunNext(collateral, s.(phase := FINISHED), es[1..]);
      assert es == [es[0]] + es[1..];
    }
  }

  lemma {:induction false} TotalOfAccepted(remaining: nat, chunks: seq<seq<byte>>, forced: bool)
    requires ChunksAccepted(remaining, chunks, forced)
    ensures Total(chunks) == remaining
    decreases |chunks|
  {
    if remaining > 0 {
      TotalOfAccepted(remaining - |chunks[0]|, chunks[1..], forced);
    }
  }

  lemma {:induction false} FromScriptChunks(s: State, es: seq<OutputEvent>) returns (chunks: seq<seq<byte>>)
    requires s.phase == REFERENCE_SCRIPT_CHUNKS && s.data.ScriptData? && s.data.refScriptRemainingBytes > 0
    requires Finished(Run(false, s, es))
    ensures ChunksAccepted(s.data.refScriptRemainingBytes, chunks, true)
    ensures es == ScriptChunks(chunks) + [ConfirmOutput]
    decreases |es|
  {
    hide Run, ChunkAccepted;
    RunNext(false, s, es);
    var c := es[0].chunk;
    var t := Step(false, s, es[0]).value;
    if t.phase == CONFIRM {
      FromConfirm(false, t, es[1..]);
      chunks := [c];
    } else {
      Shrinks(s.data.refScriptRemainingBytes, c, true);
      var more := FromScriptChunks(t, es[1..]);
      chunks := [c] + more;
    }
    assert chunks[0] == c;
    assert es == [es[0]] + es[1..];
  }

  lemma Shrinks(remaining: nat, c: seq<byte>, forced: bool)
    requires ChunkAccepted(remaining, c, forced)
    ensures 0 < |c| <= remaining
  {
  }

  lemma FromScript(s: State, es: seq<OutputEvent>) returns (script: Option<seq<seq<byte>>>)
    requires s.phase == AfterDatum(s) && Finished(Run(false, s, es))
    ensures script.Some? == s.includeRefScript
    ensures script.Some? ==> DataAccepted(script.value, false, ScriptLimit(s.scriptShown))
    ensures es == ScriptEvents(script) + [ConfirmOutput]
  {
    hide Run, ChunkAccepted;
    RunNext(false, s, es);
    if s.phase == CONFIRM {
      FromConfirm(false, s, es);
      script := None;
    } else {
      var n, c := es[0].size, es[0].chunk;
      var t := Step(false, s, es[0]).value;
      Shrinks(n, c, false);
      var more := [];
      if t.phase == CONFIRM {
        FromConfirm(false, t, es[1..]);
        assert ChunksAccepted(0, more, true);
      } else {
        more := FromScriptChunks(t, es[1..]);
      }
      TotalOfAccepted(n - |c|, more, true);
      var chunks := [c] + more;
      assert chunks[1..] == more;
      script := Some(chunks);
      assert es == [es[0]] + es[1..];
    }
  }

  lemma {:induction false} FromDatumChunks(s: State, es: seq<OutputEvent>)
      returns (chunks: seq<seq<byte>>, t: State, rest: seq<OutputEvent>)
    requires s.phase == DATUM_INLINE_CHUNKS && s.data.DatumData? && s.data.datumRemainingBytes > 0
    requires Finished(Run(false, s, es))
    ensures ChunksAccepted(s.data.datumRemainingBytes, chunks, false)
    ensures es == DatumChunks(chunks) + rest
    ensures t.phase == AfterDatum(t) && t.includeRefScript == s.includeRefScript && t.scriptShown == s.scriptShown
    ensures Finished(Run(false, t, rest))
    decreases |es|
  {
    hide Run, ChunkAccepted;
    RunNext(false, s, es);
    var c := es[0].chunk;
    t := Step(false, s, es[0]).value;
    if t.phase == DATUM_INLINE_CHUNKS {
      Shrinks(s.data.datumRemainingBytes, c, false);
      var more;
      more, t, rest := FromDatumChunks(t, es[1..]);
      chunks := [c] + more;
    } else {
      chunks, rest := [c], es[1..];
    }
    assert chunks[0] == c;
    assert es == [es[0]] + es[1..];
  }

  lemma FromInlineDatum(s: State, es: seq<OutputEvent>)
      returns (chunks: seq<seq<byte>>, t: State, rest: seq<OutputEvent>)
    requires s.phase == DATUM && es != [] && es[0].InlineDatum? && Finished(Run(false, s, es))
    ensures s.format == MAP_BABBAGE && DataAccepted(chunks, true, BUFFER_SIZE_PARANOIA)
    ensures Total(chunks) == es[0].size && chunks[0] == es[0].chunk && es[1..] == DatumChunks(chunks[1..]) + rest
    ensures t.phase == AfterDatum(t) && t.includeRefScript == s.includeRefScript && t.scriptShown == s.scriptShown
    ensures Finished(Run(false, t, rest))
  {
    hide Run, ChunkAccepted;
    RunNext(false, s, es);
    t := Step(false, s, es[0]).value;
    var n, c := es[0].size, es[0].chunk;
    Shrinks(n, c, true);
    var more := [];
    if t.phase == DATUM_INLINE_CHUNKS {
      more, t, rest := FromDatumChunks(t, es[1..]);
    } else {
      rest := es[1..];
      assert ChunksAccepted(0, more, false);
    }
    TotalOfAccepted(n - |c|, more, false);
    chunks := [c] + more;
    assert chunks[1..] == more;
  }

  lemma FromDatum(s: State, es: seq<OutputEvent>) returns (datum: Option<Datum>, t: State, rest: seq<OutputEvent>)
    requires s.phase == AfterTokens(s) && Finished(Run(false, s, es))
    ensures datum.Some? == s.includeDatum
    ensures datum.Some? ==> DatumAccepted(s.format, datum.value)
    ensures es == DatumEvents(datum) + rest
    ensures t.phase == AfterDatum(t) && t.includeRefScript == s.includeRefScript && t.scriptShown == s.scriptShown
    ensures Finished(Run(false, t, rest))
  {
    hide Run, ChunkAccepted, ChunksAccepted, Total, DatumChunks;
    RunNext(false, s, es);
    if !s.includeDatum {
      datum, t, rest := None, s, es;
    } else {
      assert es == [es[0]] + es[1..];
      if es[0].HashedDatum? {
        datum, t, rest := Some(ByHash(es[0].hash)), Step(false, s, es[0]).value, es[1..];
      } else {
        var chunks;
        chunks, t, rest := FromInlineDatum(s, es);
        datum := Some(Inline(chunks));
      }
    }
  }

  // ------------------------------------------------------------ the token bundle within an output

  /** A run in the bundle phases feeds a bundle to its end before it goes on. */
  lemma {:induction false} FromBundle(collateral: bool, s: State, es: seq<OutputEvent>)
      returns (bs: seq<BundleEvent>, t: State, rest: seq<OutputEvent>)
    requires s.phase in {ASSET_GROUP, TOKEN} && s.data.Tokens? && (s.phase == TOKEN <==> s.data.progress.inGroup)
    requires Finished(Run(collateral, s, es))
    ensures Feed(s.numAssetGroups, s.data.progress, bs).Some?
    ensures Complete(s.numAssetGroups, Feed(s.numAssetGroups, s.data.progress, bs).value)
    ensures es == Bundles(bs) + rest && Finished(Run(collateral, t, rest))
    ensures t.phase == AfterTokens(t) && t.includeDatum == s.includeDatum && t.includeRefScript == s.includeRefScript
    ensures t.scriptShown == s.scriptShown
            && t.format == s.format
    decreases |es|
  {
    hide Run, Advance, Feed;
    RunNext(collateral, s, es);
    var b := es[0].part;
    t := Step(collateral, s, es[0]).value;
    assert es == [es[0]] + es[1..];
    if t.phase in {ASSET_GROUP, TOKEN} {
      var more;
      more, t, rest := FromBundle(collateral, t, es[1..]);
      bs := [b] + more;
      assert bs[1..] == more;
    } else {
      bs, rest := [b], es[1..];
      FeedNext(s.numAssetGroups, t.data.progress, bs[1..]);
      assert Bundles(bs) == [es[0]] + Bundles([]);
    }
    FeedNext(s.numAssetGroups, s.data.progress, bs);
  }

  lemma {:induction false} RunBundle(collateral: bool, s: State, bs: seq<BundleEvent>, rest: seq<OutputEvent>)
      returns (t: State)
    requires s.phase in {ASSET_GROUP, TOKEN} && s.data.Tokens? && (s.phase == TOKEN <==> s.data.progress.inGroup)
    requires Consistent(s.numAssetGroups, s.data.progress) && !Complete(s.numAssetGroups, s.data.progress)
    requires Feed(s.numAssetGroups, s.data.progress, bs).Some?
    requires Complete(s.numAssetGroups, Feed(s.numAssetGroups, s.data.progress, bs).value)
    ensures t == s.(phase := AfterTokens(s), data := t.data)
    ensures Run(collateral, s, Bundles(bs) + rest) == Run(collateral, t, rest)
    decreases |bs|
  {
    hide Run, Advance, Feed;
    var n, p := s.numAssetGroups, s.data.progress;
    FeedNext(n, p, bs);
    var es := Bundles(bs) + rest;
    assert es == [Bundle(bs[0])] + (Bundles(bs[1..]) + rest);
    RunNext(collateral, s, es);
    var q := Advance(n, p, bs[0]).value;
    AdvanceConsistent(n, p, bs[0]);
    t := Step(collateral, s, es[0]).value;
    if Complete(n, q) {
      NothingAfterComplete(n, q, bs[1..]);
      assert Bundles(bs[1..]) + rest == rest;
    } else {
      t := RunBundle(collateral, t, bs[1..], rest);
    }
  }

  // ------------------------------------------------------------ main results

  ghost predicate Received(collateral: bool, es: seq<OutputEvent>, o: Output) {
    WellFormed(collateral, o) && WellFormed(false, o) && Requests(o) == es
  }

  lemma WellFormedAnyway(collateral: bool, o: Output)
    requires WellFormed(collateral, o)
    ensures WellFormed(false, o)
  {
  }

  /** The datum and the script of a run that has left the token bundle behind. */
  lemma FromTokens(collateral: bool, s: State, es: seq<OutputEvent>)
      returns (datum: Option<Datum>, script: Option<seq<seq<byte>>>)
    requires s.phase == AfterTokens(s) && Finished(Run(collateral, s, es))
    requires collateral ==> !s.includeDatum && !s.includeRefScript
    ensures DataFits(s.format, datum, script, s.scriptShown)
    ensures datum.Some? == s.includeDatum && script.Some? == s.includeRefScript
    ensures es == DatumEvents(datum) + (ScriptEvents(script) + [ConfirmOutput])
  {
    hide Run, DataAccepted, ChunkAccepted;
    if collateral { CollateralRun(s, es); }
    var t, rest;
    datum, t, rest := FromDatum(s, es);
    script := FromScript(t, rest);
    DataNonempty(datum, script, ScriptLimit(s.scriptShown));
  }

  lemma DataNonempty(datum: Option<Datum>, script: Option<seq<seq<byte>>>, limit: nat)
    requires datum.Some? && datum.value.Inline? ==> DataAccepted(datum.value.chunks, true, BUFFER_SIZE_PARANOIA)
    requires limit <= TWO_32 && (script.Some? ==> DataAccepted(script.value, false, limit))
    ensures datum.Some? && datum.value.Inline? ==> datum.value.chunks != [] && Total(datum.value.chunks) < TWO_32
    ensures script.Some? ==> script.value != [] && Total(script.value) < TWO_32
  {
  }

  lemma OutputOf(collateral: bool, es: seq<OutputEvent>) returns (o: Output)
    requires Finished(Run(collateral, START, es))
    ensures Received(collateral, es, o)
  {
    hide Run, GroupsAccepted, DataFits, DatumAccepted, DataAccepted, Advance, Requests, WellFormed, ResidueOf;
    RunNext(collateral, START, es);
    var top := es[0].top;
    var s := Step(collateral, START, es[0]).value;
    var groups, t, rest := [], s, es[1..];
    var bs := [];
    if s.phase == ASSET_GROUP {
      bs, t, rest := FromBundle(collateral, s, es[1..]);
      groups := GroupsOf(s.numAssetGroups, ResidueOf(top.destination), bs);
    } else {
      NoGroups();
      assert es[1..] == Bundles(bs) + rest;
    }
    var datum, script := FromTokens(collateral, t, rest);
    o := Output(top.format, top.destination, top.amount, groups, datum, script, top.scriptShown);
    assert es == [es[0]] + es[1..];
    Assembled(collateral, es, top, o);
  }

  lemma Assembled(collateral: bool, es: seq<OutputEvent>, top: TopLevelData, o: Output)
    requires |o.groups| < TWO_16 && GroupsAccepted(None, o.groups) && (o.groups != [] ==> Harmless(o.destination))
    requires TopAccepted(collateral, top, true) && TopOf(o) == top
    requires DataFits(o.format, o.datum, o.script, o.scriptShown)
    requires es == [TopLevel(top, true)]
             + (Bundles(BundleEvents(o.groups)) + (DatumEvents(o.datum) + (ScriptEvents(o.script) + [ConfirmOutput])))
    ensures Received(collateral, es, o)
  {
    hide GroupsAccepted, DatumAccepted, DataAccepted, Bundles, BundleEvents, DatumEvents, ScriptEvents, Harmless;
    ShortGroups(o.groups);
    WellFormedAnyway(collateral, o);
    Flattened([TopLevel(top, true)], Bundles(BundleEvents(o.groups)), DatumEvents(o.datum),
              ScriptEvents(o.script), [ConfirmOutput]);
  }

  lemma Flattened(a: seq<OutputEvent>, b: seq<OutputEvent>, c: seq<OutputEvent>, d: seq<OutputEvent>,
                  e: seq<OutputEvent>)
    ensures a + b + c + d + e == a + (b + (c + (d + e)))
  {
  }

  lemma ShortGroups(groups: seq<Group>)
    requires GroupsAccepted(None, groups)
    ensures Short(groups)
  {
  }

  lemma NoGroups()
    ensures GroupsAccepted(None, []) && BundleEvents([]) == [] && Bundles([]) == []
  {
  }

  lemma GroupsOf(n: uint16, residue: Residue, bs: seq<BundleEvent>) returns (groups: seq<Group>)
    requires residue.currentAssetGroup == 0 && n > 0
    requires Feed(n, Reinterpreted(residue), bs).Some? && Complete(n, Feed(n, Reinterpreted(residue), bs).value)
    ensures residue.currentToken == 0
    ensures |groups| == n && GroupsAccepted(None, groups) && BundleEvents(groups) == bs
  {
    hide GroupsAccepted;
    FeedNext(n, Reinterpreted(residue), bs);
    BundleReceived(n, ZERO_KEY, [], bs);
    groups :| Carries(n, bs, groups);
  }

  /** A collateral run without datum and script is a run of an ordinary output. */
  lemma {:induction false} CollateralRun(s: State, es: seq<OutputEvent>)
    requires Run(true, s, es).Some? && s.phase != TOP_LEVEL_DATA
    ensures Run(false, s, es) == Run(true, s, es)
    decreases |es|
  {
    hide Run, ChunkAccepted;
    RunNext(true, s, es);
    RunNext(false, s, es);
    if es != [] {
      CollateralRun(Step(true, s, es[0]).value, es[1..]);
    }
  }

  // ------------------------------------------------------------ and from an output to its run

  lemma {:induction false} RunScriptChunks(s: State, chunks: seq<seq<byte>>, rest: seq<OutputEvent>)
    requires s.phase == REFERENCE_SCRIPT_CHUNKS && s.data.ScriptData? && s.data.refScriptRemainingBytes > 0
    requires ChunksAccepted(s.data.refScriptRemainingBytes, chunks, true)
    ensures Run(false, s, ScriptChunks(chunks) + rest) == Run(false, s.(phase := CONFIRM, data := ScriptData(0)), rest)
    decreases |chunks|
  {
    hide Run, ChunkAccepted;
    var es := ScriptChunks(chunks) + rest;
    assert es == [RefScriptChunk(chunks[0])] + (ScriptChunks(chunks[1..]) + rest);
    RunNext(false, s, es);
    Shrinks(s.data.refScriptRemainingBytes, chunks[0], true);
    var t := Step(false, s, es[0]).value;
    if t.phase == CONFIRM {
      assert ScriptChunks(chunks[1..]) + rest == rest;
    } else {
      RunScriptChunks(t, chunks[1..], rest);
    }
  }

  lemma RunScript(s: State, script: Option<seq<seq<byte>>>)
    requires s.phase == AfterDatum(s) && script.Some? == s.includeRefScript
    requires script.Some? ==> DataAccepted(script.value, false, ScriptLimit(s.scriptShown))
    ensures Finished(Run(false, s, ScriptEvents(script) + [ConfirmOutput]))
  {
    hide Run, ChunkAccepted;
    var es := ScriptEvents(script) + [ConfirmOutput];
    RunNext(false, s, es);
    match script {
      case None =>
        assert es == [ConfirmOutput];
        FromConfirm(false, s, es);
      case Some(cs) =>
        Shrinks(Total(cs), cs[0], false);
        assert es == [RefScript(Total(cs), cs[0])] + (ScriptChunks(cs[1..]) + [ConfirmOutput]);
        var t := Step(false, s, es[0]).value;
        if t.phase == CONFIRM {
          assert ScriptChunks(cs[1..]) + [ConfirmOutput] == [ConfirmOutput];
        } else {
          RunScriptChunks(t, cs[1..], [ConfirmOutput]);
        }
        FromConfirm(false, t.(phase := CONFIRM, data := ScriptData(0)), [ConfirmOutput]);
    }
  }

  lemma {:induction false} RunDatumChunks(s: State, chunks: seq<seq<byte>>, rest: seq<OutputEvent>)
    requires s.phase == DATUM_INLINE_CHUNKS && s.data.DatumData? && s.data.datumRemainingBytes > 0
    requires ChunksAccepted(s.data.datumRemainingBytes, chunks, false)
    ensures Run(false, s, DatumChunks(chunks) + rest)
         == Run(false, s.(phase := AfterDatum(s), data := DatumData(false, 0)), rest)
    decreases |chunks|
  {
    hide Run, ChunkAccepted;
    var es := DatumChunks(chunks) + rest;
    assert es == [DatumChunk(chunks[0])] + (DatumChunks(chunks[1..]) + rest);
    RunNext(false, s, es);
    Shrinks(s.data.datumRemainingBytes, chunks[0], false);
    var t := Step(false, s, es[0]).value;
    if t.phase == DATUM_INLINE_CHUNKS {
      RunDatumChunks(t, chunks[1..], rest);
    } else {
      assert DatumChunks(chunks[1..]) + rest == rest;
    }
  }

  lemma RunInlineDatum(s: State, cs: seq<seq<byte>>, rest: seq<OutputEvent>) returns (t: State)
    requires s.phase == DATUM && s.format == MAP_BABBAGE && DataAccepted(cs, true, BUFFER_SIZE_PARANOIA)
    ensures t == s.(phase := AfterDatum(s), data := t.data)
    ensures Run(false, s, [InlineDatum(Total(cs), cs[0])] + (DatumChunks(cs[1..]) + rest)) == Run(false, t, rest)
  {
    hide Run, ChunkAccepted;
    var es := [InlineDatum(Total(cs), cs[0])] + (DatumChunks(cs[1..]) + rest);
    RunNext(false, s, es);
    Shrinks(Total(cs), cs[0], true);
    t := Step(false, s, es[0]).value;
    assert es[1..] == DatumChunks(cs[1..]) + rest;
    if t.phase == DATUM_INLINE_CHUNKS {
      RunDatumChunks(t, cs[1..], rest);
      t := t.(phase := AfterDatum(s), data := DatumData(false, 0));
    } else {
      assert DatumChunks(cs[1..]) + rest == rest;
    }
  }

  lemma RunDatum(s: State, datum: Option<Datum>, rest: seq<OutputEvent>) returns (t: State)
    requires s.phase == AfterTokens(s) && datum.Some? == s.includeDatum
    requires DataFits(s.format, datum, None, s.scriptShown)
    ensures t == s.(phase := AfterDatum(s), data := t.data)
    ensures Run(false, s, DatumEvents(datum) + rest) == Run(false, t, rest)
  {
    hide Run, DataAccepted, Total, DatumChunks;
    match datum {
      case None =>
        t := s;
        assert DatumEvents(datum) + rest == rest;
      case Some(ByHash(h)) =>
        var es := DatumEvents(datum) + rest;
        assert es == [HashedDatum(h)] + rest;
        RunNext(false, s, es);
        t := Step(false, s, es[0]).value;
      case Some(Inline(cs)) =>
        t := RunInlineDatum(s, cs, rest);
        Glue(DatumEvents(datum) + rest, [InlineDatum(Total(cs), cs[0])], DatumChunks(cs[1..]), rest);
    }
  }

  lemma RunTokens(collateral: bool, s: State, datum: Option<Datum>, script: Option<seq<seq<byte>>>)
    requires s.phase == AfterTokens(s) && datum.Some? == s.includeDatum && script.Some? == s.includeRefScript
    requires collateral ==> !s.includeDatum && !s.includeRefScript
    requires DataFits(s.format, datum, script, s.scriptShown)
    ensures Finished(Run(collateral, s, DatumEvents(datum) + (ScriptEvents(script) + [ConfirmOutput])))
  {
    hide Run, DataAccepted;
    DataNonempty(datum, script, ScriptLimit(s.scriptShown));
    var es := DatumEvents(datum) + (ScriptEvents(script) + [ConfirmOutput]);
    if collateral {
      assert es == [ConfirmOutput];
      FromConfirm(collateral, s, es);
    } else {
      var t := RunDatum(s, datum, ScriptEvents(script) + [ConfirmOutput]);
      RunScript(t, script);
    }
  }

  lemma RequestsAccepted(collateral: bool, o: Output)
    requires WellFormed(collateral, o) && WellFormed(false, o)
    ensures Finished(Run(collateral, START, Requests(o)))
  {
    hide Run, GroupsAccepted, DataFits, BundleEvents, Bundles, DatumEvents, ScriptEvents, Feed;
    ShortGroups(o.groups);
    var tail := DatumEvents(o.datum) + (ScriptEvents(o.script) + [ConfirmOutput]);
    var first := TopLevel(TopOf(o), true);
    var bs := BundleEvents(o.groups);
    Flattened([first], Bundles(bs), DatumEvents(o.datum), ScriptEvents(o.script), [ConfirmOutput]);
    var es := Requests(o);
    assert es[0] == first && es[1..] == Bundles(bs) + tail;
    RunNext(collateral, START, es);
    var s := Step(collateral, START, first).value;
    if o.groups == [] {
      NoGroups();
      assert Bundles(bs) + tail == tail;
    } else {
      BundleReceived(s.numAssetGroups, ZERO_KEY, [], bs);
      assert Carries(s.numAssetGroups, bs, o.groups);
      s := RunBundle(collateral, s, bs, tail);
    }
    RunTokens(collateral, s, o.datum, o.script);
  }

  /** A finished run has received one well-formed output: as many groups as declared, each with its declared number
      of tokens, keys in canonical order, then a datum if and only if one was announced, then a script
      if and only if one was announced, both with exactly the declared number of bytes. */
  lemma FinishedRun(collateral: bool, es: seq<OutputEvent>)
    ensures Finished(Run(collateral, START, es)) <==> exists o :: Received(collateral, es, o)
  {
    hide Run, WellFormed, Requests;
    if Finished(Run(collateral, START, es)) {
      var o := OutputOf(collateral, es);
      assert Received(collateral, es, o);
    }
    if o :| Received(collateral, es, o) {
      RequestsAccepted(collateral, o);
    }
  }

  // ------------------------------------------------------------ the union under the counters

  /** Exactly which destinations leave residue: third-party addresses that are not zero from byte 76 to byte 79. */
  lemma HarmlessBytes(d: Destination)
    ensures Harmless(d) <==> d.ThirdParty? ==> forall i :: 76 <= i < 80 && i < |d.address| ==> d.address[i] == 0
  {
    if d.ThirdParty? {
      var a := d.address;
      assert forall i :: 76 <= i < 80 && i < |a| ==> a[i] == ByteAt(a, i);
    }
  }

  /** Addresses of at most 76 bytes, as all Shelley addresses are, leave none. */
  lemma ShortAddressHarmless(d: Destination)
    requires |d.address| <= 76
    ensures Harmless(d)
  {
  }

  /** An output whose bundle is never opened because an assertion fails: its address has 77 bytes, the last of which is
      read as the number of groups received. It would be accepted without tokens, or if the device owned it. */
  lemma ResidueRefused(allowed: bool)
    ensures var a: seq<byte> := seq(76, _ => 0) + [1];
            var top := TopLevelData(MAP_BABBAGE, ThirdParty(a), 1, 1, false, false, false);
      && TopAccepted(false, top, true) && Step(false, START, TopLevel(top, allowed)).None?
      && Step(false, START, TopLevel(top.(numAssetGroups := 0), true)).Some?
      && Step(false, START, TopLevel(top.(destination := DeviceOwned(a)), true)).Some?
  {
    var a: seq<byte> := seq(76, _ => 0) + [1];
    assert a[76] == 1;
    assert ResidueOf(ThirdParty(a)).currentAssetGroup == 1;
  }

  /** The first group is accepted exactly if neither assertion on the counters fails. */
  lemma FirstGroup(top: TopLevelData, policyId: PolicyId, numTokens: uint16)
    requires TopAccepted(false, top, true) && top.numAssetGroups > 0 && numTokens > 0
    ensures var s := Step(false, START, TopLevel(top, true));
            (s.Some? && Step(false, s.value, Bundle(AssetGroup(policyId, numTokens))).Some?)
            <==> Harmless(top.destination)
  {
    hide KeyLess, ResidueOf;
  }

  // ------------------------------------------------------------ the log of a finished output

  function TokenCalls(tokens: seq<Token>): seq<OutputCall> {
    if tokens == [] then [] else [AddToken(tokens[0].name, tokens[0].amount)] + TokenCalls(tokens[1..])
  }

  function GroupCalls(groups: seq<Group>): seq<OutputCall>
    requires Short(groups)
  {
    if groups == [] then []
    else
      [AddTokenGroup(groups[0].policyId, |groups[0].tokens|)] + TokenCalls(groups[0].tokens) + GroupCalls(groups[1..])
  }

  function DatumCalls(chunks: seq<seq<byte>>): seq<OutputCall> {
    if chunks == [] then [] else [AddDatumChunk(chunks[0])] + DatumCalls(chunks[1..])
  }

  function ScriptCalls(chunks: seq<seq<byte>>): seq<OutputCall> {
    if chunks == [] then [] else [AddRefScriptChunk(chunks[0])] + ScriptCalls(chunks[1..])
  }

  function DatumPart(d: Option<Datum>): seq<OutputCall> {
    match d
    case None => []
    case Some(ByHash(h)) => [AddDatumHash(h)]
    case Some(Inline(cs)) => if Total(cs) < TWO_32 then [AddInlineDatum(Total(cs))] + DatumCalls(cs) else []
  }

  function ScriptPart(s: Option<seq<seq<byte>>>): seq<OutputCall> {
    match s
    case None => []
    case Some(cs) => if Total(cs) < TWO_32 then [AddRefScript(Total(cs))] + ScriptCalls(cs) else []
  }

  /** The calls for the parts of an output after its top level data. */
  function PartsCalls(o: Output): seq<OutputCall>
    requires Short(o.groups)
  {
    GroupCalls(o.groups) + (DatumPart(o.datum) + ScriptPart(o.script))
  }

  /** The word of builder calls that an output stands for: every declared count and size is followed by
      exactly that many elements or bytes. */
  function OutputCalls(o: Output): seq<OutputCall>
    requires WellFormed(false, o)
  {
    ShortGroups(o.groups);
    [AddTopLevel(Derived(TopOf(o)))] + PartsCalls(o)
  }

  lemma {:induction false} CallsAppend(v: seq<OutputEvent>, w: seq<OutputEvent>)
    ensures CallsForAll(v + w) == CallsForAll(v) + CallsForAll(w)
  {
    hide CallsFor;
    if w == [] {
      assert v + w == v;
    } else {
      var n := |w| - 1;
      assert (v + w)[..|v + w| - 1] == v + w[..n];
      CallsAppend(v, w[..n]);
    }
  }

  lemma CallsOne(e: OutputEvent)
    ensures CallsForAll([e]) == CallsFor(e)
  {
    hide CallsFor;
    assert [e][..0] == [];
  }

  lemma CallsCons(e: OutputEvent, es: seq<OutputEvent>)
    ensures CallsForAll([e] + es) == CallsFor(e) + CallsForAll(es)
  {
    CallsAppend([e], es);
    CallsOne(e);
  }

  lemma {:induction false} BundlesAppend(v: seq<BundleEvent>, w: seq<BundleEvent>)
    ensures Bundles(v + w) == Bundles(v) + Bundles(w)
  {
    if v == [] {
      assert v + w == w;
    } else {
      assert (v + w)[1..] == v[1..] + w;
      BundlesAppend(v[1..], w);
    }
  }

  lemma {:induction false} TokenLog(tokens: seq<Token>)
    ensures CallsForAll(Bundles(TokenEvents(tokens))) == TokenCalls(tokens)
  {
    hide CallsForAll;
    if tokens == [] {
      NoCalls();
    } else {
      var e := TokenAmount(tokens[0].name, tokens[0].amount);
      assert TokenEvents(tokens)[1..] == TokenEvents(tokens[1..]);
      TokenLog(tokens[1..]);
      CallsCons(Bundle(e), Bundles(TokenEvents(tokens[1..])));
    }
  }

  lemma NoCalls()
    ensures CallsForAll([]) == []
  {
  }

  lemma {:induction false} GroupLog(groups: seq<Group>)
    requires Short(groups)
    ensures CallsForAll(Bundles(BundleEvents(groups))) == GroupCalls(groups)
  {
    hide CallsForAll, Bundles, TokenEvents;
    if groups == [] {
      NoGroups();
      NoCalls();
    } else {
      var g, more := groups[0], groups[1..];
      var e := AssetGroup(g.policyId, |g.tokens|);
      BundlesAppend([e] + TokenEvents(g.tokens), BundleEvents(more));
      BundlesAppend([e], TokenEvents(g.tokens));
      BundlesOne(e);
      CallsAppend([Bundle(e)] + Bundles(TokenEvents(g.tokens)), Bundles(BundleEvents(more)));
      CallsCons(Bundle(e), Bundles(TokenEvents(g.tokens)));
      TokenLog(g.tokens);
      GroupLog(more);
    }
  }

  lemma BundlesOne(e: BundleEvent)
    ensures Bundles([e]) == [Bundle(e)]
  {
    assert [e][1..] == [];
    assert Bundles([e]) == [Bundle(e)] + Bundles([]);
  }

  lemma {:induction false} DatumLog(chunks: seq<seq<byte>>)
    ensures CallsForAll(DatumChunks(chunks)) == DatumCalls(chunks)
  {
    hide CallsForAll;
    if chunks == [] {
      NoCalls();
    } else {
      DatumLog(chunks[1..]);
      CallsCons(DatumChunk(chunks[0]), DatumChunks(chunks[1..]));
    }
  }

  lemma {:induction false} ScriptLog(chunks: seq<seq<byte>>)
    ensures CallsForAll(ScriptChunks(chunks)) == ScriptCalls(chunks)
  {
    hide CallsForAll;
    if chunks == [] {
      NoCalls();
    } else {
      ScriptLog(chunks[1..]);
      CallsCons(RefScriptChunk(chunks[0]), ScriptChunks(chunks[1..]));
    }
  }

  lemma DatumOptionLog(d: Option<Datum>)
    requires d.Some? && d.value.Inline? ==> d.value.chunks != [] && Total(d.value.chunks) < TWO_32
    ensures CallsForAll(DatumEvents(d)) == DatumPart(d)
  {
    hide CallsForAll, Total;
    match d
    case None => NoCalls();
    case Some(ByHash(h)) => CallsOne(HashedDatum(h));
    case Some(Inline(cs)) =>
      CallsCons(InlineDatum(Total(cs), cs[0]), DatumChunks(cs[1..]));
      DatumLog(cs[1..]);
      assert [AddInlineDatum(Total(cs)), AddDatumChunk(cs[0])] + DatumCalls(cs[1..])
          == [AddInlineDatum(Total(cs))] + DatumCalls(cs);
  }

  lemma ScriptOptionLog(s: Option<seq<seq<byte>>>)
    requires s.Some? ==> s.value != [] && Total(s.value) < TWO_32
    ensures CallsForAll(ScriptEvents(s)) == ScriptPart(s)
  {
    hide CallsForAll, Total;
    match s
    case None => NoCalls();
    case Some(cs) =>
      CallsCons(RefScript(Total(cs), cs[0]), ScriptChunks(cs[1..]));
      ScriptLog(cs[1..]);
      assert [AddRefScript(Total(cs)), AddRefScriptChunk(cs[0])] + ScriptCalls(cs[1..])
          == [AddRefScript(Total(cs))] + ScriptCalls(cs);
  }

  lemma RequestsLog(o: Output)
    requires WellFormed(false, o)
    ensures CallsForAll(Requests(o)) == OutputCalls(o)
  {
    hide CallsForAll, Bundles, BundleEvents, DatumEvents, ScriptEvents, GroupCalls, DatumPart, ScriptPart,
         GroupsAccepted, TopAccepted, Total, Concat;
    ShortGroups(o.groups);
    var a, b := TopLevel(TopOf(o), true), Bundles(BundleEvents(o.groups));
    var c, d := DatumEvents(o.datum), ScriptEvents(o.script);
    CallsAppend([a] + b + c + d, [ConfirmOutput]);
    CallsAppend([a] + b + c, d);
    CallsAppend([a] + b, c);
    CallsCons(a, b);
    CallsOne(ConfirmOutput);
    GroupLog(o.groups);
    DatumOptionLog(o.datum);
    ScriptOptionLog(o.script);
    var top, groups, datum, script := CallsFor(a), GroupCalls(o.groups), DatumPart(o.datum), ScriptPart(o.script);
    Glue(top + groups + datum + script, top + groups, datum, script);
    Glue(top + groups + (datum + script), top, groups, datum + script);
  }

  // ------------------------------------------------------------ the handlers

  /** What the assertions of the sub-machine rely on in every state it can reach. */
  predicate Invariant(s: State) {
    match s.phase
    case TOP_LEVEL_DATA => true
    case ASSET_GROUP =>
      s.data.Tokens? && !s.data.progress.inGroup && s.data.progress.currentAssetGroup < s.numAssetGroups
    case TOKEN =>
      && s.data.Tokens? && s.data.progress.inGroup && s.data.progress.currentAssetGroup < s.numAssetGroups
      && s.data.progress.currentToken < s.data.progress.numTokens
    case DATUM => s.includeDatum
    case DATUM_INLINE_CHUNKS => s.includeDatum && s.data.DatumData? && 0 < s.data.datumRemainingBytes < TWO_32
    case REFERENCE_SCRIPT => s.includeRefScript
    case REFERENCE_SCRIPT_CHUNKS => s.includeRefScript && s.data.ScriptData?
      && 0 < s.data.refScriptRemainingBytes < TWO_32
    case CONFIRM => true
    case FINISHED => true
  }

  lemma InvariantKept(collateral: bool, s: State, e: OutputEvent)
    requires Invariant(s) && Step(collateral, s, e).Some?
    ensures Invariant(Step(collateral, s, e).value)
  {
    hide KeyLess, TopAccepted;
  }

  /** The assertions of tx_output_advanceState. */
  predicate CanAdvance(s: State, datumHashReceived: bool)
    requires s.phase in {ASSET_GROUP, TOKEN} ==> s.data.Tokens?
    requires s.phase in {DATUM, DATUM_INLINE_CHUNKS} ==> s.data.DatumData?
    requires s.phase in {REFERENCE_SCRIPT, REFERENCE_SCRIPT_CHUNKS} ==> s.data.ScriptData?
    requires s.phase == TOP_LEVEL_DATA ==> s.data.TopLevelPart?
  {
    match s.phase
    case TOP_LEVEL_DATA => s.numAssetGroups > 0 ==> s.data.residue.currentAssetGroup == 0
    case ASSET_GROUP =>
      && s.data.progress.currentAssetGroup < s.numAssetGroups
      && s.data.progress.numTokens > 0 && s.data.progress.currentToken == 0
    case TOKEN =>
      s.data.progress.currentToken == s.data.progress.numTokens && s.data.progress.currentAssetGroup < s.numAssetGroups
    case DATUM => s.includeDatum && (s.data.hashed ==> datumHashReceived)
    case DATUM_INLINE_CHUNKS => s.includeDatum && s.data.datumRemainingBytes == 0
    case REFERENCE_SCRIPT => s.includeRefScript
    case REFERENCE_SCRIPT_CHUNKS => s.data.refScriptRemainingBytes == 0
    case CONFIRM => true
    case FINISHED => false
  }

  /** The state tx_output_advanceState leads to. */
  function Advanced(s: State): State {
    match (s.phase, s.data)
    case (TOP_LEVEL_DATA, TopLevelPart(r)) =>
      if s.numAssetGroups > 0 then s.(phase := ASSET_GROUP, data := Tokens(Reinterpreted(r)))
      else s.(phase := AfterTokens(s))
    case (ASSET_GROUP, Tokens(p)) => s.(phase := TOKEN, data := Tokens(p.(inGroup := true)))
    case (TOKEN, Tokens(p)) =>
      if p.currentAssetGroup + 1 >= TWO_16 then s
      else
        s.(data := Tokens(p.(currentToken := 0, currentAssetGroup := p.currentAssetGroup + 1, inGroup := false)),
           phase := if p.currentAssetGroup + 1 == s.numAssetGroups then AfterTokens(s) else ASSET_GROUP)
    case (DATUM, DatumData(hashed, n)) => s.(phase := if !hashed && n > 0 then DATUM_INLINE_CHUNKS else AfterDatum(s))
    case (DATUM_INLINE_CHUNKS, _) => s.(phase := AfterDatum(s))
    case (REFERENCE_SCRIPT, ScriptData(n)) => s.(phase := if n > 0 then REFERENCE_SCRIPT_CHUNKS else CONFIRM)
    case (REFERENCE_SCRIPT_CHUNKS, _) => s.(phase := CONFIRM)
    case _ => s.(phase := FINISHED)
  }

  /** output_context_t. The log is the sequence of calls made to the transaction hash builder, the ghost
      field records the accepted requests. A method that returns false has ended the run. */
  class OutputContext {
    var collateral: bool
    var state: Phase
    var serializationFormat: Format
    var numAssetGroups: uint16
    var includeDatum: bool
    var datumHashReceived: bool
    var includeRefScript: bool
    var scriptShown: bool
    var stateData: StateData
    var log: seq<OutputCall>
    ghost var events: seq<OutputEvent>

    constructor ()
      ensures Valid() && events == [] && !collateral
    {
      collateral, state, serializationFormat, numAssetGroups := false, TOP_LEVEL_DATA, ARRAY_LEGACY, 0;
      includeDatum, datumHashReceived, includeRefScript, scriptShown := false, false, false, false;
      stateData, log, events := TopLevelPart(Residue(0, 0)), [], [];
    }

    ghost function Current(): State
      reads this
    {
      State(state, serializationFormat, numAssetGroups, includeDatum, includeRefScript, scriptShown, stateData)
    }

    ghost predicate Valid()
      reads this
    {
      && Run(collateral, START, events) == Some(Current())
      && Invariant(Current())
      && log == CallsForAll(events)
    }

    /** initializeOutputSubmachine */
    method Initialize(collateral: bool)
      modifies this
      ensures Valid() && events == [] && this.collateral == collateral && Current() == START && log == []
    {
      this.collateral, state, serializationFormat, numAssetGroups := collateral, TOP_LEVEL_DATA, ARRAY_LEGACY, 0;
      includeDatum, datumHashReceived, includeRefScript, scriptShown := false, false, false, false;
      stateData, log, events := TopLevelPart(Residue(0, 0)), [], [];
    }

    /** tx_output_advanceState. Entering the bundle reads the counters in the union that the destination was
        written to; inGroup repeats which of the two bundle states the sub-machine is in. */
    method AdvanceState() returns (ok: bool)
      requires state in {ASSET_GROUP, TOKEN} ==> stateData.Tokens?
      requires state in {DATUM, DATUM_INLINE_CHUNKS} ==> stateData.DatumData?
      requires state in {REFERENCE_SCRIPT, REFERENCE_SCRIPT_CHUNKS} ==> stateData.ScriptData?
      requires state == TOP_LEVEL_DATA ==> stateData.TopLevelPart?
      modifies this`state, this`stateData
      ensures ok ==> Current() == Advanced(old(Current()))
      ensures ok <==> CanAdvance(old(Current()), old(datumHashReceived))
    {
      match state {
        case TOP_LEVEL_DATA =>
          if numAssetGroups > 0 {
            if stateData.residue.currentAssetGroup != 0 { return false; }
            stateData := Tokens(Reinterpreted(stateData.residue));
            state := ASSET_GROUP;
          } else if includeDatum {
            state := DATUM;
          } else if includeRefScript {
            state := REFERENCE_SCRIPT;
          } else {
            state := CONFIRM;
          }
        case ASSET_GROUP =>
          var p := stateData.progress;
          if !(p.currentAssetGroup < numAssetGroups && p.numTokens > 0 && p.currentToken == 0) { return false; }
          stateData := Tokens(p.(inGroup := true));
          state := TOKEN;
        case TOKEN =>
          var p := stateData.progress;
          if p.currentToken != p.numTokens || p.currentAssetGroup >= numAssetGroups { return false; }
          stateData := Tokens(p.(currentToken := 0, currentAssetGroup := p.currentAssetGroup + 1, inGroup := false));
          if stateData.progress.currentAssetGroup == numAssetGroups {
            if includeDatum {
              state := DATUM;
            } else if includeRefScript {
              state := REFERENCE_SCRIPT;
            } else {
              state := CONFIRM;
            }
          } else {
            state := ASSET_GROUP;
          }
        case DATUM =>
          if !includeDatum { return false; }
          if stateData.hashed {
            if !datumHashReceived { return false; }
            state := if includeRefScript then REFERENCE_SCRIPT else CONFIRM;
          } else if stateData.datumRemainingBytes > 0 {
            state := DATUM_INLINE_CHUNKS;
          } else {
            state := if includeRefScript then REFERENCE_SCRIPT else CONFIRM;
          }
        case DATUM_INLINE_CHUNKS =>
          if !includeDatum || stateData.datumRemainingBytes != 0 { return false; }
          state := if includeRefScript then REFERENCE_SCRIPT else CONFIRM;
        case REFERENCE_SCRIPT =>
          if !includeRefScript { return false; }
          state := if stateData.refScriptRemainingBytes > 0 then REFERENCE_SCRIPT_CHUNKS else CONFIRM;
        case REFERENCE_SCRIPT_CHUNKS =>
          if stateData.refScriptRemainingBytes != 0 { return false; }
          state := CONFIRM;
        case CONFIRM =>
          state := FINISHED;
        case FINISHED =>
          return false;
      }
      return true;
    }

    /** Records an accepted request and the calls it caused. */
    ghost method Record(before: State, e: OutputEvent)
      requires Run(collateral, START, events) == Some(before) && Invariant(before)
      requires Step(collateral, before, e) == Some(Current())
      requires log == CallsForAll(events) + CallsFor(e)
      modifies this`events
      ensures Valid() && events == old(events) + [e]
    {
      hide Run, Step, CallsFor, Invariant;
      RunAppend(collateral, START, events, [e]);
      RunNext(collateral, before, [e]);
      RunNext(collateral, Current(), [e][1..]);
      InvariantKept(collateral, before, e);
      CallsAppend(events, [e]);
      CallsOne(e);
      events := events + [e];
    }

    /** parseTopLevelData and the policies. */
    method ParseTopLevelData(top: TopLevelData, allowed: bool) returns (ok: bool)
      modifies this`serializationFormat, this`numAssetGroups, this`includeDatum, this`includeRefScript,
               this`scriptShown, this`stateData
      ensures ok <==> state == TOP_LEVEL_DATA && TopAccepted(collateral, top, allowed)
      ensures ok ==> top.numAssetGroups < TWO_16
      ensures ok ==> Current() == State(TOP_LEVEL_DATA, top.format, top.numAssetGroups, top.includeDatum,
                                        top.includeRefScript, top.scriptShown,
                                        TopLevelPart(ResidueOf(top.destination)))
    {
      if state != TOP_LEVEL_DATA { return false; }
      if !TopAccepted(collateral, top, allowed) { return false; }
      serializationFormat, numAssetGroups := top.format, top.numAssetGroups;
      includeDatum, includeRefScript, scriptShown := top.includeDatum, top.includeRefScript, top.scriptShown;
      stateData := TopLevelPart(ResidueOf(top.destination));
      return true;
    }

    /** The step of top level data is parsing them and advancing the state. */
    static lemma TopLevelStep(collateral: bool, s: State, top: TopLevelData, allowed: bool, datumHashReceived: bool)
      ensures !(s.phase == TOP_LEVEL_DATA && TopAccepted(collateral, top, allowed)) ==>
              Step(collateral, s, TopLevel(top, allowed)) == None
      ensures s.phase == TOP_LEVEL_DATA && TopAccepted(collateral, top, allowed) ==>
              && top.numAssetGroups < TWO_16
              && var t := State(TOP_LEVEL_DATA, top.format, top.numAssetGroups, top.includeDatum, top.includeRefScript,
                                top.scriptShown, TopLevelPart(ResidueOf(top.destination)));
                 Step(collateral, s, TopLevel(top, allowed))
                 == if CanAdvance(t, datumHashReceived) then Some(Advanced(t)) else None
    {
      hide StepBundle, ResidueOf, ChunkAccepted;
    }

    /** The assertion on the group counter can fire here: it reads what the destination left in the union. */
    method HandleTopLevelData(top: TopLevelData, allowed: bool) returns (ok: bool)
      requires Valid()
      modifies this
      ensures ok <==> Step(collateral, old(Current()), TopLevel(top, allowed)).Some?
      ensures ok ==> Step(collateral, old(Current()), TopLevel(top, allowed)) == Some(Current())
      ensures collateral == old(collateral)
      ensures ok ==> Valid() && events == old(events) + [TopLevel(top, allowed)]
      ensures ok ==> log == old(log) + CallsFor(TopLevel(top, allowed))
    {
      hide Run, Step, KeyLess, TopAccepted, CallsForAll, CanAdvance, Advanced, ResidueOf;
      ghost var before := Current();
      TopLevelStep(collateral, before, top, allowed, datumHashReceived);
      var parsed := ParseTopLevelData(top, allowed);
      if !parsed { return false; }
      log := log + [AddTopLevel(Derived(top))];
      var advanced := AdvanceState();
      if !advanced { return false; }
      Record(before, TopLevel(top, allowed));
      return true;
    }

    /** The assertion on the token counter can fire here in the first group, for the same reason. */
    method HandleAssetGroup(policyId: PolicyId, numTokens: uint32) returns (ok: bool)
      requires Valid()
      modifies this
      ensures ok <==> Step(collateral, old(Current()), Bundle(AssetGroup(policyId, numTokens))).Some?
      ensures ok ==> Step(collateral, old(Current()), Bundle(AssetGroup(policyId, numTokens))) == Some(Current())
      ensures collateral == old(collateral)
      ensures ok ==> Valid() && events == old(events) + [Bundle(AssetGroup(policyId, numTokens))]
      ensures ok ==> log == old(log) + CallsFor(Bundle(AssetGroup(policyId, numTokens)))
    {
      hide Run, KeyLess, TopAccepted, CallsForAll;
      ghost var before := Current();
      if state != ASSET_GROUP { return false; }
      var p := stateData.progress;
      if p.currentAssetGroup > 0 {
        var ordered := FulfillsCanonicalOrdering(p.policyId, policyId);
        if !ordered { return false; }
      }
      if numTokens >= TWO_16 || numTokens == 0 { return false; }
      stateData := Tokens(p.(policyId := policyId, numTokens := numTokens));
      log := log + [AddTokenGroup(policyId, numTokens)];
      var advanced := AdvanceState();
      if !advanced { return false; }
      Record(before, Bundle(AssetGroup(policyId, numTokens)));
      return true;
    }

    method HandleToken(name: AssetName, amount: Amount) returns (ok: bool)
      requires Valid()
      modifies this
      ensures ok <==> Step(collateral, old(Current()), Bundle(TokenAmount(name, amount))).Some?
      ensures ok ==> Step(collateral, old(Current()), Bundle(TokenAmount(name, amount))) == Some(Current())
      ensures collateral == old(collateral)
      ensures ok ==> Valid() && events == old(events) + [Bundle(TokenAmount(name, amount))]
      ensures ok ==> log == old(log) + CallsFor(Bundle(TokenAmount(name, amount)))
    {
      hide Run, KeyLess, TopAccepted, CallsForAll;
      ghost var before := Current();
      if state != TOKEN { return false; }
      var p := stateData.progress;
      if p.currentToken > 0 {
        var ordered := FulfillsCanonicalOrdering(p.assetName, name);
        if !ordered { return false; }
      }
      log := log + [AddToken(name, amount)];
      stateData := Tokens(p.(assetName := name, currentToken := p.currentToken + 1));
      if stateData.progress.currentToken == stateData.progress.numTokens {
        var advanced := AdvanceState();
        assert advanced;
      }
      Record(before, Bundle(TokenAmount(name, amount)));
      return true;
    }

    method HandleDatumHash(hash: DatumHash) returns (ok: bool)
      requires Valid()
      modifies this
      ensures ok <==> Step(collateral, old(Current()), HashedDatum(hash)).Some?
      ensures ok ==> Step(collateral, old(Current()), HashedDatum(hash)) == Some(Current())
      ensures collateral == old(collateral)
      ensures ok ==> Valid() && events == old(events) + [HashedDatum(hash)]
      ensures ok ==> log == old(log) + CallsFor(HashedDatum(hash))
    {
      hide Run, KeyLess, TopAccepted, CallsForAll;
      ghost var before := Current();
      if state != DATUM || collateral { return false; }
      stateData := DatumData(true, 0);
      log := log + [AddDatumHash(hash)];
      datumHashReceived := true;
      var advanced := AdvanceState();
      assert advanced;
      Record(before, HashedDatum(hash));
      return true;
    }

    /** The hash builder only takes inline datums of the map format and of less than 1024 bytes. */
    method HandleInlineDatum(size: uint32, chunk: seq<byte>) returns (ok: bool)
      requires Valid()
      modifies this
      ensures ok <==> Step(collateral, old(Current()), InlineDatum(size, chunk)).Some?
      ensures ok ==> Step(collateral, old(Current()), InlineDatum(size, chunk)) == Some(Current())
      ensures collateral == old(collateral)
      ensures ok ==> Valid() && events == old(events) + [InlineDatum(size, chunk)]
      ensures ok ==> log == old(log) + CallsFor(InlineDatum(size, chunk))
    {
      hide Run, KeyLess, TopAccepted, CallsForAll;
      ghost var before := Current();
      if state != DATUM || collateral { return false; }
      if size == 0 || |chunk| == 0 || |chunk| > MAX_CHUNK_SIZE || |chunk| > size { return false; }
      if size >= MAX_CHUNK_SIZE && |chunk| != MAX_CHUNK_SIZE { return false; }
      if serializationFormat != MAP_BABBAGE || size >= BUFFER_SIZE_PARANOIA { return false; }
      log := log + [AddInlineDatum(size), AddDatumChunk(chunk)];
      stateData := DatumData(false, size - |chunk|);
      var advanced := AdvanceState();
      assert advanced;
      Record(before, InlineDatum(size, chunk));
      return true;
    }

    method HandleDatumChunk(chunk: seq<byte>) returns (ok: bool)
      requires Valid()
      modifies this
      ensures ok <==> Step(collateral, old(Current()), DatumChunk(chunk)).Some?
      ensures ok ==> Step(collateral, old(Current()), DatumChunk(chunk)) == Some(Current())
      ensures collateral == old(collateral)
      ensures ok ==> Valid() && events == old(events) + [DatumChunk(chunk)]
      ensures ok ==> log == old(log) + CallsFor(DatumChunk(chunk))
    {
      hide Run, KeyLess, TopAccepted, CallsForAll;
      ghost var before := Current();
      if state != DATUM_INLINE_CHUNKS || collateral { return false; }
      if |chunk| == 0 || |chunk| > MAX_CHUNK_SIZE || |chunk| > stateData.datumRemainingBytes { return false; }
      stateData := DatumData(false, stateData.datumRemainingBytes - |chunk|);
      log := log + [AddDatumChunk(chunk)];
      if stateData.datumRemainingBytes == 0 {
        var advanced := AdvanceState();
        assert advanced;
      }
      Record(before, DatumChunk(chunk));
      return true;
    }

    method HandleRefScript(size: uint32, chunk: seq<byte>) returns (ok: bool)
      requires Valid()
      modifies this
      ensures ok <==> Step(collateral, old(Current()), RefScript(size, chunk)).Some?
      ensures ok ==> Step(collateral, old(Current()), RefScript(size, chunk)) == Some(Current())
      ensures collateral == old(collateral)
      ensures ok ==> Valid() && events == old(events) + [RefScript(size, chunk)]
      ensures ok ==> log == old(log) + CallsFor(RefScript(size, chunk))
    {
      hide Run, KeyLess, TopAccepted, CallsForAll;
      ghost var before := Current();
      if state != REFERENCE_SCRIPT || collateral { return false; }
      if size == 0 || |chunk| == 0 || |chunk| > MAX_CHUNK_SIZE || |chunk| > size { return false; }
      log := log + [AddRefScript(size), AddRefScriptChunk(chunk)];
      if scriptShown && size >= UINT32_MAX { return false; }
      stateData := ScriptData(size - |chunk|);
      var advanced := AdvanceState();
      assert advanced;
      Record(before, RefScript(size, chunk));
      return true;
    }

    method HandleRefScriptChunk(chunk: seq<byte>) returns (ok: bool)
      requires Valid()
      modifies this
      ensures ok <==> Step(collateral, old(Current()), RefScriptChunk(chunk)).Some?
      ensures ok ==> Step(collateral, old(Current()), RefScriptChunk(chunk)) == Some(Current())
      ensures collateral == old(collateral)
      ensures ok ==> Valid() && events == old(events) + [RefScriptChunk(chunk)]
      ensures ok ==> log == old(log) + CallsFor(RefScriptChunk(chunk))
    {
      hide Run, KeyLess, TopAccepted, CallsForAll;
      ghost var before := Current();
      if state != REFERENCE_SCRIPT_CHUNKS || collateral { return false; }
      if |chunk| == 0 || |chunk| > MAX_CHUNK_SIZE { return false; }
      if stateData.refScriptRemainingBytes >= MAX_CHUNK_SIZE && |chunk| != MAX_CHUNK_SIZE { return false; }
      if |chunk| > stateData.refScriptRemainingBytes { return false; }
      stateData := ScriptData(stateData.refScriptRemainingBytes - |chunk|);
      log := log + [AddRefScriptChunk(chunk)];
      if stateData.refScriptRemainingBytes == 0 {
        var advanced := AdvanceState();
        assert advanced;
      }
      Record(before, RefScriptChunk(chunk));
      return true;
    }

    method HandleConfirm() returns (ok: bool)
      requires Valid()
      modifies this
      ensures ok <==> Step(collateral, old(Current()), ConfirmOutput).Some?
      ensures ok ==> Step(collateral, old(Current()), ConfirmOutput) == Some(Current())
      ensures collateral == old(collateral)
      ensures ok ==> Valid() && events == old(events) + [ConfirmOutput]
      ensures ok ==> log == old(log) + CallsFor(ConfirmOutput)
    {
      hide Run, KeyLess, TopAccepted, CallsForAll;
      ghost var before := Current();
      if state != CONFIRM { return false; }
      var advanced := AdvanceState();
      assert advanced;
      Record(before, ConfirmOutput);
      return true;
    }

    /** signTxOutput_handleAPDU and signTxCollateralOutput_handleAPDU with the parsed data of the request. */
    method HandleAPDU(e: OutputEvent) returns (ok: bool)
      requires Valid()
      modifies this
      ensures ok <==> Step(collateral, old(Current()), e).Some?
      ensures ok ==> Step(collateral, old(Current()), e) == Some(Current())
      ensures collateral == old(collateral)
      ensures ok ==> Valid() && events == old(events) + [e]
      ensures ok ==> log == old(log) + CallsFor(e)
    {
      hide Valid, TopAccepted, KeyLess;
      match e {
        case TopLevel(top, allowed) => ok := HandleTopLevelData(top, allowed);
        case Bundle(AssetGroup(id, n)) => ok := HandleAssetGroup(id, n);
        case Bundle(TokenAmount(name, amount)) => ok := HandleToken(name, amount);
        case HashedDatum(h) => ok := HandleDatumHash(h);
        case InlineDatum(n, c) => ok := HandleInlineDatum(n, c);
        case DatumChunk(c) => ok := HandleDatumChunk(c);
        case RefScript(n, c) => ok := HandleRefScript(n, c);
        case RefScriptChunk(c) => ok := HandleRefScriptChunk(c);
        case ConfirmOutput => ok := HandleConfirm();
      }
    }

    /** The calls of a finished sub-machine are the word of one well-formed output. */
    lemma FinishedOutput() returns (o: Output)
      requires Valid() && state == FINISHED
      ensures Received(collateral, events, o)
      ensures WellFormed(collateral, o) && WellFormed(false, o) && log == OutputCalls(o)
    {
      hide Run, Requests, OutputCalls, WellFormed, CallsForAll;
      FinishedRun(collateral, events);
      o :| Received(collateral, events, o);
      RequestsLog(o);
    }
  }

  const WEIGHT := 0x4_0000_0000

  /** How far an output is from its end: the phase, and within it the groups, tokens or bytes left. */
  function Left(s: State): (n: nat)
    ensures n <= 7 * WEIGHT
  {
    match (s.phase, s.data)
    case (TOP_LEVEL_DATA, _) => 7 * WEIGHT
    case (ASSET_GROUP, Tokens(p)) => 5 * WEIGHT + TokensLeft(s.numAssetGroups, p)
    case (TOKEN, Tokens(p)) => 5 * WEIGHT + TokensLeft(s.numAssetGroups, p)
    case (DATUM, _) => 4 * WEIGHT
    case (DATUM_INLINE_CHUNKS, DatumData(_, n)) => 3 * WEIGHT + if n < TWO_32 then n else 0
    case (REFERENCE_SCRIPT, _) => 2 * WEIGHT
    case (REFERENCE_SCRIPT_CHUNKS, ScriptData(n)) => WEIGHT + if n < TWO_32 then n else 0
    case (CONFIRM, _) => 1
    case _ => 0
  }

  lemma StepDecreases(collateral: bool, s: State, e: OutputEvent)
    requires Invariant(s) && Step(collateral, s, e).Some?
    ensures Left(Step(collateral, s, e).value) < Left(s)
  {
    hide KeyLess, TopAccepted, TokenBundle.Advance, TokensLeft;
    if e.Bundle? {
      AdvanceDecreases(s.numAssetGroups, s.data.progress, e.part);
    }
  }
}
