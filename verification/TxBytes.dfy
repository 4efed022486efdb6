/** The bytes that are hashed for a transaction body: the transaction hash builder lets the calls of every complete body
    through, and writes the CBOR of the body. */
module TxBytes {
  import opened Basics
  import opened Cbor
  import TokenBundle
  import M = TxMint
  import O = TxOutput
  import P = TxPool
  import opened TxBody
  import opened TxHashBuilder
  import opened TxItems
  import opened TxElementBytes
  import opened TxEntryBytes
  import opened TxOutputBytes
  import opened TxPoolBytes

  // ------------------------------------------------------------ the entries that hold lists

  lemma {:induction false} FlatLength<A>(items: A -> seq<Item>, xs: seq<A>, m: nat)
    requires forall i :: 0 <= i < |xs| ==> |items(xs[i])| == m
    ensures |Flat(items, xs)| == m * |xs|
  {
    if xs != [] {
      FlatLength(items, xs[..|xs| - 1], m);
    }
  }

  lemma ListValue(tagged: bool, items: seq<Item>, n: uint16)
    requires |items| == n
    ensures AllFit(items) ==> Encodes([ListItem(tagged, items)], SetTag(tagged) + Head(Array, n) + EncodeAll(items))
  {
    hide Head, Encode, EncodeAll, Fits, SetTag, ListItem;
    if AllFit(items) {
      ListItemEncoded(tagged, items);
      OneEncoded(ListItem(tagged, items));
    }
  }

  lemma MapValue(items: seq<Item>, n: uint16)
    requires |items| == 2 * n
    ensures AllFit(items) ==> Encodes([MapOf(items)], Head(Map, n) + EncodeAll(items))
  {
    hide Head, Encode, EncodeAll, Fits;
    if AllFit(items) {
      EncodeMap(items);
      OneEncoded(MapOf(items));
    }
  }

  lemma ListOpened(s: State, p: Params, e: nat, head: seq<byte>)
    requires 0 < e < ENTRIES && IsList(e) && e != IN_OUTPUTS && e != IN_CERTIFICATES
    requires At(s, p, e - 1) && Included(p, e)
    ensures EnterList(s, e, head).Some?
    ensures var u := EnterList(s, e, head).value;
            InList(u, e) && Agree(s, u) && u.hashed == s.hashed + (Head(Unsigned, Key(e)) + head)
  {
    hide Head, CanLeave, Remaining, Key;
    Glue(s.hashed + (Head(Unsigned, Key(e)) + head), s.hashed, Head(Unsigned, Key(e)), head);
  }

  lemma InputsEntry(s: State, f: Frame, b: Body)
    requires s == Initialized(f.params) && Matches(f.params, b)
    ensures EntryDone(s, f.params, IN_INPUTS, [EnterInputs(f.params.numInputs)] + Flat(InputWord, b.inputs),
                      [Uint(Key(IN_INPUTS))] + [ListItem(f.params.tagCborSets, Flat(InputItems, b.inputs))])
  {
    hide Run, EncodeAll, Encodes, Fits, ElementTaken, Flat, Head, SetTag, InputItems, InputBytes, ListItem, EntryDone;
    var p := f.params;
    var items := Flat(InputItems, b.inputs);
    var head := SetTag(p.tagCborSets) + Head(Array, p.numInputs);
    forall t: State, i | 0 <= i < |b.inputs|
      ensures ElementTaken(t, IN_INPUTS, InputWord(b.inputs[i]), InputItems(b.inputs[i]))
    {
      InputTaken(t, b.inputs[i]);
    }
    InputItemsLength(b.inputs);
    ListValue(p.tagCborSets, items, p.numInputs);
    InputsOpened(p);
    ListEntry(s, p, IN_INPUTS, EnterInputs(p.numInputs), head, InputWord, InputItems, b.inputs,
              [ListItem(p.tagCborSets, items)]);
  }

  lemma InputsOpened(p: Params)
    ensures var s, c := Initialized(p), EnterInputs(p.numInputs);
            var key, head := Head(Unsigned, Key(IN_INPUTS)), SetTag(p.tagCborSets) + Head(Array, p.numInputs);
            Expects(s, p, IN_INPUTS) && Step(s, c).Some?
            && InList(Step(s, c).value, IN_INPUTS) && Agree(s, Step(s, c).value)
            && Step(s, c).value.hashed == s.hashed + (key + head)
  {
    hide Head, SetTag, NumItems;
    Glue(Head(Unsigned, Key(IN_INPUTS)) + (SetTag(p.tagCborSets) + Head(Array, p.numInputs)),
         Head(Unsigned, Key(IN_INPUTS)), SetTag(p.tagCborSets), Head(Array, p.numInputs));
  }

  lemma InputTaken(s: State, i: Input)
    ensures ElementTaken(s, IN_INPUTS, InputWord(i), InputItems(i))
    ensures ElementTaken(s, IN_COLLATERAL_INPUTS, CollateralInputWord(i), InputItems(i))
    ensures ElementTaken(s, IN_REFERENCE_INPUTS, ReferenceInputWord(i), InputItems(i))
  {
    hide AddElement, Run, EncodeAll, Encodes, Fits, ElementTaken, InputItems, InputBytes;
    InputEncoded(i);
    SimpleElement(s, IN_INPUTS, AddInput(i), InputItems(i), InputBytes(i));
    SimpleElement(s, IN_COLLATERAL_INPUTS, AddCollateralInput(i), InputItems(i), InputBytes(i));
    SimpleElement(s, IN_REFERENCE_INPUTS, AddReferenceInput(i), InputItems(i), InputBytes(i));
  }

  lemma InputItemsLength(inputs: seq<Input>)
    ensures |Flat(InputItems, inputs)| == |inputs|
  {
    hide Flat;
    FlatLength(InputItems, inputs, 1);
  }

  /** An optional list of elements without a state of their own. */
  lemma SimpleListEntry<A>(s: State, p: Params, e: nat, c: Call, head: seq<byte>, word: A -> seq<Call>,
                           items: A -> seq<Item>, xs: seq<A>, value: Item)
    requires 0 < e < ENTRIES && IsList(e) && e != IN_OUTPUTS && e != IN_CERTIFICATES
    requires At(s, p, e - 1) && Included(p, e) && |xs| == Remaining(p, e) && Step(s, c) == EnterList(s, e, head)
    requires forall t: State, i :: 0 <= i < |xs| && t.tagCborSets == s.tagCborSets ==>
             ElementTaken(t, e, word(xs[i]), items(xs[i]))
    requires AllFit(Flat(items, xs)) ==> Encodes([value], head + EncodeAll(Flat(items, xs)))
    ensures EntryDone(s, p, e, [c] + Flat(word, xs), [Uint(Key(e))] + [value])
  {
    hide Run, EncodeAll, Encodes, Fits, ElementTaken, Flat, Head, EntryDone, Step, Remaining, CanLeave, Key;
    ListOpened(s, p, e, head);
    ListEntry(s, p, e, c, head, word, items, xs, [value]);
  }

  /** The calls that open optional lists, and how many elements are expected. */
  lemma ListCalls(s: State, p: Params)
    ensures Step(s, EnterWithdrawals(p.numWithdrawals))
         == EnterList(s, IN_WITHDRAWALS, Head(Map, s.left[IN_WITHDRAWALS]))
    ensures Step(s, EnterVotingProcedures(p.numVotingProcedures))
         == EnterList(s, IN_VOTING_PROCEDURES, Head(Map, s.left[IN_VOTING_PROCEDURES]))
    ensures Step(s, EnterRequiredSigners(p.numRequiredSigners))
         == EnterList(s, IN_REQUIRED_SIGNERS, SetTag(s.tagCborSets) + Head(Array, s.left[IN_REQUIRED_SIGNERS]))
    ensures Step(s, EnterCollateralInputs(p.numCollateralInputs))
         == EnterList(s, IN_COLLATERAL_INPUTS, SetTag(s.tagCborSets) + Head(Array, s.left[IN_COLLATERAL_INPUTS]))
    ensures Step(s, EnterReferenceInputs(p.numReferenceInputs))
         == EnterList(s, IN_REFERENCE_INPUTS, SetTag(s.tagCborSets) + Head(Array, s.left[IN_REFERENCE_INPUTS]))
    ensures Remaining(p, IN_WITHDRAWALS) == p.numWithdrawals
    ensures Remaining(p, IN_VOTING_PROCEDURES) == p.numVotingProcedures
    ensures Remaining(p, IN_REQUIRED_SIGNERS) == p.numRequiredSigners
    ensures Remaining(p, IN_COLLATERAL_INPUTS) == p.numCollateralInputs
    ensures Remaining(p, IN_REFERENCE_INPUTS) == p.numReferenceInputs
  {
    hide EnterList, Head, SetTag, Remaining;
    ListSizes(p);
  }

  lemma ListSizes(p: Params)
    ensures Remaining(p, IN_WITHDRAWALS) == p.numWithdrawals
    ensures Remaining(p, IN_VOTING_PROCEDURES) == p.numVotingProcedures
    ensures Remaining(p, IN_REQUIRED_SIGNERS) == p.numRequiredSigners
    ensures Remaining(p, IN_COLLATERAL_INPUTS) == p.numCollateralInputs
    ensures Remaining(p, IN_REFERENCE_INPUTS) == p.numReferenceInputs
  {
  }

  lemma WithdrawalsEntry(s: State, p: Params, ws: seq<Withdrawal>)
    requires At(s, p, IN_WITHDRAWALS - 1) && 0 < |ws| == p.numWithdrawals
    ensures EntryDone(s, p, IN_WITHDRAWALS, [EnterWithdrawals(p.numWithdrawals)] + Flat(WithdrawalWord, ws),
                      [Uint(Key(IN_WITHDRAWALS))] + [MapOf(Flat(WithdrawalItems, ws))])
  {
    hide Step, EnterList, Remaining, Run, EncodeAll, Encodes, Fits, ElementTaken, Flat, Head, EntryDone, CanLeave,
         Key, WithdrawalItems, WithdrawalBytes, AddElement;
    ListCalls(s, p);
    forall t: State, i | 0 <= i < |ws|
      ensures ElementTaken(t, IN_WITHDRAWALS, WithdrawalWord(ws[i]), WithdrawalItems(ws[i]))
    {
      WithdrawalTaken(t, ws[i]);
    }
    WithdrawalItemsLength(ws);
    MapValue(Flat(WithdrawalItems, ws), p.numWithdrawals);
    SimpleListEntry(s, p, IN_WITHDRAWALS, EnterWithdrawals(p.numWithdrawals), Head(Map, p.numWithdrawals),
                    WithdrawalWord, WithdrawalItems, ws, MapOf(Flat(WithdrawalItems, ws)));
  }

  lemma WithdrawalTaken(s: State, w: Withdrawal)
    ensures ElementTaken(s, IN_WITHDRAWALS, WithdrawalWord(w), WithdrawalItems(w))
  {
    hide AddElement, Run, EncodeAll, Encodes, Fits, ElementTaken, WithdrawalItems, WithdrawalBytes;
    WithdrawalEncoded(w);
    SimpleElement(s, IN_WITHDRAWALS, AddWithdrawal(w.account, w.amount), WithdrawalItems(w), WithdrawalBytes(w));
  }

  lemma WithdrawalItemsLength(ws: seq<Withdrawal>)
    ensures |Flat(WithdrawalItems, ws)| == 2 * |ws|
  {
    hide Flat;
    FlatLength(WithdrawalItems, ws, 2);
  }

  lemma VotingEntry(s: State, p: Params, vs: seq<VotingProcedure>)
    requires At(s, p, IN_VOTING_PROCEDURES - 1) && 0 < |vs| == p.numVotingProcedures
    ensures EntryDone(s, p, IN_VOTING_PROCEDURES, [EnterVotingProcedures(p.numVotingProcedures)] + Flat(VotingWord, vs),
                      [Uint(Key(IN_VOTING_PROCEDURES))] + [MapOf(Flat(VotingItems, vs))])
  {
    hide Step, EnterList, Remaining, Run, EncodeAll, Encodes, Fits, ElementTaken, Flat, Head, EntryDone, CanLeave,
         Key, VotingItems, VotingBytes, AddElement;
    ListCalls(s, p);
    forall t: State, i | 0 <= i < |vs|
      ensures ElementTaken(t, IN_VOTING_PROCEDURES, VotingWord(vs[i]), VotingItems(vs[i]))
    {
      VoteTaken(t, vs[i]);
    }
    VotingItemsLength(vs);
    MapValue(Flat(VotingItems, vs), p.numVotingProcedures);
    SimpleListEntry(s, p, IN_VOTING_PROCEDURES, EnterVotingProcedures(p.numVotingProcedures),
                    Head(Map, p.numVotingProcedures), VotingWord, VotingItems, vs, MapOf(Flat(VotingItems, vs)));
  }

  lemma VoteTaken(s: State, v: VotingProcedure)
    ensures ElementTaken(s, IN_VOTING_PROCEDURES, VotingWord(v), VotingItems(v))
  {
    hide AddElement, Run, EncodeAll, Encodes, Fits, ElementTaken, VotingItems, VotingBytes;
    VotingEncoded(v);
    SimpleElement(s, IN_VOTING_PROCEDURES, AddVotingProcedure(v), VotingItems(v), VotingBytes(v));
  }

  lemma VotingItemsLength(vs: seq<VotingProcedure>)
    ensures |Flat(VotingItems, vs)| == 2 * |vs|
  {
    hide Flat;
    FlatLength(VotingItems, vs, 2);
  }

  lemma SignersEntry(s: State, p: Params, hs: seq<KeyHash>)
    requires At(s, p, IN_REQUIRED_SIGNERS - 1) && 0 < |hs| == p.numRequiredSigners
    ensures EntryDone(s, p, IN_REQUIRED_SIGNERS, [EnterRequiredSigners(p.numRequiredSigners)] + Flat(SignerWord, hs),
                      [Uint(Key(IN_REQUIRED_SIGNERS))] + [ListItem(p.tagCborSets, Flat(SignerItems, hs))])
  {
    hide Step, EnterList, Remaining, Run, EncodeAll, Encodes, Fits, ElementTaken, Flat, Head, EntryDone, CanLeave,
         Key, SignerItems, BytesToken, AddElement, SetTag, ListItem;
    ListCalls(s, p);
    forall t: State, i | 0 <= i < |hs|
      ensures ElementTaken(t, IN_REQUIRED_SIGNERS, SignerWord(hs[i]), SignerItems(hs[i]))
    {
      SignerTaken(t, hs[i]);
    }
    SignerItemsLength(hs);
    ListValue(p.tagCborSets, Flat(SignerItems, hs), p.numRequiredSigners);
    SimpleListEntry(s, p, IN_REQUIRED_SIGNERS, EnterRequiredSigners(p.numRequiredSigners),
                    SetTag(p.tagCborSets) + Head(Array, p.numRequiredSigners), SignerWord, SignerItems, hs,
                    ListItem(p.tagCborSets, Flat(SignerItems, hs)));
  }

  lemma SignerTaken(s: State, h: KeyHash)
    ensures ElementTaken(s, IN_REQUIRED_SIGNERS, SignerWord(h), SignerItems(h))
  {
    hide AddElement, Run, EncodeAll, Encodes, Fits, ElementTaken, SignerItems, BytesToken;
    SignerEncoded(h);
    SimpleElement(s, IN_REQUIRED_SIGNERS, AddRequiredSigner(h), SignerItems(h), BytesToken(h));
  }

  lemma SignerItemsLength(hs: seq<KeyHash>)
    ensures |Flat(SignerItems, hs)| == |hs|
  {
    hide Flat;
    FlatLength(SignerItems, hs, 1);
  }

  lemma CollateralInputsEntry(s: State, p: Params, inputs: seq<Input>)
    requires At(s, p, IN_COLLATERAL_INPUTS - 1) && 0 < |inputs| == p.numCollateralInputs
    ensures EntryDone(s, p, IN_COLLATERAL_INPUTS,
                      [EnterCollateralInputs(p.numCollateralInputs)] + Flat(CollateralInputWord, inputs),
                      [Uint(Key(IN_COLLATERAL_INPUTS))] + [ListItem(p.tagCborSets, Flat(InputItems, inputs))])
  {
    hide Step, EnterList, Remaining, Run, EncodeAll, Encodes, Fits, ElementTaken, Flat, Head, EntryDone, CanLeave,
         Key, InputItems, AddElement, SetTag, ListItem;
    ListCalls(s, p);
    forall t: State, i | 0 <= i < |inputs|
      ensures ElementTaken(t, IN_COLLATERAL_INPUTS, CollateralInputWord(inputs[i]), InputItems(inputs[i]))
    {
      InputTaken(t, inputs[i]);
    }
    InputItemsLength(inputs);
    ListValue(p.tagCborSets, Flat(InputItems, inputs), p.numCollateralInputs);
    SimpleListEntry(s, p, IN_COLLATERAL_INPUTS, EnterCollateralInputs(p.numCollateralInputs),
                    SetTag(p.tagCborSets) + Head(Array, p.numCollateralInputs), CollateralInputWord, InputItems, inputs,
                    ListItem(p.tagCborSets, Flat(InputItems, inputs)));
  }

  lemma ReferenceInputsEntry(s: State, p: Params, inputs: seq<Input>)
    requires At(s, p, IN_REFERENCE_INPUTS - 1) && 0 < |inputs| == p.numReferenceInputs
    ensures EntryDone(s, p, IN_REFERENCE_INPUTS,
                      [EnterReferenceInputs(p.numReferenceInputs)] + Flat(ReferenceInputWord, inputs),
                      [Uint(Key(IN_REFERENCE_INPUTS))] + [ListItem(p.tagCborSets, Flat(InputItems, inputs))])
  {
    hide Step, EnterList, Remaining, Run, EncodeAll, Encodes, Fits, ElementTaken, Flat, Head, EntryDone, CanLeave,
         Key, InputItems, AddElement, SetTag, ListItem;
    ListCalls(s, p);
    forall t: State, i | 0 <= i < |inputs|
      ensures ElementTaken(t, IN_REFERENCE_INPUTS, ReferenceInputWord(inputs[i]), InputItems(inputs[i]))
    {
      InputTaken(t, inputs[i]);
    }
    InputItemsLength(inputs);
    ListValue(p.tagCborSets, Flat(InputItems, inputs), p.numReferenceInputs);
    SimpleListEntry(s, p, IN_REFERENCE_INPUTS, EnterReferenceInputs(p.numReferenceInputs),
                    SetTag(p.tagCborSets) + Head(Array, p.numReferenceInputs), ReferenceInputWord, InputItems, inputs,
                    ListItem(p.tagCborSets, Flat(InputItems, inputs)));
  }

  lemma OutputsEntry(s: State, p: Params, outputs: seq<O.Output>)
    requires At(s, p, IN_INPUTS) && |outputs| == p.numOutputs
    requires forall i :: 0 <= i < |outputs| ==> O.WellFormed(false, outputs[i])
    requires |Flat(OutputItems, outputs)| >= |outputs|
    ensures var all := Flat(OutputItems, outputs);
            EntryDone(s, p, IN_OUTPUTS, [EnterOutputs(p.numOutputs)] + Flat(OutputWord, outputs),
                      [Uint(Key(IN_OUTPUTS))] + ([Arr(all[..|outputs|])] + all[|outputs|..]))
  {
    hide Run, EncodeAll, Encodes, Fits, ElementTaken, Flat, Head, EntryDone, OutputItems, O.WellFormed, Step,
         CanLeave, OutputWord, Key;
    var all := Flat(OutputItems, outputs);
    forall t: State, i | 0 <= i < |outputs|
      ensures ElementTaken(t, IN_OUTPUTS, OutputWord(outputs[i]), OutputItems(outputs[i]))
    {
      OutputTaken(t, outputs[i]);
    }
    OutputsOpened(s, p);
    OutputsValue(all, p.numOutputs);
    ListEntry(s, p, IN_OUTPUTS, EnterOutputs(p.numOutputs), Head(Array, p.numOutputs), OutputWord, OutputItems, outputs,
              [Arr(all[..|outputs|])] + all[|outputs|..]);
  }

  lemma OutputsValue(all: seq<Item>, n: uint16)
    requires n <= |all|
    ensures AllFit(all) ==> Encodes([Arr(all[..n])] + all[n..], Head(Array, n) + EncodeAll(all))
  {
    hide Head, Encode, EncodeAll, Fits;
    if AllFit(all) {
      EncodeArr(all[..n]);
      FitsArr(all[..n]);
      OneEncoded(Arr(all[..n]));
      Joined([Arr(all[..n])], Encode(Arr(all[..n])), all[n..]);
      EncodeAllAppend(all[..n], all[n..]);
      assert all == all[..n] + all[n..];
      Glue(Head(Array, n) + EncodeAll(all), Head(Array, n), EncodeAll(all[..n]), EncodeAll(all[n..]));
    }
  }

  lemma OutputsOpened(s: State, p: Params)
    requires At(s, p, IN_INPUTS)
    ensures Expects(s, p, IN_OUTPUTS)
    ensures var r := Step(s, EnterOutputs(p.numOutputs));
            && r.Some? && InList(r.value, IN_OUTPUTS) && Agree(s, r.value)
            && r.value.hashed == s.hashed + (Head(Unsigned, Key(IN_OUTPUTS)) + Head(Array, p.numOutputs))
  {
    hide Head, CanLeave;
    Glue(s.hashed + (Head(Unsigned, Key(IN_OUTPUTS)) + Head(Array, p.numOutputs)), s.hashed,
         Head(Unsigned, Key(IN_OUTPUTS)), Head(Array, p.numOutputs));
  }

  lemma PlainTaken(s: State, f: Frame, c: PlainCertificate)
    ensures ElementTaken(s, IN_CERTIFICATES, CertificateWord(f.Env(), Plain(c)), CertificateItems(f, Plain(c)))
  {
    hide AddElement, Run, EncodeAll, Encodes, Fits, ElementTaken, PlainCertificateFields, PlainCertificateBytes;
    PlainCertificateEncoded(c);
    SimpleElement(s, IN_CERTIFICATES, AddCertificate(c), [Arr(PlainCertificateFields(c))], PlainCertificateBytes(c));
  }

  lemma CertificateTaken(s: State, f: Frame, c: Certificate)
    requires CertificateAccepted(f.params.Setting(), c) && s.tagCborSets == f.params.tagCborSets
    ensures ElementTaken(s, IN_CERTIFICATES, CertificateWord(f.Env(), c), CertificateItems(f, c))
  {
    hide ElementTaken, CertificateWord, CertificateItems, P.WellFormed;
    match c {
      case Plain(x) => PlainTaken(s, f, x);
      case Pool(x) => PoolTaken(s, f, x);
    }
  }

  lemma {:induction false} CertificatesItemsFlat(f: Frame, items: Certificate -> seq<Item>, cs: seq<Certificate>)
    requires forall c :: items(c) == CertificateItems(f, c)
    ensures CertificatesItems(f, cs) == Flat(items, cs)
  {
    hide CertificateItems;
    if cs != [] {
      CertificatesItemsFlat(f, items, cs[..|cs| - 1]);
    }
  }

  lemma CertificatesEntry(s: State, f: Frame, cs: seq<Certificate>)
    requires At(s, f.params, IN_CERTIFICATES - 1) && 0 < |cs| == f.params.numCertificates
    requires forall i :: 0 <= i < |cs| ==> CertificateAccepted(f.params.Setting(), cs[i])
    ensures EntryDone(s, f.params, IN_CERTIFICATES,
                      [EnterCertificates(f.params.numCertificates)] + CertificatesWord(f.Env(), cs),
                      [Uint(Key(IN_CERTIFICATES))] + [ListItem(f.params.tagCborSets, CertificatesItems(f, cs))])
  {
    hide Run, EncodeAll, Encodes, Fits, ElementTaken, Flat, Head, EntryDone, CanLeave, Key, SetTag, ListItem, Step,
         CertificateItems, CertificateWord, CertificateAccepted;
    var p := f.params;
    var word := (c: Certificate) => CertificateWord(f.Env(), c);
    var items := (c: Certificate) => CertificateItems(f, c);
    CertificatesFlat(f.Env(), word, cs);
    CertificatesItemsFlat(f, items, cs);
    forall t: State, i | 0 <= i < |cs| && t.tagCborSets == s.tagCborSets
      ensures ElementTaken(t, IN_CERTIFICATES, word(cs[i]), items(cs[i]))
    {
      CertificateTaken(t, f, cs[i]);
    }
    forall i | 0 <= i < |cs| ensures |items(cs[i])| == 1 {
      OneCertificate(f, cs[i]);
    }
    FlatLength(items, cs, 1);
    var head, value := SetTag(p.tagCborSets) + Head(Array, p.numCertificates), ListItem(p.tagCborSets, Flat(items, cs));
    ListValue(p.tagCborSets, Flat(items, cs), p.numCertificates);
    CertificatesOpened(s, p);
    ListEntry(s, p, IN_CERTIFICATES, EnterCertificates(p.numCertificates), head, word, items, cs, [value]);
  }

  lemma OneCertificate(f: Frame, c: Certificate)
    requires CertificateAccepted(f.params.Setting(), c)
    ensures |CertificateItems(f, c)| == 1
  {
    hide PlainCertificateFields, PoolFields, P.RelayAccepted, P.OwnersAccepted;
  }

  lemma CertificatesOpened(s: State, p: Params)
    requires At(s, p, IN_CERTIFICATES - 1) && p.numCertificates > 0
    ensures Expects(s, p, IN_CERTIFICATES)
    ensures var r := Step(s, EnterCertificates(p.numCertificates));
            var head := SetTag(p.tagCborSets) + Head(Array, p.numCertificates);
            && r.Some? && InList(r.value, IN_CERTIFICATES) && Agree(s, r.value)
            && r.value.hashed == s.hashed + (Head(Unsigned, Key(IN_CERTIFICATES)) + head)
  {
    hide Head, CanLeave, SetTag;
    var head := SetTag(p.tagCborSets) + Head(Array, p.numCertificates);
    assert s.left[IN_CERTIFICATES] == Remaining(p, IN_CERTIFICATES);
    var key := Head(Unsigned, Key(IN_CERTIFICATES));
    Glue(s.hashed + (key + head), s.hashed, key, head);
  }

  // ------------------------------------------------------------ whole bodies

  /** The word of an entry. */
  function EntryWord(f: Frame, b: Body, e: nat): seq<Call>
    requires e < ENTRIES
  {
    if e == IN_AUX_DATA then SectionStart(f, VALIDITY_INTERVAL)
    else if e == IN_VALIDITY_INTERVAL_START then SectionItems(f, b, VALIDITY_INTERVAL)
    else if e == IN_NETWORK_ID then SectionStart(f, COLLATERAL_OUTPUT)
    else if e == IN_COLLATERAL_OUTPUT then SectionItems(f, b, COLLATERAL_OUTPUT)
    else SectionStart(f, SectionOf(e)) + SectionItems(f, b, SectionOf(e))
  }

  /** The section that an entry belongs to. */
  function SectionOf(e: nat): nat
    requires e < ENTRIES
  {
    if e <= IN_WITHDRAWALS then e else if e < IN_NETWORK_ID then e - 1 else if e == IN_NETWORK_ID then COLLATERAL_OUTPUT
    else e - 2
  }

  function WordUpTo(f: Frame, b: Body, e: nat): seq<Call>
    requires e < ENTRIES
  {
    (if e == 0 then [] else WordUpTo(f, b, e - 1)) + EntryWord(f, b, e)
  }

  lemma NumberEntry(s: State, p: Params, e: nat, c: Call, n: uint64)
    requires 0 < e < ENTRIES && At(s, p, e - 1) && Included(p, e)
    requires !IsList(e) && e != IN_COLLATERAL_OUTPUT && e != IN_MINT
    requires Step(s, c) == AddValue(s, e, Head(Unsigned, n))
    ensures EntryDone(s, p, e, [c], [Uint(Key(e))] + [Uint(n)]) && [] + [c] == [c]
  {
    hide Step, AddValue, Fits, Encode, EncodeAll, Head, EntryDone, At, Included, IsList, Key;
    NumberEncoded(n);
    OneEncoded(Uint(n));
    ValueEntry(s, p, e, c, Uint(n), Head(Unsigned, n));
  }

  lemma HashEntry(s: State, p: Params, e: nat, c: Call, h: Hash32)
    requires 0 < e < ENTRIES && At(s, p, e - 1) && Included(p, e)
    requires !IsList(e) && e != IN_COLLATERAL_OUTPUT && e != IN_MINT
    requires Step(s, c) == AddValue(s, e, BytesToken(h))
    ensures EntryDone(s, p, e, [c], [Uint(Key(e))] + [Bstr(h)]) && [] + [c] == [c]
  {
    hide Step, AddValue, Fits, Encode, EncodeAll, BytesToken, EntryDone, At, Included, IsList, Key;
    BytesEncoded(h);
    OneEncoded(Bstr(h));
    ValueEntry(s, p, e, c, Bstr(h), BytesToken(h));
  }

  /** One entry after the other. */
  lemma EntryTaken(s: State, f: Frame, b: Body, e: nat)
    requires 0 < e < ENTRIES && Whole(f, b) && At(s, f.params, e - 1)
    ensures EntryDone(s, f.params, e, EntryWord(f, b, e), EntryItems(f, b, e))
  {
    hide EntryDone, At, ValueItems, EntryWord, WellFormed, EntryItems, Included;
    if !Included(f.params, e) {
      NothingThere(f, b, e);
      PassedOver(s, f.params, e);
    } else if e <= IN_TTL {
      FirstEntries(s, f, b, e);
    } else if e <= IN_WITHDRAWALS {
      CertificateEntries(s, f, b, e);
    } else if e <= IN_MINT {
      MintEntries(s, f, b, e);
    } else if e <= IN_REQUIRED_SIGNERS {
      ScriptEntries(s, f, b, e);
    } else if e <= IN_TOTAL_COLLATERAL {
      CollateralEntries(s, f, b, e);
    } else if e <= IN_VOTING_PROCEDURES {
      ReferenceEntries(s, f, b, e);
    } else {
      TreasuryEntries(s, f, b, e);
    }
  }

  lemma FirstEntries(s: State, f: Frame, b: Body, e: nat)
    requires IN_OUTPUTS <= e <= IN_TTL && Included(f.params, e)
    requires Whole(f, b) && At(s, f.params, e - 1)
    ensures EntryDone(s, f.params, e, EntryWord(f, b, e), EntryItems(f, b, e))
  {
    hide EntryDone, At, AddValue, O.WellFormed, M.WellFormed, TokenBundle.Ascending, CertificateAccepted, Flat,
         CertificatesWord, CertificatesItems, ListItem, Key, OutputItems;
    var p := f.params;
    if e == IN_OUTPUTS {
      OutputItemsLength(b.outputs);
      OutputsEntry(s, p, b.outputs);
    } else if e == IN_FEE {
      NumberEntry(s, p, e, AddFee(b.fee.value), b.fee.value);
    } else {
      NumberEntry(s, p, e, AddTtl(b.ttl.value), b.ttl.value);
    }
  }

  lemma CertificateEntries(s: State, f: Frame, b: Body, e: nat)
    requires IN_CERTIFICATES <= e <= IN_WITHDRAWALS && Included(f.params, e)
    requires Whole(f, b) && At(s, f.params, e - 1)
    ensures EntryDone(s, f.params, e, EntryWord(f, b, e), EntryItems(f, b, e))
  {
    hide EntryDone, At, AddValue, O.WellFormed, M.WellFormed, TokenBundle.Ascending, CertificateAccepted, Flat,
         CertificatesWord, CertificatesItems, ListItem, Key;
    var p := f.params;
    if e == IN_CERTIFICATES {
      CertificatesEntry(s, f, b.certificates);
    } else {
      WithdrawalsEntry(s, p, b.withdrawals);
    }
  }

  lemma MintEntries(s: State, f: Frame, b: Body, e: nat)
    requires IN_AUX_DATA <= e <= IN_MINT && Included(f.params, e)
    requires Whole(f, b) && At(s, f.params, e - 1)
    ensures EntryDone(s, f.params, e, EntryWord(f, b, e), EntryItems(f, b, e))
  {
    hide EntryDone, At, AddValue, O.WellFormed, M.WellFormed, TokenBundle.Ascending, CertificateAccepted, Flat,
         CertificatesWord, CertificatesItems, ListItem, Key, GroupEntries, MintWord;
    var p := f.params;
    if e == IN_AUX_DATA {
      HashEntry(s, p, e, AddAuxData(f.auxDataHash), f.auxDataHash);
    } else if e == IN_VALIDITY_INTERVAL_START {
      NumberEntry(s, p, e, AddValidityIntervalStart(b.validityIntervalStart.value), b.validityIntervalStart.value);
    } else {
      MintEntry(s, p, b.mint.value);
    }
  }

  lemma ScriptEntries(s: State, f: Frame, b: Body, e: nat)
    requires IN_SCRIPT_DATA_HASH <= e <= IN_REQUIRED_SIGNERS && Included(f.params, e)
    requires Whole(f, b) && At(s, f.params, e - 1)
    ensures EntryDone(s, f.params, e, EntryWord(f, b, e), EntryItems(f, b, e))
  {
    hide EntryDone, At, AddValue, O.WellFormed, M.WellFormed, TokenBundle.Ascending, CertificateAccepted, Flat,
         CertificatesWord, CertificatesItems, ListItem, Key;
    var p := f.params;
    if e == IN_SCRIPT_DATA_HASH {
      HashEntry(s, p, e, AddScriptDataHash(b.scriptDataHash.value), b.scriptDataHash.value);
    } else if e == IN_COLLATERAL_INPUTS {
      CollateralInputsEntry(s, p, b.collateralInputs);
    } else {
      SignersEntry(s, p, b.requiredSigners);
    }
  }

  lemma CollateralEntries(s: State, f: Frame, b: Body, e: nat)
    requires IN_NETWORK_ID <= e <= IN_TOTAL_COLLATERAL && Included(f.params, e)
    requires Whole(f, b) && At(s, f.params, e - 1)
    ensures EntryDone(s, f.params, e, EntryWord(f, b, e), EntryItems(f, b, e))
  {
    hide EntryDone, At, AddValue, O.WellFormed, M.WellFormed, TokenBundle.Ascending, CertificateAccepted, Flat,
         CertificatesWord, CertificatesItems, ListItem, Key, OutputItem, CollateralOutputWord;
    var p := f.params;
    if e == IN_NETWORK_ID {
      NumberEntry(s, p, e, AddNetworkId(p.networkId), p.networkId);
    } else if e == IN_COLLATERAL_OUTPUT {
      CollateralEntry(s, p, b.collateralOutput.value);
    } else {
      NumberEntry(s, p, e, AddTotalCollateral(b.totalCollateral.value), b.totalCollateral.value);
    }
  }

  lemma ReferenceEntries(s: State, f: Frame, b: Body, e: nat)
    requires IN_REFERENCE_INPUTS <= e <= IN_VOTING_PROCEDURES && Included(f.params, e)
    requires Whole(f, b) && At(s, f.params, e - 1)
    ensures EntryDone(s, f.params, e, EntryWord(f, b, e), EntryItems(f, b, e))
  {
    hide EntryDone, At, AddValue, O.WellFormed, M.WellFormed, TokenBundle.Ascending, CertificateAccepted, Flat,
         CertificatesWord, CertificatesItems, ListItem, Key;
    var p := f.params;
    if e == IN_REFERENCE_INPUTS {
      ReferenceInputsEntry(s, p, b.referenceInputs);
    } else {
      VotingEntry(s, p, b.votingProcedures);
    }
  }

  lemma TreasuryEntries(s: State, f: Frame, b: Body, e: nat)
    requires IN_TREASURY <= e <= IN_DONATION && Included(f.params, e)
    requires Whole(f, b) && At(s, f.params, e - 1)
    ensures EntryDone(s, f.params, e, EntryWord(f, b, e), EntryItems(f, b, e))
  {
    hide EntryDone, At, AddValue, O.WellFormed, M.WellFormed, TokenBundle.Ascending, CertificateAccepted, Flat,
         CertificatesWord, CertificatesItems, ListItem, Key;
    var p := f.params;
    if e == IN_TREASURY {
      NumberEntry(s, p, e, AddTreasury(b.treasury.value), b.treasury.value);
    } else {
      NumberEntry(s, p, e, AddDonation(b.donation.value), b.donation.value);
    }
  }

  /** An entry that is not expected has no word and no items. */
  lemma NothingThere(f: Frame, b: Body, e: nat)
    requires Matches(f.params, b) && e < ENTRIES && !Included(f.params, e)
    ensures EntryWord(f, b, e) == [] && EntryItems(f, b, e) == []
  {
    hide ValueItems, OutputWord, CertificateWord;
  }

  /** All entries up to one. */
  lemma {:induction false} EntriesTaken(f: Frame, b: Body, e: nat)
    requires e < ENTRIES && Whole(f, b)
    ensures EntryDone(Initialized(f.params), f.params, e, WordUpTo(f, b, e), ItemsUpTo(f, b, e))
  {
    hide EntryItems, EntryWord, At, Fits, EncodeAll, Run, Step;
    var s := Initialized(f.params);
    if e == 0 {
      FirstEntry(f, b);
      assert [] + EntryWord(f, b, 0) == EntryWord(f, b, 0) && [] + EntryItems(f, b, 0) == EntryItems(f, b, 0);
    } else {
      EntriesTaken(f, b, e - 1);
      var t := Run(s, WordUpTo(f, b, e - 1)).value;
      EntryTaken(t, f, b, e);
      RunAppend(s, WordUpTo(f, b, e - 1), EntryWord(f, b, e));
      EncodeAllAppend(ItemsUpTo(f, b, e - 1), EntryItems(f, b, e));
      Glue(s.hashed + EncodeAll(ItemsUpTo(f, b, e)), s.hashed, EncodeAll(ItemsUpTo(f, b, e - 1)),
           EncodeAll(EntryItems(f, b, e)));
    }
  }

  lemma FirstEntry(f: Frame, b: Body)
    requires Whole(f, b)
    ensures EntryDone(Initialized(f.params), f.params, 0, EntryWord(f, b, 0), EntryItems(f, b, 0))
  {
    hide EntryDone, WellFormed, Flat, ListItem, Key, Initialized;
    InputsEntry(Initialized(f.params), f, b);
  }

  /** The last entry of a section. */
  function EntryOf(k: nat): nat {
    if k <= WITHDRAWALS then k else if k <= REQUIRED_SIGNERS then k + 1 else k + 2
  }

  /** Section after section is entry after entry. */
  lemma {:induction false} SectionsAreEntries(f: Frame, b: Body, k: nat)
    requires k < END
    ensures LogUpTo(f, b, k) == [InitBuilder(f.params)] + WordUpTo(f, b, EntryOf(k))
  {
    hide SectionStart, SectionItems;
    var first := [InitBuilder(f.params)];
    if k == 0 {
      Glue(LogUpTo(f, b, 0), first, SectionStart(f, 0), SectionItems(f, b, 0));
      assert [] + EntryWord(f, b, 0) == EntryWord(f, b, 0);
    } else {
      SectionsAreEntries(f, b, k - 1);
      var before, start, items := WordUpTo(f, b, EntryOf(k - 1)), SectionStart(f, k), SectionItems(f, b, k);
      Glue(LogUpTo(f, b, k), first + before, start, items);
      Glue(LogUpTo(f, b, k), first, before, start + items);
      Glue(before + (start + items), before, start, items);
    }
  }

  function CountUpTo(p: Params, e: nat): nat {
    (if e == 0 then 0 else CountUpTo(p, e - 1)) + One(Included(p, e))
  }

  lemma CountNext(p: Params, e: nat)
    ensures CountUpTo(p, 0) == 1
    ensures CountUpTo(p, e + 1) == CountUpTo(p, e) + One(Included(p, e + 1))
  {
    hide Remaining;
  }

  lemma CountedFirst(p: Params)
    ensures CountUpTo(p, IN_MINT)
         == 3 + One(p.includeTtl) + One(p.numCertificates > 0) + One(p.numWithdrawals > 0) + One(p.includeAuxData)
          + One(p.includeValidityIntervalStart) + One(p.includeMint)
  {
    hide CountUpTo;
    CountNext(p, IN_INPUTS);
    CountNext(p, IN_OUTPUTS);
    CountNext(p, IN_FEE);
    CountNext(p, IN_TTL);
    CountNext(p, IN_CERTIFICATES);
    CountNext(p, IN_WITHDRAWALS);
    CountNext(p, IN_AUX_DATA);
    CountNext(p, IN_VALIDITY_INTERVAL_START);
  }

  lemma CountedMiddle(p: Params)
    ensures CountUpTo(p, IN_COLLATERAL_OUTPUT)
         == CountUpTo(p, IN_MINT) + One(p.includeScriptDataHash) + One(p.numCollateralInputs > 0)
          + One(p.numRequiredSigners > 0) + One(p.includeNetworkId) + One(p.includeCollateralOutput)
  {
    hide CountUpTo;
    CountNext(p, IN_MINT);
    CountNext(p, IN_SCRIPT_DATA_HASH);
    CountNext(p, IN_COLLATERAL_INPUTS);
    CountNext(p, IN_REQUIRED_SIGNERS);
    CountNext(p, IN_NETWORK_ID);
  }

  /** As many entries are written as the head of the map says. */
  lemma Counted(p: Params)
    ensures CountUpTo(p, IN_DONATION) == NumItems(p)
  {
    hide CountUpTo;
    CountedFirst(p);
    CountedMiddle(p);
    CountNext(p, IN_COLLATERAL_OUTPUT);
    CountNext(p, IN_TOTAL_COLLATERAL);
    CountNext(p, IN_REFERENCE_INPUTS);
    CountNext(p, IN_VOTING_PROCEDURES);
    CountNext(p, IN_TREASURY);
  }

  lemma EntryItemsLength(f: Frame, b: Body, e: nat)
    requires Matches(f.params, b) && e < ENTRIES
    ensures |EntryItems(f, b, e)|
         == 2 * One(Included(f.params, e)) + if e == IN_OUTPUTS then 2 * Strays(b.outputs) else 0
  {
    hide Flat, ListItem, OutputItem, OutputItems, GroupEntries, CertificatesItems, Key, Remaining;
    if e == IN_OUTPUTS {
      OutputItemsLength(b.outputs);
    }
  }

  lemma {:induction false} ItemsLength(f: Frame, b: Body, e: nat)
    requires Matches(f.params, b) && e < ENTRIES
    ensures |ItemsUpTo(f, b, e)|
         == 2 * CountUpTo(f.params, e) + if e >= IN_OUTPUTS then 2 * Strays(b.outputs) else 0
  {
    hide EntryItems, Included;
    EntryItemsLength(f, b, e);
    if e > 0 {
      ItemsLength(f, b, e - 1);
    }
  }

  /** The transaction hash builder lets the word of every whole body through to its end, from any state, and hashes the
      head of a map with the number of its entries, followed by the data items of the body: a key and a value for each
      entry, and two more for each legacy output with a reference script. */
  lemma BodyBytes(s: State, f: Frame, b: Body)
    requires Whole(f, b)
    ensures Run(s, BodyWord(f, b)).Some? && CanFinalize(Run(s, BodyWord(f, b)).value)
    ensures AllFit(BodyItems(f, b)) && |BodyItems(f, b)| == 2 * NumItems(f.params) + 2 * Strays(b.outputs)
    ensures Run(s, BodyWord(f, b)).value.hashed == Head(Map, NumItems(f.params)) + EncodeAll(BodyItems(f, b))
  {
    hide Run, Step, Fits, EncodeAll, LogUpTo, WordUpTo, ItemsUpTo, CanLeave, NumItems, Head;
    var p := f.params;
    EntriesTaken(f, b, IN_DONATION);
    SectionsAreEntries(f, b, DONATION);
    NoMoreSections(f, b);
    RunOne(s, InitBuilder(p));
    BuilderInitialized(s, p);
    RunAppend(s, [InitBuilder(p)], WordUpTo(f, b, IN_DONATION));
    Counted(p);
    ItemsLength(f, b, IN_DONATION);
  }

  lemma NoMoreSections(f: Frame, b: Body)
    ensures BodyWord(f, b) == LogUpTo(f, b, DONATION)
  {
    assert SectionStart(f, END) == [] && SectionItems(f, b, END) == [];
  }

  lemma BuilderInitialized(s: State, p: Params)
    ensures Step(s, InitBuilder(p)) == Some(Initialized(p))
  {
  }

  // ------------------------------------------------------------ what is hashed

  /** The bytes that are hashed for a whole body are the encoding of some data item if and only if none of its outputs
      is a legacy output with a reference script, and then they are the encoding of the map of the body. */
  lemma HashedItem(f: Frame, b: Body)
    requires Whole(f, b)
    ensures (exists i :: Fits(i) && Encode(i) == HashedBytes(BodyWord(f, b)))
            <==> forall k :: 0 <= k < |b.outputs| ==> !IsStray(b.outputs[k])
    ensures (forall k :: 0 <= k < |b.outputs| ==> !IsStray(b.outputs[k])) ==>
            Fits(BodyItem(f, b)) && HashedBytes(BodyWord(f, b)) == Encode(BodyItem(f, b))
  {
    hide Run, Fits, Encode, EncodeAll, BodyItems, BodyWord, CanFinalize, NumItems, WellFormed, Matches, IsStray,
         Strays;
    BodyBytes(BLANK, f, b);
    NoStrays(b.outputs);
    var items, n := BodyItems(f, b), NumItems(f.params);
    EncodeMap(items[..2 * n]);
    if Strays(b.outputs) == 0 {
      assert items[..2 * n] == items;
    } else {
      var rest := items[2 * n..];
      EncodeAllAppend(items[..2 * n], rest);
      assert items == items[..2 * n] + rest;
      Glue(HashedBytes(BodyWord(f, b)), Head(Map, n), EncodeAll(items[..2 * n]), EncodeAll(rest));
      SomethingEncoded(rest);
      forall i | Fits(i) ensures Encode(i) != HashedBytes(BodyWord(f, b)) {
        if Encode(i) == HashedBytes(BodyWord(f, b)) {
          assert Encode(i) + [] == Encode(MapOf(items[..2 * n])) + EncodeAll(rest);
          EncodeInjective(i, MapOf(items[..2 * n]), [], EncodeAll(rest));
        }
      }
    }
  }

  lemma SomethingEncoded(items: seq<Item>)
    requires AllFit(items) && items != []
    ensures EncodeAll(items) != []
  {
    hide Encode;
    assert EncodeAll(items) == Encode(items[0]) + EncodeAll(items[1..]);
  }

  lemma {:induction false} NoStrays(outputs: seq<O.Output>)
    ensures Strays(outputs) == 0 <==> forall k :: 0 <= k < |outputs| ==> !IsStray(outputs[k])
  {
    hide IsStray;
    if outputs != [] {
      var n := |outputs| - 1;
      NoStrays(outputs[..n]);
      assert forall k :: 0 <= k < n ==> outputs[..n][k] == outputs[k];
    }
  }
}
