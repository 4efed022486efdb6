/** The bytes that are hashed for a transaction tell the content of its body: an independent reader finds it in them. */
module TxContent {
  import opened Basics
  import opened Cbor
  import Bip44
  import TokenBundle
  import M = TxMint
  import O = TxOutput
  import P = TxPool
  import opened TxBody
  import opened TxHashBuilder
  import opened TxItems
  import opened TxReader
  import TxUnique
  import TxBytes

  // ------------------------------------------------------------ the content of a body

  /** Chunks are hashed one after the other. */
  function OneChunk(chunks: seq<seq<byte>>): seq<seq<byte>> {
    [Concat(chunks)]
  }

  /** Amounts of outputs are written as 64-bit numbers without a sign. */
  function UnsignedTokens(tokens: seq<TokenBundle.Token>): (s: seq<TokenBundle.Token>)
    ensures |s| == |tokens|
  {
    if tokens == [] then []
    else [tokens[0].(amount := UnsignedAmount(tokens[0].amount))] + UnsignedTokens(tokens[1..])
  }

  function UnsignedGroups(groups: seq<TokenBundle.Group>): (s: seq<TokenBundle.Group>)
    ensures |s| == |groups|
  {
    if groups == [] then [] else [groups[0].(tokens := UnsignedTokens(groups[0].tokens))] + UnsignedGroups(groups[1..])
  }

  function DatumContent(d: Option<O.Datum>): Option<O.Datum> {
    if d.Some? && d.value.Inline? then Some(O.Inline(OneChunk(d.value.chunks))) else d
  }

  function ScriptContent(s: Option<seq<seq<byte>>>): Option<seq<seq<byte>>> {
    if s.Some? then Some(OneChunk(s.value)) else None
  }

  /** An output without what its bytes do not tell: how its address was given, what was shown, and how its datum and
      reference script were cut into chunks. */
  function OutputContent(o: O.Output): O.Output {
    TxUnique.Addressed(o).(
      groups := UnsignedGroups(o.groups), datum := DatumContent(o.datum), script := ScriptContent(o.script))
  }

  function OutputContents(outputs: seq<O.Output>): (s: seq<O.Output>)
    ensures |s| == |outputs| && forall i :: 0 <= i < |s| ==> s[i] == OutputContent(outputs[i])
  {
    if outputs == [] then [] else [OutputContent(outputs[0])] + OutputContents(outputs[1..])
  }

  /** A body without what its bytes do not tell. */
  function Content(env: P.Env, b: Body): Body {
    TxUnique.Known(env, b).(
      outputs := OutputContents(b.outputs),
      collateralOutput := if b.collateralOutput.Some? then Some(OutputContent(b.collateralOutput.value)) else None)
  }

  /** No output writes more than its data item. */
  predicate Encodable(b: Body) {
    forall k :: 0 <= k < |b.outputs| ==> !IsStray(b.outputs[k])
  }

  // ------------------------------------------------------------ entries

  function ItemsFrom(f: Frame, b: Body, e: nat): seq<Item>
    requires Matches(f.params, b)
    decreases ENTRIES - e
  {
    if e >= ENTRIES then [] else EntryItems(f, b, e) + ItemsFrom(f, b, e + 1)
  }

  lemma {:induction false} ItemsSplit(f: Frame, b: Body, e: nat)
    requires Matches(f.params, b) && e < ENTRIES
    ensures BodyItems(f, b) == ItemsUpTo(f, b, e) + ItemsFrom(f, b, e + 1)
    decreases ENTRIES - e
  {
    hide EntryItems, Matches;
    if e < IN_DONATION {
      ItemsSplit(f, b, e + 1);
      Glue(BodyItems(f, b), ItemsUpTo(f, b, e), EntryItems(f, b, e + 1), ItemsFrom(f, b, e + 2));
    }
  }

  lemma AllItems(f: Frame, b: Body)
    requires Matches(f.params, b)
    ensures BodyItems(f, b) == ItemsFrom(f, b, 0)
  {
    hide EntryItems, Matches;
    ItemsSplit(f, b, 0);
    assert ItemsUpTo(f, b, 0) == [] + EntryItems(f, b, 0);
  }

  /** The value of an entry, if it is there. */
  function Value(f: Frame, b: Body, e: nat): Option<Item>
    requires Whole(f, b) && Encodable(b) && e < ENTRIES
  {
    if !Included(f.params, e) then None
    else
      OneValue(f, b, e);
      Some(ValueItems(f, b, e)[0])
  }

  lemma OneValue(f: Frame, b: Body, e: nat)
    requires Matches(f.params, b) && Encodable(b) && Included(f.params, e)
    ensures |ValueItems(f, b, e)| == 1
  {
    hide Flat, ListItem, OutputItem, OutputItems, GroupEntries, CertificatesItems, Remaining, IsStray;
    if e == IN_OUTPUTS {
      OutputItemsLength(b.outputs);
      TxBytes.NoStrays(b.outputs);
    }
  }

  lemma EntryOfValue(f: Frame, b: Body, e: nat)
    requires Whole(f, b) && Encodable(b) && e < ENTRIES
    ensures EntryItems(f, b, e) == match Value(f, b, e) case None => [] case Some(v) => [Uint(Key(e)), v]
  {
    hide ValueItems, Included, Key, WellFormed, Matches;
    if Included(f.params, e) {
      OneValue(f, b, e);
      assert ValueItems(f, b, e) == [ValueItems(f, b, e)[0]];
    }
  }

  /** The keys are in ascending order. */
  lemma {:induction false} FirstKey(f: Frame, b: Body, e: nat)
    requires Whole(f, b) && Encodable(b)
    ensures var s := ItemsFrom(f, b, e); s == [] || (s[0].Uint? && e < ENTRIES && s[0].v >= Key(e))
    ensures e < ENTRIES && Value(f, b, e).Some? ==>
            ItemsFrom(f, b, e) == [Uint(Key(e)), Value(f, b, e).value] + ItemsFrom(f, b, e + 1)
    ensures e < ENTRIES && Value(f, b, e).None? ==> ItemsFrom(f, b, e) == ItemsFrom(f, b, e + 1)
    decreases ENTRIES - e
  {
    hide EntryItems, Value, WellFormed, Matches;
    if e < ENTRIES {
      EntryOfValue(f, b, e);
      FirstKey(f, b, e + 1);
    }
  }

  /** The values of the entries from e on. */
  function Values(f: Frame, b: Body, e: nat): (s: seq<Option<Item>>)
    requires Whole(f, b) && Encodable(b) && e <= ENTRIES
    ensures |s| == ENTRIES - e
    ensures forall j :: e <= j < ENTRIES ==> s[j - e] == Value(f, b, j)
    decreases ENTRIES - e
  {
    if e == ENTRIES then [] else [Value(f, b, e)] + Values(f, b, e + 1)
  }

  lemma KeyNumber(e: nat)
    requires e < ENTRIES
    ensures Key(e) == KEYS[e] && KEYS[e..][0] == KEYS[e] && KEYS[e..][1..] == KEYS[e + 1..]
    ensures e + 1 < ENTRIES ==> Key(e) < Key(e + 1)
  {
  }

  lemma EntryRead(k: nat, keys: seq<nat>, v: Item, rest: seq<Item>)
    requires keys != [] && keys[0] == k
    ensures ReadEntries([Uint(k), v] + rest, keys)
         == match ReadEntries(rest, keys[1..]) case None => None case Some(vs) => Some([Some(v)] + vs)
  {
    var s := [Uint(k), v] + rest;
    assert s[0] == Uint(k) && s[1] == v && s[2..] == rest;
  }

  lemma EntrySkipped(keys: seq<nat>, s: seq<Item>)
    requires keys != [] && (s == [] || s[0] != Uint(keys[0]))
    ensures ReadEntries(s, keys)
         == match ReadEntries(s, keys[1..]) case None => None case Some(vs) => Some([None] + vs)
  {
  }

  /** The reader finds every value under its key. */
  lemma {:induction false} EntriesRead(f: Frame, b: Body, e: nat)
    requires Whole(f, b) && Encodable(b) && e <= ENTRIES
    ensures ReadEntries(ItemsFrom(f, b, e), KEYS[e..]) == Some(Values(f, b, e))
    decreases ENTRIES - e
  {
    hide EntryItems, Value, WellFormed, Matches, Encodable, Key, ReadEntries, ItemsFrom;
    if e == ENTRIES {
      NoEntries(f, b);
    } else {
      EntriesRead(f, b, e + 1);
      FirstKey(f, b, e);
      FirstKey(f, b, e + 1);
      KeyNumber(e);
      if Value(f, b, e).Some? {
        EntryRead(Key(e), KEYS[e..], Value(f, b, e).value, ItemsFrom(f, b, e + 1));
      } else {
        EntrySkipped(KEYS[e..], ItemsFrom(f, b, e));
      }
    }
  }

  lemma NoEntries(f: Frame, b: Body)
    requires Matches(f.params, b)
    ensures ReadEntries(ItemsFrom(f, b, ENTRIES), KEYS[ENTRIES..]) == Some([])
  {
    hide Matches;
    assert KEYS[ENTRIES..] == [];
  }

  // ------------------------------------------------------------ lists

  lemma ReadFlat<A, B>(read: Item -> Option<B>, items: A -> seq<Item>, xs: seq<A>, ys: seq<B>)
    requires |xs| == |ys|
    requires forall i :: 0 <= i < |xs| ==> |items(xs[i])| == 1 && read(items(xs[i])[0]) == Some(ys[i])
    ensures ReadAll(read, Flat(items, xs)) == Some(ys)
  {
    if xs != [] {
      var n := |xs| - 1;
      ReadFlat(read, items, xs[..n], ys[..n]);
      var s := Flat(items, xs);
      assert s[..|s| - 1] == Flat(items, xs[..n]) && s[|s| - 1] == items(xs[n])[0];
      assert ys == ys[..n] + [ys[n]];
    }
  }

  lemma ReadFlatPairs<A, B>(read: (Item, Item) -> Option<B>, items: A -> seq<Item>, xs: seq<A>, ys: seq<B>)
    requires |xs| == |ys|
    requires forall i :: 0 <= i < |xs| ==>
               |items(xs[i])| == 2 && read(items(xs[i])[0], items(xs[i])[1]) == Some(ys[i])
    ensures ReadPairs(read, Flat(items, xs)) == Some(ys)
  {
    if xs != [] {
      var n := |xs| - 1;
      ReadFlatPairs(read, items, xs[..n], ys[..n]);
      var s := Flat(items, xs);
      assert s[..|s| - 2] == Flat(items, xs[..n]) && s[|s| - 2] == items(xs[n])[0] && s[|s| - 1] == items(xs[n])[1];
      assert ys == ys[..n] + [ys[n]];
    }
  }

  lemma {:induction false} ReadFirst<A>(read: Item -> Option<A>, i: Item, rest: seq<Item>, x: A, xs: seq<A>)
    requires read(i) == Some(x) && ReadAll(read, rest) == Some(xs)
    ensures ReadAll(read, [i] + rest) == Some([x] + xs)
  {
    var s := [i] + rest;
    if rest == [] {
      assert s[..|s| - 1] == [] && s[|s| - 1] == i;
      assert [] + [x] == [x] + xs;
    } else {
      var n := |rest| - 1;
      var front, last := ReadAll(read, rest[..n]).value, read(rest[n]).value;
      ReadFirst(read, i, rest[..n], x, front);
      assert s[..|s| - 1] == [i] + rest[..n] && s[|s| - 1] == rest[n];
      assert [x] + xs == [x] + front + [last];
    }
  }

  lemma {:induction false} ReadFirstPair<A>(read: (Item, Item) -> Option<A>, k: Item, v: Item, rest: seq<Item>, x: A,
                                            xs: seq<A>)
    requires read(k, v) == Some(x) && ReadPairs(read, rest) == Some(xs)
    ensures ReadPairs(read, [k, v] + rest) == Some([x] + xs)
  {
    var s := [k, v] + rest;
    if rest == [] {
      assert s[..|s| - 2] == [] && s[|s| - 2] == k && s[|s| - 1] == v;
      assert [] + [x] == [x] + xs;
    } else {
      var n := |rest| - 2;
      var front, last := ReadPairs(read, rest[..n]).value, read(rest[n], rest[n + 1]).value;
      ReadFirstPair(read, k, v, rest[..n], x, front);
      assert s[..|s| - 2] == [k, v] + rest[..n] && s[|s| - 2] == rest[n] && s[|s| - 1] == rest[n + 1];
      assert [x] + xs == [x] + front + [last];
    }
  }

  // ------------------------------------------------------------ elements

  lemma InputsRead(xs: seq<Input>)
    ensures ReadAll(ReadInput, Flat(InputItems, xs)) == Some(xs)
  {
    hide Flat, ReadAll;
    ReadFlat(ReadInput, InputItems, xs, xs);
  }

  lemma SignersRead(xs: seq<KeyHash>)
    ensures ReadAll(ReadKeyHash, Flat(SignerItems, xs)) == Some(xs)
  {
    hide Flat, ReadAll;
    ReadFlat(ReadKeyHash, SignerItems, xs, xs);
  }

  lemma WithdrawalsRead(xs: seq<Withdrawal>)
    ensures ReadPairs(ReadWithdrawal, Flat(WithdrawalItems, xs)) == Some(xs)
  {
    hide Flat, ReadPairs;
    ReadFlatPairs(ReadWithdrawal, WithdrawalItems, xs, xs);
  }

  lemma CredentialRead(c: Credential)
    ensures ReadCredential(CredentialItem(c)) == Some(c)
  {
  }

  lemma DRepRead(d: DRep)
    ensures ReadDRep(DRepItem(d)) == Some(d)
  {
  }

  lemma AnchorRead(a: Option<Anchor>)
    ensures ReadAnchor(AnchorItem(a)) == Some(a)
  {
  }

  /** A reader of votes with the numbers of the CDDL finds the voter, the action, the vote and the anchor. */
  lemma VotingRead(v: VotingProcedure)
    ensures |VotingItems(v)| == 2 && ReadVoting(VotingItems(v)[0], VotingItems(v)[1]) == Some(v)
  {
    hide AnchorItem, ReadAnchor;
    AnchorRead(v.anchor);
    assert ReadVoterType(VoterCode(v.voterType)) == Some(v.voterType) && ReadVote(VoteCode(v.vote)) == Some(v.vote);
  }

  lemma VotesRead(xs: seq<VotingProcedure>)
    ensures ReadPairs(ReadVoting, Flat(VotingItems, xs)) == Some(xs)
  {
    hide Flat, ReadPairs, VotingItems, ReadVoting;
    forall i | 0 <= i < |xs|
      ensures |VotingItems(xs[i])| == 2 && ReadVoting(VotingItems(xs[i])[0], VotingItems(xs[i])[1]) == Some(xs[i])
    {
      VotingRead(xs[i]);
    }
    ReadFlatPairs(ReadVoting, VotingItems, xs, xs);
  }

  // ------------------------------------------------------------ certificates

  lemma PlainFieldCount(c: PlainCertificate)
    ensures 2 <= |PlainCertificateFields(c)| <= 4
  {
  }

  /** A reader with the numbers of the CDDL finds the certificate in its fields. */
  lemma PlainRead(c: PlainCertificate)
    ensures |PlainCertificateFields(c)| >= 2 && ReadPlain(PlainCertificateFields(c)) == Some(c)
  {
    hide CredentialItem, DRepItem, AnchorItem, ReadCredential, ReadDRep, ReadAnchor;
    match c {
      case StakeRegistration(k) => CredentialRead(k);
      case StakeDeregistration(k) => CredentialRead(k);
      case StakeRegistrationConway(k, n) => CredentialRead(k);
      case StakeDeregistrationConway(k, n) => CredentialRead(k);
      case StakeDelegation(k, h) => CredentialRead(k);
      case VoteDelegation(k, d) =>
        CredentialRead(k);
        DRepRead(d);
      case AuthorizeCommitteeHot(k, h) =>
        CredentialRead(k);
        CredentialRead(h);
      case ResignCommitteeCold(k, a) =>
        CredentialRead(k);
        AnchorRead(a);
      case DRepRegistration(k, n, a) =>
        CredentialRead(k);
        AnchorRead(a);
      case DRepDeregistration(k, n) => CredentialRead(k);
      case DRepUpdate(k, a) =>
        CredentialRead(k);
        AnchorRead(a);
      case PoolRetirement(h, n) =>
    }
  }

  lemma {:induction false} OwnersRead(env: P.Env, owners: seq<P.KeyRef>)
    ensures ReadAll(ReadOwner, OwnerItems(env.keyHashOf, owners)) == Some(TxUnique.HashedKeys(env, owners))
  {
    if owners != [] {
      OwnersRead(env, owners[1..]);
      ReadFirst(ReadOwner, Bstr(P.HashOf(env.keyHashOf, owners[0])), OwnerItems(env.keyHashOf, owners[1..]),
                TxUnique.HashedKey(env, owners[0]), TxUnique.HashedKeys(env, owners[1..]));
    }
  }

  lemma Ipv6Read(ip: Option<seq<byte>>)
    requires ip.Some? ==> |ip.value| == 16
    ensures var i := AddressItem(if ip.Some? then Some(SwappedWords(ip.value)) else None);
            ReadAddress(i, 16).Some? && Received(ReadAddress(i, 16).value) == ip
  {
    if ip.Some? {
      var a := SwappedWords(ip.value);
      assert Received(Some(a)).value == ip.value;
    }
  }

  lemma RelayRead(r: P.Relay)
    requires P.RelayAccepted(r)
    ensures ReadRelay(RelayItem(r)) == Some(r)
  {
    hide SwappedWords, UnambiguousAscii, Received;
    if r.SingleHostIp? {
      Ipv6Read(r.ipv6);
      var s := RelayItem(r).items;
      hide AddressItem;
      assert s[2] == AddressItem(r.ipv4);
      assert s[3] == AddressItem(if r.ipv6.Some? then Some(SwappedWords(r.ipv6.value)) else None);
      Ipv4Read(r.ipv4);
    }
  }

  lemma Ipv4Read(ip: Option<seq<byte>>)
    requires ip.Some? ==> |ip.value| == 4
    ensures ReadAddress(AddressItem(ip), 4) == Some(ip)
  {
  }

  lemma {:induction false} RelaysRead(relays: seq<P.Relay>)
    requires P.RelaysAccepted(relays)
    ensures ReadAll(ReadRelay, RelayItems(relays)) == Some(relays)
  {
    hide RelayItem, P.RelayAccepted, ReadRelay;
    if relays != [] {
      RelaysRead(relays[1..]);
      RelayRead(relays[0]);
      ReadFirst(ReadRelay, RelayItem(relays[0]), RelayItems(relays[1..]), relays[0], relays[1..]);
      assert relays == [relays[0]] + relays[1..];
    }
  }

  lemma MetadataRead(m: Option<P.PoolMetadata>)
    ensures ReadMetadata(MetadataItem(m)) == Some(m)
  {
  }

  lemma ElementsRead(tagged: bool, items: seq<Item>)
    ensures ElementsOf(tagged, ListItem(tagged, items)) == Some(items)
  {
  }

  /** A reader with the numbers of the CDDL finds the registration in its fields, with keys by their hashes. */
  lemma PoolRead(f: Frame, c: P.Certificate)
    requires P.WellFormed(f.params.Setting(), c)
    ensures var r := ReadPool(f.params.tagCborSets, PoolFields(f, c));
            r.Some? && TxUnique.Hashed(f.Env(), Pool(c)) == Pool(r.value)
  {
    hide P.OwnersAccepted, P.RelayAccepted, P.MetadataAccepted, OwnerItems, RelayItems, MetadataItem, ListItem,
         ReadAll, ReadMetadata, ReadOwner, ReadRelay, ElementsOf;
    var t := f.params.tagCborSets;
    OwnersRead(f.Env(), c.owners);
    RelaysRead(c.relays);
    MetadataRead(c.metadata);
    ElementsRead(t, OwnerItems(f.keyHashOf, c.owners));
    var x := PoolFields(f, c);
    assert ReadFinancials(x[3], x[4], x[5]) == Some(c.financials);
  }

  lemma CertificateRead(f: Frame, c: Certificate)
    requires CertificateAccepted(f.params.Setting(), c)
    ensures |CertificateItems(f, c)| == 1
    ensures ReadCertificate(f.params.tagCborSets, CertificateItems(f, c)[0]) == Some(TxUnique.Hashed(f.Env(), c))
  {
    hide P.WellFormed, PlainCertificateFields, PoolFields, P.RelayAccepted, ReadPool, ReadPlain, P.RelaysAccepted,
         TxUnique.Hashed;
    Relays(f, c);
    TxBytes.OneCertificate(f, c);
    PlainUnchanged(f, c);
    match c {
      case Plain(x) =>
        PlainFieldCount(x);
        PlainRead(x);
      case Pool(x) => PoolRead(f, x);
    }
  }

  lemma PlainUnchanged(f: Frame, c: Certificate)
    ensures c.Plain? ==> TxUnique.Hashed(f.Env(), c) == c
  {
  }

  lemma Relays(f: Frame, c: Certificate)
    requires CertificateAccepted(f.params.Setting(), c)
    ensures c.Pool? ==> P.RelaysAccepted(c.certificate.relays)
  {
    hide P.RelayAccepted;
  }

  lemma ReadLast<A>(read: Item -> Option<A>, items: seq<Item>, i: Item, xs: seq<A>, x: A)
    requires read(i) == Some(x) && ReadAll(read, items) == Some(xs)
    ensures ReadAll(read, items + [i]) == Some(xs + [x])
  {
    var s := items + [i];
    assert s[..|s| - 1] == items && s[|s| - 1] == i;
  }

  lemma {:induction false} CertificatesRead(f: Frame, cs: seq<Certificate>)
    requires forall i :: 0 <= i < |cs| ==> CertificateAccepted(f.params.Setting(), cs[i])
    ensures ReadAll(CertificateReader(f.params.tagCborSets), CertificatesItems(f, cs))
         == Some(TxUnique.HashedAll(f.Env(), cs))
  {
    hide CertificateItems, CertificateAccepted, TxUnique.Hashed, ReadCertificate;
    if cs != [] {
      var n := |cs| - 1;
      CertificatesRead(f, cs[..n]);
      CertificateRead(f, cs[n]);
      hide ReadAll;
      var items, all := CertificateItems(f, cs[n]), TxUnique.HashedAll(f.Env(), cs);
      assert items == [items[0]];
      ReadLast(CertificateReader(f.params.tagCborSets), CertificatesItems(f, cs[..n]), items[0],
               TxUnique.HashedAll(f.Env(), cs[..n]), TxUnique.Hashed(f.Env(), cs[n]));
      assert all == TxUnique.HashedAll(f.Env(), cs[..n]) + [TxUnique.Hashed(f.Env(), cs[n])];
    }
  }

  // ------------------------------------------------------------ tokens and outputs

  /** In an output an amount below zero, which no policy refuses, is written as its complement to 2^64. */
  lemma UnsignedInNumbers(n: TokenBundle.Amount)
    ensures UnsignedAmount(n) == if n < 0 then 0x1_0000_0000_0000_0000 + n else n
  {
  }

  function TokensContent(signed: bool, tokens: seq<TokenBundle.Token>): seq<TokenBundle.Token> {
    if signed then tokens else UnsignedTokens(tokens)
  }

  function GroupsContent(signed: bool, groups: seq<TokenBundle.Group>): seq<TokenBundle.Group> {
    if signed then groups else UnsignedGroups(groups)
  }

  lemma {:induction false} TokensRead(signed: bool, tokens: seq<TokenBundle.Token>)
    ensures ReadPairs(TokenReader(signed), TokenEntries(signed, tokens)) == Some(TokensContent(signed, tokens))
  {
    if tokens != [] {
      TokensRead(signed, tokens[1..]);
      var t := tokens[0];
      UnsignedInNumbers(t.amount);
      var u := if signed then t else t.(amount := UnsignedAmount(t.amount));
      hide UnsignedAmount;
      ReadFirstPair(TokenReader(signed), Bstr(t.name), AmountItem(signed, t.amount), TokenEntries(signed, tokens[1..]),
                    u, TokensContent(signed, tokens[1..]));
      assert signed ==> tokens == [t] + tokens[1..];
    }
  }

  lemma {:induction false} GroupsRead(signed: bool, groups: seq<TokenBundle.Group>)
    ensures ReadPairs(GroupReader(signed), GroupEntries(signed, groups)) == Some(GroupsContent(signed, groups))
  {
    hide TokenEntries, UnsignedTokens, TokenReader;
    if groups != [] {
      GroupsRead(signed, groups[1..]);
      var g := groups[0];
      TokensRead(signed, g.tokens);
      var u := if signed then g else g.(tokens := UnsignedTokens(g.tokens));
      ReadFirstPair(GroupReader(signed), Bstr(g.policyId), MapOf(TokenEntries(signed, g.tokens)),
                    GroupEntries(signed, groups[1..]), u, GroupsContent(signed, groups[1..]));
      assert signed ==> groups == [g] + groups[1..];
    }
  }

  lemma ValueRead(o: O.Output)
    ensures ReadValue(ValueItem(o)) == Some((o.amount, UnsignedGroups(o.groups)))
  {
    hide GroupEntries, ReadPairs;
    GroupsRead(false, o.groups);
  }

  lemma LegacyRead(o: O.Output)
    requires o.format == O.ARRAY_LEGACY && !IsStray(o)
    requires O.DataFits(o.format, o.datum, o.script, o.scriptShown)
    ensures ReadOutput(OutputItem(o)) == Some(OutputContent(o))
  {
    hide ValueItem, UnsignedGroups, O.DataAccepted, ReadValue;
    ValueRead(o);
    var s := OutputItem(o).items;
    assert s[0] == Bstr(o.destination.address) && s[1] == ValueItem(o) && s[2..] == DatumItems(o.format, o.datum);
    if o.datum.Some? {
      assert s[2] == s[2..][0];
    }
  }

  lemma ExtrasRead(d: Option<O.Datum>, s: Option<seq<seq<byte>>>)
    ensures ReadExtras(DatumItems(O.MAP_BABBAGE, d) + ScriptItems(s)) == Some((DatumContent(d), ScriptContent(s)))
  {
    if d.Some? {
      DatumRead(d.value);
    }
  }

  lemma DatumRead(d: O.Datum)
    ensures var s := DatumItems(O.MAP_BABBAGE, Some(d)); |s| == 2 && ReadDatum(s[1]) == DatumContent(Some(d))
  {
  }

  lemma BabbageRead(o: O.Output)
    requires o.format == O.MAP_BABBAGE
    ensures ReadOutput(OutputItem(o)) == Some(OutputContent(o))
  {
    hide ValueItem, UnsignedGroups, DatumItems, ScriptItems, ReadValue, ReadExtras, DatumContent, ScriptContent;
    ValueRead(o);
    ExtrasRead(o.datum, o.script);
    var s := OutputItem(o).entries;
    var front := [Uint(0), Bstr(o.destination.address), Uint(1), ValueItem(o)];
    Glue(s, front, DatumItems(o.format, o.datum), ScriptItems(o.script));
    assert s[..4] == front && s[4..] == DatumItems(o.format, o.datum) + ScriptItems(o.script);
    assert s[0] == front[0] && s[1] == front[1] && s[2] == front[2] && s[3] == front[3];
  }

  /** A reader with the numbers of the CDDL finds the output in its data item, whichever of the two formats it has. */
  lemma OutputRead(o: O.Output)
    requires O.WellFormed(false, o) && !IsStray(o)
    ensures ReadOutput(OutputItem(o)) == Some(OutputContent(o))
  {
    hide OutputContent, ValueItem, DatumItems, ScriptItems, TokenBundle.GroupsAccepted, O.ResidueOf, O.DataFits,
         ReadOutput;
    if o.format == O.ARRAY_LEGACY {
      LegacyRead(o);
    } else {
      BabbageRead(o);
    }
  }

  lemma OutputsRead(xs: seq<O.Output>)
    requires forall i :: 0 <= i < |xs| ==> O.WellFormed(false, xs[i]) && !IsStray(xs[i])
    ensures ReadAll(ReadOutput, Flat(OutputItems, xs)) == Some(OutputContents(xs))
  {
    hide Flat, OutputItem, O.WellFormed, OutputContent, ReadOutput, ReadAll;
    forall i | 0 <= i < |xs|
      ensures |OutputItems(xs[i])| == 1 && ReadOutput(OutputItems(xs[i])[0]) == Some(OutputContents(xs)[i])
    {
      OutputRead(xs[i]);
    }
    ReadFlat(ReadOutput, OutputItems, xs, OutputContents(xs));
  }

  // ------------------------------------------------------------ whole bodies

  /** What a reader can find of a body and its frame. */
  function DocumentOf(f: Frame, b: Body): Document {
    Document(f.params.tagCborSets, if f.params.includeAuxData then Some(f.auxDataHash) else None,
             if f.params.includeNetworkId then Some(f.params.networkId) else None, Content(f.Env(), b))
  }

  lemma SetsRead(f: Frame, b: Body)
    requires Whole(f, b) && Encodable(b)
    ensures Value(f, b, 0).Some? && Value(f, b, 0).value.Tagged? == f.params.tagCborSets
    ensures ReadSet(f.params.tagCborSets, ReadInput, Value(f, b, 0)) == Some(b.inputs)
    ensures ReadSet(f.params.tagCborSets, ReadInput, Value(f, b, 10)) == Some(b.collateralInputs)
    ensures ReadSet(f.params.tagCborSets, ReadKeyHash, Value(f, b, 11)) == Some(b.requiredSigners)
    ensures ReadSet(f.params.tagCborSets, ReadInput, Value(f, b, 15)) == Some(b.referenceInputs)
  {
    hide WellFormed, Flat, ElementsOf, Encodable, ReadAll;
    var t := f.params.tagCborSets;
    InputsRead(b.inputs);
    InputsRead(b.collateralInputs);
    SignersRead(b.requiredSigners);
    InputsRead(b.referenceInputs);
    ElementsRead(t, Flat(InputItems, b.inputs));
    ElementsRead(t, Flat(InputItems, b.collateralInputs));
    ElementsRead(t, Flat(SignerItems, b.requiredSigners));
    ElementsRead(t, Flat(InputItems, b.referenceInputs));
  }

  lemma MapsRead(f: Frame, b: Body)
    requires Whole(f, b) && Encodable(b)
    ensures ReadMap(ReadWithdrawal, Value(f, b, 5)) == Some(b.withdrawals)
    ensures ReadMap(ReadVoting, Value(f, b, 16)) == Some(b.votingProcedures)
    ensures ReadField(ReadMint, Value(f, b, 8)) == Some(b.mint)
  {
    hide WellFormed, Flat, GroupEntries, Encodable, ReadPairs;
    WithdrawalsRead(b.withdrawals);
    VotesRead(b.votingProcedures);
    if b.mint.Some? { GroupsRead(true, b.mint.value); }
  }

  lemma NumbersRead(f: Frame, b: Body)
    requires Whole(f, b) && Encodable(b)
    ensures ReadField(ReadNumber, Value(f, b, 2)) == Some(b.fee)
    ensures ReadField(ReadNumber, Value(f, b, 3)) == Some(b.ttl)
    ensures ReadField(ReadNumber, Value(f, b, 7)) == Some(b.validityIntervalStart)
    ensures ReadField(ReadNumber, Value(f, b, 14)) == Some(b.totalCollateral)
    ensures ReadField(ReadNumber, Value(f, b, 17)) == Some(b.treasury)
    ensures ReadField(ReadNumber, Value(f, b, 18)) == Some(b.donation)
  {
    hide WellFormed, Encodable;
  }

  lemma HashesRead(f: Frame, b: Body)
    requires Whole(f, b) && Encodable(b)
    ensures ReadField(ReadHash32, Value(f, b, 6)) == Some(DocumentOf(f, b).auxDataHash)
    ensures ReadField(ReadHash32, Value(f, b, 9)) == Some(b.scriptDataHash)
    ensures ReadField(ReadNetworkId, Value(f, b, 12)) == Some(DocumentOf(f, b).networkId)
  {
    hide WellFormed, Encodable, Content;
  }

  lemma OutputEntriesRead(f: Frame, b: Body)
    requires Whole(f, b) && Encodable(b)
    ensures ReadSet(false, ReadOutput, Value(f, b, 1)) == Some(OutputContents(b.outputs))
    ensures ReadField(ReadOutput, Value(f, b, 13)) == Some(Content(f.Env(), b).collateralOutput)
  {
    hide Flat, OutputItem, OutputItems, O.WellFormed, TokenBundle.Ascending, CertificateAccepted, M.WellFormed, IsStray,
         OutputContent, OutputContents, ReadOutput, ReadAll;
    OutputsAlone(b);
    OutputsRead(b.outputs);
    if b.collateralOutput.Some? {
      CollateralAlone(b.collateralOutput.value);
      OutputRead(b.collateralOutput.value);
    }
  }

  lemma OutputsAlone(b: Body)
    requires Encodable(b)
    ensures var all := Flat(OutputItems, b.outputs); |all| == |b.outputs| && all[..|b.outputs|] == all
  {
    OutputItemsLength(b.outputs);
    TxBytes.NoStrays(b.outputs);
  }

  lemma CollateralAlone(o: O.Output)
    requires O.WellFormed(true, o)
    ensures O.WellFormed(false, o) && !IsStray(o)
  {
  }

  lemma CertificateEntryRead(f: Frame, b: Body)
    requires Whole(f, b) && Encodable(b)
    ensures ReadSet(f.params.tagCborSets, CertificateReader(f.params.tagCborSets), Value(f, b, 4))
         == Some(TxUnique.HashedAll(f.Env(), b.certificates))
  {
    hide CertificatesItems, O.WellFormed, TokenBundle.Ascending, CertificateAccepted, M.WellFormed, Encodable, ListItem,
         TxUnique.Hashed, ElementsOf, ReadAll, CertificateReader;
    CertificatesRead(f, b.certificates);
    ElementsRead(f.params.tagCborSets, CertificatesItems(f, b.certificates));
  }

  lemma ContentRead(f: Frame, b: Body)
    requires Whole(f, b) && Encodable(b)
    ensures ReadContent(f.params.tagCborSets, Values(f, b, 0)) == Some(Content(f.Env(), b))
  {
    hide Whole, Encodable, Value, ReadSet, ReadMap, ReadField, CertificateReader, OutputContents, TxUnique.HashedAll,
         OutputContent, TxUnique.AddressedAll;
    SetsRead(f, b);
    MapsRead(f, b);
    NumbersRead(f, b);
    HashesRead(f, b);
    OutputEntriesRead(f, b);
    CertificateEntryRead(f, b);
  }

  /** The data item of a whole body reads as its content, its hash of auxiliary data and its network id. */
  lemma ItemRead(f: Frame, b: Body)
    requires Whole(f, b) && Encodable(b)
    ensures ReadBody(BodyItem(f, b)) == Some(DocumentOf(f, b))
  {
    hide Matches, Encodable, Value, ReadSet, ReadField, ReadContent, ReadEntries, Content, BodyItems, ItemsFrom,
         WellFormed;
    AllItems(f, b);
    EntriesRead(f, b, 0);
    assert KEYS[0..] == KEYS;
    SetsRead(f, b);
    HashesRead(f, b);
    ContentRead(f, b);
  }

  /** The bytes that are hashed for a whole body, read with the keys, tags and codes of the CDDL, are a transaction with
      exactly its content. */
  lemma BytesRead(f: Frame, b: Body)
    requires Whole(f, b) && Encodable(b)
    ensures ReadTransaction(HashedBytes(BodyWord(f, b))) == Some(DocumentOf(f, b))
  {
    hide WellFormed, Matches, IsStray, HashedBytes, BodyWord, Fits, Encode, BodyItem, DocumentOf, ReadBody, Decode;
    TxBytes.HashedItem(f, b);
    var s := HashedBytes(BodyWord(f, b));
    assert s + [] == s;
    DecodeOfEncode(BodyItem(f, b), []);
    ItemRead(f, b);
  }

  // ------------------------------------------------------------ no two contents have the same bytes

  /** The first field tells the kind of a certificate; the others are told apart field by field. */
  lemma PlainInjective(a: PlainCertificate, b: PlainCertificate)
    requires PlainCertificateFields(a) == PlainCertificateFields(b)
    ensures a == b
  {
    hide PlainCertificateFields, ReadPlain;
    PlainRead(a);
    PlainRead(b);
  }

  lemma PoolInjective(f: Frame, a: P.Certificate, g: Frame, b: P.Certificate)
    requires P.WellFormed(f.params.Setting(), a) && P.WellFormed(g.params.Setting(), b)
    requires PoolFields(f, a) == PoolFields(g, b)
    ensures TxUnique.Hashed(f.Env(), Pool(a)) == TxUnique.Hashed(g.Env(), Pool(b))
  {
    hide P.RelayAccepted, P.OwnersAccepted, P.MetadataAccepted, ReadPool, TxUnique.Hashed;
    assert PoolFields(f, a)[7] == PoolFields(g, b)[7];
    assert f.params.tagCborSets == g.params.tagCborSets;
    hide PoolFields;
    PoolRead(f, a);
    PoolRead(g, b);
  }

  lemma OutputInjective(a: O.Output, b: O.Output)
    requires O.WellFormed(false, a) && O.WellFormed(false, b) && !IsStray(a) && !IsStray(b)
    requires OutputItem(a) == OutputItem(b)
    ensures OutputContent(a) == OutputContent(b)
  {
    hide OutputItem, OutputContent, O.WellFormed, ReadOutput, IsStray;
    OutputRead(a);
    OutputRead(b);
  }

  /** What is not part of the body, but goes into the map. */
  predicate SameFrame(f: Frame, g: Frame) {
    && f.params.tagCborSets == g.params.tagCborSets
    && f.params.includeAuxData == g.params.includeAuxData
    && (f.params.includeAuxData ==> f.auxDataHash == g.auxDataHash)
    && f.params.includeNetworkId == g.params.includeNetworkId
    && (f.params.includeNetworkId ==> f.params.networkId == g.params.networkId)
  }

  /** Two whole bodies, also ones of different init requests, for which the same bytes are hashed have the same content,
      the same hash of auxiliary data and network id, if there are any, and the same tags: no bytes stand for two
      transactions. */
  lemma BytesDetermineBody(f: Frame, b: Body, g: Frame, c: Body)
    requires Whole(f, b) && Encodable(b) && Whole(g, c) && Encodable(c)
    requires HashedBytes(BodyWord(f, b)) == HashedBytes(BodyWord(g, c))
    ensures Content(f.Env(), b) == Content(g.Env(), c) && SameFrame(f, g)
  {
    hide WellFormed, Matches, Encodable, HashedBytes, BodyWord, Content, ReadTransaction;
    BytesRead(f, b);
    BytesRead(g, c);
  }
}
