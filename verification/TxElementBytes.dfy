/** The bytes that the transaction hash builder writes for the elements of a body are the CBOR of these elements. */
module TxElementBytes {
  import opened Basics
  import opened Cbor
  import opened TxBody
  import opened TxHashBuilder
  import opened TxItems

  // ------------------------------------------------------------ the elements of lists

  /** The bytes are those of the items, one after the other. */
  predicate Encodes(items: seq<Item>, bytes: seq<byte>) {
    AllFit(items) && bytes == EncodeAll(items)
  }

  lemma OneEncoded(x: Item)
    requires Fits(x)
    ensures Encodes([x], Encode(x))
  {
    hide Encode, Fits;
    EncodeAllOne(x);
  }

  lemma PairEncoded(x: Item, y: Item)
    requires Fits(x) && Fits(y)
    ensures Encodes([x, y], Encode(x) + Encode(y))
  {
    hide Encode, Fits;
    EncodeAllOne(y);
    EncodeAllCons(x, [y], [x, y]);
  }

  lemma EncodesBoth(xs: seq<Item>, a: seq<byte>, ys: seq<Item>, b: seq<byte>)
    requires Encodes(xs, a) && Encodes(ys, b)
    ensures Encodes(xs + ys, a + b)
  {
    hide Fits;
    EncodeAllAppend(xs, ys);
  }

  lemma Joined(xs: seq<Item>, a: seq<byte>, ys: seq<Item>)
    requires Encodes(xs, a) && AllFit(ys)
    ensures AllFit(xs + ys) && EncodeAll(xs + ys) == a + EncodeAll(ys)
  {
    hide Fits;
    EncodeAllAppend(xs, ys);
  }

  lemma NumberEncoded(n: uint64)
    ensures Fits(Uint(n)) && Encode(Uint(n)) == Head(Unsigned, n)
  {
  }

  lemma BytesEncoded(b: seq<byte>)
    requires |b| < TWO_64
    ensures Fits(Bstr(b)) && Encode(Bstr(b)) == BytesToken(b)
  {
  }

  lemma TextEncoded(b: seq<byte>)
    requires |b| < TWO_64
    ensures Fits(Tstr(b)) && Encode(Tstr(b)) == TextToken(b)
  {
  }

  lemma InputEncoded(i: Input)
    ensures Encodes(InputItems(i), InputBytes(i))
  {
    hide Head, Encode, Fits, BytesToken;
    BytesEncoded(i.txHash);
    NumberEncoded(i.index);
    EncodeTwo(Bstr(i.txHash), Uint(i.index));
    FitsArr([Bstr(i.txHash), Uint(i.index)]);
    OneEncoded(Arr([Bstr(i.txHash), Uint(i.index)]));
  }

  lemma FitsArr(items: seq<Item>)
    requires AllFit(items) && |items| < TWO_64
    ensures Fits(Arr(items))
  {
  }

  lemma WithdrawalEncoded(w: Withdrawal)
    ensures Encodes(WithdrawalItems(w), WithdrawalBytes(w))
  {
    hide Head, Encode, Fits, BytesToken;
    BytesEncoded(w.account);
    NumberEncoded(w.amount);
    PairEncoded(Bstr(w.account), Uint(w.amount));
  }

  lemma SignerEncoded(h: KeyHash)
    ensures Encodes(SignerItems(h), BytesToken(h))
  {
    hide Head, Encode, Fits, BytesToken;
    BytesEncoded(h);
    OneEncoded(Bstr(h));
  }

  lemma CredentialEncoded(c: Credential)
    ensures Fits(CredentialItem(c)) && Encode(CredentialItem(c)) == CredentialBytes(c)
  {
    hide Head, Encode, Fits, BytesToken;
    var kind := if c.KeyCredential? then 0 else 1;
    var hash := if c.KeyCredential? then c.keyHash else c.scriptHash;
    NumberEncoded(kind);
    BytesEncoded(hash);
    FitsArr([Uint(kind), Bstr(hash)]);
    EncodeTwo(Uint(kind), Bstr(hash));
  }

  lemma DRepEncoded(d: DRep)
    ensures Fits(DRepItem(d)) && Encode(DRepItem(d)) == DRepBytes(d)
  {
    hide Head, Encode, Fits, BytesToken;
    var kind := match d case DRepKey(_) => 0 case DRepScript(_) => 1 case ALWAYS_ABSTAIN => 2
                case ALWAYS_NO_CONFIDENCE => 3;
    NumberEncoded(kind);
    if d.DRepKey? || d.DRepScript? {
      var hash := if d.DRepKey? then d.keyHash else d.scriptHash;
      BytesEncoded(hash);
      FitsArr([Uint(kind), Bstr(hash)]);
      EncodeTwo(Uint(kind), Bstr(hash));
    } else {
      EncodeAllOne(Uint(kind));
      EncodeArr([Uint(kind)]);
    }
  }

  lemma NullEncoded()
    ensures Fits(Null) && Encode(Null) == [NULL_BYTE]
  {
  }

  lemma AnchorEncoded(a: Option<Anchor>)
    ensures Fits(AnchorItem(a)) && Encode(AnchorItem(a)) == AnchorBytes(a)
  {
    hide Head, Encode, Fits, BytesToken, TextToken;
    NullEncoded();
    if a.Some? {
      var x := a.value;
      TextEncoded(x.url);
      BytesEncoded(x.hash);
      FitsArr([Tstr(x.url), Bstr(x.hash)]);
      EncodeTwo(Tstr(x.url), Bstr(x.hash));
    }
  }

  lemma TwoEncoded(x: Item, y: Item)
    requires Fits(x) && Fits(y)
    ensures Encodes([Arr([x, y])], Head(Array, 2) + Encode(x) + Encode(y))
  {
    hide Head, Encode, Fits;
    FitsArr([x, y]);
    EncodeTwo(x, y);
    OneEncoded(Arr([x, y]));
  }

  lemma ThreeEncoded(x: Item, y: Item, z: Item)
    requires Fits(x) && Fits(y) && Fits(z)
    ensures Encodes([Arr([x, y, z])], Head(Array, 3) + Encode(x) + Encode(y) + Encode(z))
  {
    hide Head, Encode, Fits;
    FitsArr([x, y, z]);
    EncodeThree(x, y, z);
    OneEncoded(Arr([x, y, z]));
  }

  lemma FourEncoded(w: Item, x: Item, y: Item, z: Item)
    requires Fits(w) && Fits(x) && Fits(y) && Fits(z)
    ensures Encodes([Arr([w, x, y, z])], Head(Array, 4) + Encode(w) + Encode(x) + Encode(y) + Encode(z))
  {
    hide Head, Encode, Fits;
    var items := [w, x, y, z];
    PairEncoded(w, x);
    EncodeAllSnoc([w, x], y);
    EncodeAllSnoc([w, x] + [y], z);
    assert items == [w, x] + [y] + [z];
    EncodeArr(items);
    OneEncoded(Arr(items));
    var two, three := Encode(w) + Encode(x), Encode(w) + Encode(x) + Encode(y);
    Glue(Encode(Arr(items)), Head(Array, 4), three, Encode(z));
    Glue(Head(Array, 4) + three, Head(Array, 4), two, Encode(y));
    Glue(Head(Array, 4) + two, Head(Array, 4), Encode(w), Encode(x));
  }

  lemma PlainCertificateEncoded(c: PlainCertificate)
    ensures Encodes([Arr(PlainCertificateFields(c))], PlainCertificateBytes(c))
  {
    hide Head, Encode, Fits, BytesToken, Encodes, CredentialItem, CredentialBytes, AnchorItem, AnchorBytes, DRepItem,
         DRepBytes;
    var kind := Kind(c);
    NumberEncoded(kind);
    match c {
      case StakeRegistration(k) =>
        CredentialEncoded(k);
        TwoEncoded(Uint(kind), CredentialItem(k));
      case StakeDeregistration(k) =>
        CredentialEncoded(k);
        TwoEncoded(Uint(kind), CredentialItem(k));
      case StakeRegistrationConway(k, n) =>
        CredentialEncoded(k);
        NumberEncoded(n);
        ThreeEncoded(Uint(kind), CredentialItem(k), Uint(n));
      case StakeDeregistrationConway(k, n) =>
        CredentialEncoded(k);
        NumberEncoded(n);
        ThreeEncoded(Uint(kind), CredentialItem(k), Uint(n));
      case StakeDelegation(k, h) =>
        CredentialEncoded(k);
        BytesEncoded(h);
        ThreeEncoded(Uint(kind), CredentialItem(k), Bstr(h));
      case VoteDelegation(k, d) =>
        CredentialEncoded(k);
        DRepEncoded(d);
        ThreeEncoded(Uint(kind), CredentialItem(k), DRepItem(d));
      case AuthorizeCommitteeHot(k, h) =>
        CredentialEncoded(k);
        CredentialEncoded(h);
        ThreeEncoded(Uint(kind), CredentialItem(k), CredentialItem(h));
      case ResignCommitteeCold(k, a) =>
        CredentialEncoded(k);
        AnchorEncoded(a);
        ThreeEncoded(Uint(kind), CredentialItem(k), AnchorItem(a));
      case DRepRegistration(k, n, a) =>
        CredentialEncoded(k);
        NumberEncoded(n);
        AnchorEncoded(a);
        FourEncoded(Uint(kind), CredentialItem(k), Uint(n), AnchorItem(a));
      case DRepDeregistration(k, n) =>
        CredentialEncoded(k);
        NumberEncoded(n);
        ThreeEncoded(Uint(kind), CredentialItem(k), Uint(n));
      case DRepUpdate(k, a) =>
        CredentialEncoded(k);
        AnchorEncoded(a);
        ThreeEncoded(Uint(kind), CredentialItem(k), AnchorItem(a));
      case PoolRetirement(h, n) =>
        BytesEncoded(h);
        NumberEncoded(n);
        ThreeEncoded(Uint(kind), Bstr(h), Uint(n));
    }
  }

  function Kind(c: PlainCertificate): uint64 {
    PlainCertificateFields(c)[0].v
  }

  lemma VotingEncoded(v: VotingProcedure)
    ensures Encodes(VotingItems(v), VotingBytes(v))
  {
    hide Head, Encode, Fits, BytesToken, AnchorItem, AnchorBytes;
    NumberEncoded(VoterCode(v.voterType));
    BytesEncoded(v.voterHash);
    var voter := [Uint(VoterCode(v.voterType)), Bstr(v.voterHash)];
    FitsArr(voter);
    EncodeTwo(voter[0], voter[1]);
    BytesEncoded(v.actionTxHash);
    NumberEncoded(v.actionIndex);
    var action := [Bstr(v.actionTxHash), Uint(v.actionIndex)];
    FitsArr(action);
    EncodeTwo(action[0], action[1]);
    NumberEncoded(VoteCode(v.vote));
    AnchorEncoded(v.anchor);
    var vote := [Uint(VoteCode(v.vote)), AnchorItem(v.anchor)];
    FitsArr(vote);
    EncodeTwo(vote[0], vote[1]);
    PairEncoded(Arr(action), Arr(vote));
    EncodeMap([Arr(action), Arr(vote)]);
    Glue(Encode(MapOf([Arr(action), Arr(vote)])), Head(Map, 1), Encode(Arr(action)), Encode(Arr(vote)));
    PairEncoded(Arr(voter), MapOf([Arr(action), Arr(vote)]));
  }

  // ------------------------------------------------------------ votes in bytes

  lemma SmallHeads()
    ensures Head(Array, 2) == [0x82] && Head(Map, 1) == [0xa1]
    ensures Head(Bytes, 28) == [0x58, 0x1c] && Head(Bytes, 32) == [0x58, 0x20]
    ensures forall n :: 0 <= n < 24 ==> Head(Unsigned, n) == [n]
  {
    HeadInBytes(Array, 2);
    HeadInBytes(Map, 1);
    HeadInBytes(Bytes, 28);
    HeadInBytes(Bytes, 32);
    forall n | 0 <= n < 24 ensures Head(Unsigned, n) == [n] { HeadInBytes(Unsigned, n); }
  }

  lemma AnchorInBytes(a: Option<Anchor>)
    ensures AnchorBytes(a)
         == match a case None => [0xf6]
                    case Some(x) => [0x82] + Head(Text, |x.url|) + x.url + [0x58, 0x20] + x.hash
  {
    SmallHeads();
    hide Head;
    if a.Some? {
      Glue(AnchorBytes(a), [0x82] + Head(Text, |a.value.url|) + a.value.url, [0x58, 0x20], a.value.hash);
      Glue([0x82] + TextToken(a.value.url), [0x82], Head(Text, |a.value.url|), a.value.url);
    }
  }

  /** A vote in bytes, with the numbers of the CDDL for voters and votes; without an anchor it ends in 82, the vote
      and f6. */
  lemma VotingInBytes(v: VotingProcedure)
    ensures var voter := match v.voterType case COMMITTEE_HOT_KEY_HASH => 0x00 case COMMITTEE_HOT_SCRIPT_HASH => 0x01
                                           case DREP_KEY_HASH => 0x02 case DREP_SCRIPT_HASH => 0x03
                                           case STAKE_POOL_KEY_HASH => 0x04;
            var vote := match v.vote case VOTE_NO => 0x00 case VOTE_YES => 0x01 case VOTE_ABSTAIN => 0x02;
            var s := VotingBytes(v);
            && s == [0x82, voter, 0x58, 0x1c] + v.voterHash + [0xa1, 0x82, 0x58, 0x20] + v.actionTxHash
                    + Head(Unsigned, v.actionIndex) + [0x82, vote] + AnchorBytes(v.anchor)
            && (v.anchor.None? ==> s[|s| - 3..] == [0x82, vote, 0xf6])
  {
    SmallHeads();
    AnchorInBytes(v.anchor);
    hide Head, AnchorBytes;
    var index, anchor := Head(Unsigned, v.actionIndex), AnchorBytes(v.anchor);
    VotingParts(Head(Array, 2), Head(Unsigned, VoterCode(v.voterType)), Head(Bytes, 28), v.voterHash, Head(Map, 1),
                Head(Bytes, 32), v.actionTxHash, index, Head(Unsigned, VoteCode(v.vote)), anchor);
    VotingDisplays(VoterCode(v.voterType), VoteCode(v.vote));
    var front := [0x82, VoterCode(v.voterType), 0x58, 0x1c] + v.voterHash + [0xa1, 0x82, 0x58, 0x20] + v.actionTxHash
                 + index;
    LastThree(front, 0x82, VoteCode(v.vote), 0xf6);
  }

  lemma VotingDisplays(voter: byte, vote: byte)
    ensures [0x82] + [voter] + [0x58, 0x1c] == [0x82, voter, 0x58, 0x1c] && [0x82] + [vote] == [0x82, vote]
    ensures [0xa1] + [0x82] + [0x58, 0x20] == [0xa1, 0x82, 0x58, 0x20]
  {
  }

  lemma VotingParts(a: seq<byte>, b: seq<byte>, c: seq<byte>, d: seq<byte>, e: seq<byte>, f: seq<byte>, g: seq<byte>,
                    h: seq<byte>, i: seq<byte>, j: seq<byte>)
    ensures a + b + (c + d) + (e + (a + (f + g) + h) + (a + i + j))
         == (a + b + c) + d + (e + a + f) + g + h + (a + i) + j
  {
  }

  lemma LastThree(front: seq<byte>, x: byte, y: byte, z: byte)
    ensures var s := front + [x, y] + [z]; s[|s| - 3..] == [x, y, z]
  {
  }
}
