/** Key derivation paths: parsing, the shape predicates and the classification. */
module Bip44 {
  import opened Basics

  const BIP44_MAX_PATH_ELEMENTS := 5
  const HARDENED_BIP32: int := 0x8000_0000

  const PURPOSE_BYRON := 44
  const PURPOSE_SHELLEY := 1852
  const PURPOSE_MULTISIG := 1854
  const PURPOSE_MINT := 1855
  const PURPOSE_POOL_COLD_KEY := 1853
  const PURPOSE_CVOTE_KEY := 1694
  const ADA_COIN_TYPE := 1815

  const CHAIN_EXTERNAL := 0
  const CHAIN_INTERNAL := 1
  const CHAIN_STAKING_KEY := 2
  const CHAIN_DREP_KEY := 3
  const CHAIN_COMMITTEE_COLD_KEY := 4
  const CHAIN_COMMITTEE_HOT_KEY := 5

  type Path = p: seq<uint32> | |p| <= BIP44_MAX_PATH_ELEMENTS

  // ------------------------------------------------------------ wire format

  /** The wire form of a path: its length in one byte, then each element in four. */
  function PathToWire(p: Path): (s: seq<byte>)
    ensures |s| == 1 + 4 * |p|
  {
    [|p|] + Elements(p)
  }

  function Elements(p: seq<uint32>): (s: seq<byte>)
    ensures |s| == 4 * |p|
  {
    if p == [] then [] else Elements(p[..|p| - 1]) + Be(4, p[|p| - 1])
  }

  /** Each element takes four bytes, the most significant one first. */
  lemma {:induction false} WireInBytes(p: Path, i: nat)
    requires i < |p|
    ensures PathToWire(p)[0] == |p|
    ensures PathToWire(p)[1 + 4 * i..5 + 4 * i]
         == [p[i] / 0x100_0000, p[i] / 0x1_0000 % 0x100, p[i] / 0x100 % 0x100, p[i] % 0x100]
  {
    hide Be;
    ElementAt(p, i);
    ElementBytes(p[i]);
    assert PathToWire(p)[1 + 4 * i..5 + 4 * i] == Elements(p)[4 * i..4 * i + 4];
  }

  lemma {:induction false} ElementAt(p: seq<uint32>, i: nat)
    requires i < |p|
    ensures Elements(p)[4 * i..4 * i + 4] == Be(4, p[i])
  {
    hide Be;
    var n := |p| - 1;
    if i < n {
      ElementAt(p[..n], i);
      assert Elements(p)[4 * i..4 * i + 4] == Elements(p[..n])[4 * i..4 * i + 4];
    } else {
      assert Elements(p)[4 * i..4 * i + 4] == Be(4, p[n]);
    }
  }

  lemma ElementBytes(v: uint32)
    ensures Be(4, v) == [v / 0x100_0000, v / 0x1_0000 % 0x100, v / 0x100 % 0x100, v % 0x100]
  {
    var x, y, z := v / 0x100, v / 0x1_0000, v / 0x100_0000;
    assert x / 0x100 == y && y / 0x100 == z && z < 0x100;
    assert Be(1, z) == [] + [z];
    assert Be(2, y) == Be(1, z) + [y % 0x100];
    assert Be(3, x) == Be(2, y) + [x % 0x100];
    assert Be(4, v) == Be(3, x) + [v % 0x100];
  }

  /** bip44_parseFromWire: a path at the front of the data and the number of bytes it takes. */
  method ParseFromWire(data: seq<byte>) returns (ok: bool, path: Path, size: nat)
    ensures ok <==> exists p: Path :: PathToWire(p) <= data
    ensures ok ==> size == 1 + 4 * |path| <= |data| && data[..size] == PathToWire(path)
  {
    ok, path, size := false, [], 0;
    if |data| < 1 || data[0] > BIP44_MAX_PATH_ELEMENTS || 4 * data[0] + 1 > |data| {
      assert forall p: Path :: PathToWire(p) <= data ==> data[0] == PathToWire(p)[0] == |p|;
      return;
    }
    var offset := 1;
    var i := 0;
    while i < data[0]
      invariant 0 <= i == |path| <= data[0] && offset == 1 + 4 * i
      invariant data[1..offset] == Elements(path)
    {
      ElementsSnoc(path, data[offset..offset + 4]);
      assert data[1..offset + 4] == data[1..offset] + data[offset..offset + 4];
      path := path + [FromBe(data[offset..offset + 4])];
      offset := offset + 4;
      i := i + 1;
    }
    ok, size := true, offset;
    PathInFront(data, path);
  }

  lemma PathInFront(data: seq<byte>, p: Path)
    requires |data| >= 1 + 4 * |p| && data[0] == |p| && data[1..1 + 4 * |p|] == Elements(p)
    ensures data[..1 + 4 * |p|] == PathToWire(p) && PathToWire(p) <= data
  {
    hide Elements;
    assert data[..1 + 4 * |p|] == [data[0]] + data[1..1 + 4 * |p|];
  }

  lemma ElementsSnoc(p: seq<uint32>, s: seq<byte>)
    requires |s| == 4
    ensures FromBe(s) < TWO_32 && Elements(p + [FromBe(s)]) == Elements(p) + s
  {
    Pow256Values();
    BeOfFromBe(s);
    assert (p + [FromBe(s)])[..|p|] == p;
  }

  lemma {:induction false} ElementsInjective(p: seq<uint32>, q: seq<uint32>)
    requires Elements(p) == Elements(q)
    ensures p == q
  {
    if p != [] {
      var n := |p| - 1;
      assert |Elements(p)| == |Elements(q)|;
      assert Elements(p)[4 * n..] == Be(4, p[n]) && Elements(q)[4 * n..] == Be(4, q[n]);
      assert Elements(p)[..4 * n] == Elements(p[..n]) && Elements(q)[..4 * n] == Elements(q[..n]);
      Pow256Values();
      FromBeOfBe(4, p[n]);
      FromBeOfBe(4, q[n]);
      ElementsInjective(p[..n], q[..n]);
      assert p == p[..n] + [p[n]] && q == q[..n] + [q[n]];
    }
  }

  /** A path on the wire is read back as itself, whatever follows it. */
  lemma PathToWireInjective(p: Path, q: Path, v: seq<byte>, w: seq<byte>)
    requires PathToWire(p) + v == PathToWire(q) + w
    ensures p == q && v == w
  {
    var x, y := PathToWire(p) + v, PathToWire(q) + w;
    assert x[0] == |p| && y[0] == |q|;
    assert x[1..1 + 4 * |p|] == Elements(p) && y[1..1 + 4 * |q|] == Elements(q);
    ElementsInjective(p, q);
    assert x[1 + 4 * |p|..] == v && y[1 + 4 * |q|..] == w;
  }

  // ------------------------------------------------------------ shapes

  predicate IsHardened(v: uint32) {
    v >= HARDENED_BIP32
  }

  function Harden(v: nat): uint32
    requires v < HARDENED_BIP32
  {
    v + HARDENED_BIP32
  }

  predicate HasPrefix(p: Path, purpose: nat)
    requires purpose < HARDENED_BIP32
  {
    |p| > 1 && p[0] == Harden(purpose) && p[1] == Harden(ADA_COIN_TYPE)
  }

  predicate HasByronPrefix(p: Path) { HasPrefix(p, PURPOSE_BYRON) }

  predicate HasShelleyPrefix(p: Path) { HasPrefix(p, PURPOSE_SHELLEY) }

  predicate HasOrdinaryWalletKeyPrefix(p: Path) { HasByronPrefix(p) || HasShelleyPrefix(p) }

  predicate ContainsAccount(p: Path) { |p| > 2 }

  /** The shape shared by stake, DRep and committee keys: purpose'/1815'/account'/chain/index. */
  predicate IsKeyPath(p: Path, purpose: nat, chain: uint32)
    requires purpose < HARDENED_BIP32
  {
    |p| == 5 && HasPrefix(p, purpose) && IsHardened(p[2]) && p[3] == chain && !IsHardened(p[4])
  }

  predicate IsOrdinaryStakingKeyPath(p: Path) { IsKeyPath(p, PURPOSE_SHELLEY, CHAIN_STAKING_KEY) }

  predicate IsMultisigStakingKeyPath(p: Path) { IsKeyPath(p, PURPOSE_MULTISIG, CHAIN_STAKING_KEY) }

  predicate IsDRepKeyPath(p: Path) { IsKeyPath(p, PURPOSE_SHELLEY, CHAIN_DREP_KEY) }

  predicate IsCommitteeColdKeyPath(p: Path) { IsKeyPath(p, PURPOSE_SHELLEY, CHAIN_COMMITTEE_COLD_KEY) }

  predicate IsCommitteeHotKeyPath(p: Path) { IsKeyPath(p, PURPOSE_SHELLEY, CHAIN_COMMITTEE_HOT_KEY) }

  predicate IsMintKeyPath(p: Path) { |p| == 3 && HasPrefix(p, PURPOSE_MINT) && IsHardened(p[2]) }

  predicate IsPoolColdKeyPath(p: Path) {
    |p| == 4 && HasPrefix(p, PURPOSE_POOL_COLD_KEY) && p[2] == Harden(0) && IsHardened(p[3])
  }

  predicate IsCVoteKeyPath(p: Path) { IsKeyPath(p, PURPOSE_CVOTE_KEY, 0) }

  // ------------------------------------------------------------ classification

  datatype PathType =
    | PathOrdinaryAccount | PathMultisigAccount
    | PathOrdinaryPaymentKey | PathMultisigPaymentKey
    | PathOrdinaryStakingKey | PathMultisigStakingKey
    | PathDRepKey | PathCommitteeColdKey | PathCommitteeHotKey
    | PathMintKey | PathPoolColdKey
    | PathCVoteAccount | PathCVoteKey
    | PathInvalid

  /** The chain of a path as the classification reads it: narrowed to eight bits. */
  function NarrowChain(p: Path): uint8
    requires |p| > 3
  {
    p[3] % 256
  }

  function ClassifyOrdinaryWalletPath(p: Path): PathType
    requires HasOrdinaryWalletKeyPrefix(p)
  {
    if |p| < 3 || !IsHardened(p[2]) then PathInvalid
    else if |p| == 3 then PathOrdinaryAccount
    else if |p| == 5 then
      var chain := NarrowChain(p);
      if chain == CHAIN_INTERNAL || chain == CHAIN_EXTERNAL then PathOrdinaryPaymentKey
      else if chain == CHAIN_STAKING_KEY then
        if IsOrdinaryStakingKeyPath(p) then PathOrdinaryStakingKey else PathInvalid
      else if chain == CHAIN_DREP_KEY then
        if IsDRepKeyPath(p) then PathDRepKey else PathInvalid
      else if chain == CHAIN_COMMITTEE_COLD_KEY then
        if IsCommitteeColdKeyPath(p) then PathCommitteeColdKey else PathInvalid
      else if chain == CHAIN_COMMITTEE_HOT_KEY then
        if IsCommitteeHotKeyPath(p) then PathCommitteeHotKey else PathInvalid
      else PathInvalid
    else PathInvalid
  }

  function ClassifyMultisigWalletPath(p: Path): PathType
    requires HasPrefix(p, PURPOSE_MULTISIG)
  {
    if |p| < 3 || !IsHardened(p[2]) then PathInvalid
    else if |p| == 3 then PathMultisigAccount
    else if |p| == 5 then
      var chain := NarrowChain(p);
      if chain == CHAIN_EXTERNAL then
        if IsHardened(p[4]) then PathInvalid else PathMultisigPaymentKey
      else if chain == CHAIN_STAKING_KEY then
        if IsMultisigStakingKeyPath(p) then PathMultisigStakingKey else PathInvalid
      else PathInvalid
    else PathInvalid
  }

  function ClassifyCVotePath(p: Path): PathType
    requires HasPrefix(p, PURPOSE_CVOTE_KEY)
  {
    if |p| < 3 || !IsHardened(p[2]) then PathInvalid
    else if |p| == 3 then PathCVoteAccount
    else if |p| == 5 then
      if IsCVoteKeyPath(p) then PathCVoteKey else PathInvalid
    else PathInvalid
  }

  function ClassifyPath(p: Path): PathType {
    if HasOrdinaryWalletKeyPrefix(p) then ClassifyOrdinaryWalletPath(p)
    else if HasPrefix(p, PURPOSE_MULTISIG) then ClassifyMultisigWalletPath(p)
    else if HasPrefix(p, PURPOSE_MINT) then
      if IsMintKeyPath(p) then PathMintKey else PathInvalid
    else if HasPrefix(p, PURPOSE_POOL_COLD_KEY) then
      if IsPoolColdKeyPath(p) then PathPoolColdKey else PathInvalid
    else if HasPrefix(p, PURPOSE_CVOTE_KEY) then ClassifyCVotePath(p)
    else PathInvalid
  }

  /** What each class is, in terms of the path alone. Chains are compared after narrowing to eight bits for payment
      keys, but the shape predicates compare the whole chain, so the other classes are exact. */
  lemma OrdinaryClasses(p: Path)
    ensures ClassifyPath(p) == PathOrdinaryAccount <==> |p| == 3 && HasOrdinaryWalletKeyPrefix(p) && IsHardened(p[2])
    ensures ClassifyPath(p) == PathOrdinaryPaymentKey
       <==> |p| == 5 && HasOrdinaryWalletKeyPrefix(p) && IsHardened(p[2])
            && p[3] % 256 in {CHAIN_EXTERNAL, CHAIN_INTERNAL}
    ensures ClassifyPath(p) == PathOrdinaryStakingKey <==> IsOrdinaryStakingKeyPath(p)
    ensures ClassifyPath(p) == PathDRepKey <==> IsDRepKeyPath(p)
    ensures ClassifyPath(p) == PathCommitteeColdKey <==> IsCommitteeColdKeyPath(p)
    ensures ClassifyPath(p) == PathCommitteeHotKey <==> IsCommitteeHotKeyPath(p)
  {
    hide ClassifyMultisigWalletPath, ClassifyCVotePath;
    NarrowedChain(p);
    OtherClasses(p);
  }

  lemma NarrowedChain(p: Path)
    ensures |p| == 5 && p[3] <= CHAIN_COMMITTEE_HOT_KEY ==> NarrowChain(p) == p[3]
  {
  }

  lemma OtherClasses(p: Path)
    ensures HasPrefix(p, PURPOSE_MULTISIG) ==>
      ClassifyMultisigWalletPath(p) in {PathInvalid, PathMultisigAccount, PathMultisigPaymentKey,
        PathMultisigStakingKey}
    ensures HasPrefix(p, PURPOSE_CVOTE_KEY) ==> ClassifyCVotePath(p) in {PathInvalid, PathCVoteAccount, PathCVoteKey}
  {
  }

  lemma OtherWalletClasses(p: Path)
    ensures ClassifyPath(p) == PathMultisigAccount <==> |p| == 3 && HasPrefix(p, PURPOSE_MULTISIG) && IsHardened(p[2])
    ensures ClassifyPath(p) == PathMultisigPaymentKey
       <==> |p| == 5 && HasPrefix(p, PURPOSE_MULTISIG) && IsHardened(p[2]) && p[3] % 256 == CHAIN_EXTERNAL
            && !IsHardened(p[4])
    ensures ClassifyPath(p) == PathMultisigStakingKey <==> IsMultisigStakingKeyPath(p)
    ensures ClassifyPath(p) == PathMintKey <==> IsMintKeyPath(p)
    ensures ClassifyPath(p) == PathPoolColdKey <==> IsPoolColdKeyPath(p)
    ensures ClassifyPath(p) == PathCVoteAccount <==> |p| == 3 && HasPrefix(p, PURPOSE_CVOTE_KEY) && IsHardened(p[2])
    ensures ClassifyPath(p) == PathCVoteKey <==> IsCVoteKeyPath(p)
  {
    NarrowedChain(p);
    if HasOrdinaryWalletKeyPrefix(p) {
      OrdinaryOnly(p);
    }
  }

  lemma OrdinaryOnly(p: Path)
    requires HasOrdinaryWalletKeyPrefix(p)
    ensures ClassifyOrdinaryWalletPath(p) in {PathInvalid, PathOrdinaryAccount, PathOrdinaryPaymentKey,
              PathOrdinaryStakingKey, PathDRepKey, PathCommitteeColdKey, PathCommitteeHotKey}
  {
  }

  /** A payment key path should have chain 0 or 1: this holds exactly for the paths whose chain fits a byte. */
  lemma PaymentChain(p: Path)
    requires ClassifyPath(p) == PathOrdinaryPaymentKey
    ensures |p| == 5 && (p[3] in {CHAIN_EXTERNAL, CHAIN_INTERNAL} <==> p[3] < 256)
  {
    OrdinaryClasses(p);
  }

  /** A path with chain 256 is taken for a payment key path. */
  lemma WideChainTakenForPayment()
    ensures var p: Path := [Harden(PURPOSE_SHELLEY), Harden(ADA_COIN_TYPE), Harden(0), 256, 0];
            ClassifyPath(p) == PathOrdinaryPaymentKey && p[3] !in {CHAIN_EXTERNAL, CHAIN_INTERNAL}
  {
    var p: Path := [Harden(PURPOSE_SHELLEY), Harden(ADA_COIN_TYPE), Harden(0), 256, 0];
    assert NarrowChain(p) == 0;
  }

  /** Likewise a multisig payment key path should have chain 0, which holds exactly if its chain fits a byte. */
  lemma MultisigPaymentChain(p: Path)
    requires ClassifyPath(p) == PathMultisigPaymentKey
    ensures |p| == 5 && (p[3] == CHAIN_EXTERNAL <==> p[3] < 256)
  {
    OtherWalletClasses(p);
  }

  /** A multisig path with chain 256 is taken for a payment key path, too. */
  lemma WideChainTakenForMultisigPayment()
    ensures var p: Path := [Harden(PURPOSE_MULTISIG), Harden(ADA_COIN_TYPE), Harden(0), 256, 0];
            ClassifyPath(p) == PathMultisigPaymentKey && p[3] != CHAIN_EXTERNAL
  {
    var p: Path := [Harden(PURPOSE_MULTISIG), Harden(ADA_COIN_TYPE), Harden(0), 256, 0];
    assert NarrowChain(p) == 0;
  }

  // ------------------------------------------------------------ the classes in numbers

  /** Every class element by element. Only the chain of payment keys is taken modulo 256, and the last element of an
      ordinary payment path may be hardened. */
  lemma ClassesInNumbers(p: Path)
    ensures ClassifyPath(p) == PathOrdinaryAccount
       <==> |p| == 3 && p[0] in {0x8000_002C, 0x8000_073C} && p[1] == 0x8000_0717 && p[2] >= 0x8000_0000
    ensures ClassifyPath(p) == PathOrdinaryPaymentKey
       <==> |p| == 5 && p[0] in {0x8000_002C, 0x8000_073C} && p[1] == 0x8000_0717 && p[2] >= 0x8000_0000
            && p[3] % 256 <= 1
    ensures ClassifyPath(p) == PathOrdinaryStakingKey
       <==> |p| == 5 && p[0] == 0x8000_073C && p[1] == 0x8000_0717 && p[2] >= 0x8000_0000 && p[3] == 2
            && p[4] < 0x8000_0000
    ensures ClassifyPath(p) == PathDRepKey
       <==> |p| == 5 && p[0] == 0x8000_073C && p[1] == 0x8000_0717 && p[2] >= 0x8000_0000 && p[3] == 3
            && p[4] < 0x8000_0000
    ensures ClassifyPath(p) == PathCommitteeColdKey
       <==> |p| == 5 && p[0] == 0x8000_073C && p[1] == 0x8000_0717 && p[2] >= 0x8000_0000 && p[3] == 4
            && p[4] < 0x8000_0000
    ensures ClassifyPath(p) == PathCommitteeHotKey
       <==> |p| == 5 && p[0] == 0x8000_073C && p[1] == 0x8000_0717 && p[2] >= 0x8000_0000 && p[3] == 5
            && p[4] < 0x8000_0000
  {
    hide ClassifyPath;
    OrdinaryClasses(p);
  }

  lemma OtherClassesInNumbers(p: Path)
    ensures ClassifyPath(p) == PathMultisigAccount
       <==> |p| == 3 && p[0] == 0x8000_073E && p[1] == 0x8000_0717 && p[2] >= 0x8000_0000
    ensures ClassifyPath(p) == PathMultisigPaymentKey
       <==> |p| == 5 && p[0] == 0x8000_073E && p[1] == 0x8000_0717 && p[2] >= 0x8000_0000 && p[3] % 256 == 0
            && p[4] < 0x8000_0000
    ensures ClassifyPath(p) == PathMultisigStakingKey
       <==> |p| == 5 && p[0] == 0x8000_073E && p[1] == 0x8000_0717 && p[2] >= 0x8000_0000 && p[3] == 2
            && p[4] < 0x8000_0000
    ensures ClassifyPath(p) == PathMintKey
       <==> |p| == 3 && p[0] == 0x8000_073F && p[1] == 0x8000_0717 && p[2] >= 0x8000_0000
    ensures ClassifyPath(p) == PathPoolColdKey
       <==> |p| == 4 && p[0] == 0x8000_073D && p[1] == 0x8000_0717 && p[2] == 0x8000_0000 && p[3] >= 0x8000_0000
    ensures ClassifyPath(p) == PathCVoteAccount
       <==> |p| == 3 && p[0] == 0x8000_069E && p[1] == 0x8000_0717 && p[2] >= 0x8000_0000
    ensures ClassifyPath(p) == PathCVoteKey
       <==> |p| == 5 && p[0] == 0x8000_069E && p[1] == 0x8000_0717 && p[2] >= 0x8000_0000 && p[3] == 0
            && p[4] < 0x8000_0000
  {
    hide ClassifyPath;
    OtherWalletClasses(p);
  }
}
