/** Token bundles: the canonical order of their keys, and the stream of requests that carries one. */
module TokenBundle {
  import opened Basics

  const MINTING_POLICY_ID_SIZE := 28
  const ASSET_NAME_SIZE_MAX := 32

  type PolicyId = s: seq<byte> | |s| == MINTING_POLICY_ID_SIZE witness seq(28, _ => 0)
  type AssetName = s: seq<byte> | |s| <= ASSET_NAME_SIZE_MAX

  /** Amounts take 64 bits: they are unsigned in outputs and signed in a mint. */
  type Amount = n: int | -0x8000_0000_0000_0000 <= n < TWO_64

  datatype Token = Token(name: AssetName, amount: Amount)

  datatype Group = Group(policyId: PolicyId, tokens: seq<Token>)

  // ------------------------------------------------------------ canonical order

  predicate BytewiseLess(a: seq<byte>, b: seq<byte>)
    requires |a| == |b|
  {
    a != [] && (a[0] < b[0] || (a[0] == b[0] && BytewiseLess(a[1..], b[1..])))
  }

  /** The strict order of map keys of section 3.9 of RFC 7049: shorter first, then byte by byte. */
  predicate KeyLess(a: seq<byte>, b: seq<byte>) {
    if |a| != |b| then |a| < |b| else BytewiseLess(a, b)
  }

  /** The first byte in which two keys of the same length differ is smaller. */
  lemma {:induction false} BytewiseInWords(a: seq<byte>, b: seq<byte>)
    requires |a| == |b|
    ensures BytewiseLess(a, b) <==> exists i :: 0 <= i < |a| && a[..i] == b[..i] && a[i] < b[i]
  {
    if a != [] {
      BytewiseInWords(a[1..], b[1..]);
      if a[0] < b[0] {
        assert a[..0] == b[..0];
      }
      if i :| 0 <= i < |a[1..]| && a[1..][..i] == b[1..][..i] && a[1..][i] < b[1..][i] && a[0] == b[0] {
        assert a[..i + 1] == [a[0]] + a[1..][..i] && b[..i + 1] == [b[0]] + b[1..][..i];
      }
      if i :| 0 <= i < |a| && a[..i] == b[..i] && a[i] < b[i] && i > 0 {
        assert a[0] == a[..i][0] && b[0] == b[..i][0];
        assert a[1..][..i - 1] == a[..i][1..] && b[1..][..i - 1] == b[..i][1..];
      }
    }
  }

  /** The order in words: a shorter key comes first; of two keys of the same length the one that is smaller in the first
      byte in which they differ. */
  ghost predicate Precedes(a: seq<byte>, b: seq<byte>) {
    |a| < |b| || (|a| == |b| && exists i :: 0 <= i < |a| && a[..i] == b[..i] && a[i] < b[i])
  }

  lemma KeyOrderInWords(a: seq<byte>, b: seq<byte>)
    ensures KeyLess(a, b) <==> Precedes(a, b)
  {
    if |a| == |b| {
      BytewiseInWords(a, b);
    }
  }

  /** cbor_mapKeyFulfillsCanonicalOrdering */
  method FulfillsCanonicalOrdering(previous: seq<byte>, next: seq<byte>) returns (r: bool)
    ensures r == KeyLess(previous, next)
    ensures r <==>
            (|previous| < |next|
             || (|previous| == |next|
                 && exists i :: 0 <= i < |previous| && previous[..i] == next[..i] && previous[i] < next[i]))
  {
    KeyOrderInWords(previous, next);
    if |previous| != |next| { return |previous| < |next|; }
    var i := 0;
    while i < |previous|
      invariant 0 <= i <= |previous|
      invariant BytewiseLess(previous, next) == BytewiseLess(previous[i..], next[i..])
    {
      if previous[i] != next[i] { return previous[i] < next[i]; }
      i := i + 1;
    }
    return false;
  }

  lemma {:induction false} BytewiseOrder(a: seq<byte>, b: seq<byte>, c: seq<byte>)
    requires |a| == |b| == |c|
    ensures !BytewiseLess(a, a)
    ensures BytewiseLess(a, b) && BytewiseLess(b, c) ==> BytewiseLess(a, c)
    ensures a == b || BytewiseLess(a, b) || BytewiseLess(b, a)
  {
    if a != [] {
      BytewiseOrder(a[1..], b[1..], c[1..]);
      assert a == [a[0]] + a[1..] && b == [b[0]] + b[1..];
    }
  }

  /** The order is strict and total. */
  lemma KeyOrder(a: seq<byte>, b: seq<byte>, c: seq<byte>)
    ensures !KeyLess(a, a)
    ensures KeyLess(a, b) && KeyLess(b, c) ==> KeyLess(a, c)
    ensures a == b || KeyLess(a, b) || KeyLess(b, a)
  {
    BytewiseOrder(a, a, a);
    if |a| == |b| {
      BytewiseOrder(a, b, a);
      if |b| == |c| {
        BytewiseOrder(a, b, c);
      }
    }
  }

  /** Each key is larger than the one before it; the first one than `previous`, if there is one. */
  predicate Ascending(previous: Option<seq<byte>>, keys: seq<seq<byte>>)
    decreases |keys|
  {
    keys != [] ==>
      && (previous.Some? ==> KeyLess(previous.value, keys[0]))
      && Ascending(Some(keys[0]), keys[1..])
  }

  /** A key larger than the last one can follow. */
  lemma {:induction false} AscendingSnoc(previous: Option<seq<byte>>, keys: seq<seq<byte>>, key: seq<byte>)
    requires Ascending(previous, keys)
    requires keys != [] ==> KeyLess(keys[|keys| - 1], key)
    requires keys == [] && previous.Some? ==> KeyLess(previous.value, key)
    ensures Ascending(previous, keys + [key])
    decreases |keys|
  {
    hide KeyLess;
    if keys == [] {
      assert ([key])[1..] == [];
      assert keys + [key] == [key];
    } else {
      assert (keys + [key])[1..] == keys[1..] + [key];
      AscendingSnoc(Some(keys[0]), keys[1..], key);
    }
  }

  lemma {:induction false} AscendingFrom(previous: seq<byte>, keys: seq<seq<byte>>)
    requires Ascending(Some(previous), keys)
    ensures forall i :: 0 <= i < |keys| ==> KeyLess(previous, keys[i])
    decreases |keys|
  {
    hide KeyLess;
    if keys != [] {
      AscendingFrom(keys[0], keys[1..]);
      forall i | 0 <= i < |keys| ensures KeyLess(previous, keys[i]) {
        if i > 0 {
          assert keys[i] == keys[1..][i - 1];
          KeyOrder(previous, keys[0], keys[i]);
        }
      }
    }
  }

  /** Comparing neighbours is enough: keys in ascending order are pairwise ordered, hence distinct. */
  lemma {:induction false} AscendingOrdered(previous: Option<seq<byte>>, keys: seq<seq<byte>>)
    requires Ascending(previous, keys)
    ensures forall i, j :: 0 <= i < j < |keys| ==> KeyLess(keys[i], keys[j]) && keys[i] != keys[j]
    decreases |keys|
  {
    hide KeyLess;
    if keys != [] {
      AscendingFrom(keys[0], keys[1..]);
      AscendingOrdered(Some(keys[0]), keys[1..]);
      forall i, j | 0 <= i < j < |keys| ensures KeyLess(keys[i], keys[j]) && keys[i] != keys[j] {
        assert keys[j] == keys[1..][j - 1];
        if i > 0 {
          assert keys[i] == keys[1..][i - 1];
        } else {
          KeyOrder(keys[0], keys[0], keys[0]);
        }
      }
    }
  }

  // ------------------------------------------------------------ well-formed bundles

  function Names(tokens: seq<Token>): (s: seq<seq<byte>>)
    ensures |s| == |tokens| && forall i :: 0 <= i < |s| ==> s[i] == tokens[i].name
  {
    if tokens == [] then [] else [tokens[0].name] + Names(tokens[1..])
  }

  function PolicyIds(groups: seq<Group>): (s: seq<seq<byte>>)
    ensures |s| == |groups| && forall i :: 0 <= i < |s| ==> s[i] == groups[i].policyId
  {
    if groups == [] then [] else [groups[0].policyId] + PolicyIds(groups[1..])
  }

  predicate GroupAccepted(g: Group) {
    0 < |g.tokens| < TWO_16 && Ascending(None, Names(g.tokens))
  }

  predicate GroupsAccepted(previous: Option<seq<byte>>, groups: seq<Group>) {
    Ascending(previous, PolicyIds(groups)) && forall i :: 0 <= i < |groups| ==> GroupAccepted(groups[i])
  }

  lemma {:induction false} OrderedAscends(keys: seq<seq<byte>>)
    requires forall i, j :: 0 <= i < j < |keys| ==> KeyLess(keys[i], keys[j])
    ensures Ascending(None, keys)
  {
    hide KeyLess;
    if keys != [] {
      var n := |keys| - 1;
      OrderedAscends(keys[..n]);
      assert keys == keys[..n] + [keys[n]];
      AscendingSnoc(None, keys[..n], keys[n]);
    }
  }

  /** Accepted keys, in words: any two of them are in canonical order. */
  lemma AscendingInWords(keys: seq<seq<byte>>)
    ensures Ascending(None, keys) <==> forall i, j :: 0 <= i < j < |keys| ==> Precedes(keys[i], keys[j])
  {
    hide KeyLess, Ascending, Precedes;
    forall i, j | 0 <= i < j < |keys| ensures KeyLess(keys[i], keys[j]) <==> Precedes(keys[i], keys[j]) {
      KeyOrderInWords(keys[i], keys[j]);
    }
    if Ascending(None, keys) {
      AscendingOrdered(None, keys);
    }
    if forall i, j :: 0 <= i < j < |keys| ==> KeyLess(keys[i], keys[j]) {
      OrderedAscends(keys);
    }
  }

  /** Accepted groups, in words: every group has between 1 and 65535 tokens, and any two policy ids and, within a group,
      any two asset names are in canonical order. */
  lemma GroupsInWords(groups: seq<Group>)
    ensures GroupsAccepted(None, groups)
       <==> && (forall i, j :: 0 <= i < j < |groups| ==> Precedes(groups[i].policyId, groups[j].policyId))
            && (forall i :: 0 <= i < |groups| ==> 0 < |groups[i].tokens| < 65536)
            && (forall i, k, l :: 0 <= i < |groups| && 0 <= k < l < |groups[i].tokens| ==>
                  Precedes(groups[i].tokens[k].name, groups[i].tokens[l].name))
  {
    hide Ascending, Precedes;
    PolicyIdsInWords(groups);
    forall i | 0 <= i < |groups|
      ensures Ascending(None, Names(groups[i].tokens))
         <==> forall k, l :: 0 <= k < l < |groups[i].tokens| ==>
                Precedes(groups[i].tokens[k].name, groups[i].tokens[l].name)
    {
      NamesInWords(groups[i].tokens);
    }
  }

  lemma PolicyIdsInWords(groups: seq<Group>)
    ensures Ascending(None, PolicyIds(groups))
       <==> forall i, j :: 0 <= i < j < |groups| ==> Precedes(groups[i].policyId, groups[j].policyId)
  {
    hide Ascending, Precedes;
    var ids := PolicyIds(groups);
    AscendingInWords(ids);
    forall i, j | 0 <= i < j < |groups|
      ensures Precedes(ids[i], ids[j]) <==> Precedes(groups[i].policyId, groups[j].policyId)
    {
    }
  }

  lemma NamesInWords(tokens: seq<Token>)
    ensures Ascending(None, Names(tokens))
       <==> forall k, l :: 0 <= k < l < |tokens| ==> Precedes(tokens[k].name, tokens[l].name)
  {
    hide Ascending, Precedes;
    var names := Names(tokens);
    AscendingInWords(names);
    forall k, l | 0 <= k < l < |tokens|
      ensures Precedes(names[k], names[l]) <==> Precedes(tokens[k].name, tokens[l].name)
    {
    }
  }

  /** No policy id and, within a group, no asset name occurs twice: all pairs are distinct. */
  lemma PairsDistinct(groups: seq<Group>, i: nat, j: nat, k: nat, l: nat)
    requires GroupsAccepted(None, groups)
    requires i < |groups| && j < |groups| && k < |groups[i].tokens| && l < |groups[j].tokens|
    requires (i, k) != (j, l)
    ensures (groups[i].policyId, groups[i].tokens[k].name) != (groups[j].policyId, groups[j].tokens[l].name)
  {
    AscendingOrdered(None, PolicyIds(groups));
    AscendingOrdered(None, Names(groups[i].tokens));
    assert PolicyIds(groups)[i] == groups[i].policyId && PolicyIds(groups)[j] == groups[j].policyId;
    if i == j {
      var names := Names(groups[i].tokens);
      assert names[k] == groups[i].tokens[k].name && names[l] == groups[i].tokens[l].name;
    }
  }

  // ------------------------------------------------------------ the requests of a bundle

  datatype BundleEvent =
    | AssetGroup(policyId: PolicyId, numTokens: uint32)
    | TokenAmount(name: AssetName, amount: Amount)

  function TokenEvents(tokens: seq<Token>): seq<BundleEvent> {
    if tokens == [] then [] else [TokenAmount(tokens[0].name, tokens[0].amount)] + TokenEvents(tokens[1..])
  }

  function GroupEvents(g: Group): seq<BundleEvent>
    requires |g.tokens| < TWO_16
  {
    [AssetGroup(g.policyId, |g.tokens|)] + TokenEvents(g.tokens)
  }

  function BundleEvents(groups: seq<Group>): seq<BundleEvent>
    requires forall i :: 0 <= i < |groups| ==> |groups[i].tokens| < TWO_16
  {
    if groups == [] then [] else GroupEvents(groups[0]) + BundleEvents(groups[1..])
  }

  /** The counters and the last keys the sub-machines keep while they receive a bundle. */
  datatype Progress = Progress(
    policyId: PolicyId, assetName: AssetName, currentAssetGroup: uint16, currentToken: uint16, numTokens: uint16,
    inGroup: bool)

  predicate Complete(numAssetGroups: uint16, p: Progress) {
    !p.inGroup && p.currentAssetGroup == numAssetGroups
  }

  predicate Consistent(numAssetGroups: uint16, p: Progress) {
    && p.currentAssetGroup <= numAssetGroups
    && (p.inGroup ==> p.currentAssetGroup < numAssetGroups && p.currentToken < p.numTokens)
    && (!p.inGroup ==> p.currentToken == 0)
  }

  /** The progress after a request, or None if it is refused. */
  function Advance(numAssetGroups: uint16, p: Progress, e: BundleEvent): Option<Progress> {
    match e
    case AssetGroup(id, n) =>
      if p.inGroup || p.currentAssetGroup >= numAssetGroups || !(0 < n < TWO_16)
         || (p.currentAssetGroup > 0 && !KeyLess(p.policyId, id)) || p.currentToken != 0
      then None
      else Some(p.(policyId := id, numTokens := n, inGroup := true))
    case TokenAmount(name, _) =>
      if !p.inGroup || p.currentToken >= p.numTokens || (p.currentToken > 0 && !KeyLess(p.assetName, name))
      then None
      else if p.currentToken + 1 < p.numTokens
      then Some(p.(assetName := name, currentToken := p.currentToken + 1))
      else if p.currentAssetGroup >= numAssetGroups then None
      else Some(p.(assetName := name, currentToken := 0, currentAssetGroup := p.currentAssetGroup + 1,
        inGroup := false))
  }

  function Feed(numAssetGroups: uint16, p: Progress, es: seq<BundleEvent>): Option<Progress>
    decreases |es|
  {
    if es == [] then Some(p)
    else
      match Advance(numAssetGroups, p, es[0])
      case None => None
      case Some(q) => Feed(numAssetGroups, q, es[1..])
  }

  lemma AdvanceConsistent(n: uint16, p: Progress, e: BundleEvent)
    requires Consistent(n, p) && Advance(n, p, e).Some?
    ensures Consistent(n, Advance(n, p, e).value) && !Complete(n, p)
  {
    hide KeyLess;
  }

  lemma FeedNext(n: uint16, p: Progress, es: seq<BundleEvent>)
    ensures es == [] ==> Feed(n, p, es) == Some(p)
    ensures es != [] && Advance(n, p, es[0]).Some? ==> Feed(n, p, es) == Feed(n, Advance(n, p, es[0]).value, es[1..])
    ensures es != [] && Advance(n, p, es[0]).None? ==> Feed(n, p, es) == None
  {
  }

  lemma NothingAfterComplete(n: uint16, p: Progress, es: seq<BundleEvent>)
    requires Consistent(n, p) && Complete(n, p) && Feed(n, p, es).Some?
    ensures es == []
  {
    if es != [] && Advance(n, p, es[0]).Some? {
      AdvanceConsistent(n, p, es[0]);
    }
  }

  function LastName(p: Progress): Option<seq<byte>> {
    if p.currentToken > 0 then Some(p.assetName) else None
  }

  function LastPolicy(p: Progress): Option<seq<byte>> {
    if p.currentAssetGroup > 0 then Some(p.policyId) else None
  }

  /** From within a group, a run to the end receives exactly the tokens still missing from the group. */
  lemma {:induction false} SplitTokens(n: uint16, p: Progress, es: seq<BundleEvent>)
      returns (tokens: seq<Token>, q: Progress, rest: seq<BundleEvent>)
    requires Consistent(n, p) && p.inGroup
    requires Feed(n, p, es).Some? && Complete(n, Feed(n, p, es).value)
    ensures |tokens| == p.numTokens - p.currentToken && Ascending(LastName(p), Names(tokens))
    ensures es == TokenEvents(tokens) + rest
    ensures Consistent(n, q) && !q.inGroup && q.currentAssetGroup == p.currentAssetGroup + 1 && q.policyId == p.policyId
    ensures Feed(n, q, rest) == Feed(n, p, es)
    decreases |es|
  {
    hide KeyLess, Feed;
    FeedNext(n, p, es);
    var e, r := es[0], Advance(n, p, es[0]).value;
    AdvanceConsistent(n, p, e);
    var t := Token(e.name, e.amount);
    assert es == [e] + es[1..];
    if r.inGroup {
      var more;
      more, q, rest := SplitTokens(n, r, es[1..]);
      tokens := [t] + more;
      assert tokens[1..] == more && Names(tokens) == [t.name] + Names(more);
      Glue(es, [e], TokenEvents(more), rest);
    } else {
      tokens, q, rest := [t], r, es[1..];
      assert tokens[1..] == [] && Names(tokens) == [t.name] + [];
      assert TokenEvents(tokens) == [e] + TokenEvents([]);
    }
  }

  /** A run to the end receives exactly the groups still missing, every group in full and all keys ascending. */
  lemma {:induction false} SplitGroups(n: uint16, p: Progress, es: seq<BundleEvent>) returns (groups: seq<Group>)
    requires Consistent(n, p) && !p.inGroup
    requires Feed(n, p, es).Some? && Complete(n, Feed(n, p, es).value)
    ensures |groups| == n - p.currentAssetGroup && GroupsAccepted(LastPolicy(p), groups)
    ensures es == BundleEvents(groups)
    decreases |es|
  {
    hide KeyLess, Feed;
    FeedNext(n, p, es);
    if es == [] {
      groups := [];
    } else {
      var e, r := es[0], Advance(n, p, es[0]).value;
      AdvanceConsistent(n, p, e);
      var tokens, q, rest := SplitTokens(n, r, es[1..]);
      var more := SplitGroups(n, q, rest);
      var g := Group(e.policyId, tokens);
      groups := [g] + more;
      assert es == [e] + es[1..];
      Glue(es, [e], TokenEvents(tokens), BundleEvents(more));
      GroupsCons(LastPolicy(p), g, more);
    }
  }

  lemma GroupsCons(previous: Option<seq<byte>>, g: Group, more: seq<Group>)
    ensures GroupsAccepted(previous, [g] + more) <==>
            && GroupAccepted(g) && (previous.Some? ==> KeyLess(previous.value, g.policyId))
            && GroupsAccepted(Some(g.policyId), more)
    ensures GroupsAccepted(previous, [g] + more) ==> BundleEvents([g] + more) == GroupEvents(g) + BundleEvents(more)
  {
    hide KeyLess, GroupAccepted;
    var groups := [g] + more;
    assert groups[1..] == more;
    assert PolicyIds(groups) == [g.policyId] + PolicyIds(more);
    assert PolicyIds(groups)[1..] == PolicyIds(more);
    assert GroupAccepted(g) && (forall i :: 0 <= i < |more| ==> GroupAccepted(more[i])) ==>
      forall i :: 0 <= i < |groups| ==> GroupAccepted(groups[i]) by {
      assert forall i :: 0 < i < |groups| ==> groups[i] == more[i - 1];
    }
    assert (forall i :: 0 <= i < |groups| ==> GroupAccepted(groups[i])) ==>
      GroupAccepted(g) && forall i :: 0 <= i < |more| ==> GroupAccepted(more[i]) by {
      assert groups[0] == g && forall i :: 0 <= i < |more| ==> more[i] == groups[i + 1];
    }
  }

  /** The tokens still missing from a group are accepted one by one. */
  lemma {:induction false} FeedTokens(n: uint16, p: Progress, tokens: seq<Token>, rest: seq<BundleEvent>)
      returns (q: Progress)
    requires Consistent(n, p) && p.inGroup
    requires |tokens| == p.numTokens - p.currentToken && Ascending(LastName(p), Names(tokens))
    ensures Consistent(n, q) && !q.inGroup && q.currentAssetGroup == p.currentAssetGroup + 1 && q.policyId == p.policyId
    ensures Feed(n, p, TokenEvents(tokens) + rest) == Feed(n, q, rest)
    decreases |tokens|
  {
    hide KeyLess, Feed;
    var t, more := tokens[0], tokens[1..];
    var e := TokenAmount(t.name, t.amount);
    FirstAndRest(Names(tokens), t.name, Names(more));
    Glue(TokenEvents(tokens) + rest, [e], TokenEvents(more), rest);
    FirstAndRest(TokenEvents(tokens) + rest, e, TokenEvents(more) + rest);
    FeedNext(n, p, TokenEvents(tokens) + rest);
    var r := Advance(n, p, e).value;
    AdvanceConsistent(n, p, e);
    if more == [] {
      q := r;
      assert TokenEvents(more) + rest == rest;
    } else {
      q := FeedTokens(n, r, more, rest);
    }
  }

  lemma {:induction false} FeedGroups(n: uint16, p: Progress, groups: seq<Group>)
    requires Consistent(n, p) && !p.inGroup
    requires |groups| == n - p.currentAssetGroup && GroupsAccepted(LastPolicy(p), groups)
    ensures Feed(n, p, BundleEvents(groups)).Some? && Complete(n, Feed(n, p, BundleEvents(groups)).value)
    decreases |groups|
  {
    hide KeyLess, Feed;
    if groups == [] {
      FeedNext(n, p, []);
    } else {
      var g, more := groups[0], groups[1..];
      var e := AssetGroup(g.policyId, |g.tokens|);
      assert groups == [g] + more;
      GroupsCons(LastPolicy(p), g, more);
      Glue(BundleEvents(groups), [e], TokenEvents(g.tokens), BundleEvents(more));
      FeedNext(n, p, BundleEvents(groups));
      assert BundleEvents(groups)[1..] == TokenEvents(g.tokens) + BundleEvents(more);
      var r := Advance(n, p, e).value;
      var q := FeedTokens(n, r, g.tokens, BundleEvents(more));
      FeedGroups(n, q, more);
    }
  }

  const ZERO_KEY: PolicyId :=
    [0, 0, 0, 0, 0, 0, 0, 0, 0, 0, 0, 0, 0, 0, 0, 0, 0, 0, 0, 0, 0, 0, 0, 0, 0, 0, 0, 0]

  function Fresh(policyId: PolicyId, assetName: AssetName): Progress {
    Progress(policyId, assetName, 0, 0, 0, false)
  }

  ghost predicate Carries(n: uint16, es: seq<BundleEvent>, groups: seq<Group>) {
    |groups| == n && GroupsAccepted(None, groups) && BundleEvents(groups) == es
  }

  /** The requests accepted up to the end of a bundle are those of exactly one bundle with the declared number of
      groups, every group with its declared number of tokens, and all keys in canonical order. */
  lemma BundleReceived(n: uint16, policyId: PolicyId, assetName: AssetName, es: seq<BundleEvent>)
    ensures (Feed(n, Fresh(policyId, assetName), es).Some?
            && Complete(n, Feed(n, Fresh(policyId, assetName), es).value))
            <==> exists groups :: Carries(n, es, groups)
    ensures forall a, b :: Carries(n, es, a) && Carries(n, es, b) ==> a == b
  {
    var p := Fresh(policyId, assetName);
    if Feed(n, p, es).Some? && Complete(n, Feed(n, p, es).value) {
      var groups := SplitGroups(n, p, es);
      assert Carries(n, es, groups);
    }
    if groups :| Carries(n, es, groups) {
      FeedGroups(n, p, groups);
    }
    forall a, b | Carries(n, es, a) && Carries(n, es, b) ensures a == b {
      assert BundleEvents(a) + [] == BundleEvents(b) + [];
      BundleInjective(a, b, [], []);
    }
  }

  lemma {:induction false} TokensInjective(a: seq<Token>, b: seq<Token>, v: seq<BundleEvent>, w: seq<BundleEvent>)
    requires |a| == |b| && TokenEvents(a) + v == TokenEvents(b) + w
    ensures a == b && v == w
  {
    var x, y := TokenEvents(a) + v, TokenEvents(b) + w;
    if a == [] {
      assert x == v && y == w;
    } else {
      assert x[0] == y[0];
      assert x[1..] == TokenEvents(a[1..]) + v && y[1..] == TokenEvents(b[1..]) + w;
      TokensInjective(a[1..], b[1..], v, w);
      assert a == [a[0]] + a[1..] && b == [b[0]] + b[1..];
    }
  }

  lemma {:induction false} BundleInjective(a: seq<Group>, b: seq<Group>, v: seq<BundleEvent>, w: seq<BundleEvent>)
    requires |a| == |b| && GroupsAccepted(None, a) && GroupsAccepted(None, b)
    requires BundleEvents(a) + v == BundleEvents(b) + w
    ensures a == b && v == w
  {
    GroupsInjective(a, b, v, w);
  }

  predicate Short(groups: seq<Group>) {
    forall i :: 0 <= i < |groups| ==> |groups[i].tokens| < TWO_16
  }

  lemma {:induction false} GroupsInjective(a: seq<Group>, b: seq<Group>, v: seq<BundleEvent>, w: seq<BundleEvent>)
    requires |a| == |b| && Short(a) && Short(b)
    requires BundleEvents(a) + v == BundleEvents(b) + w
    ensures a == b && v == w
  {
    hide BundleEvents, TokenEvents;
    var x, y := BundleEvents(a) + v, BundleEvents(b) + w;
    Unfolded(a, v);
    Unfolded(b, w);
    if a != [] {
      assert x[0] == y[0] && x[1..] == y[1..];
      TokensInjective(a[0].tokens, b[0].tokens, BundleEvents(a[1..]) + v, BundleEvents(b[1..]) + w);
      GroupsInjective(a[1..], b[1..], v, w);
      assert a == [a[0]] + a[1..] && b == [b[0]] + b[1..];
    }
  }

  lemma Unfolded(groups: seq<Group>, rest: seq<BundleEvent>)
    requires Short(groups)
    ensures groups == [] ==> BundleEvents(groups) + rest == rest
    ensures groups != [] ==>
            var x := BundleEvents(groups) + rest;
            |x| > 0 && x[0] == AssetGroup(groups[0].policyId, |groups[0].tokens|)
            && x[1..] == TokenEvents(groups[0].tokens) + (BundleEvents(groups[1..]) + rest)
  {
    hide TokenEvents;
    if groups != [] {
      var e, t, m := [AssetGroup(groups[0].policyId, |groups[0].tokens|)], TokenEvents(groups[0].tokens),
        BundleEvents(groups[1..]);
      var x := BundleEvents(groups) + rest;
      Glue(x, e + t, m, rest);
      Glue(x, e, t, m + rest);
      FirstAndRest(x, e[0], t + (m + rest));
    } else {
      assert BundleEvents(groups) + rest == rest;
    }
  }

  lemma FirstAndRest<T>(x: seq<T>, e: T, rest: seq<T>)
    requires x == [e] + rest
    ensures |x| > 0 && x[0] == e && x[1..] == rest
  {
  }

  /** How far a bundle is from its end: the groups left, and the tokens left in the group. */
  function TokensLeft(n: uint16, p: Progress): (left: nat)
    ensures left <= 2 * TWO_32
  {
    if p.currentAssetGroup > n then 0
    else if !p.inGroup then (n - p.currentAssetGroup) * (TWO_16 + 1)
    else if p.currentAssetGroup == n || p.currentToken > p.numTokens then 0
    else (n - p.currentAssetGroup - 1) * (TWO_16 + 1) + (p.numTokens - p.currentToken)
  }

  lemma AdvanceDecreases(n: uint16, p: Progress, e: BundleEvent)
    requires Advance(n, p, e).Some? && (p.inGroup ==> p.currentAssetGroup < n)
    ensures TokensLeft(n, Advance(n, p, e).value) < TokensLeft(n, p)
  {
    hide KeyLess;
  }
}
