/** The word of builder calls determines the transaction body it stands for, but for how keys and addresses
    were given. */
module TxUnique {
  import opened Basics
  import Bip44
  import TokenBundle
  import O = TxOutput
  import M = TxMint
  import P = TxPool
  import opened TxBody

  // ------------------------------------------------------------ codes

  /** No word of an admissible element begins with the word of another one of a different form. */
  ghost predicate PrefixFree<A(!new), B(!new), C(!new)>(word: A -> seq<B>, ok: A -> bool, form: A -> C) {
    forall x, y :: ok(x) && ok(y) && word(x) <= word(y) ==> form(x) == form(y) && word(x) == word(y)
  }

  predicate All<A>(ok: A -> bool, s: seq<A>) {
    forall i :: 0 <= i < |s| ==> ok(s[i])
  }

  predicate SameForms<A, C(==)>(form: A -> C, s: seq<A>, t: seq<A>) {
    |s| == |t| && forall i :: 0 <= i < |s| ==> form(s[i]) == form(t[i])
  }

  lemma PrefixOfSame<B>(a: seq<B>, b: seq<B>, v: seq<B>, w: seq<B>)
    requires a + v == b + w
    ensures a <= b || b <= a
    ensures a == b ==> v == w
  {
    var s := a + v;
    assert s[..|a|] == a && s[..|b|] == b;
    assert s[|a|..] == v && s[|b|..] == w;
    if |a| <= |b| {
      assert b[..|a|] == a;
    } else {
      assert a[..|b|] == b;
    }
  }

  lemma FlatCons<A, B>(word: A -> seq<B>, s: seq<A>, v: seq<B>)
    requires s != []
    ensures Flat(word, s) + v == word(s[0]) + (Flat(word, s[1..]) + v)
  {
    assert s == [s[0]] + s[1..];
    FlatAppend(word, [s[0]], s[1..]);
    assert Flat(word, [s[0]]) == Flat(word, []) + word(s[0]);
    Glue(Flat(word, s) + v, word(s[0]), Flat(word, s[1..]), v);
  }

  lemma SameFormsCons<A, C>(form: A -> C, s: seq<A>, t: seq<A>)
    requires s != [] && t != [] && form(s[0]) == form(t[0]) && SameForms(form, s[1..], t[1..])
    ensures SameForms(form, s, t)
  {
    assert forall i :: 0 < i < |s| ==> s[i] == s[1..][i - 1] && t[i] == t[1..][i - 1];
  }

  /** Lists of the same length over a prefix-free code are read in one way only, whatever follows them. */
  lemma {:induction false} FlatUnique<A(!new), B(!new), C(!new)>(
      word: A -> seq<B>, ok: A -> bool, form: A -> C, s: seq<A>, t: seq<A>, v: seq<B>, w: seq<B>)
    requires PrefixFree(word, ok, form) && All(ok, s) && All(ok, t) && |s| == |t|
    requires Flat(word, s) + v == Flat(word, t) + w
    ensures SameForms(form, s, t) && v == w
    decreases |s|
  {
    if s == [] {
      assert Flat(word, s) + v == v && Flat(word, t) + w == w;
    } else {
      hide Flat, SameForms;
      FlatCons(word, s, v);
      FlatCons(word, t, w);
      PrefixOfSame(word(s[0]), word(t[0]), Flat(word, s[1..]) + v, Flat(word, t[1..]) + w);
      assert ok(s[0]) && ok(t[0]);
      FlatUnique(word, ok, form, s[1..], t[1..], v, w);
      SameFormsCons(form, s, t);
    }
  }

  // ------------------------------------------------------------ outputs

  lemma {:induction false} TokensUnique(a: seq<TokenBundle.Token>, b: seq<TokenBundle.Token>,
                                        v: seq<O.OutputCall>, w: seq<O.OutputCall>)
    requires |a| == |b| && O.TokenCalls(a) + v == O.TokenCalls(b) + w
    ensures a == b && v == w
  {
    var x, y := O.TokenCalls(a) + v, O.TokenCalls(b) + w;
    if a == [] {
      assert x == v && y == w;
    } else {
      assert x[0] == y[0];
      assert x[1..] == O.TokenCalls(a[1..]) + v && y[1..] == O.TokenCalls(b[1..]) + w;
      TokensUnique(a[1..], b[1..], v, w);
      assert a == [a[0]] + a[1..] && b == [b[0]] + b[1..];
    }
  }

  lemma GroupsUnfolded(groups: seq<TokenBundle.Group>, rest: seq<O.OutputCall>)
    requires TokenBundle.Short(groups)
    ensures groups == [] ==> O.GroupCalls(groups) + rest == rest
    ensures groups != [] ==>
            var x := O.GroupCalls(groups) + rest;
            |x| > 0 && x[0] == O.AddTokenGroup(groups[0].policyId, |groups[0].tokens|)
            && x[1..] == O.TokenCalls(groups[0].tokens) + (O.GroupCalls(groups[1..]) + rest)
  {
    hide O.TokenCalls;
    if groups != [] {
      var e, t, m := [O.AddTokenGroup(groups[0].policyId, |groups[0].tokens|)], O.TokenCalls(groups[0].tokens),
        O.GroupCalls(groups[1..]);
      var x := O.GroupCalls(groups) + rest;
      Glue(x, e + t, m, rest);
      Glue(x, e, t, m + rest);
      TokenBundle.FirstAndRest(x, e[0], t + (m + rest));
    } else {
      assert O.GroupCalls(groups) + rest == rest;
    }
  }

  lemma {:induction false} GroupsUnique(a: seq<TokenBundle.Group>, b: seq<TokenBundle.Group>,
                                        v: seq<O.OutputCall>, w: seq<O.OutputCall>)
    requires |a| == |b| && TokenBundle.Short(a) && TokenBundle.Short(b)
    requires O.GroupCalls(a) + v == O.GroupCalls(b) + w
    ensures a == b && v == w
  {
    hide O.GroupCalls, O.TokenCalls;
    var x, y := O.GroupCalls(a) + v, O.GroupCalls(b) + w;
    GroupsUnfolded(a, v);
    GroupsUnfolded(b, w);
    if a != [] {
      assert x[0] == y[0] && x[1..] == y[1..];
      TokensUnique(a[0].tokens, b[0].tokens, O.GroupCalls(a[1..]) + v, O.GroupCalls(b[1..]) + w);
      GroupsUnique(a[1..], b[1..], v, w);
      assert a == [a[0]] + a[1..] && b == [b[0]] + b[1..];
    }
  }

  predicate Nonempty(chunks: seq<seq<byte>>) {
    forall i :: 0 <= i < |chunks| ==> chunks[i] != []
  }

  lemma {:induction false} ChunksNonempty(remaining: nat, chunks: seq<seq<byte>>, forced: bool)
    requires O.ChunksAccepted(remaining, chunks, forced)
    ensures Nonempty(chunks)
    decreases |chunks|
  {
    if chunks != [] {
      ChunksNonempty(remaining - |chunks[0]|, chunks[1..], forced);
      assert forall i :: 0 < i < |chunks| ==> chunks[i] == chunks[1..][i - 1];
    }
  }

  lemma DataNonempty(chunks: seq<seq<byte>>, forceFirst: bool, limit: nat)
    requires O.DataAccepted(chunks, forceFirst, limit)
    ensures Nonempty(chunks)
  {
    ChunksNonempty(O.Total(chunks) - |chunks[0]|, chunks[1..], !forceFirst);
    assert forall i :: 0 < i < |chunks| ==> chunks[i] == chunks[1..][i - 1];
  }

  lemma {:induction false} DatumUnique(a: seq<seq<byte>>, b: seq<seq<byte>>, v: seq<O.OutputCall>, w: seq<O.OutputCall>)
    requires Nonempty(a) && Nonempty(b) && O.Total(a) == O.Total(b)
    requires O.DatumCalls(a) + v == O.DatumCalls(b) + w
    ensures a == b && v == w
    decreases |a|
  {
    var x, y := O.DatumCalls(a) + v, O.DatumCalls(b) + w;
    if a == [] || b == [] {
      assert a == [] && b == [];
      assert x == v && y == w;
    } else {
      assert x[0] == y[0];
      assert x[1..] == O.DatumCalls(a[1..]) + v && y[1..] == O.DatumCalls(b[1..]) + w;
      DatumUnique(a[1..], b[1..], v, w);
      assert a == [a[0]] + a[1..] && b == [b[0]] + b[1..];
    }
  }

  lemma {:induction false} ScriptUnique(a: seq<seq<byte>>, b: seq<seq<byte>>, v: seq<O.OutputCall>,
    w: seq<O.OutputCall>)
    requires Nonempty(a) && Nonempty(b) && O.Total(a) == O.Total(b)
    requires O.ScriptCalls(a) + v == O.ScriptCalls(b) + w
    ensures a == b && v == w
    decreases |a|
  {
    var x, y := O.ScriptCalls(a) + v, O.ScriptCalls(b) + w;
    if a == [] || b == [] {
      assert a == [] && b == [];
      assert x == v && y == w;
    } else {
      assert x[0] == y[0];
      assert x[1..] == O.ScriptCalls(a[1..]) + v && y[1..] == O.ScriptCalls(b[1..]) + w;
      ScriptUnique(a[1..], b[1..], v, w);
      assert a == [a[0]] + a[1..] && b == [b[0]] + b[1..];
    }
  }

  predicate DataShort(chunks: seq<seq<byte>>) {
    Nonempty(chunks) && O.Total(chunks) < TWO_32
  }

  lemma DatumUnfolded(chunks: seq<seq<byte>>, v: seq<O.OutputCall>)
    requires DataShort(chunks)
    ensures var x := O.DatumPart(Some(O.Inline(chunks))) + v;
            |x| > 0 && x[0] == O.AddInlineDatum(O.Total(chunks)) && x[1..] == O.DatumCalls(chunks) + v
  {
    hide O.DatumCalls, Nonempty, O.Total;
    var e := O.AddInlineDatum(O.Total(chunks));
    Glue(O.DatumPart(Some(O.Inline(chunks))) + v, [e], O.DatumCalls(chunks), v);
    TokenBundle.FirstAndRest(O.DatumPart(Some(O.Inline(chunks))) + v, e, O.DatumCalls(chunks) + v);
  }

  lemma DatumPartUnique(a: Option<O.Datum>, b: Option<O.Datum>, v: seq<O.OutputCall>, w: seq<O.OutputCall>)
    requires a.Some? == b.Some?
    requires a.Some? && a.value.Inline? ==> DataShort(a.value.chunks)
    requires b.Some? && b.value.Inline? ==> DataShort(b.value.chunks)
    requires O.DatumPart(a) + v == O.DatumPart(b) + w
    ensures a == b && v == w
  {
    hide O.DatumPart, O.DatumCalls, Nonempty, O.Total;
    PartOfHash(a, v);
    PartOfHash(b, w);
    if a.Some? && a.value.Inline? {
      DatumUnfolded(a.value.chunks, v);
    }
    if b.Some? && b.value.Inline? {
      DatumUnfolded(b.value.chunks, w);
    }
    if a.Some? && a.value.Inline? && b.value.Inline? {
      DatumUnique(a.value.chunks, b.value.chunks, v, w);
    }
  }

  lemma PartOfHash(a: Option<O.Datum>, v: seq<O.OutputCall>)
    ensures a.None? ==> O.DatumPart(a) + v == v
    ensures a.Some? && a.value.ByHash? ==>
            var x := O.DatumPart(a) + v; |x| > 0 && x[0] == O.AddDatumHash(a.value.hash) && x[1..] == v
  {
    hide O.DatumCalls, O.Total;
  }

  lemma ScriptUnfolded(chunks: seq<seq<byte>>, v: seq<O.OutputCall>)
    requires DataShort(chunks)
    ensures var x := O.ScriptPart(Some(chunks)) + v;
            |x| > 0 && x[0] == O.AddRefScript(O.Total(chunks)) && x[1..] == O.ScriptCalls(chunks) + v
  {
    hide O.ScriptCalls, Nonempty, O.Total;
    var e := O.AddRefScript(O.Total(chunks));
    Glue(O.ScriptPart(Some(chunks)) + v, [e], O.ScriptCalls(chunks), v);
    TokenBundle.FirstAndRest(O.ScriptPart(Some(chunks)) + v, e, O.ScriptCalls(chunks) + v);
  }

  lemma ScriptPartUnique(a: Option<seq<seq<byte>>>, b: Option<seq<seq<byte>>>, v: seq<O.OutputCall>,
    w: seq<O.OutputCall>)
    requires a.Some? == b.Some?
    requires a.Some? ==> DataShort(a.value) && DataShort(b.value)
    requires O.ScriptPart(a) + v == O.ScriptPart(b) + w
    ensures a == b && v == w
  {
    hide O.ScriptCalls, Nonempty, O.Total;
    if a.None? {
      assert O.ScriptPart(a) + v == v && O.ScriptPart(b) + w == w;
    } else {
      hide O.ScriptPart;
      ScriptUnfolded(a.value, v);
      ScriptUnfolded(b.value, w);
      ScriptUnique(a.value, b.value, v, w);
    }
  }

  lemma DataOfOutput(o: O.Output)
    requires O.WellFormed(false, o)
    ensures o.datum.Some? && o.datum.value.Inline? ==> DataShort(o.datum.value.chunks)
    ensures o.script.Some? ==> DataShort(o.script.value)
  {
    hide O.ChunksAccepted, O.ChunkAccepted, O.Total, TokenBundle.GroupsAccepted;
    if o.datum.Some? && o.datum.value.Inline? {
      DataNonempty(o.datum.value.chunks, true, O.BUFFER_SIZE_PARANOIA);
    }
    if o.script.Some? {
      DataNonempty(o.script.value, false, TWO_32);
    }
  }

  /** The builder learns the address of an output, not how it was given or what was shown. */
  function Addressed(o: O.Output): O.Output {
    o.(destination := O.ThirdParty(o.destination.address), scriptShown := false)
  }

  /** The calls of an output do not begin with those of another one. */
  lemma OutputUnique(o: O.Output, p: O.Output)
    requires O.WellFormed(false, o) && O.WellFormed(false, p) && O.OutputCalls(o) <= O.OutputCalls(p)
    ensures Addressed(o) == Addressed(p) && O.OutputCalls(o) == O.OutputCalls(p)
  {
    hide O.GroupCalls, O.DatumPart, O.ScriptPart, O.DataAccepted, TokenBundle.GroupsAccepted, DataShort,
         O.Harmless;
    DataOfOutput(o);
    DataOfOutput(p);
    var rest := O.OutputCalls(p)[|O.OutputCalls(o)|..];
    assert O.OutputCalls(o) + rest == O.OutputCalls(p) + [];
    O.ShortGroups(o.groups);
    O.ShortGroups(p.groups);
    var s, t := O.AddTopLevel(O.Derived(O.TopOf(o))), O.AddTopLevel(O.Derived(O.TopOf(p)));
    var a, b := O.DatumPart(o.datum) + O.ScriptPart(o.script), O.DatumPart(p.datum) + O.ScriptPart(p.script);
    var x, y := O.GroupCalls(o.groups) + a, O.GroupCalls(p.groups) + b;
    assert ([s] + x) + rest == [s] + (x + rest);
    assert ([t] + y) + [] == [t] + (y + []);
    TokenBundle.FirstAndRest(O.OutputCalls(p) + [], s, x + rest);
    TokenBundle.FirstAndRest(O.OutputCalls(p) + [], t, y + []);
    assert x + rest == O.GroupCalls(o.groups) + (a + rest) && y + [] == O.GroupCalls(p.groups) + (b + []);
    GroupsUnique(o.groups, p.groups, a + rest, b + []);
    assert a + rest == O.DatumPart(o.datum) + (O.ScriptPart(o.script) + rest);
    assert b + [] == O.DatumPart(p.datum) + (O.ScriptPart(p.script) + []);
    DatumPartUnique(o.datum, p.datum, O.ScriptPart(o.script) + rest, O.ScriptPart(p.script) + []);
    ScriptPartUnique(o.script, p.script, rest, []);
    assert O.OutputCalls(o) + [] == O.OutputCalls(o) && O.OutputCalls(p) + [] == O.OutputCalls(p);
  }

  /** No requests stand for two outputs. */
  lemma OutputReceivedOnce(collateral: bool, es: seq<O.OutputEvent>, o: O.Output, p: O.Output)
    requires O.Received(collateral, es, o) && O.Received(collateral, es, p)
    ensures o == p
  {
    hide O.WellFormed, O.OutputCalls;
    O.RequestsLog(o);
    O.RequestsLog(p);
    OutputUnique(o, p);
    FirstRequest(o);
    FirstRequest(p);
    assert o == Addressed(o).(destination := o.destination, scriptShown := o.scriptShown);
  }

  lemma FirstRequest(o: O.Output)
    requires O.WellFormed(false, o)
    ensures |O.Requests(o)| > 0 && O.Requests(o)[0] == O.TopLevel(O.TopOf(o), true)
  {
  }

  // ------------------------------------------------------------ mint

  lemma {:induction false} MintTokensUnique(a: seq<TokenBundle.Token>, b: seq<TokenBundle.Token>,
                                            v: seq<M.MintCall>, w: seq<M.MintCall>)
    requires |a| == |b| && M.TokenCalls(a) + v == M.TokenCalls(b) + w
    ensures a == b && v == w
  {
    var x, y := M.TokenCalls(a) + v, M.TokenCalls(b) + w;
    if a == [] {
      assert x == v && y == w;
    } else {
      assert x[0] == y[0];
      assert x[1..] == M.TokenCalls(a[1..]) + v && y[1..] == M.TokenCalls(b[1..]) + w;
      MintTokensUnique(a[1..], b[1..], v, w);
      assert a == [a[0]] + a[1..] && b == [b[0]] + b[1..];
    }
  }

  lemma MintGroupsUnfolded(groups: seq<TokenBundle.Group>, rest: seq<M.MintCall>)
    requires TokenBundle.Short(groups)
    ensures groups == [] ==> M.GroupCalls(groups) + rest == rest
    ensures groups != [] ==>
            var x := M.GroupCalls(groups) + rest;
            |x| > 0 && x[0] == M.AddMintGroup(groups[0].policyId, |groups[0].tokens|)
            && x[1..] == M.TokenCalls(groups[0].tokens) + (M.GroupCalls(groups[1..]) + rest)
  {
    hide M.TokenCalls;
    if groups != [] {
      var e, t, m := [M.AddMintGroup(groups[0].policyId, |groups[0].tokens|)], M.TokenCalls(groups[0].tokens),
        M.GroupCalls(groups[1..]);
      var x := M.GroupCalls(groups) + rest;
      Glue(x, e + t, m, rest);
      Glue(x, e, t, m + rest);
      TokenBundle.FirstAndRest(x, e[0], t + (m + rest));
    } else {
      assert M.GroupCalls(groups) + rest == rest;
    }
  }

  lemma {:induction false} MintGroupsUnique(a: seq<TokenBundle.Group>, b: seq<TokenBundle.Group>,
                                            v: seq<M.MintCall>, w: seq<M.MintCall>)
    requires |a| == |b| && TokenBundle.Short(a) && TokenBundle.Short(b)
    requires M.GroupCalls(a) + v == M.GroupCalls(b) + w
    ensures a == b && v == w
  {
    hide M.GroupCalls, M.TokenCalls;
    var x, y := M.GroupCalls(a) + v, M.GroupCalls(b) + w;
    MintGroupsUnfolded(a, v);
    MintGroupsUnfolded(b, w);
    if a != [] {
      assert x[0] == y[0] && x[1..] == y[1..];
      MintTokensUnique(a[0].tokens, b[0].tokens, M.GroupCalls(a[1..]) + v, M.GroupCalls(b[1..]) + w);
      MintGroupsUnique(a[1..], b[1..], v, w);
      assert a == [a[0]] + a[1..] && b == [b[0]] + b[1..];
    }
  }

  lemma MintUnique(a: seq<TokenBundle.Group>, b: seq<TokenBundle.Group>)
    requires M.WellFormed(a) && M.WellFormed(b) && M.MintCalls(a) <= M.MintCalls(b)
    ensures a == b
  {
    hide M.GroupCalls, TokenBundle.GroupsAccepted;
    var x, y := M.GroupCalls(a), M.GroupCalls(b);
    assert M.MintCalls(a)[0] == M.MintCalls(b)[0];
    assert M.MintCalls(a)[1..] == x && M.MintCalls(b)[1..] == y;
    assert x <= y;
    var rest := y[|x|..];
    assert x + rest == y + [];
    MintGroupsUnique(a, b, rest, []);
  }

  // ------------------------------------------------------------ certificates

  /** A key is known to the builder by its hash only. */
  function HashedKey(env: P.Env, r: P.KeyRef): P.KeyRef {
    P.ByHash(P.HashOf(env.keyHashOf, r))
  }

  function HashedKeys(env: P.Env, rs: seq<P.KeyRef>): (s: seq<P.KeyRef>)
    ensures |s| == |rs| && forall i :: 0 <= i < |s| ==> s[i] == HashedKey(env, rs[i])
  {
    if rs == [] then [] else [HashedKey(env, rs[0])] + HashedKeys(env, rs[1..])
  }

  /** What the builder learns of a certificate. */
  function Hashed(env: P.Env, c: Certificate): Certificate {
    match c
    case Plain(_) => c
    case Pool(p) =>
      Pool(p.(poolKey := HashedKey(env, p.poolKey), owners := HashedKeys(env, p.owners),
              numOwners := Narrow16(|p.owners|), numRelays := Narrow16(|p.relays|),
              rewardAccount := P.GivenAccount(P.AccountBytes(env, p.rewardAccount))))
  }

  lemma {:induction false} OwnersUnique(env: P.Env, a: seq<P.KeyRef>, b: seq<P.KeyRef>)
    requires P.OwnerCalls(env.keyHashOf, a) == P.OwnerCalls(env.keyHashOf, b)
    ensures HashedKeys(env, a) == HashedKeys(env, b)
  {
    if a != [] {
      var x, y := P.OwnerCalls(env.keyHashOf, a), P.OwnerCalls(env.keyHashOf, b);
      assert x[0] == y[0];
      assert x[1..] == P.OwnerCalls(env.keyHashOf, a[1..]) && y[1..] == P.OwnerCalls(env.keyHashOf, b[1..]);
      OwnersUnique(env, a[1..], b[1..]);
    }
  }

  lemma {:induction false} RelaysUnique(a: seq<P.Relay>, b: seq<P.Relay>)
    requires P.RelayCalls(a) == P.RelayCalls(b)
    ensures a == b
  {
    if a != [] {
      var x, y := P.RelayCalls(a), P.RelayCalls(b);
      assert x[0] == y[0] && x[1..] == P.RelayCalls(a[1..]) && y[1..] == P.RelayCalls(b[1..]);
      RelaysUnique(a[1..], b[1..]);
      assert a == [a[0]] + a[1..] && b == [b[0]] + b[1..];
    }
  }

  lemma PoolUnique(env: P.Env, c: P.Certificate, d: P.Certificate)
    requires |c.owners| < TWO_16 && |c.relays| < TWO_16 && |d.owners| < TWO_16 && |d.relays| < TWO_16
    requires P.CertificateCalls(env, c) <= P.CertificateCalls(env, d)
    ensures Hashed(env, Pool(c)) == Hashed(env, Pool(d))
    ensures P.CertificateCalls(env, c) == P.CertificateCalls(env, d)
  {
    hide P.OwnerCalls, P.RelayCalls, HashedKeys, P.HashOf;
    var x, y := P.CertificateCalls(env, c), P.CertificateCalls(env, d);
    assert x[0] == y[0] && x[1] == y[1] && x[2] == y[2] && x[3] == y[3] && x[4] == y[4];
    assert |c.owners| == |d.owners| && |c.relays| == |d.relays|;
    assert |x| == |y| && x == y;
    var n, m := |c.owners|, |c.relays|;
    assert x[6..6 + n] == P.OwnerCalls(env.keyHashOf, c.owners) && y[6..6 + n] == P.OwnerCalls(env.keyHashOf, d.owners);
    assert x[7 + n..7 + n + m] == P.RelayCalls(c.relays) && y[7 + n..7 + n + m] == P.RelayCalls(d.relays);
    assert x[7 + n + m] == y[7 + n + m] == P.AddMetadata(c.metadata);
    OwnersUnique(env, c.owners, d.owners);
    RelaysUnique(c.relays, d.relays);
  }

  // ------------------------------------------------------------ the words of elements

  predicate Any<A>(x: A) { true }

  function Same<A>(x: A): A { x }

  ghost predicate SingleCalls<A(!new), B(!new)>(word: A -> seq<B>) {
    (forall x :: |word(x)| == 1) && forall x, y :: word(x) == word(y) ==> x == y
  }

  lemma SinglePrefixFree<A(!new), B(!new)>(word: A -> seq<B>)
    requires SingleCalls(word)
    ensures PrefixFree(word, Any, Same)
  {
    forall x, y | word(x) <= word(y) ensures x == y {
      assert word(x) == word(y);
    }
  }

  lemma {:induction false} Wrapped<A(!new), B(!new)>(word: A -> seq<B>, s: seq<A>)
    requires SingleCalls(word)
    ensures |Flat(word, s)| == |s| && forall i :: 0 <= i < |s| ==> [Flat(word, s)[i]] == word(s[i])
  {
    if s != [] {
      Wrapped(word, s[..|s| - 1]);
    }
  }

  lemma WrappedPrefix<A(!new), B(!new)>(word: A -> seq<B>, s: seq<A>, t: seq<A>)
    requires SingleCalls(word) && Flat(word, s) <= Flat(word, t)
    ensures s <= t
  {
    Wrapped(word, s);
    Wrapped(word, t);
    forall i | 0 <= i < |s| ensures s[i] == t[i] {
      assert Flat(word, s)[i] == Flat(word, t)[i];
      assert word(s[i]) == word(t[i]);
    }
  }

  predicate OutputOk(o: O.Output) { O.WellFormed(false, o) }

  lemma OutputCode()
    ensures PrefixFree(OutputWord, OutputOk, Addressed)
    ensures PrefixFree(CollateralOutputWord, OutputOk, Addressed)
  {
    hide O.WellFormed, O.OutputCalls, Flat;
    forall x, y | OutputOk(x) && OutputOk(y) && OutputWord(x) <= OutputWord(y)
      ensures Addressed(x) == Addressed(y) && OutputWord(x) == OutputWord(y)
    {
      WrappedPrefix(OutputCallWord, O.OutputCalls(x), O.OutputCalls(y));
      OutputUnique(x, y);
    }
    forall x, y | OutputOk(x) && OutputOk(y) && CollateralOutputWord(x) <= CollateralOutputWord(y)
      ensures Addressed(x) == Addressed(y) && CollateralOutputWord(x) == CollateralOutputWord(y)
    {
      WrappedPrefix(CollateralCallWord, O.OutputCalls(x), O.OutputCalls(y));
      OutputUnique(x, y);
    }
  }

  lemma MintCode()
    ensures PrefixFree(MintWord, M.WellFormed, Same)
  {
    hide M.WellFormed, M.MintCalls, Flat;
    forall x, y | M.WellFormed(x) && M.WellFormed(y) && MintWord(x) <= MintWord(y) ensures x == y {
      WrappedPrefix(MintCallWord, M.MintCalls(x), M.MintCalls(y));
      MintUnique(x, y);
    }
  }

  predicate CertificateOk(c: Certificate) {
    c.Pool? ==> |c.certificate.owners| < TWO_16 && |c.certificate.relays| < TWO_16
  }

  lemma CertificateKind(env: P.Env, x: Certificate)
    requires CertificateOk(x)
    ensures |CertificateWord(env, x)| > 0
    ensures CertificateWord(env, x)[0].OnPool? <==> x.Pool?
  {
    hide Flat, P.OwnerCalls, P.RelayCalls;
    if x.Pool? {
      Wrapped(PoolCallWord, P.CertificateCalls(env, x.certificate));
    }
  }

  lemma CertificatePrefix(env: P.Env, x: Certificate, y: Certificate)
    requires CertificateOk(x) && CertificateOk(y)
    requires CertificateWord(env, x) <= CertificateWord(env, y)
    ensures Hashed(env, x) == Hashed(env, y)
            && CertificateWord(env, x) == CertificateWord(env, y)
  {
    hide Flat, P.OwnerCalls, P.RelayCalls, HashedKeys;
    CertificateKind(env, x);
    CertificateKind(env, y);
    assert CertificateWord(env, x)[0] == CertificateWord(env, y)[0];
    if x.Pool? {
      WrappedPrefix(PoolCallWord, P.CertificateCalls(env, x.certificate),
                    P.CertificateCalls(env, y.certificate));
      PoolUnique(env, x.certificate, y.certificate);
    }
  }

  lemma CertificateCode(env: P.Env, word: Certificate -> seq<Call>,
    form: Certificate -> Certificate)
    requires forall c :: word(c) == CertificateWord(env, c)
    requires forall c :: form(c) == Hashed(env, c)
    ensures PrefixFree(word, CertificateOk, form)
  {
    hide CertificateWord, Hashed;
    forall x, y | CertificateOk(x) && CertificateOk(y) && word(x) <= word(y)
      ensures form(x) == form(y) && word(x) == word(y)
    {
      CertificatePrefix(env, x, y);
    }
  }

  function HashedAll(env: P.Env, cs: seq<Certificate>): (s: seq<Certificate>)
    ensures |s| == |cs| && forall i :: 0 <= i < |s| ==> s[i] == Hashed(env, cs[i])
  {
    if cs == [] then [] else [Hashed(env, cs[0])] + HashedAll(env, cs[1..])
  }

  lemma CertificatesUnique(env: P.Env, a: seq<Certificate>, b: seq<Certificate>, v: seq<Call>,
    w: seq<Call>)
    requires |a| == |b| && All(CertificateOk, a) && All(CertificateOk, b)
    requires CertificatesWord(env, a) + v == CertificatesWord(env, b) + w
    ensures HashedAll(env, a) == HashedAll(env, b) && v == w
  {
    hide CertificateWord, Hashed, CertificatesWord, Flat;
    var word := (c: Certificate) => CertificateWord(env, c);
    var form := (c: Certificate) => Hashed(env, c);
    CertificateCode(env, word, form);
    CertificatesFlat(env, word, a);
    CertificatesFlat(env, word, b);
    FlatUnique(word, CertificateOk, form, a, b, v, w);
  }

  // ------------------------------------------------------------ sections

  function AddressedAll(os: seq<O.Output>): (s: seq<O.Output>)
    ensures |s| == |os| && forall i :: 0 <= i < |s| ==> s[i] == Addressed(os[i])
  {
    if os == [] then [] else [Addressed(os[0])] + AddressedAll(os[1..])
  }

  /** What the hash builder learns of a body: addresses of outputs, hashes of keys, and the lengths of lists. */
  function Known(env: P.Env, b: Body): Body {
    b.(outputs := AddressedAll(b.outputs), certificates := HashedAll(env, b.certificates),
       collateralOutput := if b.collateralOutput.Some? then Some(Addressed(b.collateralOutput.value)) else None)
  }

  /** The hash builder learns the same of section k of the two bodies. */
  ghost predicate SameSection(env: P.Env, b: Body, c: Body, k: nat) {
    if k == INPUTS then b.inputs == c.inputs
    else if k == OUTPUTS then AddressedAll(b.outputs) == AddressedAll(c.outputs)
    else if k == FEE then b.fee == c.fee else if k == TTL then b.ttl == c.ttl
    else if k == CERTIFICATES then HashedAll(env, b.certificates) == HashedAll(env, c.certificates)
    else if k == WITHDRAWALS then b.withdrawals == c.withdrawals
    else if k == VALIDITY_INTERVAL then b.validityIntervalStart == c.validityIntervalStart
    else if k == MINT then b.mint == c.mint else if k == SCRIPT_DATA_HASH then b.scriptDataHash == c.scriptDataHash
    else if k == COLLATERAL_INPUTS then b.collateralInputs == c.collateralInputs
    else if k == REQUIRED_SIGNERS then b.requiredSigners == c.requiredSigners
    else if k == COLLATERAL_OUTPUT then Known(env, b).collateralOutput == Known(env, c).collateralOutput
    else if k == TOTAL_COLLATERAL then b.totalCollateral == c.totalCollateral
    else if k == REFERENCE_INPUTS then b.referenceInputs == c.referenceInputs
    else if k == VOTING_PROCEDURES then b.votingProcedures == c.votingProcedures
    else if k == TREASURY then b.treasury == c.treasury else if k == DONATION then b.donation == c.donation
    else true
  }

  lemma ListUnique<A(!new)>(word: A -> seq<Call>, s: seq<A>, t: seq<A>, v: seq<Call>, w: seq<Call>)
    requires SingleCalls(word) && |s| == |t| && Flat(word, s) + v == Flat(word, t) + w
    ensures s == t && v == w
  {
    hide Flat;
    SinglePrefixFree(word);
    FlatUnique(word, Any, Same, s, t, v, w);
  }

  lemma OutputsUnique(s: seq<O.Output>, t: seq<O.Output>, v: seq<Call>, w: seq<Call>)
    requires |s| == |t| && All(OutputOk, s) && All(OutputOk, t) && Flat(OutputWord, s) + v == Flat(OutputWord, t) + w
    ensures AddressedAll(s) == AddressedAll(t) && v == w
  {
    hide Flat, OutputWord, O.WellFormed;
    OutputCode();
    FlatUnique(OutputWord, OutputOk, Addressed, s, t, v, w);
  }

  /** The sections with lists of elements of one call each. */
  lemma ListSections(f: Frame, b: Body, c: Body, k: nat, v: seq<Call>, w: seq<Call>)
    requires k in {INPUTS, WITHDRAWALS, COLLATERAL_INPUTS, REQUIRED_SIGNERS, REFERENCE_INPUTS, VOTING_PROCEDURES}
    requires Size(b, k) == Size(c, k) && SectionItems(f, b, k) + v == SectionItems(f, c, k) + w
    ensures SameSection(f.Env(), b, c, k) && v == w
  {
    hide Flat;
    if k == INPUTS { ListUnique(InputWord, b.inputs, c.inputs, v, w); }
    else if k == WITHDRAWALS { ListUnique(WithdrawalWord, b.withdrawals, c.withdrawals, v, w); }
    else if k == COLLATERAL_INPUTS { ListUnique(CollateralInputWord, b.collateralInputs, c.collateralInputs, v, w); }
    else if k == REQUIRED_SIGNERS { ListUnique(SignerWord, b.requiredSigners, c.requiredSigners, v, w); }
    else if k == REFERENCE_INPUTS { ListUnique(ReferenceInputWord, b.referenceInputs, c.referenceInputs, v, w); }
    else { ListUnique(VotingWord, b.votingProcedures, c.votingProcedures, v, w); }
  }

  /** The sections with an optional element of one call. */
  lemma OptionalSections(f: Frame, b: Body, c: Body, k: nat, v: seq<Call>, w: seq<Call>)
    requires k in {FEE, TTL, VALIDITY_INTERVAL, SCRIPT_DATA_HASH, TOTAL_COLLATERAL, TREASURY, DONATION, END}
    requires Size(b, k) == Size(c, k) && SectionItems(f, b, k) + v == SectionItems(f, c, k) + w
    ensures SameSection(f.Env(), b, c, k) && v == w
  {
    var x, y := SectionItems(f, b, k), SectionItems(f, c, k);
    assert |x| == Size(b, k) && |y| == Size(c, k);
    PrefixOfSame(x, y, v, w);
    assert x == y;
  }

  /** The sections in which sub-machines work. */
  lemma PartSections(f: Frame, b: Body, c: Body, k: nat, v: seq<Call>, w: seq<Call>)
    requires k in {OUTPUTS, CERTIFICATES, MINT, COLLATERAL_OUTPUT}
    requires WellFormed(f.params.Setting(), b) && WellFormed(f.params.Setting(), c)
    requires Size(b, k) == Size(c, k) && SectionItems(f, b, k) + v == SectionItems(f, c, k) + w
    ensures SameSection(f.Env(), b, c, k) && v == w
  {
    hide Flat, O.WellFormed, M.WellFormed, OutputWord, CollateralOutputWord, MintWord, CertificatesWord, HashedAll,
         AddressedAll, TokenBundle.Ascending, Accounts;
    if k == OUTPUTS {
      OutputsUnique(b.outputs, c.outputs, v, w);
    } else if k == CERTIFICATES {
      CertificatesUnique(f.Env(), b.certificates, c.certificates, v, w);
    } else if k == MINT {
      if b.mint.Some? {
        MintCode();
        PrefixOfSame(MintWord(b.mint.value), MintWord(c.mint.value), v, w);
      } else {
        assert [] + v == v && [] + w == w;
      }
    } else if b.collateralOutput.Some? {
      O.WellFormedAnyway(true, b.collateralOutput.value);
      O.WellFormedAnyway(true, c.collateralOutput.value);
      OutputCode();
      PrefixOfSame(CollateralOutputWord(b.collateralOutput.value), CollateralOutputWord(c.collateralOutput.value),
                   v, w);
    } else {
      assert [] + v == v && [] + w == w;
    }
  }

  lemma SectionUnique(f: Frame, b: Body, c: Body, k: nat, v: seq<Call>, w: seq<Call>)
    requires k <= END && WellFormed(f.params.Setting(), b) && WellFormed(f.params.Setting(), c)
    requires Size(b, k) == Size(c, k) && SectionItems(f, b, k) + v == SectionItems(f, c, k) + w
    ensures SameSection(f.Env(), b, c, k) && v == w
  {
    hide SectionItems, Size, WellFormed, SameSection;
    if k in {OUTPUTS, CERTIFICATES, MINT, COLLATERAL_OUTPUT} {
      PartSections(f, b, c, k, v, w);
    } else if k in {FEE, TTL, VALIDITY_INTERVAL, SCRIPT_DATA_HASH, TOTAL_COLLATERAL, TREASURY, DONATION, END} {
      OptionalSections(f, b, c, k, v, w);
    } else {
      ListSections(f, b, c, k, v, w);
    }
  }

  // ------------------------------------------------------------ bodies

  /** What is logged from section k on. */
  function LogFrom(f: Frame, b: Body, k: nat): seq<Call>
    decreases END + 1 - k
  {
    if k > END then [] else SectionStart(f, k) + (SectionItems(f, b, k) + LogFrom(f, b, k + 1))
  }

  lemma {:induction false} LogSplit(f: Frame, b: Body, k: nat)
    requires k <= END
    ensures LogUpTo(f, b, END) == LogUpTo(f, b, k) + LogFrom(f, b, k + 1)
    decreases END - k
  {
    hide SectionStart, SectionItems;
    if k < END {
      LogSplit(f, b, k + 1);
      assert LogUpTo(f, b, k + 1) == LogUpTo(f, b, k) + SectionStart(f, k + 1) + SectionItems(f, b, k + 1);
      assert LogFrom(f, b, k + 1) == SectionStart(f, k + 1) + (SectionItems(f, b, k + 1) + LogFrom(f, b, k + 2));
      FourParts(LogUpTo(f, b, k), SectionStart(f, k + 1), SectionItems(f, b, k + 1), LogFrom(f, b, k + 2));
    } else {
      assert LogFrom(f, b, k + 1) == [];
    }
  }

  lemma FourParts<T>(a: seq<T>, b: seq<T>, c: seq<T>, d: seq<T>)
    ensures ((a + b) + c) + d == a + (b + (c + d))
  {
  }

  lemma {:induction false} SameFrom(f: Frame, b: Body, c: Body, k: nat)
    requires k <= END + 1 && LogFrom(f, b, k) == LogFrom(f, c, k)
    requires WellFormed(f.params.Setting(), b) && WellFormed(f.params.Setting(), c)
    requires forall j :: 0 <= j <= END ==> Size(b, j) == Size(c, j)
    ensures forall j :: k <= j <= END ==> SameSection(f.Env(), b, c, j)
    decreases END + 1 - k
  {
    hide SectionStart, SectionItems, Size, WellFormed, SameSection;
    if k <= END {
      var x, y := SectionItems(f, b, k) + LogFrom(f, b, k + 1), SectionItems(f, c, k) + LogFrom(f, c, k + 1);
      PrefixOfSame(SectionStart(f, k), SectionStart(f, k), x, y);
      SectionUnique(f, b, c, k, LogFrom(f, b, k + 1), LogFrom(f, c, k + 1));
      SameFrom(f, b, c, k + 1);
    }
  }

  lemma MatchingSizes(p: Params, b: Body, c: Body, k: nat)
    requires Matches(p, b) && Matches(p, c)
    ensures Size(b, k) == Size(c, k)
  {
  }

  /** Of two bodies that the same init request announces and that stand for the same calls the hash builder learns the
      same. So what is hashed fixes what is signed. */
  lemma WordDeterminesBody(f: Frame, b: Body, c: Body)
    requires Matches(f.params, b) && Matches(f.params, c)
    requires WellFormed(f.params.Setting(), b) && WellFormed(f.params.Setting(), c)
    requires BodyWord(f, b) == BodyWord(f, c)
    ensures Known(f.Env(), b) == Known(f.Env(), c)
  {
    hide WellFormed, LogUpTo, LogFrom, Matches, Size, HashedAll, AddressedAll, SameSection;
    forall k: nat ensures Size(b, k) == Size(c, k) { MatchingSizes(f.params, b, c, k); }
    WholeLog(f, b);
    WholeLog(f, c);
    PrefixOfSame([InitBuilder(f.params)], [InitBuilder(f.params)], LogFrom(f, b, 0), LogFrom(f, c, 0));
    SameFrom(f, b, c, 0);
    FirstSections(f.Env(), b, c);
    LastSections(f.Env(), b, c);
  }

  lemma WholeLog(f: Frame, b: Body)
    ensures BodyWord(f, b) == [InitBuilder(f.params)] + LogFrom(f, b, 0)
  {
    hide SectionStart, SectionItems;
    LogSplit(f, b, 0);
    assert LogUpTo(f, b, 0) == [InitBuilder(f.params)] + SectionStart(f, 0) + SectionItems(f, b, 0);
    assert LogFrom(f, b, 0) == SectionStart(f, 0) + (SectionItems(f, b, 0) + LogFrom(f, b, 1));
    FourParts([InitBuilder(f.params)], SectionStart(f, 0), SectionItems(f, b, 0), LogFrom(f, b, 1));
  }

  lemma FirstSections(env: P.Env, b: Body, c: Body)
    requires forall k :: 0 <= k <= END ==> SameSection(env, b, c, k)
    ensures b.inputs == c.inputs && AddressedAll(b.outputs) == AddressedAll(c.outputs)
    ensures b.fee == c.fee && b.ttl == c.ttl
    ensures HashedAll(env, b.certificates) == HashedAll(env, c.certificates)
    ensures b.withdrawals == c.withdrawals && b.validityIntervalStart == c.validityIntervalStart && b.mint == c.mint
  {
    hide HashedAll, AddressedAll;
    assert SameSection(env, b, c, 0) && SameSection(env, b, c, 1) && SameSection(env, b, c, 2);
    assert SameSection(env, b, c, 3) && SameSection(env, b, c, 4) && SameSection(env, b, c, 5);
    assert SameSection(env, b, c, 6) && SameSection(env, b, c, 7);
  }

  lemma LastSections(env: P.Env, b: Body, c: Body)
    requires forall k :: 0 <= k <= END ==> SameSection(env, b, c, k)
    ensures b.scriptDataHash == c.scriptDataHash && b.collateralInputs == c.collateralInputs
    ensures b.requiredSigners == c.requiredSigners
    ensures Known(env, b).collateralOutput == Known(env, c).collateralOutput
    ensures b.totalCollateral == c.totalCollateral && b.referenceInputs == c.referenceInputs
    ensures b.votingProcedures == c.votingProcedures && b.treasury == c.treasury && b.donation == c.donation
  {
    hide HashedAll, AddressedAll;
    assert SameSection(env, b, c, 8) && SameSection(env, b, c, 9) && SameSection(env, b, c, 10);
    assert SameSection(env, b, c, 11) && SameSection(env, b, c, 12) && SameSection(env, b, c, 13);
    assert SameSection(env, b, c, 14) && SameSection(env, b, c, 15) && SameSection(env, b, c, 16);
  }
}
