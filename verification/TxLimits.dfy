/** Two limits that the init request does not know of: signing calls that can never be confirmed, and transactions that
    are confirmed although what is hashed for them is not CBOR. */
module TxLimits {
  import opened Basics
  import Bip44
  import AuxData
  import TokenBundle
  import M = TxMint
  import O = TxOutput
  import P = TxPool
  import opened TxBody
  import opened TxMachine
  import opened TxRun
  import B = TxHashBuilder
  import Cbor
  import TxBytes
  import TxItems

  /** Some requests lead from the init request to an accepted confirmation. */
  ghost predicate Confirmable(keyHashOf: Bip44.Path -> KeyHash, d: InitData) {
    exists rs :: Run(keyHashOf, START, [InitRequest(d)] + rs + [ConfirmRequest]).Some?
  }

  predicate LabelsSuffice(p: Params) {
    p.numCollateralInputs <= COLLATERAL_LABELS && p.numReferenceInputs <= REFERENCE_LABELS
  }

  // ------------------------------------------------------------ a transaction for every init request

  const ZERO_HASH: Hash32 :=
    [0, 0, 0, 0, 0, 0, 0, 0, 0, 0, 0, 0, 0, 0, 0, 0, 0, 0, 0, 0, 0, 0, 0, 0, 0, 0, 0, 0, 0, 0, 0, 0]
  const ZERO_KEY_HASH: KeyHash := [0, 0, 0, 0, 0, 0, 0, 0, 0, 0, 0, 0, 0, 0, 0, 0, 0, 0, 0, 0, 0, 0, 0, 0, 0, 0, 0, 0]

  const SOME_OUTPUT := O.Output(O.ARRAY_LEGACY, O.ThirdParty([0]), 0, [], None, None, false)

  /** Reward accounts in their canonical order. */
  function SomeAccount(i: uint16): Account {
    [0, 0, 0, 0, 0, 0, 0, 0, 0, 0, 0, 0, 0, 0, 0, 0, 0, 0, 0, 0, 0, 0, 0, 0, 0, 0, 0] + [i / 256, i % 256]
  }

  function SomeCertificate(g: Setting): P.Certificate {
    P.Certificate(
      1, 0, if g.mode == P.POOL_REGISTRATION_OWNER then P.ByHash(ZERO_KEY_HASH) else P.ByPath([]), ZERO_HASH,
      P.Financials(0, 0, 0, 1), P.GivenAccount([16 * P.REWARD_KEY + g.networkId % 16] + ZERO_KEY_HASH),
      [P.ByHash(ZERO_KEY_HASH)], [], None)
  }

  function SomeWithdrawals(n: uint16): (ws: seq<Withdrawal>)
    ensures |ws| == n && forall i :: 0 <= i < n ==> ws[i].account == SomeAccount(i)
  {
    if n == 0 then [] else SomeWithdrawals(n - 1) + [Withdrawal(SomeAccount(n - 1), 0)]
  }

  function SomeInputs(n: uint16): (s: seq<Input>)
    ensures |s| == n
  {
    seq(n, _ => Input(ZERO_HASH, 0))
  }

  function SomeCertificates(p: Params): (s: seq<Certificate>)
    ensures |s| == p.numCertificates
    ensures forall i :: 0 <= i < |s| ==>
            s[i] == if P.IsPoolMode(p.txSigningMode) then Pool(SomeCertificate(p.Setting()))
                    else Plain(PoolRetirement(ZERO_KEY_HASH, 0))
  {
    seq(p.numCertificates, _ => if P.IsPoolMode(p.txSigningMode) then Pool(SomeCertificate(p.Setting()))
                                else Plain(PoolRetirement(ZERO_KEY_HASH, 0)))
  }

  function SomeMint(): seq<TokenBundle.Group> {
    [TokenBundle.Group(ZERO_KEY_HASH, [TokenBundle.Token([], 1)])]
  }

  function If<T>(b: bool, x: T): Option<T> {
    if b then Some(x) else None
  }

  /** A body with everything that the parameters announce. */
  function SomeBody(p: Params): Body {
    Body(
      SomeInputs(p.numInputs), seq(p.numOutputs, _ => SOME_OUTPUT), Some(0), If(p.includeTtl, 0), SomeCertificates(p),
      SomeWithdrawals(p.numWithdrawals), If(p.includeValidityIntervalStart, 0), If(p.includeMint, SomeMint()),
      If(p.includeScriptDataHash, ZERO_HASH), SomeInputs(p.numCollateralInputs),
      seq(p.numRequiredSigners, _ => ZERO_KEY_HASH), If(p.includeCollateralOutput, SOME_OUTPUT),
      If(p.includeTotalCollateral, 0), SomeInputs(p.numReferenceInputs),
      seq(p.numVotingProcedures,
          _ => VotingProcedure(COMMITTEE_HOT_KEY_HASH, ZERO_KEY_HASH, ZERO_HASH, 0, VOTE_NO, None)),
      If(p.includeTreasury, 0), If(p.includeDonation, 1))
  }

  function SomeTransaction(d: InitData): Transaction {
    Transaction(d, if d.includeAuxData then GivenHash(ZERO_HASH) else NoAux, SomeBody(Stored(d)))
  }

  lemma {:induction false} ZerosFirst(n: nat, a: seq<byte>, b: seq<byte>)
    requires |a| == |b|
    ensures TokenBundle.BytewiseLess(seq(n, _ => 0) + a, seq(n, _ => 0) + b) == TokenBundle.BytewiseLess(a, b)
  {
    var x, y: seq<byte> := seq(n, _ => 0) + a, seq(n, _ => 0) + b;
    if n == 0 {
      assert x == a && y == b;
    } else {
      assert x[1..] == seq(n - 1, _ => 0) + a && y[1..] == seq(n - 1, _ => 0) + b;
      ZerosFirst(n - 1, a, b);
    }
  }

  lemma AccountsInOrder(i: nat)
    requires i + 1 < TWO_16
    ensures TokenBundle.KeyLess(SomeAccount(i), SomeAccount(i + 1))
  {
    var a, b: seq<byte> := [i / 256, i % 256], [(i + 1) / 256, (i + 1) % 256];
    assert a[1..] == [i % 256] && b[1..] == [(i + 1) % 256];
    ZerosFirst(27, a, b);
    assert SomeAccount(i) == seq(27, _ => 0) + a && SomeAccount(i + 1) == seq(27, _ => 0) + b;
  }

  lemma {:induction false} SomeWithdrawalsInOrder(n: uint16)
    ensures TokenBundle.Ascending(None, Accounts(SomeWithdrawals(n)))
  {
    hide TokenBundle.KeyLess, TokenBundle.Ascending, SomeAccount;
    if n == 0 {
      assert Accounts(SomeWithdrawals(0)) == [];
      NothingAscends();
    } else {
      var ws := SomeWithdrawals(n - 1);
      SomeWithdrawalsInOrder(n - 1);
      AccountsSnoc(ws, Withdrawal(SomeAccount(n - 1), 0));
      if n > 1 {
        AccountsInOrder(n - 2);
        assert Accounts(ws)[n - 2] == SomeAccount(n - 2);
      }
      TokenBundle.AscendingSnoc(None, Accounts(ws), SomeAccount(n - 1));
    }
  }

  lemma NothingAscends()
    ensures TokenBundle.Ascending(None, [])
  {
  }

  lemma SomeOutputWellFormed(collateral: bool)
    ensures O.WellFormed(collateral, SOME_OUTPUT)
  {
  }

  lemma SomeMintWellFormed()
    ensures M.WellFormed(SomeMint())
  {
    var g := SomeMint()[0];
    assert TokenBundle.Names(g.tokens) == [[]];
    assert TokenBundle.PolicyIds(SomeMint()) == [ZERO_KEY_HASH];
  }

  lemma SomeCertificateWellFormed(g: Setting)
    requires P.IsPoolMode(g.mode) && g.networkId < 16
    ensures P.WellFormed(g, SomeCertificate(g))
  {
    var c := SomeCertificate(g);
    assert c.owners[1..] == [];
  }

  lemma SomeBodyWellFormed(p: Params)
    requires p.networkId < 16 && LabelsSuffice(p)
    ensures WellFormed(p.Setting(), SomeBody(p)) && Matches(p, SomeBody(p))
  {
    hide O.WellFormed, M.WellFormed, P.WellFormed, TokenBundle.Ascending, SomeCertificate, Accounts;
    SomeOutputWellFormed(false);
    SomeOutputWellFormed(true);
    SomeMintWellFormed();
    SomeWithdrawalsInOrder(p.numWithdrawals);
    if P.IsPoolMode(p.txSigningMode) {
      SomeCertificateWellFormed(p.Setting());
    }
  }

  lemma SomeTransactionAccepted(d: InitData)
    requires InitAccepted(d) && LabelsSuffice(Stored(d))
    ensures Accepted(SomeTransaction(d))
  {
    hide WellFormed, Matches, SomeBody;
    SomeBodyWellFormed(Stored(d));
  }

  // ------------------------------------------------------------ exactly when there is a way to the confirmation

  /** A signing call with an accepted init request can be confirmed exactly if it announces at most 1000 collateral
      inputs and at most 10000 reference inputs: labels of later ones do not fit. */
  lemma CanBeConfirmed(keyHashOf: Bip44.Path -> KeyHash, d: InitData)
    requires InitAccepted(d)
    ensures Confirmable(keyHashOf, d) <==> LabelsSuffice(Stored(d))
  {
    hide Run, InitAccepted, Stored, Matches, SomeBody, BodyRequests, AuxRequests, AuxData.WellFormed;
    if rs :| Run(keyHashOf, START, [InitRequest(d)] + rs + [ConfirmRequest]).Some? {
      ConfirmedRun(keyHashOf, [InitRequest(d)] + rs);
      var t :| Received([InitRequest(d)] + rs, t);
      FirstIsInit(t);
      assert t.init == d;
      BodyLabelled(Stored(d), t.body);
    }
    if LabelsSuffice(Stored(d)) {
      var t := SomeTransaction(d);
      SomeTransactionAccepted(d);
      ConfirmedRun(keyHashOf, Requests(t));
      assert Received(Requests(t), t);
      var rs := AuxRequests(t.aux) + BodyRequests(t.body);
      assert Requests(t) == [InitRequest(d)] + rs;
    }
  }

  lemma BodyLabelled(p: Params, b: Body)
    requires Matches(p, b) && WellFormed(p.Setting(), b)
    ensures LabelsSuffice(p)
  {
  }

  const MANY_COLLATERAL_INPUTS :=
    InitData(0, MAINNET_NETWORK_ID, MAINNET_PROTOCOL_MAGIC, P.PLUTUS_TX, 1, 1, false, 0, 0, false, false, false, false,
             1001, 0, false, false, false, 0, 0, false, false, 1)

  /** An accepted init request after which nothing is ever confirmed: it announces 1001 collateral inputs, within the
      limit of 65535 that is checked. */
  lemma NeverConfirmed(keyHashOf: Bip44.Path -> KeyHash)
    ensures InitAccepted(MANY_COLLATERAL_INPUTS) && !Confirmable(keyHashOf, MANY_COLLATERAL_INPUTS)
  {
    CanBeConfirmed(keyHashOf, MANY_COLLATERAL_INPUTS);
  }

  // ------------------------------------------------------------ a legacy output with a reference script

  const LEGACY_WITH_SCRIPT := SOME_OUTPUT.(script := Some([[0]]))

  lemma LegacyWithScriptWellFormed()
    ensures O.WellFormed(false, LEGACY_WITH_SCRIPT) && TxItems.IsStray(LEGACY_WITH_SCRIPT)
  {
    assert [[0]][1..] == [];
    assert O.Total([[0]]) == 1 + O.Total([]);
  }

  const ONE_OUTPUT :=
    InitData(0, MAINNET_NETWORK_ID, MAINNET_PROTOCOL_MAGIC, P.ORDINARY_TX, 1, 1, false, 0, 0, false, false, false,
             false, 0, 0, false, false, false, 0, 0, false, false, 1)

  /** A transaction with one legacy output that has a reference script: its requests are accepted up to the
      confirmation, and the bytes hashed for it are the encoding of no data item. */
  lemma LegacyScriptHashed(keyHashOf: Bip44.Path -> KeyHash) returns (t: Transaction)
    ensures Accepted(t) && t.body.outputs == [LEGACY_WITH_SCRIPT]
    ensures Run(keyHashOf, START, Requests(t) + [ConfirmRequest]).Some?
    ensures var f := Frame(Stored(t.init), ZERO_HASH, keyHashOf);
            forall i :: Cbor.Fits(i) ==> Cbor.Encode(i) != B.HashedBytes(BodyWord(f, t.body))
  {
    hide WellFormed, Matches, SomeBody, Run, Cbor.Fits, Cbor.Encode, B.HashedBytes, BodyWord, O.WellFormed,
         BodyRequests, AuxRequests, TxItems.BodyItem;
    LegacyBody(Stored(ONE_OUTPUT));
    t := Transaction(ONE_OUTPUT, NoAux, SomeBody(Stored(ONE_OUTPUT)).(outputs := [LEGACY_WITH_SCRIPT]));
    assert Accepted(t) && Received(Requests(t), t);
    ConfirmedRun(keyHashOf, Requests(t));
    TxBytes.HashedItem(Frame(Stored(t.init), ZERO_HASH, keyHashOf), t.body);
    assert TxItems.IsStray(t.body.outputs[0]);
  }

  lemma LegacyBody(p: Params)
    requires p.networkId < 16 && LabelsSuffice(p) && p.numOutputs == 1
    ensures var b := SomeBody(p).(outputs := [LEGACY_WITH_SCRIPT]);
            WellFormed(p.Setting(), b) && Matches(p, b) && TxItems.IsStray(LEGACY_WITH_SCRIPT)
  {
    hide O.WellFormed, M.WellFormed, P.WellFormed, TokenBundle.Ascending, SomeCertificate, Accounts, SomeBody;
    SomeBodyWellFormed(p);
    LegacyWithScriptWellFormed();
  }
}
