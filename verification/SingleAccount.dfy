/** The single account model: the paths of a transaction that are hidden from the user or trusted as the user's own
    belong to one account. */
module SingleAccount {
  import opened Basics
  import opened Bip44
  import opened ShelleyAddress

  /** Two paths may occur in one transaction: same account, and Byron and Shelley mixed in the first account only. */
  predicate Compatible(p: Path, q: Path)
    requires |p| > 2 && |q| > 2
  {
    p[2] == q[2] && (HasByronPrefix(p) != HasByronPrefix(q) ==> p[2] == Harden(0))
  }

  /** Compatibility element by element: Byron paths are those that begin with 44'. */
  lemma CompatibleInNumbers(p: Path, q: Path)
    requires Checkable(p) && Checkable(q)
    ensures |p| >= 3 && p[0] in {0x8000_002C, 0x8000_073C} && p[1] == 0x8000_0717
    ensures Compatible(p, q)
       <==> p[2] == q[2] && (p[0] == q[0] || p[2] == 0x8000_0000)
  {
  }

  predicate Checkable(p: Path) {
    HasOrdinaryWalletKeyPrefix(p) && ContainsAccount(p)
  }

  /** single_account_data_t. The ghost field is the sequence of paths accepted so far. */
  class SingleAccountData {
    var isStored: bool
    var isByron: bool
    var accountNumber: uint32
    ghost var accepted: seq<Path>

    ghost predicate Valid()
      reads this
    {
      && (forall i :: 0 <= i < |accepted| ==> Checkable(accepted[i]))
      && (isStored <==> accepted != [])
      && (isStored ==> accountNumber == accepted[0][2] && isByron == HasByronPrefix(accepted[0]))
      && (forall i :: 0 <= i < |accepted| ==> Compatible(accepted[0], accepted[i]))
    }

    constructor ()
      ensures Valid() && accepted == []
    {
      isStored, isByron, accountNumber, accepted := false, false, 0, [];
    }

    /** violatesSingleAccountOrStoreIt. A path is refused exactly if it is incompatible with one that was
        accepted before. */
    method ViolatesSingleAccountOrStoreIt(path: Path) returns (violates: bool)
      requires Valid() && Checkable(path)
      modifies this
      ensures Valid()
      ensures violates <==> exists i :: 0 <= i < |old(accepted)| && !Compatible(old(accepted)[i], path)
      ensures accepted == if violates then old(accepted) else old(accepted) + [path]
    {
      hide HasByronPrefix, HasOrdinaryWalletKeyPrefix;
      ghost var before := accepted;
      var isByronPath := HasByronPrefix(path);
      var account := path[2];
      if isStored {
        if account != accountNumber {
          assert !Compatible(before[0], path);
          return true;
        }
        var combinationAllowed := accountNumber == Harden(0);
        if isByron != isByronPath && !combinationAllowed {
          assert !Compatible(before[0], path);
          return true;
        }
        assert Compatible(before[0], path);
        forall i | 0 <= i < |before| ensures Compatible(before[i], path) {
          Transitive(before[0], before[i], path);
        }
      } else {
        isStored, isByron, accountNumber := true, isByronPath, account;
      }
      accepted := accepted + [path];
      return false;
    }

    /** All the paths accepted in a run share one account, and are all Byron or all Shelley unless this is the
        first account. */
    lemma OneAccount(i: nat, j: nat)
      requires Valid() && i < |accepted| && j < |accepted|
      ensures Compatible(accepted[i], accepted[j])
    {
      hide HasByronPrefix, HasOrdinaryWalletKeyPrefix;
      assert Compatible(accepted[0], accepted[i]) && Compatible(accepted[0], accepted[j]);
      Transitive(accepted[0], accepted[i], accepted[j]);
    }
  }

  /** Two paths that are compatible with a third one are compatible with each other. */
  lemma Transitive(p: Path, q: Path, r: Path)
    requires |p| > 2 && |q| > 2 && |r| > 2 && Compatible(p, q) && Compatible(p, r)
    ensures Compatible(q, r)
  {
    hide HasByronPrefix;
  }

  // ------------------------------------------------------------ the policies that make the check

  /** The places where a policy makes the check, with what it looks at. */
  datatype Site =
    | ChangeOutput(params: AddressParams, networkId: uint8, protocolMagic: uint32)
    | StakeCertificate(path: Path)
    | CommitteeCertificate(path: Path)
    | DRepCertificate(path: Path)
    | PoolOwner(path: Path)
    | WithdrawalAccount(path: Path)
    | OrdinaryWitness(path: Path)

  /** The path that is checked. */
  function PathOf(s: Site): Path
    requires s.ChangeOutput? ==> s.params.payment.PaymentPath?
  {
    match s
    case ChangeOutput(p, _, _) => p.payment.path
    case StakeCertificate(p) => p
    case CommitteeCertificate(p) => p
    case DRepCertificate(p) => p
    case PoolOwner(p) => p
    case WithdrawalAccount(p) => p
    case OrdinaryWitness(p) => p
  }

  /** What a policy has established when it makes the check. */
  predicate Reached(s: Site) {
    match s
    case ChangeOutput(p, networkId, protocolMagic) =>
      && Parsed(p) && IsValidAddressParams(p) && !IsReward(p.kind)
      && (if p.kind == BYRON then p.protocolMagic == protocolMagic else p.networkId == networkId)
      && PaysToPath(p.kind)
    case StakeCertificate(p) => IsOrdinaryStakingKeyPath(p)
    case CommitteeCertificate(p) => IsCommitteeColdKeyPath(p)
    case DRepCertificate(p) => IsDRepKeyPath(p)
    case PoolOwner(p) => IsOrdinaryStakingKeyPath(p)
    case WithdrawalAccount(p) => IsOrdinaryStakingKeyPath(p)
    case OrdinaryWitness(p) =>
      ClassifyPath(p) in {PathOrdinaryPaymentKey, PathOrdinaryStakingKey, PathDRepKey, PathCommitteeColdKey,
                          PathCommitteeHotKey}
  }

  /** The assertion on the path that is checked never fails. */
  lemma CheckableWhenReached(s: Site)
    requires Reached(s)
    ensures s.ChangeOutput? ==> s.params.payment.PaymentPath?
    ensures Checkable(PathOf(s))
  {
    hide ClassifyPath, HasPrefix, StakingConsistent;
    match s
    case ChangeOutput(p, _, _) => OrdinaryClasses(p.payment.path);
    case OrdinaryWitness(p) => OrdinaryClasses(p);
    case _ =>
  }
}
