/** The vote registration sub-machine: the order of its requests, and the handlers that drive the
    auxiliary data builder. */
module VoteRegistration {
  import opened Basics
  import opened Bip44
  import opened Cbor
  import opened AuxData

  datatype Phase =
    | AT_INIT | AT_VOTE_KEY | AT_DELEGATIONS | AT_STAKING_KEY | AT_PAYMENT_ADDRESS
    | AT_NONCE | AT_VOTING_PURPOSE | AT_CONFIRM | AT_FINISHED

  datatype State = State(phase: Phase, format: Format, numDelegations: uint16, currentDelegation: uint16,
                         stakingPath: Path)

  const START := State(AT_INIT, CIP15, 0, 0, [])

  /** The state after a request, or None if the request is refused. */
  function Step(s: State, e: Event): Option<State> {
    match (s.phase, e)
    case (AT_INIT, Init(f, n)) =>
      var declared := Narrow16(n);
      if f == CIP15 && declared != 0 then None
      else Some(State(if declared > 0 then AT_DELEGATIONS else AT_VOTE_KEY, f, declared, 0, s.stakingPath))
    case (AT_VOTE_KEY, VoteKey(k)) =>
      if KeyAccepted(s.format, k) then Some(s.(phase := AT_STAKING_KEY)) else None
    case (AT_DELEGATIONS, Delegate(k, _)) =>
      if !KeyAccepted(s.format, k) || s.currentDelegation >= s.numDelegations then None
      else if s.currentDelegation + 1 == s.numDelegations
      then Some(s.(currentDelegation := s.numDelegations, phase := AT_STAKING_KEY))
      else Some(s.(currentDelegation := s.currentDelegation + 1))
    case (AT_STAKING_KEY, StakingKey(p)) =>
      if IsOrdinaryStakingKeyPath(p) then Some(s.(phase := AT_PAYMENT_ADDRESS, stakingPath := p)) else None
    case (AT_PAYMENT_ADDRESS, PaymentAddress(a, allowed)) =>
      if AddressAccepted(a, allowed) then Some(s.(phase := AT_NONCE)) else None
    case (AT_NONCE, Nonce(_)) => Some(s.(phase := AT_VOTING_PURPOSE))
    case (AT_VOTING_PURPOSE, VotingPurpose(o)) =>
      if o.Some? && s.format != CIP36 then None else Some(s.(phase := AT_CONFIRM))
    case (AT_CONFIRM, Confirm) => Some(s.(phase := AT_FINISHED))
    case _ => None
  }

  function Run(s: State, es: seq<Event>): Option<State>
    decreases |es|
  {
    if es == [] then Some(s)
    else
      match Step(s, es[0])
      case None => None
      case Some(t) => Run(t, es[1..])
  }

  lemma RunCons(s: State, e: Event, es: seq<Event>)
    ensures Run(s, [e] + es) == match Step(s, e) case None => None case Some(t) => Run(t, es)
  {
    assert ([e] + es)[1..] == es;
  }

  lemma {:induction false} RunAppend(s: State, v: seq<Event>, w: seq<Event>)
    ensures Run(s, v + w) == match Run(s, v) case None => None case Some(t) => Run(t, w)
    decreases |v|
  {
    hide Step;
    if v == [] {
      assert v + w == w;
    } else {
      assert (v + w)[0] == v[0] && (v + w)[1..] == v[1..] + w;
      if Step(s, v[0]).Some? {
        RunAppend(Step(s, v[0]).value, v[1..], w);
      }
    }
  }

  // ------------------------------------------------------------ what a finished run has received

  ghost predicate Received(es: seq<Event>, r: Registration) {
    WellFormed(r) && Events(r) == es
  }

  /** The paths in a registration that has been received, element by element: that of the staking key, and those of vote
      keys that are given by path, which come with CIP-36 only. */
  lemma ReceivedInNumbers(es: seq<Event>, r: Registration, k: KeyRef)
    requires Received(es, r)
    ensures var p := r.stakingPath;
            |p| == 5 && p[0] == 0x8000_073C && p[1] == 0x8000_0717 && p[2] >= 0x8000_0000 && p[3] == 2
            && p[4] < 0x8000_0000
    ensures (r.keys == Single(k) || (r.keys.Several? && exists i :: 0 <= i < |r.keys.delegations|
                                                                  && r.keys.delegations[i].voteKey == k))
            && k.Derived? ==>
            var p := k.path;
            r.format == CIP36 && |p| == 5 && p[0] == 0x8000_069E && p[1] == 0x8000_0717 && p[2] >= 0x8000_0000
            && p[3] == 0 && p[4] < 0x8000_0000
  {
    hide WellFormed, KeyAccepted;
    RegistrationInNumbers(r);
    VoteKeyInNumbers(r.format, k);
  }

  predicate Finished(s: Option<State>) {
    s.Some? && s.value.phase == AT_FINISHED
  }

  lemma RunNext(s: State, es: seq<Event>)
    ensures Finished(Run(s, es)) && s.phase != AT_FINISHED ==>
            es != [] && Step(s, es[0]).Some? && Finished(Run(Step(s, es[0]).value, es[1..]))
    ensures es != [] && Step(s, es[0]).Some? && Finished(Run(Step(s, es[0]).value, es[1..])) ==> Finished(Run(s, es))
    ensures es != [] && Step(s, es[0]).Some? ==> Run(s, es) == Run(Step(s, es[0]).value, es[1..])
    ensures s.phase == AT_FINISHED && Run(s, es).Some? ==> es == []
    ensures es == [] ==> Run(s, es) == Some(s)
  {
  }

  lemma FromConfirm(s: State, es: seq<Event>)
    requires s.phase == AT_CONFIRM
    ensures Finished(Run(s, es)) <==> es == [Confirm]
    ensures Finished(Run(s, es)) ==> Run(s, es).value == s.(phase := AT_FINISHED)
  {
    hide Run;
    RunNext(s, es);
    if es != [] && es[0].Confirm? {
      RunNext(s.(phase := AT_FINISHED), es[1..]);
      assert es == [es[0]] + es[1..];
    }
  }

  lemma FromPurpose(s: State, es: seq<Event>)
    requires s.phase == AT_VOTING_PURPOSE
    ensures Finished(Run(s, es)) <==>
            |es| == 2 && es[0].VotingPurpose? && (es[0].purpose.Some? ==> s.format == CIP36) && es[1] == Confirm
    ensures Finished(Run(s, es)) ==> Run(s, es).value == s.(phase := AT_FINISHED)
  {
    hide Run;
    RunNext(s, es);
    if es != [] && Step(s, es[0]).Some? {
      FromConfirm(s.(phase := AT_CONFIRM), es[1..]);
    }
  }

  lemma FromNonce(s: State, es: seq<Event>)
    requires s.phase == AT_NONCE
    ensures Finished(Run(s, es)) <==>
            |es| == 3 && es[0].Nonce? && es[1].VotingPurpose? && (es[1].purpose.Some? ==> s.format == CIP36)
            && es[2] == Confirm
    ensures Finished(Run(s, es)) ==> Run(s, es).value == s.(phase := AT_FINISHED)
  {
    hide Run;
    RunNext(s, es);
    if es != [] && Step(s, es[0]).Some? {
      FromPurpose(s.(phase := AT_VOTING_PURPOSE), es[1..]);
    }
  }

  lemma FromAddress(s: State, es: seq<Event>)
    requires s.phase == AT_PAYMENT_ADDRESS
    ensures Finished(Run(s, es)) <==>
            |es| == 4 && es[0].PaymentAddress? && AddressAccepted(es[0].address, es[0].allowed) && es[1].Nonce?
            && es[2].VotingPurpose? && (es[2].purpose.Some? ==> s.format == CIP36) && es[3] == Confirm
    ensures Finished(Run(s, es)) ==> Run(s, es).value == s.(phase := AT_FINISHED)
  {
    hide Run, AddressAccepted;
    RunNext(s, es);
    if es != [] && Step(s, es[0]).Some? {
      FromNonce(s.(phase := AT_NONCE), es[1..]);
    }
  }

  predicate AreLast(f: Format, es: seq<Event>) {
    && |es| == 5
    && es[0].StakingKey? && IsOrdinaryStakingKeyPath(es[0].path)
    && es[1].PaymentAddress? && AddressAccepted(es[1].address, es[1].allowed)
    && es[2].Nonce?
    && es[3].VotingPurpose? && (es[3].purpose.Some? ==> f == CIP36)
    && es[4] == Confirm
  }

  lemma FromStakingKey(s: State, es: seq<Event>)
    requires s.phase == AT_STAKING_KEY
    ensures Finished(Run(s, es)) <==> AreLast(s.format, es)
    ensures Finished(Run(s, es)) ==> Run(s, es).value == s.(phase := AT_FINISHED, stakingPath := es[0].path)
  {
    hide Run, AddressAccepted, IsOrdinaryStakingKeyPath;
    RunNext(s, es);
    if es != [] && Step(s, es[0]).Some? {
      FromAddress(s.(phase := AT_PAYMENT_ADDRESS, stakingPath := es[0].path), es[1..]);
    }
  }

  predicate DelegationsAccepted(f: Format, ds: seq<Delegation>) {
    forall i :: 0 <= i < |ds| ==> KeyAccepted(f, ds[i].voteKey)
  }

  /** A run in the delegation phase receives exactly the delegations that are still missing. */
  lemma {:induction false} DelegationsRun(s: State, ds: seq<Delegation>, w: seq<Event>)
    requires s.phase == AT_DELEGATIONS && 0 < |ds| == s.numDelegations - s.currentDelegation
    requires DelegationsAccepted(s.format, ds)
    ensures Run(s, DelegationEvents(ds) + w)
         == Run(s.(phase := AT_STAKING_KEY, currentDelegation := s.numDelegations), w)
    decreases |ds|
  {
    hide KeyAccepted, Run;
    var e := Delegate(ds[0].voteKey, ds[0].weight);
    Glue(DelegationEvents(ds) + w, [e], DelegationEvents(ds[1..]), w);
    RunCons(s, e, DelegationEvents(ds[1..]) + w);
    if |ds| == 1 {
      assert DelegationEvents(ds[1..]) + w == w;
    } else {
      DelegationsRun(s.(currentDelegation := s.currentDelegation + 1), ds[1..], w);
    }
  }

  lemma {:induction false} FromDelegations(s: State, es: seq<Event>) returns (ds: seq<Delegation>, w: seq<Event>)
    requires s.phase == AT_DELEGATIONS && s.currentDelegation < s.numDelegations && Finished(Run(s, es))
    ensures |ds| == s.numDelegations - s.currentDelegation && DelegationsAccepted(s.format, ds)
    ensures es == DelegationEvents(ds) + w
    decreases |es|
  {
    hide KeyAccepted, Run;
    RunNext(s, es);
    var e, rest := es[0], es[1..];
    var d := Delegation(e.voteKey, e.weight);
    assert es == [e] + rest;
    if s.currentDelegation + 1 == s.numDelegations {
      ds, w := [d], rest;
      assert DelegationEvents(ds[1..]) == [];
    } else {
      var tail;
      tail, w := FromDelegations(Step(s, e).value, rest);
      ds := [d] + tail;
      assert ds[1..] == tail;
      Glue(es, [e], DelegationEvents(tail), w);
    }
  }

  /** Receiving all requests of a registration finishes the machine with its staking path. */
  lemma RegistrationAccepted(r: Registration)
    requires WellFormed(r)
    ensures Finished(Run(START, Events(r)))
    ensures Run(START, Events(r)).value.stakingPath == r.stakingPath
    ensures Run(START, Events(r)).value.format == r.format
  {
    hide Run, AddressAccepted, IsOrdinaryStakingKeyPath, KeyAccepted;
    var e := Init(r.format, r.numDelegations);
    var last := LastEvents(r);
    Glue(Events(r), [e], KeyEvents(r.keys), last);
    RunCons(START, e, KeyEvents(r.keys) + last);
    var s := Step(START, e).value;
    match r.keys {
      case Single(k) => RunCons(s, VoteKey(k), last);
      case Several(ds) => DelegationsRun(s, ds, last);
    }
    FromStakingKey(s.(phase := AT_STAKING_KEY, currentDelegation := s.numDelegations), last);
  }

  /** A finished run has received exactly the requests of one well-formed registration. */
  lemma FinishedRun(es: seq<Event>)
    ensures Finished(Run(START, es)) <==> exists r :: Received(es, r)
    ensures forall r :: Received(es, r) ==> Run(START, es).value.stakingPath == r.stakingPath
                                            && Run(START, es).value.format == r.format
    ensures forall q, r :: Received(es, q) && Received(es, r) ==> q == r
  {
    hide Run, WellFormed, Events;
    if Finished(Run(START, es)) {
      var r := RegistrationOf(es);
      assert Received(es, r);
    }
    forall r | Received(es, r)
      ensures Finished(Run(START, es))
      ensures Run(START, es).value.stakingPath == r.stakingPath && Run(START, es).value.format == r.format
    {
      RegistrationAccepted(r);
    }
    forall q, r | Received(es, q) && Received(es, r) ensures q == r {
      EventsInjective(q, r);
    }
  }

  lemma RegistrationOf(es: seq<Event>) returns (r: Registration)
    requires Finished(Run(START, es))
    ensures WellFormed(r) && Events(r) == es
  {
    hide Run, IsOrdinaryStakingKeyPath, KeyAccepted;
    RunNext(START, es);
    var e := es[0];
    var s := Step(START, e).value;
    var keys, w;
    if s.numDelegations > 0 {
      var ds;
      ds, w := FromDelegations(s, es[1..]);
      keys := Several(ds);
      DelegationsRun(s, ds, w);
    } else {
      RunNext(s, es[1..]);
      keys, w := Single(es[1].voteKey), es[1..][1..];
      assert es[1..] == [es[1]] + w;
    }
    var t := s.(phase := AT_STAKING_KEY, currentDelegation := s.numDelegations);
    FromStakingKey(t, w);
    r := Registration(e.format, e.numDelegations, keys, w[0].path, w[1].address, w[2].nonce, w[3].purpose);
    assert w == LastEvents(r);
    assert es == [e] + es[1..];
    Glue(es, [e], KeyEvents(keys), w);
  }

  lemma {:induction false} DelegationEventsInjective(ds: seq<Delegation>, es: seq<Delegation>)
    requires DelegationEvents(ds) == DelegationEvents(es)
    ensures ds == es
  {
    assert |DelegationEvents(ds)| == |ds| && |DelegationEvents(es)| == |es|;
    if ds != [] {
      assert DelegationEvents(ds)[0] == DelegationEvents(es)[0];
      assert DelegationEvents(ds)[1..] == DelegationEvents(ds[1..]);
      assert DelegationEvents(es)[1..] == DelegationEvents(es[1..]);
      DelegationEventsInjective(ds[1..], es[1..]);
      assert ds == [ds[0]] + ds[1..] && es == [es[0]] + es[1..];
    }
  }

  lemma EventsInjective(q: Registration, r: Registration)
    requires WellFormed(q) && WellFormed(r) && Events(q) == Events(r)
    ensures q == r
  {
    hide AddressAccepted, IsOrdinaryStakingKeyPath, KeyAccepted;
    var x, y := Events(q), Events(r);
    assert x[0] == y[0] && x[1] == y[1];
    assert |x| == 1 + |KeyEvents(q.keys)| + 5 && |y| == 1 + |KeyEvents(r.keys)| + 5;
    var n := |x| - 5;
    assert x[1..n] == KeyEvents(q.keys) && y[1..n] == KeyEvents(r.keys);
    assert x[n..] == LastEvents(q) && y[n..] == LastEvents(r);
    LastInjective(q, r);
    if q.keys.Several? && r.keys.Several? {
      DelegationEventsInjective(q.keys.delegations, r.keys.delegations);
    }
  }

  lemma LastInjective(q: Registration, r: Registration)
    requires LastEvents(q) == LastEvents(r)
    ensures q.stakingPath == r.stakingPath && q.address == r.address && q.nonce == r.nonce && q.purpose == r.purpose
  {
    var x, y := LastEvents(q), LastEvents(r);
    assert x[0] == y[0] && x[1] == y[1] && x[2] == y[2] && x[3] == y[3];
  }

  // ------------------------------------------------------------ the number of delegations

  /** A CIP-15 registration that sends 65536 delegations, which the format does not have, is accepted. */
  lemma Cip15CountNarrowed()
    ensures Step(START, Init(CIP15, 65536)).Some?
  {
  }

  /** An accepted init request sent the number of delegations that is expected then, for CIP-15 none, exactly if this
      number fits 16 bits. */
  lemma StoredCount(f: Format, n: uint32)
    requires Step(START, Init(f, n)).Some?
    ensures Step(START, Init(f, n)).value.numDelegations == n <==> n < TWO_16
    ensures f == CIP15 ==> (n == 0 <==> n < TWO_16)
  {
  }

  /** Every accepted request brings the machine strictly closer to its end. */
  function Left(s: State): (n: nat)
    ensures n <= TWO_16 + 6
  {
    match s.phase
    case AT_INIT => TWO_16 + 6
    case AT_DELEGATIONS =>
      if s.currentDelegation < s.numDelegations then s.numDelegations - s.currentDelegation + 5 else 5
    case AT_VOTE_KEY => 6
    case AT_STAKING_KEY => 5
    case AT_PAYMENT_ADDRESS => 4
    case AT_NONCE => 3
    case AT_VOTING_PURPOSE => 2
    case AT_CONFIRM => 1
    case AT_FINISHED => 0
  }

  lemma StepDecreases(s: State, e: Event)
    requires Step(s, e).Some?
    ensures Left(Step(s, e).value) < Left(s)
  {
    hide KeyAccepted, AddressAccepted, IsOrdinaryStakingKeyPath;
  }

  // ------------------------------------------------------------ the handlers

  /** The builder state at each state of the sub-machine. */
  function BuilderAt(s: State): BuilderState {
    match s.phase
    case AT_INIT => BUILDER_INIT
    case AT_VOTE_KEY => IN_PAYLOAD_INIT
    case AT_DELEGATIONS => IN_PAYLOAD_DELEGATIONS
    case AT_STAKING_KEY => if s.numDelegations > 0 then IN_PAYLOAD_DELEGATIONS else IN_PAYLOAD_VOTE_KEY
    case AT_PAYMENT_ADDRESS => IN_PAYLOAD_STAKING_KEY
    case AT_NONCE => IN_PAYLOAD_PAYMENT_ADDRESS
    case AT_VOTING_PURPOSE => IN_PAYLOAD_NONCE
    case AT_CONFIRM => if s.format == CIP36 then IN_PAYLOAD_VOTING_PURPOSE else IN_PAYLOAD_NONCE
    case AT_FINISHED => BUILDER_FINISHED
  }

  /** The two streams, from the bytes they share. */
  function PayloadOf(phase: Phase, shared: seq<byte>): seq<byte> {
    (if phase == AT_INIT then [] else Head(Map, 1)) + shared
  }

  function AuxDataOf(phase: Phase, shared: seq<byte>, signature: Signature): seq<byte> {
    Head(Array, 2) + (if phase == AT_INIT then [] else Head(Map, 2)) + shared
    + if phase == AT_FINISHED then SignatureBytes(signature) + Head(Array, 0) else []
  }

  lemma StreamsOpened(shared: seq<byte>, signature: Signature, phase: Phase)
    requires phase != AT_INIT && phase != AT_FINISHED
    ensures PayloadOf(AT_INIT, []) + Head(Map, 1) + shared == PayloadOf(phase, shared)
    ensures AuxDataOf(AT_INIT, [], signature) + Head(Map, 2) + shared == AuxDataOf(phase, shared, signature)
  {
    hide Head, SignatureBytes;
  }

  lemma StreamsExtended(shared: seq<byte>, bytes: seq<byte>, signature: Signature, before: Phase, after: Phase)
    requires before != AT_INIT && before != AT_FINISHED && after != AT_INIT && after != AT_FINISHED
    ensures PayloadOf(before, shared) + bytes == PayloadOf(after, shared + bytes)
    ensures AuxDataOf(before, shared, signature) + bytes == AuxDataOf(after, shared + bytes, signature)
  {
    hide Head, SignatureBytes;
    var p, a := Head(Map, 1), Head(Array, 2) + Head(Map, 2);
    assert (p + shared) + bytes == p + (shared + bytes);
    assert (a + shared + []) + bytes == a + (shared + bytes) + [];
  }

  lemma StreamsClosed(shared: seq<byte>, before: Signature, signature: Signature)
    ensures PayloadOf(AT_CONFIRM, shared) == PayloadOf(AT_FINISHED, shared)
    ensures AuxDataOf(AT_CONFIRM, shared, before) + (SignatureBytes(signature) + Head(Array, 0))
         == AuxDataOf(AT_FINISHED, shared, signature)
  {
    hide Head, SignatureBytes;
  }

  /** cvote_registration_context_t and the builder it drives. The three functions stand for the derivation
      of a public key, the hash and the signature with the key of a path; the ghost field records the
      accepted requests. */
  class RegistrationContext {
    var state: Phase
    var format: Format
    var numDelegations: uint16
    var currentDelegation: uint16
    var stakingKeyPath: Path
    var auxDataHash: Hash
    var signature: Signature
    const builder: Builder
    const pubKeyOf: Path -> PublicKey
    const hash: seq<byte> -> Hash
    const sign: (Path, Hash) -> Signature
    ghost var events: seq<Event>

    constructor (pubKeyOf: Path -> PublicKey, hash: seq<byte> -> Hash, sign: (Path, Hash) -> Signature)
      ensures Valid() && events == [] && fresh(Repr())
      ensures this.pubKeyOf == pubKeyOf && this.hash == hash && this.sign == sign
    {
      state, format, numDelegations, currentDelegation, stakingKeyPath := AT_INIT, CIP15, 0, 0, [];
      auxDataHash, signature := seq(32, _ => 0), seq(64, _ => 0);
      builder := new Builder();
      this.pubKeyOf, this.hash, this.sign := pubKeyOf, hash, sign;
      events := [];
    }

    ghost function Repr(): set<object>
      reads this
    {
      {this, builder}
    }

    ghost function Current(): State
      reads this
    {
      State(state, format, numDelegations, currentDelegation, stakingKeyPath)
    }

    ghost function Stream(): seq<byte>
      reads this
    {
      StreamBytes(pubKeyOf, format, events)
    }

    ghost predicate Lockstep()
      reads this, builder
    {
      && builder.state == BuilderAt(Current())
      && (state != AT_INIT ==> builder.format == format)
      && (builder.state == IN_PAYLOAD_DELEGATIONS ==>
          currentDelegation <= numDelegations && builder.remainingDelegations == numDelegations - currentDelegation)
      && (state == AT_VOTE_KEY ==> numDelegations == 0)
      && (state == AT_DELEGATIONS ==> currentDelegation < numDelegations)
      && (state == AT_STAKING_KEY && numDelegations > 0 ==> currentDelegation == numDelegations)
    }

    ghost predicate Streams()
      reads this, builder
    {
      builder.payload == PayloadOf(state, Stream()) && builder.auxData == AuxDataOf(state, Stream(), signature)
    }

    ghost predicate Valid()
      reads this, builder
    {
      && Run(START, events) == Some(Current())
      && Lockstep()
      && Streams()
      && (state == AT_FINISHED ==>
          && auxDataHash == hash(builder.auxData)
          && signature == sign(stakingKeyPath, hash(builder.payload)))
    }

    /** voting_registration_advanceState */
    method AdvanceState() returns (ok: bool)
      requires state == AT_INIT ==> builder.state == IN_PAYLOAD_INIT
      modifies this`state, builder
      ensures ok <==> old(state) != AT_FINISHED
                      && (old(state) == AT_DELEGATIONS ==> currentDelegation == numDelegations)
      ensures ok ==> state == (match old(state)
                               case AT_INIT => if numDelegations > 0 then AT_DELEGATIONS else AT_VOTE_KEY
                               case AT_DELEGATIONS => AT_STAKING_KEY
                               case AT_VOTE_KEY => AT_STAKING_KEY
                               case AT_STAKING_KEY => AT_PAYMENT_ADDRESS
                               case AT_PAYMENT_ADDRESS => AT_NONCE
                               case AT_NONCE => AT_VOTING_PURPOSE
                               case AT_VOTING_PURPOSE => AT_CONFIRM
                               case _ => AT_FINISHED)
      ensures ok && !(old(state) == AT_INIT && numDelegations > 0) ==> unchanged(builder)
      ensures ok && old(state) == AT_INIT && numDelegations > 0 ==>
        && builder.state == IN_PAYLOAD_DELEGATIONS && builder.format == old(builder.format)
        && builder.remainingDelegations == numDelegations
        && builder.payload == old(builder.payload) + (Head(Unsigned, 1) + Head(Array, numDelegations))
        && builder.auxData == old(builder.auxData) + (Head(Unsigned, 1) + Head(Array, numDelegations))
    {
      ok := true;
      match state {
        case AT_INIT =>
          if numDelegations > 0 {
            state := AT_DELEGATIONS;
            ok := builder.EnterDelegations(numDelegations);
          } else {
            state := AT_VOTE_KEY;
          }
        case AT_DELEGATIONS =>
          if currentDelegation != numDelegations { return false; }
          state := AT_STAKING_KEY;
        case AT_VOTE_KEY => state := AT_STAKING_KEY;
        case AT_STAKING_KEY => state := AT_PAYMENT_ADDRESS;
        case AT_PAYMENT_ADDRESS => state := AT_NONCE;
        case AT_NONCE => state := AT_VOTING_PURPOSE;
        case AT_VOTING_PURPOSE => state := AT_CONFIRM;
        case AT_CONFIRM => state := AT_FINISHED;
        case AT_FINISHED => ok := false;
      }
    }

    lemma Appended(s: State, e: Event, t: State)
      requires Run(START, events) == Some(s) && Step(s, e) == Some(t)
      ensures Run(START, events + [e]) == Some(t)
      ensures StreamBytes(pubKeyOf, t.format, events + [e])
           == (if s.phase == AT_INIT then [] else StreamBytes(pubKeyOf, s.format, events))
              + EventBytes(pubKeyOf, t.format, e)
    {
      hide StreamBytes, EventBytes, KeyAccepted, AddressAccepted, IsOrdinaryStakingKeyPath;
      RunAppend(START, events, [e]);
      RunCons(s, e, []);
      assert [e] + [] == [e];
      StreamAppend(pubKeyOf, t.format, events, [e]);
      StreamOne(pubKeyOf, t.format, e);
      if s.phase == AT_INIT {
        OnlyStartIsInit(events);
        NothingWritten(pubKeyOf, t.format);
      }
    }

    /** The part of the init handler after its checks: the builder enters the registration map. */
    method EnterRegistration()
      requires builder.state == BUILDER_INIT && state == AT_INIT
      modifies this`state, builder
      ensures state == if numDelegations > 0 then AT_DELEGATIONS else AT_VOTE_KEY
      ensures builder.state == if numDelegations > 0 then IN_PAYLOAD_DELEGATIONS else IN_PAYLOAD_INIT
      ensures builder.format == format
      ensures numDelegations > 0 ==> builder.remainingDelegations == numDelegations
      ensures builder.payload
              == old(builder.payload) + Head(Map, 1) + EventBytes(pubKeyOf, format, Init(format, numDelegations))
      ensures builder.auxData
              == old(builder.auxData) + Head(Map, 2) + EventBytes(pubKeyOf, format, Init(format, numDelegations))
    {
      hide Head, EventBytes;
      var ok := builder.Enter(format);
      assert ok;
      ok := builder.EnterPayload();
      assert ok;
      ok := AdvanceState();
      assert ok;
      InitStream(builder.payload, old(builder.payload) + Head(Map, 1), format, numDelegations);
      InitStream(builder.auxData, old(builder.auxData) + Head(Map, 2), format, numDelegations);
    }

    method HandleInit(f: Format, n: uint32) returns (ok: bool)
      requires Valid()
      modifies Repr()
      ensures ok <==> Step(old(Current()), Init(f, n)).Some?
      ensures ok ==> Step(old(Current()), Init(f, n)) == Some(Current())
      ensures ok ==> Valid() && events == old(events) + [Init(f, n)]
    {
      hide Head, Run, StreamBytes, EventBytes, PayloadOf, AuxDataOf, SignatureBytes;
      ghost var before := Current();
      if state != AT_INIT { return false; }
      OnlyStartIsInit(events);
      NothingWritten(pubKeyOf, format);
      format := f;
      numDelegations := Narrow16(n);
      if format == CIP15 && numDelegations != 0 { return false; }
      EnterRegistration();
      Appended(before, Init(f, n), Current());
      NarrowedInit(f, n);
      StreamsOpened(EventBytes(pubKeyOf, f, Init(f, n)), signature, state);
      NothingBefore(EventBytes(pubKeyOf, f, Init(f, n)));
      events := events + [Init(f, n)];
      return true;
    }

    lemma NarrowedInit(f: Format, n: uint32)
      ensures EventBytes(pubKeyOf, f, Init(f, n)) == EventBytes(pubKeyOf, f, Init(f, Narrow16(n)))
    {
    }

    lemma InitStream(stream: seq<byte>, lead: seq<byte>, f: Format, n: uint32)
      requires var size := Head(Unsigned, METADATA_KEY_PAYLOAD) + Head(Map, MapSize(f));
               stream == if Narrow16(n) > 0 then lead + size + (Head(Unsigned, 1) + Head(Array, Narrow16(n)))
                         else lead + size
      ensures stream == lead + EventBytes(pubKeyOf, f, Init(f, n))
    {
    }

    method HandleVoteKey(k: KeyRef) returns (ok: bool)
      requires Valid()
      modifies Repr()
      ensures ok <==> Step(old(Current()), VoteKey(k)).Some?
      ensures ok ==> Step(old(Current()), VoteKey(k)) == Some(Current())
      ensures ok ==> Valid() && events == old(events) + [VoteKey(k)]
    {
      hide Head, Run, StreamBytes, BytesToken, KeyAccepted, AddressAccepted, IsOrdinaryStakingKeyPath, SignatureBytes,
           PayloadOf, AuxDataOf;
      ghost var before := Current();
      if state != AT_VOTE_KEY { return false; }
      if !KeyAccepted(format, k) { return false; }
      var added := builder.AddVoteKey(KeyOf(pubKeyOf, k));
      assert added;
      var advanced := AdvanceState();
      assert advanced;
      Appended(before, VoteKey(k), Current());
      events := events + [VoteKey(k)];
      StreamsExtended(StreamBytes(pubKeyOf, format, old(events)), EventBytes(pubKeyOf, format, VoteKey(k)),
                      signature, before.phase, state);
      return true;
    }

    method HandleDelegation(k: KeyRef, weight: uint32) returns (ok: bool)
      requires Valid()
      modifies Repr()
      ensures ok <==> Step(old(Current()), Delegate(k, weight)).Some?
      ensures ok ==> Step(old(Current()), Delegate(k, weight)) == Some(Current())
      ensures ok ==> Valid() && events == old(events) + [Delegate(k, weight)]
    {
      hide Head, Run, StreamBytes, BytesToken, KeyAccepted, AddressAccepted, IsOrdinaryStakingKeyPath, SignatureBytes,
           PayloadOf, AuxDataOf;
      ghost var before := Current();
      if state != AT_DELEGATIONS { return false; }
      if currentDelegation >= numDelegations { return false; }
      if !KeyAccepted(format, k) { return false; }
      var added := builder.AddDelegation(KeyOf(pubKeyOf, k), weight);
      assert added;
      currentDelegation := currentDelegation + 1;
      if currentDelegation == numDelegations {
        var advanced := AdvanceState();
        assert advanced;
      }
      Appended(before, Delegate(k, weight), Current());
      events := events + [Delegate(k, weight)];
      StreamsExtended(StreamBytes(pubKeyOf, format, old(events)), EventBytes(pubKeyOf, format, Delegate(k, weight)),
                      signature, before.phase, state);
      return true;
    }

    method HandleStakingKey(path: Path) returns (ok: bool)
      requires Valid()
      modifies Repr()
      ensures ok <==> Step(old(Current()), StakingKey(path)).Some?
      ensures ok ==> Step(old(Current()), StakingKey(path)) == Some(Current())
      ensures ok ==> Valid() && events == old(events) + [StakingKey(path)]
    {
      hide Head, Run, StreamBytes, BytesToken, KeyAccepted, AddressAccepted, IsOrdinaryStakingKeyPath, SignatureBytes,
           PayloadOf, AuxDataOf;
      ghost var before := Current();
      if state != AT_STAKING_KEY { return false; }
      stakingKeyPath := path;
      if !IsOrdinaryStakingKeyPath(path) { return false; }
      var added := builder.AddStakingKey(pubKeyOf(stakingKeyPath));
      assert added;
      var advanced := AdvanceState();
      assert advanced;
      Appended(before, StakingKey(path), Current());
      events := events + [StakingKey(path)];
      StreamsExtended(StreamBytes(pubKeyOf, format, old(events)), EventBytes(pubKeyOf, format, StakingKey(path)),
                      signature, before.phase, state);
      return true;
    }

    method HandlePaymentAddress(address: seq<byte>, allowed: bool) returns (ok: bool)
      requires Valid()
      modifies Repr()
      ensures ok <==> Step(old(Current()), PaymentAddress(address, allowed)).Some?
      ensures ok ==> Step(old(Current()), PaymentAddress(address, allowed)) == Some(Current())
      ensures ok ==> Valid() && events == old(events) + [PaymentAddress(address, allowed)]
    {
      hide Head, Run, StreamBytes, BytesToken, KeyAccepted, AddressAccepted, IsOrdinaryStakingKeyPath, SignatureBytes,
           PayloadOf, AuxDataOf;
      ghost var before := Current();
      if state != AT_PAYMENT_ADDRESS { return false; }
      if !AddressAccepted(address, allowed) { return false; }
      AcceptedAddress(address, allowed);
      var added := builder.AddPaymentAddress(address);
      assert added;
      var advanced := AdvanceState();
      assert advanced;
      Appended(before, PaymentAddress(address, allowed), Current());
      events := events + [PaymentAddress(address, allowed)];
      StreamsExtended(StreamBytes(pubKeyOf, format, old(events)),
                      EventBytes(pubKeyOf, format, PaymentAddress(address, allowed)),
                      signature, before.phase, state);
      return true;
    }

    method HandleNonce(nonce: uint64) returns (ok: bool)
      requires Valid()
      modifies Repr()
      ensures ok <==> Step(old(Current()), Nonce(nonce)).Some?
      ensures ok ==> Step(old(Current()), Nonce(nonce)) == Some(Current())
      ensures ok ==> Valid() && events == old(events) + [Nonce(nonce)]
    {
      hide Head, Run, StreamBytes, BytesToken, KeyAccepted, AddressAccepted, IsOrdinaryStakingKeyPath, SignatureBytes,
           PayloadOf, AuxDataOf;
      ghost var before := Current();
      if state != AT_NONCE { return false; }
      var added := builder.AddNonce(nonce);
      assert added;
      var advanced := AdvanceState();
      assert advanced;
      Appended(before, Nonce(nonce), Current());
      events := events + [Nonce(nonce)];
      StreamsExtended(StreamBytes(pubKeyOf, format, old(events)), EventBytes(pubKeyOf, format, Nonce(nonce)),
                      signature, before.phase, state);
      return true;
    }

    /** For CIP-15 the request only moves the state on: nothing is written. */
    method HandleVotingPurpose(purpose: Option<uint64>) returns (ok: bool)
      requires Valid()
      modifies Repr()
      ensures ok <==> Step(old(Current()), VotingPurpose(purpose)).Some?
      ensures ok ==> Step(old(Current()), VotingPurpose(purpose)) == Some(Current())
      ensures ok ==> Valid() && events == old(events) + [VotingPurpose(purpose)]
    {
      hide Head, Run, StreamBytes, BytesToken, KeyAccepted, AddressAccepted, IsOrdinaryStakingKeyPath, SignatureBytes,
           PayloadOf, AuxDataOf;
      ghost var before := Current();
      if state != AT_VOTING_PURPOSE { return false; }
      if purpose.Some? && format != CIP36 { return false; }
      if format == CIP36 {
        var added := builder.AddVotingPurpose(if purpose.Some? then purpose.value else 0);
        assert added;
      }
      var advanced := AdvanceState();
      assert advanced;
      Appended(before, VotingPurpose(purpose), Current());
      events := events + [VotingPurpose(purpose)];
      StreamsExtended(StreamBytes(pubKeyOf, format, old(events)), EventBytes(pubKeyOf, format, VotingPurpose(purpose)),
                      signature, before.phase, state);
      return true;
    }

    /** The part of the confirm handler after its checks. The key that signs the payload is the one of the
        path whose public key the payload contains. */
    method SignAndFinalize()
      requires builder.state in {IN_PAYLOAD_NONCE, IN_PAYLOAD_VOTING_PURPOSE}
      modifies this`signature, this`auxDataHash, builder
      ensures builder.state == BUILDER_FINISHED && builder.payload == old(builder.payload)
      ensures builder.format == old(builder.format)
      ensures signature == sign(stakingKeyPath, hash(builder.payload))
      ensures builder.auxData == old(builder.auxData) + (SignatureBytes(signature) + Head(Array, 0))
      ensures auxDataHash == hash(builder.auxData)
    {
      hide Head, SignatureBytes;
      var done, payloadPreimage := builder.FinalizePayload();
      assert done;
      signature := sign(stakingKeyPath, hash(payloadPreimage));
      done := builder.AddSignature(signature);
      assert done;
      done := builder.AddAuxiliaryScripts();
      assert done;
      Glue(builder.auxData, old(builder.auxData), SignatureBytes(signature), Head(Array, 0));
      var preimage;
      done, preimage := builder.Finalize();
      assert done;
      auxDataHash := hash(preimage);
    }

    method HandleConfirm() returns (ok: bool)
      requires Valid()
      modifies Repr()
      ensures ok <==> Step(old(Current()), Confirm).Some?
      ensures ok ==> Step(old(Current()), Confirm) == Some(Current())
      ensures ok ==> Valid() && events == old(events) + [Confirm]
    {
      hide Head, Run, StreamBytes, BytesToken, KeyAccepted, AddressAccepted, IsOrdinaryStakingKeyPath, SignatureBytes,
           PayloadOf, AuxDataOf;
      ghost var before := Current();
      if state != AT_CONFIRM { return false; }
      SignAndFinalize();
      var done := AdvanceState();
      assert done;
      Appended(before, Confirm, Current());
      events := events + [Confirm];
      NothingAdded(StreamBytes(pubKeyOf, format, old(events)), EventBytes(pubKeyOf, format, Confirm));
      StreamsClosed(Stream(), old(signature), signature);
      return true;
    }

    lemma NothingAdded(stream: seq<byte>, bytes: seq<byte>)
      requires bytes == []
      ensures stream + bytes == stream
    {
    }

    lemma AcceptedAddress(address: seq<byte>, allowed: bool)
      requires AddressAccepted(address, allowed)
      ensures 0 < |address| < 1024
    {
    }

    lemma NothingBefore(bytes: seq<byte>)
      ensures [] + bytes == bytes
    {
    }

    /** signTxCVoteRegistration_handleAPDU with the parsed data of the request. */
    method HandleAPDU(e: Event) returns (ok: bool)
      requires Valid()
      modifies Repr()
      ensures ok <==> Step(old(Current()), e).Some?
      ensures ok ==> Step(old(Current()), e) == Some(Current())
      ensures ok ==> Valid() && events == old(events) + [e]
    {
      hide Valid, KeyAccepted, AddressAccepted, IsOrdinaryStakingKeyPath;
      match e {
        case Init(f, n) => ok := HandleInit(f, n);
        case VoteKey(k) => ok := HandleVoteKey(k);
        case Delegate(k, w) => ok := HandleDelegation(k, w);
        case StakingKey(p) => ok := HandleStakingKey(p);
        case PaymentAddress(a, allowed) => ok := HandlePaymentAddress(a, allowed);
        case Nonce(n) => ok := HandleNonce(n);
        case VotingPurpose(o) => ok := HandleVotingPurpose(o);
        case Confirm => ok := HandleConfirm();
      }
    }

    /** What the finished sub-machine stands for: the two streams are the payload and the auxiliary data of
        the one registration received, and the signature in the latter is over the hash of the former with
        the staking key of the registration. */
    lemma FinishedRegistration()
      requires Valid() && state == AT_FINISHED
      ensures exists r ::
                && Received(events, r)
                && builder.payload == Encode(PayloadItem(pubKeyOf, r))
                && signature == sign(r.stakingPath, hash(Encode(PayloadItem(pubKeyOf, r))))
                && builder.auxData == Encode(AuxiliaryItem(pubKeyOf, r, signature))
                && auxDataHash == hash(Encode(AuxiliaryItem(pubKeyOf, r, signature)))
    {
      hide Run, StreamBytes, Head, SignatureBytes, Events, WellFormed, Encode, PayloadItem, AuxiliaryItem;
      FinishedRun(events);
      var r :| Received(events, r);
      FinishedStreams(pubKeyOf, r, signature);
      var a, st, sg, z := Head(Array, 2) + Head(Map, 2), Stream(), SignatureBytes(signature), Head(Array, 0);
      assert (a + st) + (sg + z) == a + st + sg + z;
    }
  }

  lemma {:induction false} OnlyStartIsInit(es: seq<Event>)
    requires Run(START, es).Some? && Run(START, es).value.phase == AT_INIT
    ensures es == [] && Run(START, es).value == START
  {
    if es != [] {
      LeavesInit(Step(START, es[0]).value, es[1..]);
    }
  }

  lemma {:induction false} LeavesInit(s: State, es: seq<Event>)
    requires s.phase != AT_INIT && Run(s, es).Some?
    ensures Run(s, es).value.phase != AT_INIT
    decreases |es|
  {
    if es != [] {
      LeavesInit(Step(s, es[0]).value, es[1..]);
    }
  }
}
