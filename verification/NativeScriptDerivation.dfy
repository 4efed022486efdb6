/** Deriving a native script hash from a stream of requests: the rolling hash builder
    and the request handler that drives it, each with its own stack of counters. */
module NativeScriptDerivation {
  import opened Basics
  import opened Bip44
  import opened Cbor
  import opened NativeScript

  datatype BuilderState = SCRIPT | FINISHED

  /** native_script_hash_builder_t. The hash context is the bytes appended to it so far. */
  class HashBuilder {
    var level: uint8
    const remainingScripts: array<uint32>
    var state: BuilderState
    var hashed: seq<byte>

    constructor ()
      ensures Valid() && fresh(this) && fresh(remainingScripts)
      ensures Live() == START && state == SCRIPT && hashed == [0]
    {
      remainingScripts := new uint32[MAX_SCRIPT_DEPTH];
      hashed := [0];
      state := SCRIPT;
      level := 0;
      new;
      remainingScripts[0] := 1;
    }

    ghost predicate InRange()
      reads this, remainingScripts
    {
      remainingScripts.Length == MAX_SCRIPT_DEPTH && level < MAX_SCRIPT_DEPTH
    }

    /** The counters of the open levels. */
    ghost function Live(): (c: Counters)
      requires InRange()
      ensures |c| == level + 1
      reads this, remainingScripts
    {
      remainingScripts[..level + 1]
    }

    ghost predicate Valid()
      reads this, remainingScripts
    {
      && InRange()
      && Settled(Live())
      && (state == FINISHED <==> Live() == DONE)
    }

    predicate IsComplexScriptFinished()
      requires InRange()
      reads this, remainingScripts
    {
      level > 0 && remainingScripts[level] == 0
    }

    method AdvanceState()
      requires InRange() && Settled(Live()) && state == SCRIPT
      modifies this`state
      ensures Valid() && Live() == old(Live())
    {
      if level == 0 && remainingScripts[level] == 0 {
        state := FINISHED;
        assert Live() == DONE;
      } else {
        state := SCRIPT;
        assert Top(Live()) == remainingScripts[level];
      }
    }

    method ComplexScriptFinished()
      requires InRange() && Open(Live())
      modifies this`level, remainingScripts
      ensures InRange() && Live() == Settle(old(Live())) && level <= old(level)
    {
      while IsComplexScriptFinished()
        invariant InRange() && Open(Live()) && level <= old(level)
        invariant Settle(Live()) == Settle(old(Live()))
        decreases level
      {
        ghost var before := Live();
        level := level - 1;
        assert before[..|before| - 1] == remainingScripts[..level + 1];
        assert remainingScripts[level] > 0 by { assert remainingScripts[level] == before[level]; }
        remainingScripts[level] := remainingScripts[level] - 1;
        assert Live() == WithTop(before[..|before| - 1], before[|before| - 2] - 1);
      }
    }

    method SimpleScriptFinished()
      requires InRange() && Settled(Live()) && Top(Live()) > 0
      modifies this`level, remainingScripts
      ensures InRange() && Live() == Receive(old(Live()), 1) && level <= old(level)
    {
      remainingScripts[level] := remainingScripts[level] - 1;
      assert Live() == WithTop(old(Live()), Top(old(Live())) - 1);
      if IsComplexScriptFinished() {
        ComplexScriptFinished();
      }
    }

    /** The part shared by the three complex scripts once their head has been hashed.
        The level is raised without a bound check: the caller keeps it in range. */
    method EnterLevel(count: uint32)
      requires InRange() && Settled(Live()) && Top(Live()) > 0 && state == SCRIPT
      requires level + 1 < MAX_SCRIPT_DEPTH
      modifies this`level, this`state, remainingScripts
      ensures Valid()
      ensures Live() == if count == 0 then Receive(old(Live()), 1) else old(Live()) + [count]
    {
      level := level + 1;
      remainingScripts[level] := count;
      assert Live() == old(Live()) + [count];
      assert count == 0 ==> Settle(Live()) == Receive(old(Live()), 1) by {
        assert Live()[..level] == old(Live());
      }
      if IsComplexScriptFinished() {
        ComplexScriptFinished();
      } else {
        assert Top(Live()) == count;
      }
      AdvanceState();
    }

    method StartComplexScript(kind: Kind, count: uint32) returns (ok: bool)
      requires Valid()
      requires state == SCRIPT ==> level + 1 < MAX_SCRIPT_DEPTH
      modifies this, remainingScripts
      ensures ok <==> old(state) == SCRIPT
      ensures ok ==> Valid() && Top(old(Live())) > 0
      ensures ok ==> Live() == Push(old(Live()), Start(kind, count))
      ensures ok ==> hashed == old(hashed) + StepBytes(Start(kind, count))
    {
      if state != SCRIPT { return false; }
      NothingExpected(Live());
      match kind {
        case AllOf =>
          hashed := hashed + (Head(Array, 2) + Head(Unsigned, 1) + Head(Array, count));
        case AnyOf =>
          hashed := hashed + (Head(Array, 2) + Head(Unsigned, 2) + Head(Array, count));
        case AtLeast(required) =>
          hashed := hashed + (Head(Array, 3) + Head(Unsigned, 3) + Head(Unsigned, required) + Head(Array, count));
      }
      EnterLevel(count);
      return true;
    }

    method AddPubKey(pubKeyHash: seq<byte>) returns (ok: bool)
      requires Valid()
      modifies this, remainingScripts
      ensures ok <==> old(state) == SCRIPT && |pubKeyHash| == ADDRESS_KEY_HASH_LENGTH
      ensures ok ==> Valid() && Top(old(Live())) > 0
      ensures ok ==> Live() == Push(old(Live()), Add(PubKey(pubKeyHash)))
      ensures ok ==> hashed == old(hashed) + StepBytes(Add(PubKey(pubKeyHash)))
    {
      if state != SCRIPT || |pubKeyHash| != ADDRESS_KEY_HASH_LENGTH { return false; }
      NothingExpected(Live());
      hashed := hashed + (Head(Array, 2) + Head(Unsigned, 0) + (Head(Bytes, |pubKeyHash|) + pubKeyHash));
      SimpleScriptFinished();
      AdvanceState();
      return true;
    }

    method AddTimelock(script: Simple) returns (ok: bool)
      requires Valid() && !script.PubKey?
      modifies this, remainingScripts
      ensures ok <==> old(state) == SCRIPT
      ensures ok ==> Valid() && Top(old(Live())) > 0
      ensures ok ==> Live() == Push(old(Live()), Add(script))
      ensures ok ==> hashed == old(hashed) + StepBytes(Add(script))
    {
      if state != SCRIPT { return false; }
      NothingExpected(Live());
      var code := if script.InvalidBefore? then 4 else 5;
      hashed := hashed + (Head(Array, 2) + Head(Unsigned, code) + Head(Unsigned, script.slot));
      SimpleScriptFinished();
      AdvanceState();
      return true;
    }

    method Finalize() returns (ok: bool, preimage: seq<byte>)
      requires Valid()
      ensures ok <==> Live() == DONE
      ensures ok ==> preimage == hashed
    {
      ok, preimage := state == FINISHED, hashed;
    }
  }

  // ------------------------------------------------------------ requests

  const STAGE_COMPLEX_SCRIPT_START := 1
  const STAGE_ADD_SIMPLE_SCRIPT := 2
  const STAGE_WHOLE_NATIVE_SCRIPT_FINISH := 3

  const KEY_REFERENCE_PATH := 1
  const KEY_REFERENCE_HASH := 2

  const DISPLAY_NATIVE_SCRIPT_HASH_BECH32 := 1
  const DISPLAY_NATIVE_SCRIPT_HASH_POLICY_ID := 2

  /** The data of the request that finishes a script: how its hash is to be shown. */
  predicate IsDisplayFormat(data: seq<byte>) {
    data == [DISPLAY_NATIVE_SCRIPT_HASH_BECH32] || data == [DISPLAY_NATIVE_SCRIPT_HASH_POLICY_ID]
  }

  /** What the data of a request stand for: the fields on the wire, in order and with nothing after them.
      A public key is given by its hash or by a path from which the device derives it. */
  ghost predicate Requests(keyHashOf: Path -> KeyHash, p1: uint8, data: seq<byte>, x: Step) {
    match x
    case Start(AllOf, n) => p1 == STAGE_COMPLEX_SCRIPT_START && data == [1] + Be(4, n)
    case Start(AnyOf, n) => p1 == STAGE_COMPLEX_SCRIPT_START && data == [2] + Be(4, n)
    case Start(AtLeast(r), n) => p1 == STAGE_COMPLEX_SCRIPT_START && data == [3] + Be(4, n) + Be(4, r)
    case Add(PubKey(h)) =>
      && p1 == STAGE_ADD_SIMPLE_SCRIPT
      && (data == [0, KEY_REFERENCE_HASH] + h
          || exists p: Path :: data == [0, KEY_REFERENCE_PATH] + PathToWire(p) && h == keyHashOf(p))
    case Add(InvalidBefore(t)) => p1 == STAGE_ADD_SIMPLE_SCRIPT && data == [4] + Be(8, t)
    case Add(InvalidHereafter(t)) => p1 == STAGE_ADD_SIMPLE_SCRIPT && data == [5] + Be(8, t)
  }

  /** The requests in numbers: 1 starts a complex script, 2 adds a simple one, and a key is given by its path after 1
      and by its hash after 2. */
  lemma RequestsInNumbers(keyHashOf: Path -> KeyHash, p1: uint8, data: seq<byte>, x: Step)
    ensures Requests(keyHashOf, p1, data, x) <==>
      match x
      case Start(AllOf, n) => p1 == 1 && data == [1] + Be(4, n)
      case Start(AnyOf, n) => p1 == 1 && data == [2] + Be(4, n)
      case Start(AtLeast(r), n) => p1 == 1 && data == [3] + Be(4, n) + Be(4, r)
      case Add(PubKey(h)) =>
        p1 == 2 && (data == [0, 2] + h || exists p: Path :: data == [0, 1] + PathToWire(p) && h == keyHashOf(p))
      case Add(InvalidBefore(t)) => p1 == 2 && data == [4] + Be(8, t)
      case Add(InvalidHereafter(t)) => p1 == 2 && data == [5] + Be(8, t)
    ensures IsDisplayFormat(data) <==> data == [1] || data == [2]
  {
  }

  datatype Counter = Counter(total: uint32, remaining: uint32)

  function Remaining(cs: seq<Counter>): (c: seq<nat>)
    ensures |c| == |cs| && forall i :: 0 <= i < |cs| ==> c[i] == cs[i].remaining
  {
    seq(|cs|, i requires 0 <= i < |cs| => cs[i].remaining)
  }

  /** ins_derive_native_script_hash_context_t. keyHashOf stands for the derivation of a public key
      hash from a path. The ghost field records the steps accepted so far. */
  class Derivation {
    var level: uint8
    const complexScripts: array<Counter>
    const hashBuilder: HashBuilder
    const keyHashOf: Path -> KeyHash
    ghost var steps: seq<Step>

    constructor (keyHashOf: Path -> KeyHash)
      ensures Valid() && steps == []
      ensures this.keyHashOf == keyHashOf
      ensures fresh(Repr())
    {
      complexScripts := new Counter[MAX_SCRIPT_DEPTH](_ => Counter(0, 0));
      hashBuilder := new HashBuilder();
      level := 0;
      steps := [];
      this.keyHashOf := keyHashOf;
      new;
      complexScripts[0] := Counter(0, 1);
      assert Own() == START;
      assert hashBuilder.hashed == [0] + StreamBytes(steps);
    }

    ghost function Repr(): set<object>
      reads this
    {
      {this, complexScripts, hashBuilder, hashBuilder.remainingScripts}
    }

    ghost predicate InRange()
      reads this, hashBuilder, hashBuilder.remainingScripts
    {
      complexScripts.Length == MAX_SCRIPT_DEPTH && level < MAX_SCRIPT_DEPTH && hashBuilder.InRange()
    }

    /** The driver's own counters of the open levels. */
    ghost function Own(): (c: Counters)
      requires complexScripts.Length == MAX_SCRIPT_DEPTH && level < MAX_SCRIPT_DEPTH
      ensures |c| == level + 1
      reads this, complexScripts
    {
      Remaining(complexScripts[..level + 1])
    }

    /** The two stacks agree at every open level, and both are what the accepted steps produce. */
    ghost predicate Valid()
      reads this, complexScripts, hashBuilder, hashBuilder.remainingScripts
    {
      && InRange()
      && hashBuilder.Valid()
      && Own() == hashBuilder.Live()
      && Run(START, steps) == Some(Own())
      && hashBuilder.hashed == [0] + StreamBytes(steps)
    }

    predicate AreMoreScriptsExpected()
      requires complexScripts.Length == MAX_SCRIPT_DEPTH && level < MAX_SCRIPT_DEPTH
      reads this, complexScripts
    {
      complexScripts[level].remaining > 0
    }

    predicate IsComplexScriptFinished()
      requires complexScripts.Length == MAX_SCRIPT_DEPTH && level < MAX_SCRIPT_DEPTH
      reads this, complexScripts
    {
      level > 0 && complexScripts[level].remaining == 0
    }

    method ComplexScriptFinished()
      requires InRange() && Open(Own())
      modifies this`level, complexScripts
      ensures InRange() && Own() == Settle(old(Own()))
    {
      while IsComplexScriptFinished()
        invariant InRange() && Open(Own())
        invariant Settle(Own()) == Settle(old(Own()))
        decreases level
      {
        ghost var before := Own();
        level := level - 1;
        assert complexScripts[level].remaining > 0 by { assert before[level] > 0; }
        complexScripts[level] := complexScripts[level].(remaining := complexScripts[level].remaining - 1);
        assert Own() == WithTop(before[..|before| - 1], before[|before| - 2] - 1);
      }
    }

    method SimpleScriptFinished()
      requires InRange() && Settled(Own()) && Top(Own()) > 0
      modifies this`level, complexScripts
      ensures InRange() && Own() == Receive(old(Own()), 1)
    {
      complexScripts[level] := complexScripts[level].(remaining := complexScripts[level].remaining - 1);
      assert Own() == WithTop(old(Own()), Top(old(Own())) - 1);
      if IsComplexScriptFinished() {
        ComplexScriptFinished();
      }
    }

    method RaiseLevel(count: uint32)
      requires InRange() && level + 1 < MAX_SCRIPT_DEPTH
      modifies this`level, complexScripts
      ensures InRange() && Own() == old(Own()) + [count]
    {
      level := level + 1;
      complexScripts[level] := Counter(count, count);
    }

    method LeaveFinishedLevels()
      requires InRange() && Open(Own())
      modifies this`level, complexScripts
      ensures InRange() && Own() == Settle(old(Own()))
    {
      if IsComplexScriptFinished() {
        ComplexScriptFinished();
      }
    }

    /** The depth check of the driver is what keeps the level of the builder in range. */
    method StartInBuilder(kind: Kind, count: uint32)
      requires hashBuilder.Valid() && hashBuilder.Live() != DONE && hashBuilder.level + 1 < MAX_SCRIPT_DEPTH
      modifies hashBuilder, hashBuilder.remainingScripts
      ensures hashBuilder.Valid() && Top(old(hashBuilder.Live())) > 0
      ensures hashBuilder.Live() == Push(old(hashBuilder.Live()), Start(kind, count))
      ensures hashBuilder.hashed == old(hashBuilder.hashed) + StepBytes(Start(kind, count))
    {
      var started := hashBuilder.StartComplexScript(kind, count);
      assert started;
    }

    /** What follows the checks of a request for a complex script. */
    method StartScript(kind: Kind, count: uint32)
      requires Valid() && Expected(Own(), Start(kind, count))
      modifies Repr()
      ensures Valid() && steps == old(steps) + [Start(kind, count)]
    {
      hide Run, StreamBytes, StepBytes, Settle, Push, Remaining, Open;
      ghost var before := Own();
      RaiseLevel(count);
      NothingExpected(before);
      StartInBuilder(kind, count);
      PushStart(before, kind, count);
      LeaveFinishedLevels();
      Recorded(before, steps, Start(kind, count));
      steps := steps + [Start(kind, count)];
    }

    /** deriveNativeScriptHash_handleComplexScriptStart with the parsed fields of the request. The level is raised
        before the last check, which makes no difference as a request that is refused ends the call. */
    method HandleComplexScriptStart(kind: Kind, count: uint32) returns (ok: bool)
      requires Valid()
      modifies Repr()
      ensures ok <==> Expected(old(Own()), Start(kind, count))
      ensures ok ==> Valid() && steps == old(steps) + [Start(kind, count)]
    {
      if !AreMoreScriptsExpected() { return false; }
      if !(level + 1 < MAX_SCRIPT_DEPTH) { return false; }
      if kind.AtLeast? && count < kind.required { return false; }
      StartScript(kind, count);
      return true;
    }

    method AddToBuilder(script: Simple) returns (ok: bool)
      requires hashBuilder.Valid()
      modifies hashBuilder, hashBuilder.remainingScripts
      ensures ok <==> old(hashBuilder.Live()) != DONE
      ensures ok ==> hashBuilder.Valid() && Top(old(hashBuilder.Live())) > 0
      ensures ok ==> hashBuilder.Live() == Push(old(hashBuilder.Live()), Add(script))
      ensures ok ==> hashBuilder.hashed == old(hashBuilder.hashed) + StepBytes(Add(script))
    {
      match script {
        case PubKey(h) => ok := hashBuilder.AddPubKey(h);
        case _ => ok := hashBuilder.AddTimelock(script);
      }
    }

    /** deriveNativeScriptHash_handleSimpleScript with the parsed fields of the request. */
    method HandleSimpleScript(script: Simple) returns (ok: bool)
      requires Valid()
      modifies Repr()
      ensures ok <==> Expected(old(Own()), Add(script))
      ensures ok ==> Valid() && steps == old(steps) + [Add(script)]
    {
      hide Run, StreamBytes, StepBytes, Settle, Receive, Remaining, Open;
      ghost var before := Own();
      if !AreMoreScriptsExpected() { return false; }
      NothingExpected(before);
      var added := AddToBuilder(script);
      assert added;
      assert Own() == before;
      SimpleScriptFinished();
      Recorded(before, steps, Add(script));
      steps := steps + [Add(script)];
      return true;
    }

    lemma Recorded(before: Counters, w: seq<Step>, x: Step)
      requires Settled(before) && Run(START, w) == Some(before) && Expected(before, x)
      ensures Run(START, w + [x]) == Some(Push(before, x))
      ensures StreamBytes(w + [x]) == StreamBytes(w) + StepBytes(x)
    {
      RunAppend(START, w, [x]);
      RunStep(before, x, []);
      assert [x] + [] == [x];
      StreamBytesAppend(w, [x]);
      StreamBytesOne(x);
    }

    /** deriveNativeScriptHash_handleWholeNativeScriptFinish: what is hashed at the end is a zero byte
        followed by the CBOR of the one script whose pre-order was received. */
    method HandleFinish(data: seq<byte>) returns (ok: bool, preimage: seq<byte>)
      requires Valid()
      ensures ok <==> IsDisplayFormat(data) && exists s :: StandsFor(steps, s)
      ensures ok ==> exists s :: StandsFor(steps, s) && preimage == [0] + Encode(ToItem(s))
    {
      CompleteRunIsScript(steps);
      assert level == 0 ==> Own() == [complexScripts[0].remaining];
      if !(level == 0 && complexScripts[0].remaining == 0) { return false, []; }
      if !IsDisplayFormat(data) { return false, []; }
      var finalized;
      finalized, preimage := hashBuilder.Finalize();
      assert finalized;
      ok := true;
      ghost var s :| StandsFor(steps, s);
      PreorderBytes(s);
    }

    method ParseComplex(data: seq<byte>) returns (ok: bool, kind: Kind, count: uint32)
      ensures ok ==> Requests(keyHashOf, STAGE_COMPLEX_SCRIPT_START, data, Start(kind, count))
      ensures !ok ==> forall x :: !Requests(keyHashOf, STAGE_COMPLEX_SCRIPT_START, data, x)
    {
      ok, kind, count := false, AllOf, 0;
      if |data| < 5 { return; }
      Number(data, 1, 4);
      count := FromBe(data[1..5]);
      assert data == [data[0]] + data[1..];
      if data[0] == 1 && |data| == 5 {
        ok, kind := true, AllOf;
      } else if data[0] == 2 && |data| == 5 {
        ok, kind := true, AnyOf;
      } else if data[0] == 3 && |data| == 9 {
        Number(data, 5, 4);
        ok, kind := true, AtLeast(FromBe(data[5..9]));
        assert data == [3] + data[1..5] + data[5..9];
      }
    }

    method ParseSimple(data: seq<byte>) returns (ok: bool, script: Simple)
      ensures ok ==> Requests(keyHashOf, STAGE_ADD_SIMPLE_SCRIPT, data, Add(script))
      ensures !ok ==> forall x :: !Requests(keyHashOf, STAGE_ADD_SIMPLE_SCRIPT, data, x)
    {
      ok, script := false, InvalidBefore(0);
      if |data| < 1 { return; }
      if data[0] == 0 {
        if |data| < 2 { return; }
        assert data == [data[0], data[1]] + data[2..];
        if data[1] == KEY_REFERENCE_PATH {
          var parsed, path, size := ParseFromWire(data[2..]);
          if parsed && 2 + size == |data| {
            ok, script := true, PubKey(keyHashOf(path));
            assert data[2..][..size] == data[2..];
          } else {
            forall p: Path ensures data != [0, KEY_REFERENCE_PATH] + PathToWire(p) {
              WholePath(data, path, size, parsed, p);
            }
          }
        } else if data[1] == KEY_REFERENCE_HASH && |data| == 2 + ADDRESS_KEY_HASH_LENGTH {
          ok, script := true, PubKey(data[2..]);
        }
      } else if (data[0] == 4 || data[0] == 5) && |data| == 9 {
        Number(data, 1, 8);
        var slot := FromBe(data[1..9]);
        ok, script := true, if data[0] == 4 then InvalidBefore(slot) else InvalidHereafter(slot);
        assert data == [data[0]] + data[1..9];
      }
    }

    lemma Number(data: seq<byte>, at: nat, width: nat)
      requires at + width <= |data| && (width == 4 || width == 8)
      ensures Be(width, FromBe(data[at..at + width])) == data[at..at + width]
      ensures FromBe(data[at..at + width]) < if width == 4 then TWO_32 else TWO_64
    {
      BeOfFromBe(data[at..at + width]);
      Pow256Values();
    }

    lemma WholePath(data: seq<byte>, path: Path, size: nat, parsed: bool, p: Path)
      requires |data| >= 2 && (parsed <==> exists q: Path :: PathToWire(q) <= data[2..])
      requires parsed ==> size <= |data[2..]| && data[2..][..size] == PathToWire(path) && 2 + size != |data|
      ensures data != [0, KEY_REFERENCE_PATH] + PathToWire(p)
    {
      if data == [0, KEY_REFERENCE_PATH] + PathToWire(p) {
        assert data[2..] == PathToWire(p);
        assert PathToWire(p) <= data[2..];
        assert PathToWire(path) + data[2..][size..] == PathToWire(p) + [];
        PathToWireInjective(path, p, data[2..][size..], []);
      }
    }

    /** deriveNativeScriptHash_handleAPDU. A request that adds to the script is accepted exactly when its data
        stand for a step the open levels expect; the one that finishes it exactly when a whole script has been
        received. */
    method HandleAPDU(p1: uint8, data: seq<byte>) returns (ok: bool, preimage: seq<byte>)
      requires Valid()
      modifies Repr()
      ensures p1 != STAGE_WHOLE_NATIVE_SCRIPT_FINISH ==>
              && (ok ==> Valid() && exists x :: Requests(keyHashOf, p1, data, x) && steps == old(steps) + [x])
              && (!ok ==> forall x :: Requests(keyHashOf, p1, data, x) ==> !Expected(old(Own()), x))
      ensures p1 == STAGE_WHOLE_NATIVE_SCRIPT_FINISH ==>
              && Valid() && steps == old(steps)
              && (ok <==> IsDisplayFormat(data) && exists s :: StandsFor(steps, s))
              && (ok ==> exists s :: StandsFor(steps, s) && preimage == [0] + Encode(ToItem(s)))
    {
      ok, preimage := false, [];
      if p1 == STAGE_COMPLEX_SCRIPT_START {
        var parsed, kind, count := ParseComplex(data);
        if !parsed { return; }
        forall x | Requests(keyHashOf, p1, data, x) ensures x == Start(kind, count) {
          RequestUnique(keyHashOf, p1, data, x, Start(kind, count));
        }
        ok := HandleComplexScriptStart(kind, count);
      } else if p1 == STAGE_ADD_SIMPLE_SCRIPT {
        var parsed, script := ParseSimple(data);
        if !parsed { return; }
        forall x | Requests(keyHashOf, p1, data, x) ensures x == Add(script) {
          RequestUnique(keyHashOf, p1, data, x, Add(script));
        }
        ok := HandleSimpleScript(script);
      } else if p1 == STAGE_WHOLE_NATIVE_SCRIPT_FINISH {
        ok, preimage := HandleFinish(data);
      }
    }
  }

  lemma StartRequest(keyHashOf: Path -> KeyHash, p1: uint8, data: seq<byte>, kind: Kind, count: uint32)
    requires Requests(keyHashOf, p1, data, Start(kind, count))
    ensures p1 == STAGE_COMPLEX_SCRIPT_START && |data| >= 5 && FromBe(data[1..5]) == count
    ensures data[0] == match kind case AllOf => 1 case AnyOf => 2 case AtLeast(_) => 3
    ensures kind.AtLeast? ==> |data| == 9 && FromBe(data[5..9]) == kind.required
  {
    Pow256Values();
    FromBeOfBe(4, count);
    match kind
    case AllOf => assert data[1..5] == Be(4, count);
    case AnyOf => assert data[1..5] == Be(4, count);
    case AtLeast(r) =>
      FromBeOfBe(4, r);
      assert data[1..5] == Be(4, count) && data[5..9] == Be(4, r);
  }

  lemma TimelockRequest(keyHashOf: Path -> KeyHash, p1: uint8, data: seq<byte>, s: Simple)
    requires Requests(keyHashOf, p1, data, Add(s)) && !s.PubKey?
    ensures p1 == STAGE_ADD_SIMPLE_SCRIPT && |data| == 9 && FromBe(data[1..9]) == s.slot
    ensures data[0] == if s.InvalidBefore? then 4 else 5
  {
    Pow256Values();
    FromBeOfBe(8, s.slot);
    assert data[1..9] == Be(8, s.slot);
  }

  lemma PubKeyRequest(keyHashOf: Path -> KeyHash, p1: uint8, data: seq<byte>, h: KeyHash, g: KeyHash)
    requires Requests(keyHashOf, p1, data, Add(PubKey(h))) && Requests(keyHashOf, p1, data, Add(PubKey(g)))
    ensures h == g
  {
    if data[1] == KEY_REFERENCE_HASH {
      assert data[2..] == h && data[2..] == g;
    } else {
      var p: Path :| data == [0, KEY_REFERENCE_PATH] + PathToWire(p) && h == keyHashOf(p);
      var q: Path :| data == [0, KEY_REFERENCE_PATH] + PathToWire(q) && g == keyHashOf(q);
      assert PathToWire(p) + [] == data[2..] == PathToWire(q) + [];
      PathToWireInjective(p, q, [], []);
    }
  }

  /** The data of a request determine the step it asks for. */
  lemma RequestUnique(keyHashOf: Path -> KeyHash, p1: uint8, data: seq<byte>, x: Step, y: Step)
    requires Requests(keyHashOf, p1, data, x) && Requests(keyHashOf, p1, data, y)
    ensures x == y
  {
    hide FromBe, PathToWire;
    match (x, y)
    case (Start(k, n), Start(l, m)) =>
      StartRequest(keyHashOf, p1, data, k, n);
      StartRequest(keyHashOf, p1, data, l, m);
    case (Add(PubKey(h)), Add(PubKey(g))) =>
      PubKeyRequest(keyHashOf, p1, data, h, g);
    case (Add(s), Add(t)) =>
      if !s.PubKey? { TimelockRequest(keyHashOf, p1, data, s); }
      if !t.PubKey? { TimelockRequest(keyHashOf, p1, data, t); }
    case _ =>
  }
}
