/** Native scripts: the tree, its CBOR form, and the stream of steps that stands for it. */
module NativeScript {
  import opened Basics
  import opened Cbor

  const ADDRESS_KEY_HASH_LENGTH := 28
  const MAX_SCRIPT_DEPTH := 11

  type KeyHash = s: seq<byte> | |s| == ADDRESS_KEY_HASH_LENGTH witness seq(28, _ => 0)

  datatype Simple =
    | PubKey(keyHash: KeyHash)
    | InvalidBefore(slot: uint64)
    | InvalidHereafter(slot: uint64)

  datatype Kind = AllOf | AnyOf | AtLeast(required: uint32)

  datatype Script = Leaf(simple: Simple) | Node(kind: Kind, scripts: seq<Script>)

  /** One accepted request: a leaf, or the head of a complex script with its number of children. */
  datatype Step = Add(simple: Simple) | Start(kind: Kind, count: uint32)

  // ------------------------------------------------------------ the CBOR of a script

  function SimpleItem(s: Simple): (i: Item)
    ensures Fits(i)
  {
    match s
    case PubKey(h) => Arr([Uint(0), Bstr(h)])
    case InvalidBefore(t) => Arr([Uint(4), Uint(t)])
    case InvalidHereafter(t) => Arr([Uint(5), Uint(t)])
  }

  function NodeItem(k: Kind, children: Item): (i: Item)
    requires Fits(children)
    ensures Fits(i)
  {
    match k
    case AllOf => Arr([Uint(1), children])
    case AnyOf => Arr([Uint(2), children])
    case AtLeast(n) => Arr([Uint(3), Uint(n), children])
  }

  /** The number of children of every complex script fits the 32-bit counter. */
  predicate Sized(s: Script) {
    s.Node? ==> |s.scripts| < TWO_32 && forall i :: 0 <= i < |s.scripts| ==> Sized(s.scripts[i])
  }

  predicate AllSized(ss: seq<Script>) {
    forall i :: 0 <= i < |ss| ==> Sized(ss[i])
  }

  /** native_script of the Shelley-MA CDDL. */
  function ToItem(s: Script): (i: Item)
    requires Sized(s)
    ensures Fits(i)
    decreases s, 1
  {
    match s
    case Leaf(x) => SimpleItem(x)
    case Node(k, ss) => NodeItem(k, Arr(ToItems(ss)))
  }

  function ToItems(ss: seq<Script>): (items: seq<Item>)
    requires AllSized(ss)
    ensures |items| == |ss| && AllFit(items)
    decreases ss, 0
  {
    if ss == [] then [] else [ToItem(ss[0])] + ToItems(ss[1..])
  }

  // ------------------------------------------------------------ the stream of steps

  function Preorder(s: Script): (w: seq<Step>)
    requires Sized(s)
    ensures w != []
    decreases s, 1
  {
    match s
    case Leaf(x) => [Add(x)]
    case Node(k, ss) => [Start(k, |ss|)] + PreorderAll(ss)
  }

  function PreorderAll(ss: seq<Script>): seq<Step>
    requires AllSized(ss)
    decreases ss, 0
  {
    if ss == [] then [] else Preorder(ss[0]) + PreorderAll(ss[1..])
  }

  lemma PreorderAllCons(s: Script, tail: seq<Script>)
    requires Sized(s) && AllSized(tail)
    ensures AllSized([s] + tail) && PreorderAll([s] + tail) == Preorder(s) + PreorderAll(tail)
  {
    assert ([s] + tail)[1..] == tail;
  }

  /** What the builder appends to the hash for one step. */
  function StepBytes(x: Step): seq<byte> {
    match x
    case Add(PubKey(h)) => Head(Array, 2) + Head(Unsigned, 0) + (Head(Bytes, |h|) + h)
    case Add(InvalidBefore(t)) => Head(Array, 2) + Head(Unsigned, 4) + Head(Unsigned, t)
    case Add(InvalidHereafter(t)) => Head(Array, 2) + Head(Unsigned, 5) + Head(Unsigned, t)
    case Start(AllOf, n) => Head(Array, 2) + Head(Unsigned, 1) + Head(Array, n)
    case Start(AnyOf, n) => Head(Array, 2) + Head(Unsigned, 2) + Head(Array, n)
    case Start(AtLeast(r), n) =>
      Head(Array, 3) + Head(Unsigned, 3) + Head(Unsigned, r) + Head(Array, n)
  }

  /** The bytes of a step with the numbers of the CDDL. */
  lemma StepInBytes(x: Step)
    ensures StepBytes(x)
         == match x
            case Add(PubKey(h)) => [0x82, 0x00, 0x58, 0x1c] + h
            case Add(InvalidBefore(t)) => [0x82, 0x04] + Head(Unsigned, t)
            case Add(InvalidHereafter(t)) => [0x82, 0x05] + Head(Unsigned, t)
            case Start(AllOf, n) => [0x82, 0x01] + Head(Array, n)
            case Start(AnyOf, n) => [0x82, 0x02] + Head(Array, n)
            case Start(AtLeast(r), n) => [0x83, 0x03] + Head(Unsigned, r) + Head(Array, n)
  {
    ScriptHeads();
    hide Head;
    match x
    case Add(PubKey(h)) => Glue(StepBytes(x), [0x82, 0x00], [0x58, 0x1c], h);
    case _ =>
  }

  lemma ScriptHeads()
    ensures Head(Array, 2) == [0x82] && Head(Array, 3) == [0x83] && Head(Bytes, 28) == [0x58, 0x1c]
    ensures Head(Unsigned, 0) == [0x00] && Head(Unsigned, 1) == [0x01] && Head(Unsigned, 2) == [0x02]
    ensures Head(Unsigned, 3) == [0x03] && Head(Unsigned, 4) == [0x04] && Head(Unsigned, 5) == [0x05]
  {
    HeadInBytes(Array, 2);
    HeadInBytes(Array, 3);
    HeadInBytes(Bytes, 28);
    HeadInBytes(Unsigned, 0);
    HeadInBytes(Unsigned, 1);
    HeadInBytes(Unsigned, 2);
    HeadInBytes(Unsigned, 3);
    HeadInBytes(Unsigned, 4);
    HeadInBytes(Unsigned, 5);
  }

  function StreamBytes(w: seq<Step>): seq<byte> {
    if w == [] then [] else StepBytes(w[0]) + StreamBytes(w[1..])
  }

  lemma {:induction false} StreamBytesAppend(v: seq<Step>, w: seq<Step>)
    ensures StreamBytes(v + w) == StreamBytes(v) + StreamBytes(w)
  {
    if v == [] {
      assert v + w == w;
    } else {
      assert (v + w)[1..] == v[1..] + w;
      StreamBytesAppend(v[1..], w);
    }
  }

  lemma StreamBytesOne(x: Step)
    ensures StreamBytes([x]) == StepBytes(x)
  {
    assert [x][1..] == [];
  }

  lemma SimpleBytes(s: Simple)
    ensures StepBytes(Add(s)) == Encode(SimpleItem(s))
  {
    match s
    case PubKey(h) => EncodeTwo(Uint(0), Bstr(h));
    case InvalidBefore(t) => EncodeTwo(Uint(4), Uint(t));
    case InvalidHereafter(t) => EncodeTwo(Uint(5), Uint(t));
  }

  lemma StartBytes(k: Kind, items: seq<Item>)
    requires |items| < TWO_32 && AllFit(items)
    ensures Encode(NodeItem(k, Arr(items))) == StepBytes(Start(k, |items|)) + EncodeAll(items)
  {
    hide Head, Encode, EncodeAll;
    var a := Arr(items);
    EncodeArr(items);
    match k
    case AllOf =>
      EncodeUint(1);
      EncodeTwo(Uint(1), a);
      Glue(Encode(NodeItem(k, a)), Head(Array, 2) + Head(Unsigned, 1), Head(Array, |items|), EncodeAll(items));
    case AnyOf =>
      EncodeUint(2);
      EncodeTwo(Uint(2), a);
      Glue(Encode(NodeItem(k, a)), Head(Array, 2) + Head(Unsigned, 2), Head(Array, |items|), EncodeAll(items));
    case AtLeast(n) =>
      EncodeUint(3);
      EncodeUint(n);
      EncodeThree(Uint(3), Uint(n), a);
      Glue(Encode(NodeItem(k, a)), Head(Array, 3) + Head(Unsigned, 3) + Head(Unsigned, n),
           Head(Array, |items|), EncodeAll(items));
  }

  /** The bytes of the steps of a script, in order, are the CBOR of the script. */
  lemma {:induction false} PreorderBytes(s: Script)
    requires Sized(s)
    ensures StreamBytes(Preorder(s)) == Encode(ToItem(s))
    decreases s, 1
  {
    hide Head, StepBytes;
    match s
    case Leaf(x) =>
      StreamBytesOne(Add(x));
      SimpleBytes(x);
    case Node(k, ss) =>
      StreamBytesAppend([Start(k, |ss|)], PreorderAll(ss));
      StreamBytesOne(Start(k, |ss|));
      PreorderAllBytes(ss);
      StartBytes(k, ToItems(ss));
  }

  lemma {:induction false} PreorderAllBytes(ss: seq<Script>)
    requires AllSized(ss)
    ensures StreamBytes(PreorderAll(ss)) == EncodeAll(ToItems(ss))
    decreases ss, 0
  {
    hide Head, StepBytes;
    if ss != [] {
      StreamBytesAppend(Preorder(ss[0]), PreorderAll(ss[1..]));
      PreorderBytes(ss[0]);
      PreorderAllBytes(ss[1..]);
      EncodeAllCons(ToItem(ss[0]), ToItems(ss[1..]), ToItems(ss));
    }
  }

  // ------------------------------------------------------------ counters

  /** The live counters, outermost first: how many scripts each open level still expects. */
  type Counters = seq<nat>

  predicate Open(c: Counters) {
    c != [] && forall i :: 0 <= i < |c| - 1 ==> c[i] > 0
  }

  predicate Settled(c: Counters) {
    Open(c) && (|c| > 1 ==> c[|c| - 1] > 0)
  }

  function Top(c: Counters): nat
    requires c != []
  {
    c[|c| - 1]
  }

  function WithTop(c: Counters, n: nat): Counters
    requires c != []
  {
    c[|c| - 1 := n]
  }

  /** Only the whole script having been received leaves nothing expected. */
  lemma NothingExpected(c: Counters)
    requires Settled(c)
    ensures Top(c) == 0 <==> c == DONE
  {
    assert Top(c) == 0 ==> c == [c[0]];
  }

  /** Leaves every level that expects nothing more; each counts as one script of the level below. */
  function Settle(c: Counters): (d: Counters)
    requires Open(c)
    ensures Settled(d)
    decreases |c|
  {
    if |c| > 1 && Top(c) == 0 then
      var b := c[..|c| - 1];
      Settle(WithTop(b, Top(b) - 1))
    else c
  }

  /** n scripts of the current level have been received in full. */
  function Receive(c: Counters, n: nat): (d: Counters)
    requires Settled(c) && n <= Top(c)
    ensures Settled(d)
  {
    Settle(WithTop(c, Top(c) - n))
  }

  const START: Counters := [1]
  const DONE: Counters := [0]

  /** The effect of a step on the counters. */
  function Push(c: Counters, x: Step): (d: Counters)
    requires Settled(c) && Top(c) > 0
    ensures Settled(d) && |d| <= |c| + 1
  {
    SettleShrinks(WithTop(c, Top(c) - 1));
    match x
    case Add(_) => Receive(c, 1)
    case Start(_, n) => if n == 0 then Receive(c, 1) else c + [n]
  }

  /** Opening a level and leaving it again if it is empty is the effect of starting a complex script. */
  lemma PushStart(c: Counters, kind: Kind, count: uint32)
    requires Settled(c) && Top(c) > 0
    ensures Open(c + [count]) && Settle(c + [count]) == Push(c, Start(kind, count))
  {
    var d := c + [count];
    assert Top(d) == count && d[..|d| - 1] == c;
  }

  lemma {:induction false} SettleShrinks(c: Counters)
    requires Open(c)
    ensures |Settle(c)| <= |c|
    decreases |c|
  {
    if |c| > 1 && Top(c) == 0 {
      var b := c[..|c| - 1];
      SettleShrinks(WithTop(b, Top(b) - 1));
    }
  }

  /** The checks of the driver before a step is handed to the builder. */
  predicate Expected(c: Counters, x: Step)
    requires c != []
  {
    && Top(c) > 0
    && (x.Start? ==> |c| < MAX_SCRIPT_DEPTH)
    && (x.Start? && x.kind.AtLeast? ==> x.kind.required <= x.count)
  }

  /** A step is accepted if something is expected, a complex one at ten open levels at most besides the outermost, and
      n of k only if n is not above k. */
  lemma ExpectedInNumbers(c: Counters, x: Step)
    requires c != []
    ensures Expected(c, x) <==>
      && c[|c| - 1] > 0
      && match x
         case Add(_) => true
         case Start(AtLeast(n), k) => |c| <= 10 && n <= k
         case Start(_, _) => |c| <= 10
  {
  }

  function Run(c: Counters, w: seq<Step>): (r: Option<Counters>)
    requires Settled(c)
    ensures r.Some? ==> Settled(r.value)
    decreases |w|
  {
    if w == [] then Some(c)
    else if Expected(c, w[0]) then Run(Push(c, w[0]), w[1..])
    else None
  }

  lemma RunStep(c: Counters, x: Step, w: seq<Step>)
    requires Settled(c)
    ensures Run(c, [x] + w) == if Expected(c, x) then Run(Push(c, x), w) else None
  {
    assert ([x] + w)[1..] == w;
  }

  lemma {:induction false} RunAppend(c: Counters, v: seq<Step>, w: seq<Step>)
    requires Settled(c)
    ensures Run(c, v + w) == if Run(c, v).Some? then Run(Run(c, v).value, w) else None
    decreases |v|
  {
    if v == [] {
      assert v + w == w;
    } else {
      assert (v + w)[0] == v[0] && (v + w)[1..] == v[1..] + w;
      if Expected(c, v[0]) {
        RunAppend(Push(c, v[0]), v[1..], w);
      }
    }
  }

  /** The script can be nested `room` levels deeper, and no n-of-k asks for more than it has. */
  predicate Admissible(s: Script, room: int)
    decreases s
  {
    s.Node? ==>
      && room >= 1
      && (s.kind.AtLeast? ==> s.kind.required <= |s.scripts|)
      && forall i :: 0 <= i < |s.scripts| ==> Admissible(s.scripts[i], room - 1)
  }

  predicate AllAdmissible(ss: seq<Script>, room: int) {
    forall i :: 0 <= i < |ss| ==> Admissible(ss[i], room)
  }

  lemma ReceiveMore(c: Counters, n: nat)
    requires Settled(c) && 1 <= n <= Top(c)
    ensures n < Top(c) ==> Receive(c, n) == WithTop(c, Top(c) - n)
    ensures n > 1 ==> Receive(c, 1) == WithTop(c, Top(c) - 1) && Settled(WithTop(c, Top(c) - 1))
    ensures n > 1 ==> Receive(WithTop(c, Top(c) - 1), n - 1) == Receive(c, n)
  {
    if n > 1 {
      var d := WithTop(c, Top(c) - 1);
      assert WithTop(d, Top(d) - (n - 1)) == WithTop(c, Top(c) - n);
    }
  }

  lemma ReceiveChildren(c: Counters, n: nat)
    requires Settled(c) && Top(c) > 0 && n > 0
    ensures Settled(c + [n])
    ensures Receive(c + [n], n) == Receive(c, 1)
  {
    var d := WithTop(c + [n], 0);
    assert d == c + [0];
    assert d[..|d| - 1] == c;
  }

  /** Feeding the steps of one script to a level that expects it succeeds exactly when the script is
      admissible there, and then counts as one received script. */
  lemma {:induction false} RunPreorder(c: Counters, s: Script, w: seq<Step>)
    requires Settled(c) && Top(c) > 0 && Sized(s)
    ensures Run(c, Preorder(s) + w) ==
            if Admissible(s, MAX_SCRIPT_DEPTH - |c|) then Run(Receive(c, 1), w) else None
    decreases s, 1
  {
    hide Settle, Receive, Run;
    match s
    case Leaf(x) =>
      RunStep(c, Add(x), w);
    case Node(k, ss) =>
      var x := Start(k, |ss|);
      Glue(Preorder(s) + w, [x], PreorderAll(ss), w);
      RunStep(c, x, PreorderAll(ss) + w);
      if Expected(c, x) {
        if ss == [] {
          NoScripts(w);
        } else {
          ReceiveChildren(c, |ss|);
          RunPreorderAll(c + [|ss|], ss, w);
        }
      }
  }

  lemma {:induction false} RunPreorderAll(c: Counters, ss: seq<Script>, w: seq<Step>)
    requires Settled(c) && 1 <= |ss| <= Top(c) && AllSized(ss)
    ensures Run(c, PreorderAll(ss) + w) ==
            if AllAdmissible(ss, MAX_SCRIPT_DEPTH - |c|) then Run(Receive(c, |ss|), w) else None
    decreases ss, 0
  {
    hide Settle, Receive, Run, Preorder, PreorderAll;
    var s, tail := ss[0], ss[1..];
    assert ss == [s] + tail;
    PreorderAllCons(s, tail);
    Glue(PreorderAll(ss) + w, Preorder(s), PreorderAll(tail), w);
    RunPreorder(c, s, PreorderAll(tail) + w);
    ReceiveMore(c, |ss|);
    AllAdmissibleCons(s, tail, MAX_SCRIPT_DEPTH - |c|);
    if tail == [] {
      NoScripts(w);
    } else {
      RunPreorderAll(WithTop(c, Top(c) - 1), tail, w);
    }
  }

  lemma AllAdmissibleCons(s: Script, tail: seq<Script>, room: int)
    ensures AllAdmissible([s] + tail, room) <==> Admissible(s, room) && AllAdmissible(tail, room)
  {
    var ss := [s] + tail;
    assert ss[0] == s && forall i :: 0 <= i < |tail| ==> ss[i + 1] == tail[i];
  }

  lemma NoScripts(w: seq<Step>)
    ensures PreorderAll([]) + w == w
  {
  }

  // ------------------------------------------------------------ from a run back to the script

  /** A run to the end starts with as many whole scripts as the innermost level expects. */
  lemma {:induction false} SplitRun(c: Counters, w: seq<Step>) returns (ss: seq<Script>, rest: seq<Step>)
    requires Settled(c) && Top(c) > 0 && w != []
    requires Run(c, w) == Some(DONE)
    ensures AllSized(ss) && |ss| == Top(c)
    ensures w == PreorderAll(ss) + rest
    ensures Run(Receive(c, |ss|), rest) == Some(DONE)
    decreases |w|, 1
  {
    hide Settle, Receive, Run, Preorder, PreorderAll, Sized;
    var s, more := SplitOne(c, w);
    ReceiveMore(c, Top(c));
    var tail := [];
    if Top(c) == 1 {
      rest := more;
      NoScripts(rest);
    } else {
      var d := WithTop(c, Top(c) - 1);
      NotYetDone(d);
      tail, rest := SplitRun(d, more);
    }
    ss := [s] + tail;
    PreorderAllCons(s, tail);
    Glue(w, Preorder(s), PreorderAll(tail), rest);
  }

  lemma NotYetDone(c: Counters)
    requires Settled(c) && Top(c) > 0
    ensures Run(c, []) != Some(DONE)
  {
    assert Top(DONE) == 0;
  }

  lemma {:induction false} SplitOne(c: Counters, w: seq<Step>) returns (s: Script, rest: seq<Step>)
    requires Settled(c) && Top(c) > 0 && w != []
    requires Run(c, w) == Some(DONE)
    ensures Sized(s) && w == Preorder(s) + rest
    ensures Run(Receive(c, 1), rest) == Some(DONE)
    decreases |w|, 0
  {
    hide Settle, Receive, Run;
    var x, v := w[0], w[1..];
    assert w == [x] + v;
    RunStep(c, x, v);
    match x
    case Add(l) =>
      s, rest := Leaf(l), v;
    case Start(k, n) =>
      if n == 0 {
        s, rest := Node(k, []), v;
        assert Preorder(s) == [x];
      } else {
        ReceiveChildren(c, n);
        NotYetDone(c + [n]);
        var ss;
        ss, rest := SplitRun(c + [n], v);
        s := Node(k, ss);
        Glue(w, [x], PreorderAll(ss), rest);
      }
  }

  /** The steps of a script determine it, whatever follows them. */
  lemma {:induction false} PreorderInjective(s: Script, t: Script, v: seq<Step>, w: seq<Step>)
    requires Sized(s) && Sized(t) && Preorder(s) + v == Preorder(t) + w
    ensures s == t && v == w
    decreases s, 1
  {
    var x := Preorder(s) + v;
    var y := Preorder(t) + w;
    assert x[0] == y[0] && x[1..] == y[1..];
    if s.Leaf? {
      assert x[1..] == v && y[1..] == w;
    } else {
      assert x[1..] == PreorderAll(s.scripts) + v && y[1..] == PreorderAll(t.scripts) + w;
      PreorderAllInjective(s.scripts, t.scripts, v, w);
    }
  }

  lemma {:induction false} PreorderAllInjective(ss: seq<Script>, tt: seq<Script>, v: seq<Step>, w: seq<Step>)
    requires AllSized(ss) && AllSized(tt) && |ss| == |tt|
    requires PreorderAll(ss) + v == PreorderAll(tt) + w
    ensures ss == tt && v == w
    decreases ss, 0
  {
    if ss == [] {
      assert PreorderAll(ss) + v == v && PreorderAll(tt) + w == w;
    } else {
      assert PreorderAll(ss) + v == Preorder(ss[0]) + (PreorderAll(ss[1..]) + v);
      assert PreorderAll(tt) + w == Preorder(tt[0]) + (PreorderAll(tt[1..]) + w);
      PreorderInjective(ss[0], tt[0], PreorderAll(ss[1..]) + v, PreorderAll(tt[1..]) + w);
      PreorderAllInjective(ss[1..], tt[1..], v, w);
      assert ss == [ss[0]] + ss[1..] && tt == [tt[0]] + tt[1..];
    }
  }

  // ------------------------------------------------------------ main results

  ghost predicate StandsFor(w: seq<Step>, s: Script) {
    Sized(s) && Admissible(s, MAX_SCRIPT_DEPTH - 1) && Preorder(s) == w
  }

  /** A script is accepted to the end exactly when it has at most ten nested complex scripts
      and no n-of-k requires more scripts than it lists. */
  lemma ScriptAccepted(s: Script)
    requires Sized(s)
    ensures Run(START, Preorder(s)) == if Admissible(s, 10) then Some(DONE) else None
  {
    RunPreorder(START, s, []);
    assert Preorder(s) + [] == Preorder(s);
    assert Receive(START, 1) == DONE;
  }

  /** A run is complete exactly when its steps are the pre-order of one admissible script. */
  lemma CompleteRunIsScript(w: seq<Step>)
    ensures Run(START, w) == Some(DONE) <==> exists s :: StandsFor(w, s)
    ensures forall s, t :: StandsFor(w, s) && StandsFor(w, t) ==> s == t
  {
    NotYetDone(START);
    if Run(START, w) == Some(DONE) {
      var ss, rest := SplitRun(START, w);
      assert Receive(START, 1) == DONE;
      assert rest == [] by {
        if rest != [] { NothingAfterDone(rest); }
      }
      assert w == Preorder(ss[0]) by {
        assert PreorderAll(ss) == Preorder(ss[0]) + PreorderAll(ss[1..]);
        assert ss[1..] == [];
      }
      ScriptAccepted(ss[0]);
      assert StandsFor(w, ss[0]);
    }
    if s :| StandsFor(w, s) {
      ScriptAccepted(s);
    }
    forall s, t | StandsFor(w, s) && StandsFor(w, t) ensures s == t {
      assert Preorder(s) + [] == Preorder(t) + [];
      PreorderInjective(s, t, [], []);
    }
  }

  /** The run is complete after the last step and at no earlier point. */
  lemma CompleteOnlyAtEnd(s: Script, n: nat)
    requires Sized(s) && Admissible(s, MAX_SCRIPT_DEPTH - 1) && n <= |Preorder(s)|
    ensures Run(START, Preorder(s)[..n]).Some?
    ensures Run(START, Preorder(s)[..n]) == Some(DONE) <==> n == |Preorder(s)|
  {
    var w := Preorder(s);
    ScriptAccepted(s);
    assert w == w[..n] + w[n..];
    RunAppend(START, w[..n], w[n..]);
    if n == |w| {
      assert w[..n] == w;
    } else {
      NothingAfterDone(w[n..]);
    }
  }

  lemma NothingAfterDone(w: seq<Step>)
    requires w != []
    ensures Run(DONE, w).None?
  {
  }

  /** The bytes that are hashed determine the script: no two admissible scripts share a preimage. */
  lemma StreamInjective(s: Script, t: Script)
    requires Sized(s) && Sized(t)
    requires StreamBytes(Preorder(s)) == StreamBytes(Preorder(t))
    ensures s == t
  {
    PreorderBytes(s);
    PreorderBytes(t);
    assert Encode(ToItem(s)) + [] == Encode(ToItem(t)) + [];
    EncodeInjective(ToItem(s), ToItem(t), [], []);
    ToItemInjective(s, t);
  }

  lemma NodeItemInjective(k: Kind, l: Kind, x: Item, y: Item)
    requires Fits(x) && Fits(y) && NodeItem(k, x) == NodeItem(l, y)
    ensures k == l && x == y
  {
    var i, j := NodeItem(k, x).items, NodeItem(l, y).items;
    assert i[0] == j[0] && i[1] == j[1];
    assert i[|i| - 1] == j[|j| - 1];
  }

  lemma {:induction false} ToItemInjective(s: Script, t: Script)
    requires Sized(s) && Sized(t) && ToItem(s) == ToItem(t)
    ensures s == t
    decreases s, 1
  {
    hide Fits;
    var i, j := ToItem(s).items, ToItem(t).items;
    assert i[0] == j[0];
    if s.Node? && t.Node? {
      NodeItemInjective(s.kind, t.kind, Arr(ToItems(s.scripts)), Arr(ToItems(t.scripts)));
      ToItemsInjective(s.scripts, t.scripts);
    } else if s.Leaf? && t.Leaf? {
      assert i[1] == j[1];
    }
  }

  lemma {:induction false} ToItemsInjective(ss: seq<Script>, tt: seq<Script>)
    requires AllSized(ss) && AllSized(tt) && ToItems(ss) == ToItems(tt)
    ensures ss == tt
    decreases ss, 0
  {
    if ss != [] {
      assert ToItems(ss)[0] == ToItem(ss[0]) && ToItems(tt)[0] == ToItem(tt[0]);
      assert ToItems(ss)[1..] == ToItems(ss[1..]) && ToItems(tt)[1..] == ToItems(tt[1..]);
      ToItemInjective(ss[0], tt[0]);
      ToItemsInjective(ss[1..], tt[1..]);
      assert ss == [ss[0]] + ss[1..] && tt == [tt[0]] + tt[1..];
    }
  }
}
