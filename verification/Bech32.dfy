/** Bech32 strings: the checksum, the regrouping of bytes into five-bit symbols, and the reader of BIP 173
    that takes a string apart again. Characters are ASCII codes. */
module Bech32 {
  import opened Basics

  const BUFFER_SIZE_PARANOIA := 1024
  const MAX_BYTES := 65
  const CHECKSUM_LEN := 6
  const SEPARATOR: bv8 := 0x31

  // ------------------------------------------------------------ the checksum register

  /** Addition of registers: exclusive or. */
  function Plus(a: bv32, b: bv32): bv32 {
    a ^ b
  }

  function Widen(s: bv8): bv32 {
    s as bv32
  }

  /** The generator g if the low bit is set: the negated bit is a mask of ones. */
  function Feedback(b: bv32, g: bv32): bv32 {
    (0 - (b & 1)) & g
  }

  /** A register with one more symbol packed behind it. */
  function Join5(d: bv32, s: bv8): bv32 {
    (d << 5) | (s as bv32)
  }

  function Shift5(pre: bv32): bv32 {
    (pre & 0x1FF_FFFF) << 5
  }

  /** bech32_polymod_step: one multiplication in the field of the code, on 30 significant bits. */
  function PolymodStep(pre: bv32): bv32 {
    Plus(Plus(Plus(Plus(Plus(Shift5(pre),
      Feedback(pre >> 25, 0x3b6a57b2)), Feedback(pre >> 26, 0x26508e6d)), Feedback(pre >> 27, 0x1ea119fa)),
      Feedback(pre >> 28, 0x3d4233dd)), Feedback(pre >> 29, 0x2a1462b3))
  }

  /** The register after the values vs have been read, starting from c. */
  function Polymod(c: bv32, vs: seq<bv8>): bv32 {
    if vs == [] then c
    else Plus(PolymodStep(Polymod(c, vs[..|vs| - 1])), Widen(vs[|vs| - 1]))
  }

  function HighPart(c: bv8): bv8 { c >> 5 }

  function LowPart(c: bv8): bv8 { c & 0x1f }

  function HighParts(hrp: seq<bv8>): (s: seq<bv8>)
    ensures |s| == |hrp|
  {
    seq(|hrp|, i requires 0 <= i < |hrp| => HighPart(hrp[i]))
  }

  function LowParts(hrp: seq<bv8>): (s: seq<bv8>)
    ensures |s| == |hrp|
  {
    seq(|hrp|, i requires 0 <= i < |hrp| => LowPart(hrp[i]))
  }

  /** The human-readable part as BIP 173 feeds it to the checksum. */
  function Expand(hrp: seq<bv8>): seq<bv8> {
    HighParts(hrp) + [0] + LowParts(hrp)
  }

  /** The two parts of a character are its quotient and its remainder by 32. */
  lemma ExpandInNumbers(hrp: seq<bv8>)
    ensures |Expand(hrp)| == 2 * |hrp| + 1 && Expand(hrp)[|hrp|] == 0
    ensures forall i :: 0 <= i < |hrp| ==>
      var high, low := Expand(hrp)[i], Expand(hrp)[|hrp| + 1 + i];
      high < 8 && low < 32 && 32 * high + low == hrp[i]
  {
    forall c: bv8 ensures HighPart(c) < 8 && LowPart(c) < 32 && 32 * HighPart(c) + LowPart(c) == c { PartsOf(c); }
    hide HighPart, LowPart;
  }

  lemma PartsOf(c: bv8)
    ensures HighPart(c) < 8 && LowPart(c) < 32 && 32 * HighPart(c) + LowPart(c) == c
  {
  }

  /** The verification of BIP 173 for data that end in their checksum. */
  predicate Verifies(hrp: seq<bv8>, symbols: seq<bv8>) {
    Polymod(1, Expand(hrp) + symbols) == 1
  }

  predicate AreSymbols(vs: seq<bv8>) {
    forall i :: 0 <= i < |vs| ==> vs[i] < 32
  }

  function Zeros(n: nat): (s: seq<bv8>)
    ensures |s| == n
  {
    seq(n, _ => 0)
  }

  function Plus8(s: bv8, t: bv8): bv8 {
    s ^ t
  }

  function Xor(v: seq<bv8>, w: seq<bv8>): (s: seq<bv8>)
    requires |v| == |w|
    ensures |s| == |v|
  {
    seq(|v|, i requires 0 <= i < |v| => Plus8(v[i], w[i]))
  }

  lemma PlusAssociative(a: bv32, b: bv32, c: bv32)
    ensures Plus(Plus(a, b), c) == Plus(a, Plus(b, c))
  {
  }

  lemma PlusCommutative(a: bv32, b: bv32)
    ensures Plus(a, b) == Plus(b, a)
  {
  }

  lemma Swap(a: bv32, b: bv32, c: bv32, d: bv32)
    ensures Plus(Plus(a, b), Plus(c, d)) == Plus(Plus(a, c), Plus(b, d))
  {
    hide Plus;
    PlusAssociative(a, b, Plus(c, d));
    PlusAssociative(b, c, d);
    PlusCommutative(b, c);
    PlusAssociative(c, b, d);
    PlusAssociative(a, c, Plus(b, d));
  }

  lemma PlusIsZero(p: bv32, q: bv32)
    ensures Plus(p, q) == 0 <==> p == q
  {
  }

  lemma FeedbackPlus(p: bv32, q: bv32, g: bv32)
    ensures Feedback(p ^ q, g) == Plus(Feedback(p, g), Feedback(q, g))
  {
  }

  lemma ShiftsPlus(p: bv32, q: bv32)
    ensures Shift5(Plus(p, q)) == Plus(Shift5(p), Shift5(q))
    ensures Plus(p, q) >> 25 == (p >> 25) ^ (q >> 25)
    ensures Plus(p, q) >> 26 == (p >> 26) ^ (q >> 26)
    ensures Plus(p, q) >> 27 == (p >> 27) ^ (q >> 27)
    ensures Plus(p, q) >> 28 == (p >> 28) ^ (q >> 28)
    ensures Plus(p, q) >> 29 == (p >> 29) ^ (q >> 29)
  {
  }

  /** One step is linear. */
  lemma StepPlus(p: bv32, q: bv32)
    ensures PolymodStep(Plus(p, q)) == Plus(PolymodStep(p), PolymodStep(q))
  {
    hide Plus, Feedback, Shift5;
    var p0, q0 := Shift5(p), Shift5(q);
    var p1, q1 := Feedback(p >> 25, 0x3b6a57b2), Feedback(q >> 25, 0x3b6a57b2);
    var p2, q2 := Feedback(p >> 26, 0x26508e6d), Feedback(q >> 26, 0x26508e6d);
    var p3, q3 := Feedback(p >> 27, 0x1ea119fa), Feedback(q >> 27, 0x1ea119fa);
    var p4, q4 := Feedback(p >> 28, 0x3d4233dd), Feedback(q >> 28, 0x3d4233dd);
    var p5, q5 := Feedback(p >> 29, 0x2a1462b3), Feedback(q >> 29, 0x2a1462b3);
    ShiftsPlus(p, q);
    FeedbackPlus(p >> 25, q >> 25, 0x3b6a57b2);
    FeedbackPlus(p >> 26, q >> 26, 0x26508e6d);
    FeedbackPlus(p >> 27, q >> 27, 0x1ea119fa);
    FeedbackPlus(p >> 28, q >> 28, 0x3d4233dd);
    FeedbackPlus(p >> 29, q >> 29, 0x2a1462b3);
    Swap(p0, q0, p1, q1);
    Swap(Plus(p0, p1), Plus(q0, q1), p2, q2);
    Swap(Plus(Plus(p0, p1), p2), Plus(Plus(q0, q1), q2), p3, q3);
    Swap(Plus(Plus(Plus(p0, p1), p2), p3), Plus(Plus(Plus(q0, q1), q2), q3), p4, q4);
    Swap(Plus(Plus(Plus(Plus(p0, p1), p2), p3), p4), Plus(Plus(Plus(Plus(q0, q1), q2), q3), q4), p5, q5);
  }

  /** The step loses no information on the 30 bits of the register. */
  lemma StepKernel(d: bv32)
    requires d < 0x4000_0000
    ensures PolymodStep(d) < 0x4000_0000
    ensures PolymodStep(d) == 0 ==> d == 0
  {
  }

  // ------------------------------------------------------------ the code

  /** Twice an element of GF(32), whose elements are polynomials over GF(2) modulo x^5 + x^3 + 1, the number 41. */
  function Twice(a: bv32): bv32 {
    if a & 16 == 0 then a << 1 else (a << 1) ^ 41
  }

  function TimesBit(b: bv32, a: bv32): bv32 {
    if b & 1 == 0 then 0 else a
  }

  /** The product in GF(32). */
  function Product(a: bv32, b: bv32): bv32 {
    TimesBit(b, a) ^ TimesBit(b >> 1, Twice(a)) ^ TimesBit(b >> 2, Twice(Twice(a)))
    ^ TimesBit(b >> 3, Twice(Twice(Twice(a)))) ^ TimesBit(b >> 4, Twice(Twice(Twice(Twice(a)))))
  }

  function Symbol5(v: bv32): bv32 { v >> 25 }

  function Symbol4(v: bv32): bv32 { (v >> 20) & 31 }

  function Symbol3(v: bv32): bv32 { (v >> 15) & 31 }

  function Symbol2(v: bv32): bv32 { (v >> 10) & 31 }

  function Symbol1(v: bv32): bv32 { (v >> 5) & 31 }

  function Symbol0(v: bv32): bv32 { v & 31 }

  /** The register as a polynomial: its six symbols, the highest power of x first. */
  function Coefficients(v: bv32): (s: seq<bv32>)
    ensures |s| == 6
  {
    [Symbol5(v), Symbol4(v), Symbol3(v), Symbol2(v), Symbol1(v), Symbol0(v)]
  }

  /** The remainder of c x^6 modulo the generator of BIP 173, x^6 + 29 x^5 + 22 x^4 + 20 x^3 + 21 x^2 + 29 x + 18. */
  lemma GeneratorMultiple(c: bv32)
    requires c < 32
    ensures Coefficients(PolymodStep(c << 25))
         == [Product(c, 29), Product(c, 22), Product(c, 20), Product(c, 21), Product(c, 29), Product(c, 18)]
  {
  }

  /** One step multiplies the polynomial in the register by x, modulo the generator of BIP 173. */
  lemma StepIsMultiplication(p: bv32)
    requires p < 0x4000_0000
    ensures var s := Coefficients(p);
            Coefficients(PolymodStep(p))
            == [Plus(s[1], Product(s[0], 29)), Plus(s[2], Product(s[0], 22)), Plus(s[3], Product(s[0], 20)),
                Plus(s[4], Product(s[0], 21)), Plus(s[5], Product(s[0], 29)), Product(s[0], 18)]
  {
    hide PolymodStep, Product, Plus, Feedback, Coefficients, Join5, LowRegister, TopSymbol;
    var c, low := TopSymbol(p), LowRegister(p);
    Split(p);
    GeneratorMultiple(c);
    StepPlus(low, c << 25);
    StepSmall(low, 0);
    PlusZero(PolymodStep(low));
    ShiftedCoefficients(p, PolymodStep(low), PolymodStep(c << 25));
  }

  function TopSymbol(p: bv32): bv32 { p >> 25 }

  function LowRegister(p: bv32): bv32 { p & 0x1FF_FFFF }

  lemma Split(p: bv32)
    requires p < 0x4000_0000
    ensures TopSymbol(p) < 32 && LowRegister(p) < 0x200_0000 && p == Plus(LowRegister(p), TopSymbol(p) << 25)
    ensures Coefficients(p)[0] == TopSymbol(p)
  {
  }

  lemma ShiftedCoefficients(p: bv32, q: bv32, r: bv32)
    requires p < 0x4000_0000 && q == Join5(LowRegister(p), 0)
    ensures var s, t := Coefficients(p), Coefficients(r);
            Coefficients(Plus(q, r))
            == [Plus(s[1], t[0]), Plus(s[2], t[1]), Plus(s[3], t[2]), Plus(s[4], t[3]), Plus(s[5], t[4]), t[5]]
  {
    hide Plus, Join5, LowRegister, Symbol5, Symbol4, Symbol3, Symbol2, Symbol1, Symbol0;
    ShiftedHigh(p, q, r);
    ShiftedMiddle(p, q, r);
    ShiftedLow(p, q, r);
  }

  lemma ShiftedHigh(p: bv32, q: bv32, r: bv32)
    requires p < 0x4000_0000 && q == Join5(LowRegister(p), 0)
    ensures Symbol5(Plus(q, r)) == Plus(Symbol4(p), Symbol5(r))
    ensures Symbol4(Plus(q, r)) == Plus(Symbol3(p), Symbol4(r))
  {
  }

  lemma ShiftedMiddle(p: bv32, q: bv32, r: bv32)
    requires p < 0x4000_0000 && q == Join5(LowRegister(p), 0)
    ensures Symbol3(Plus(q, r)) == Plus(Symbol2(p), Symbol3(r))
    ensures Symbol2(Plus(q, r)) == Plus(Symbol1(p), Symbol2(r))
  {
  }

  lemma ShiftedLow(p: bv32, q: bv32, r: bv32)
    requires p < 0x4000_0000 && q == Join5(LowRegister(p), 0)
    ensures Symbol1(Plus(q, r)) == Plus(Symbol0(p), Symbol1(r))
    ensures Symbol0(Plus(q, r)) == Symbol0(r)
  {
  }

  lemma StepSmall(d: bv32, s: bv8)
    requires d < 0x200_0000 && s < 32
    ensures Plus(PolymodStep(d), Widen(s)) == Join5(d, s)
    ensures Plus(PolymodStep(d), Widen(s)) == 0 ==> d == 0 && s == 0
  {
    hide Plus, Feedback, Shift5, Join5;
    NoFeedback(d);
    PlusZero(d << 5);
    Join(d, s);
  }

  lemma NoFeedback(d: bv32)
    requires d < 0x200_0000
    ensures Shift5(d) == d << 5
    ensures Feedback(d >> 25, 0x3b6a57b2) == 0 && Feedback(d >> 26, 0x26508e6d) == 0
    ensures Feedback(d >> 27, 0x1ea119fa) == 0 && Feedback(d >> 28, 0x3d4233dd) == 0
    ensures Feedback(d >> 29, 0x2a1462b3) == 0
  {
  }

  lemma Join(d: bv32, s: bv8)
    requires d < 0x200_0000 && s < 32
    ensures Plus(d << 5, Widen(s)) == Join5(d, s)
    ensures Join5(d, s) == 0 ==> d == 0 && s == 0
  {
  }

  lemma PlusZero(p: bv32)
    ensures Plus(p, 0) == p && Plus(p, Widen(0)) == p
  {
  }

  lemma PolymodSnoc(c: bv32, v: seq<bv8>, s: bv8)
    ensures Polymod(c, v + [s]) == Plus(PolymodStep(Polymod(c, v)), Widen(s))
  {
    hide PolymodStep, Plus, Widen;
    assert (v + [s])[..|v|] == v;
  }

  lemma {:induction false} PolymodAppend(c: bv32, v: seq<bv8>, w: seq<bv8>)
    ensures Polymod(c, v + w) == Polymod(Polymod(c, v), w)
  {
    hide PolymodStep, Plus, Widen;
    if w == [] {
      assert v + w == v;
    } else {
      var n := |w| - 1;
      PolymodAppend(c, v, w[..n]);
      assert v + w == (v + w[..n]) + [w[n]];
      PolymodSnoc(c, v + w[..n], w[n]);
    }
  }

  lemma WidenXor(s: bv8, t: bv8)
    ensures Widen(Plus8(s, t)) == Plus(Widen(s), Widen(t))
  {
  }

  /** The checksum register is linear over exclusive or. */
  lemma {:induction false} PolymodXor(c: bv32, d: bv32, v: seq<bv8>, w: seq<bv8>)
    requires |v| == |w|
    ensures Polymod(Plus(c, d), Xor(v, w)) == Plus(Polymod(c, v), Polymod(d, w))
  {
    hide PolymodStep, Plus, Widen, Plus8;
    if v == [] {
      assert Xor(v, w) == [];
    } else {
      var n := |v| - 1;
      PolymodXor(c, d, v[..n], w[..n]);
      StepPlus(Polymod(c, v[..n]), Polymod(d, w[..n]));
      Swap(PolymodStep(Polymod(c, v[..n])), PolymodStep(Polymod(d, w[..n])), Widen(v[n]), Widen(w[n]));
      WidenXor(v[n], w[n]);
      assert Xor(v, w) == Xor(v[..n], w[..n]) + [Plus8(v[n], w[n])];
      PolymodSnoc(Plus(c, d), Xor(v[..n], w[..n]), Plus8(v[n], w[n]));
    }
  }

  /** A difference in the register survives any number of further values. */
  lemma {:induction false} DifferenceSurvives(d: bv32, n: nat)
    requires d < 0x4000_0000
    ensures Polymod(d, Zeros(n)) < 0x4000_0000
    ensures Polymod(d, Zeros(n)) == 0 ==> d == 0
  {
    hide PolymodStep;
    if n > 0 {
      assert Zeros(n)[..n - 1] == Zeros(n - 1);
      DifferenceSurvives(d, n - 1);
      StepKernel(Polymod(d, Zeros(n - 1)));
      PlusZero(PolymodStep(Polymod(d, Zeros(n - 1))));
    }
  }

  function Limit(n: nat): bv32
    requires n <= 6
  {
    if n == 0 then 1 else if n == 1 then 0x20 else if n == 2 then 0x400 else if n == 3 then 0x8000
    else if n == 4 then 0x10_0000 else if n == 5 then 0x200_0000 else 0x4000_0000
  }

  /** Up to six symbols fit the register side by side, so only zeros leave it at zero. */
  lemma {:induction false} BurstRegister(e: seq<bv8>)
    requires AreSymbols(e) && |e| <= CHECKSUM_LEN
    ensures Polymod(0, e) < Limit(|e|)
    ensures Polymod(0, e) == 0 ==> e == Zeros(|e|)
  {
    hide PolymodStep, Plus, Widen, Join5, Limit;
    if e == [] {
      BelowOneIsZero();
    } else {
      var n := |e| - 1;
      BurstRegister(e[..n]);
      BurstBound(Polymod(0, e[..n]), e[n], n);
      StepSmall(Polymod(0, e[..n]), e[n]);
      if Polymod(0, e) == 0 {
        assert e == e[..n] + [e[n]];
        assert Zeros(n) + [0] == Zeros(n + 1);
      }
    }
  }

  lemma BelowOneIsZero()
    ensures 0 < Limit(0)
  {
  }

  lemma BurstBound(d: bv32, s: bv8, n: nat)
    requires n < 6 && d < Limit(n) && s < 32
    ensures d < 0x200_0000 && Join5(d, s) < Limit(n + 1)
  {
  }

  lemma XorIsZero(v: seq<bv8>, w: seq<bv8>)
    requires |v| == |w| && AreSymbols(v) && AreSymbols(w)
    ensures AreSymbols(Xor(v, w))
    ensures Xor(v, w) == Zeros(|v|) ==> v == w
  {
    forall i | 0 <= i < |v| ensures Xor(v, w)[i] < 32 && (Xor(v, w)[i] == 0 ==> v[i] == w[i]) {
      XorOfSymbols(v[i], w[i]);
    }
  }

  lemma XorOfSymbols(s: bv8, t: bv8)
    requires s < 32 && t < 32
    ensures Plus8(s, t) < 32 && (Plus8(s, t) == 0 ==> s == t)
  {
  }

  lemma XorSame(v: seq<bv8>)
    ensures Xor(v, v) == Zeros(|v|)
  {
    assert forall i :: 0 <= i < |v| ==> Plus8(v[i], v[i]) == 0;
  }

  /** Whatever the length, any change confined to six neighbouring symbols changes the checksum register. */
  lemma BurstChangesRegister(c: bv32, x: seq<bv8>, y: seq<bv8>, after: seq<bv8>)
    requires |x| == |y| <= CHECKSUM_LEN && AreSymbols(x) && AreSymbols(y) && x != y
    ensures Polymod(c, x + after) != Polymod(c, y + after)
  {
    hide PolymodStep, Polymod, Plus;
    PolymodAppend(c, x, after);
    PolymodAppend(c, y, after);
    var p, q := Polymod(c, x), Polymod(c, y);
    PolymodXor(c, c, x, y);
    PolymodXor(p, q, after, after);
    XorSame(after);
    XorIsZero(x, y);
    PlusIsZero(c, c);
    BurstRegister(Xor(x, y));
    assert Limit(|x|) <= 0x4000_0000;
    DifferenceSurvives(Plus(p, q), |after|);
    PlusIsZero(Polymod(p, after), Polymod(q, after));
  }

  // ------------------------------------------------------------ the checksum symbols

  function Low5(v: bv32): (s: bv8)
    ensures s < 32
  {
    (v & 0x1f) as bv8
  }

  function Drop5(v: bv32): bv32 {
    v >> 5
  }

  /** The n lowest symbols packed into the register, most significant first. */
  function SymbolsOf(v: bv32, n: nat): (s: seq<bv8>)
    ensures |s| == n && AreSymbols(s)
  {
    if n == 0 then [] else SymbolsOf(Drop5(v), n - 1) + [Low5(v)]
  }

  /** The checksum of BIP 173 for data that do not contain it yet. */
  function Checksum(hrp: seq<bv8>, data: seq<bv8>): (s: seq<bv8>)
    ensures |s| == CHECKSUM_LEN && AreSymbols(s)
  {
    SymbolsOf(Plus(Polymod(1, Expand(hrp) + data + Zeros(CHECKSUM_LEN)), 1), CHECKSUM_LEN)
  }

  lemma {:induction false} PolymodOfSymbols(v: bv32, n: nat)
    requires n <= CHECKSUM_LEN && v < Limit(n)
    ensures Polymod(0, SymbolsOf(v, n)) == v
    decreases n
  {
    hide PolymodStep, Polymod, Plus, Widen, Low5, Drop5, Join5, Limit;
    if n == 0 {
      PolymodNone(0, SymbolsOf(v, 0));
      BelowOne(v);
    } else {
      Unpacked(v, n);
      PolymodOfSymbols(Drop5(v), n - 1);
      StepSmall(Drop5(v), Low5(v));
      PolymodSnoc(0, SymbolsOf(Drop5(v), n - 1), Low5(v));
    }
  }

  lemma PolymodNone(c: bv32, s: seq<bv8>)
    requires s == []
    ensures Polymod(c, s) == c
  {
  }

  lemma BelowOne(v: bv32)
    requires v < Limit(0)
    ensures v == 0
  {
  }

  lemma Unpacked(v: bv32, n: nat)
    requires 0 < n <= CHECKSUM_LEN && v < Limit(n)
    ensures Drop5(v) < Limit(n - 1) && Drop5(v) < 0x200_0000
    ensures Join5(Drop5(v), Low5(v)) == v
  {
  }

  /** What is written ends in its checksum, so it passes the verification; and it is the only
      ending of six symbols that does. */
  lemma ChecksumVerifies(hrp: seq<bv8>, data: seq<bv8>, ending: seq<bv8>)
    requires |ending| == CHECKSUM_LEN && AreSymbols(ending)
    ensures Verifies(hrp, data + ending) <==> ending == Checksum(hrp, data)
  {
    hide PolymodStep, Polymod, Plus;
    var before := Expand(hrp) + data;
    var c, e := Polymod(1, before), Checksum(hrp, data);
    ChecksumRegister(c);
    PolymodAppend(1, before, Zeros(CHECKSUM_LEN));
    PolymodAppend(1, before, e);
    PolymodAppend(1, before, ending);
    assert before + e == Expand(hrp) + (data + e);
    assert before + ending == Expand(hrp) + (data + ending);
    if ending != e {
      BurstChangesRegister(c, e, ending, []);
      assert e + [] == e && ending + [] == ending;
    }
  }

  /** Reading the six checksum symbols takes any register to one. */
  lemma ChecksumRegister(c: bv32)
    ensures Polymod(c, SymbolsOf(Plus(Polymod(c, Zeros(CHECKSUM_LEN)), 1), CHECKSUM_LEN)) == 1
  {
    hide PolymodStep, Plus, Polymod;
    var z := Polymod(c, Zeros(CHECKSUM_LEN));
    var e := SymbolsOf(Plus(z, 1), CHECKSUM_LEN);
    RegisterAfter(c, Zeros(CHECKSUM_LEN - 1), 0);
    assert Zeros(CHECKSUM_LEN) == Zeros(CHECKSUM_LEN - 1) + [0];
    PlusOneFits(z);
    PolymodOfSymbols(Plus(z, 1), CHECKSUM_LEN);
    PolymodXor(c, 0, Zeros(CHECKSUM_LEN), e);
    PlusZero(c);
    XorZeros(e);
    PlusCancels(z, 1);
  }

  lemma RegisterAfter(c: bv32, v: seq<bv8>, s: bv8)
    requires s < 32
    ensures Polymod(c, v + [s]) < 0x4000_0000
  {
    hide PolymodStep, Polymod;
    PolymodSnoc(c, v, s);
    StepFits(Polymod(c, v), s);
  }

  lemma StepFits(d: bv32, s: bv8)
    requires s < 32
    ensures Plus(PolymodStep(d), Widen(s)) < 0x4000_0000
  {
  }

  lemma PlusOneFits(z: bv32)
    requires z < 0x4000_0000
    ensures Plus(z, 1) < 0x4000_0000
  {
  }

  lemma PlusCancels(p: bv32, q: bv32)
    ensures Plus(p, Plus(p, q)) == q
  {
  }

  lemma XorZeros(v: seq<bv8>)
    ensures Xor(Zeros(|v|), v) == v
  {
    assert forall i :: 0 <= i < |v| ==> Plus8(0, v[i]) == v[i];
  }

  /** Changing a string of data and checksum symbols within six neighbouring positions makes it fail the
      verification, whatever its length. */
  lemma BurstDetected(hrp: seq<bv8>, before: seq<bv8>, x: seq<bv8>, y: seq<bv8>, after: seq<bv8>)
    requires |x| == |y| <= CHECKSUM_LEN && AreSymbols(x) && AreSymbols(y) && x != y
    requires Verifies(hrp, before + x + after)
    ensures !Verifies(hrp, before + y + after)
  {
    hide PolymodStep, Polymod;
    var lead := Expand(hrp) + before;
    assert Expand(hrp) + (before + x + after) == lead + (x + after);
    assert Expand(hrp) + (before + y + after) == lead + (y + after);
    PolymodAppend(1, lead, x + after);
    PolymodAppend(1, lead, y + after);
    BurstChangesRegister(Polymod(1, lead), x, y, after);
  }

  // ------------------------------------------------------------ regrouping bits

  function ShiftRight(v: bv32, k: nat): bv32
    requires k < 32
  {
    v >> k
  }

  function BitAt(v: bv32, k: nat): bool
    requires k < 32
  {
    (v >> k) & 1 == 1
  }

  /** The five low bits of w are those of v from the n-th on. */
  predicate BitsMoved(v: bv32, w: bv32, n: nat)
    requires n < 8
  {
    && BitAt(w, 0) == BitAt(v, n) && BitAt(w, 1) == BitAt(v, n + 1) && BitAt(w, 2) == BitAt(v, n + 2)
    && BitAt(w, 3) == BitAt(v, n + 3) && BitAt(w, 4) == BitAt(v, n + 4)
  }

  /** The n low bits, most significant first. */
  function LowBits(v: bv32, n: nat): (s: seq<bool>)
    requires n <= 16
    ensures |s| == n
  {
    seq(n, i requires 0 <= i < n => BitAt(v, n - 1 - i))
  }

  /** The bits of bytes, eight each. */
  function BitsOfBytes(bytes: seq<bv8>): (s: seq<bool>)
    ensures |s| == 8 * |bytes|
  {
    if bytes == [] then []
    else BitsOfBytes(bytes[..|bytes| - 1]) + LowBits(Widen(bytes[|bytes| - 1]), 8)
  }

  /** The bits of symbols, five each. */
  function BitsOfSymbols(vs: seq<bv8>): (s: seq<bool>)
    ensures |s| == 5 * |vs|
  {
    if vs == [] then []
    else BitsOfSymbols(vs[..|vs| - 1]) + LowBits(Widen(vs[|vs| - 1]), 5)
  }

  lemma AppendByte(val: bv32, b: bv8, n: nat)
    requires n < 5
    ensures LowBits((val << 8) | Widen(b), n + 8) == LowBits(val, n) + LowBits(Widen(b), 8)
  {
    hide BitAt;
    ByteBits(val, b);
    BitsAboveByte(val, b);
  }

  lemma ByteBits(val: bv32, b: bv8)
    ensures var v := (val << 8) | Widen(b);
      && BitAt(v, 0) == BitAt(Widen(b), 0) && BitAt(v, 1) == BitAt(Widen(b), 1)
      && BitAt(v, 2) == BitAt(Widen(b), 2) && BitAt(v, 3) == BitAt(Widen(b), 3)
      && BitAt(v, 4) == BitAt(Widen(b), 4) && BitAt(v, 5) == BitAt(Widen(b), 5)
      && BitAt(v, 6) == BitAt(Widen(b), 6) && BitAt(v, 7) == BitAt(Widen(b), 7)
  {
  }

  lemma BitsAboveByte(val: bv32, b: bv8)
    ensures var v := (val << 8) | Widen(b);
      && BitAt(v, 8) == BitAt(val, 0) && BitAt(v, 9) == BitAt(val, 1)
      && BitAt(v, 10) == BitAt(val, 2) && BitAt(v, 11) == BitAt(val, 3)
  {
  }

  lemma TakeSymbol(val: bv32, n: nat)
    requires n < 8
    ensures LowBits(val, n + 5) == LowBits(Widen(Low5(ShiftRight(val, n))), 5) + LowBits(val, n)
  {
    hide BitsMoved, ShiftRight, Low5, Widen, LowBits;
    ShiftedBits(val, n);
    SplitBits(val, ShiftRight(val, n), n);
  }

  lemma SplitBits(v: bv32, w: bv32, n: nat)
    requires n < 8 && BitsMoved(v, w, n)
    ensures LowBits(v, n + 5) == LowBits(Widen(Low5(w)), 5) + LowBits(v, n)
  {
    hide BitAt, Low5, Widen;
    Low5Bits(w);
  }

  lemma Low5Bits(v: bv32)
    ensures var s := Widen(Low5(v));
      && BitAt(s, 0) == BitAt(v, 0) && BitAt(s, 1) == BitAt(v, 1) && BitAt(s, 2) == BitAt(v, 2)
      && BitAt(s, 3) == BitAt(v, 3) && BitAt(s, 4) == BitAt(v, 4)
  {
  }

  lemma ShiftedBits(v: bv32, n: nat)
    requires n < 8
    ensures BitsMoved(v, ShiftRight(v, n), n)
  {
    hide BitsMoved, ShiftRight;
    ShiftedByNone(v);
    ShiftedBy1(v);
    ShiftedBy2(v);
    ShiftedBy3(v);
    ShiftedBy4(v);
    ShiftedBy5(v);
    ShiftedBy6(v);
    ShiftedBy7(v);
  }

  lemma ShiftedByNone(v: bv32)
    ensures BitsMoved(v, ShiftRight(v, 0), 0)
  {
    assert ShiftRight(v, 0) == v;
  }

  lemma ShiftedBy1(v: bv32)
    ensures BitsMoved(v, ShiftRight(v, 1), 1)
  {
    assert ShiftRight(v, 1) == v >> 1;
  }

  lemma ShiftedBy2(v: bv32)
    ensures BitsMoved(v, ShiftRight(v, 2), 2)
  {
    assert ShiftRight(v, 2) == v >> 2;
  }

  lemma ShiftedBy3(v: bv32)
    ensures BitsMoved(v, ShiftRight(v, 3), 3)
  {
    assert ShiftRight(v, 3) == v >> 3;
  }

  lemma ShiftedBy4(v: bv32)
    ensures BitsMoved(v, ShiftRight(v, 4), 4)
  {
    assert ShiftRight(v, 4) == v >> 4;
  }

  lemma ShiftedBy5(v: bv32)
    ensures BitsMoved(v, ShiftRight(v, 5), 5)
  {
    assert ShiftRight(v, 5) == v >> 5;
  }

  lemma ShiftedBy6(v: bv32)
    ensures BitsMoved(v, ShiftRight(v, 6), 6)
  {
    assert ShiftRight(v, 6) == v >> 6;
  }

  lemma ShiftedBy7(v: bv32)
    ensures BitsMoved(v, ShiftRight(v, 7), 7)
  {
    assert ShiftRight(v, 7) == v >> 7;
  }

  lemma PadSymbol(val: bv32, n: nat)
    requires 0 < n < 5
    ensures LowBits(Widen(Low5(val << (5 - n))), 5) == LowBits(val, n) + seq(5 - n, _ => false)
  {
    hide BitAt, Low5, Widen, LowBits;
    RaisedBits(val, n);
    FilledBits(val, val << (5 - n), n);
  }

  lemma FilledBits(v: bv32, w: bv32, n: nat)
    requires 0 < n < 5
    requires !BitAt(w, 0) && BitAt(w, 4) == BitAt(v, n - 1)
    requires BitAt(w, 3) == if n > 1 then BitAt(v, n - 2) else false
    requires BitAt(w, 2) == if n > 2 then BitAt(v, n - 3) else false
    requires BitAt(w, 1) == if n > 3 then BitAt(v, n - 4) else false
    ensures LowBits(Widen(Low5(w)), 5) == LowBits(v, n) + seq(5 - n, _ => false)
  {
    hide BitAt, Low5, Widen;
    Low5Bits(w);
  }

  lemma RaisedBits(v: bv32, n: nat)
    requires 0 < n < 5
    ensures !BitAt(v << (5 - n), 0) && BitAt(v << (5 - n), 4) == BitAt(v, n - 1)
    ensures BitAt(v << (5 - n), 3) == if n > 1 then BitAt(v, n - 2) else false
    ensures BitAt(v << (5 - n), 2) == if n > 2 then BitAt(v, n - 3) else false
    ensures BitAt(v << (5 - n), 1) == if n > 3 then BitAt(v, n - 4) else false
  {
    if n == 1 {
    } else if n == 2 {
    } else if n == 3 {
    } else {
    }
  }

  /** The bits of the symbols are the bits of the bytes, filled up with fewer than five zeros. */
  predicate Regroups(bytes: seq<bv8>, symbols: seq<bv8>) {
    && AreSymbols(symbols)
    && |symbols| == (8 * |bytes| + 4) / 5
    && BitsOfSymbols(symbols) == BitsOfBytes(bytes) + seq(5 * |symbols| - 8 * |bytes|, _ => false)
  }

  /** The j-th bit of a byte, counted from the most significant one. */
  function BitOfByte(b: bv8, j: nat): bool
    requires j < 8
  {
    b & [0x80, 0x40, 0x20, 0x10, 0x08, 0x04, 0x02, 0x01][j] != 0
  }

  /** The bits of the bytes in order, five to a symbol, each symbol and byte with its highest bit first;
      what remains of the last symbol is zero. */
  lemma SymbolsInBits(bytes: seq<bv8>, symbols: seq<bv8>)
    requires Regroups(bytes, symbols)
    ensures forall i :: 0 <= i < 5 * |symbols| ==>
      BitOfByte(symbols[i / 5], 3 + i % 5) == (i < 8 * |bytes| && BitOfByte(bytes[i / 8], i % 8))
  {
    hide BitOfByte, BitsOfSymbols, BitsOfBytes;
    forall i | 0 <= i < 5 * |symbols|
      ensures BitOfByte(symbols[i / 5], 3 + i % 5) == (i < 8 * |bytes| && BitOfByte(bytes[i / 8], i % 8))
    {
      BitOfSymbols(symbols, i);
      if i < 8 * |bytes| { BitOfBytes(bytes, i); }
    }
  }

  lemma {:induction false} BitOfSymbols(vs: seq<bv8>, i: nat)
    requires i < 5 * |vs|
    ensures BitsOfSymbols(vs)[i] == BitOfByte(vs[i / 5], 3 + i % 5)
  {
    hide BitOfByte, LowBits, Widen;
    var n := |vs| - 1;
    if i < 5 * n { BitOfSymbols(vs[..n], i); } else { BitOfLowBits(vs[n], 5, i - 5 * n); }
  }

  lemma {:induction false} BitOfBytes(bytes: seq<bv8>, i: nat)
    requires i < 8 * |bytes|
    ensures BitsOfBytes(bytes)[i] == BitOfByte(bytes[i / 8], i % 8)
  {
    hide BitOfByte, LowBits, Widen;
    var n := |bytes| - 1;
    if i < 8 * n { BitOfBytes(bytes[..n], i); } else { BitOfLowBits(bytes[n], 8, i - 8 * n); }
  }

  lemma BitOfLowBits(b: bv8, n: nat, j: nat)
    requires j < n <= 8
    ensures LowBits(Widen(b), n)[j] == BitOfByte(b, 8 - n + j)
  {
    hide BitAt, Widen;
    BitsByMask(b);
  }

  lemma BitsByMask(b: bv8)
    ensures var v := Widen(b);
            && BitAt(v, 7) == (b & 0x80 != 0) && BitAt(v, 6) == (b & 0x40 != 0) && BitAt(v, 5) == (b & 0x20 != 0)
            && BitAt(v, 4) == (b & 0x10 != 0) && BitAt(v, 3) == (b & 0x08 != 0) && BitAt(v, 2) == (b & 0x04 != 0)
            && BitAt(v, 1) == (b & 0x02 != 0) && BitAt(v, 0) == (b & 0x01 != 0)
  {
  }

  lemma BitsOfByteSnoc(bytes: seq<bv8>, b: bv8)
    ensures BitsOfBytes(bytes + [b]) == BitsOfBytes(bytes) + LowBits(Widen(b), 8)
  {
    hide LowBits, Widen;
    assert (bytes + [b])[..|bytes|] == bytes;
  }

  lemma BitsOfSymbolSnoc(vs: seq<bv8>, s: bv8)
    ensures BitsOfSymbols(vs + [s]) == BitsOfSymbols(vs) + LowBits(Widen(s), 5)
  {
    hide LowBits, Widen;
    assert (vs + [s])[..|vs|] == vs;
  }

  lemma ByteTaken(before: seq<bv8>, val: bv32, n: nat, bytes: seq<bv8>, i: nat)
    requires n < 5 && i < |bytes| && BitsOfSymbols(before) + LowBits(val, n) == BitsOfBytes(bytes[..i])
    ensures BitsOfSymbols(before) + LowBits((val << 8) | Widen(bytes[i]), n + 8) == BitsOfBytes(bytes[..i + 1])
  {
    hide LowBits, Widen, BitsOfSymbols, BitsOfBytes;
    AppendByte(val, bytes[i], n);
    BitsOfByteSnoc(bytes[..i], bytes[i]);
    assert bytes[..i + 1] == bytes[..i] + [bytes[i]];
    Glue(BitsOfBytes(bytes[..i + 1]), BitsOfSymbols(before), LowBits(val, n), LowBits(Widen(bytes[i]), 8));
  }

  lemma SymbolEmitted(before: seq<bv8>, val: bv32, n: nat, target: seq<bool>)
    requires n < 8 && BitsOfSymbols(before) + LowBits(val, n + 5) == target
    ensures BitsOfSymbols(before + [Low5(ShiftRight(val, n))]) + LowBits(val, n) == target
  {
    hide LowBits, Widen, Low5, ShiftRight, BitsOfSymbols;
    TakeSymbol(val, n);
    BitsOfSymbolSnoc(before, Low5(ShiftRight(val, n)));
    Glue(target, BitsOfSymbols(before), LowBits(Widen(Low5(ShiftRight(val, n))), 5), LowBits(val, n));
  }

  lemma SymbolPadded(before: seq<bv8>, val: bv32, n: nat, target: seq<bool>)
    requires 0 < n < 5 && BitsOfSymbols(before) + LowBits(val, n) == target
    ensures BitsOfSymbols(before + [Low5(val << (5 - n))]) == target + seq(5 - n, _ => false)
  {
    hide LowBits, Widen, Low5, BitsOfSymbols;
    PadSymbol(val, n);
    BitsOfSymbolSnoc(before, Low5(val << (5 - n)));
    Glue(BitsOfSymbols(before) + LowBits(Widen(Low5(val << (5 - n))), 5),
         BitsOfSymbols(before), LowBits(val, n), seq(5 - n, _ => false));
  }

  /** The inner conversion loop of bech32_encode: emits symbols while five bits are waiting. */
  method EmitSymbols(val: bv32, waiting: nat, data5bit: array<bv8>, start: nat, ghost target: seq<bool>)
      returns (bits: nat, data5bitLength: nat)
    requires waiting < 13 && 5 * start + waiting <= 8 * MAX_BYTES && data5bit.Length == (8 * MAX_BYTES + 4) / 5
    requires AreSymbols(data5bit[..start]) && BitsOfSymbols(data5bit[..start]) + LowBits(val, waiting) == target
    modifies data5bit
    ensures bits < 5 && 5 * data5bitLength + bits == 5 * start + waiting && data5bitLength <= data5bit.Length
    ensures AreSymbols(data5bit[..data5bitLength])
    ensures BitsOfSymbols(data5bit[..data5bitLength]) + LowBits(val, bits) == target
  {
    hide LowBits, Widen, Low5, ShiftRight, BitsOfSymbols;
    bits, data5bitLength := waiting, start;
    while bits >= 5
      invariant bits < 13
      invariant 5 * data5bitLength + bits == 5 * start + waiting && data5bitLength <= data5bit.Length
      invariant AreSymbols(data5bit[..data5bitLength])
      invariant BitsOfSymbols(data5bit[..data5bitLength]) + LowBits(val, bits) == target
    {
      bits := bits - 5;
      ghost var before := data5bit[..data5bitLength];
      SymbolEmitted(before, val, bits, target);
      data5bit[data5bitLength] := Low5(ShiftRight(val, bits));
      data5bitLength := data5bitLength + 1;
      assert data5bit[..data5bitLength] == before + [Low5(ShiftRight(val, bits))];
    }
  }

  /** The conversion loop of bech32_encode. The accumulator is a 32-bit word that loses its high bits;
      the bits still to be emitted are always its low ones. */
  method ConvertBits(bytes: seq<bv8>) returns (ok: bool, data5bit: array<bv8>, data5bitLength: nat)
    ensures ok <==> |bytes| <= MAX_BYTES
    ensures ok ==> data5bitLength <= data5bit.Length && Regroups(bytes, data5bit[..data5bitLength])
    ensures fresh(data5bit)
  {
    hide LowBits, Widen, Low5, BitsOfSymbols, BitsOfBytes;
    data5bit := new bv8[(8 * MAX_BYTES + 4) / 5](_ => 0);
    data5bitLength, ok := 0, |bytes| <= MAX_BYTES;
    if !ok { return; }
    var val: bv32 := 0;
    var bits := 0;
    NoBits();
    for i := 0 to |bytes|
      invariant 0 <= bits < 5 && 8 * i == 5 * data5bitLength + bits && data5bitLength <= data5bit.Length
      invariant AreSymbols(data5bit[..data5bitLength])
      invariant BitsOfSymbols(data5bit[..data5bitLength]) + LowBits(val, bits) == BitsOfBytes(bytes[..i])
    {
      ByteTaken(data5bit[..data5bitLength], val, bits, bytes, i);
      val := (val << 8) | Widen(bytes[i]);
      bits, data5bitLength := EmitSymbols(val, bits + 8, data5bit, data5bitLength, BitsOfBytes(bytes[..i + 1]));
    }
    assert bytes[..|bytes|] == bytes;
    if bits > 0 {
      ghost var before := data5bit[..data5bitLength];
      SymbolPadded(before, val, bits, BitsOfBytes(bytes));
      data5bit[data5bitLength] := Low5(val << (5 - bits));
      data5bitLength := data5bitLength + 1;
      assert data5bit[..data5bitLength] == before + [Low5(val << (5 - bits))];
    } else {
      NothingLeft(data5bit[..data5bitLength], val, bytes);
    }
  }

  lemma NoBits()
    ensures BitsOfSymbols([]) + LowBits(0, 0) == BitsOfBytes([])
  {
  }

  lemma NothingLeft(vs: seq<bv8>, val: bv32, bytes: seq<bv8>)
    requires BitsOfSymbols(vs) + LowBits(val, 0) == BitsOfBytes(bytes)
    ensures BitsOfSymbols(vs) == BitsOfBytes(bytes) + seq(0, _ => false)
  {
    assert LowBits(val, 0) == [];
  }

  // ------------------------------------------------------------ characters

  /** The alphabet "qpzry9x8gf2tvdw0s3jn54khce6mua7l" as ASCII codes. */
  const CHARSET: seq<bv8> :=
    [0x71, 0x70, 0x7a, 0x72, 0x79, 0x39, 0x78, 0x38, 0x67, 0x66, 0x32, 0x74, 0x76, 0x64, 0x77, 0x30,
      0x73, 0x33, 0x6a, 0x6e, 0x35, 0x34, 0x6b, 0x68, 0x63, 0x65, 0x36, 0x6d, 0x75, 0x61, 0x37, 0x6c]

  function CharOf(s: bv8): bv8
    requires s < 32
  {
    CHARSET[s as int]
  }

  function CharsOf(vs: seq<bv8>): (s: seq<bv8>)
    requires AreSymbols(vs)
    ensures |s| == |vs|
  {
    seq(|vs|, i requires 0 <= i < |vs| => CharOf(vs[i]))
  }

  /** The symbol a character stands for. */
  ghost predicate Denotes(c: bv8, s: bv8) {
    s < 32 && c == CharOf(s)
  }

  lemma CharsetDistinct(s: bv8, t: bv8)
    requires s < 32 && t < 32 && CharOf(s) == CharOf(t)
    ensures s == t
  {
  }

  lemma CharNotSeparator(s: bv8)
    requires s < 32
    ensures CharOf(s) != SEPARATOR && CharOf(s) != 0
  {
  }

  /** The characters of the symbols in order are "qpzry9x8gf2tvdw0s3jn54khce6mua7l". */
  lemma CharOfSymbol(s: bv8)
    requires s < 32
    ensures CharOf(s) == [0x71, 0x70, 0x7a, 0x72, 0x79, 0x39, 0x78, 0x38,
                          0x67, 0x66, 0x32, 0x74, 0x76, 0x64, 0x77, 0x30,
                          0x73, 0x33, 0x6a, 0x6e, 0x35, 0x34, 0x6b, 0x68,
                          0x63, 0x65, 0x36, 0x6d, 0x75, 0x61, 0x37, 0x6c][s as int]
  {
  }

  // ------------------------------------------------------------ writing

  predicate IsHrp(hrp: seq<bv8>) {
    forall i :: 0 <= i < |hrp| ==> hrp[i] != 0 && !(0x41 <= hrp[i] <= 0x5a) && HighPart(hrp[i]) != 0
  }

  /** The string for symbols that do not contain their checksum yet. */
  function Written(hrp: seq<bv8>, data: seq<bv8>): (s: seq<bv8>)
    requires AreSymbols(data)
    ensures |s| == |hrp| + 1 + |data| + CHECKSUM_LEN
  {
    hrp + [SEPARATOR] + CharsOf(data + Checksum(hrp, data))
  }

  /** The first loop of bech32_encode_5bit: the high parts of the prefix. */
  method FeedHigh(hrp: seq<bv8>) returns (ok: bool, chk: bv32)
    requires forall i :: 0 <= i < |hrp| ==> hrp[i] != 0
    ensures ok <==> IsHrp(hrp)
    ensures ok ==> chk == Polymod(1, HighParts(hrp))
  {
    hide PolymodStep, Polymod, Plus, Widen, HighPart;
    ghost var high := HighParts(hrp);
    PolymodNone(1, high[..0]);
    chk := 1;
    for i := 0 to |hrp|
      invariant IsHrp(hrp[..i]) && chk == Polymod(1, high[..i])
    {
      if 0x41 <= hrp[i] <= 0x5a || HighPart(hrp[i]) == 0 { return false, chk; }
      PolymodSnoc(1, high[..i], high[i]);
      assert high[..i + 1] == high[..i] + [high[i]];
      chk := Plus(PolymodStep(chk), Widen(HighPart(hrp[i])));
    }
    assert high[..|hrp|] == high && hrp[..|hrp|] == hrp;
    ok := true;
  }

  /** The part of bech32_encode_5bit that feeds the prefix to the register and copies it. */
  method FeedPrefix(hrp: seq<bv8>, output: array<bv8>) returns (ok: bool, chk: bv32)
    requires forall i :: 0 <= i < |hrp| ==> hrp[i] != 0
    requires |hrp| < output.Length
    modifies output
    ensures ok <==> IsHrp(hrp)
    ensures ok ==> chk == Polymod(1, Expand(hrp)) && output[..|hrp|] == hrp
  {
    hide PolymodStep, Polymod, Plus, Widen, LowPart, IsHrp;
    ok, chk := FeedHigh(hrp);
    if !ok { return; }
    ghost var lead, low := HighParts(hrp) + [0], LowParts(hrp);
    PolymodSnoc(1, HighParts(hrp), 0);
    PlusZero(PolymodStep(chk));
    chk := PolymodStep(chk);
    assert lead + low[..0] == lead;
    for i := 0 to |hrp|
      invariant chk == Polymod(1, lead + low[..i])
      invariant output[..i] == hrp[..i]
    {
      PolymodSnoc(1, lead + low[..i], low[i]);
      assert lead + low[..i + 1] == (lead + low[..i]) + [low[i]];
      chk := Plus(PolymodStep(chk), Widen(LowPart(hrp[i])));
      output[i] := hrp[i];
    }
    assert low[..|hrp|] == low;
  }

  /** The part that feeds the data to the register and writes their characters. */
  method FeedData(before: bv32, data: seq<bv8>, output: array<bv8>, at: nat) returns (ok: bool, chk: bv32)
    requires at + |data| <= output.Length
    modifies output
    ensures ok <==> AreSymbols(data)
    ensures ok ==> chk == Polymod(before, data)
    ensures ok ==> output[..at + |data|] == old(output[..at]) + CharsOf(data)
  {
    hide PolymodStep, Polymod, Plus, Widen, CharOf;
    PolymodNone(before, data[..0]);
    chk := before;
    for i := 0 to |data|
      invariant AreSymbols(data[..i])
      invariant chk == Polymod(before, data[..i])
      invariant output[..at + i] == old(output[..at]) + CharsOf(data[..i])
    {
      NotSymbol(data[i]);
      if data[i] >> 5 != 0 { return false, chk; }
      assert data[..i + 1] == data[..i] + [data[i]];
      PolymodSnoc(before, data[..i], data[i]);
      CharsSnoc(data[..i], data[i]);
      chk := Plus(PolymodStep(chk), Widen(data[i]));
      output[at + i] := CharOf(data[i]);
    }
    assert data[..|data|] == data;
    ok := true;
  }

  /** bech32_encode_5bit, for an output buffer of output.Length bytes. */
  method Encode5Bit(hrp: seq<bv8>, data: seq<bv8>, output: array<bv8>) returns (ok: bool)
    requires forall i :: 0 <= i < |hrp| ==> hrp[i] != 0
    modifies output
    ensures ok <==> |hrp| + |data| + 8 <= output.Length < BUFFER_SIZE_PARANOIA && IsHrp(hrp) && AreSymbols(data)
    ensures ok ==> var n := |hrp| + 1 + |data| + CHECKSUM_LEN;
                   output[..n] == Written(hrp, data) && output[n] == 0
  {
    hide PolymodStep, Polymod, Plus, Widen, CharOf, CharsOf, SymbolsOf, Expand;
    if !(output.Length < BUFFER_SIZE_PARANOIA && output.Length >= |hrp| + |data| + 8) { return false; }
    var chk;
    ok, chk := FeedPrefix(hrp, output);
    if !ok { return; }
    output[|hrp|] := SEPARATOR;
    ghost var lead := hrp + [SEPARATOR];
    assert output[..|hrp| + 1] == lead;
    ok, chk := FeedData(chk, data, output, |hrp| + 1);
    if !ok { return; }
    PolymodAppend(1, Expand(hrp), data);
    chk := FeedZeros(Expand(hrp) + data, chk);
    chk := Plus(chk, 1);
    WriteChecksum(chk, output, |hrp| + 1 + |data|);
    CharsAppend(data, Checksum(hrp, data));
    Glue(Written(hrp, data), lead, CharsOf(data), CharsOf(Checksum(hrp, data)));
    output[|hrp| + 1 + |data| + CHECKSUM_LEN] := 0;
  }

  method FeedZeros(ghost fed: seq<bv8>, before: bv32) returns (chk: bv32)
    requires before == Polymod(1, fed)
    ensures chk == Polymod(1, fed + Zeros(CHECKSUM_LEN))
  {
    hide PolymodStep, Polymod, Plus, Widen;
    chk := before;
    assert fed + Zeros(0) == fed;
    for k := 0 to CHECKSUM_LEN
      invariant chk == Polymod(1, fed + Zeros(k))
    {
      PolymodSnoc(1, fed + Zeros(k), 0);
      assert fed + Zeros(k + 1) == (fed + Zeros(k)) + [0];
      PlusZero(PolymodStep(chk));
      chk := PolymodStep(chk);
    }
  }

  /** The six checksum characters, taken from the top of the register down. */
  method WriteChecksum(chk: bv32, output: array<bv8>, at: nat)
    requires at + CHECKSUM_LEN < output.Length
    modifies output
    ensures output[..at + CHECKSUM_LEN] == old(output[..at]) + CharsOf(SymbolsOf(chk, CHECKSUM_LEN))
  {
    hide CharOf, SymbolsOf, ShiftRight, Low5;
    ghost var s := SymbolsOf(chk, CHECKSUM_LEN);
    for i := 0 to CHECKSUM_LEN
      invariant output[..at + i] == old(output[..at]) + CharsOf(s[..i])
    {
      ShiftNone(chk);
      SymbolShifted(chk, CHECKSUM_LEN, i);
      CharsSnoc(s[..i], s[i]);
      assert s[..i + 1] == s[..i] + [s[i]];
      output[at + i] := CharOf(Low5(ShiftRight(chk, (5 - i) * 5)));
    }
    assert s[..CHECKSUM_LEN] == s;
  }

  lemma DropShifted0(v: bv32)
    ensures Drop5(ShiftRight(v, 0)) == ShiftRight(v, 5)
  {
  }

  lemma DropShifted5(v: bv32)
    ensures Drop5(ShiftRight(v, 5)) == ShiftRight(v, 10)
  {
    assert ShiftRight(v, 5) == v >> 5;
    assert ShiftRight(v, 10) == v >> 10;
  }

  lemma DropShifted10(v: bv32)
    ensures Drop5(ShiftRight(v, 10)) == ShiftRight(v, 15)
  {
    assert ShiftRight(v, 10) == v >> 10;
    assert ShiftRight(v, 15) == v >> 15;
  }

  lemma DropShifted15(v: bv32)
    ensures Drop5(ShiftRight(v, 15)) == ShiftRight(v, 20)
  {
    assert ShiftRight(v, 15) == v >> 15;
    assert ShiftRight(v, 20) == v >> 20;
  }

  lemma DropShifted20(v: bv32)
    ensures Drop5(ShiftRight(v, 20)) == ShiftRight(v, 25)
  {
    assert ShiftRight(v, 20) == v >> 20;
    assert ShiftRight(v, 25) == v >> 25;
  }

  lemma DropShifted(v: bv32, k: nat)
    requires k < 5
    ensures Drop5(ShiftRight(v, 5 * k)) == ShiftRight(v, 5 * k + 5)
  {
    hide Drop5, ShiftRight;
    DropShifted0(v);
    DropShifted5(v);
    DropShifted10(v);
    DropShifted15(v);
    DropShifted20(v);
    assert 5 * k in {0, 5, 10, 15, 20};
  }

  lemma ShiftNone(v: bv32)
    ensures ShiftRight(v, 0) == v
  {
  }

  lemma {:induction false} SymbolShifted(chk: bv32, n: nat, i: nat)
    requires i < n && n <= CHECKSUM_LEN
    ensures SymbolsOf(ShiftRight(chk, 5 * (CHECKSUM_LEN - n)), n)[i] == Low5(ShiftRight(chk, (5 - i) * 5))
    decreases n
  {
    hide Low5, Drop5, ShiftRight;
    if i < n - 1 {
      DropShifted(chk, CHECKSUM_LEN - n);
      SymbolShifted(chk, n - 1, i);
    }
  }

  lemma NotSymbol(s: bv8)
    ensures s >> 5 != 0 <==> s >= 32
  {
  }

  lemma CharsSnoc(vs: seq<bv8>, s: bv8)
    requires AreSymbols(vs) && s < 32
    ensures CharsOf(vs + [s]) == CharsOf(vs) + [CharOf(s)]
  {
  }

  lemma CharsAppend(vs: seq<bv8>, ws: seq<bv8>)
    requires AreSymbols(vs) && AreSymbols(ws)
    ensures CharsOf(vs + ws) == CharsOf(vs) + CharsOf(ws)
  {
    hide CharOf;
  }

  /** bech32_encode: what is written reads back as the prefix and the bytes. */
  method Encode(hrp: seq<bv8>, bytes: seq<bv8>, output: array<bv8>) returns (ok: bool, length: nat)
    requires forall i :: 0 <= i < |hrp| ==> hrp[i] != 0
    modifies output
    ensures ok <==> |bytes| <= 65 && |hrp| >= 1
                    && (forall i :: 0 <= i < |hrp| ==> hrp[i] >= 0x20 && !(0x41 <= hrp[i] <= 0x5a))
                    && |hrp| + (8 * |bytes| + 4) / 5 + 8 <= output.Length < 1024
    ensures ok ==> length == |hrp| + 7 + (8 * |bytes| + 4) / 5 && length < output.Length
    ensures ok ==> ReadString(output[..length]) == Some((hrp, bytes)) && output[length] == 0
    ensures ok ==> 0 !in output[..length]
    ensures ok && hrp == [0x61] && bytes == [] ==>
      output[..length] == [0x61, 0x31, 0x32, 0x75, 0x65, 0x6c, 0x35, 0x6c]
  {
    hide ReadString, Written, Regroups, IsHrp;
    HrpInNumbers(hrp);
    ok, length := false, 0;
    if |bytes| > MAX_BYTES || |hrp| < 1 { return; }
    length := |hrp| + 1 + (8 * |bytes| + 4) / 5 + CHECKSUM_LEN;
    if !(output.Length >= length + 1 && output.Length < BUFFER_SIZE_PARANOIA) { return; }
    var converted, data5bit, data5bitLength := ConvertBits(bytes);
    ghost var data := data5bit[..data5bitLength];
    RegroupedSymbols(bytes, data);
    ok := Encode5Bit(hrp, data5bit[..data5bitLength], output);
    if ok {
      ReadOfWritten(hrp, bytes, data);
      NoTerminator(hrp, data);
      if hrp == [0x61] && bytes == [] {
        ShortestString();
        ReadInjective(output[..length], [0x61, 0x31, 0x32, 0x75, 0x65, 0x6c, 0x35, 0x6c]);
      }
    }
  }

  lemma HrpInNumbers(hrp: seq<bv8>)
    ensures IsHrp(hrp) <==> forall i :: 0 <= i < |hrp| ==> hrp[i] >= 0x20 && !(0x41 <= hrp[i] <= 0x5a)
  {
    forall i | 0 <= i < |hrp| ensures HighPart(hrp[i]) != 0 <==> hrp[i] >= 0x20 { NotSymbol(hrp[i]); }
  }

  lemma RegroupedSymbols(bytes: seq<bv8>, data: seq<bv8>)
    requires Regroups(bytes, data)
    ensures AreSymbols(data) && |data| == (8 * |bytes| + 4) / 5
  {
  }

  lemma NoTerminator(hrp: seq<bv8>, data: seq<bv8>)
    requires IsHrp(hrp) && AreSymbols(data)
    ensures 0 !in Written(hrp, data)
  {
    var vs := data + Checksum(hrp, data);
    forall i | 0 <= i < |vs| ensures CharOf(vs[i]) != 0 { CharNotSeparator(vs[i]); }
    hide CharOf;
    assert 0 !in CharsOf(vs);
  }

  // ------------------------------------------------------------ reading

  ghost function SymbolOf(c: bv8): Option<bv8> {
    if exists s: bv8 :: Denotes(c, s) then
      var s: bv8 :| Denotes(c, s);
      Some(s)
    else None
  }

  ghost function SymbolsRead(cs: seq<bv8>): (r: Option<seq<bv8>>)
    ensures r.Some? ==> |r.value| == |cs| && AreSymbols(r.value)
  {
    if cs == [] then Some([])
    else
      match (SymbolsRead(cs[..|cs| - 1]), SymbolOf(cs[|cs| - 1]))
      case (Some(vs), Some(s)) => Some(vs + [s])
      case _ => None
  }

  /** The position of the last separator, -1 if there is none. */
  function LastSeparator(s: seq<bv8>): (p: int)
    ensures -1 <= p < |s|
  {
    if s == [] then -1
    else if s[|s| - 1] == SEPARATOR then |s| - 1
    else LastSeparator(s[..|s| - 1])
  }

  function Flag(b: bool, v: bv8): bv8 {
    if b then v else 0
  }

  function ByteOfFlags(b7: bool, b6: bool, b5: bool, b4: bool, b3: bool, b2: bool, b1: bool, b0: bool): bv8 {
    Flag(b7, 0x80) | Flag(b6, 0x40) | Flag(b5, 0x20) | Flag(b4, 0x10)
    | Flag(b3, 0x08) | Flag(b2, 0x04) | Flag(b1, 0x02) | Flag(b0, 0x01)
  }

  function ByteOf(b: seq<bool>): bv8
    requires |b| == 8
  {
    ByteOfFlags(b[0], b[1], b[2], b[3], b[4], b[5], b[6], b[7])
  }

  function BytesOf(bits: seq<bool>, n: nat): (s: seq<bv8>)
    requires 8 * n <= |bits|
    ensures |s| == n
  {
    if n == 0 then [] else BytesOf(bits, n - 1) + [ByteOf(bits[8 * n - 8..8 * n])]
  }

  /** The bytes that symbols stand for; fewer than five zero bits may be left over. */
  function BytesOfSymbols(vs: seq<bv8>): Option<seq<bv8>> {
    var bits := BitsOfSymbols(vs);
    var n := |bits| / 8;
    if |bits| - 8 * n < 5 && forall i :: 8 * n <= i < |bits| ==> !bits[i]
    then Some(BytesOf(bits, n))
    else None
  }

  /** The reader of BIP 173: splits at the last separator, maps the characters back, verifies the checksum
      and regroups the rest into bytes. */
  ghost function ReadString(s: seq<bv8>): Option<(seq<bv8>, seq<bv8>)> {
    var p := LastSeparator(s);
    if p < 0 || |s| - p - 1 < CHECKSUM_LEN then None
    else
      match SymbolsRead(s[p + 1..])
      case None => None
      case Some(vs) =>
        if !Verifies(s[..p], vs) then None
        else
          match BytesOfSymbols(vs[..|vs| - CHECKSUM_LEN])
          case None => None
          case Some(bytes) => Some((s[..p], bytes))
  }

  lemma SymbolOfChar(s: bv8)
    requires s < 32
    ensures SymbolOf(CharOf(s)) == Some(s)
  {
    hide CharOf;
    assert Denotes(CharOf(s), s);
    var t := SymbolOf(CharOf(s)).value;
    CharsetDistinct(s, t);
  }

  lemma {:induction false} SymbolsReadOfChars(vs: seq<bv8>)
    requires AreSymbols(vs)
    ensures SymbolsRead(CharsOf(vs)) == Some(vs)
  {
    hide CharOf, SymbolOf;
    if vs != [] {
      var n := |vs| - 1;
      assert CharsOf(vs)[..n] == CharsOf(vs[..n]);
      SymbolsReadOfChars(vs[..n]);
      SymbolOfChar(vs[n]);
      assert vs == vs[..n] + [vs[n]];
    }
  }

  lemma {:induction false} LastSeparatorOf(hrp: seq<bv8>, vs: seq<bv8>)
    requires AreSymbols(vs)
    ensures LastSeparator(hrp + [SEPARATOR] + CharsOf(vs)) == |hrp|
    decreases |vs|
  {
    hide CharOf;
    var s := hrp + [SEPARATOR] + CharsOf(vs);
    if vs != [] {
      var n := |vs| - 1;
      CharNotSeparator(vs[n]);
      assert s[|s| - 1] == CharOf(vs[n]);
      assert s[..|s| - 1] == hrp + [SEPARATOR] + CharsOf(vs[..n]);
      LastSeparatorOf(hrp, vs[..n]);
    }
  }

  lemma ByteOfLowBits(b: bv8)
    ensures ByteOf(LowBits(Widen(b), 8)) == b
  {
    hide ByteOfFlags, BitAt, Widen;
    ByteOfBits(b);
  }

  lemma ByteOfBits(b: bv8)
    ensures var v := Widen(b);
      ByteOfFlags(BitAt(v, 7), BitAt(v, 6), BitAt(v, 5), BitAt(v, 4),
                  BitAt(v, 3), BitAt(v, 2), BitAt(v, 1), BitAt(v, 0)) == b
  {
  }

  lemma {:induction false} BytesOfBits(bytes: seq<bv8>, pad: seq<bool>)
    ensures BytesOf(BitsOfBytes(bytes) + pad, |bytes|) == bytes
    decreases |bytes|
  {
    hide LowBits, Widen, ByteOf, BitsOfBytes;
    if bytes != [] {
      var n := |bytes| - 1;
      var last := LowBits(Widen(bytes[n]), 8);
      var bits := BitsOfBytes(bytes) + pad;
      assert bytes == bytes[..n] + [bytes[n]];
      BitsOfByteSnoc(bytes[..n], bytes[n]);
      assert bits == BitsOfBytes(bytes[..n]) + (last + pad);
      BytesOfBits(bytes[..n], last + pad);
      assert bits[8 * n..8 * n + 8] == last;
      ByteOfLowBits(bytes[n]);
    }
  }

  lemma RegroupedBits(bytes: seq<bv8>, data: seq<bv8>)
    requires Regroups(bytes, data)
    ensures 0 <= 5 * |data| - 8 * |bytes| < 5
    ensures BitsOfSymbols(data) == BitsOfBytes(bytes) + seq(5 * |data| - 8 * |bytes|, _ => false)
  {
    hide BitsOfSymbols, BitsOfBytes;
  }

  lemma RegroupedBytes(bytes: seq<bv8>, data: seq<bv8>)
    requires Regroups(bytes, data)
    ensures BytesOfSymbols(data) == Some(bytes)
  {
    hide BitsOfSymbols, BitsOfBytes, BytesOf, Regroups;
    RegroupedBits(bytes, data);
    BytesOfBits(bytes, seq(5 * |data| - 8 * |bytes|, _ => false));
  }

  lemma ReadOfWritten(hrp: seq<bv8>, bytes: seq<bv8>, data: seq<bv8>)
    requires Regroups(bytes, data)
    ensures AreSymbols(data) && ReadString(Written(hrp, data)) == Some((hrp, bytes))
  {
    hide Regroups, Verifies, BytesOfSymbols, CharsOf, LastSeparator, SymbolsRead, Checksum;
    RegroupedSymbols(bytes, data);
    var e := Checksum(hrp, data);
    var s := Written(hrp, data);
    LastSeparatorOf(hrp, data + e);
    SymbolsReadOfChars(data + e);
    assert s[..|hrp|] == hrp && s[|hrp| + 1..] == CharsOf(data + e);
    ChecksumVerifies(hrp, data, e);
    assert (data + e)[..|data + e| - CHECKSUM_LEN] == data;
    RegroupedBytes(bytes, data);
  }

  // ------------------------------------------------------------ one string for each input

  lemma LowBitsOfByte(b: seq<bool>)
    requires |b| == 8
    ensures LowBits(Widen(ByteOf(b)), 8) == b
  {
    hide ByteOfFlags, BitAt, Widen;
    FlagBitsHigh(b[0], b[1], b[2], b[3], b[4], b[5], b[6], b[7]);
    FlagBitsLow(b[0], b[1], b[2], b[3], b[4], b[5], b[6], b[7]);
  }

  lemma FlagBitsHigh(b7: bool, b6: bool, b5: bool, b4: bool, b3: bool, b2: bool, b1: bool, b0: bool)
    ensures var v := Widen(ByteOfFlags(b7, b6, b5, b4, b3, b2, b1, b0));
            BitAt(v, 7) == b7 && BitAt(v, 6) == b6 && BitAt(v, 5) == b5 && BitAt(v, 4) == b4
  {
  }

  lemma FlagBitsLow(b7: bool, b6: bool, b5: bool, b4: bool, b3: bool, b2: bool, b1: bool, b0: bool)
    ensures var v := Widen(ByteOfFlags(b7, b6, b5, b4, b3, b2, b1, b0));
            BitAt(v, 3) == b3 && BitAt(v, 2) == b2 && BitAt(v, 1) == b1 && BitAt(v, 0) == b0
  {
  }

  lemma {:induction false} BitsOfRead(bits: seq<bool>, n: nat)
    requires 8 * n <= |bits|
    ensures BitsOfBytes(BytesOf(bits, n)) == bits[..8 * n]
  {
    hide LowBits, Widen, ByteOf, BitsOfBytes;
    if n == 0 {
      NoBytes();
    } else {
      var last := bits[8 * n - 8..8 * n];
      BitsOfRead(bits, n - 1);
      BitsOfByteSnoc(BytesOf(bits, n - 1), ByteOf(last));
      LowBitsOfByte(last);
      assert bits[..8 * n] == bits[..8 * n - 8] + last;
    }
  }

  lemma NoBytes()
    ensures BitsOfBytes([]) == []
  {
  }

  /** Symbols that read as bytes are the regrouping of those bytes. */
  lemma ReadRegroups(vs: seq<bv8>, bytes: seq<bv8>)
    requires AreSymbols(vs) && BytesOfSymbols(vs) == Some(bytes)
    ensures Regroups(bytes, vs)
  {
    hide BitsOfBytes, BytesOf;
    var bits := BitsOfSymbols(vs);
    BitsOfRead(bits, |bits| / 8);
    assert bits == bits[..8 * |bytes|] + seq(5 * |vs| - 8 * |bytes|, _ => false);
  }

  lemma SymbolOfLowBits(s: bv8, t: bv8)
    requires s < 32 && t < 32 && LowBits(Widen(s), 5) == LowBits(Widen(t), 5)
    ensures s == t
  {
    var x, y := LowBits(Widen(s), 5), LowBits(Widen(t), 5);
    assert x[0] == y[0] && x[1] == y[1] && x[2] == y[2] && x[3] == y[3] && x[4] == y[4];
    SameBits(s, t);
  }

  lemma SameBits(s: bv8, t: bv8)
    requires s < 32 && t < 32
    requires BitAt(Widen(s), 0) == BitAt(Widen(t), 0) && BitAt(Widen(s), 1) == BitAt(Widen(t), 1)
    requires BitAt(Widen(s), 2) == BitAt(Widen(t), 2) && BitAt(Widen(s), 3) == BitAt(Widen(t), 3)
    requires BitAt(Widen(s), 4) == BitAt(Widen(t), 4)
    ensures s == t
  {
  }

  lemma {:induction false} BitsOfSymbolsInjective(vs: seq<bv8>, ws: seq<bv8>)
    requires AreSymbols(vs) && AreSymbols(ws) && BitsOfSymbols(vs) == BitsOfSymbols(ws)
    ensures vs == ws
  {
    hide LowBits, Widen;
    if vs != [] {
      var n := |vs| - 1;
      assert |BitsOfSymbols(vs)| == |BitsOfSymbols(ws)|;
      var x, y := BitsOfSymbols(vs), BitsOfSymbols(ws);
      assert x[..5 * n] == BitsOfSymbols(vs[..n]) && y[..5 * n] == BitsOfSymbols(ws[..n]);
      assert x[5 * n..] == LowBits(Widen(vs[n]), 5) && y[5 * n..] == LowBits(Widen(ws[n]), 5);
      BitsOfSymbolsInjective(vs[..n], ws[..n]);
      SymbolOfLowBits(vs[n], ws[n]);
      assert vs == vs[..n] + [vs[n]] && ws == ws[..n] + [ws[n]];
    }
  }

  lemma {:induction false} CharsOfSymbolsRead(cs: seq<bv8>)
    requires SymbolsRead(cs).Some?
    ensures CharsOf(SymbolsRead(cs).value) == cs
  {
    hide CharOf;
    if cs != [] {
      var n := |cs| - 1;
      CharsOfSymbolsRead(cs[..n]);
      var vs, s := SymbolsRead(cs[..n]).value, SymbolOf(cs[n]).value;
      CharsSnoc(vs, s);
      assert cs == cs[..n] + [cs[n]];
    }
  }

  lemma {:induction false} AtLastSeparator(s: seq<bv8>)
    requires LastSeparator(s) >= 0
    ensures s[LastSeparator(s)] == SEPARATOR
  {
    if s[|s| - 1] != SEPARATOR {
      AtLastSeparator(s[..|s| - 1]);
    }
  }

  /** A string that can be read is the one written for what was read. */
  lemma WrittenOfRead(s: seq<bv8>, hrp: seq<bv8>, bytes: seq<bv8>) returns (data: seq<bv8>)
    requires ReadString(s) == Some((hrp, bytes))
    ensures Regroups(bytes, data) && AreSymbols(data) && s == Written(hrp, data)
  {
    hide Regroups, Verifies, BytesOfSymbols, CharsOf, LastSeparator, SymbolsRead, Checksum;
    var p := LastSeparator(s);
    var vs := SymbolsRead(s[p + 1..]).value;
    var n := |vs| - CHECKSUM_LEN;
    data := vs[..n];
    AtLastSeparator(s);
    CharsOfSymbolsRead(s[p + 1..]);
    assert vs == data + vs[n..];
    ChecksumVerifies(hrp, data, vs[n..]);
    ReadRegroups(data, bytes);
    assert s == s[..p] + [s[p]] + s[p + 1..];
  }

  /** There is one string for each prefix and bytes: bech32_encode could not write another one that
      reads back as its input. */
  lemma ReadInjective(s: seq<bv8>, t: seq<bv8>)
    requires ReadString(s).Some? && ReadString(s) == ReadString(t)
    ensures s == t
  {
    hide ReadString, Written, Regroups;
    var (hrp, bytes) := ReadString(s).value;
    var v := WrittenOfRead(s, hrp, bytes);
    var w := WrittenOfRead(t, hrp, bytes);
    RegroupsUnique(bytes, v, w);
  }

  lemma RegroupsUnique(bytes: seq<bv8>, v: seq<bv8>, w: seq<bv8>)
    requires Regroups(bytes, v) && Regroups(bytes, w)
    ensures v == w
  {
    hide BitsOfSymbols, BitsOfBytes;
    BitsOfSymbolsInjective(v, w);
  }

  /** The string "a12uel5l" of BIP 173 is the one for the prefix "a" and no bytes. */
  lemma ShortestString()
    ensures ReadString([0x61, 0x31, 0x32, 0x75, 0x65, 0x6c, 0x35, 0x6c]) == Some(([0x61], []))
  {
    hide PolymodStep, Polymod, Plus, Widen, CharsOf, LastSeparator, SymbolsRead, BitsOfSymbols;
    var s: seq<bv8> := [0x61, 0x31, 0x32, 0x75, 0x65, 0x6c, 0x35, 0x6c];
    var vs: seq<bv8> := [10, 28, 25, 31, 20, 31];
    ShortestChars();
    assert s == [0x61] + [SEPARATOR] + CharsOf(vs);
    SplitString([0x61], vs);
    ShortestRegister();
    PartsOf(0x61);
    assert vs[..0] == [];
  }

  lemma ShortestChars()
    ensures CharsOf([10, 28, 25, 31, 20, 31]) == [0x32, 0x75, 0x65, 0x6c, 0x35, 0x6c]
  {
  }

  lemma ShortestRegister()
    ensures Verifies([0x61], [10, 28, 25, 31, 20, 31])
  {
    hide PolymodStep, Polymod, Plus, Widen, Expand;
    ShortestSteps();
    PolymodNone(1, []);
    Fed([], 1, 3, 0x23, [3]);
    Fed([3], 0x23, 0, 0x460, [3, 0]);
    Fed([3, 0], 0x460, 1, 0x8c01, [3, 0, 1]);
    Fed([3, 0, 1], 0x8c01, 10, 0x11802a, [3, 0, 1, 10]);
    Fed([3, 0, 1, 10], 0x11802a, 28, 0x230055c, [3, 0, 1, 10, 28]);
    Fed([3, 0, 1, 10, 28], 0x230055c, 25, 0x3d6afc2b, [3, 0, 1, 10, 28, 25]);
    Fed([3, 0, 1, 10, 28, 25], 0x3d6afc2b, 31, 0x2f84386, [3, 0, 1, 10, 28, 25, 31]);
    Fed([3, 0, 1, 10, 28, 25, 31], 0x2f84386, 20, 0x24622766, [3, 0, 1, 10, 28, 25, 31, 20]);
    Fed([3, 0, 1, 10, 28, 25, 31, 20], 0x24622766, 31, 1, [3, 0, 1, 10, 28, 25, 31, 20, 31]);
    ShortestPrefix();
    var v: seq<bv8> := [10, 28, 25, 31, 20, 31];
    assert Expand([0x61]) + v == [3, 0, 1, 10, 28, 25, 31, 20, 31];
    assert Polymod(1, [3, 0, 1, 10, 28, 25, 31, 20, 31]) == 1;
  }

  lemma ShortestPrefix()
    ensures Expand([0x61]) == [3, 0, 1]
  {
    assert HighPart(0x61) == 3 && LowPart(0x61) == 1;
  }

  lemma ShortestSteps()
    ensures Plus(PolymodStep(1), Widen(3)) == 0x23 && Plus(PolymodStep(0x23), Widen(0)) == 0x460
    ensures Plus(PolymodStep(0x460), Widen(1)) == 0x8c01 && Plus(PolymodStep(0x8c01), Widen(10)) == 0x11802a
    ensures Plus(PolymodStep(0x11802a), Widen(28)) == 0x230055c
    ensures Plus(PolymodStep(0x230055c), Widen(25)) == 0x3d6afc2b
    ensures Plus(PolymodStep(0x3d6afc2b), Widen(31)) == 0x2f84386
    ensures Plus(PolymodStep(0x2f84386), Widen(20)) == 0x24622766 && Plus(PolymodStep(0x24622766), Widen(31)) == 1
  {
  }

  lemma Fed(v: seq<bv8>, p: bv32, s: bv8, q: bv32, w: seq<bv8>)
    requires Polymod(1, v) == p && Plus(PolymodStep(p), Widen(s)) == q && w == v + [s]
    ensures Polymod(1, w) == q
  {
    hide PolymodStep, Plus, Widen;
    PolymodSnoc(1, v, s);
  }

  /** Changing symbols of a readable string within six neighbouring positions leaves a string that is refused. */
  lemma ChangedStringRefused(hrp: seq<bv8>, before: seq<bv8>, x: seq<bv8>, y: seq<bv8>, after: seq<bv8>)
    requires AreSymbols(before) && AreSymbols(x) && AreSymbols(y) && AreSymbols(after)
    requires |x| == |y| <= CHECKSUM_LEN && x != y
    requires ReadString(hrp + [SEPARATOR] + CharsOf(before + x + after)).Some?
    ensures ReadString(hrp + [SEPARATOR] + CharsOf(before + y + after)) == None
  {
    hide Verifies, BytesOfSymbols, CharsOf, LastSeparator, SymbolsRead;
    SplitString(hrp, before + x + after);
    SplitString(hrp, before + y + after);
    BurstDetected(hrp, before, x, y, after);
  }

  lemma SplitString(hrp: seq<bv8>, vs: seq<bv8>)
    requires AreSymbols(vs)
    ensures var s := hrp + [SEPARATOR] + CharsOf(vs);
            LastSeparator(s) == |hrp| && s[..|hrp|] == hrp && SymbolsRead(s[|hrp| + 1..]) == Some(vs)
  {
    hide CharsOf, LastSeparator, SymbolsRead;
    var s := hrp + [SEPARATOR] + CharsOf(vs);
    LastSeparatorOf(hrp, vs);
    SymbolsReadOfChars(vs);
    assert s[|hrp| + 1..] == CharsOf(vs);
  }
}
