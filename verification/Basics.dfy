/** Bytes, big-endian numbers and the few sequence facts the other modules share. */
module Basics {

  type byte = x: int | 0 <= x < 256

  const TWO_16: int := 0x1_0000
  const TWO_32: int := 0x1_0000_0000
  const TWO_64: int := 0x1_0000_0000_0000_0000

  type uint8 = x: int | 0 <= x < 256
  type uint16 = x: int | 0 <= x < TWO_16
  type uint32 = x: int | 0 <= x < TWO_32
  type uint64 = x: int | 0 <= x < TWO_64

  datatype Option<+T> = None | Some(value: T)

  /** The C cast `(uint16_t) x` of an unsigned value. */
  function Narrow16(x: nat): uint16 {
    x % TWO_16
  }

  function Pow256(n: nat): nat {
    if n == 0 then 1 else 256 * Pow256(n - 1)
  }

  /** The low `width` bytes of v, most significant first (u1be_write .. u8be_write). */
  function Be(width: nat, v: nat): (s: seq<byte>)
    ensures |s| == width
  {
    if width == 0 then [] else Be(width - 1, v / 256) + [v % 256]
  }

  /** The number a big-endian byte string stands for (u1be_read .. u8be_read). */
  function FromBe(s: seq<byte>): nat {
    if s == [] then 0 else 256 * FromBe(s[..|s| - 1]) + s[|s| - 1]
  }

  lemma {:induction false} FromBeOfBe(width: nat, v: nat)
    requires v < Pow256(width)
    ensures FromBe(Be(width, v)) == v
  {
    if width > 0 {
      FromBeOfBe(width - 1, v / 256);
      assert Be(width, v)[..width - 1] == Be(width - 1, v / 256);
    }
  }

  lemma {:induction false} BeOfFromBe(s: seq<byte>)
    ensures FromBe(s) < Pow256(|s|)
    ensures Be(|s|, FromBe(s)) == s
  {
    if s != [] {
      BeOfFromBe(s[..|s| - 1]);
      assert s == s[..|s| - 1] + [s[|s| - 1]];
    }
  }

  lemma Pow256Values()
    ensures Pow256(1) == 256
    ensures Pow256(2) == TWO_16
    ensures Pow256(4) == TWO_32
    ensures Pow256(8) == TWO_64
  {
    assert Pow256(3) == 0x100_0000;
    assert Pow256(5) == 0x100_0000_0000;
    assert Pow256(6) == 0x1_0000_0000_0000;
    assert Pow256(7) == 0x100_0000_0000_0000;
  }

  /** The concatenation of a sequence of sequences. */
  function Concat<T>(ss: seq<seq<T>>): seq<T> {
    if ss == [] then [] else ss[0] + Concat(ss[1..])
  }

  lemma Glue<T>(s: seq<T>, head: seq<T>, body: seq<T>, rest: seq<T>)
    ensures s == head + (body + rest) <==> s == (head + body) + rest
  {
    assert head + (body + rest) == (head + body) + rest;
  }

  // ------------------------------------------------------------ text

  const SPACE: byte := 32

  /** str_isUnambiguousAscii */
  predicate UnambiguousAscii(s: seq<byte>) {
    && s != [] && s[0] != SPACE && s[|s| - 1] != SPACE
    && (forall i :: 0 <= i < |s| ==> 32 <= s[i] <= 126)
    && (forall i :: 0 <= i < |s| - 1 ==> !(s[i] == SPACE && s[i + 1] == SPACE))
  }

  predicate TwoSpaces(s: seq<byte>, i: nat) {
    i + 1 < |s| && s[i] == 0x20 && s[i + 1] == 0x20
  }

  /** Printable characters, of which spaces stand alone and between others. */
  lemma TextInNumbers(s: seq<byte>)
    ensures UnambiguousAscii(s) <==>
      && |s| > 0 && s[0] != 0x20 && s[|s| - 1] != 0x20 && (forall i :: 0 <= i < |s| ==> 0x20 <= s[i] <= 0x7e)
      && forall i :: !TwoSpaces(s, i)
  {
    forall i: nat | i < |s| - 1 ensures !TwoSpaces(s, i) <==> !(s[i] == SPACE && s[i + 1] == SPACE) {
    }
  }
}
