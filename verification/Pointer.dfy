/** The variable-length numbers of pointer addresses (the Pointers section of CIP-19): base 128, most significant
    digit first, the high bit set on every byte but the last. */
module Pointer {
  import opened Basics
  import opened BufView

  /** The digits of v, each followed by more. */
  function Continued(v: nat): seq<byte> {
    if v == 0 then [] else Continued(v / 128) + [128 + v % 128]
  }

  function VarUInt(v: nat): seq<byte> {
    Continued(v / 128) + [v % 128]
  }

  /** Reads one number from the front. */
  function ReadVarUInt(accumulated: nat, s: seq<byte>): Option<(nat, seq<byte>)>
    decreases |s|
  {
    if s == [] then None
    else if s[0] < 128 then Some((128 * accumulated + s[0], s[1..]))
    else ReadVarUInt(128 * accumulated + (s[0] - 128), s[1..])
  }

  lemma {:induction false} ReadContinued(v: nat, rest: seq<byte>)
    ensures ReadVarUInt(0, Continued(v) + rest) == ReadVarUInt(v, rest)
    decreases v
  {
    if v == 0 {
      assert Continued(v) + rest == rest;
    } else {
      var t := [128 + v % 128] + rest;
      assert Continued(v) + rest == Continued(v / 128) + t;
      ReadContinued(v / 128, t);
      assert t[1..] == rest;
    }
  }

  /** What was written is read back, whatever follows. */
  lemma ReadOfVarUInt(v: nat, rest: seq<byte>)
    ensures ReadVarUInt(0, VarUInt(v) + rest) == Some((v, rest))
  {
    var t := [v % 128] + rest;
    assert VarUInt(v) + rest == Continued(v / 128) + t;
    ReadContinued(v / 128, t);
    assert t[1..] == rest;
  }

  /** The example of CIP-19. */
  lemma PointerExample()
    ensures VarUInt(2498243) == [0x81, 0x98, 0xbd, 0x43] && VarUInt(27) == [0x1b] && VarUInt(3) == [0x03]
  {
    assert Continued(1) == Continued(0) + [0x81];
    assert Continued(152) == Continued(1) + [0x98];
    assert Continued(19517) == Continued(152) + [0xbd];
  }

  function Pow128(n: nat): (p: nat)
    ensures p > 0
  {
    if n == 0 then 1 else 128 * Pow128(n - 1)
  }

  lemma {:induction false} ReadBound(accumulated: nat, s: seq<byte>)
    requires ReadVarUInt(accumulated, s).Some?
    ensures ReadVarUInt(accumulated, s).value.0 < (accumulated + 1) * Pow128(|s|)
    decreases |s|
  {
    hide Pow128;
    var p := Pow128(|s| - 1);
    Pow128Step(|s|);
    if s[0] < 128 {
      Scaled(accumulated, 128 * accumulated + s[0], p);
    } else {
      var next := 128 * accumulated + (s[0] - 128);
      ReadBound(next, s[1..]);
      Scaled(accumulated, next, p);
    }
  }

  lemma Pow128Step(n: nat)
    requires n > 0
    ensures Pow128(n) == 128 * Pow128(n - 1)
  {
  }

  lemma Scaled(a: nat, b: nat, p: nat)
    requires b < 128 * (a + 1) && p > 0
    ensures b < (b + 1) * p <= (a + 1) * (128 * p)
  {
    Monotone(b + 1, 128 * (a + 1), p);
    Monotone(1, p, b + 1);
    Regroup(a + 1, p);
  }

  lemma Monotone(x: nat, y: nat, p: nat)
    requires x <= y
    ensures x * p <= y * p && p * x <= p * y
  {
  }

  lemma Regroup(x: nat, p: nat)
    ensures (128 * x) * p == x * (128 * p)
  {
  }

  lemma {:induction false} ContinuedLength(v: nat, n: nat)
    requires v < Pow128(n)
    ensures |Continued(v)| <= n
  {
    if v > 0 {
      ContinuedLength(v / 128, n - 1);
    }
  }

  /** The form written is the shortest one that is read back as the number. */
  lemma VarUIntShortest(v: nat, s: seq<byte>)
    requires ReadVarUInt(0, s) == Some((v, []))
    ensures |VarUInt(v)| <= |s|
  {
    ReadBound(0, s);
    assert v < Pow128(|s|) == 128 * Pow128(|s| - 1);
    ContinuedLength(v / 128, |s| - 1);
  }

  lemma VarUIntLength(v: uint32)
    ensures 1 <= |VarUInt(v)| <= 5
  {
    assert Pow128(0) == 1;
    assert Pow128(1) == 128;
    assert Pow128(2) == 0x4000;
    assert Pow128(3) == 0x20_0000;
    assert Pow128(4) == 0x1000_0000;
    ContinuedLength(v / 128, 4);
  }

  // ------------------------------------------------------------ writing

  /** What is written for 7-bit chunks, the least significant first. */
  function Marked(chunks: seq<byte>): seq<byte>
    requires forall i :: 0 <= i < |chunks| ==> chunks[i] < 128
  {
    if chunks == [] then [] else Marked(chunks[1..]) + [128 + chunks[0]]
  }

  lemma {:induction false} MarkedSnoc(chunks: seq<byte>, c: byte)
    requires c < 128 && forall i :: 0 <= i < |chunks| ==> chunks[i] < 128
    ensures Marked(chunks + [c]) == [128 + c] + Marked(chunks)
  {
    if chunks == [] {
      assert (chunks + [c])[1..] == [];
    } else {
      MarkedSnoc(chunks[1..], c);
      assert (chunks + [c])[1..] == chunks[1..] + [c];
    }
  }

  function Written(chunks: seq<byte>): seq<byte>
    requires chunks != [] && forall i :: 0 <= i < |chunks| ==> chunks[i] < 128
  {
    Marked(chunks[1..]) + [chunks[0]]
  }

  lemma WrittenSnoc(chunks: seq<byte>, c: byte)
    requires c < 128 && forall i :: 0 <= i < |chunks| ==> chunks[i] < 128
    ensures chunks != [] ==> Written(chunks + [c]) == [128 + c] + Written(chunks)
    ensures chunks == [] ==> Written(chunks + [c]) == [c]
  {
    if chunks != [] {
      MarkedSnoc(chunks[1..], c);
      assert (chunks + [c])[1..] == chunks[1..] + [c];
      assert ([128 + c] + Marked(chunks[1..])) + [chunks[0]] == [128 + c] + (Marked(chunks[1..]) + [chunks[0]]);
    }
  }

  /** Splits a number into its 7-bit chunks, the least significant first. */
  method Chunks(value: uint32) returns (chunks: seq<byte>)
    ensures forall i :: 0 <= i < |chunks| ==> chunks[i] < 128
    ensures |chunks| <= 10 && (chunks == [] <==> value == 0)
    ensures value > 0 ==> Written(chunks) == VarUInt(value)
  {
    VarUIntLength(value);
    chunks := [];
    var bits: nat := value;
    while bits > 0
      invariant forall i :: 0 <= i < |chunks| ==> chunks[i] < 128
      invariant chunks == [] <==> bits == value
      invariant bits <= value
      invariant chunks != [] ==> Continued(bits) + Written(chunks) == VarUInt(value)
      decreases bits
    {
      var c: byte := bits % 128;
      WrittenSnoc(chunks, c);
      if chunks != [] {
        assert Continued(bits) + Written(chunks) == Continued(bits / 128) + ([128 + c] + Written(chunks));
      }
      chunks := chunks + [c];
      bits := bits / 128;
    }
    if value > 0 {
      assert Continued(bits) + Written(chunks) == Written(chunks);
      WrittenLength(chunks);
    }
  }

  lemma WrittenLength(chunks: seq<byte>)
    requires chunks != [] && forall i :: 0 <= i < |chunks| ==> chunks[i] < 128
    ensures |Written(chunks)| == |chunks|
  {
    MarkedLength(chunks[1..]);
  }

  lemma {:induction false} MarkedLength(chunks: seq<byte>)
    requires forall i :: 0 <= i < |chunks| ==> chunks[i] < 128
    ensures |Marked(chunks)| == |chunks|
  {
    if chunks != [] {
      MarkedLength(chunks[1..]);
    }
  }

  /** Writes the chunks, the most significant first. */
  method AppendChunks(view: WriteView, chunks: seq<byte>) returns (ok: bool)
    requires view.Valid() && chunks != [] && forall i :: 0 <= i < |chunks| ==> chunks[i] < 128
    modifies view`ptr, view.buffer
    ensures view.Valid() && (ok <==> |chunks| <= old(view.RemainingSize()))
    ensures ok ==> view.Contents() == old(view.Contents()) + Written(chunks)
  {
    hide Marked;
    var i := |chunks| - 1;
    ghost var start, marked := view.Contents(), Marked(chunks[1..]);
    assert chunks[1..i + 1] == chunks[1..];
    while i > 0
      invariant 0 <= i < |chunks| && view.Valid()
      invariant view.Contents() + Marked(chunks[1..i + 1]) == start + marked
      invariant view.RemainingSize() == old(view.RemainingSize()) - (|chunks| - 1 - i)
    {
      MarkedSnoc(chunks[1..i], chunks[i]);
      assert chunks[1..i + 1] == chunks[1..i] + [chunks[i]];
      Glue(start + marked, view.Contents(), [128 + chunks[i]], Marked(chunks[1..i]));
      ok := view.AppendBuffer([128 + chunks[i]]);
      if !ok { return; }
      i := i - 1;
    }
    MarkedNothing(view.Contents());
    ok := view.AppendBuffer([chunks[0]]);
    Glue(view.Contents(), start, marked, [chunks[0]]);
  }

  lemma MarkedNothing(s: seq<byte>)
    ensures s + Marked([]) == s
  {
  }

  /** view_appendVariableLengthUInt. The value is narrowed to 32 bits before it is split; a value whose low
      32 bits are zero without being zero itself would leave nothing to write, which is asserted not to happen. */
  method AppendVariableLengthUInt(view: WriteView, value: uint64) returns (ok: bool)
    requires view.Valid()
    modifies view`ptr, view.buffer
    ensures view.Valid()
    ensures ok <==> value < 0x8000_0000_0000_0000 && (value == 0 || value % TWO_32 != 0)
                    && |VarUInt(value % TWO_32)| <= old(view.RemainingSize())
    ensures ok ==> view.Contents() == old(view.Contents()) + VarUInt(value % TWO_32)
  {
    if value >= 0x8000_0000_0000_0000 { return false; }
    if value == 0 {
      ok := view.AppendBuffer([0]);
      return;
    }
    var chunks := Chunks(value % TWO_32);
    if |chunks| == 0 { return false; }
    WrittenLength(chunks);
    ok := AppendChunks(view, chunks);
  }
}
