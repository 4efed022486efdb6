/** Read and write views: a buffer with a pointer that every operation advances. */
module BufView {
  import opened Basics
  import opened Cbor

  const BUFFER_SIZE_PARANOIA := 1024

  class WriteView {
    const buffer: array<byte>
    var ptr: nat

    ghost predicate Valid()
      reads this
    {
      ptr <= buffer.Length
    }

    /** What has been written so far. */
    ghost function Contents(): seq<byte>
      requires Valid()
      reads this, buffer
    {
      buffer[..ptr]
    }

    constructor (buffer: array<byte>)
      ensures Valid() && this.buffer == buffer && Contents() == []
    {
      this.buffer, ptr := buffer, 0;
    }

    function RemainingSize(): nat
      requires Valid()
      reads this
    {
      buffer.Length - ptr
    }

    /** view_appendBuffer */
    method AppendBuffer(source: seq<byte>) returns (ok: bool)
      requires Valid()
      modifies this`ptr, buffer
      ensures Valid() && (ok <==> |source| <= old(RemainingSize()))
      ensures Contents() == if ok then old(Contents()) + source else old(Contents())
    {
      if |source| > RemainingSize() { return false; }
      var i := 0;
      while i < |source|
        invariant 0 <= i <= |source| && ptr == old(ptr) && ptr + |source| <= buffer.Length
        invariant buffer[..ptr] == old(buffer[..ptr])
        invariant buffer[ptr..ptr + i] == source[..i]
      {
        buffer[ptr + i] := source[i];
        i := i + 1;
      }
      assert buffer[..ptr + i] == buffer[..ptr] + buffer[ptr..ptr + i];
      ptr := ptr + |source|;
      return true;
    }

    /** view_appendToken */
    method AppendToken(m: Major, v: uint64) returns (ok: bool)
      requires Valid()
      modifies this`ptr, buffer
      ensures Valid() && (ok <==> |Head(m, v)| <= old(RemainingSize()))
      ensures Contents() == if ok then old(Contents()) + Head(m, v) else old(Contents())
    {
      ok := AppendBuffer(Head(m, v));
    }
  }

  class ReadView {
    const data: seq<byte>
    var ptr: nat

    ghost predicate Valid()
      reads this
    {
      ptr <= |data|
    }

    /** What is left to read. */
    function Rest(): seq<byte>
      requires Valid()
      reads this
    {
      data[ptr..]
    }

    constructor (data: seq<byte>)
      ensures Valid() && this.data == data && Rest() == data
    {
      this.data, ptr := data, 0;
    }

    /** view_skipBytes */
    method Skip(n: nat) returns (ok: bool)
      requires Valid()
      modifies this
      ensures Valid() && (ok <==> n <= |old(Rest())|)
      ensures Rest() == if ok then old(Rest())[n..] else old(Rest())
    {
      if n > |data| - ptr { return false; }
      assert data[ptr..][n..] == data[ptr + n..];
      ptr := ptr + n;
      return true;
    }

    /** view_parseToken. The markers of indefinite lengths, which no caller asks for, are refused here instead of
        there. */
    method ParseToken() returns (token: Option<HeadRead>)
      requires Valid()
      modifies this
      ensures Valid() && token == ReadToken(old(Rest()))
      ensures Rest() == if token.Some? then old(Rest())[token.value.size..] else old(Rest())
    {
      token := ReadToken(Rest());
      if token.Some? {
        var skipped := Skip(token.value.size);
        assert skipped;
      }
    }

    /** view_parseBuffer */
    method ParseBuffer(n: nat) returns (ok: bool, bytes: seq<byte>)
      requires Valid()
      modifies this
      ensures Valid() && (ok <==> n <= |old(Rest())|)
      ensures ok ==> bytes == old(Rest())[..n] && Rest() == old(Rest())[n..]
    {
      bytes := [];
      if n > |data| - ptr { return false, []; }
      bytes := Rest()[..n];
      ok := Skip(n);
    }
  }
}
