/** Byte-level readers and writers under the frame and range codecs. */
module Bytes {
  import opened Errors
  import opened Serial

  type byte = x: int | 0 <= x < 0x100
  type u16 = x: int | 0 <= x < 0x1_0000
  type u32 = x: int | 0 <= x < 0x1_0000_0000

  // ---------------------------------------------------------------------
  // Encodings.

  function U16Big(v: u16): seq<byte> {
    [v / 0x100, v % 0x100]
  }

  function U24Little(v: u24): seq<byte> {
    [v % 0x100, v / 0x100 % 0x100, v / 0x1_0000]
  }

  function U32Big(v: u32): seq<byte> {
    [v / 0x100_0000, v / 0x1_0000 % 0x100, v / 0x100 % 0x100, v % 0x100]
  }

  function Join(high: int, low: int): int {
    high * 0x100 + low
  }

  // ---------------------------------------------------------------------
  // Decodings at a cursor position.

  function GetU8(buf: seq<byte>, pos: nat): Result<byte>
    requires pos <= |buf|
  {
    if pos == |buf| then Err(ReadPacketBufferError) else Ok(buf[pos])
  }

  function GetU16(buf: seq<byte>, pos: nat): Result<u16>
    requires pos <= |buf|
  {
    if |buf| - pos < 2 then Err(ReadPacketBufferError) else Ok(Join(buf[pos], buf[pos + 1]))
  }

  function GetU24(buf: seq<byte>, pos: nat): Result<u24>
    requires pos <= |buf|
  {
    if |buf| - pos < 3 then Err(ReadPacketBufferError)
    else Ok(Join(Join(buf[pos + 2], buf[pos + 1]), buf[pos]))
  }

  function GetU32(buf: seq<byte>, pos: nat): Result<u32>
    requires pos <= |buf|
  {
    if |buf| - pos < 4 then Err(ReadPacketBufferError)
    else Ok(Join(Join(Join(buf[pos], buf[pos + 1]), buf[pos + 2]), buf[pos + 3]))
  }

  function GetSlice(buf: seq<byte>, pos: nat, length: nat): Result<seq<byte>>
    requires pos <= |buf|
  {
    if |buf| - pos < length then Err(ReadPacketBufferError) else Ok(buf[pos..pos + length])
  }

  // ---------------------------------------------------------------------
  // The cursor of the receive path.

  class RaknetReader {
    const buf: seq<byte>
    var pos: nat

    ghost predicate Valid()
      reads this
    {
      pos <= |buf|
    }

    constructor (buf: seq<byte>)
      ensures Valid() && this.buf == buf && pos == 0
    {
      this.buf, pos := buf, 0;
    }

    method ReadU8() returns (r: Result<byte>)
      requires Valid()
      modifies this
      ensures Valid() && r == GetU8(buf, old(pos))
      ensures pos == if r.Ok? then old(pos) + 1 else old(pos)
    {
      if pos == |buf| {
        return Err(ReadPacketBufferError);
      }
      r := Ok(buf[pos]);
      pos := pos + 1;
    }

    method ReadU16() returns (r: Result<u16>)
      requires Valid()
      modifies this
      ensures Valid() && r == GetU16(buf, old(pos))
      ensures pos == if r.Ok? then old(pos) + 2 else old(pos)
    {
      if |buf| - pos < 2 {
        return Err(ReadPacketBufferError);
      }
      r := Ok(Join(buf[pos], buf[pos + 1]));
      pos := pos + 2;
    }

    method ReadU24() returns (r: Result<u24>)
      requires Valid()
      modifies this
      ensures Valid() && r == GetU24(buf, old(pos))
      ensures pos == if r.Ok? then old(pos) + 3 else old(pos)
    {
      if |buf| - pos < 3 {
        return Err(ReadPacketBufferError);
      }
      r := Ok(Join(Join(buf[pos + 2], buf[pos + 1]), buf[pos]));
      pos := pos + 3;
    }

    method ReadU32() returns (r: Result<u32>)
      requires Valid()
      modifies this
      ensures Valid() && r == GetU32(buf, old(pos))
      ensures pos == if r.Ok? then old(pos) + 4 else old(pos)
    {
      if |buf| - pos < 4 {
        return Err(ReadPacketBufferError);
      }
      r := Ok(Join(Join(Join(buf[pos], buf[pos + 1]), buf[pos + 2]), buf[pos + 3]));
      pos := pos + 4;
    }

    method ReadSlice(length: nat) returns (r: Result<seq<byte>>)
      requires Valid()
      modifies this
      ensures Valid() && r == GetSlice(buf, old(pos), length)
      ensures pos == if r.Ok? then old(pos) + length else old(pos)
    {
      if |buf| - pos < length {
        return Err(ReadPacketBufferError);
      }
      r := Ok(buf[pos..pos + length]);
      pos := pos + length;
    }
  }

  // ---------------------------------------------------------------------
  // Reading what was written.

  ghost predicate At(buf: seq<byte>, pos: nat, chunk: seq<byte>) {
    pos + |chunk| <= |buf| && buf[pos..pos + |chunk|] == chunk
  }

  lemma AtSplit(buf: seq<byte>, pos: nat, a: seq<byte>, b: seq<byte>)
    requires At(buf, pos, a + b)
    ensures At(buf, pos, a) && At(buf, pos + |a|, b)
  {
    var both := buf[pos..pos + |a| + |b|];
    assert both == a + b;
    assert both[..|a|] == a && both[|a|..] == b;
  }

  lemma TailSplit(buf: seq<byte>, pos: nat, a: seq<byte>, rest: seq<byte>)
    requires pos <= |buf| && buf[pos..] == a + rest
    ensures At(buf, pos, a) && buf[pos + |a|..] == rest
  {
    assert buf[pos..pos + |a|] == buf[pos..][..|a|];
    assert buf[pos + |a|..] == buf[pos..][|a|..];
  }

  lemma ReadBack16(buf: seq<byte>, pos: nat, v: u16)
    requires At(buf, pos, U16Big(v))
    ensures GetU16(buf, pos) == Ok(v)
  {
    var chunk := buf[pos..pos + 2];
    assert chunk[0] == buf[pos] && chunk[1] == buf[pos + 1];
  }

  lemma ReadBack24(buf: seq<byte>, pos: nat, v: u24)
    requires At(buf, pos, U24Little(v))
    ensures GetU24(buf, pos) == Ok(v)
  {
    var chunk := buf[pos..pos + 3];
    assert chunk[0] == buf[pos] && chunk[1] == buf[pos + 1] && chunk[2] == buf[pos + 2];
    assert v / 0x100 == v / 0x1_0000 * 0x100 + v / 0x100 % 0x100;
  }

  lemma ReadBack32(buf: seq<byte>, pos: nat, v: u32)
    requires At(buf, pos, U32Big(v))
    ensures GetU32(buf, pos) == Ok(v)
  {
    var chunk := buf[pos..pos + 4];
    assert chunk[0] == buf[pos] && chunk[1] == buf[pos + 1] && chunk[2] == buf[pos + 2] && chunk[3] == buf[pos + 3];
    assert v / 0x100 == v / 0x1_0000 * 0x100 + v / 0x100 % 0x100;
    assert v / 0x1_0000 == v / 0x100_0000 * 0x100 + v / 0x1_0000 % 0x100;
  }
}
