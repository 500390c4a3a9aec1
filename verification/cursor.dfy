/** Reading a byte buffer front to back: as functions of what is left, and as a cursor that advances. */
module Cursor {
  import opened Bytes
  import opened Scalars

  datatype Take<T> = Short | Got(value: T, rest: Text)

  /** read_scalar */
  function TakeI32(s: Text): Take<int>
  {
    if |s| < 4 then Short else Got(ReadI32(s, 0), s[4..])
  }

  /** read_bytes */
  function TakeBytes(s: Text, n: nat): Take<Text>
  {
    if |s| < n then Short else Got(s[..n], s[n..])
  }

  function TakeU32(s: Text): Take<int>
  {
    if |s| < 4 then Short else Got(ReadU32(s, 0), s[4..])
  }

  function TakeU8(s: Text): Take<byte>
  {
    if |s| < 1 then Short else Got(s[0], s[1..])
  }

  lemma TakeU32Back(n: int, rest: Text)
    requires IsU32(n)
    ensures TakeU32(U32(n) + rest) == Got(n, rest)
  {
    ReadU32Back([], n, rest);
    assert [] + U32(n) + rest == U32(n) + rest;
  }

  lemma TakeU8Back(b: byte, rest: Text)
    ensures TakeU8([b] + rest) == Got(b, rest)
  {
  }

  lemma TakeI32Back(n: int, rest: Text)
    requires IsI32(n)
    ensures TakeI32(U32(n) + rest) == Got(n, rest)
  {
    ReadI32Back([], n, rest);
    assert [] + U32(n) + rest == U32(n) + rest;
  }

  lemma TakeBytesBack(a: Text, rest: Text)
    ensures TakeBytes(a + rest, |a|) == Got(a, rest)
  {
  }

  /** A read cursor p over a buffer. */
  class Reader {
    const buf: Text
    var p: nat

    constructor (buf: Text)
      ensures this.buf == buf && p == 0
    {
      this.buf := buf;
      p := 0;
    }

    method ReadScalar() returns (ok: bool, v: int)
      requires p <= |buf|
      modifies this`p
      ensures p <= |buf|
      ensures TakeI32(buf[old(p)..]) == if ok then Got(v, buf[p..]) else Short
      ensures p == old(p) + if ok then 4 else 0
    {
      if p + 4 > |buf| {
        return false, 0;
      }
      ok, v := true, ReadI32(buf, p);
      assert ReadI32(buf[p..], 0) == v;
      p := p + 4;
      assert buf[old(p)..][4..] == buf[p..];
    }

    method ReadBytes(len: nat) returns (ok: bool, v: Text)
      requires p <= |buf|
      modifies this`p
      ensures p <= |buf|
      ensures TakeBytes(buf[old(p)..], len) == if ok then Got(v, buf[p..]) else Short
      ensures p == old(p) + (if ok then len else 0) && (ok ==> |v| == len)
    {
      if p + len > |buf| {
        return false, [];
      }
      ok, v := true, buf[p..p + len];
      assert buf[p..][..len] == v;
      p := p + len;
      assert buf[old(p)..][len..] == buf[p..];
    }

    method ReadUnsigned() returns (ok: bool, v: int)
      requires p <= |buf|
      modifies this`p
      ensures p <= |buf|
      ensures TakeU32(buf[old(p)..]) == if ok then Got(v, buf[p..]) else Short
      ensures p == old(p) + if ok then 4 else 0
    {
      if p + 4 > |buf| {
        return false, 0;
      }
      ok, v := true, ReadU32(buf, p);
      assert ReadU32(buf[p..], 0) == v;
      p := p + 4;
      assert buf[old(p)..][4..] == buf[p..];
    }

    method ReadByte() returns (ok: bool, v: byte)
      requires p <= |buf|
      modifies this`p
      ensures p <= |buf|
      ensures TakeU8(buf[old(p)..]) == if ok then Got(v, buf[p..]) else Short
      ensures p == old(p) + if ok then 1 else 0
    {
      if p + 1 > |buf| {
        return false, 0;
      }
      ok, v := true, buf[p];
      p := p + 1;
      assert buf[old(p)..][1..] == buf[p..];
    }
  }
}
