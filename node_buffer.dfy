/**
 * The part of Node's Buffer the WAV writer uses: a fixed-size array of bytes,
 * allocated zero-filled, little-endian writes of 16- and 32-bit integers, writes
 * of ASCII text, and copy.
 */
module NodeBuffer {
  newtype byte = x: int | 0 <= x < 256

  predicate IsUInt16(v: int) { 0 <= v < 0x1_0000 }
  predicate IsInt16(v: int) { -0x8000 <= v < 0x8000 }
  predicate IsUInt32(v: int) { 0 <= v < 0x1_0000_0000 }

  /** The bytes of an unsigned 16-bit value, least significant first. */
  function U16LE(v: int): (bytes: seq<byte>)
    requires IsUInt16(v)
    ensures |bytes| == 2
  {
    [(v % 0x100) as byte, (v / 0x100) as byte]
  }

  /** The bytes of an unsigned 32-bit value, least significant first. */
  function U32LE(v: int): (bytes: seq<byte>)
    requires IsUInt32(v)
    ensures |bytes| == 4
  {
    [(v % 0x100) as byte, (v / 0x100 % 0x100) as byte, (v / 0x1_0000 % 0x100) as byte, (v / 0x100_0000) as byte]
  }

  /** The bytes of a signed 16-bit value in two's complement, least significant first. */
  function I16LE(v: int): (bytes: seq<byte>)
    requires IsInt16(v)
    ensures |bytes| == 2
  {
    U16LE(if v < 0 then v + 0x1_0000 else v)
  }

  function ReadU16LE(bytes: seq<byte>): nat
    requires |bytes| == 2
  {
    bytes[0] as nat + 0x100 * bytes[1] as nat
  }

  function ReadU32LE(bytes: seq<byte>): nat
    requires |bytes| == 4
  {
    bytes[0] as nat + 0x100 * bytes[1] as nat + 0x1_0000 * bytes[2] as nat + 0x100_0000 * bytes[3] as nat
  }

  function ReadI16LE(bytes: seq<byte>): int
    requires |bytes| == 2
  {
    var u := ReadU16LE(bytes);
    if u >= 0x8000 then u - 0x1_0000 else u
  }

  lemma U16RoundTrip(v: int)
    requires IsUInt16(v)
    ensures ReadU16LE(U16LE(v)) == v
  {
  }

  lemma U32RoundTrip(v: int)
    requires IsUInt32(v)
    ensures ReadU32LE(U32LE(v)) == v
  {
    var q1 := v / 0x100;
    var q2 := q1 / 0x100;
    assert v / 0x1_0000 == q2;
    assert v / 0x100_0000 == q2 / 0x100;
    assert v == v % 0x100 + 0x100 * q1;
    assert q1 == q1 % 0x100 + 0x100 * q2;
    assert q2 == q2 % 0x100 + 0x100 * (q2 / 0x100);
  }

  /** A sample written as a signed 16-bit little-endian value reads back unchanged. */
  lemma I16RoundTrip(v: int)
    requires IsInt16(v)
    ensures ReadI16LE(I16LE(v)) == v
  {
    U16RoundTrip(if v < 0 then v + 0x1_0000 else v);
  }

  /** The bytes of ASCII text, one per character. */
  function Ascii(text: string): (bytes: seq<byte>)
    requires forall k :: 0 <= k < |text| ==> text[k] < 128 as char
    ensures |bytes| == |text|
    ensures forall k :: 0 <= k < |text| ==> bytes[k] as int == text[k] as int
  {
    seq(|text|, k requires 0 <= k < |text| => text[k] as int as byte)
  }

  function Zeros(n: nat): (bytes: seq<byte>)
    ensures |bytes| == n
    ensures forall k :: 0 <= k < n ==> bytes[k] == 0
  {
    seq(n, _ => 0)
  }

  /** Buffer.alloc(size): a zero-filled buffer. */
  method Alloc(size: nat) returns (buf: array<byte>)
    ensures fresh(buf) && buf[..] == Zeros(size)
  {
    buf := new byte[size](_ => 0);
  }

  /** Writes bytes at offset; everything else in the buffer is kept. */
  method WriteBytes(buf: array<byte>, bytes: seq<byte>, offset: nat)
    requires offset + |bytes| <= buf.Length
    modifies buf
    ensures buf[..] == old(buf[..offset]) + bytes + old(buf[offset + |bytes|..])
  {
    ghost var before := buf[..];
    var i := 0;
    while i < |bytes|
      invariant 0 <= i <= |bytes|
      invariant forall k :: 0 <= k < buf.Length ==>
        buf[k] == if offset <= k < offset + i then bytes[k - offset] else before[k]
    {
      buf[offset + i] := bytes[i];
      i := i + 1;
    }
    Overwritten(before, bytes, offset, buf[..]);
  }

  /** The buffer after the write, position by position, is the old prefix, the
      bytes and the old suffix. */
  lemma Overwritten(before: seq<byte>, bytes: seq<byte>, offset: nat, after: seq<byte>)
    requires offset + |bytes| <= |before| == |after|
    requires forall k :: 0 <= k < |after| ==>
      after[k] == if offset <= k < offset + |bytes| then bytes[k - offset] else before[k]
    ensures after == before[..offset] + bytes + before[offset + |bytes|..]
  {
  }

  /** buf.writeUInt16LE(value, offset). */
  method WriteUInt16LE(buf: array<byte>, value: int, offset: nat)
    requires IsUInt16(value) && offset + 2 <= buf.Length
    modifies buf
    ensures buf[..] == old(buf[..offset]) + U16LE(value) + old(buf[offset + 2..])
  {
    WriteBytes(buf, U16LE(value), offset);
  }

  /** buf.writeInt16LE(value, offset). */
  method WriteInt16LE(buf: array<byte>, value: int, offset: nat)
    requires IsInt16(value) && offset + 2 <= buf.Length
    modifies buf
    ensures buf[..] == old(buf[..offset]) + I16LE(value) + old(buf[offset + 2..])
  {
    WriteBytes(buf, I16LE(value), offset);
  }

  /** buf.writeUInt32LE(value, offset). */
  method WriteUInt32LE(buf: array<byte>, value: int, offset: nat)
    requires IsUInt32(value) && offset + 4 <= buf.Length
    modifies buf
    ensures buf[..] == old(buf[..offset]) + U32LE(value) + old(buf[offset + 4..])
  {
    WriteBytes(buf, U32LE(value), offset);
  }

  /** buf.write(text, offset) for ASCII text that fits. */
  method Write(buf: array<byte>, text: string, offset: nat)
    requires forall k :: 0 <= k < |text| ==> text[k] < 128 as char
    requires offset + |text| <= buf.Length
    modifies buf
    ensures buf[..] == old(buf[..offset]) + Ascii(text) + old(buf[offset + |text|..])
  {
    WriteBytes(buf, Ascii(text), offset);
  }

  /** source.copy(target, targetStart): as many bytes as fit, from the start of
      source; returns how many were copied. */
  method Copy(source: array<byte>, target: array<byte>, targetStart: nat) returns (count: nat)
    requires source != target && targetStart <= target.Length
    modifies target
    ensures count == if source.Length < target.Length - targetStart then source.Length else target.Length - targetStart
    ensures target[..] == old(target[..targetStart]) + source[..count] + old(target[targetStart + count..])
  {
    count := if source.Length < target.Length - targetStart then source.Length else target.Length - targetStart;
    WriteBytes(target, source[..count], targetStart);
  }
}
