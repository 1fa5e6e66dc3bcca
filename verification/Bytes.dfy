/** An optional value: `None` stands for JavaScript's `null` and `undefined`, and, as the
    result of a decoding function, for the exception that Node's Buffer would throw. */
module Options {

  datatype Option<+T> = None | Some(value: T) {

    predicate IsFailure() {
      None?
    }

    function PropagateFailure<U>(): Option<U>
      requires None?
    {
      None
    }

    function Extract(): T
      requires Some?
    {
      value
    }

    function GetOr(default: T): T {
      if Some? then value else default
    }
  }
}

/** Big-endian integers in byte buffers, as Node's Buffer reads and writes them. */
module Bytes {
  import opened Options

  type byte = x: int | 0 <= x < 256
  type bytes = seq<byte>

  const TWO_16 := 0x1_0000
  const TWO_24 := 0x100_0000
  const TWO_31 := 0x8000_0000
  const TWO_32 := 0x1_0000_0000
  const TWO_53 := 0x20_0000_0000_0000

  /** `Buffer.slice`: negative indices count from the end, and both ends are clamped. */
  function JsSlice<T>(b: seq<T>, start: int, end: int): (r: seq<T>)
    ensures |r| <= |b|
  {
    var from := ClampIndex(|b|, start);
    var to := ClampIndex(|b|, end);
    if from <= to then b[from..to] else []
  }

  function ClampIndex(length: nat, index: int): (r: nat)
    ensures r <= length
    ensures 0 <= index <= length ==> r == index
  {
    if index < 0 then (if length + index < 0 then 0 else length + index)
    else if index > length then length
    else index
  }

  // Writing

  function U8(v: int): bytes
    requires 0 <= v < 256
  {
    [v]
  }

  function U16(v: int): bytes
    requires 0 <= v < TWO_16
  {
    [v / 0x100, v % 0x100]
  }

  function U24(v: int): bytes
    requires 0 <= v < TWO_24
  {
    [v / 0x1_0000, v / 0x100 % 0x100, v % 0x100]
  }

  function U32(v: int): bytes
    requires 0 <= v < TWO_32
  {
    U16(v / TWO_16) + U16(v % TWO_16)
  }

  function U64(v: int): bytes
    requires 0 <= v < TWO_53
  {
    U32(v / TWO_32) + U32(v % TWO_32)
  }

  // Reading: `None` is the RangeError for a read outside the buffer

  function GetU8(b: bytes, offset: int): Option<nat> {
    if 0 <= offset < |b| then Some(b[offset]) else None
  }

  function GetU16(b: bytes, offset: int): Option<nat> {
    if 0 <= offset && offset + 2 <= |b| then Some(b[offset] as int * 0x100 + b[offset + 1]) else None
  }

  function GetU24(b: bytes, offset: int): Option<nat> {
    if 0 <= offset && offset + 3 <= |b|
    then Some(b[offset] as int * 0x1_0000 + b[offset + 1] as int * 0x100 + b[offset + 2])
    else None
  }

  function GetU32(b: bytes, offset: int): Option<nat> {
    var high :- GetU16(b, offset);
    var low :- GetU16(b, offset + 2);
    Some(high * TWO_16 + low)
  }

  function GetU64(b: bytes, offset: int): Option<nat> {
    var high :- GetU32(b, offset);
    var low :- GetU32(b, offset + 4);
    Some(high * TWO_32 + low)
  }

  /** Two's complement reading of an unsigned 16-bit value. */
  function ToInt16(v: nat): int
    requires v < TWO_16
  {
    if v < 0x8000 then v else v - TWO_16
  }

  /** Two's complement reading of an unsigned 32-bit value. */
  function ToInt32(v: nat): int
    requires v < TWO_32
  {
    if v < TWO_31 then v else v - TWO_32
  }

  function GetI16(b: bytes, offset: int): Option<int> {
    var v :- GetU16(b, offset);
    Some(ToInt16(v))
  }

  function GetI32(b: bytes, offset: int): Option<int> {
    var v :- GetU32(b, offset);
    Some(ToInt32(v))
  }

  // Each reader inverts its writer wherever the written bytes stand in the buffer, and what
  // follows them is what follows the read.

  lemma ReadU8(b: bytes, offset: nat, v: int, rest: bytes)
    requires 0 <= v < 256 && offset <= |b|
    requires b[offset..] == U8(v) + rest
    ensures GetU8(b, offset) == Some(v)
    ensures offset + 1 <= |b| && b[offset + 1..] == rest
  {
    assert b[offset..][0] == v;
    assert b[offset..][1..] == rest;
  }

  lemma ReadU16(b: bytes, offset: nat, v: int, rest: bytes)
    requires 0 <= v < TWO_16 && offset <= |b|
    requires b[offset..] == U16(v) + rest
    ensures GetU16(b, offset) == Some(v)
    ensures offset + 2 <= |b| && b[offset + 2..] == rest
  {
    assert b[offset..][..2] == U16(v);
    assert b[offset] == U16(v)[0] && b[offset + 1] == U16(v)[1];
    assert b[offset..][2..] == rest;
  }

  lemma ReadU24(b: bytes, offset: nat, v: int, rest: bytes)
    requires 0 <= v < TWO_24 && offset <= |b|
    requires b[offset..] == U24(v) + rest
    ensures GetU24(b, offset) == Some(v)
    ensures offset + 3 <= |b| && b[offset + 3..] == rest
  {
    assert b[offset..][..3] == U24(v);
    assert b[offset] == U24(v)[0] && b[offset + 1] == U24(v)[1] && b[offset + 2] == U24(v)[2];
    assert b[offset..][3..] == rest;
  }

  lemma ReadU32(b: bytes, offset: nat, v: int, rest: bytes)
    requires 0 <= v < TWO_32 && offset <= |b|
    requires b[offset..] == U32(v) + rest
    ensures GetU32(b, offset) == Some(v)
    ensures offset + 4 <= |b| && b[offset + 4..] == rest
  {
    assert U32(v) + rest == U16(v / TWO_16) + (U16(v % TWO_16) + rest);
    ReadU16(b, offset, v / TWO_16, U16(v % TWO_16) + rest);
    ReadU16(b, offset + 2, v % TWO_16, rest);
  }

  lemma ReadU64(b: bytes, offset: nat, v: int, rest: bytes)
    requires 0 <= v < TWO_53 && offset <= |b|
    requires b[offset..] == U64(v) + rest
    ensures GetU64(b, offset) == Some(v)
    ensures offset + 8 <= |b| && b[offset + 8..] == rest
  {
    assert U64(v) + rest == U32(v / TWO_32) + (U32(v % TWO_32) + rest);
    ReadU32(b, offset, v / TWO_32, U32(v % TWO_32) + rest);
    ReadU32(b, offset + 4, v % TWO_32, rest);
  }

  lemma ReadSlice(b: bytes, offset: nat, s: bytes, rest: bytes)
    requires offset <= |b| && b[offset..] == s + rest
    ensures JsSlice(b, offset, offset + |s|) == s
    ensures offset + |s| <= |b| && b[offset + |s|..] == rest
  {
    assert b[offset..][..|s|] == s;
    assert b[offset..][|s|..] == rest;
  }

  // Concatenations grow to the left when a buffer is filled, and are read from the left

  lemma Regroup3<T>(a: seq<T>, b: seq<T>, c: seq<T>)
    ensures a + b + c == a + (b + c)
  {
  }

  lemma Regroup4(a: bytes, b: bytes, c: bytes, d: bytes)
    ensures a + b + c + d == a + (b + (c + d))
  {
    Regroup3(a + b, c, d);
    Regroup3(a, b, c + d);
  }

  lemma Regroup7(a: bytes, b: bytes, c: bytes, d: bytes, e: bytes, f: bytes, g: bytes)
    ensures a + b + c + d + e + f + g == a + (b + (c + (d + (e + (f + g)))))
  {
    Regroup4(a + b + c + d, e, f, g);
    Regroup3(a + b + c, d, e + (f + g));
    Regroup4(a, b, c, d + (e + (f + g)));
  }
}
