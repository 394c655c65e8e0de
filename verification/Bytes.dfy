/** Big-endian integers, as `encoding/binary` writes them through `byte_data_buffer.go`. */
module Bytes {

  type byte = x: int | 0 <= x < 256
  type bytes = seq<byte>
  type u32 = x: int | 0 <= x < 0x1_0000_0000
  type u64 = x: int | 0 <= x < 0x1_0000_0000_0000_0000
  type i32 = x: int | -0x8000_0000 <= x < 0x8000_0000
  type i64 = x: int | -0x8000_0000_0000_0000 <= x < 0x8000_0000_0000_0000

  /** A Go `(T, error)` pair; the error text is not modelled. */
  datatype Result<+T> = Ok(value: T) | Err {
    predicate IsFailure() {
      Err?
    }
    function PropagateFailure<U>(): Result<U>
      requires Err?
    {
      Err
    }
    function Extract(): T
      requires Ok?
    {
      value
    }
  }

  /** 256 to the power `n`. */
  function Span(n: nat): (r: nat)
    ensures r > 0
  {
    if n == 0 then 1 else 256 * Span(n - 1)
  }

  lemma Spans()
    ensures Span(1) == 256 && Span(3) == 0x100_0000
    ensures Span(4) == 0x1_0000_0000 && Span(8) == 0x1_0000_0000_0000_0000
  {
    assert Span(2) == 0x1_0000;
    assert Span(3) == 0x100_0000;
    assert Span(4) == 0x1_0000_0000;
    assert Span(5) == 0x100_0000_0000;
    assert Span(6) == 0x1_0000_0000_0000;
    assert Span(7) == 0x100_0000_0000_0000;
  }

  /** The low `n` bytes of `v`, most significant first. */
  function BigEndian(v: nat, n: nat): (r: bytes)
    ensures |r| == n
  {
    if n == 0 then [] else BigEndian(v / 256, n - 1) + [v % 256]
  }

  function Unsigned(s: bytes): nat {
    if s == [] then 0 else 256 * Unsigned(s[..|s| - 1]) + s[|s| - 1]
  }

  lemma {:induction false} UnsignedBigEndian(v: nat, n: nat)
    requires v < Span(n)
    ensures Unsigned(BigEndian(v, n)) == v
  {
    if n > 0 {
      UnsignedBigEndian(v / 256, n - 1);
      var r := BigEndian(v, n);
      assert r[..n - 1] == BigEndian(v / 256, n - 1);
    }
  }

  lemma {:induction false} UnsignedBound(s: bytes)
    ensures Unsigned(s) < Span(|s|)
  {
    if s != [] {
      UnsignedBound(s[..|s| - 1]);
    }
  }

  /** The leading byte of a number that fits into fewer bytes is zero. */
  lemma {:induction false} LeadingZero(v: nat, n: nat)
    requires n > 0 && v < Span(n - 1)
    ensures BigEndian(v, n)[0] == 0
  {
    if n > 1 {
      LeadingZero(v / 256, n - 1);
    }
  }

  function U32(v: u32): (r: bytes)
    ensures |r| == 4
  {
    BigEndian(v, 4)
  }

  function U64(v: u64): (r: bytes)
    ensures |r| == 8
  {
    BigEndian(v, 8)
  }

  /** Two's complement. */
  function I32(v: i32): (r: bytes)
    ensures |r| == 4
  {
    U32(if v < 0 then v + 0x1_0000_0000 else v)
  }

  function I64(v: i64): (r: bytes)
    ensures |r| == 8
  {
    U64(if v < 0 then v + 0x1_0000_0000_0000_0000 else v)
  }

  function ToU32(s: bytes): u32
    requires |s| == 4
  {
    UnsignedBound(s);
    Spans();
    Unsigned(s)
  }

  function ToU64(s: bytes): u64
    requires |s| == 8
  {
    UnsignedBound(s);
    Spans();
    Unsigned(s)
  }

  function ToI32(s: bytes): i32
    requires |s| == 4
  {
    var v := ToU32(s);
    if v >= 0x8000_0000 then v - 0x1_0000_0000 else v
  }

  function ToI64(s: bytes): i64
    requires |s| == 8
  {
    var v := ToU64(s);
    if v >= 0x8000_0000_0000_0000 then v - 0x1_0000_0000_0000_0000 else v
  }

  lemma U32RoundTrip(v: u32)
    ensures ToU32(U32(v)) == v
  {
    Spans();
    UnsignedBigEndian(v, 4);
  }

  lemma U64RoundTrip(v: u64)
    ensures ToU64(U64(v)) == v
  {
    Spans();
    UnsignedBigEndian(v, 8);
  }

  lemma I32RoundTrip(v: i32)
    ensures ToI32(I32(v)) == v
  {
    U32RoundTrip(if v < 0 then v + 0x1_0000_0000 else v);
  }

  lemma I64RoundTrip(v: i64)
    ensures ToI64(I64(v)) == v
  {
    U64RoundTrip(if v < 0 then v + 0x1_0000_0000_0000_0000 else v);
  }

  lemma U32Injective(a: u32, b: u32)
    requires U32(a) == U32(b)
    ensures a == b
  {
    U32RoundTrip(a);
    U32RoundTrip(b);
  }

  lemma U64Injective(a: u64, b: u64)
    requires U64(a) == U64(b)
    ensures a == b
  {
    U64RoundTrip(a);
    U64RoundTrip(b);
  }

  /** Go's `int32(n)` on a length, as the unsigned value its four bytes spell. */
  function Length32(n: nat): u32 {
    n % 0x1_0000_0000
  }
}
