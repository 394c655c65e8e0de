/**
 * The capacity-bounded byte buffer of `byte_data_buffer.go`: writes advance a position up to a limit, `Flip`
 * turns what was written into what can be read, `Clear` starts over.
 */
module Buffer {
  import opened Bytes

  // ---- reading, as functions on the unread bytes: the value and what is left ----

  function GetBytes(b: bytes, n: nat): Result<(bytes, bytes)> {
    if n <= |b| then Ok((b[..n], b[n..])) else Err
  }

  function GetU32(b: bytes): Result<(u32, bytes)> {
    if 4 <= |b| then Ok((ToU32(b[..4]), b[4..])) else Err
  }

  function GetI32(b: bytes): Result<(i32, bytes)> {
    if 4 <= |b| then Ok((ToI32(b[..4]), b[4..])) else Err
  }

  function GetU64(b: bytes): Result<(u64, bytes)> {
    if 8 <= |b| then Ok((ToU64(b[..8]), b[8..])) else Err
  }

  function GetI64(b: bytes): Result<(i64, bytes)> {
    if 8 <= |b| then Ok((ToI64(b[..8]), b[8..])) else Err
  }

  function GetBool(b: bytes): Result<(bool, bytes)> {
    if 1 <= |b| then Ok((b[0] == 1, b[1..])) else Err
  }

  /** A length and that many bytes; a negative length fails. */
  function GetString(b: bytes): Result<(bytes, bytes)> {
    var (n, rest) :- GetI32(b);
    if n < 0 then Err else GetBytes(rest, n)
  }

  /** `Read(sz)`: everything when `sz` is 0 or reaches past the end. */
  function GetSome(b: bytes, sz: int): Result<(bytes, bytes)> {
    if sz == 0 || sz >= |b| then Ok((b, []))
    else if sz < 0 then Err
    else Ok((b[..sz], b[sz..]))
  }

  /** The bytes `WriteString` appends. */
  function StringBytes(s: bytes): bytes {
    U32(Length32(|s|)) + s
  }

  function BoolByte(v: bool): byte {
    if v then 1 else 0
  }

  lemma StringAppends(w: bytes, s: bytes)
    ensures (w + U32(Length32(|s|))) + s == w + StringBytes(s)
  {
  }

  // ---- every read undoes its write ----

  lemma GetU32Written(v: u32, rest: bytes)
    ensures GetU32(U32(v) + rest) == Ok((v, rest))
  {
    U32RoundTrip(v);
    assert (U32(v) + rest)[..4] == U32(v);
  }

  lemma GetI32Written(v: i32, rest: bytes)
    ensures GetI32(I32(v) + rest) == Ok((v, rest))
  {
    I32RoundTrip(v);
    assert (I32(v) + rest)[..4] == I32(v);
  }

  lemma GetU64Written(v: u64, rest: bytes)
    ensures GetU64(U64(v) + rest) == Ok((v, rest))
  {
    U64RoundTrip(v);
    assert (U64(v) + rest)[..8] == U64(v);
  }

  lemma GetI64Written(v: i64, rest: bytes)
    ensures GetI64(I64(v) + rest) == Ok((v, rest))
  {
    I64RoundTrip(v);
    assert (I64(v) + rest)[..8] == I64(v);
  }

  lemma GetBoolWritten(v: bool, rest: bytes)
    ensures GetBool([BoolByte(v)] + rest) == Ok((v, rest))
  {
  }

  lemma GetStringWritten(s: bytes, rest: bytes)
    requires |s| < 0x8000_0000
    ensures GetString(StringBytes(s) + rest) == Ok((s, rest))
  {
    var n: i32 := |s|;
    assert StringBytes(s) + rest == I32(n) + (s + rest);
    GetI32Written(n, s + rest);
    assert (s + rest)[..|s|] == s && (s + rest)[|s|..] == rest;
  }

  // ---- the buffer ----

  class ByteBuffer {
    const data: array<byte>
    var pos: nat
    var limit: nat

    ghost predicate Valid()
      reads this
    {
      pos <= limit <= data.Length
    }

    ghost function Written(): bytes
      requires Valid()
      reads this, data
    {
      data[..pos]
    }

    ghost function Unread(): bytes
      requires Valid()
      reads this, data
    {
      data[pos..limit]
    }

    constructor (size: nat)
      ensures Valid() && fresh(data) && data.Length == size && pos == 0 && limit == size
    {
      data := new byte[size];
      pos, limit := 0, size;
    }

    method Flip()
      requires Valid()
      modifies this
      ensures Valid() && pos == 0 && Unread() == old(Written())
    {
      limit := pos;
      pos := 0;
    }

    method Clear()
      requires Valid()
      modifies this
      ensures Valid() && pos == 0 && limit == data.Length
    {
      pos, limit := 0, data.Length;
    }

    /** Appends all of `src`, or fails and changes nothing when it does not fit. */
    method Write(src: bytes) returns (ok: bool)
      requires Valid()
      modifies this`pos, data
      ensures Valid() && (ok <==> |src| <= limit - old(pos))
      ensures Written() == if ok then old(Written()) + src else old(Written())
    {
      ok := |src| <= limit - pos;
      if ok {
        for i := 0 to |src|
          invariant pos == old(pos)
          invariant data[..pos + i] == old(data[..pos]) + src[..i]
        {
          data[pos + i] := src[i];
        }
        pos := pos + |src|;
        assert src[..|src|] == src;
      }
    }

    method WriteUInt32(v: u32) returns (ok: bool)
      requires Valid()
      modifies this`pos, data
      ensures Valid() && (ok <==> 4 <= limit - old(pos))
      ensures Written() == if ok then old(Written()) + U32(v) else old(Written())
    {
      ok := Write(U32(v));
    }

    method WriteInt32(v: i32) returns (ok: bool)
      requires Valid()
      modifies this`pos, data
      ensures Valid() && (ok <==> 4 <= limit - old(pos))
      ensures Written() == if ok then old(Written()) + I32(v) else old(Written())
    {
      ok := Write(I32(v));
    }

    method WriteUInt64(v: u64) returns (ok: bool)
      requires Valid()
      modifies this`pos, data
      ensures Valid() && (ok <==> 8 <= limit - old(pos))
      ensures Written() == if ok then old(Written()) + U64(v) else old(Written())
    {
      ok := Write(U64(v));
    }

    method WriteInt64(v: i64) returns (ok: bool)
      requires Valid()
      modifies this`pos, data
      ensures Valid() && (ok <==> 8 <= limit - old(pos))
      ensures Written() == if ok then old(Written()) + I64(v) else old(Written())
    {
      ok := Write(I64(v));
    }

    method WriteBool(v: bool) returns (ok: bool)
      requires Valid()
      modifies this`pos, data
      ensures Valid() && (ok <==> 1 <= limit - old(pos))
      ensures Written() == if ok then old(Written()) + [BoolByte(v)] else old(Written())
    {
      ok := Write([BoolByte(v)]);
    }

    /** Length first: when only the length fits, it stays written although the call fails. */
    method WriteString(s: bytes) returns (ok: bool)
      requires Valid()
      modifies this`pos, data
      ensures Valid() && (ok <==> 4 + |s| <= limit - old(pos))
      ensures Written() == if ok then old(Written()) + StringBytes(s)
                           else if 4 <= limit - old(pos) then old(Written()) + U32(Length32(|s|))
                           else old(Written())
    {
      StringAppends(Written(), s);
      ok := Write(U32(Length32(|s|)));
      if ok {
        ok := Write(s);
      }
    }

    method ReadBytes(n: nat) returns (r: Result<bytes>)
      requires Valid()
      modifies this`pos
      ensures Valid() && limit == old(limit)
      ensures GetBytes(old(Unread()), n) == if r.Ok? then Ok((r.value, Unread())) else Err
      ensures r.Err? ==> pos == old(pos)
    {
      if n > limit - pos {
        return Err;
      }
      r := Ok(data[pos..pos + n]);
      pos := pos + n;
      assert old(Unread())[..n] == r.value && old(Unread())[n..] == Unread();
    }

    method ReadUInt32() returns (r: Result<u32>)
      requires Valid()
      modifies this`pos
      ensures Valid() && limit == old(limit)
      ensures GetU32(old(Unread())) == if r.Ok? then Ok((r.value, Unread())) else Err
    {
      var b := ReadBytes(4);
      r := if b.Ok? then Ok(ToU32(b.value)) else Err;
    }

    method ReadInt32() returns (r: Result<i32>)
      requires Valid()
      modifies this`pos
      ensures Valid() && limit == old(limit)
      ensures GetI32(old(Unread())) == if r.Ok? then Ok((r.value, Unread())) else Err
    {
      var b := ReadBytes(4);
      r := if b.Ok? then Ok(ToI32(b.value)) else Err;
    }

    method ReadUInt64() returns (r: Result<u64>)
      requires Valid()
      modifies this`pos
      ensures Valid() && limit == old(limit)
      ensures GetU64(old(Unread())) == if r.Ok? then Ok((r.value, Unread())) else Err
    {
      var b := ReadBytes(8);
      r := if b.Ok? then Ok(ToU64(b.value)) else Err;
    }

    method ReadInt64() returns (r: Result<i64>)
      requires Valid()
      modifies this`pos
      ensures Valid() && limit == old(limit)
      ensures GetI64(old(Unread())) == if r.Ok? then Ok((r.value, Unread())) else Err
    {
      var b := ReadBytes(8);
      r := if b.Ok? then Ok(ToI64(b.value)) else Err;
    }

    method ReadBool() returns (r: Result<bool>)
      requires Valid()
      modifies this`pos
      ensures Valid() && limit == old(limit)
      ensures GetBool(old(Unread())) == if r.Ok? then Ok((r.value, Unread())) else Err
    {
      var b := ReadBytes(1);
      r := if b.Ok? then Ok(b.value[0] == 1) else Err;
    }

    method ReadString() returns (r: Result<bytes>)
      requires Valid()
      modifies this`pos
      ensures Valid() && limit == old(limit)
      ensures GetString(old(Unread())) == if r.Ok? then Ok((r.value, Unread())) else Err
    {
      var n := ReadInt32();
      if n.Err? || n.value < 0 {
        return Err;
      }
      r := ReadBytes(n.value);
    }

    method Read(sz: int) returns (r: Result<bytes>)
      requires Valid()
      modifies this`pos
      ensures Valid() && limit == old(limit)
      ensures GetSome(old(Unread()), sz) == if r.Ok? then Ok((r.value, Unread())) else Err
    {
      var len := limit - pos;
      if sz == 0 || sz >= len {
        r := ReadBytes(len);
        assert old(Unread())[..len] == old(Unread()) && old(Unread())[len..] == [];
      } else if sz < 0 {
        r := Err;
      } else {
        r := ReadBytes(sz);
      }
    }
  }
}
