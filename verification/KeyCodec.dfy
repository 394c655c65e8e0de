/**
 * Row keys and values of the local store: `key_index.go`, `set_data.go`, `get_data.go` and `persistence.go`.
 *
 * A logical key is a factory, a class and a user key.  Its index row lives under a ring prefix; every revision
 * of its value is a data row without one.
 */
module KeyCodec {
  import opened Bytes
  import opened Buffer

  const COMPOSIT_KEY_MAX: nat := 500
  const DATA_STATE_DELETED: u32 := 2

  /** `$___KI___$` */
  const INDEX_PREFIX: bytes := [0x24, 0x5F, 0x5F, 0x5F, 0x4B, 0x49, 0x5F, 0x5F, 0x5F, 0x24]

  datatype LogicalKey = LogicalKey(factoryId: u32, classId: u32, key: bytes)

  /** The part of a header that the index row stores. */
  datatype Header = Header(revision: u64, timestamp: u64, size: u32, updatable: bool, state: u32)

  datatype KeyIndex = KeyIndex(prefix: u32, at: LogicalKey, header: Header)

  /** User keys whose index row fits the composite-key buffer. */
  const INDEX_KEY_MAX: nat := 470
  /** User keys that `pull` can import with its 300-byte buffer. */
  const PULL_KEY_MAX: nat := 270

  // ---- encodings ----

  /** What every index row starts with: the length-prefixed marker. */
  function IndexMarker(): (r: bytes)
    ensures |r| == 14
  {
    StringBytes(INDEX_PREFIX)
  }

  function KeyBody(at: LogicalKey): (r: bytes)
    ensures |r| == 12 + |at.key|
  {
    U32(at.factoryId) + (U32(at.classId) + (U32(Length32(|at.key|)) + at.key))
  }

  function IndexKey(prefix: u32, at: LogicalKey): (r: bytes)
    ensures |r| == 30 + |at.key|
  {
    IndexMarker() + (U32(prefix) + KeyBody(at))
  }

  function DataKey(at: LogicalKey, revision: u64): (r: bytes)
    ensures |r| == 20 + |at.key|
  {
    KeyBody(at) + U64(revision)
  }

  function HeaderRow(h: Header): (r: bytes)
    ensures |r| == 25
  {
    U64(h.revision) + (U64(h.timestamp) + (U32(h.size) + ([BoolByte(h.updatable)] + U32(h.state))))
  }

  /** Where the fields of an index value are. */
  lemma HeaderLayout(h: Header)
    ensures HeaderRow(h)[0..8] == U64(h.revision) && HeaderRow(h)[8..16] == U64(h.timestamp)
    ensures HeaderRow(h)[16..20] == U32(h.size) && HeaderRow(h)[20] == (if h.updatable then 1 else 0)
    ensures HeaderRow(h)[21..25] == U32(h.state)
  {
  }

  /** Where the fields of the two kinds of keys are; `pull` cuts the user key out of a data key by these positions. */
  lemma KeyLayout(prefix: u32, at: LogicalKey, revision: u64)
    ensures var k, n := IndexKey(prefix, at), 30 + |at.key|;
            && k[4..14] == INDEX_PREFIX && k[14..18] == U32(prefix)
            && k[18..22] == U32(at.factoryId) && k[22..26] == U32(at.classId) && k[30..n] == at.key
    ensures var k, n := DataKey(at, revision), 20 + |at.key|;
            && k[0..4] == U32(at.factoryId) && k[4..8] == U32(at.classId)
            && k[12..n - 8] == at.key && k[n - 8..] == U64(revision)
  {
    BodyLayout(at);
    var body := KeyBody(at);
    var k, d := IndexKey(prefix, at), DataKey(at, revision);
    assert k[18..] == body && d[..|body|] == body;
    assert k[18..22] == body[0..4] && k[22..26] == body[4..8] && k[30..] == body[12..];
    assert d[0..4] == body[0..4] && d[4..8] == body[4..8] && d[12..|body|] == body[12..];
  }

  lemma BodyLayout(at: LogicalKey)
    ensures var k := KeyBody(at); k[0..4] == U32(at.factoryId) && k[4..8] == U32(at.classId) && k[12..] == at.key
  {
  }

  // ---- decodings ----

  /** `ReadKey` on the bytes of a row key; the marker is read and not compared. */
  function ParseKey(b: bytes): Result<(u32, LogicalKey)> {
    var (_, b) :- GetString(b);
    ParseBody(b)
  }

  function ParseBody(b: bytes): Result<(u32, LogicalKey)> {
    var (prefix, b) :- GetU32(b);
    var at :- ParseAt(b);
    Ok((prefix, at))
  }

  function ParseAt(b: bytes): Result<LogicalKey> {
    var (fid, b) :- GetU32(b);
    var (cid, b) :- GetU32(b);
    var (klen, b) :- GetI32(b);
    var (key, _) :- GetSome(b, klen);
    Ok(LogicalKey(fid, cid, key))
  }

  /** `Read` on the bytes of an index value. */
  function ParseHeader(b: bytes): Result<Header> {
    var (rev, b) :- GetU64(b);
    var (ts, b) :- GetU64(b);
    var (size, b) :- GetU32(b);
    var (updatable, b) :- GetBool(b);
    var (state, _) :- GetU32(b);
    Ok(Header(rev, ts, size, updatable, state))
  }

  // ---- round trips ----

  lemma ParseWrittenAt(at: LogicalKey)
    requires |at.key| < 0x8000_0000
    ensures ParseAt(KeyBody(at)) == Ok(at)
  {
    var n: i32 := |at.key|;
    var k4 := I32(n) + at.key;
    var k3 := U32(at.classId) + k4;
    assert KeyBody(at) == U32(at.factoryId) + k3;
    GetU32Written(at.factoryId, k3);
    GetU32Written(at.classId, k4);
    GetI32Written(n, at.key);
  }

  lemma ParseWrittenBody(prefix: u32, at: LogicalKey)
    requires |at.key| < 0x8000_0000
    ensures ParseBody(U32(prefix) + KeyBody(at)) == Ok((prefix, at))
  {
    GetU32Written(prefix, KeyBody(at));
    ParseWrittenAt(at);
  }

  lemma ParseWrittenKey(prefix: u32, at: LogicalKey)
    requires |at.key| < 0x8000_0000
    ensures ParseKey(IndexKey(prefix, at)) == Ok((prefix, at))
  {
    GetStringWritten(INDEX_PREFIX, U32(prefix) + KeyBody(at));
    ParseWrittenBody(prefix, at);
  }

  lemma ParseWrittenHeader(h: Header)
    ensures ParseHeader(HeaderRow(h)) == Ok(h)
  {
    var h4 := U32(h.state) + [];
    var h3 := [BoolByte(h.updatable)] + U32(h.state);
    var h2 := U32(h.size) + h3;
    var h1 := U64(h.timestamp) + h2;
    GetU64Written(h.revision, h1);
    GetU64Written(h.timestamp, h2);
    GetU32Written(h.size, h3);
    GetBoolWritten(h.updatable, U32(h.state));
    GetU32Written(h.state, []);
    assert h4 == U32(h.state);
  }

  // ---- injectivity, prefix-freeness, no collision ----

  lemma AppendSplit(a: bytes, x: bytes, b: bytes, y: bytes)
    requires a + x == b + y && |a| == |b|
    ensures a == b && x == y
  {
    assert a == (a + x)[..|a|] && b == (b + y)[..|b|];
    assert x == (a + x)[|a|..] && y == (b + y)[|b|..];
  }

  /** Key bodies are prefix-free: followed by anything, they can be told apart. */
  lemma KeyBodySplit(a: LogicalKey, x: bytes, b: LogicalKey, y: bytes)
    requires |a.key| < 0x1_0000_0000 && |b.key| < 0x1_0000_0000
    requires KeyBody(a) + x == KeyBody(b) + y
    ensures a == b && x == y
  {
    var (la, lb) := (U32(Length32(|a.key|)), U32(Length32(|b.key|)));
    assert KeyBody(a) + x == U32(a.factoryId) + (U32(a.classId) + (la + (a.key + x)));
    assert KeyBody(b) + y == U32(b.factoryId) + (U32(b.classId) + (lb + (b.key + y)));
    AppendSplit(U32(a.factoryId), U32(a.classId) + (la + (a.key + x)),
                U32(b.factoryId), U32(b.classId) + (lb + (b.key + y)));
    AppendSplit(U32(a.classId), la + (a.key + x), U32(b.classId), lb + (b.key + y));
    AppendSplit(la, a.key + x, lb, b.key + y);
    U32Injective(a.factoryId, b.factoryId);
    U32Injective(a.classId, b.classId);
    U32Injective(Length32(|a.key|), Length32(|b.key|));
    AppendSplit(a.key, x, b.key, y);
  }

  /** Index keys are injective and none is a proper prefix of another. */
  lemma IndexKeysPrefixFree(p: u32, a: LogicalKey, q: u32, b: LogicalKey)
    requires |a.key| < 0x1_0000_0000 && |b.key| < 0x1_0000_0000
    requires IndexKey(p, a) <= IndexKey(q, b)
    ensures p == q && a == b
  {
    var x := IndexKey(q, b)[|IndexKey(p, a)|..];
    assert IndexKey(p, a) + x == IndexKey(q, b) + [];
    IndexKeySplit(p, a, x, q, b, []);
  }

  lemma IndexKeySplit(p: u32, a: LogicalKey, x: bytes, q: u32, b: LogicalKey, y: bytes)
    requires |a.key| < 0x1_0000_0000 && |b.key| < 0x1_0000_0000
    requires IndexKey(p, a) + x == IndexKey(q, b) + y
    ensures p == q && a == b && x == y
  {
    var m, ka, kb := IndexMarker(), KeyBody(a), KeyBody(b);
    AppendAssociates(m, U32(p), ka, x);
    AppendAssociates(m, U32(q), kb, y);
    AppendSplit(m, U32(p) + (ka + x), m, U32(q) + (kb + y));
    AppendSplit(U32(p), ka + x, U32(q), kb + y);
    U32Injective(p, q);
    KeyBodySplit(a, x, b, y);
  }

  lemma AppendAssociates(a: bytes, b: bytes, c: bytes, d: bytes)
    ensures (a + (b + c)) + d == a + (b + (c + d))
  {
  }

  /** So are data keys. */
  lemma DataKeysPrefixFree(a: LogicalKey, r: u64, b: LogicalKey, s: u64)
    requires |a.key| < 0x1_0000_0000 && |b.key| < 0x1_0000_0000
    requires DataKey(a, r) <= DataKey(b, s)
    ensures a == b && r == s
  {
    var x := DataKey(b, s)[|DataKey(a, r)|..];
    assert KeyBody(a) + (U64(r) + x) == KeyBody(b) + U64(s);
    KeyBodySplit(a, U64(r) + x, b, U64(s));
    assert U64(r) + x == U64(s) + [];
    AppendSplit(U64(r), x, U64(s), []);
    U64Injective(r, s);
  }

  /**
   * No data key of a storable user key starts with the index marker, for any factory: the ninth byte is the top
   * byte of the key length, and the marker has the letter `K` there.
   */
  lemma DataKeyIsNoIndexKey(at: LogicalKey, revision: u64)
    requires |at.key| < 0x100_0000
    ensures !(IndexMarker() <= DataKey(at, revision))
  {
    var d := DataKey(at, revision);
    Spans();
    LeadingZero(Length32(|at.key|), 4);
    assert d[8] == U32(Length32(|at.key|))[0];
    assert IndexMarker()[8] == 0x4B;
  }

  /** The first eight bytes of a data key are its factory and class, which is what a query seeks. */
  function ClassPrefix(factoryId: u32, classId: u32): (r: bytes)
    ensures |r| == 8
  {
    U32(factoryId) + U32(classId)
  }

  lemma DataKeyHasClassPrefix(f: u32, c: u32, at: LogicalKey, revision: u64)
    ensures ClassPrefix(f, c) <= DataKey(at, revision) <==> f == at.factoryId && c == at.classId
  {
    var d := DataKey(at, revision);
    assert d[..8] == ClassPrefix(at.factoryId, at.classId);
    assert ClassPrefix(f, c) <= d <==> ClassPrefix(f, c) == d[..8];
    if ClassPrefix(f, c) == ClassPrefix(at.factoryId, at.classId) {
      AppendSplit(U32(f), U32(c), U32(at.factoryId), U32(at.classId));
      U32Injective(f, at.factoryId);
      U32Injective(c, at.classId);
    }
  }

  /** The one class whose prefix is also the start of every index row. */
  const MARKER_FACTORY: u32 := 10
  const MARKER_CLASS: u32 := 0x245F_5F5F

  lemma IndexKeyHasClassPrefix(f: u32, c: u32, prefix: u32, at: LogicalKey)
    ensures ClassPrefix(f, c) <= IndexKey(prefix, at) <==> f == MARKER_FACTORY && c == MARKER_CLASS
  {
    var k := IndexKey(prefix, at);
    assert k[..8] == U32(10) + INDEX_PREFIX[..4];
    MarkerClassBytes();
    assert ClassPrefix(f, c) <= k <==> ClassPrefix(f, c) == k[..8];
    if ClassPrefix(f, c) == k[..8] {
      AppendSplit(U32(f), U32(c), U32(MARKER_FACTORY), U32(MARKER_CLASS));
      U32Injective(f, MARKER_FACTORY);
      U32Injective(c, MARKER_CLASS);
    }
  }

  lemma MarkerClassBytes()
    ensures U32(MARKER_CLASS) == INDEX_PREFIX[..4]
  {
    assert BigEndian(0x24, 1) == [0x24];
    assert BigEndian(0x245F, 2) == [0x24, 0x5F];
    assert BigEndian(0x245F_5F, 3) == [0x24, 0x5F, 0x5F];
    assert BigEndian(0x245F_5F5F, 4) == [0x24, 0x5F, 0x5F, 0x5F];
  }

  // ---- the methods that build and read rows ----

  /** `WriteKey`. */
  method WriteKey(ki: KeyIndex, buffer: ByteBuffer) returns (ok: bool)
    requires buffer.Valid() && buffer.pos == 0
    modifies buffer`pos, buffer.data
    ensures buffer.Valid()
    ensures ok <==> 30 + |ki.at.key| <= buffer.limit
    ensures ok ==> buffer.Written() == IndexKey(ki.prefix, ki.at)
  {
    ok := buffer.WriteString(INDEX_PREFIX);
    if !ok { return; }
    ok := buffer.WriteUInt32(ki.prefix);
    if !ok { return; }
    ok := buffer.WriteUInt32(ki.at.factoryId);
    if !ok { return; }
    ok := buffer.WriteUInt32(ki.at.classId);
    if !ok { return; }
    ok := buffer.WriteUInt32(Length32(|ki.at.key|));
    if !ok { return; }
    ok := buffer.Write(ki.at.key);
    IndexKeyByParts(ki.prefix, ki.at);
  }

  lemma IndexKeyByParts(prefix: u32, at: LogicalKey)
    ensures IndexKey(prefix, at)
         == [] + IndexMarker() + U32(prefix) + U32(at.factoryId) + U32(at.classId) + U32(Length32(|at.key|)) + at.key
  {
  }

  /** `Write`: the index value. */
  method WriteHeader(h: Header, buffer: ByteBuffer) returns (ok: bool)
    requires buffer.Valid() && buffer.pos == 0
    modifies buffer`pos, buffer.data
    ensures buffer.Valid()
    ensures ok <==> 25 <= buffer.limit
    ensures ok ==> buffer.Written() == HeaderRow(h)
  {
    ok := buffer.WriteUInt64(h.revision);
    if !ok { return; }
    ok := buffer.WriteUInt64(h.timestamp);
    if !ok { return; }
    ok := buffer.WriteUInt32(h.size);
    if !ok { return; }
    ok := buffer.WriteBool(h.updatable);
    if !ok { return; }
    ok := buffer.WriteUInt32(h.state);
    HeaderRowByParts(h);
  }

  lemma HeaderRowByParts(h: Header)
    ensures HeaderRow(h)
         == [] + U64(h.revision) + U64(h.timestamp) + U32(h.size) + [BoolByte(h.updatable)] + U32(h.state)
  {
  }

  /** `CompositKey`: fails exactly for user keys over 470 bytes. */
  method CompositKey(ki: KeyIndex) returns (r: Result<bytes>)
    ensures r == if |ki.at.key| <= INDEX_KEY_MAX then Ok(IndexKey(ki.prefix, ki.at)) else Err
  {
    var buffer := new ByteBuffer(COMPOSIT_KEY_MAX);
    var ok := WriteKey(ki, buffer);
    if !ok {
      return Err;
    }
    buffer.Flip();
    r := buffer.Read(0);
  }

  /** `Value`: never fails, the row has 25 bytes. */
  method Value(h: Header) returns (r: Result<bytes>)
    ensures r == Ok(HeaderRow(h))
  {
    var buffer := new ByteBuffer(COMPOSIT_KEY_MAX);
    var ok := WriteHeader(h, buffer);
    if !ok {
      return Err;
    }
    buffer.Flip();
    r := buffer.Read(0);
  }

  /** `Pair`: both rows through one buffer, cleared in between. */
  method Pair(ki: KeyIndex) returns (r: Result<(bytes, bytes)>)
    ensures r == if |ki.at.key| <= INDEX_KEY_MAX then Ok((IndexKey(ki.prefix, ki.at), HeaderRow(ki.header))) else Err
  {
    var buffer := new ByteBuffer(COMPOSIT_KEY_MAX);
    var ok := WriteKey(ki, buffer);
    if !ok {
      return Err;
    }
    buffer.Flip();
    var k := buffer.Read(0);
    if k.Err? {
      return Err;
    }
    buffer.Clear();
    ok := WriteHeader(ki.header, buffer);
    if !ok {
      return Err;
    }
    buffer.Flip();
    var v := buffer.Read(0);
    if v.Err? {
      return Err;
    }
    r := Ok((k.value, v.value));
  }

  /** `SetData.DataKey` and `GetData.DataKey`: the size guard, then writes that cannot fail. */
  method MakeDataKey(at: LogicalKey, revision: u64) returns (r: Result<bytes>)
    ensures r == if |at.key| + 20 <= COMPOSIT_KEY_MAX then Ok(DataKey(at, revision)) else Err
  {
    if |at.key| + 20 > COMPOSIT_KEY_MAX {
      return Err;
    }
    var buffer := new ByteBuffer(COMPOSIT_KEY_MAX);
    var ok := buffer.WriteUInt32(at.factoryId);
    ok := buffer.WriteUInt32(at.classId);
    ok := buffer.WriteUInt32(Length32(|at.key|));
    ok := buffer.Write(at.key);
    ok := buffer.WriteUInt64(revision);
    DataKeyByParts(at, revision);
    buffer.Flip();
    r := buffer.Read(0);
  }

  lemma DataKeyByParts(at: LogicalKey, revision: u64)
    ensures DataKey(at, revision)
         == [] + U32(at.factoryId) + U32(at.classId) + U32(Length32(|at.key|)) + at.key + U64(revision)
  {
  }

  /** `Val`: decode an index value. */
  method Val(b: bytes) returns (r: Result<Header>)
    ensures r == if |b| <= COMPOSIT_KEY_MAX then ParseHeader(b) else Err
  {
    var buffer := new ByteBuffer(COMPOSIT_KEY_MAX);
    var ok := buffer.Write(b);
    if !ok {
      return Err;
    }
    buffer.Flip();
    r := ReadHeader(buffer);
  }

  /** `Read` on a buffer. */
  method ReadHeader(buffer: ByteBuffer) returns (r: Result<Header>)
    requires buffer.Valid()
    modifies buffer`pos
    ensures buffer.Valid() && r == ParseHeader(old(buffer.Unread()))
  {
    var rev := buffer.ReadUInt64();
    if rev.Err? { return Err; }
    var ts := buffer.ReadUInt64();
    if ts.Err? { return Err; }
    var sz := buffer.ReadUInt32();
    if sz.Err? { return Err; }
    var mtu := buffer.ReadBool();
    if mtu.Err? { return Err; }
    var st := buffer.ReadUInt32();
    if st.Err? { return Err; }
    r := Ok(Header(rev.value, ts.value, sz.value, mtu.value, st.value));
  }

  /** `ReadKey` on a buffer. */
  method ReadKey(buffer: ByteBuffer) returns (r: Result<(u32, LogicalKey)>)
    requires buffer.Valid()
    modifies buffer`pos
    ensures buffer.Valid() && r == ParseKey(old(buffer.Unread()))
  {
    var marker := buffer.ReadString();
    if marker.Err? { return Err; }
    var prefix := buffer.ReadUInt32();
    if prefix.Err? { return Err; }
    var fid := buffer.ReadUInt32();
    if fid.Err? { return Err; }
    var cid := buffer.ReadUInt32();
    if cid.Err? { return Err; }
    var klen := buffer.ReadInt32();
    if klen.Err? { return Err; }
    var key := buffer.Read(klen.value);
    if key.Err? { return Err; }
    r := Ok((prefix.value, LogicalKey(fid.value, cid.value, key.value)));
  }

  /** `Import`: both rows through one buffer of the given size. */
  method Import(k: bytes, v: bytes, size: nat) returns (r: Result<KeyIndex>)
    ensures r == ImportSpec(k, v, size)
  {
    var buffer := new ByteBuffer(size);
    var ok := buffer.Write(k);
    if !ok { return Err; }
    buffer.Flip();
    var key := ReadKey(buffer);
    if key.Err? { return Err; }
    buffer.Clear();
    ok := buffer.Write(v);
    if !ok { return Err; }
    buffer.Flip();
    var h := ReadHeader(buffer);
    if h.Err? { return Err; }
    r := Ok(KeyIndex(key.value.0, key.value.1, h.value));
  }

  function ImportSpec(k: bytes, v: bytes, size: nat): Result<KeyIndex> {
    if |k| > size then Err
    else
      var (prefix, at) :- ParseKey(k);
      if |v| > size then Err
      else
        var h :- ParseHeader(v);
        Ok(KeyIndex(prefix, at, h))
  }

  /** Importing what `Pair` wrote gives the record back exactly when its key row fits the buffer. */
  lemma ImportUndoesPair(ki: KeyIndex, size: nat)
    requires |ki.at.key| < 0x8000_0000 && size >= 25
    ensures ImportSpec(IndexKey(ki.prefix, ki.at), HeaderRow(ki.header), size)
         == if |ki.at.key| + 30 <= size then Ok(ki) else Err
  {
    ParseWrittenKey(ki.prefix, ki.at);
    ParseWrittenHeader(ki.header);
  }
}
