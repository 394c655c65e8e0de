/**
 * The operations of `local_data_service.go` on the raw byte map, for any bytes and any prefix.  An index row belongs to
 * a prefix and a key, a data row to a key and a revision, so the index rows of one key under different prefixes share
 * its data rows.  `ReadAfter` says for every change what every read then returns.
 */
module Rows {
  import opened Bytes
  import opened KeyCodec
  import opened Versions

  type Db = map<bytes, bytes>

  // ---- rows of different keys never meet ----

  lemma DataKeysApart(a: LogicalKey, r: u64, b: LogicalKey, s: u64)
    requires Storable(a) && Storable(b) && (a != b || r != s)
    ensures DataKey(a, r) != DataKey(b, s)
  {
    if DataKey(a, r) == DataKey(b, s) {
      DataKeysPrefixFree(a, r, b, s);
    }
  }

  lemma IndexAndDataApart(p: u32, a: LogicalKey, b: LogicalKey, s: u64)
    requires Storable(b)
    ensures IndexKey(p, a) != DataKey(b, s)
  {
    DataKeyIsNoIndexKey(b, s);
    assert IndexMarker() <= IndexKey(p, a);
  }

  lemma PlacesApart(p: u32, a: LogicalKey, q: u32, b: LogicalKey)
    requires Storable(a) && Storable(b) && (p != q || a != b)
    ensures IndexKey(p, a) != IndexKey(q, b)
  {
    if IndexKey(p, a) == IndexKey(q, b) {
      IndexKeysPrefixFree(p, a, q, b);
    }
  }

  // ---- reading ----

  /** The header stored for the key under the prefix, if there is one that can be decoded. */
  function HeaderAt(db: Db, p: u32, at: LogicalKey): Result<Header> {
    if !Storable(at) || IndexKey(p, at) !in db || |db[IndexKey(p, at)]| > COMPOSIT_KEY_MAX then Err
    else ParseHeader(db[IndexKey(p, at)])
  }

  /** `get`. */
  function GetAt(db: Db, p: u32, at: LogicalKey): Result<Entry> {
    var h :- HeaderAt(db, p, at);
    if Dead(h) || DataKey(at, h.revision) !in db then Err
    else Ok(Entry(h.(state := 0), db[DataKey(at, h.revision)]))
  }

  // ---- writing ----

  /**
   * What a request does to the rows of its key: nothing, set both, set one and delete the other, or set the index
   * row.
   */
  datatype Change = Keep | Put(header: Header, value: bytes) | Bury(header: Header) | Mark(header: Header)

  function Changed(db: Db, p: u32, at: LogicalKey, c: Change): Db {
    match c
    case Keep => db
    case Put(h, value) => db[IndexKey(p, at) := HeaderRow(h)][DataKey(at, h.revision) := value]
    case Bury(h) => db[IndexKey(p, at) := HeaderRow(h)] - {DataKey(at, h.revision)}
    case Mark(h) => db[IndexKey(p, at) := HeaderRow(h)]
  }

  function CreateChange(db: Db, q: Request, now: u64): Change {
    if !Storable(q.at) then Keep
    else if IndexKey(q.prefix, q.at) !in db then Put(Created(q, now), q.value)
    else match HeaderAt(db, q.prefix, q.at)
         case Err => Keep
         case Ok(h) => if Dead(h) then Put(Created(q, now), q.value) else Keep
  }

  function UpdateChange(db: Db, q: Request, now: u64): Change {
    match HeaderAt(db, q.prefix, q.at)
    case Err => Keep
    case Ok(h) => if h.updatable && h.revision == q.revision then Put(Updated(h, q, now), q.value) else Keep
  }

  function DeleteChange(db: Db, q: Request): Change {
    match HeaderAt(db, q.prefix, q.at)
    case Err => Keep
    case Ok(h) => if h.updatable && !Dead(h) then Bury(Deleted(h)) else Keep
  }

  function ResetChange(db: Db, q: Request, now: u64): Change {
    match HeaderAt(db, q.prefix, q.at)
    case Err => Keep
    case Ok(h) => if h.updatable then Put(Restarted(h, q, now), q.value) else Keep
  }

  function ChangeOf(db: Db, c: Call): Change {
    match c.op
    case Create => CreateChange(db, c.q, c.now)
    case Update => UpdateChange(db, c.q, c.now)
    case Delete => DeleteChange(db, c.q)
    case Reset => ResetChange(db, c.q, c.now)
  }

  /** The answer to a request; over a tombstone `create` returns the header of the tombstone, not the one written. */
  function ReplyOf(db: Db, c: Call): Result<Header> {
    match ChangeOf(db, c)
    case Keep => Err
    case Put(h, _) =>
      if c.op.Create? && IndexKey(c.q.prefix, c.q.at) in db then HeaderAt(db, c.q.prefix, c.q.at) else Ok(h)
    case Bury(h) => Ok(h)
    case Mark(h) => Ok(h)
  }

  function ApplyAt(db: Db, c: Call): Db {
    Changed(db, c.q.prefix, c.q.at, ChangeOf(db, c))
  }

  function RunAt(db: Db, calls: seq<Call>): Db {
    if calls == [] then db else ApplyAt(RunAt(db, calls[..|calls| - 1]), calls[|calls| - 1])
  }

  /** Only tombstones are written without a value. */
  ghost predicate Proper(c: Change) {
    c.Bury? || c.Mark? ==> Dead(c.header)
  }

  // ---- what every read returns after every change ----

  lemma HeaderAfter(db: Db, p: u32, at: LogicalKey, c: Change, q: u32, b: LogicalKey)
    requires Storable(at)
    ensures HeaderAt(Changed(db, p, at, c), q, b)
         == if !c.Keep? && q == p && b == at then Ok(c.header) else HeaderAt(db, q, b)
  {
    if !c.Keep? && Storable(b) {
      ParseWrittenHeader(c.header);
      IndexAndDataApart(q, b, at, c.header.revision);
      if q != p || b != at {
        PlacesApart(p, at, q, b);
      }
    }
  }

  lemma IndexRowAfter(db: Db, p: u32, at: LogicalKey, c: Change)
    requires Storable(at) && !c.Keep?
    ensures var k, db' := IndexKey(p, at), Changed(db, p, at, c); k in db' && db'[k] == HeaderRow(c.header)
  {
    IndexAndDataApart(p, at, at, c.header.revision);
  }

  lemma DataAfter(db: Db, p: u32, at: LogicalKey, c: Change, b: LogicalKey, r: u64)
    requires Storable(at) && Storable(b)
    ensures var db' := Changed(db, p, at, c);
            if (c.Put? || c.Bury?) && b == at && r == c.header.revision
            then (DataKey(b, r) in db' <==> c.Put?) && (c.Put? ==> db'[DataKey(b, r)] == c.value)
            else SameRow(db', db, DataKey(b, r))
  {
    if !c.Keep? {
      IndexAndDataApart(p, at, b, r);
      if b != at || r != c.header.revision {
        DataKeysApart(b, r, at, c.header.revision);
      }
    }
  }

  /** The key is live under prefix `q`, at the very revision whose data row the change sets or deletes. */
  predicate Collides(db: Db, at: LogicalKey, c: Change, q: u32) {
    match HeaderAt(db, q, at)
    case Err => false
    case Ok(h) => !Dead(h) && (c.Put? || c.Bury?) && h.revision == c.header.revision
  }

  /**
   * Under its own prefix a key reads as it was written.  Under another prefix it keeps its header; its value is
   * replaced or lost exactly when the revisions collide.  No other key is affected.
   */
  lemma ReadAfter(db: Db, p: u32, at: LogicalKey, c: Change, q: u32, b: LogicalKey)
    requires Storable(at) && Proper(c)
    ensures GetAt(Changed(db, p, at, c), q, b)
         == if c.Keep? || b != at then GetAt(db, q, b)
            else if q == p then
              if c.Put? && !Dead(c.header) then Ok(Entry(c.header.(state := 0), c.value)) else Err
            else if Collides(db, at, c, q) then
              if c.Put? then Ok(Entry(HeaderAt(db, q, at).value.(state := 0), c.value)) else Err
            else GetAt(db, q, at)
  {
    HeaderAfter(db, p, at, c, q, b);
    var h := HeaderAt(Changed(db, p, at, c), q, b);
    if h.Ok? {
      DataAfter(db, p, at, c, b, h.value.revision);
    }
  }

  /**
   * Reads under other prefixes are independent of a change if and only if it does not collide, or sets the value that
   * is read already, or deletes a data row that is missing already.
   */
  lemma ReadUnchangedIff(db: Db, p: u32, at: LogicalKey, c: Change, q: u32)
    requires Storable(at) && Proper(c) && q != p
    ensures GetAt(Changed(db, p, at, c), q, at) == GetAt(db, q, at)
       <==> Collides(db, at, c, q) ==>
              var r := GetAt(db, q, at);
              if c.Put? then r.Ok? && r.value.value == c.value else r.Err?
  {
    ReadAfter(db, p, at, c, q, at);
  }

  lemma CallsAreProper(db: Db, c: Call)
    ensures Proper(ChangeOf(db, c)) && (!ChangeOf(db, c).Keep? ==> Storable(c.q.at))
  {
  }

  /** A refused request changes no byte. */
  lemma RefusedKeepsBytes(db: Db, c: Call)
    ensures ReplyOf(db, c).Err? ==> ApplyAt(db, c) == db
  {
  }

  // ---- runs: headers and replies of one place ignore all others ----

  /** The calls for the key under the prefix. */
  function Only(calls: seq<Call>, p: u32, at: LogicalKey): seq<Call> {
    if calls == [] then []
    else
      var rest, c := Only(calls[..|calls| - 1], p, at), calls[|calls| - 1];
      if c.q.prefix == p && c.q.at == at then rest + [c] else rest
  }

  ghost predicate SameRow(db: Db, db': Db, k: bytes) {
    (k in db <==> k in db') && (k in db ==> db[k] == db'[k])
  }

  lemma SameRowSameReply(db: Db, db': Db, c: Call)
    requires SameRow(db, db', IndexKey(c.q.prefix, c.q.at))
    ensures ChangeOf(db, c) == ChangeOf(db', c) && ReplyOf(db, c) == ReplyOf(db', c)
  {
    assert HeaderAt(db, c.q.prefix, c.q.at) == HeaderAt(db', c.q.prefix, c.q.at);
  }

  lemma RowAfter(db: Db, c: Call, p: u32, at: LogicalKey)
    requires Storable(at)
    ensures var k, change := IndexKey(p, at), ChangeOf(db, c);
            if c.q.prefix == p && c.q.at == at && !change.Keep?
            then k in ApplyAt(db, c) && ApplyAt(db, c)[k] == HeaderRow(change.header)
            else SameRow(ApplyAt(db, c), db, k)
  {
    var change := ChangeOf(db, c);
    CallsAreProper(db, c);
    if !change.Keep? {
      IndexAndDataApart(p, at, c.q.at, change.header.revision);
      if c.q.prefix != p || c.q.at != at {
        PlacesApart(p, at, c.q.prefix, c.q.at);
      }
    }
  }

  /**
   * In every run, with any prefixes, the index row of a key under a prefix is where the calls for that key and prefix
   * alone would have left it.  So which calls are accepted, and the revisions they leave, never depend on other
   * prefixes; only values can collide.
   */
  lemma {:induction false} PlacesAreIndependent(db: Db, calls: seq<Call>, p: u32, at: LogicalKey)
    requires Storable(at)
    ensures SameRow(RunAt(db, calls), RunAt(db, Only(calls, p, at)), IndexKey(p, at))
  {
    if calls != [] {
      var init, c := calls[..|calls| - 1], calls[|calls| - 1];
      PlacesAreIndependent(db, init, p, at);
      var all, own := RunAt(db, init), RunAt(db, Only(init, p, at));
      RowAfter(all, c, p, at);
      if c.q.prefix == p && c.q.at == at {
        RowAfter(own, c, p, at);
        SameRowSameReply(all, own, c);
        var only := Only(calls, p, at);
        assert only[..|only| - 1] == Only(init, p, at);
      }
    }
  }

  /** An accepted delete leaves the data row of the revision it deletes, and none of the revision it writes. */
  lemma DeleteKeepsOldRow(db: Db, q: Request, now: u64, h: Header)
    requires Storable(q.at) && HeaderAt(db, q.prefix, q.at) == Ok(h) && h.updatable && !Dead(h)
    ensures var db' := ApplyAt(db, Call(Delete, q, now));
            SameRow(db', db, DataKey(q.at, h.revision)) && DataKey(q.at, Next(h.revision)) !in db'
  {
    DataAfter(db, q.prefix, q.at, Bury(Deleted(h)), q.at, h.revision);
    DataAfter(db, q.prefix, q.at, Bury(Deleted(h)), q.at, Next(h.revision));
  }
}
