/**
 * The local store of `local_data_service.go`: one flat byte map that holds an index row per logical key and a
 * data row per stored revision.  On any bytes every operation does what `Rows` says; as long as every key is created
 * under one prefix it refines its counterpart on `Versions`.
 */
module Store {
  import opened Bytes
  import opened KeyCodec
  import V = Versions
  import opened VersionTypes = Versions
  import opened Rows

  /** The ring prefix a logical key is stored under.  Data rows carry no prefix, so there must be only one. */
  type Route = LogicalKey -> u32

  /** The rows of `at` spell the entry `e`; a live entry has its data row at the stored revision. */
  ghost predicate RowsSpell(db: Db, route: Route, at: LogicalKey, e: Entry) {
    && IndexKey(route(at), at) in db && db[IndexKey(route(at), at)] == HeaderRow(e.header)
    && if Dead(e.header) then e.value == []
       else DataKey(at, e.header.revision) in db && db[DataKey(at, e.header.revision)] == e.value
  }

  ghost predicate IsIndexKey(route: Route, k: bytes) {
    exists at :: Storable(at) && k == IndexKey(route(at), at)
  }

  ghost predicate IsDataKey(k: bytes) {
    exists at, r :: Storable(at) && k == DataKey(at, r)
  }

  /** The representation invariant. */
  ghost predicate Refines(db: Db, route: Route, m: V.Map) {
    && (forall at :: at in m ==> Storable(at) && RowsSpell(db, route, at, m[at]))
    && (forall at :: Storable(at) && IndexKey(route(at), at) in db ==> at in m)
    && (forall k :: k in db ==> IsIndexKey(route, k) || IsDataKey(k))
  }

  // ---- rows of different keys never meet ----

  lemma IndexKeysApart(route: Route, a: LogicalKey, b: LogicalKey)
    requires Storable(a) && Storable(b) && a != b
    ensures IndexKey(route(a), a) != IndexKey(route(b), b)
  {
    if IndexKey(route(a), a) == IndexKey(route(b), b) {
      IndexKeysPrefixFree(route(a), a, route(b), b);
    }
  }

  /** `db'` differs from `db` only in the index row of `at` and its data row at revision `r`. */
  ghost predicate ChangesOnly(db: Db, db': Db, route: Route, at: LogicalKey, r: u64) {
    forall k :: k != IndexKey(route(at), at) && k != DataKey(at, r) ==>
      (k in db <==> k in db') && (k in db ==> db[k] == db'[k])
  }

  lemma OtherRowsStay(db: Db, db': Db, route: Route, at: LogicalKey, r: u64, b: LogicalKey, e: Entry)
    requires Storable(at) && Storable(b) && b != at && ChangesOnly(db, db', route, at, r)
    ensures RowsSpell(db, route, b, e) ==> RowsSpell(db', route, b, e)
    ensures IndexKey(route(b), b) in db' ==> IndexKey(route(b), b) in db
  {
    IndexKeysApart(route, at, b);
    DataKeysApart(at, r, b, e.header.revision);
    IndexAndDataApart(route(at), at, b, e.header.revision);
    IndexAndDataApart(route(b), b, at, r);
  }

  /** Rewriting the rows of one key rewrites its entry and nothing else. */
  lemma ReplaceRows(db: Db, db': Db, route: Route, m: V.Map, at: LogicalKey, r: u64, e: Entry)
    requires Refines(db, route, m) && Storable(at)
    requires ChangesOnly(db, db', route, at, r) && RowsSpell(db', route, at, e)
    ensures Refines(db', route, m[at := e])
  {
    var m' := m[at := e];
    forall b | b in m' ensures Storable(b) && RowsSpell(db', route, b, m'[b]) {
      if b != at {
        EntryStays(db, db', route, m, at, r, b);
      }
    }
    forall b | Storable(b) && IndexKey(route(b), b) in db' ensures b in m' {
      if b != at {
        AbsenceStays(db, db', route, m, at, r, b);
      }
    }
    OnlyRowsStay(db, db', route, at, r);
  }

  lemma EntryStays(db: Db, db': Db, route: Route, m: V.Map, at: LogicalKey, r: u64, b: LogicalKey)
    requires Refines(db, route, m) && Storable(at) && ChangesOnly(db, db', route, at, r) && b in m && b != at
    ensures Storable(b) && RowsSpell(db', route, b, m[b])
  {
    OtherRowsStay(db, db', route, at, r, b, m[b]);
  }

  lemma AbsenceStays(db: Db, db': Db, route: Route, m: V.Map, at: LogicalKey, r: u64, b: LogicalKey)
    requires Refines(db, route, m) && Storable(at) && ChangesOnly(db, db', route, at, r) && b != at
    requires Storable(b) && IndexKey(route(b), b) in db'
    ensures b in m
  {
    OtherRowsStay(db, db', route, at, r, b, Entry(Header(0, 0, 0, false, 0), []));
  }

  lemma OnlyRowsStay(db: Db, db': Db, route: Route, at: LogicalKey, r: u64)
    requires Storable(at) && ChangesOnly(db, db', route, at, r)
    requires forall k :: k in db ==> IsIndexKey(route, k) || IsDataKey(k)
    ensures forall k :: k in db' ==> IsIndexKey(route, k) || IsDataKey(k)
  {
    forall k | k in db' ensures IsIndexKey(route, k) || IsDataKey(k) {
      if k != IndexKey(route(at), at) && k != DataKey(at, r) {
        assert k in db;
      }
    }
  }

  lemma WriteBothRows(db: Db, route: Route, m: V.Map, at: LogicalKey, h: Header, value: bytes)
    requires Refines(db, route, m) && Storable(at)
    ensures Refines(db[IndexKey(route(at), at) := HeaderRow(h)][DataKey(at, h.revision) := value], route,
                    m[at := MakeEntry(h, value)])
  {
    var db' := db[IndexKey(route(at), at) := HeaderRow(h)][DataKey(at, h.revision) := value];
    IndexAndDataApart(route(at), at, at, h.revision);
    ReplaceRows(db, db', route, m, at, h.revision, MakeEntry(h, value));
  }

  lemma WriteTombstone(db: Db, route: Route, m: V.Map, at: LogicalKey, h: Header, value: bytes)
    requires Refines(db, route, m) && Storable(at) && Dead(h)
    ensures Refines(db[IndexKey(route(at), at) := HeaderRow(h)] - {DataKey(at, h.revision)}, route,
                    m[at := MakeEntry(h, value)])
    ensures Refines(db[IndexKey(route(at), at) := HeaderRow(h)], route, m[at := MakeEntry(h, value)])
  {
    var db1 := db[IndexKey(route(at), at) := HeaderRow(h)];
    var db2 := db1 - {DataKey(at, h.revision)};
    IndexAndDataApart(route(at), at, at, h.revision);
    ReplaceRows(db, db1, route, m, at, h.revision, MakeEntry(h, value));
    ReplaceRows(db, db2, route, m, at, h.revision, MakeEntry(h, value));
  }

  lemma StoredHeaderParses(db: Db, route: Route, m: V.Map, at: LogicalKey)
    requires Refines(db, route, m) && at in m
    ensures Storable(at) && IndexKey(route(at), at) in db
    ensures HeaderAt(db, route(at), at) == Ok(m[at].header)
  {
    ParseWrittenHeader(m[at].header);
  }

  /** The key has no index row under any other prefix. */
  lemma OtherPrefixIsAbsent(db: Db, route: Route, m: V.Map, at: LogicalKey, p: u32)
    requires Refines(db, route, m) && Storable(at) && p != route(at)
    ensures IndexKey(p, at) !in db
  {
    var k := IndexKey(p, at);
    forall b, r | Storable(b) ensures k != DataKey(b, r) {
      IndexAndDataApart(p, at, b, r);
    }
    forall b | Storable(b) ensures k != IndexKey(route(b), b) {
      if k == IndexKey(route(b), b) {
        IndexKeysPrefixFree(p, at, route(b), b);
      }
    }
  }

  /** A key is read under its own prefix as the versioned map has it, and under no other prefix. */
  lemma ReadUnderItsPrefix(db: Db, route: Route, m: V.Map, at: LogicalKey, p: u32)
    requires Refines(db, route, m)
    ensures GetAt(db, p, at) == if p == route(at) then V.Get(m, at) else Err
  {
    if Storable(at) && p != route(at) {
      OtherPrefixIsAbsent(db, route, m, at, p);
    }
    if at in m {
      StoredHeaderParses(db, route, m, at);
    }
  }

  /** The calls that carry the prefix of their key. */
  function Routed(calls: seq<Call>, route: Route): seq<Call> {
    if calls == [] then []
    else
      var rest, c := Routed(calls[..|calls| - 1], route), calls[|calls| - 1];
      if c.q.prefix == route(c.q.at) then rest + [c] else rest
  }

  /** On rows that represent `m`, headers are read as `m` has them. */
  lemma HeadersRefine(db: Db, route: Route, m: V.Map, at: LogicalKey, p: u32)
    requires Refines(db, route, m)
    ensures HeaderAt(db, p, at) == if p == route(at) && at in m then Ok(m[at].header) else Err
    ensures Storable(at) ==> (IndexKey(p, at) in db <==> p == route(at) && at in m)
  {
    if Storable(at) && p != route(at) {
      OtherPrefixIsAbsent(db, route, m, at, p);
    }
    if at in m {
      StoredHeaderParses(db, route, m, at);
    }
  }

  /** What the versioned map answers. */
  function Reply(m: V.Map, c: Call): Result<Header> {
    if !V.Accepts(m, c) then Err
    else if c.op.Create? && c.q.at in m then Ok(m[c.q.at].header)
    else Ok(V.NewHeader(m, c))
  }

  lemma ChangeFromHeader(db: Db, m: V.Map, c: Call)
    requires HeaderAt(db, c.q.prefix, c.q.at) == if c.q.at in m then Ok(m[c.q.at].header) else Err
    requires c.q.at in m ==> Storable(c.q.at)
    requires Storable(c.q.at) ==> (IndexKey(c.q.prefix, c.q.at) in db <==> c.q.at in m)
    ensures ReplyOf(db, c) == Reply(m, c)
    ensures ChangeOf(db, c)
         == if !V.Accepts(m, c) then Keep
            else if c.op.Delete? then Bury(V.NewHeader(m, c)) else Put(V.NewHeader(m, c), c.q.value)
  {
  }

  /** A call under the prefix of its key does what the versioned map does. */
  lemma CallRefines(db: Db, route: Route, m: V.Map, c: Call)
    requires Refines(db, route, m) && c.q.prefix == route(c.q.at)
    ensures ReplyOf(db, c) == Reply(m, c)
    ensures Refines(ApplyAt(db, c), route, V.Apply(m, c))
  {
    HeadersRefine(db, route, m, c.q.at, c.q.prefix);
    ChangeFromHeader(db, m, c);
    CallsAreProper(db, c);
    ChangedRefines(db, route, m, c.q.at, ChangeOf(db, c), c.q.value);
  }

  lemma ChangedRefines(db: Db, route: Route, m: V.Map, at: LogicalKey, change: Change, value: bytes)
    requires Refines(db, route, m) && (!change.Keep? ==> Storable(at)) && Proper(change)
    requires change.Put? ==> change.value == value
    ensures Refines(Changed(db, route(at), at, change), route,
                    if change.Keep? then m else m[at := MakeEntry(change.header, value)])
  {
    match change
    case Keep =>
    case Put(h, _) => WriteBothRows(db, route, m, at, h, value);
    case Bury(h) => WriteTombstone(db, route, m, at, h, value);
    case Mark(h) => WriteTombstone(db, route, m, at, h, value);
  }

  /** Under another prefix only `create` has an effect: it adds a second index row. */
  lemma ForeignCall(db: Db, route: Route, m: V.Map, c: Call)
    requires Refines(db, route, m) && c.q.prefix != route(c.q.at)
    ensures ChangeOf(db, c)
         == if c.op.Create? && Storable(c.q.at) then Put(Created(c.q, c.now), c.q.value) else Keep
  {
    HeadersRefine(db, route, m, c.q.at, c.q.prefix);
  }

  /**
   * The store; `view` is the versioned map that its bytes represent, as long as creates use the prefix of their key.
   */
  class LocalStore {
    var db: Db
    ghost var view: V.Map
    ghost const route: Route

    ghost predicate Valid()
      reads this
    {
      Refines(db, route, view)
    }

    constructor (ghost route: Route)
      ensures Valid() && view == map[] && db == map[] && this.route == route
    {
      this.db, this.view, this.route := map[], map[], route;
    }

    /** The call carries the prefix of its key, or has no effect under another. */
    ghost predicate Harmless(c: Call) {
      c.q.prefix == route(c.q.at) || !c.op.Create?
    }

    /** The view after a call. */
    ghost function Next(c: Call): V.Map
      reads this
    {
      if c.q.prefix == route(c.q.at) then V.Apply(view, c) else view
    }

    /** A transaction commits. */
    method Commit(db': Db, ghost c: Call)
      requires db' == ApplyAt(db, c)
      modifies this
      ensures db == db' && view == old(Next(c))
      ensures old(Valid()) && Harmless(c) ==> Valid()
    {
      if Valid() && c.q.prefix == route(c.q.at) {
        CallRefines(db, route, view, c);
      } else if Valid() {
        ForeignCall(db, route, view, c);
      }
      view := Next(c);
      db := db';
    }

    /** The composite key, and the header stored under it: how every transaction but `create` starts. */
    method Lookup(ki: KeyIndex) returns (k: Result<bytes>, h: Result<Header>)
      ensures k == if Storable(ki.at) then Ok(IndexKey(ki.prefix, ki.at)) else Err
      ensures h == HeaderAt(db, ki.prefix, ki.at)
    {
      h := Err;
      k := CompositKey(ki);
      if k.Ok? && k.value in db {
        h := Val(db[k.value]);
      }
    }

    method Create(q: Request, now: u64) returns (r: Result<Header>)
      modifies this
      ensures var c := Call(V.Create, q, now);
              && db == ApplyAt(old(db), c) && r == ReplyOf(old(db), c) && view == old(Next(c))
              && (old(Valid()) && q.prefix == route(q.at) ==> Valid() && r == Reply(old(view), c))
    {
      ghost var c := Call(V.Create, q, now);
      if Valid() && q.prefix == route(q.at) {
        CallRefines(db, route, view, c);
      }
      r := Err;
      var h, db' := Created(q, now), db;
      var pair := Pair(KeyIndex(q.prefix, q.at, h));
      var dk := MakeDataKey(q.at, h.revision);
      if pair.Ok? && dk.Ok? {
        var existing: Result<Header> := Ok(h.(state := DATA_STATE_DELETED));
        r := Ok(h);
        if pair.value.0 in db {
          existing := Val(db[pair.value.0]);
          r := existing;
        }
        if existing.Err? || existing.value.state != DATA_STATE_DELETED {
          r := Err;
        } else {
          db' := db[pair.value.0 := pair.value.1][dk.value := q.value];
        }
      }
      Commit(db', c);
    }

    method Update(q: Request, now: u64) returns (r: Result<Header>)
      modifies this
      ensures var c := Call(V.Update, q, now);
              && db == ApplyAt(old(db), c) && r == ReplyOf(old(db), c) && view == old(Next(c))
              && (old(Valid()) ==> Valid() && r == if q.prefix == route(q.at) then Reply(old(view), c) else Err)
    {
      ghost var c := Call(V.Update, q, now);
      Answers(c);
      r := Err;
      var db' := db;
      var k, found := Lookup(KeyIndex(q.prefix, q.at, Header(q.revision, 0, 0, q.updatable, q.state)));
      if k.Ok? && found.Ok? && found.value.updatable && found.value.revision == q.revision {
        var h := Updated(found.value, q, now);
        db' := PutBoth(k.value, q.at, h, q.value);
        r := Ok(h);
      }
      Commit(db', c);
    }

    method Reset(q: Request, now: u64) returns (r: Result<Header>)
      modifies this
      ensures var c := Call(V.Reset, q, now);
              && db == ApplyAt(old(db), c) && r == ReplyOf(old(db), c) && view == old(Next(c))
              && (old(Valid()) ==> Valid() && r == if q.prefix == route(q.at) then Reply(old(view), c) else Err)
    {
      ghost var c := Call(V.Reset, q, now);
      Answers(c);
      r := Err;
      var db' := db;
      var k, found := Lookup(KeyIndex(q.prefix, q.at, Header(q.revision, 0, 0, q.updatable, q.state)));
      if k.Ok? && found.Ok? && found.value.updatable {
        var h := Restarted(found.value, q, now);
        db' := PutBoth(k.value, q.at, h, q.value);
        r := Ok(h);
      }
      Commit(db', c);
    }

    /** The common tail of `update` and `reset`: encode the header and set the two rows. */
    method PutBoth(k: bytes, at: LogicalKey, h: Header, value: bytes) returns (db': Db)
      requires Storable(at)
      ensures db' == db[k := HeaderRow(h)][DataKey(at, h.revision) := value]
    {
      var v := Value(h);
      var dk := MakeDataKey(at, h.revision);
      db' := db[k := v.value][dk.value := value];
    }

    method Delete(q: Request, ghost now: u64) returns (r: Result<Header>)
      modifies this
      ensures var c := Call(V.Delete, q, now);
              && db == ApplyAt(old(db), c) && r == ReplyOf(old(db), c) && view == old(Next(c))
              && (old(Valid()) ==> Valid() && r == if q.prefix == route(q.at) then Reply(old(view), c) else Err)
    {
      ghost var c := Call(V.Delete, q, now);
      Answers(c);
      r := Err;
      var db' := db;
      var k, found := Lookup(KeyIndex(q.prefix, q.at, Header(q.revision, 0, 0, q.updatable, q.state)));
      if k.Ok? && found.Ok? && found.value.updatable && found.value.state != DATA_STATE_DELETED {
        var h := Deleted(found.value);
        var v := Value(h);
        var dk := MakeDataKey(q.at, h.revision);
        db' := db[k.value := v.value] - {dk.value};
        r := Ok(h);
      }
      Commit(db', c);
    }

    /** On valid rows the bytes answer as the versioned map does. */
    lemma Answers(c: Call)
      requires !c.op.Create?
      ensures Valid() ==> ReplyOf(db, c) == if c.q.prefix == route(c.q.at) then Reply(view, c) else Err
    {
      if Valid() && c.q.prefix == route(c.q.at) {
        CallRefines(db, route, view, c);
      } else if Valid() {
        ForeignCall(db, route, view, c);
      }
    }

    /** Reads what the bytes say, whatever they are; on the rows of this store, only under the key's own prefix. */
    method Get(prefix: u32, at: LogicalKey) returns (r: Result<Entry>)
      ensures r == GetAt(db, prefix, at)
      ensures Valid() ==> r == if prefix == route(at) then V.Get(view, at) else Err
    {
      if Valid() {
        ReadUnderItsPrefix(db, route, view, at, prefix);
      }
      var k := CompositKey(KeyIndex(prefix, at, Header(0, 0, 0, false, 0)));
      if k.Err? || k.value !in db {
        return Err;
      }
      var found := Val(db[k.value]);
      if found.Err? || found.value.state == DATA_STATE_DELETED {
        return Err;
      }
      var dk := MakeDataKey(at, found.value.revision);
      if dk.Err? || dk.value !in db {
        return Err;
      }
      r := Ok(Entry(found.value.(state := 0), db[dk.value]));
    }

    method Perform(c: Call)
      modifies this
      ensures db == ApplyAt(old(db), c) && view == old(Next(c))
      ensures old(Valid()) && Harmless(c) ==> Valid()
    {
      match c.op
      case Create => var _ := Create(c.q, c.now);
      case Update => var _ := Update(c.q, c.now);
      case Delete => var _ := Delete(c.q, c.now);
      case Reset => var _ := Reset(c.q, c.now);
    }

    /**
     * Any run of write requests, under any prefixes, leaves the bytes that `Rows` predicts; if every create carries the
     * prefix of its key they are the rows of the versioned map after the calls that do.
     */
    method RunCalls(calls: seq<Call>)
      modifies this
      ensures db == RunAt(old(db), calls)
      ensures old(Valid()) && (forall i :: 0 <= i < |calls| ==> Harmless(calls[i])) ==>
                Valid() && view == V.Run(old(view), Routed(calls, route))
    {
      for i := 0 to |calls|
        invariant db == RunAt(old(db), calls[..i])
        invariant view == V.Run(old(view), Routed(calls[..i], route))
        invariant old(Valid()) && (forall j :: 0 <= j < i ==> Harmless(calls[j])) ==> Valid()
      {
        assert calls[..i + 1][..i] == calls[..i];
        ghost var routed := Routed(calls[..i], route);
        assert (routed + [calls[i]])[..|routed|] == routed;
        Perform(calls[i]);
      }
      assert calls[..|calls|] == calls;
    }
  }
}
