/** Listing the rows of a class: `query` in `local_data_service.go` and the criteria codec of `query_obj.go`. */
module Query {
  import opened Sequences
  import opened Bytes
  import opened Buffer
  import opened KeyCodec
  import opened Versions
  import opened Rows
  import opened Store
  import opened Scan

  // ---- the scan ----

  /** A matching row as the query returns it: the key without its first 12 bytes, and the value. */
  datatype Item = Item(key: bytes, value: bytes)

  type Match = (bytes, bytes) -> bool

  function ItemAt(db: Db, k: bytes): Item {
    Item(if |k| >= 12 then k[12..] else [], if k in db then db[k] else [])
  }

  function Items(db: Db, ks: seq<bytes>): (r: seq<Item>)
    ensures |r| == |ks| && forall i :: 0 <= i < |ks| ==> r[i] == ItemAt(db, ks[i])
  {
    if ks == [] then [] else Items(db, ks[..|ks| - 1]) + [ItemAt(db, ks[|ks| - 1])]
  }

  function Passes(f: Match): Item -> bool {
    (x: Item) => f(x.key, x.value)
  }

  /** Limits below 1 mean 10. */
  function EffectiveLimit(limit: i32): nat {
    if limit <= 0 then 10 else limit
  }

  function Skip(s: seq<Item>, offset: int): seq<Item> {
    if offset <= 0 then s else if offset >= |s| then [] else s[offset..]
  }

  function First(s: seq<Item>, n: nat): seq<Item> {
    if n <= |s| then s[..n] else s
  }

  /** Skip `offset` rows of the class, keep those that pass, stop at the limit. */
  function Answer(db: Db, ks: seq<bytes>, f: Match, limit: i32, offset: i32): seq<Item> {
    First(Filter(Skip(Items(db, ks), offset), Passes(f)), EffectiveLimit(limit))
  }

  /** The rows a query may look at: data rows of the class, at every stored revision. */
  ghost predicate ClassRow(db: Db, f: u32, c: u32, k: bytes) {
    exists at, r :: Storable(at) && at.factoryId == f && at.classId == c && k == DataKey(at, r) && k in db
  }

  /**
   * The scan of a class visits exactly its data rows, and never an index row, for every class but one.
   */
  lemma ScanVisitsTheClass(db: Db, route: Route, m: Map, ks: seq<bytes>, f: u32, c: u32, k: bytes)
    requires Refines(db, route, m) && IsScan(ks, db.Keys, ClassPrefix(f, c))
    requires f != MARKER_FACTORY || c != MARKER_CLASS
    ensures k in ks <==> ClassRow(db, f, c, k)
  {
    if k in ks {
      if at :| Storable(at) && k == IndexKey(route(at), at) {
        IndexKeyHasClassPrefix(f, c, route(at), at);
      }
      var at, r :| Storable(at) && k == DataKey(at, r);
      DataKeyHasClassPrefix(f, c, at, r);
    }
    if ClassRow(db, f, c, k) {
      var at, r :| Storable(at) && at.factoryId == f && at.classId == c && k == DataKey(at, r) && k in db;
      DataKeyHasClassPrefix(f, c, at, r);
    }
  }

  /** The exception: factory 10 with class 0x245F5F5F also lists every index row of the store. */
  lemma MarkerClassVisitsIndexRows(db: Db, route: Route, m: Map, ks: seq<bytes>, at: LogicalKey)
    requires Refines(db, route, m) && IsScan(ks, db.Keys, ClassPrefix(MARKER_FACTORY, MARKER_CLASS))
    requires at in m
    ensures IndexKey(route(at), at) in ks
  {
    IndexKeyHasClassPrefix(MARKER_FACTORY, MARKER_CLASS, route(at), at);
  }

  // ---- what a query returns, told from the rows alone ----

  /** Row `j` of the scan comes after the offset and passes the filter. */
  predicate Hit(db: Db, ks: seq<bytes>, f: Match, offset: i32, j: nat) {
    j < |ks| && offset <= j && |ks[j]| >= 12 && ks[j] in db && f(ks[j][12..], db[ks[j]])
  }

  /**
   * The items are rows of the scan in its order, each without the first 12 bytes of its key and with its stored value.
   * `ix` says which: only hits, at most as many as the limit, which is 10 if it is not positive, and no hit is left out
   * unless the limit has been reached before it.
   */
  ghost predicate Lists(db: Db, ks: seq<bytes>, f: Match, limit: i32, offset: i32, dset: seq<Item>, ix: seq<nat>) {
    && |dset| <= (if limit <= 0 then 10 else limit) && Increasing(ix)
    && HitRows(db, ks, f, offset, dset, ix)
    && NoneMissed(db, ks, f, offset, if limit <= 0 then 10 else limit, ix)
  }

  /** Item `i` is row `ix[i]`. */
  ghost predicate HitRows(db: Db, ks: seq<bytes>, f: Match, offset: i32, dset: seq<Item>, ix: seq<nat>) {
    && |ix| == |dset|
    && forall i :: 0 <= i < |ix| ==>
         Hit(db, ks, f, offset, ix[i]) && dset[i].key == ks[ix[i]][12..] && dset[i].value == db[ks[ix[i]]]
  }

  /** A hit that is not there comes after `n` others. */
  ghost predicate NoneMissed(db: Db, ks: seq<bytes>, f: Match, offset: i32, n: nat, ix: seq<nat>) {
    forall j: nat :: Hit(db, ks, f, offset, j) && j !in ix ==>
      |ix| == n && forall i :: 0 <= i < |ix| ==> ix[i] < j
  }

  /** The places of the first `n` items that come after the offset and pass, in order. */
  ghost function Places(items: seq<Item>, offset: int, p: Item -> bool, n: nat): seq<nat>
    requires n <= |items|
  {
    if n == 0 then []
    else if offset <= n - 1 && p(items[n - 1]) then Places(items, offset, p, n - 1) + [n - 1]
    else Places(items, offset, p, n - 1)
  }

  lemma {:induction false} PlacesAre(items: seq<Item>, offset: int, p: Item -> bool, n: nat, j: nat)
    requires n <= |items|
    ensures j in Places(items, offset, p, n) <==> j < n && offset <= j && p(items[j])
  {
    if n > 0 {
      PlacesAre(items, offset, p, n - 1, j);
    }
  }

  ghost predicate Increasing(ix: seq<nat>) {
    forall i, j :: 0 <= i < j < |ix| ==> ix[i] < ix[j]
  }

  lemma {:induction false} PlacesIncrease(items: seq<Item>, offset: int, p: Item -> bool, n: nat)
    requires n <= |items|
    ensures Increasing(Places(items, offset, p, n))
  {
    if n > 0 {
      PlacesIncrease(items, offset, p, n - 1);
      var ix := Places(items, offset, p, n - 1);
      forall i | 0 <= i < |ix| ensures ix[i] < n - 1 {
        assert ix[i] in ix;
        PlacesAre(items, offset, p, n - 1, ix[i]);
      }
    }
  }

  ghost predicate AreAt(found: seq<Item>, items: seq<Item>, ix: seq<nat>) {
    |found| == |ix| && forall i :: 0 <= i < |ix| ==> ix[i] < |items| && found[i] == items[ix[i]]
  }

  lemma AreAtSnoc(found: seq<Item>, items: seq<Item>, ix: seq<nat>, j: nat)
    requires AreAt(found, items, ix) && j < |items|
    ensures AreAt(found + [items[j]], items, ix + [j])
  {
  }

  lemma {:induction false} FoundAtPlaces(items: seq<Item>, offset: int, p: Item -> bool, n: nat)
    requires n <= |items|
    ensures AreAt(Found(items, n, offset, p), items, Places(items, offset, p, n))
  {
    if n > 0 {
      FoundAtPlaces(items, offset, p, n - 1);
      var found, ix := Found(items, n - 1, offset, p), Places(items, offset, p, n - 1);
      if offset <= n - 1 && p(items[n - 1]) {
        AreAtSnoc(found, items, ix, n - 1);
        assert Found(items, n, offset, p) == found + [items[n - 1]] && Places(items, offset, p, n) == ix + [n - 1];
      } else {
        assert Found(items, n, offset, p) == found && Places(items, offset, p, n) == ix;
      }
    }
  }

  function Head(all: seq<nat>, n: nat): seq<nat> {
    if n <= |all| then all[..n] else all
  }

  /** Of an increasing sequence only later elements are cut off. */
  lemma FirstPlaces(all: seq<nat>, n: nat, ix: seq<nat>, j: nat)
    requires ix == Head(all, n) && Increasing(all)
    ensures j in all && j !in ix ==> |ix| == n && forall i :: 0 <= i < |ix| ==> ix[i] < j
  {
    if j in all && j !in ix {
      assert forall i :: 0 <= i < |ix| ==> ix[i] == all[i] && all[i] in ix;
      var k :| 0 <= k < |all| && all[k] == j;
    }
  }

  lemma RowPassesIffHit(db: Db, ks: seq<bytes>, f: Match, offset: i32, j: nat)
    requires j < |ks| && ks[j] in db && |ks[j]| >= 12
    ensures Items(db, ks)[j] == Item(ks[j][12..], db[ks[j]])
    ensures Hit(db, ks, f, offset, j) <==> offset <= j && Passes(f)(Items(db, ks)[j])
  {
  }

  lemma AnswerLists(db: Db, ks: seq<bytes>, f: Match, limit: i32, offset: i32) returns (ix: seq<nat>)
    requires forall k :: k in ks ==> k in db && |k| >= 12
    ensures Lists(db, ks, f, limit, offset, Answer(db, ks, f, limit, offset), ix)
  {
    var items, n := Items(db, ks), EffectiveLimit(limit);
    FoundIsFiltered(items, |items|, offset, Passes(f));
    assert items[..|items|] == items;
    var found, all := Found(items, |items|, offset, Passes(f)), Places(items, offset, Passes(f), |items|);
    FoundAtPlaces(items, offset, Passes(f), |items|);
    PlacesIncrease(items, offset, Passes(f), |items|);
    ix := Head(all, n);
    forall j: nat ensures Hit(db, ks, f, offset, j) <==> j in all {
      HitsAreFound(db, ks, f, offset, j);
    }
    FirstIsList(db, ks, f, limit, offset, found, all);
  }

  lemma HitsAreFound(db: Db, ks: seq<bytes>, f: Match, offset: i32, j: nat)
    requires forall k :: k in ks ==> k in db && |k| >= 12
    ensures Hit(db, ks, f, offset, j) <==> j in Places(Items(db, ks), offset, Passes(f), |ks|)
  {
    PlacesAre(Items(db, ks), offset, Passes(f), |ks|, j);
    if j < |ks| {
      assert ks[j] in ks;
      RowPassesIffHit(db, ks, f, offset, j);
    }
  }

  lemma ListedRow(db: Db, ks: seq<bytes>, f: Match, offset: i32, found: seq<Item>, all: seq<nat>, i: nat)
    requires AreAt(found, Items(db, ks), all) && i < |all| && Hit(db, ks, f, offset, all[i])
    ensures found[i].key == ks[all[i]][12..] && found[i].value == db[ks[all[i]]]
  {
    RowPassesIffHit(db, ks, f, offset, all[i]);
  }

  lemma FirstIsList(db: Db, ks: seq<bytes>, f: Match, limit: i32, offset: i32, found: seq<Item>, all: seq<nat>)
    requires AreAt(found, Items(db, ks), all) && Increasing(all)
    requires forall j: nat :: Hit(db, ks, f, offset, j) <==> j in all
    ensures var n := EffectiveLimit(limit);
            Lists(db, ks, f, limit, offset, First(found, n), Head(all, n))
  {
    AllAreRows(db, ks, f, offset, found, all);
    FirstAreRows(db, ks, f, offset, found, all, EffectiveLimit(limit));
    FirstMissesNone(db, ks, f, offset, all, EffectiveLimit(limit));
  }

  lemma FirstAreRows(db: Db, ks: seq<bytes>, f: Match, offset: i32, found: seq<Item>, all: seq<nat>, n: nat)
    requires HitRows(db, ks, f, offset, found, all) && Increasing(all)
    ensures HitRows(db, ks, f, offset, First(found, n), Head(all, n))
    ensures |First(found, n)| <= n && Increasing(Head(all, n))
  {
  }

  lemma AllAreRows(db: Db, ks: seq<bytes>, f: Match, offset: i32, found: seq<Item>, all: seq<nat>)
    requires AreAt(found, Items(db, ks), all) && forall j: nat :: j in all ==> Hit(db, ks, f, offset, j)
    ensures HitRows(db, ks, f, offset, found, all)
  {
    forall i | 0 <= i < |all|
      ensures Hit(db, ks, f, offset, all[i])
      ensures found[i].key == ks[all[i]][12..] && found[i].value == db[ks[all[i]]]
    {
      assert all[i] in all;
      ListedRow(db, ks, f, offset, found, all, i);
    }
  }

  lemma FirstMissesNone(db: Db, ks: seq<bytes>, f: Match, offset: i32, all: seq<nat>, n: nat)
    requires Increasing(all) && forall j: nat :: Hit(db, ks, f, offset, j) ==> j in all
    ensures NoneMissed(db, ks, f, offset, n, Head(all, n))
  {
    var ix := Head(all, n);
    forall j: nat | Hit(db, ks, f, offset, j) && j !in ix
      ensures |ix| == n && forall i :: 0 <= i < |ix| ==> ix[i] < j
    {
      FirstPlaces(all, n, ix, j);
    }
  }

  /** An item of a class query is a stored row: its logical key and revision, with the value stored there. */
  ghost predicate IsStoredRow(db: Db, f: u32, c: u32, x: Item) {
    exists at, r ::
      && Storable(at) && at.factoryId == f && at.classId == c
      && DataKey(at, r) in db && x.key == at.key + U64(r) && x.value == db[DataKey(at, r)]
  }

  lemma DataKeyTail(at: LogicalKey, r: u64)
    ensures |DataKey(at, r)| >= 12 && DataKey(at, r)[12..] == at.key + U64(r)
  {
    var head := U32(at.factoryId) + (U32(at.classId) + U32(Length32(|at.key|)));
    assert DataKey(at, r) == head + (at.key + U64(r));
  }

  /** On the rows of a store, for every class but the marker class, a query returns stored rows of the class. */
  lemma ItemsAreStored(db: Db, route: Route, m: Map, ks: seq<bytes>, f: u32, c: u32, filter: Match,
                       limit: i32, offset: i32, x: Item)
    requires Refines(db, route, m) && IsScan(ks, db.Keys, ClassPrefix(f, c))
    requires f != MARKER_FACTORY || c != MARKER_CLASS
    requires x in Answer(db, ks, filter, limit, offset)
    ensures IsStoredRow(db, f, c, x) && filter(x.key, x.value)
  {
    KeysAreLong(db, route, m, ks);
    var ix := AnswerLists(db, ks, filter, limit, offset);
    var i :| 0 <= i < |ix| && Answer(db, ks, filter, limit, offset)[i] == x;
    var k := ks[ix[i]];
    ScanVisitsTheClass(db, route, m, ks, f, c, k);
    var at, r :| Storable(at) && at.factoryId == f && at.classId == c && k == DataKey(at, r) && k in db;
    DataKeyTail(at, r);
  }

  lemma KeysAreLong(db: Db, route: Route, m: Map, ks: seq<bytes>)
    requires Refines(db, route, m) && forall k :: k in ks ==> k in db
    ensures forall k :: k in ks ==> k in db && |k| >= 12
  {
    forall k | k in ks ensures |k| >= 12 {
      assert IsIndexKey(route, k) || IsDataKey(k);
    }
  }

  /** Without an offset and within the limit, every stored row of the class that passes is returned. */
  lemma StoredRowsAreListed(db: Db, route: Route, m: Map, ks: seq<bytes>, filter: Match, limit: i32, offset: i32,
                            at: LogicalKey, r: u64)
    requires Refines(db, route, m) && IsScan(ks, db.Keys, ClassPrefix(at.factoryId, at.classId))
    requires at.factoryId != MARKER_FACTORY || at.classId != MARKER_CLASS
    requires Storable(at) && DataKey(at, r) in db && filter(at.key + U64(r), db[DataKey(at, r)]) && offset <= 0
    requires |Answer(db, ks, filter, limit, offset)| < if limit <= 0 then 10 else limit
    ensures Item(at.key + U64(r), db[DataKey(at, r)]) in Answer(db, ks, filter, limit, offset)
  {
    KeysAreLong(db, route, m, ks);
    DataKeyTail(at, r);
    ScanVisitsTheClass(db, route, m, ks, at.factoryId, at.classId, DataKey(at, r));
    var j :| 0 <= j < |ks| && ks[j] == DataKey(at, r);
    var dset := Answer(db, ks, filter, limit, offset);
    var ix := AnswerLists(db, ks, filter, limit, offset);
    assert Hit(db, ks, filter, offset, j);
    var i :| 0 <= i < |ix| && ix[i] == j;
    assert dset[i] == Item(at.key + U64(r), db[DataKey(at, r)]);
  }

  /** The stored revisions of one key are scanned, and so listed, from the oldest to the newest. */
  lemma RevisionsInOrder(at: LogicalKey, r: u64, s: u64)
    ensures Less(DataKey(at, r), DataKey(at, s)) <==> r < s
  {
    Spans();
    LessAfter(KeyBody(at), U64(r), U64(s));
    NumbersInOrder(r, s, 8);
  }

  /**
   * An accepted delete hides the key from `get`, but the data row of the revision before stays, and queries that have
   * room for it go on to list the deleted value.
   */
  lemma DeletedValueIsStillListed(db: Db, route: Route, m: Map, ks: seq<bytes>, q: Request, now: u64, filter: Match,
                                  limit: i32)
    requires Refines(db, route, m) && q.prefix == route(q.at) && AcceptsDelete(m, q)
    requires q.at.factoryId != MARKER_FACTORY || q.at.classId != MARKER_CLASS
    requires IsScan(ks, ApplyAt(db, Call(Delete, q, now)).Keys, ClassPrefix(q.at.factoryId, q.at.classId))
    requires filter(q.at.key + U64(m[q.at].header.revision), m[q.at].value)
    requires |Answer(ApplyAt(db, Call(Delete, q, now)), ks, filter, limit, 0)| < if limit <= 0 then 10 else limit
    ensures var db' := ApplyAt(db, Call(Delete, q, now));
            && GetAt(db', q.prefix, q.at) == Err
            && DataKey(q.at, Next(m[q.at].header.revision)) !in db'
            && Item(q.at.key + U64(m[q.at].header.revision), m[q.at].value) in Answer(db', ks, filter, limit, 0)
  {
    var c := Call(Delete, q, now);
    CallRefines(db, route, m, c);
    DeleteLeavesOldRow(db, route, m, q, now);
    DeleteHides(ApplyAt(db, c), route, m, q, now);
    StoredRowsAreListed(ApplyAt(db, c), route, Apply(m, c), ks, filter, limit, 0, q.at, m[q.at].header.revision);
  }

  lemma DeleteHides(db: Db, route: Route, m: Map, q: Request, now: u64)
    requires AcceptsDelete(m, q) && Refines(db, route, Apply(m, Call(Delete, q, now)))
    ensures GetAt(db, q.prefix, q.at) == Err
  {
    ReadUnderItsPrefix(db, route, Apply(m, Call(Delete, q, now)), q.at, q.prefix);
  }

  lemma DeleteLeavesOldRow(db: Db, route: Route, m: Map, q: Request, now: u64)
    requires Refines(db, route, m) && q.prefix == route(q.at) && AcceptsDelete(m, q)
    ensures var db', r := ApplyAt(db, Call(Delete, q, now)), m[q.at].header.revision;
            && DataKey(q.at, r) in db' && db'[DataKey(q.at, r)] == m[q.at].value
            && DataKey(q.at, Next(r)) !in db'
  {
    HeadersRefine(db, route, m, q.at, q.prefix);
    DeleteKeepsOldRow(db, q, now, m[q.at].header);
  }

  /** `query`: one pass over the scan with a countdown for the offset and one for the limit. */
  method RunQuery(db: Db, f: u32, c: u32, filter: Match, limit0: i32, offset0: i32)
    returns (dset: seq<Item>, ghost ks: seq<bytes>, ghost ix: seq<nat>)
    requires forall k :: k in db ==> |k| >= 12
    ensures IsScan(ks, db.Keys, ClassPrefix(f, c))
    ensures Lists(db, ks, filter, limit0, offset0, dset, ix) && dset == Answer(db, ks, filter, limit0, offset0)
  {
    var keys := Seek(db.Keys, ClassPrefix(f, c));
    ks := keys;
    var items := Items(db, keys);
    FoundIsFiltered(items, |items|, offset0, Passes(filter));
    assert items[..|items|] == items;
    dset := Select(items, filter, limit0, offset0);
    ix := AnswerLists(db, ks, filter, limit0, offset0);
  }

  /** The loop of `query` over the rows of the scan. */
  method Select(items: seq<Item>, filter: Match, limit0: i32, offset0: i32) returns (dset: seq<Item>)
    ensures dset == First(Found(items, |items|, offset0, Passes(filter)), EffectiveLimit(limit0))
  {
    ghost var p := Passes(filter);
    var limit: int := if limit0 <= 0 then 10 else limit0;
    var offset: int := offset0;
    dset := [];
    for i := 0 to |items|
      invariant dset == Found(items, i, offset0, p)
      invariant 0 < limit == EffectiveLimit(limit0) - |dset|
      invariant offset == if offset0 <= 0 then offset0 else if i < offset0 then offset0 - i else 0
    {
      if offset > 0 {
        offset := offset - 1;
      } else if filter(items[i].key, items[i].value) {
        dset := dset + [items[i]];
        limit := limit - 1;
        if limit == 0 {
          FoundGrows(items, i + 1, |items|, offset0, p);
          return;
        }
      }
    }
  }

  /** What the first `i` rows contribute. */
  ghost function Found(items: seq<Item>, i: nat, offset: int, p: Item -> bool): seq<Item>
    requires i <= |items|
  {
    if i == 0 then []
    else if (offset <= 0 || offset <= i - 1) && p(items[i - 1]) then Found(items, i - 1, offset, p) + [items[i - 1]]
    else Found(items, i - 1, offset, p)
  }

  lemma {:induction false} FoundIsFiltered(items: seq<Item>, i: nat, offset: int, p: Item -> bool)
    requires i <= |items|
    ensures Found(items, i, offset, p) == Filter(Skip(items[..i], offset), p)
  {
    if i > 0 {
      FoundIsFiltered(items, i - 1, offset, p);
      if offset <= 0 || offset <= i - 1 {
        var now, next := Skip(items[..i - 1], offset), Skip(items[..i], offset);
        assert next == now + [items[i - 1]];
        FilterAppend(now, [items[i - 1]], p);
        assert Filter([items[i - 1]], p) == if p(items[i - 1]) then [items[i - 1]] else [];
      }
    }
  }

  /** What was found first stays at the front. */
  lemma {:induction false} FoundGrows(items: seq<Item>, i: nat, n: nat, offset: int, p: Item -> bool)
    requires i <= n <= |items|
    ensures Found(items, i, offset, p) <= Found(items, n, offset, p)
  {
    if i < n {
      FoundGrows(items, i, n - 1, offset, p);
    }
  }

  // ---- the criteria codec ----

  /** A query's criteria; times are Unix milliseconds. */
  datatype Criteria = Criteria(id: bytes, factoryId: u32, classId: u32, nodeId: bytes, tag: bytes, topic: bytes,
                               start: i64, end: i64, limit: i32, offset: i32)

  function Tail(q: Criteria): bytes {
    I64(q.start) + (I64(q.end) + (I32(q.limit) + I32(q.offset)))
  }

  function Names(q: Criteria): bytes {
    StringBytes(q.nodeId) + (StringBytes(q.tag) + (StringBytes(q.topic) + Tail(q)))
  }

  /** The complete encoding. */
  function Encoded(q: Criteria): bytes {
    StringBytes(q.id) + (U32(q.factoryId) + (U32(q.classId) + Names(q)))
  }

  function ParseTail(b: bytes): Result<(i64, i64, i32, i32)> {
    var (start, b) :- GetI64(b);
    var (end, b) :- GetI64(b);
    var (limit, b) :- GetI32(b);
    var (offset, _) :- GetI32(b);
    Ok((start, end, limit, offset))
  }

  /** `QRead`. */
  function Parse(b: bytes): Result<Criteria> {
    var (id, b) :- GetString(b);
    var (fid, b) :- GetU32(b);
    var (cid, b) :- GetU32(b);
    var (nid, b) :- GetString(b);
    var (tag, b) :- GetString(b);
    var (topic, b) :- GetString(b);
    var (start, end, limit, offset) :- ParseTail(b);
    Ok(Criteria(id, fid, cid, nid, tag, topic, start, end, limit, offset))
  }

  ghost predicate Encodable(q: Criteria) {
    |q.id| < 0x8000_0000 && |q.nodeId| < 0x8000_0000 && |q.tag| < 0x8000_0000 && |q.topic| < 0x8000_0000
  }

  lemma ParseWrittenTail(q: Criteria)
    ensures ParseTail(Tail(q)) == Ok((q.start, q.end, q.limit, q.offset))
  {
    GetI64Written(q.start, I64(q.end) + (I32(q.limit) + I32(q.offset)));
    GetI64Written(q.end, I32(q.limit) + I32(q.offset));
    GetI32Written(q.limit, I32(q.offset));
    GetI32Written(q.offset, []);
    assert I32(q.offset) + [] == I32(q.offset);
  }

  /** Reading undoes writing. */
  lemma ParseUndoesEncode(q: Criteria)
    requires Encodable(q)
    ensures Parse(Encoded(q)) == Ok(q)
  {
    GetStringWritten(q.id, U32(q.factoryId) + (U32(q.classId) + Names(q)));
    GetU32Written(q.factoryId, U32(q.classId) + Names(q));
    GetU32Written(q.classId, Names(q));
    GetStringWritten(q.nodeId, StringBytes(q.tag) + (StringBytes(q.topic) + Tail(q)));
    GetStringWritten(q.tag, StringBytes(q.topic) + Tail(q));
    GetStringWritten(q.topic, Tail(q));
    ParseWrittenTail(q);
  }

  /** The bytes that the id, factory and class take; failures here are the ones `QWrite` does not report. */
  function HeadSize(q: Criteria): nat {
    12 + |q.id|
  }

  /**
   * `QWrite`.  The encoding is complete exactly when it fits.  When it does not, the call still reports success
   * if the id, factory and class already overflow the buffer.
   */
  method QWrite(q: Criteria, buffer: ByteBuffer) returns (reported: bool)
    requires buffer.Valid() && buffer.pos == 0
    modifies buffer`pos, buffer.data
    ensures buffer.Valid()
    ensures buffer.Written() == Encoded(q) <==> |Encoded(q)| <= buffer.limit
    ensures reported <==> |Encoded(q)| <= buffer.limit || HeadSize(q) > buffer.limit
  {
    EncodedByParts(q);
    var ok := buffer.WriteString(q.id);
    if !ok { return true; }
    ok := buffer.WriteUInt32(q.factoryId);
    if !ok { return true; }
    ok := buffer.WriteUInt32(q.classId);
    if !ok { return true; }
    reported := WriteNames(q, buffer);
    if !reported { return; }
    reported := WriteBounds(q, buffer);
  }

  /** The three strings in the middle of `QWrite`. */
  method WriteNames(q: Criteria, buffer: ByteBuffer) returns (ok: bool)
    requires buffer.Valid()
    modifies buffer`pos, buffer.data
    ensures buffer.Valid()
    ensures ok <==> 12 + |q.nodeId| + |q.tag| + |q.topic| <= buffer.limit - old(buffer.pos)
    ensures ok ==> buffer.Written()
                   == old(buffer.Written()) + StringBytes(q.nodeId) + StringBytes(q.tag) + StringBytes(q.topic)
  {
    ok := buffer.WriteString(q.nodeId);
    if !ok { return; }
    ok := buffer.WriteString(q.tag);
    if !ok { return; }
    ok := buffer.WriteString(q.topic);
  }

  /** The four numbers at the end of `QWrite`. */
  method WriteBounds(q: Criteria, buffer: ByteBuffer) returns (ok: bool)
    requires buffer.Valid()
    modifies buffer`pos, buffer.data
    ensures buffer.Valid()
    ensures ok <==> 24 <= buffer.limit - old(buffer.pos)
    ensures ok ==> buffer.Written()
                   == old(buffer.Written()) + I64(q.start) + I64(q.end) + I32(q.limit) + I32(q.offset)
  {
    ok := buffer.WriteInt64(q.start);
    if !ok { return; }
    ok := buffer.WriteInt64(q.end);
    if !ok { return; }
    ok := buffer.WriteInt32(q.limit);
    if !ok { return; }
    ok := buffer.WriteInt32(q.offset);
  }

  lemma EncodedByParts(q: Criteria)
    ensures Encoded(q) == [] + StringBytes(q.id) + U32(q.factoryId) + U32(q.classId) + StringBytes(q.nodeId)
                        + StringBytes(q.tag) + StringBytes(q.topic) + I64(q.start) + I64(q.end)
                        + I32(q.limit) + I32(q.offset)
  {
  }

  /** `QRead` on a buffer. */
  method QRead(buffer: ByteBuffer) returns (r: Result<Criteria>)
    requires buffer.Valid()
    modifies buffer`pos
    ensures buffer.Valid() && r == Parse(old(buffer.Unread()))
  {
    var id := buffer.ReadString();
    if id.Err? { return Err; }
    var fid := buffer.ReadUInt32();
    if fid.Err? { return Err; }
    var cid := buffer.ReadUInt32();
    if cid.Err? { return Err; }
    var nid := buffer.ReadString();
    if nid.Err? { return Err; }
    var tag := buffer.ReadString();
    if tag.Err? { return Err; }
    var topic := buffer.ReadString();
    if topic.Err? { return Err; }
    var st := buffer.ReadInt64();
    if st.Err? { return Err; }
    var et := buffer.ReadInt64();
    if et.Err? { return Err; }
    var lm := buffer.ReadInt32();
    if lm.Err? { return Err; }
    var off := buffer.ReadInt32();
    if off.Err? { return Err; }
    r := Ok(Criteria(id.value, fid.value, cid.value, nid.value, tag.value, topic.value,
                     st.value, et.value, lm.value, off.value));
  }
}
