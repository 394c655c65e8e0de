/**
 * Moving rows between nodes: `pull` streams the rows of a token range in batches, `set` merges a batch into the
 * receiving store (`local_data_service.go`).
 */
module Transfer {
  import opened Sequences
  import opened Bytes
  import opened KeyCodec
  import opened Versions
  import opened Rows
  import opened Store
  import opened Scan
  import HandOff

  const PULL_BATCH_SIZE: nat := 100

  /** One row on the wire.  The prefix is not sent, and neither is the size. */
  datatype Row = Row(at: LogicalKey, header: Header, value: bytes)

  // ---- set: merge by revision ----

  /** A row wins over an older revision of its key; a key that cannot be stored is skipped. */
  function Merge1(m: Map, d: Row): Map {
    if Storable(d.at) && (d.at in m ==> m[d.at].header.revision < d.header.revision)
    then m[d.at := MakeEntry(d.header, d.value)] else m
  }

  function Merge(m: Map, rows: seq<Row>): Map {
    if rows == [] then m else Merge1(Merge(m, rows[..|rows| - 1]), rows[|rows| - 1])
  }

  ghost predicate Offers(rows: seq<Row>, at: LogicalKey, e: Entry) {
    exists i :: 0 <= i < |rows| && rows[i].at == at && Storable(at) && e == MakeEntry(rows[i].header, rows[i].value)
  }

  /** Where an entry can come from: the store itself or one of the rows. */
  ghost predicate Source(m: Map, rows: seq<Row>, at: LogicalKey, e: Entry) {
    (at in m && m[at] == e) || Offers(rows, at, e)
  }

  lemma OffersSnoc(rows: seq<Row>, at: LogicalKey, e: Entry)
    requires rows != []
    ensures var last := rows[|rows| - 1];
            Offers(rows, at, e) <==>
              Offers(rows[..|rows| - 1], at, e)
              || (last.at == at && Storable(at) && e == MakeEntry(last.header, last.value))
  {
    var init := rows[..|rows| - 1];
    if Offers(init, at, e) {
      var i :| 0 <= i < |init| && init[i].at == at && Storable(at) && e == MakeEntry(init[i].header, init[i].value);
      assert rows[i] == init[i];
    }
    if Offers(rows, at, e) {
      var i :| 0 <= i < |rows| && rows[i].at == at && Storable(at) && e == MakeEntry(rows[i].header, rows[i].value);
      assert i < |init| ==> init[i] == rows[i];
    }
  }

  /** The merged entry is one of its sources, and no source has a higher revision. */
  lemma {:induction false} MergeTakesNewest(m: Map, rows: seq<Row>, at: LogicalKey, e: Entry)
    ensures var r := Merge(m, rows);
            && (at in r ==> Source(m, rows, at, r[at]))
            && (Source(m, rows, at, e) ==> at in r && e.header.revision <= r[at].header.revision)
  {
    if rows != [] {
      var init, last := rows[..|rows| - 1], rows[|rows| - 1];
      MergeTakesNewest(m, init, at, e);
      OffersSnoc(rows, at, e);
      var r := Merge(m, rows);
      if at in r {
        OffersSnoc(rows, at, r[at]);
      }
    }
  }

  /** Row `i` is the first one of its key that is newer than the store, and no later row is newer than it. */
  ghost predicate Wins(m: Map, rows: seq<Row>, at: LogicalKey, i: nat) {
    && i < |rows| && rows[i].at == at && Storable(at)
    && (at in m ==> m[at].header.revision < rows[i].header.revision)
    && (forall j :: 0 <= j < i && rows[j].at == at ==> rows[j].header.revision < rows[i].header.revision)
    && (forall j :: i <= j < |rows| && rows[j].at == at ==> rows[j].header.revision <= rows[i].header.revision)
  }

  /** No row of the key is newer than the store. */
  ghost predicate Stays(m: Map, rows: seq<Row>, at: LogicalKey) {
    !Storable(at) || (at in m && forall j :: 0 <= j < |rows| && rows[j].at == at ==>
                                   rows[j].header.revision <= m[at].header.revision)
  }

  /**
   * Which entry a merge leaves: the one in the store, unless a row is newer; otherwise that of the first row with the
   * highest revision, so that of several rows with one revision the first is kept, and one that the store already has
   * is not taken again.
   */
  lemma {:induction false} MergeKeepsFirst(m: Map, rows: seq<Row>, at: LogicalKey, i: nat)
    ensures Stays(m, rows, at) ==> (at in Merge(m, rows) <==> at in m) && (at in m ==> Merge(m, rows)[at] == m[at])
    ensures Wins(m, rows, at, i) ==>
              at in Merge(m, rows) && Merge(m, rows)[at] == MakeEntry(rows[i].header, rows[i].value)
  {
    if rows != [] {
      var init, last := rows[..|rows| - 1], rows[|rows| - 1];
      MergeKeepsFirst(m, init, at, i);
      if Wins(m, rows, at, i) && i == |init| {
        OlderRowsLose(m, init, at, last.header.revision);
      }
    }
  }

  /** If the store and all rows of a key are older than a revision, so is what the merge leaves. */
  lemma {:induction false} OlderRowsLose(m: Map, rows: seq<Row>, at: LogicalKey, revision: u64)
    requires at in m ==> m[at].header.revision < revision
    requires forall j :: 0 <= j < |rows| && rows[j].at == at ==> rows[j].header.revision < revision
    ensures at in Merge(m, rows) ==> Merge(m, rows)[at].header.revision < revision
  {
    if rows != [] {
      OlderRowsLose(m, rows[..|rows| - 1], at, revision);
    }
  }

  /** Equal key and equal revision mean equal content, over the store and all rows. */
  ghost predicate Consistent(m: Map, rows: seq<Row>) {
    forall at, a, b :: Source(m, rows, at, a) && Source(m, rows, at, b) && a.header.revision == b.header.revision ==>
      a == b
  }

  ghost predicate SameRows(a: seq<Row>, b: seq<Row>) {
    forall d :: d in a <==> d in b
  }

  lemma SameRowsSameSources(m: Map, a: seq<Row>, b: seq<Row>, at: LogicalKey, e: Entry)
    requires SameRows(a, b)
    ensures Source(m, a, at, e) ==> Source(m, b, at, e)
  {
    if Offers(a, at, e) {
      var i :| 0 <= i < |a| && a[i].at == at && Storable(at) && e == MakeEntry(a[i].header, a[i].value);
      assert a[i] in b;
      var j :| 0 <= j < |b| && b[j] == a[i];
    }
  }

  /**
   * Merging converges: rows arriving in any order and any number of times leave the same store.
   */
  lemma MergeConverges(m: Map, a: seq<Row>, b: seq<Row>)
    requires Consistent(m, a) && SameRows(a, b)
    ensures Merge(m, a) == Merge(m, b)
  {
    forall at ensures at in Merge(m, a) <==> at in Merge(m, b) {
      MergedAlike(m, a, b, at);
    }
    forall at | at in Merge(m, a) ensures Merge(m, a)[at] == Merge(m, b)[at] {
      MergedAlike(m, a, b, at);
    }
  }

  lemma MergedAlike(m: Map, a: seq<Row>, b: seq<Row>, at: LogicalKey)
    requires Consistent(m, a) && SameRows(a, b)
    ensures at in Merge(m, a) <==> at in Merge(m, b)
    ensures at in Merge(m, a) ==> Merge(m, a)[at] == Merge(m, b)[at]
  {
    var ra, rb := Merge(m, a), Merge(m, b);
    if at in ra {
      MergeTakesNewest(m, a, at, ra[at]);
      SameRowsSameSources(m, a, b, at, ra[at]);
      MergeTakesNewest(m, b, at, ra[at]);
    }
    if at in rb {
      MergeTakesNewest(m, b, at, rb[at]);
      SameRowsSameSources(m, b, a, at, rb[at]);
      MergeTakesNewest(m, a, at, rb[at]);
    }
  }

  /** How the rows are split into batches is immaterial. */
  lemma {:induction false} MergeSplits(m: Map, a: seq<Row>, b: seq<Row>)
    ensures Merge(m, a + b) == Merge(Merge(m, a), b)
  {
    if b == [] {
      assert a + b == a;
    } else {
      assert (a + b)[..|a + b| - 1] == a + b[..|b| - 1];
      MergeSplits(m, a, b[..|b| - 1]);
    }
  }

  /** The row is newer than the one stored under prefix 0, or there is none. */
  predicate Newer(db: Db, d: Row) {
    var k := IndexKey(0, d.at);
    Storable(d.at) && (k in db ==> match ImportSpec(k, db[k], COMPOSIT_KEY_MAX)
                                   case Err => false
                                   case Ok(ki) => ki.header.revision < d.header.revision)
  }

  /** `set` rebuilds the index row without its prefix, that is under prefix 0. */
  function SetChange(db: Db, d: Row): Change {
    if !Newer(db, d) then Keep
    else if !Dead(d.header) then Put(d.header, d.value)
    else if IndexKey(0, d.at) in db then Bury(d.header) else Mark(d.header)
  }

  /** `set` for one row, on any bytes. */
  function SetAt(db: Db, d: Row): Db {
    Changed(db, 0, d.at, SetChange(db, d))
  }

  method SetRaw(db: Db, d: Row) returns (db': Db)
    ensures db' == SetAt(db, d)
  {
    db' := db;
    var pair := Pair(KeyIndex(0, d.at, d.header));
    if pair.Err? {
      return;
    }
    var dkey := MakeDataKey(d.at, d.header.revision);
    if dkey.Err? {
      return;
    }
    var (k, v) := pair.value;
    if k !in db {
      db' := db'[k := v];
      if d.header.state != DATA_STATE_DELETED {
        db' := db'[dkey.value := d.value];
      }
      return;
    }
    var existing := Import(k, db[k], COMPOSIT_KEY_MAX);
    if existing.Ok? && existing.value.header.revision < d.header.revision {
      db' := db'[k := v];
      if d.header.state == DATA_STATE_DELETED {
        db' := db' - {dkey.value};
      } else {
        db' := db'[dkey.value := d.value];
      }
    }
  }

  /** On a store that holds the key under prefix 0, or not at all, `set` is the merge. */
  lemma SetIsMerge(db: Db, route: Route, m: Map, d: Row)
    requires Refines(db, route, m) && route(d.at) == 0
    ensures Refines(SetAt(db, d), route, Merge1(m, d))
  {
    if d.at in m {
      ImportUndoesPair(KeyIndex(0, d.at, m[d.at].header), COMPOSIT_KEY_MAX);
    }
    assert Newer(db, d) <==> Storable(d.at) && (d.at in m ==> m[d.at].header.revision < d.header.revision);
    ChangedRefines(db, route, m, d.at, SetChange(db, d), d.value);
  }

  function SetAll(db: Db, rows: seq<Row>): Db {
    if rows == [] then db else SetAt(SetAll(db, rows[..|rows| - 1]), rows[|rows| - 1])
  }

  ghost predicate RoutedToZero(route: Route, rows: seq<Row>) {
    forall i :: 0 <= i < |rows| ==> route(rows[i].at) == 0
  }

  /** `set` for a batch: on any bytes row by row, and the merge for keys that the store holds under prefix 0. */
  method SetBatch(store: LocalStore, rows: seq<Row>)
    modifies store
    ensures store.db == SetAll(old(store.db), rows)
    ensures old(store.Valid()) && RoutedToZero(store.route, rows) ==>
              store.Valid() && store.view == Merge(old(store.view), rows)
  {
    for i := 0 to |rows|
      invariant store.db == SetAll(old(store.db), rows[..i])
      invariant old(store.Valid()) && RoutedToZero(store.route, rows) ==>
                  store.Valid() && store.view == Merge(old(store.view), rows[..i])
    {
      assert rows[..i + 1][..i] == rows[..i];
      SetRow(store, rows[i]);
    }
    assert rows[..|rows|] == rows;
  }

  method SetRow(store: LocalStore, d: Row)
    modifies store
    ensures store.db == SetAt(old(store.db), d)
    ensures old(store.Valid()) && store.route(d.at) == 0 ==>
              store.Valid() && store.view == Merge1(old(store.view), d)
  {
    if store.Valid() && store.route(d.at) == 0 {
      SetIsMerge(store.db, store.route, store.view, d);
    }
    store.view := Merge1(store.view, d);
    store.db := SetRaw(store.db, d);
  }

  /**
   * The received row is newer than the one under prefix 0, and the key is live under prefix `p` at the same revision.
   * A tombstone that finds no row under prefix 0 leaves the data row alone.
   */
  predicate Disturbs(db: Db, d: Row, p: u32) {
    var h := HeaderAt(db, p, d.at);
    && Newer(db, d) && (Dead(d.header) ==> IndexKey(0, d.at) in db)
    && h.Ok? && !Dead(h.value) && h.value.revision == d.header.revision
  }

  /**
   * On any bytes: what is read under another prefix changes only if `Disturbs` says so, and then a live row replaces
   * the value and a tombstone deletes it.
   */
  lemma SetUnderOtherPrefix(db: Db, d: Row, p: u32)
    requires p != 0
    ensures GetAt(SetAt(db, d), p, d.at)
         == if !Disturbs(db, d, p) then GetAt(db, p, d.at)
            else if Dead(d.header) then Err
            else Ok(Entry(HeaderAt(db, p, d.at).value.(state := 0), d.value))
  {
    if Storable(d.at) {
      ReadAfter(db, 0, d.at, SetChange(db, d), p, d.at);
    }
  }

  /** `set` never changes what is read of another key. */
  lemma SetKeepsOtherKeys(db: Db, d: Row, p: u32, b: LogicalKey)
    requires b != d.at
    ensures GetAt(SetAt(db, d), p, b) == GetAt(db, p, b)
  {
    if Storable(d.at) {
      ReadAfter(db, 0, d.at, SetChange(db, d), p, b);
    }
  }

  /** A received value replaces a stored one of the same revision: a family of failing inputs. */
  lemma SetCanOverwrite(db: Db, route: Route, m: Map, at: LogicalKey, value: bytes)
    requires Refines(db, route, m) && at in m && route(at) != 0 && !Dead(m[at].header) && value != m[at].value
    ensures GetAt(SetAt(db, Row(at, m[at].header, value)), route(at), at) != GetAt(db, route(at), at)
  {
    HeadersRefine(db, route, m, at, route(at));
    HeadersRefine(db, route, m, at, 0);
    SetUnderOtherPrefix(db, Row(at, m[at].header, value), route(at));
    ReadUnderItsPrefix(db, route, m, at, route(at));
  }

  /** Two received rows, an older one and then a tombstone of the stored revision, erase a live key: another family. */
  lemma SetCanErase(db: Db, route: Route, m: Map, older: Row, dead: Header)
    requires Refines(db, route, m) && older.at in m && route(older.at) != 0 && !Dead(m[older.at].header)
    requires older.header.revision < dead.revision == m[older.at].header.revision && Dead(dead)
    ensures var at, once := older.at, SetAt(db, older);
            GetAt(once, route(at), at).Ok? && GetAt(SetAt(once, Row(at, dead, [])), route(at), at) == Err
  {
    var at, p := older.at, route(older.at);
    var once := SetAt(db, older);
    HeadersRefine(db, route, m, at, p);
    HeadersRefine(db, route, m, at, 0);
    ReadUnderItsPrefix(db, route, m, at, p);
    SetUnderOtherPrefix(db, older, p);
    HeaderAfter(db, 0, at, SetChange(db, older), p, at);
    OlderIsIndexed(db, older);
    SetUnderOtherPrefix(once, Row(at, dead, []), p);
  }

  /** A row received for a key without an index row under prefix 0 can be superseded by any newer one. */
  lemma OlderIsIndexed(db: Db, d: Row)
    requires Storable(d.at) && IndexKey(0, d.at) !in db
    ensures var k, db' := IndexKey(0, d.at), SetAt(db, d);
            k in db' && ImportSpec(k, db'[k], COMPOSIT_KEY_MAX) == Ok(KeyIndex(0, d.at, d.header))
  {
    IndexRowAfter(db, 0, d.at, SetChange(db, d));
    ImportUndoesPair(KeyIndex(0, d.at, d.header), COMPOSIT_KEY_MAX);
  }

  /**
   * A row received from another node can be read under prefix 0 and under no other, whatever prefix it had there.
   */
  lemma ReceivedRowsAreAtZero(db: Db, route: Route, m: Map, at: LogicalKey, p: u32)
    requires Refines(db, route, m) && at in m && route(at) == 0 && !Dead(m[at].header)
    ensures GetAt(db, p, at).Ok? <==> p == 0
    ensures GetAt(db, 0, at) == Ok(m[at].(header := m[at].header.(state := 0)))
  {
    ReadUnderItsPrefix(db, route, m, at, p);
    ReadUnderItsPrefix(db, route, m, at, 0);
  }

  // ---- pull: the rows of a range ----

  /** What `pull` sends for a row: tombstones always, live rows when their prefix lies in the range. */
  predicate Wanted(prefix: u32, h: Header, range: HandOff.RingRange) {
    Dead(h) || HandOff.InRange(prefix, range)
  }

  function ToRow(at: LogicalKey, e: Entry): Row {
    Row(at, e.header.(size := 0), e.value)
  }

  /** What one scanned index row contributes: one row or none. */
  function RowFor(db: Db, k: bytes, range: HandOff.RingRange): seq<Row> {
    if k !in db then []
    else
      match ImportSpec(k, db[k], 300)
      case Err => []
      case Ok(ki) =>
        if Dead(ki.header) then [ToRow(ki.at, Entry(ki.header, []))]
        else
          var dk := DataKey(ki.at, ki.header.revision);
          if HandOff.InRange(ki.prefix, range) && dk in db then [ToRow(ki.at, Entry(ki.header, db[dk]))] else []
  }

  function RowsFor(db: Db, ks: seq<bytes>, range: HandOff.RingRange): seq<Row> {
    if ks == [] then [] else RowsFor(db, ks[..|ks| - 1], range) + RowFor(db, ks[|ks| - 1], range)
  }

  /** The entries that `pull` transfers: user keys up to 270 bytes, tombstones or in range. */
  predicate Transfers(m: Map, route: Route, range: HandOff.RingRange, at: LogicalKey) {
    at in m && |at.key| <= PULL_KEY_MAX && Wanted(route(at), m[at].header, range)
  }

  lemma RowForEntry(db: Db, route: Route, m: Map, range: HandOff.RingRange, at: LogicalKey)
    requires Refines(db, route, m) && at in m
    ensures RowFor(db, IndexKey(route(at), at), range)
         == if Transfers(m, route, range, at) then [ToRow(at, m[at])] else []
  {
    ImportUndoesPair(KeyIndex(route(at), at, m[at].header), 300);
  }

  lemma ScannedKeyHasEntry(db: Db, route: Route, m: Map, k: bytes) returns (at: LogicalKey)
    requires Refines(db, route, m) && k in db && IndexMarker() <= k
    ensures at in m && k == IndexKey(route(at), at)
  {
    if IsDataKey(k) {
      var b, r :| Storable(b) && k == DataKey(b, r);
      DataKeyIsNoIndexKey(b, r);
    }
    at :| Storable(at) && k == IndexKey(route(at), at);
  }

  ghost predicate AllIndexKeys(db: Db, ks: seq<bytes>) {
    forall i :: 0 <= i < |ks| ==> ks[i] in db && IndexMarker() <= ks[i]
  }

  /** A pulled row is the row of a transferable entry whose index key was scanned, and the other way round. */
  lemma {:induction false} PulledRowsAre(db: Db, route: Route, m: Map, ks: seq<bytes>, range: HandOff.RingRange, d: Row)
    requires Refines(db, route, m) && AllIndexKeys(db, ks)
    ensures d in RowsFor(db, ks, range)
       <==> Transfers(m, route, range, d.at) && d == ToRow(d.at, m[d.at]) && IndexKey(route(d.at), d.at) in ks
  {
    if ks != [] {
      var init, k := ks[..|ks| - 1], ks[|ks| - 1];
      PulledRowsAre(db, route, m, init, range, d);
      assert k == ks[|ks| - 1] && IndexMarker() <= k;
      var at := ScannedKeyHasEntry(db, route, m, k);
      RowForEntry(db, route, m, range, at);
      InLast(ks, IndexKey(route(d.at), d.at));
      if d.at != at && d.at in m {
        IndexKeysApart(route, at, d.at);
      }
    }
  }

  /**
   * What the whole scan yields: exactly the transferable entries.
   */
  lemma PullIsExact(db: Db, route: Route, m: Map, ks: seq<bytes>, range: HandOff.RingRange, d: Row)
    requires Refines(db, route, m) && IsScan(ks, db.Keys, IndexMarker())
    ensures d in RowsFor(db, ks, range) <==> Transfers(m, route, range, d.at) && d == ToRow(d.at, m[d.at])
  {
    forall i | 0 <= i < |ks| ensures ks[i] in db && IndexMarker() <= ks[i] {
      assert ks[i] in ks;
    }
    PulledRowsAre(db, route, m, ks, range, d);
    if d.at in m {
      assert IndexMarker() <= IndexKey(route(d.at), d.at);
    }
  }

  /** Tombstones travel with every range; live rows with the ranges that hold their token. */
  lemma WhoTravels(db: Db, route: Route, m: Map, ks: seq<bytes>, range: HandOff.RingRange, at: LogicalKey)
    requires Refines(db, route, m) && IsScan(ks, db.Keys, IndexMarker()) && at in m && |at.key| <= 270
    ensures Row(at, m[at].header.(size := 0), m[at].value) in RowsFor(db, ks, range)
       <==> m[at].header.state == DATA_STATE_DELETED || HandOff.InRange(route(at), range)
  {
    PullIsExact(db, route, m, ks, range, Row(at, m[at].header.(size := 0), m[at].value));
  }

  // ---- batches ----

  function Flatten(batches: seq<seq<Row>>): seq<Row> {
    if batches == [] then [] else Flatten(batches[..|batches| - 1]) + batches[|batches| - 1]
  }

  /** Every batch but the last is full; none is empty or too large. */
  ghost predicate WellBatched(batches: seq<seq<Row>>) {
    && (forall i :: 0 <= i < |batches| - 1 ==> |batches[i]| == PULL_BATCH_SIZE)
    && (batches != [] ==> 0 < |batches[|batches| - 1]| <= PULL_BATCH_SIZE)
  }

  lemma FlattenSnoc(batches: seq<seq<Row>>, b: seq<Row>)
    ensures Flatten(batches + [b]) == Flatten(batches) + b
  {
    assert (batches + [b])[..|batches|] == batches;
  }

  /** `pull`: scan the index rows, collect, send a batch whenever 100 rows are waiting and the rest at the end. */
  method Pull(db: Db, range: HandOff.RingRange) returns (batches: seq<seq<Row>>, ghost ks: seq<bytes>)
    ensures IsScan(ks, db.Keys, IndexMarker())
    ensures Flatten(batches) == RowsFor(db, ks, range)
    ensures WellBatched(batches)
  {
    var keys := Seek(db.Keys, IndexMarker());
    batches, ks := [], keys;
    var data: seq<Row> := [];
    for i := 0 to |keys|
      invariant Flatten(batches) + data == RowsFor(db, keys[..i], range)
      invariant |data| < PULL_BATCH_SIZE
      invariant forall j :: 0 <= j < |batches| ==> |batches[j]| == PULL_BATCH_SIZE
    {
      assert keys[..i + 1][..i] == keys[..i];
      assert keys[i] in keys;
      var row := PullRow(db, keys[i], range);
      batches, data := Push(batches, data, row);
    }
    assert keys[..|keys|] == keys;
    if |data| > 0 {
      FlattenSnoc(batches, data);
      batches := batches + [data];
    }
  }

  /** Add a row to the waiting batch and send it when it is full. */
  method Push(batches: seq<seq<Row>>, data: seq<Row>, row: seq<Row>) returns (sent: seq<seq<Row>>, waiting: seq<Row>)
    requires |data| < PULL_BATCH_SIZE && |row| <= 1
    requires forall j :: 0 <= j < |batches| ==> |batches[j]| == PULL_BATCH_SIZE
    ensures Flatten(sent) + waiting == (Flatten(batches) + data) + row
    ensures |waiting| < PULL_BATCH_SIZE
    ensures forall j :: 0 <= j < |sent| ==> |sent[j]| == PULL_BATCH_SIZE
  {
    sent, waiting := batches, data + row;
    if |waiting| == PULL_BATCH_SIZE {
      FlattenSnoc(batches, waiting);
      sent, waiting := batches + [waiting], [];
    }
  }

  /** The loop body of `pull` for one index row. */
  method PullRow(db: Db, k: bytes, range: HandOff.RingRange) returns (row: seq<Row>)
    requires k in db
    ensures row == RowFor(db, k, range) && |row| <= 1
  {
    row := [];
    var imported := Import(k, db[k], 300);
    if imported.Err? {
      return;
    }
    var ki := imported.value;
    if ki.header.state == DATA_STATE_DELETED {
      return [ToRow(ki.at, Entry(ki.header, []))];
    }
    if HandOff.InRange(ki.prefix, range) {
      var dk := DataKey(ki.at, ki.header.revision);
      if dk in db {
        row := [ToRow(ki.at, Entry(ki.header, db[dk]))];
      }
    }
  }

  // ---- pull then set ----

  /** The store a fresh node ends up with: the transferable entries, with everything but their size. */
  ghost function Received(m: Map, route: Route, range: HandOff.RingRange): Map {
    map at | at in m && Transfers(m, route, range, at) :: m[at].(header := m[at].header.(size := 0))
  }

  lemma MakeToRow(db: Db, route: Route, m: Map, at: LogicalKey)
    requires Refines(db, route, m) && at in m
    ensures MakeEntry(ToRow(at, m[at]).header, ToRow(at, m[at]).value) == m[at].(header := m[at].header.(size := 0))
  {
  }

  lemma PulledOffers(db: Db, route: Route, m: Map, ks: seq<bytes>, range: HandOff.RingRange, at: LogicalKey, e: Entry)
    requires Refines(db, route, m) && IsScan(ks, db.Keys, IndexMarker())
    ensures Offers(RowsFor(db, ks, range), at, e)
       <==> Transfers(m, route, range, at) && e == m[at].(header := m[at].header.(size := 0))
  {
    var rows := RowsFor(db, ks, range);
    if Offers(rows, at, e) {
      var i :| 0 <= i < |rows| && rows[i].at == at && Storable(at) && e == MakeEntry(rows[i].header, rows[i].value);
      assert rows[i] in rows;
      PullIsExact(db, route, m, ks, range, rows[i]);
      MakeToRow(db, route, m, at);
    }
    if Transfers(m, route, range, at) {
      PullIsExact(db, route, m, ks, range, ToRow(at, m[at]));
      MakeToRow(db, route, m, at);
      var i :| 0 <= i < |rows| && rows[i] == ToRow(at, m[at]);
    }
  }

  /** Merging the pulled rows into an empty store reproduces revision, timestamp, state and value of each. */
  lemma TransferIsFaithful(db: Db, route: Route, m: Map, ks: seq<bytes>, range: HandOff.RingRange)
    requires Refines(db, route, m) && IsScan(ks, db.Keys, IndexMarker())
    ensures Merge(map[], RowsFor(db, ks, range)) == Received(m, route, range)
  {
    var rows, want := RowsFor(db, ks, range), Received(m, route, range);
    var got := Merge(map[], rows);
    forall at ensures (at in got <==> at in want) && (at in got ==> got[at] == want[at]) {
      ReceivedAlike(db, route, m, ks, range, at);
    }
  }

  lemma ReceivedAlike(db: Db, route: Route, m: Map, ks: seq<bytes>, range: HandOff.RingRange, at: LogicalKey)
    requires Refines(db, route, m) && IsScan(ks, db.Keys, IndexMarker())
    ensures var got, want := Merge(map[], RowsFor(db, ks, range)), Received(m, route, range);
            (at in got <==> at in want) && (at in got ==> got[at] == want[at])
  {
    var rows, want := RowsFor(db, ks, range), Received(m, route, range);
    var got := Merge(map[], rows);
    if at in got {
      MergeTakesNewest(map[], rows, at, got[at]);
      PulledOffers(db, route, m, ks, range, at, got[at]);
    }
    if at in want {
      PulledOffers(db, route, m, ks, range, at, want[at]);
      MergeTakesNewest(map[], rows, at, want[at]);
    }
  }

  /** The batches of a stream, in the order of their arrival. */
  method SetBatches(target: LocalStore, batches: seq<seq<Row>>)
    requires target.Valid() && forall at :: target.route(at) == 0
    modifies target
    ensures target.Valid() && target.view == Merge(old(target.view), Flatten(batches))
  {
    ghost var m := target.view;
    for i := 0 to |batches|
      invariant target.Valid() && target.view == Merge(m, Flatten(batches[..i]))
    {
      assert batches[..i + 1][..i] == batches[..i];
      MergeSplits(m, Flatten(batches[..i]), batches[i]);
      SetBatch(target, batches[i]);
    }
    assert batches[..|batches|] == batches;
  }

  /** `runSyncRingRange`: pull one range from `source` and set it on `target`. */
  method RecoverRange(source: LocalStore, target: LocalStore, range: HandOff.RingRange) returns (ghost ks: seq<bytes>)
    requires source != target && target.Valid() && forall at :: target.route(at) == 0
    modifies target
    ensures IsScan(ks, source.db.Keys, IndexMarker())
    ensures target.Valid() && target.view == Merge(old(target.view), RowsFor(source.db, ks, range))
  {
    var batches;
    batches, ks := Pull(source.db, range);
    SetBatches(target, batches);
  }

  /** One range into a fresh store. */
  method TransferRange(source: LocalStore, range: HandOff.RingRange) returns (target: LocalStore)
    requires source.Valid()
    ensures fresh(target) && target.Valid() && target.view == Received(source.view, source.route, range)
  {
    target := new LocalStore(_ => 0);
    ghost var ks := RecoverRange(source, target, range);
    TransferIsFaithful(source.db, source.route, source.view, ks, range);
  }
}
