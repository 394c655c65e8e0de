/**
 * A member joins: the ranges a live member emits, pulled from its store and merged into the joiner's, carry exactly
 * the rows whose tokens pass from that member to the joiner.
 */
module Rebalance {
  import opened Ring
  import opened HandOff
  import opened Membership
  import opened KeyCodec
  import opened Bytes
  import opened Versions
  import opened Rows
  import opened Store
  import opened Scan
  import opened Transfer

  /** The rows pulled for all the ranges, one range after another. */
  function RowsForAll(db: Db, ks: seq<bytes>, ranges: seq<RingRange>): seq<Row> {
    if ranges == [] then [] else RowsForAll(db, ks, ranges[..|ranges| - 1]) + RowsFor(db, ks, ranges[|ranges| - 1])
  }

  /** Some range transfers the entry. */
  ghost predicate InSome(m: Map, route: Route, ranges: seq<RingRange>, at: LogicalKey) {
    exists i :: 0 <= i < |ranges| && Transfers(m, route, ranges[i], at)
  }

  function Stripped(e: Entry): Entry {
    e.(header := e.header.(size := 0))
  }

  lemma OffersAppend(a: seq<Row>, b: seq<Row>, at: LogicalKey, e: Entry)
    ensures Offers(a + b, at, e) <==> Offers(a, at, e) || Offers(b, at, e)
  {
    var c := a + b;
    if Offers(a, at, e) {
      var i :| 0 <= i < |a| && a[i].at == at && Storable(at) && e == MakeEntry(a[i].header, a[i].value);
      assert c[i] == a[i];
    }
    if Offers(b, at, e) {
      var i :| 0 <= i < |b| && b[i].at == at && Storable(at) && e == MakeEntry(b[i].header, b[i].value);
      assert c[|a| + i] == b[i];
    }
  }

  lemma {:induction false} AllOffers(db: Db, route: Route, m: Map, ks: seq<bytes>, ranges: seq<RingRange>,
                                     at: LogicalKey, e: Entry)
    requires Refines(db, route, m) && IsScan(ks, db.Keys, IndexMarker())
    ensures Offers(RowsForAll(db, ks, ranges), at, e) <==> InSome(m, route, ranges, at) && e == Stripped(m[at])
  {
    if ranges != [] {
      var init, last := ranges[..|ranges| - 1], ranges[|ranges| - 1];
      AllOffers(db, route, m, ks, init, at, e);
      PulledOffers(db, route, m, ks, last, at, e);
      OffersAppend(RowsForAll(db, ks, init), RowsFor(db, ks, last), at, e);
      SomeSnoc(m, route, ranges, at);
    }
  }

  lemma SomeSnoc(m: Map, route: Route, ranges: seq<RingRange>, at: LogicalKey)
    requires ranges != []
    ensures InSome(m, route, ranges, at)
       <==> InSome(m, route, ranges[..|ranges| - 1], at) || Transfers(m, route, ranges[|ranges| - 1], at)
  {
    var init := ranges[..|ranges| - 1];
    if InSome(m, route, init, at) {
      var i :| 0 <= i < |init| && Transfers(m, route, init[i], at);
      assert ranges[i] == init[i];
    }
  }

  /** What a fresh joiner holds after pulling all the ranges. */
  lemma JoinerHolds(db: Db, route: Route, m: Map, ks: seq<bytes>, ranges: seq<RingRange>, at: LogicalKey)
    requires Refines(db, route, m) && IsScan(ks, db.Keys, IndexMarker())
    ensures var got := Merge(map[], RowsForAll(db, ks, ranges));
            && (at in got <==> InSome(m, route, ranges, at))
            && (at in got ==> got[at] == Stripped(m[at]))
  {
    var rows := RowsForAll(db, ks, ranges);
    var got := Merge(map[], rows);
    if at in got {
      MergeTakesNewest(map[], rows, at, got[at]);
      AllOffers(db, route, m, ks, ranges, at, got[at]);
    }
    if InSome(m, route, ranges, at) {
      AllOffers(db, route, m, ks, ranges, at, Stripped(m[at]));
      MergeTakesNewest(map[], rows, at, Stripped(m[at]));
    }
  }

  lemma {:induction false} CoverSome(ranges: seq<RingRange>, t: Token)
    ensures Cover(ranges, t) > 0 <==> exists i :: 0 <= i < |ranges| && InRange(t, ranges[i])
  {
    if ranges != [] {
      CoverSome(ranges[1..], t);
      if Cover(ranges[1..], t) > 0 {
        var i :| 0 <= i < |ranges[1..]| && InRange(t, ranges[1..][i]);
        assert ranges[i + 1] == ranges[1..][i];
      }
    }
  }

  /**
   * Live rows with keys up to 270 bytes reach the joiner exactly when their token passes from the member to the
   * joiner, and arrive with their revision, timestamp, state and value.
   */
  lemma JoinerReceivesItsShare(hash: Hash, weight: nat, live: seq<Member>, back: seq<Node>, joiner: Member, k: nat,
                               db: Db, route: Route, m: Map, ks: seq<bytes>, at: LogicalKey)
    requires Cluster(hash, weight, live, back, joiner) && k < |live|
    requires Refines(db, route, m) && IsScan(ks, db.Keys, IndexMarker())
    requires at in m && !Dead(m[at].header) && |at.key| <= PULL_KEY_MAX
    ensures back != []
    ensures var ranges := Emitted(live[k].name, back, Sort(VNodes(hash, joiner, weight)));
            var got := Merge(map[], RowsForAll(db, ks, ranges));
            && (at in got <==> Moves(hash, weight, back, live[k], joiner, route(at)))
            && (at in got ==> got[at] == Stripped(m[at]))
  {
    MemberHandsOffItsLoss(hash, weight, live, back, joiner, k, route(at));
    var ranges := Emitted(live[k].name, back, Sort(VNodes(hash, joiner, weight)));
    JoinerHolds(db, route, m, ks, ranges, at);
    CoverSome(ranges, route(at));
    LiveInSome(m, route, ranges, at);
  }

  lemma LiveInSome(m: Map, route: Route, ranges: seq<RingRange>, at: LogicalKey)
    requires at in m && !Dead(m[at].header) && |at.key| <= PULL_KEY_MAX
    ensures InSome(m, route, ranges, at) <==> exists i :: 0 <= i < |ranges| && InRange(route(at), ranges[i])
  {
  }

  /** Received rows are stored under prefix 0. */
  function AtZero(at: LogicalKey): u32 {
    0
  }

  lemma HeldIsReadableAtZero(joined: Db, got: Map, at: LogicalKey, p: u32)
    requires Refines(joined, AtZero, got) && (at in got ==> !Dead(got[at].header))
    ensures GetAt(joined, p, at).Ok? <==> p == 0 && at in got
  {
    ReadUnderItsPrefix(joined, AtZero, got, at, p);
  }

  /** `recoverFromNode`: all the ranges, one after another, into a fresh store. */
  method Recover(source: LocalStore, ranges: seq<RingRange>, ghost ks: seq<bytes>) returns (target: LocalStore)
    requires IsScan(ks, source.db.Keys, IndexMarker())
    ensures fresh(target) && target.route == AtZero && target.Valid()
    ensures target.view == Merge(map[], RowsForAll(source.db, ks, ranges))
  {
    target := new LocalStore(AtZero);
    for i := 0 to |ranges|
      invariant fresh(target) && target.route == AtZero && target.Valid()
      invariant target.view == Merge(map[], RowsForAll(source.db, ks, ranges[..i]))
    {
      assert ranges[..i + 1][..i] == ranges[..i];
      ghost var scanned := RecoverRange(source, target, ranges[i]);
      ScanUnique(scanned, ks);
      MergeSplits(map[], RowsForAll(source.db, ks, ranges[..i]), RowsFor(source.db, ks, ranges[i]));
    }
    assert ranges[..|ranges|] == ranges;
  }

  /** A live row, short enough to travel, reads at the joiner under prefix `p` exactly when it moves and `p` is 0. */
  ghost predicate ReadableIffMoved(hash: Hash, weight: nat, back: seq<Node>, member: Member, joiner: Member,
                                   m: Map, route: Route, joined: Db, at: LogicalKey, p: u32) {
    at in m && !Dead(m[at].header) && |at.key| <= PULL_KEY_MAX ==>
      (GetAt(joined, p, at).Ok? <==> p == 0 && Moves(hash, weight, back, member, joiner, route(at)))
  }

  /**
   * Reading a moved row at the joiner.  The joiner's bytes hold it under prefix 0, while readers route with its
   * token, so it is readable there under prefix `p` exactly when it has moved and `p` is 0.
   */
  lemma MovedRowIsReadableIff(hash: Hash, weight: nat, live: seq<Member>, back: seq<Node>, joiner: Member, k: nat,
                              db: Db, route: Route, m: Map, ks: seq<bytes>, at: LogicalKey,
                              got: Map, joined: Db, p: u32)
    requires Cluster(hash, weight, live, back, joiner) && k < |live| && back != []
    requires Refines(db, route, m) && IsScan(ks, db.Keys, IndexMarker())
    requires got == Merge(map[], RowsForAll(db, ks, Emitted(live[k].name, back, Sort(VNodes(hash, joiner, weight)))))
    requires Refines(joined, AtZero, got)
    ensures ReadableIffMoved(hash, weight, back, live[k], joiner, m, route, joined, at, p)
  {
    if at in m && !Dead(m[at].header) && |at.key| <= PULL_KEY_MAX {
      JoinerReceivesItsShare(hash, weight, live, back, joiner, k, db, route, m, ks, at);
      HeldIsReadableAtZero(joined, got, at, p);
    }
  }

  /** The joiner pulls what member `k` hands off and ends with a store that reads so for every row and prefix. */
  method PullFromMember(hash: Hash, weight: nat, ghost live: seq<Member>, back: seq<Node>, joiner: Member,
                        ghost k: nat, name: string, source: LocalStore, ghost ks: seq<bytes>)
    returns (target: LocalStore)
    requires Cluster(hash, weight, live, back, joiner) && k < |live| && back != [] && name == live[k].name
    requires source.Valid() && IsScan(ks, source.db.Keys, IndexMarker())
    ensures fresh(target) && target.Valid()
    ensures forall at, p ::
              ReadableIffMoved(hash, weight, back, live[k], joiner, source.view, source.route, target.db, at, p)
  {
    target := Recover(source, Emitted(name, back, Sort(VNodes(hash, joiner, weight))), ks);
    forall at, p
      ensures ReadableIffMoved(hash, weight, back, live[k], joiner, source.view, source.route, target.db, at, p)
    {
      MovedRowIsReadableIff(hash, weight, live, back, joiner, k, source.db, source.route, source.view, ks, at,
                            target.view, target.db, p);
    }
  }
}
