/**
 * The simple versioned map that the byte store implements: at most one entry per logical key, with its header
 * and, unless it is a tombstone, its value.  What the operations of `local_data_service.go` promise is stated
 * and proved here; `Store` shows that the byte rows refine it.
 */
module Versions {
  import opened Bytes
  import opened KeyCodec

  datatype Entry = Entry(header: Header, value: bytes)

  type Map = map<LogicalKey, Entry>

  /** A request, taken as a value: routing prefix, logical key, the caller's header fields and the payload. */
  datatype Request = Request(prefix: u32, at: LogicalKey, revision: u64, updatable: bool, state: u32, value: bytes)

  predicate Dead(h: Header) {
    h.state == DATA_STATE_DELETED
  }

  /** A tombstone keeps no value. */
  function MakeEntry(h: Header, value: bytes): Entry {
    Entry(h, if Dead(h) then [] else value)
  }

  function Next(revision: u64): u64 {
    (revision + 1) % 0x1_0000_0000_0000_0000
  }

  function Size32(value: bytes): u32 {
    |value| % 0x1_0000_0000
  }

  predicate Storable(at: LogicalKey) {
    |at.key| <= INDEX_KEY_MAX
  }

  /** A mutable row exists for the key. */
  predicate Updatable(m: Map, at: LogicalKey) {
    Storable(at) && at in m && m[at].header.updatable
  }

  // ---- which requests are accepted, and the header they leave behind ----

  predicate AcceptsCreate(m: Map, q: Request) {
    Storable(q.at) && (q.at in m ==> Dead(m[q.at].header))
  }

  predicate AcceptsUpdate(m: Map, q: Request) {
    Updatable(m, q.at) && m[q.at].header.revision == q.revision
  }

  /** The caller's revision plays no part. */
  predicate AcceptsDelete(m: Map, q: Request) {
    Updatable(m, q.at) && !Dead(m[q.at].header)
  }

  predicate AcceptsReset(m: Map, q: Request) {
    Updatable(m, q.at)
  }

  function Created(q: Request, now: u64): Header {
    Header(1, now, Size32(q.value), q.updatable, q.state)
  }

  function Updated(h: Header, q: Request, now: u64): Header {
    h.(revision := Next(h.revision), timestamp := now, size := Size32(q.value))
  }

  function Deleted(h: Header): Header {
    h.(revision := Next(h.revision), state := DATA_STATE_DELETED)
  }

  function Restarted(h: Header, q: Request, now: u64): Header {
    h.(revision := 1, timestamp := now, size := Size32(q.value))
  }

  // ---- the operations ----

  datatype Op = Create | Update | Delete | Reset
  datatype Call = Call(op: Op, q: Request, now: u64)

  predicate Accepts(m: Map, c: Call) {
    match c.op
    case Create => AcceptsCreate(m, c.q)
    case Update => AcceptsUpdate(m, c.q)
    case Delete => AcceptsDelete(m, c.q)
    case Reset => AcceptsReset(m, c.q)
  }

  function NewHeader(m: Map, c: Call): Header
    requires Accepts(m, c)
  {
    match c.op
    case Create => Created(c.q, c.now)
    case Update => Updated(m[c.q.at].header, c.q, c.now)
    case Delete => Deleted(m[c.q.at].header)
    case Reset => Restarted(m[c.q.at].header, c.q, c.now)
  }

  /** A rejected call changes nothing; an accepted one replaces the entry of its key and no other. */
  function Apply(m: Map, c: Call): Map {
    if Accepts(m, c) then m[c.q.at := MakeEntry(NewHeader(m, c), c.q.value)] else m
  }

  function Get(m: Map, at: LogicalKey): Result<Entry> {
    if Storable(at) && at in m && !Dead(m[at].header)
    then Ok(m[at].(header := m[at].header.(state := 0)))
    else Err
  }

  function Run(m: Map, calls: seq<Call>): Map {
    if calls == [] then m else Apply(Run(m, calls[..|calls| - 1]), calls[|calls| - 1])
  }

  // ---- reads see the last accepted write ----

  /** What an accepted call did to its key. */
  datatype Event =
    | Wrote(value: bytes, now: u64, updatable: bool, state: u32)
    | Rewrote(value: bytes, now: u64, restarts: bool)
    | Removed

  function EventOf(c: Call): Event {
    match c.op
    case Create => Wrote(c.q.value, c.now, c.q.updatable, c.q.state)
    case Delete => Removed
    case Update => Rewrote(c.q.value, c.now, false)
    case Reset => Rewrote(c.q.value, c.now, true)
  }

  /** The accepted calls of a run on one key, from an empty store. */
  function History(calls: seq<Call>, at: LogicalKey): seq<Event> {
    if calls == [] then []
    else
      var init, c := calls[..|calls| - 1], calls[|calls| - 1];
      if c.q.at == at && Accepts(Run(map[], init), c) then History(init, at) + [EventOf(c)] else History(init, at)
  }

  /** The last create or delete decides about the state; updates and resets leave it as it is. */
  function LastState(h: seq<Event>): u32 {
    if h == [] then 0
    else match h[|h| - 1]
         case Wrote(_, _, _, state) => state
         case Removed => DATA_STATE_DELETED
         case Rewrote(_, _, _) => LastState(h[..|h| - 1])
  }

  predicate Tombstoned(h: seq<Event>) {
    h != [] && LastState(h) == DATA_STATE_DELETED
  }

  function LastValue(h: seq<Event>): bytes {
    if h == [] then []
    else match h[|h| - 1]
         case Wrote(value, _, _, _) => value
         case Rewrote(value, _, _) => value
         case Removed => []
  }

  /** Creates and resets start at 1, updates and deletes count on. */
  function LastRevision(h: seq<Event>): u64 {
    if h == [] then 0
    else match h[|h| - 1]
         case Wrote(_, _, _, _) => 1
         case Rewrote(_, _, true) => 1
         case Rewrote(_, _, false) => (LastRevision(h[..|h| - 1]) + 1) % 0x1_0000_0000_0000_0000
         case Removed => (LastRevision(h[..|h| - 1]) + 1) % 0x1_0000_0000_0000_0000
  }

  /** A delete keeps the time of the last write. */
  function LastTime(h: seq<Event>): u64 {
    if h == [] then 0
    else match h[|h| - 1]
         case Wrote(_, now, _, _) => now
         case Rewrote(_, now, _) => now
         case Removed => LastTime(h[..|h| - 1])
  }

  /** And its size. */
  function LastSize(h: seq<Event>): u32 {
    if h == [] then 0
    else match h[|h| - 1]
         case Wrote(value, _, _, _) => |value| % 0x1_0000_0000
         case Rewrote(value, _, _) => |value| % 0x1_0000_0000
         case Removed => LastSize(h[..|h| - 1])
  }

  /** The last create decides whether the key can be changed. */
  predicate Changeable(h: seq<Event>) {
    h != [] && match h[|h| - 1]
               case Wrote(_, _, updatable, _) => updatable
               case Rewrote(_, _, _) => Changeable(h[..|h| - 1])
               case Removed => Changeable(h[..|h| - 1])
  }

  /** The header is what the events `h` left behind. */
  ghost predicate Heads(e: Header, h: seq<Event>) {
    && e.revision == LastRevision(h) && e.timestamp == LastTime(h) && e.size == LastSize(h)
    && e.updatable == Changeable(h) && e.state == LastState(h)
  }

  /** So is the entry of `at`. */
  ghost predicate Tracks(m: Map, h: seq<Event>, at: LogicalKey) {
    && (at in m <==> h != [])
    && (at in m ==> Storable(at) && Heads(m[at].header, h))
    && (at in m && !Dead(m[at].header) ==> m[at].value == LastValue(h))
  }

  lemma AcceptedStepTracks(m: Map, h: seq<Event>, c: Call)
    requires Tracks(m, h, c.q.at) && Accepts(m, c)
    ensures Tracks(Apply(m, c), h + [EventOf(c)], c.q.at)
  {
    HeaderTracks(m, h, c);
    assert (h + [EventOf(c)])[|h|] == EventOf(c);
  }

  lemma HeaderTracks(m: Map, h: seq<Event>, c: Call)
    requires Tracks(m, h, c.q.at) && Accepts(m, c)
    ensures Heads(NewHeader(m, c), h + [EventOf(c)])
  {
    var h' := h + [EventOf(c)];
    assert h'[|h'| - 1] == EventOf(c) && h'[..|h'| - 1] == h;
  }

  lemma {:induction false} EntryFollowsHistory(calls: seq<Call>, at: LogicalKey)
    ensures Tracks(Run(map[], calls), History(calls, at), at)
  {
    if calls != [] {
      var init, c := calls[..|calls| - 1], calls[|calls| - 1];
      EntryFollowsHistory(init, at);
      if c.q.at == at && Accepts(Run(map[], init), c) {
        AcceptedStepTracks(Run(map[], init), History(init, at), c);
      }
    }
  }

  /**
   * Over every run from an empty store, `get` returns the value of the last accepted write, with the revision, time,
   * size and mutability that the accepted calls have left, and fails exactly when nothing was ever accepted for the
   * key or the key is a tombstone.
   */
  lemma GetReturnsLastAcceptedWrite(calls: seq<Call>, at: LogicalKey)
    ensures var h, r := History(calls, at), Get(Run(map[], calls), at);
            && (r.Err? <==> h == [] || Tombstoned(h))
            && (r.Ok? ==> r.value == Entry(Header(LastRevision(h), LastTime(h), LastSize(h), Changeable(h), 0),
                                           LastValue(h)))
  {
    EntryFollowsHistory(calls, at);
  }

  /**
   * What the events before a call allow: a create of a key that is new or a tombstone; an update of a changeable key
   * with the revision reached; a delete of a changeable key that is live; a reset of a changeable key.
   */
  predicate Allowed(h: seq<Event>, c: Call) {
    match c.op
    case Create => h == [] || Tombstoned(h)
    case Update => Changeable(h) && c.q.revision == LastRevision(h)
    case Delete => Changeable(h) && !Tombstoned(h)
    case Reset => Changeable(h)
  }

  /** Over every run, which calls are accepted follows from the calls accepted before. */
  lemma AcceptedIff(calls: seq<Call>, c: Call)
    ensures Accepts(Run(map[], calls), c) <==> Storable(c.q.at) && Allowed(History(calls, c.q.at), c)
  {
    EntryFollowsHistory(calls, c.q.at);
  }

  // ---- immutable keys ----

  lemma {:induction false} ImmutableStays(m: Map, calls: seq<Call>, at: LogicalKey)
    requires at in m && !m[at].header.updatable && !Dead(m[at].header)
    ensures at in Run(m, calls) && Run(m, calls)[at] == m[at]
  {
    if calls != [] {
      ImmutableStays(m, calls[..|calls| - 1], at);
    }
  }

  /**
   * A key that was created as not updatable, and live, reads for good as it was created: no later call of any kind
   * changes its value, revision, time or size.
   */
  lemma ImmutableForever(calls: seq<Call>, q: Request, now: u64, more: seq<Call>)
    requires !q.updatable && q.state != DATA_STATE_DELETED && Accepts(Run(map[], calls), Call(Create, q, now))
    ensures Get(Run(map[], calls + [Call(Create, q, now)] + more), q.at)
         == Ok(Entry(Header(1, now, |q.value| % 0x1_0000_0000, false, 0), q.value))
  {
    var c, empty: Map := Call(Create, q, now), map[];
    var all := calls + [c] + more;
    RunSnoc(empty, calls, c);
    RunSplits(empty, all, |calls| + 1);
    assert all[..|calls| + 1] == calls + [c] && all[|calls| + 1..] == more;
    ImmutableStays(Run(empty, calls + [c]), more, q.at);
  }

  /** An update of a tombstone with the current revision is accepted, and the key still cannot be read. */
  lemma UpdateDoesNotRevive(m: Map, q: Request, now: u64)
    requires AcceptsUpdate(m, q)
    ensures Get(Apply(m, Call(Update, q, now)), q.at).Ok? <==> !Dead(m[q.at].header)
  {
    var m' := Apply(m, Call(Update, q, now));
    assert m'[q.at].header.state == m[q.at].header.state;
  }

  // ---- lost updates ----

  ghost predicate UpdatesAndDeletes(calls: seq<Call>, at: LogicalKey) {
    forall i :: 0 <= i < |calls| ==> calls[i].q.at == at && (calls[i].op.Update? || calls[i].op.Delete?)
  }

  function Successes(m: Map, calls: seq<Call>): nat {
    if calls == [] then 0
    else
      var init := calls[..|calls| - 1];
      Successes(m, init) + if Accepts(Run(m, init), calls[|calls| - 1]) then 1 else 0
  }

  /** Every success of a run of updates and deletes advances the revision by one. */
  lemma {:induction false} RevisionCountsSuccesses(m: Map, calls: seq<Call>, at: LogicalKey)
    requires at in m && UpdatesAndDeletes(calls, at)
    ensures at in Run(m, calls)
    ensures Run(m, calls)[at].header.revision
         == (m[at].header.revision + Successes(m, calls)) % 0x1_0000_0000_0000_0000
  {
    if calls != [] {
      RevisionCountsSuccesses(m, calls[..|calls| - 1], at);
    }
  }

  /** The revision of the key after the first `i` calls. */
  function RevisionAt(m: Map, calls: seq<Call>, at: LogicalKey, i: nat): u64
    requires at in m && i <= |calls|
  {
    (m[at].header.revision + Successes(m, calls[..i])) % 0x1_0000_0000_0000_0000
  }

  /**
   * No lost updates: in every run of updates and deletes, an update that succeeds has seen all successes before it, and
   * one that has not changes nothing.
   */
  lemma UpdateSawAllSuccesses(m: Map, calls: seq<Call>, at: LogicalKey, i: nat)
    requires at in m && UpdatesAndDeletes(calls, at) && i < |calls| && calls[i].op.Update?
    ensures Accepts(Run(m, calls[..i]), calls[i]) ==> calls[i].q.revision == RevisionAt(m, calls, at, i)
    ensures calls[i].q.revision != RevisionAt(m, calls, at, i) ==> Run(m, calls[..i + 1]) == Run(m, calls[..i])
  {
    RevisionCountsSuccesses(m, calls[..i], at);
    assert calls[..i + 1][..i] == calls[..i];
  }

  /** A stale delete changes nothing exactly when the row is missing, immutable or already a tombstone. */
  lemma StaleDeleteChangesNothing(m: Map, q: Request, now: u64)
    requires q.at in m ==> m[q.at].header.revision != q.revision
    ensures Apply(m, Call(Delete, q, now)) == m
       <==> !Storable(q.at) || q.at !in m || !m[q.at].header.updatable || Dead(m[q.at].header)
  {
    if AcceptsDelete(m, q) {
      var m' := Apply(m, Call(Delete, q, now));
      assert Dead(m'[q.at].header);
    }
  }

  lemma RunSnoc(m: Map, calls: seq<Call>, c: Call)
    ensures Run(m, calls + [c]) == Apply(Run(m, calls), c)
  {
    assert (calls + [c])[..|calls + [c]| - 1] == calls;
  }

  /** For every storable key and every stale revision there is a run in which the stale delete removes the row. */
  lemma StaleDeleteCanSucceed(prefix: u32, at: LogicalKey, value: bytes, stale: u64)
    requires Storable(at) && stale != 1
    ensures var create := Call(Create, Request(prefix, at, 0, true, 0, value), 0);
            var delete := Call(Delete, Request(prefix, at, stale, true, 0, []), 0);
            var m := Run(map[], [create]);
            && at in m && m[at].header.revision != stale && Get(m, at).Ok?
            && Get(Run(map[], [create, delete]), at).Err?
  {
    var create := Call(Create, Request(prefix, at, 0, true, 0, value), 0);
    var delete := Call(Delete, Request(prefix, at, stale, true, 0, []), 0);
    var empty: Map := map[];
    RunSnoc(empty, [], create);
    RunSnoc(empty, [create], delete);
    assert [] + [create] == [create] && [create] + [delete] == [create, delete];
    var m := Run(empty, [create]);
    assert AcceptsCreate(empty, create.q);
    assert AcceptsDelete(m, delete.q);
  }

  /** The calls of `calls` that come before position `i`. */
  lemma {:induction false} RunSplits(m: Map, calls: seq<Call>, i: nat)
    requires i <= |calls|
    ensures Run(m, calls) == Run(Run(m, calls[..i]), calls[i..])
    ensures Successes(m, calls) == Successes(m, calls[..i]) + Successes(Run(m, calls[..i]), calls[i..])
  {
    if i == |calls| {
      assert calls[..i] == calls && calls[i..] == [];
    } else {
      var init := calls[..|calls| - 1];
      RunSplits(m, init, i);
      assert init[..i] == calls[..i] && init[i..] == calls[i..][..|calls[i..]| - 1];
    }
  }

  /**
   * Two updates that carry the same revision never both succeed, in any run of updates and deletes shorter than
   * the revision counter's period.
   */
  lemma SameRevisionSucceedsOnce(m: Map, calls: seq<Call>, at: LogicalKey, i: nat, j: nat)
    requires at in m && UpdatesAndDeletes(calls, at) && i < j < |calls| < 0x1_0000_0000_0000_0000
    requires calls[i].op.Update? && calls[j].op.Update? && calls[i].q.revision == calls[j].q.revision
    ensures !(Accepts(Run(m, calls[..i]), calls[i]) && Accepts(Run(m, calls[..j]), calls[j]))
  {
    var before, mid := Run(m, calls[..i]), calls[..j][i..];
    RevisionCountsSuccesses(m, calls[..i], at);
    RunSplits(m, calls[..j], i);
    assert calls[..j][..i] == calls[..i];
    RevisionCountsSuccesses(before, mid, at);
    if Accepts(before, calls[i]) {
      FirstSuccessCounts(before, mid);
    }
  }

  lemma FirstSuccessCounts(m: Map, calls: seq<Call>)
    requires calls != [] && Accepts(m, calls[0])
    ensures 1 <= Successes(m, calls) <= |calls|
  {
    SuccessesBounded(m, calls);
    RunSplits(m, calls, 1);
    assert calls[..1][..0] == [];
  }

  lemma {:induction false} SuccessesBounded(m: Map, calls: seq<Call>)
    ensures Successes(m, calls) <= |calls|
  {
    if calls != [] {
      SuccessesBounded(m, calls[..|calls| - 1]);
    }
  }
}
