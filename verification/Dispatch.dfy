/**
 * Delivery of transaction mail to the locally connected listeners: a pool of listener ids is rotated until one that
 * subscribes to the transaction's name comes up.
 */
module Dispatch {
  import opened Options
  import opened Rotation
  import opened Sequences

  /** A listener id or a topic. */
  datatype Name = Name(s: string)

  const EMPTY: Name := Name("")

  /** `ReceiverAsync`: the queue of the current stream, named by a number, and the topics subscribed to. */
  datatype Listener = Listener(q: nat, topics: set<Name>)

  type Listeners = map<Name, Listener>

  predicate Wants(ls: Listeners, topic: Name, id: Name) {
    id in ls && topic in ls[id].topics
  }

  function Live(ls: Listeners): Name -> bool {
    (id: Name) => id in ls
  }

  function Wanting(ls: Listeners, topic: Name): Name -> bool {
    (id: Name) => Wants(ls, topic, id)
  }

  /** The id that ends the lap: the first live one passed, or the empty id before that. */
  function Mark(ls: Listeners, pool: seq<Name>, i: nat): Name
    requires i <= |pool|
  {
    if i == 0 then EMPTY
    else if Mark(ls, pool, i - 1) == EMPTY && pool[i - 1] in ls then pool[i - 1]
    else Mark(ls, pool, i - 1)
  }

  predicate LapEnds(ls: Listeners, pool: seq<Name>, i: nat)
    requires i < |pool|
  {
    pool[i] == Mark(ls, pool, i)
  }

  predicate Stops(ls: Listeners, topic: Name, pool: seq<Name>, i: nat)
    requires i <= |pool|
  {
    i == |pool| || LapEnds(ls, pool, i) || Wants(ls, topic, pool[i])
  }

  /** Where the scan stops: the first index, from `i` on, that is wanted, ends the lap or is past the end. */
  function Stop(ls: Listeners, topic: Name, pool: seq<Name>, i: nat): (k: nat)
    requires i <= |pool|
    ensures i <= k <= |pool| && Stops(ls, topic, pool, k)
    ensures forall j :: i <= j < k ==> !Stops(ls, topic, pool, j)
    decreases |pool| - i
  {
    if Stops(ls, topic, pool, i) then i else Stop(ls, topic, pool, i + 1)
  }

  /** The listener the mail is offered to. */
  function Offered(ls: Listeners, topic: Name, pool: seq<Name>): Option<Name> {
    var k := Stop(ls, topic, pool, 0);
    if k == |pool| || LapEnds(ls, pool, k) then None else Some(pool[k])
  }

  /** The pool when the scan has reached index `i`: dead ids passed are gone, live ones are at the tail. */
  function Rotated(ls: Listeners, pool: seq<Name>, i: nat): seq<Name>
    requires i <= |pool|
  {
    pool[i..] + Filter(pool[..i], Live(ls))
  }

  /** The pool after the mail. */
  function Next(ls: Listeners, topic: Name, pool: seq<Name>): seq<Name> {
    var k := Stop(ls, topic, pool, 0);
    Rotated(ls, pool, if k == |pool| || LapEnds(ls, pool, k) then k else k + 1)
  }

  /** Nothing before index `i` stops the scan. */
  ghost predicate Passed(ls: Listeners, topic: Name, pool: seq<Name>, i: nat) {
    i <= |pool| && forall j :: 0 <= j < i ==> !Stops(ls, topic, pool, j)
  }

  lemma FilterUpTo(pool: seq<Name>, i: nat, p: Name -> bool)
    requires i < |pool|
    ensures Filter(pool[..i + 1], p) == if p(pool[i]) then Filter(pool[..i], p) + [pool[i]] else Filter(pool[..i], p)
  {
    assert pool[..i + 1][..i] == pool[..i];
    FilterLast(pool[..i + 1], p);
  }

  /** The mark is the first live id passed. */
  lemma {:induction false} MarkIsFirstLive(ls: Listeners, topic: Name, pool: seq<Name>, i: nat)
    requires Passed(ls, topic, pool, i)
    ensures var passed := Filter(pool[..i], Live(ls)); Mark(ls, pool, i) == if passed == [] then EMPTY else passed[0]
    ensures Filter(pool[..i], Live(ls)) != [] ==> Mark(ls, pool, i) != EMPTY
  {
    if i > 0 {
      MarkIsFirstLive(ls, topic, pool, i - 1);
      FilterUpTo(pool, i - 1, Live(ls));
      assert !Stops(ls, topic, pool, i - 1);
    }
  }

  lemma RotatedStep(ls: Listeners, pool: seq<Name>, i: nat)
    requires i < |pool|
    ensures Rotated(ls, pool, i) != [] && Rotated(ls, pool, i)[0] == pool[i]
    ensures Rotated(ls, pool, i + 1)
         == if pool[i] in ls then Rotated(ls, pool, i)[1..] + [pool[i]] else Rotated(ls, pool, i)[1..]
  {
    FilterUpTo(pool, i, Live(ls));
  }

  /** What the head of the pool says about the scan. */
  lemma HeadOfPool(ls: Listeners, topic: Name, pool: seq<Name>, i: nat)
    requires Passed(ls, topic, pool, i)
    ensures var r := Rotated(ls, pool, i);
            && (r == [] ==> i == |pool|)
            && (r != [] && r[0] == Mark(ls, pool, i) ==> i == |pool| || LapEnds(ls, pool, i))
            && (r != [] && r[0] != Mark(ls, pool, i) ==> i < |pool| && r[0] == pool[i] && !LapEnds(ls, pool, i))
  {
    MarkIsFirstLive(ls, topic, pool, i);
  }

  /** The scan stops at the first index that stops it. */
  lemma StopIs(ls: Listeners, topic: Name, pool: seq<Name>, k: nat)
    requires Passed(ls, topic, pool, k) && Stops(ls, topic, pool, k)
    ensures Stop(ls, topic, pool, 0) == k
  {
  }

  // ---- when a mail is offered ----

  /** The subscriber at index `k` comes before the end of the lap. */
  ghost predicate InReach(ls: Listeners, topic: Name, pool: seq<Name>, k: nat) {
    k < |pool| && Wants(ls, topic, pool[k]) && forall j :: 0 <= j <= k ==> !LapEnds(ls, pool, j)
  }

  /** A mail is offered exactly when some subscriber comes before the end of the lap, and then to the first. */
  lemma OfferedIff(ls: Listeners, topic: Name, pool: seq<Name>)
    ensures Offered(ls, topic, pool).Some? <==> exists k: nat :: InReach(ls, topic, pool, k)
    ensures Offered(ls, topic, pool).Some? ==>
              exists k: nat :: && InReach(ls, topic, pool, k) && Offered(ls, topic, pool) == Some(pool[k])
                               && forall j :: 0 <= j < k ==> !Wants(ls, topic, pool[j])
  {
    var s := Stop(ls, topic, pool, 0);
    forall k: nat | InReach(ls, topic, pool, k) ensures Offered(ls, topic, pool).Some? {
      assert Stops(ls, topic, pool, k);
    }
    if Offered(ls, topic, pool).Some? {
      forall j | 0 <= j < s ensures !LapEnds(ls, pool, j) && !Wants(ls, topic, pool[j]) {
        assert !Stops(ls, topic, pool, j);
      }
      assert InReach(ls, topic, pool, s);
    }
  }

  /** A second entry of the first live listener ends the lap at once and hides everyone behind it. */
  lemma DuplicateHidesSubscribers(ls: Listeners, topic: Name, x: Name, rest: seq<Name>)
    requires x != EMPTY && x in ls && !Wants(ls, topic, x)
    ensures Offered(ls, topic, [x, x] + rest) == None
  {
    var pool := [x, x] + rest;
    assert Mark(ls, pool, 0) == EMPTY && Mark(ls, pool, 1) == x;
    StopIs(ls, topic, pool, 1);
  }

  /** An empty id at the head blocks all mail, and stays there. */
  lemma EmptyIdBlocksMail(ls: Listeners, topic: Name, rest: seq<Name>)
    ensures Offered(ls, topic, [EMPTY] + rest) == None && Next(ls, topic, [EMPTY] + rest) == [EMPTY] + rest
  {
    StopIs(ls, topic, [EMPTY] + rest, 0);
  }

  // ---- clean pools ----

  ghost predicate Clean(pool: seq<Name>) {
    NoDuplicates(pool) && EMPTY !in pool
  }

  lemma {:induction false} MarkPassed(ls: Listeners, pool: seq<Name>, i: nat)
    requires i <= |pool|
    ensures Mark(ls, pool, i) == EMPTY || exists j :: 0 <= j < i && pool[j] == Mark(ls, pool, i)
  {
    if i > 0 {
      MarkPassed(ls, pool, i - 1);
    }
  }

  lemma CleanLapNeverEnds(ls: Listeners, pool: seq<Name>, i: nat)
    requires Clean(pool) && i < |pool|
    ensures !LapEnds(ls, pool, i)
  {
    MarkPassed(ls, pool, i);
  }

  /** On a clean pool the scan stops at the first subscriber. */
  lemma CleanStop(ls: Listeners, topic: Name, pool: seq<Name>) returns (k: nat)
    requires Clean(pool)
    ensures k == Stop(ls, topic, pool, 0) && (k < |pool| ==> !LapEnds(ls, pool, k))
    ensures var w := Filter(pool, Wanting(ls, topic));
            && Filter(pool[..k], Wanting(ls, topic)) == []
            && (k < |pool| ==> w == [pool[k]] + Filter(pool[k + 1..], Wanting(ls, topic)))
            && (k == |pool| ==> w == [])
  {
    k := Stop(ls, topic, pool, 0);
    var p := Wanting(ls, topic);
    forall j | 0 <= j < k ensures !p(pool[..k][j]) {
      assert !Stops(ls, topic, pool, j);
    }
    FilterNone(pool[..k], p);
    assert pool == pool[..k] + pool[k..];
    FilterAppend(pool[..k], pool[k..], p);
    if k < |pool| {
      CleanLapNeverEnds(ls, pool, k);
      assert pool[k..][1..] == pool[k + 1..];
    }
  }

  /** On a clean pool a mail is offered to the first subscriber in the pool, and to nobody if there is none. */
  lemma CleanPoolOffersFirst(ls: Listeners, topic: Name, pool: seq<Name>)
    requires Clean(pool)
    ensures var w := Filter(pool, Wanting(ls, topic));
            Offered(ls, topic, pool) == if w == [] then None else Some(w[0])
  {
    var k := CleanStop(ls, topic, pool);
  }

  /** Only dead ids leave the pool: its live ids are rotated, on every pool. */
  lemma LiveIdsAreRotated(ls: Listeners, topic: Name, pool: seq<Name>) returns (a: seq<Name>, b: seq<Name>)
    ensures Filter(pool, Live(ls)) == a + b && Filter(Next(ls, topic, pool), Live(ls)) == b + a
    ensures forall id :: id in Next(ls, topic, pool) ==> id in pool
  {
    var k := Stop(ls, topic, pool, 0);
    var i := if k == |pool| || LapEnds(ls, pool, k) then k else k + 1;
    a, b := Filter(pool[..i], Live(ls)), Filter(pool[i..], Live(ls));
    assert pool == pool[..i] + pool[i..];
    FilterAppend(pool[..i], pool[i..], Live(ls));
    FilterAppend(pool[i..], a, Live(ls));
    FilterIdempotent(pool[..i], Live(ls));
    FilterMembers(pool[..i], Live(ls));
  }

  lemma RotatedIsClean(ls: Listeners, pool: seq<Name>, i: nat)
    requires Clean(pool) && i <= |pool|
    ensures Clean(Rotated(ls, pool, i))
  {
    var a, b := Filter(pool[..i], Live(ls)), pool[i..];
    FilterNoDuplicates(pool[..i], Live(ls));
    FilterMembers(pool[..i], Live(ls));
    forall x, y | 0 <= x < y < |b + a| ensures (b + a)[x] != (b + a)[y] {
      if x < |b| <= y {
        assert a[y - |b|] in pool[..i];
      }
    }
  }

  /** The subscribers of a topic are rotated by one. */
  lemma SubscribersRotate(ls: Listeners, topic: Name, pool: seq<Name>)
    requires Clean(pool)
    ensures var w := Filter(pool, Wanting(ls, topic));
            Filter(Next(ls, topic, pool), Wanting(ls, topic)) == if w == [] then [] else w[1..] + [w[0]]
    ensures Clean(Next(ls, topic, pool))
  {
    var p := Wanting(ls, topic);
    var k := CleanStop(ls, topic, pool);
    var i := if k == |pool| then k else k + 1;
    RotatedIsClean(ls, pool, i);
    FilterAppend(pool[i..], Filter(pool[..i], Live(ls)), p);
    FilterImplied(pool[..i], p, Live(ls));
    if k < |pool| {
      FilterUpTo(pool, k, p);
    }
  }

  lemma LiveStay(ls: Listeners, topic: Name, pool: seq<Name>)
    ensures forall id :: id in pool && id in ls ==> id in Next(ls, topic, pool)
  {
    var a, b := LiveIdsAreRotated(ls, topic, pool);
    forall id | id in pool && id in ls ensures id in Next(ls, topic, pool) {
      FilterMember(pool, Live(ls), id);
      FilterMember(Next(ls, topic, pool), Live(ls), id);
    }
  }

  // ---- round robin ----

  /** The pool after `n` mails of one topic. */
  function PoolAfter(ls: Listeners, topic: Name, pool: seq<Name>, n: nat): seq<Name> {
    if n == 0 then pool else Next(ls, topic, PoolAfter(ls, topic, pool, n - 1))
  }

  /** After `n` mails the subscribers are rotated by `n`. */
  lemma {:induction false} SubscribersAfter(ls: Listeners, topic: Name, pool: seq<Name>, n: nat)
    returns (after: seq<Name>)
    requires Clean(pool) && Filter(pool, Wanting(ls, topic)) != []
    ensures after == PoolAfter(ls, topic, pool, n) && Clean(after)
    ensures var w := Filter(pool, Wanting(ls, topic)); Filter(after, Wanting(ls, topic)) == Turned(w, n % |w|)
  {
    var w := Filter(pool, Wanting(ls, topic));
    if n == 0 {
      after := pool;
      assert Turned(w, 0) == w;
    } else {
      var before := SubscribersAfter(ls, topic, pool, n - 1);
      SubscribersStep(ls, topic, before, w, n - 1);
      after := Next(ls, topic, before);
    }
  }

  lemma SubscribersStep(ls: Listeners, topic: Name, pool: seq<Name>, w: seq<Name>, n: nat)
    requires Clean(pool) && w != [] && Filter(pool, Wanting(ls, topic)) == Turned(w, n % |w|)
    ensures Clean(Next(ls, topic, pool))
    ensures Filter(Next(ls, topic, pool), Wanting(ls, topic)) == Turned(w, (n + 1) % |w|)
  {
    SubscribersRotate(ls, topic, pool);
    TurnOnce(w, n);
  }

  /** Successive mails of one topic go round its subscribers: the `n`-th is offered to number `n` modulo their count. */
  lemma MailsGoRound(ls: Listeners, topic: Name, pool: seq<Name>, n: nat)
    requires Clean(pool) && Filter(pool, Wanting(ls, topic)) != []
    ensures var w := Filter(pool, Wanting(ls, topic));
            NoDuplicates(w) && Offered(ls, topic, PoolAfter(ls, topic, pool, n)) == Some(w[n % |w|])
  {
    FilterNoDuplicates(pool, Wanting(ls, topic));
    var after := SubscribersAfter(ls, topic, pool, n);
    CleanPoolOffersFirst(ls, topic, after);
  }

  /** In any round of as many mails as there are subscribers, each subscriber is offered exactly one. */
  lemma EachRoundReachesEveryone(ls: Listeners, topic: Name, pool: seq<Name>, n: nat, id: Name) returns (j: nat)
    requires Clean(pool) && id in pool && Wants(ls, topic, id)
    ensures var k := |Filter(pool, Wanting(ls, topic))|;
            && n <= j < n + k && Offered(ls, topic, PoolAfter(ls, topic, pool, j)) == Some(id)
            && forall i :: n <= i < n + k && Offered(ls, topic, PoolAfter(ls, topic, pool, i)) == Some(id) ==> i == j
  {
    var w := Filter(pool, Wanting(ls, topic));
    FilterMember(pool, Wanting(ls, topic), id);
    var m :| 0 <= m < |w| && w[m] == id;
    j := OneInEachRound(n, |w|, m);
    MailsGoRound(ls, topic, pool, j);
    forall i | n <= i < n + |w| && Offered(ls, topic, PoolAfter(ls, topic, pool, i)) == Some(id) ensures i == j {
      MailsGoRound(ls, topic, pool, i);
      assert w[i % |w|] == w[m];
    }
  }

  lemma AppendClean(pool: seq<Name>, name: Name)
    requires Clean(pool)
    ensures Clean(pool + [name]) <==> name != EMPTY && name !in pool
  {
    var p := pool + [name];
    assert p[|pool|] == name;
    assert forall j :: 0 <= j < |pool| ==> p[j] == pool[j];
  }

  // ---- listeners come and go ----

  /** The listeners, the pool and the number of the next stream queue. */
  datatype State = State(listeners: Listeners, pool: seq<Name>, nextQ: nat)

  const NOBODY: State := State(map[], [], 0)

  /** Every live listener is in the pool, and queues of older streams are not reused. */
  ghost predicate Sane(s: State) {
    && (forall id :: id in s.listeners ==> id in s.pool)
    && (forall id :: id in s.listeners ==> s.listeners[id].q < s.nextQ)
  }

  /** A stream of `name` starts: a new queue, the old topics; an id that is not live joins the tail of the pool. */
  function Started(s: State, name: Name): State {
    var topics := if name in s.listeners then s.listeners[name].topics else {};
    State(s.listeners[name := Listener(s.nextQ, topics)],
          if name in s.listeners then s.pool else s.pool + [name], s.nextQ + 1)
  }

  /** The stream with queue `q` asks for the removal of `name`. */
  function Removed(s: State, name: Name, q: nat): State {
    if name in s.listeners && s.listeners[name].q == q then s.(listeners := s.listeners - {name}) else s
  }

  function Subscribed(s: State, name: Name, topic: Name): State {
    var t := if name in s.listeners then s else Started(s, name);
    var l := t.listeners[name];
    t.(listeners := t.listeners[name := l.(topics := l.topics + {topic})])
  }

  /** Who subscribes to what survives every start of a stream, also of a listener that reconnects. */
  lemma StartKeepsSubscriptions(s: State, name: Name, topic: Name, id: Name)
    ensures Wants(Started(s, name).listeners, topic, id) <==> Wants(s.listeners, topic, id)
    ensures name in Started(s, name).listeners && Started(s, name).listeners[name].q == s.nextQ
  {
  }

  /** A stream that was replaced by a restart cannot remove the listener, however late its removal arrives. */
  lemma StaleRemoveKeepsListener(s: State, name: Name, q: nat, later: seq<Name>)
    requires Sane(s) && q < s.nextQ
    ensures var t := StartAll(Started(s, name), later); Removed(t, name, q) == t && name in t.listeners
  {
    StartsMoveOn(Started(s, name), name, later, q);
  }

  /** Streams of several listeners start one after another. */
  function StartAll(s: State, names: seq<Name>): State {
    if names == [] then s else Started(StartAll(s, names[..|names| - 1]), names[|names| - 1])
  }

  lemma {:induction false} StartsMoveOn(s: State, name: Name, names: seq<Name>, q: nat)
    requires name in s.listeners && s.listeners[name].q > q && s.nextQ > q
    ensures var t := StartAll(s, names); name in t.listeners && t.listeners[name].q > q && t.nextQ > q
  {
    if names != [] {
      StartsMoveOn(s, name, names[..|names| - 1], q);
    }
  }

  /** A listener that ends its stream and starts again is in the pool twice. */
  lemma RestartDuplicates(s: State, x: Name)
    requires x !in s.listeners
    ensures Started(Removed(Started(s, x), x, s.nextQ), x).pool == s.pool + [x] + [x]
  {
  }

  /** From the empty dispatcher: after such a restart of `x`, mail for the subscriber `y` is dropped. */
  lemma RestartHidesSubscriber(x: Name, y: Name, topic: Name)
    requires x != EMPTY && x != y
    ensures var s := Subscribed(Started(Removed(Started(NOBODY, x), x, 0), x), y, topic);
            && Sane(s) && y in s.pool && Wants(s.listeners, topic, y)
            && Offered(s.listeners, topic, s.pool) == None
  {
    var s := Subscribed(Started(Removed(Started(NOBODY, x), x, 0), x), y, topic);
    assert s.pool == [x, x] + [y];
    DuplicateHidesSubscribers(s.listeners, topic, x, [y]);
  }

  lemma StartedIsSane(s: State, name: Name)
    requires Sane(s)
    ensures Sane(Started(s, name))
    ensures Clean(s.pool) ==>
              (Clean(Started(s, name).pool) <==> name in s.listeners || (name != EMPTY && name !in s.pool))
  {
    var t := Started(s, name);
    if name !in s.listeners {
      assert t.pool[|s.pool|] == name;
      if Clean(s.pool) {
        AppendClean(s.pool, name);
      }
    }
    assert forall id :: id in s.pool ==> id in t.pool;
  }

  // ---- the dispatcher ----

  class Dispatcher {
    var listeners: Listeners
    var pool: seq<Name>
    /** The number of the next stream queue. */
    var nextQ: nat

    ghost function Now(): State
      reads this
    {
      State(listeners, pool, nextQ)
    }

    ghost predicate Valid()
      reads this
    {
      Sane(Now())
    }

    constructor ()
      ensures Valid() && Now() == NOBODY
    {
      listeners, pool, nextQ := map[], [], 0;
    }

    /** `RECEIVER_START`; the pool stays clean exactly when the id is live or new. */
    method ReceiverStart(name: Name) returns (q: nat)
      requires Valid()
      modifies this
      ensures Valid() && q == old(nextQ) && Now() == Started(old(Now()), name)
      ensures name in listeners && listeners[name].q == q
      ensures forall id, t :: Wants(listeners, t, id) <==> Wants(old(listeners), t, id)
      ensures old(Clean(pool)) ==> (Clean(pool) <==> name in old(listeners) || (name != EMPTY && name !in old(pool)))
    {
      StartedIsSane(Now(), name);
      q := nextQ;
      nextQ := nextQ + 1;
      var topics := {};
      if name in listeners {
        topics := listeners[name].topics;
      } else {
        pool := pool + [name];
      }
      listeners := listeners[name := Listener(q, topics)];
    }

    /** `RECEIVER_REMOVE`; the id stays in the pool. */
    method ReceiverRemove(name: Name, q: nat)
      requires Valid()
      modifies `listeners
      ensures Valid() && Now() == Removed(old(Now()), name, q)
      ensures forall id, t :: Wants(listeners, t, id) ==> Wants(old(listeners), t, id)
      ensures forall id, t :: Wants(old(listeners), t, id) && !Wants(listeners, t, id) ==>
                id == name && old(listeners)[id].q == q
    {
      if name in listeners && listeners[name].q == q {
        listeners := listeners - {name};
      }
    }

    /** `registerSubscription` of a local subscription. */
    method Subscribe(nodeId: Name, topic: Name)
      requires Valid()
      modifies this
      ensures Valid() && Now() == Subscribed(old(Now()), nodeId, topic)
      ensures forall id, t :: Wants(listeners, t, id) <==> Wants(old(listeners), t, id) || (id == nodeId && t == topic)
    {
      StartedIsSane(Now(), nodeId);
      if nodeId !in listeners {
        listeners := listeners[nodeId := Listener(nextQ, {})];
        nextQ := nextQ + 1;
        pool := pool + [nodeId];
      }
      var l := listeners[nodeId];
      listeners := listeners[nodeId := l.(topics := l.topics + {topic})];
    }

    /** `registerSubscription` of a deletion. */
    method Unsubscribe(nodeId: Name, topic: Name)
      requires Valid()
      modifies `listeners
      ensures Valid() && listeners.Keys == old(listeners).Keys
      ensures forall id, t :: Wants(listeners, t, id) <==> Wants(old(listeners), t, id) && !(id == nodeId && t == topic)
    {
      if nodeId in listeners {
        var l := listeners[nodeId];
        listeners := listeners[nodeId := l.(topics := l.topics - {topic})];
      }
    }

    /**
     * The transaction-mail loop.  `ready` says which listeners have room; an offer to a full one is dropped.
     * The loop ends on every pool, with duplicates, dead ids and empty ids.
     */
    method TransMail(topic: Name, ready: Name -> bool) returns (to: Option<Name>, delivered: bool)
      requires Valid()
      modifies `pool
      ensures Valid()
      ensures to == Offered(listeners, topic, old(pool)) && pool == Next(listeners, topic, old(pool))
      ensures delivered == (to.Some? && ready(to.value))
    {
      LiveStay(listeners, topic, pool);
      ghost var k;
      to, k := Rotate(topic);
      delivered := to.Some? && ready(to.value);
    }

    /** The rotation itself; it stops at index `k` of the pool it started with. */
    method Rotate(topic: Name) returns (to: Option<Name>, ghost k: nat)
      modifies `pool
      ensures k == Stop(listeners, topic, old(pool), 0)
      ensures to.None? ==>
                (k == |old(pool)| || LapEnds(listeners, old(pool), k)) && pool == Rotated(listeners, old(pool), k)
      ensures to.Some? ==> k < |old(pool)| && !LapEnds(listeners, old(pool), k) && to.value == old(pool)[k]
                           && pool == Rotated(listeners, old(pool), k + 1)
    {
      to, k := None, 0;
      var lk := EMPTY;
      ghost var p := pool;
      assert pool == Rotated(listeners, p, 0);
      while true
        invariant Passed(listeners, topic, p, k) && to == None
        invariant pool == Rotated(listeners, p, k) && lk == Mark(listeners, p, k)
        decreases |p| - k
      {
        HeadOfPool(listeners, topic, p, k);
        if |pool| == 0 {
          StopIs(listeners, topic, p, k);
          break;
        }
        var nk := pool[0];
        if lk == nk {
          StopIs(listeners, topic, p, k);
          break;
        }
        RotatedStep(listeners, p, k);
        if nk !in listeners {
          pool := pool[1..];
          k := k + 1;
          continue;
        }
        if topic in listeners[nk].topics {
          to := Some(nk);
          StopIs(listeners, topic, p, k);
          pool := pool[1..] + [nk];
          break;
        }
        if lk == EMPTY {
          lk := nk;
        }
        pool := pool[1..] + [nk];
        k := k + 1;
      }
    }
  }
}
