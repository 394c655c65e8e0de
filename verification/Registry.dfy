/**
 * The subscription registry: who subscribes to which topic at which endpoint, one connection pool per topic and
 * endpoint, and the round-robin choice of an endpoint.  Go strings are byte sequences.
 */
module Registry {
  import opened Bytes
  import opened Options
  import opened Rotation
  import opened Scan

  /** A Go string. */
  datatype Text = Text(b: bytes)

  datatype TopicKey = TopicKey(topic: Text, endpoint: Text)
  datatype Sub = Sub(nodeId: Text, tag: Text, topic: Text, endpoint: Text)
  datatype Pool = Pool(target: Text, tag: Text, nodeId: Text)

  const COLON: byte := 58
  const HASH: byte := 35

  /** `Key`: node id, tag and topic, separated by colons. */
  function Key(s: Sub): Text {
    Text(s.nodeId.b + [COLON] + s.tag.b + [COLON] + s.topic.b)
  }

  function At(s: Sub): TopicKey {
    TopicKey(s.topic, s.endpoint)
  }

  // ---- the key of a subscription ----

  /** Texts joined by a separator come apart at its first occurrence. */
  lemma FirstSeparator(sep: byte, a: bytes, x: bytes, b: bytes, y: bytes)
    requires sep !in a && sep !in b && a + [sep] + x == b + [sep] + y
    ensures a == b && x == y
  {
    var s := a + [sep] + x;
    forall i | 0 <= i < |a| ensures s[i] != sep {
      assert s[i] == a[i];
    }
    forall i | 0 <= i < |b| ensures s[i] != sep {
      assert s[i] == b[i];
    }
    assert s[|a|] == sep && s[|b|] == sep;
    assert a == s[..|a|] && b == s[..|b|];
    assert x == s[|a| + 1..] && y == s[|b| + 1..];
  }

  /** If there is no other occurrence, there is only one way to take them apart. */
  lemma OnlySeparator(sep: byte, a: bytes, x: bytes, b: bytes, y: bytes)
    requires sep !in a && sep !in x && a + [sep] + x == b + [sep] + y
    ensures a == b && x == y
  {
    var s := a + [sep] + x;
    forall i | 0 <= i < |s| && i != |a| ensures s[i] != sep {
      assert s[i] == if i < |a| then a[i] else x[i - |a| - 1];
    }
    assert s[|b|] == sep;
    assert a == s[..|a|] && b == s[..|b|];
    assert x == s[|a| + 1..] && y == s[|b| + 1..];
  }

  /** Among subscriptions of one topic, node ids without colons keep the keys apart. */
  lemma KeysTellApart(a: Sub, b: Sub)
    requires a.topic == b.topic && COLON !in a.nodeId.b && COLON !in b.nodeId.b && Key(a) == Key(b)
    ensures a.nodeId == b.nodeId && a.tag == b.tag
  {
    var x, y := a.tag.b + [COLON] + a.topic.b, b.tag.b + [COLON] + b.topic.b;
    assert Key(a).b == a.nodeId.b + [COLON] + x;
    assert Key(b).b == b.nodeId.b + [COLON] + y;
    FirstSeparator(COLON, a.nodeId.b, x, b.nodeId.b, y);
    assert a.tag.b == x[..|x| - |a.topic.b| - 1] && b.tag.b == y[..|y| - |b.topic.b| - 1];
  }

  /** A subscription of another node to the same topic at the same endpoint has the same key. */
  predicate Confused(a: Sub, b: Sub) {
    b.nodeId != a.nodeId && At(b) == At(a) && Key(b) == Key(a)
  }

  /** A node id with a colon shares its key with another node. */
  lemma ColonConfuses(a: Sub, i: nat) returns (b: Sub)
    requires i < |a.nodeId.b| && a.nodeId.b[i] == COLON
    ensures Confused(a, b)
  {
    var id := a.nodeId.b;
    b := Sub(Text(id[..i]), Text(id[i + 1..] + [COLON] + a.tag.b), a.topic, a.endpoint);
    assert id == id[..i] + [COLON] + id[i + 1..];
    assert |b.nodeId.b| < |id|;
  }

  /** So does a tag with a colon. */
  lemma ColonInTagConfuses(a: Sub, i: nat) returns (b: Sub)
    requires i < |a.tag.b| && a.tag.b[i] == COLON
    ensures Confused(a, b)
  {
    var tag := a.tag.b;
    b := Sub(Text(a.nodeId.b + [COLON] + tag[..i]), Text(tag[i + 1..]), a.topic, a.endpoint);
    assert tag == tag[..i] + [COLON] + tag[i + 1..];
    assert |b.nodeId.b| > |a.nodeId.b|;
  }

  /** The exact condition: another node shares the key of a subscription iff its node id or its tag holds a colon. */
  lemma KeyIsSharedIff(a: Sub)
    ensures (exists b :: Confused(a, b)) <==> COLON in a.nodeId.b || COLON in a.tag.b
  {
    if i :| 0 <= i < |a.nodeId.b| && a.nodeId.b[i] == COLON {
      var b := ColonConfuses(a, i);
      assert Confused(a, b);
    } else if i :| 0 <= i < |a.tag.b| && a.tag.b[i] == COLON {
      var b := ColonInTagConfuses(a, i);
      assert Confused(a, b);
    } else if b :| Confused(a, b) {
      PlainKeyIsOwn(a, b);
    }
  }

  lemma PlainKeyIsOwn(a: Sub, b: Sub)
    requires COLON !in a.nodeId.b && COLON !in a.tag.b && a.topic == b.topic && Key(a) == Key(b)
    ensures a.nodeId == b.nodeId
  {
    var x, y := a.nodeId.b + [COLON] + a.tag.b, b.nodeId.b + [COLON] + b.tag.b;
    var end := [COLON] + a.topic.b;
    assert Key(a).b == x + end && Key(b).b == y + end;
    assert x == Key(a).b[..|x|] && y == Key(b).b[..|y|] && |x| == |y|;
    OnlySeparator(COLON, a.nodeId.b, a.tag.b, b.nodeId.b, b.tag.b);
  }

  // ---- contents ----

  type Inner = map<Text, Sub>

  /** Subscriptions are stored under their own keys, and there is at least one. */
  ghost predicate ValidInner(k: TopicKey, inner: Inner) {
    inner != map[] && forall e :: e in inner ==> e == Key(inner[e]) && At(inner[e]) == k
  }

  ghost predicate ValidMaps(ends: map<TopicKey, Inner>, pools: map<TopicKey, Pool>) {
    && ends.Keys == pools.Keys
    && (forall k :: k in ends ==> ValidInner(k, ends[k]))
    && (forall k :: k in pools ==> pools[k].target == k.endpoint)
  }

  /** Store `inner` at `k`; nothing is stored for an empty one. */
  function Put(ends: map<TopicKey, Inner>, k: TopicKey, inner: Inner): map<TopicKey, Inner> {
    if inner == map[] then ends - {k} else ends[k := inner]
  }

  function InnerAt(ends: map<TopicKey, Inner>, k: TopicKey): Inner {
    if k in ends then ends[k] else map[]
  }

  /** A subscription that is already there is kept as it is. */
  function With(inner: Inner, s: Sub): Inner {
    if Key(s) in inner then inner else inner[Key(s) := s]
  }

  function Added(ends: map<TopicKey, Inner>, s: Sub): map<TopicKey, Inner> {
    ends[At(s) := With(InnerAt(ends, At(s)), s)]
  }

  function Deleted(ends: map<TopicKey, Inner>, s: Sub): map<TopicKey, Inner> {
    if At(s) in ends then Put(ends, At(s), ends[At(s)] - {Key(s)}) else ends
  }

  /** Adding holds the new subscription, and keeps every other one, also an older one with the same key. */
  lemma AddHoldsAndKeeps(ends: map<TopicKey, Inner>, s: Sub, k: TopicKey, e: Text)
    ensures var after := InnerAt(Added(ends, s), k);
            && (e in InnerAt(ends, k) ==> e in after && after[e] == InnerAt(ends, k)[e])
            && (e !in InnerAt(ends, k) ==>
                  (e in after <==> k == At(s) && e == Key(s)) && (e in after ==> after[e] == s))
  {
  }

  /** Deleting a subscription that was just added restores the registry. */
  lemma DeleteUndoesAdd(ends: map<TopicKey, Inner>, s: Sub)
    requires Key(s) !in InnerAt(ends, At(s)) && (At(s) in ends ==> ends[At(s)] != map[])
    ensures Deleted(Added(ends, s), s) == ends
  {
    var inner := InnerAt(ends, At(s));
    assert inner[Key(s) := s] - {Key(s)} == inner;
    assert At(s) in ends ==> ends[At(s) := inner] == ends;
    assert At(s) !in ends ==> ends[At(s) := inner[Key(s) := s]] - {At(s)} == ends;
  }

  /** The subscriptions not matched by `p`. */
  function Pruned(inner: Inner, p: Sub -> bool): Inner {
    map e | e in inner && !p(inner[e]) :: inner[e]
  }

  /** The subscriptions not matched by `p`, or still to be looked at. */
  function PrunedBut(inner: Inner, p: Sub -> bool, todo: set<Text>): Inner {
    map e | e in inner && (e in todo || !p(inner[e])) :: inner[e]
  }

  lemma PruneStep(inner: Inner, p: Sub -> bool, todo: set<Text>, e: Text)
    requires e in inner && e in todo
    ensures PrunedBut(inner, p, todo - {e})
         == if p(inner[e]) then PrunedBut(inner, p, todo) - {e} else PrunedBut(inner, p, todo)
    ensures e in PrunedBut(inner, p, todo)
  {
  }

  lemma PrunedAll(inner: Inner, p: Sub -> bool)
    ensures PrunedBut(inner, p, inner.Keys) == inner && PrunedBut(inner, p, {}) == Pruned(inner, p)
  {
  }

  lemma PutTwice(ends: map<TopicKey, Inner>, k: TopicKey, a: Inner, b: Inner)
    ensures Put(Put(ends, k, a), k, b) == Put(ends, k, b)
  {
  }

  lemma InnerAtPut(ends: map<TopicKey, Inner>, k: TopicKey, inner: Inner, j: TopicKey)
    ensures InnerAt(Put(ends, k, inner), j) == if j == k then inner else InnerAt(ends, j)
  {
  }

  /** Everything outside `todo` has been pruned. */
  ghost predicate PrunedOutside(ends: map<TopicKey, Inner>, ends': map<TopicKey, Inner>, p: Sub -> bool,
                                todo: set<TopicKey>) {
    forall k :: InnerAt(ends', k) == if k in todo then InnerAt(ends, k) else Pruned(InnerAt(ends, k), p)
  }

  lemma PrunedOutsideStep(ends: map<TopicKey, Inner>, ends': map<TopicKey, Inner>, p: Sub -> bool,
                          todo: set<TopicKey>, k: TopicKey)
    requires PrunedOutside(ends, ends', p, todo) && k in todo && k in ends'
    ensures PrunedOutside(ends, Put(ends', k, Pruned(ends'[k], p)), p, todo - {k})
  {
    var inner := Pruned(ends'[k], p);
    forall j ensures InnerAt(Put(ends', k, inner), j)
                  == if j in todo - {k} then InnerAt(ends, j) else Pruned(InnerAt(ends, j), p)
    {
      InnerAtPut(ends', k, inner, j);
      assert InnerAt(ends', j) == if j in todo then InnerAt(ends, j) else Pruned(InnerAt(ends, j), p);
    }
  }

  // ---- the endpoints a pick chooses from ----

  /** The empty tag fits every subscription. */
  predicate TagFits(tag: Text, s: Sub) {
    tag.b == [] || s.tag == tag
  }

  ghost predicate SomeFits(inner: Inner, tag: Text) {
    exists e :: e in inner && TagFits(tag, inner[e])
  }

  ghost predicate Eligible(ends: map<TopicKey, Inner>, name: Text, tag: Text, endpoint: bytes) {
    var k := TopicKey(name, Text(endpoint));
    k in ends && SomeFits(ends[k], tag)
  }

  /**
   * What a pick may choose: with an empty tag every endpoint of the topic, otherwise those with a subscription of the
   * tag.
   */
  lemma EligibleIff(ends: map<TopicKey, Inner>, pools: map<TopicKey, Pool>, name: Text, tag: Text, endpoint: bytes)
    requires ValidMaps(ends, pools)
    ensures var k := TopicKey(name, Text(endpoint));
            Eligible(ends, name, tag, endpoint) <==>
              k in ends && (tag == Text([]) || exists e :: e in ends[k] && ends[k][e].tag == tag)
  {
    var k := TopicKey(name, Text(endpoint));
    if k in ends {
      assert ValidInner(k, ends[k]);
      var e :| e in ends[k];
      assert tag == Text([]) ==> TagFits(tag, ends[k][e]);
    }
  }

  /** `es` lists exactly the eligible endpoints, in string order. */
  ghost predicate IsEligibleList(es: seq<bytes>, ends: map<TopicKey, Inner>, name: Text, tag: Text) {
    Ascending(es) && forall ep :: ep in es <==> Eligible(ends, name, tag, ep)
  }

  lemma EligibleListUnique(es: seq<bytes>, fs: seq<bytes>, ends: map<TopicKey, Inner>, name: Text, tag: Text)
    requires IsEligibleList(es, ends, name, tag) && IsEligibleList(fs, ends, name, tag)
    ensures es == fs
  {
    ScanUnique(es, fs);
  }

  /** The endpoint that the counter value `c` selects. */
  function Chosen(es: seq<bytes>, c: nat): Text
    requires es != []
  {
    Text(es[c % |es|])
  }

  /** The endpoints selected by successive counter values from `start` on. */
  ghost predicate InTurn(out: seq<Text>, es: seq<bytes>, start: nat)
    requires es != []
  {
    forall i :: 0 <= i < |out| ==> out[i] == Chosen(es, start + i)
  }

  lemma InTurnNext(out: seq<Text>, es: seq<bytes>, start: nat)
    requires es != [] && InTurn(out, es, start)
    ensures InTurn(out + [Chosen(es, start + |out|)], es, start)
  {
  }

  /** Of as many successive counter values as there are endpoints, exactly one selects any given endpoint. */
  lemma EachRoundPicksEveryone(es: seq<bytes>, start: nat, m: nat) returns (c: nat)
    requires Ascending(es) && m < |es|
    ensures start <= c < start + |es| && Chosen(es, c) == Text(es[m])
    ensures forall d :: start <= d < start + |es| && Chosen(es, d) == Text(es[m]) ==> d == c
  {
    c := OneInEachRound(start, |es|, m);
    AscendingDistinct(es, m);
  }

  lemma AscendingDistinct(es: seq<bytes>, m: nat)
    requires Ascending(es) && m < |es|
    ensures forall i :: 0 <= i < |es| && es[i] == es[m] ==> i == m
  {
    LessIrreflexive(es[m]);
  }

  datatype Choice = Choice(endpoint: Text, pool: Pool, nodeId: Text)

  function CounterKey(name: Text, tag: Text): Text {
    Text(name.b + [HASH] + tag.b)
  }

  function CounterAt(idx: map<Text, nat>, k: Text): nat {
    if k in idx then idx[k] else 0
  }

  function Bumped(idx: map<Text, nat>, k: Text): map<Text, nat> {
    idx[k := CounterAt(idx, k) + 1]
  }

  /** Another name or tag uses the same counter. */
  predicate SharesTurn(name: Text, tag: Text, name': Text, tag': Text) {
    (name', tag') != (name, tag) && CounterKey(name', tag') == CounterKey(name, tag)
  }

  /** Picks of one topic for different tags have counters of their own. */
  lemma TagsTakeTurnsApart(name: Text, tag: Text, tag': Text)
    requires tag != tag'
    ensures CounterKey(name, tag) != CounterKey(name, tag')
  {
    var a, b := CounterKey(name, tag).b, CounterKey(name, tag').b;
    assert tag.b == a[|name.b| + 1..] && tag'.b == b[|name.b| + 1..];
  }

  /** The exact condition: a counter is shared by another name and tag iff the name or the tag holds a hash sign. */
  lemma TurnIsSharedIff(name: Text, tag: Text)
    ensures (exists name', tag' :: SharesTurn(name, tag, name', tag')) <==> HASH in name.b || HASH in tag.b
  {
    if i :| 0 <= i < |name.b| && name.b[i] == HASH {
      var n, t := Text(name.b[..i]), Text(name.b[i + 1..] + [HASH] + tag.b);
      assert name.b == name.b[..i] + [HASH] + name.b[i + 1..];
      assert |n.b| < |name.b| && SharesTurn(name, tag, n, t);
    } else if i :| 0 <= i < |tag.b| && tag.b[i] == HASH {
      var n, t := Text(name.b + [HASH] + tag.b[..i]), Text(tag.b[i + 1..]);
      assert tag.b == tag.b[..i] + [HASH] + tag.b[i + 1..];
      assert |n.b| > |name.b| && SharesTurn(name, tag, n, t);
    } else if n, t :| SharesTurn(name, tag, n, t) {
      OnlySeparator(HASH, name.b, tag.b, n.b, t.b);
    }
  }

  class SubscriptionRegistry {
    var topicEnds: map<TopicKey, Inner>
    var cPools: map<TopicKey, Pool>
    var roundIdx: map<Text, nat>

    ghost predicate Valid()
      reads this
    {
      ValidMaps(topicEnds, cPools)
    }

    constructor ()
      ensures Valid() && topicEnds == map[] && roundIdx == map[]
    {
      topicEnds, cPools, roundIdx := map[], map[], map[];
    }

    method Add(s: Sub)
      requires Valid()
      modifies `topicEnds, `cPools
      ensures Valid() && topicEnds == Added(old(topicEnds), s)
      ensures forall k :: k in old(cPools) ==> k in cPools && cPools[k] == old(cPools[k])
      ensures At(s) !in old(cPools) ==> cPools == old(cPools)[At(s) := Pool(s.endpoint, s.tag, s.nodeId)]
    {
      var k := At(s);
      var subs := map[];
      if k in topicEnds {
        subs := topicEnds[k];
      } else {
        cPools := cPools[k := Pool(s.endpoint, s.tag, s.nodeId)];
      }
      if Key(s) !in subs {
        subs := subs[Key(s) := s];
      }
      topicEnds := topicEnds[k := subs];
    }

    method Del(s: Sub)
      requires Valid()
      modifies `topicEnds, `cPools
      ensures Valid() && topicEnds == Deleted(old(topicEnds), s)
      ensures forall k :: k in cPools ==> k in old(cPools) && cPools[k] == old(cPools[k])
    {
      var k := At(s);
      if k !in topicEnds {
        return;
      }
      var subs := topicEnds[k] - {Key(s)};
      if subs != map[] {
        topicEnds := topicEnds[k := subs];
        return;
      }
      cPools := cPools - {k};
      topicEnds := topicEnds - {k};
    }

    /** The inner loop of `lookup` with a deletion: visit the subscriptions of one topic and endpoint. */
    method PruneOne(k: TopicKey, p: Sub -> bool)
      requires Valid() && k in topicEnds
      modifies `topicEnds, `cPools
      ensures Valid() && topicEnds == Put(old(topicEnds), k, Pruned(old(topicEnds[k]), p))
    {
      var inner := topicEnds[k];
      var todo := inner.Keys;
      PrunedAll(inner, p);
      assert topicEnds == Put(topicEnds, k, inner);
      while todo != {}
        invariant Valid() && todo <= inner.Keys
        invariant topicEnds == Put(old(topicEnds), k, PrunedBut(inner, p, todo))
        decreases todo
      {
        var e :| e in todo;
        PruneStep(inner, p, todo, e);
        if p(inner[e]) {
          ghost var kept := PrunedBut(inner, p, todo);
          assert kept != map[];
          PutTwice(old(topicEnds), k, kept, kept - {e});
          DelVisited(k, inner[e]);
        }
        todo := todo - {e};
      }
    }

    method DelVisited(k: TopicKey, s: Sub)
      requires Valid() && k in topicEnds && At(s) == k
      modifies `topicEnds, `cPools
      ensures Valid() && topicEnds == Put(old(topicEnds), k, old(topicEnds[k]) - {Key(s)})
    {
      Del(s);
    }

    /**
     * `lookup` with a deletion, as on the removal of a node or of an endpoint: exactly the matching subscriptions go.
     */
    method RemoveMatching(p: Sub -> bool)
      requires Valid()
      modifies `topicEnds, `cPools
      ensures Valid()
      ensures forall k :: InnerAt(topicEnds, k) == Pruned(InnerAt(old(topicEnds), k), p)
    {
      var todo := topicEnds.Keys;
      forall k ensures k !in topicEnds ==> Pruned(InnerAt(topicEnds, k), p) == map[] {
      }
      while todo != {}
        invariant Valid() && todo <= topicEnds.Keys
        invariant PrunedOutside(old(topicEnds), topicEnds, p, todo)
        decreases todo
      {
        var k :| k in todo;
        PrunedOutsideStep(old(topicEnds), topicEnds, p, todo, k);
        PruneOne(k, p);
        todo := todo - {k};
      }
    }

    method RemoveByNodeId(nodeId: Text)
      requires Valid()
      modifies `topicEnds, `cPools
      ensures Valid()
      ensures forall k :: InnerAt(topicEnds, k) == Pruned(InnerAt(old(topicEnds), k), (s: Sub) => s.nodeId == nodeId)
    {
      RemoveMatching((s: Sub) => s.nodeId == nodeId);
    }

    method RemoveByEndpoint(endpoint: Text)
      requires Valid()
      modifies `topicEnds, `cPools
      ensures Valid()
      ensures forall k :: InnerAt(topicEnds, k) == if k.endpoint == endpoint then map[] else InnerAt(old(topicEnds), k)
    {
      RemoveMatching((s: Sub) => s.endpoint == endpoint);
      assert forall k :: k in old(topicEnds) ==> ValidInner(k, old(topicEnds)[k]);
    }

    /** The first subscription found that fits the tag. */
    method FindTagged(inner: Inner, tag: Text) returns (r: Option<Sub>)
      ensures r.Some? <==> SomeFits(inner, tag)
      ensures r.Some? ==> r.value in inner.Values && TagFits(tag, r.value)
    {
      var todo := inner.Keys;
      while todo != {}
        invariant todo <= inner.Keys
        invariant forall e :: e in inner && e !in todo ==> !TagFits(tag, inner[e])
        decreases todo
      {
        var e :| e in todo;
        if TagFits(tag, inner[e]) {
          return Some(inner[e]);
        }
        todo := todo - {e};
      }
      return None;
    }

    /** `nodes` names a subscription at the endpoint that fits the tag. */
    ghost predicate Fitting(endpoint: Text, nodes: map<Text, Sub>, name: Text, tag: Text)
      reads this
    {
      && endpoint in nodes && TagFits(tag, nodes[endpoint])
      && TopicKey(name, endpoint) in topicEnds && nodes[endpoint] in topicEnds[TopicKey(name, endpoint)].Values
    }

    /** The loop of `pick`: one entry per endpoint, sorted. */
    method Entries(name: Text, tag: Text) returns (es: seq<bytes>, nodes: map<Text, Sub>)
      ensures IsEligibleList(es, topicEnds, name, tag)
      ensures forall ep :: ep in es ==> Fitting(Text(ep), nodes, name, tag)
    {
      es, nodes := [], map[];
      var todo := topicEnds.Keys;
      while todo != {}
        invariant todo <= topicEnds.Keys && Ascending(es)
        invariant forall ep :: ep in es <==> Eligible(topicEnds, name, tag, ep) && TopicKey(name, Text(ep)) !in todo
        invariant forall ep :: ep in es ==> Fitting(Text(ep), nodes, name, tag)
        decreases todo
      {
        var k :| k in todo;
        if k.topic == name {
          var found := FindTagged(topicEnds[k], tag);
          assert k == TopicKey(name, Text(k.endpoint.b));
          if found.Some? {
            PlaceKeepsOrder(es, k.endpoint.b);
            es := Place(es, k.endpoint.b);
            nodes := nodes[k.endpoint := found.value];
          }
        }
        todo := todo - {k};
      }
    }

    /** The choice is a subscription that fits, with the pool of its endpoint. */
    ghost predicate Serves(c: Choice, name: Text, tag: Text)
      reads this
    {
      var k := TopicKey(name, c.endpoint);
      && k in topicEnds && k in cPools && c.pool == cPools[k] && c.pool.target == c.endpoint
      && exists s :: s in topicEnds[k].Values && TagFits(tag, s) && s.nodeId == c.nodeId
    }

    /** The next endpoint for the name and tag; every call moves on by one. */
    method Pick(name: Text, tag: Text) returns (r: Option<Choice>, ghost es: seq<bytes>)
      requires Valid()
      modifies `roundIdx
      ensures IsEligibleList(es, topicEnds, name, tag)
      ensures r.Some? <==> es != []
      ensures r.Some? ==>
                && Serves(r.value, name, tag)
                && r.value.endpoint.b == es[CounterAt(old(roundIdx), CounterKey(name, tag)) % |es|]
      ensures roundIdx == if es == [] then old(roundIdx) else Bumped(old(roundIdx), CounterKey(name, tag))
      ensures forall t :: t != tag ==>
                CounterAt(roundIdx, CounterKey(name, t)) == CounterAt(old(roundIdx), CounterKey(name, t))
    {
      forall t | t != tag ensures CounterKey(name, t) != CounterKey(name, tag) {
        TagsTakeTurnsApart(name, t, tag);
      }
      var list, nodes := Entries(name, tag);
      es := list;
      if |list| == 0 {
        return None, es;
      }
      var key := CounterKey(name, tag);
      var n := CounterAt(roundIdx, key);
      var ep := list[n % |list|];
      var c := ChoiceAt(Text(ep), nodes, name, tag);
      r := Some(c);
      roundIdx := Bumped(roundIdx, key);
    }

    method ChoiceAt(endpoint: Text, nodes: map<Text, Sub>, name: Text, tag: Text) returns (c: Choice)
      requires Valid() && Fitting(endpoint, nodes, name, tag)
      ensures Serves(c, name, tag) && c.endpoint == endpoint
    {
      c := Choice(endpoint, cPools[TopicKey(name, endpoint)], nodes[endpoint].nodeId);
    }

    /** A pick, told which endpoints are eligible. */
    method PickEndpoint(name: Text, tag: Text, ghost es: seq<bytes>) returns (ep: Option<Text>)
      requires Valid() && IsEligibleList(es, topicEnds, name, tag)
      modifies `roundIdx
      ensures var key := CounterKey(name, tag);
              var c := CounterAt(old(roundIdx), key);
              && (es == [] ==> ep == None)
              && (es != [] ==> ep == Some(Chosen(es, c)) && CounterAt(roundIdx, key) == c + 1)
              && forall k :: k != key ==> CounterAt(roundIdx, k) == CounterAt(old(roundIdx), k)
    {
      var r, now := Pick(name, tag);
      EligibleListUnique(es, now, topicEnds, name, tag);
      ep := if r.Some? then Some(r.value.endpoint) else None;
    }

    /** Successive picks on an unchanged registry go round the eligible endpoints. */
    method PickTimes(name: Text, tag: Text, ghost es: seq<bytes>, n: nat) returns (out: seq<Text>)
      requires Valid() && IsEligibleList(es, topicEnds, name, tag) && es != []
      modifies `roundIdx
      ensures |out| == n && InTurn(out, es, CounterAt(old(roundIdx), CounterKey(name, tag)))
      ensures CounterAt(roundIdx, CounterKey(name, tag)) == CounterAt(old(roundIdx), CounterKey(name, tag)) + n
      ensures forall k :: k != CounterKey(name, tag) ==> CounterAt(roundIdx, k) == CounterAt(old(roundIdx), k)
    {
      if n == 0 {
        return [];
      }
      out := PickTimes(name, tag, es, n - 1);
      InTurnNext(out, es, CounterAt(old(roundIdx), CounterKey(name, tag)));
      var c := PickEndpoint(name, tag, es);
      out := out + [c.value];
    }
  }
}
