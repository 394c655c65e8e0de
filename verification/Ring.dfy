/**
 * The token ring of `node_ring.go`: owner lookup by binary search and the clockwise replica walk.
 *
 * A ring is a sequence of virtual nodes.  The reference for both searches is `Walk`: the nodes with a
 * token above `t`, then the nodes with a token at most `t`, keeping only the first node of every IP.
 */
module Ring {
  import opened Sequences

  type Token = t: int | 0 <= t < 0x1_0000_0000

  datatype Ip = Ip(address: string)

  datatype Node = Node(name: string, ip: Ip, endpoint: string, token: Token)

  /** Strictly increasing tokens: sorted by `cmp`, no token used twice. */
  predicate Sorted(r: seq<Node>) {
    forall i, j :: 0 <= i < j < |r| ==> r[i].token < r[j].token
  }

  function Ips(s: seq<Node>): set<Ip> {
    if s == [] then {} else Ips(s[..|s| - 1]) + {s[|s| - 1].ip}
  }

  function Above(t: Token): Node -> bool {
    (n: Node) => n.token > t
  }

  function UpTo(t: Token): Node -> bool {
    (n: Node) => n.token <= t
  }

  function OtherThan(ip: Ip): Node -> bool {
    (n: Node) => n.ip != ip
  }

  /** The first node of every IP of `s`, in order. */
  function FirstPerIp(s: seq<Node>): seq<Node> {
    if s == [] then []
    else
      Extend(FirstPerIp(s[..|s| - 1]), s[|s| - 1])
  }

  predicate HasIp(s: seq<Node>, ip: Ip) {
    exists i :: 0 <= i < |s| && s[i].ip == ip
  }

  /** `p` appended to `firsts`, unless its IP is already there. */
  function Extend(firsts: seq<Node>, p: Node): seq<Node> {
    if HasIp(firsts, p.ip) then firsts else firsts + [p]
  }

  /** All nodes, clockwise from the owner of `t`. */
  function Clockwise(r: seq<Node>, t: Token): seq<Node> {
    Filter(r, Above(t)) + Filter(r, UpTo(t))
  }

  /** The full preference list of token `t`. */
  function Walk(r: seq<Node>, t: Token): seq<Node> {
    FirstPerIp(Clockwise(r, t))
  }

  /** The number of leading nodes with a token at most `t`. */
  function UpperBound(r: seq<Node>, t: Token): (u: nat)
    ensures u <= |r|
    ensures forall j :: 0 <= j < u ==> r[j].token <= t
    ensures u < |r| ==> r[u].token > t
  {
    UpperBoundFrom(r, t, 0)
  }

  function UpperBoundFrom(r: seq<Node>, t: Token, from: nat): (u: nat)
    requires from <= |r|
    ensures from <= u <= |r|
    ensures forall j :: from <= j < u ==> r[j].token <= t
    ensures u < |r| ==> r[u].token > t
    decreases |r| - from
  {
    if from == |r| || r[from].token > t then from else UpperBoundFrom(r, t, from + 1)
  }

  /** Index of the first token strictly above `t`, or 0 when there is none: the linear search. */
  function OwnerIndex(r: seq<Node>, t: Token): (ix: nat)
    requires r != []
    ensures ix < |r|
  {
    var u := UpperBound(r, t);
    if u == |r| then 0 else u
  }

  function Owner(r: seq<Node>, t: Token): Node
    requires r != []
  {
    r[OwnerIndex(r, t)]
  }

  // ---- FirstPerIp: one entry per IP, stable under extension and under deletion of an IP ----

  lemma {:induction false} IpsMember(s: seq<Node>, ip: Ip)
    ensures ip in Ips(s) <==> HasIp(s, ip)
  {
    if s != [] {
      IpsMember(s[..|s| - 1], ip);
      assert s[|s| - 1].ip in Ips(s);
    }
  }

  lemma {:induction false} FirstPerIpMembers(s: seq<Node>)
    ensures Ips(FirstPerIp(s)) == Ips(s)
    ensures |FirstPerIp(s)| == |Ips(s)|
  {
    if s != [] {
      var init, last := s[..|s| - 1], s[|s| - 1];
      FirstPerIpMembers(init);
      IpsMember(FirstPerIp(init), last.ip);
      assert (FirstPerIp(init) + [last])[..|FirstPerIp(init)|] == FirstPerIp(init);
    }
  }

  lemma {:induction false} FirstPerIpDistinct(s: seq<Node>)
    ensures forall i, j :: 0 <= i < j < |FirstPerIp(s)| ==> FirstPerIp(s)[i].ip != FirstPerIp(s)[j].ip
  {
    if s != [] {
      var init, last := s[..|s| - 1], s[|s| - 1];
      FirstPerIpDistinct(init);
    }
  }

  lemma IpsSnoc(s: seq<Node>, p: Node)
    ensures Ips(s + [p]) == Ips(s) + {p.ip}
  {
    assert (s + [p])[..|s|] == s;
  }

  lemma {:induction false} FilterKeepsOtherIps(s: seq<Node>, x: Ip)
    ensures Ips(Filter(s, OtherThan(x))) == Ips(s) - {x}
  {
    if s != [] {
      var init, last := s[..|s| - 1], s[|s| - 1];
      FilterKeepsOtherIps(init, x);
      FilterLast(s, OtherThan(x));
      IpsSnoc(Filter(init, OtherThan(x)), last);
    }
  }

  lemma FirstPerIpSnoc(s: seq<Node>, p: Node)
    ensures FirstPerIp(s + [p]) == if p.ip in Ips(s) then FirstPerIp(s) else FirstPerIp(s) + [p]
  {
    assert (s + [p])[..|s|] == s;
    FirstPerIpMembers(s);
    IpsMember(FirstPerIp(s), p.ip);
  }

  lemma {:induction false} FirstPerIpDelete(s: seq<Node>, x: Ip)
    ensures FirstPerIp(Filter(s, OtherThan(x))) == Filter(FirstPerIp(s), OtherThan(x))
  {
    if s != [] {
      var init := s[..|s| - 1];
      FirstPerIpDelete(init, x);
      FilterLast(s, OtherThan(x));
      DeleteSnoc(init, s[|s| - 1], x);
      assert s == init + [s[|s| - 1]];
    }
  }

  lemma DeleteSnoc(s: seq<Node>, p: Node, x: Ip)
    requires FirstPerIp(Filter(s, OtherThan(x))) == Filter(FirstPerIp(s), OtherThan(x))
    ensures FirstPerIp(if p.ip != x then Filter(s, OtherThan(x)) + [p] else Filter(s, OtherThan(x)))
         == Filter(FirstPerIp(s + [p]), OtherThan(x))
  {
    var q := OtherThan(x);
    FirstPerIpSnoc(s, p);
    FirstPerIpSnoc(Filter(s, q), p);
    FilterKeepsOtherIps(s, x);
    var firsts := FirstPerIp(s);
    assert (firsts + [p])[..|firsts|] == firsts;
    FilterLast(firsts + [p], q);
  }

  lemma {:induction false} FirstPerIpPrefix(a: seq<Node>, b: seq<Node>)
    ensures FirstPerIp(a) <= FirstPerIp(a + b)
  {
    if b == [] {
      assert a + b == a;
    } else {
      var init, last := b[..|b| - 1], b[|b| - 1];
      FirstPerIpPrefix(a, init);
      assert a + b == (a + init) + [last];
      FirstPerIpSnoc(a + init, last);
    }
  }

  // ---- the walk ----

  lemma OwnerIndexUnique(r: seq<Node>, t: Token, ix: nat)
    requires Sorted(r) && ix < |r|
    requires r[ix].token > t && forall j :: 0 <= j < ix ==> r[j].token <= t
    ensures OwnerIndex(r, t) == ix
  {
  }

  /** The clockwise order is the rotation of a sorted ring that starts at the owner. */
  lemma ClockwiseIsRotation(r: seq<Node>, t: Token)
    requires Sorted(r) && r != []
    ensures Clockwise(r, t) == r[OwnerIndex(r, t)..] + r[..OwnerIndex(r, t)]
  {
    FilterTail(r, Above(t), UpperBound(r, t));
    FilterHead(r, UpTo(t), UpperBound(r, t));
  }

  lemma WalkStartsAtOwner(r: seq<Node>, t: Token)
    requires Sorted(r) && r != []
    ensures Walk(r, t) != [] && Walk(r, t)[0] == Owner(r, t)
  {
    var c := Clockwise(r, t);
    ClockwiseIsRotation(r, t);
    assert c[..1] == [Owner(r, t)] && c == c[..1] + c[1..];
    FirstPerIpSnoc([], Owner(r, t));
    assert [] + [Owner(r, t)] == [Owner(r, t)];
    FirstPerIpPrefix(c[..1], c[1..]);
  }

  lemma {:induction false} IpsAppend(a: seq<Node>, b: seq<Node>)
    ensures Ips(a + b) == Ips(a) + Ips(b)
  {
    if b == [] {
      assert a + b == a;
    } else {
      assert (a + b)[..|a + b| - 1] == a + b[..|b| - 1];
      IpsAppend(a, b[..|b| - 1]);
    }
  }

  lemma {:induction false} ClockwiseIps(r: seq<Node>, t: Token)
    ensures Ips(Clockwise(r, t)) == Ips(r)
  {
    IpsAppend(Filter(r, Above(t)), Filter(r, UpTo(t)));
    if r != [] {
      var init, last := r[..|r| - 1], r[|r| - 1];
      assert r == init + [last];
      ClockwiseIps(init, t);
      IpsAppend(Filter(init, Above(t)), Filter(init, UpTo(t)));
      FilterAppend(init, [last], Above(t));
      FilterAppend(init, [last], UpTo(t));
      IpsAppend(Filter(init, Above(t)), Filter([last], Above(t)));
      IpsAppend(Filter(init, UpTo(t)), Filter([last], UpTo(t)));
      assert Ips([last]) == {last.ip};
    }
  }

  /** A preference list names every member exactly once. */
  lemma WalkCoversEveryIp(r: seq<Node>, t: Token)
    ensures Ips(Walk(r, t)) == Ips(r)
    ensures |Walk(r, t)| == |Ips(r)|
    ensures forall i, j :: 0 <= i < j < |Walk(r, t)| ==> Walk(r, t)[i].ip != Walk(r, t)[j].ip
  {
    ClockwiseIps(r, t);
    FirstPerIpMembers(Clockwise(r, t));
    FirstPerIpDistinct(Clockwise(r, t));
  }

  /** Deleting a member from the ring deletes it from every preference list and moves nobody else. */
  /** `w[i]` is the first node of `s` whose IP does not come earlier in `w`. */
  ghost predicate FirstCome(s: seq<Node>, w: seq<Node>, i: nat) {
    i < |w| && exists p :: 0 <= p < |s| && s[p] == w[i] && forall q :: 0 <= q < p ==> HasIp(w[..i], s[q].ip)
  }

  lemma {:induction false} FirstPerIpOrder(s: seq<Node>, i: nat)
    requires i < |FirstPerIp(s)|
    ensures FirstCome(s, FirstPerIp(s), i)
  {
    var init, last, w := s[..|s| - 1], s[|s| - 1], FirstPerIp(s);
    var w0 := FirstPerIp(init);
    if i < |w0| {
      FirstPerIpOrder(init, i);
      assert w[..i] == w0[..i] && w[i] == w0[i];
      FirstComeStays(init, s, w0, w, i);
    } else {
      assert w == w0 + [last] && w[..i] == w0;
      forall q | 0 <= q < |init| ensures HasIp(w0, s[q].ip) {
        assert s[q] == init[q];
        FirstPerIpHas(init, q);
      }
      assert s[|init|] == w[i];
    }
  }

  lemma FirstComeStays(s: seq<Node>, s': seq<Node>, w: seq<Node>, w': seq<Node>, i: nat)
    requires FirstCome(s, w, i) && s <= s' && i < |w'| && w'[..i] == w[..i] && w'[i] == w[i]
    ensures FirstCome(s', w', i)
  {
    var p :| 0 <= p < |s| && s[p] == w[i] && forall q :: 0 <= q < p ==> HasIp(w[..i], s[q].ip);
    assert s'[p] == w'[i];
  }

  lemma FirstPerIpHas(s: seq<Node>, q: nat)
    requires q < |s|
    ensures HasIp(FirstPerIp(s), s[q].ip)
  {
    FirstPerIpMembers(s);
    IpsMember(s, s[q].ip);
    IpsMember(FirstPerIp(s), s[q].ip);
  }

  /** The preference list takes each member at its first virtual node, clockwise from the owner of the token. */
  lemma WalkIsFirstCome(r: seq<Node>, t: Token, i: nat)
    requires Sorted(r) && r != [] && i < |Walk(r, t)|
    ensures FirstCome(r[OwnerIndex(r, t)..] + r[..OwnerIndex(r, t)], Walk(r, t), i)
  {
    ClockwiseIsRotation(r, t);
    FirstPerIpOrder(Clockwise(r, t), i);
  }

  lemma {:induction false} FirstPerIpFrom(s: seq<Node>, n: Node)
    ensures n in FirstPerIp(s) ==> n in s
  {
    if s != [] {
      FirstPerIpFrom(s[..|s| - 1], n);
    }
  }

  lemma WalkMembers(r: seq<Node>, t: Token, n: Node)
    requires n in Walk(r, t)
    ensures n in r
  {
    FirstPerIpFrom(Clockwise(r, t), n);
    FilterMembers(r, Above(t));
    FilterMembers(r, UpTo(t));
  }

  lemma {:induction false} WalkDelete(r: seq<Node>, t: Token, x: Ip)
    ensures Walk(Filter(r, OtherThan(x)), t) == Filter(Walk(r, t), OtherThan(x))
  {
    var q := OtherThan(x);
    FilterCommutes(r, q, Above(t));
    FilterCommutes(r, q, UpTo(t));
    FilterAppend(Filter(r, Above(t)), Filter(r, UpTo(t)), q);
    FirstPerIpDelete(Clockwise(r, t), x);
  }

  /** The first `k` entries of the preference list of `t`. */
  function Replicas(r: seq<Node>, t: Token, k: nat): seq<Node> {
    Take(Walk(r, t), k)
  }

  lemma {:induction false} FilterOneIp(w: seq<Node>, x: Ip, i: nat)
    requires i < |w| && w[i].ip == x
    requires forall j :: 0 <= j < |w| && j != i ==> w[j].ip != x
    ensures Filter(w, OtherThan(x)) == w[..i] + w[i + 1..]
  {
    assert w == w[..i] + ([w[i]] + w[i + 1..]);
    FilterAppend(w[..i], [w[i]] + w[i + 1..], OtherThan(x));
    FilterAppend([w[i]], w[i + 1..], OtherThan(x));
    FilterAll(w[..i], OtherThan(x));
    FilterAll(w[i + 1..], OtherThan(x));
  }

  /** The first `k` elements of `w`, all of them when there are fewer. */
  function Take(w: seq<Node>, k: nat): seq<Node> {
    if k <= |w| then w[..k] else w
  }

  lemma TakeAfterRemoval(w: seq<Node>, i: nat, k: nat)
    requires i < |w|
    ensures k <= i ==> Take(w[..i] + w[i + 1..], k) == Take(w, k)
    ensures i < k < |w| ==> Take(w[..i] + w[i + 1..], k) == Take(w, k)[..i] + Take(w, k)[i + 1..] + [w[k]]
    ensures |w| <= k ==> Take(w[..i] + w[i + 1..], k) == Take(w, k)[..i] + Take(w, k)[i + 1..]
  {
  }

  /** `after` is `before` without position `i`, followed by at most one newcomer. */
  ghost predicate DropsOne(before: seq<Node>, after: seq<Node>, i: nat, newcomers: seq<Node>) {
    i < |before| && |newcomers| <= 1 && after == before[..i] + before[i + 1..] + newcomers
  }

  /**
   * Minimal disruption.  When member `x` leaves, a replica list that does not hold `x` is unchanged; one
   * that does loses `x`, keeps everybody else in order, and gains at most the next member clockwise.
   */
  lemma LeaveDisturbsOneReplica(r: seq<Node>, t: Token, k: nat, x: Ip) returns (i: nat)
    ensures var before, after := Replicas(r, t, k), Replicas(Filter(r, OtherThan(x)), t, k);
            if x !in Ips(before) then after == before
            else (&& DropsOne(before, after, i, if k < |Walk(r, t)| then [Walk(r, t)[k]] else [])
                  && before[i].ip == x)
  {
    WalkDelete(r, t, x);
    WalkCoversEveryIp(r, t);
    i := DeleteDisturbsOne(Walk(r, t), k, x);
  }

  lemma DeleteDisturbsOne(w: seq<Node>, k: nat, x: Ip) returns (i: nat)
    requires forall i, j :: 0 <= i < j < |w| ==> w[i].ip != w[j].ip
    ensures var before, after := Take(w, k), Take(Filter(w, OtherThan(x)), k);
            if x !in Ips(before) then after == before
            else DropsOne(before, after, i, if k < |w| then [w[k]] else []) && before[i].ip == x
  {
    IpsMember(Take(w, k), x);
    if j :| 0 <= j < |w| && w[j].ip == x {
      i := j;
      FilterOneIp(w, x, i);
      TakeAfterRemoval(w, i, k);
      assert i < k ==> Take(w, k)[i].ip == x;
    } else {
      i := 0;
      FilterAll(w, OtherThan(x));
    }
  }

  /** Keys that `x` does not own keep their owner when `x` leaves. */
  lemma {:induction false} LeaveKeepsOtherOwners(r: seq<Node>, t: Token, x: Ip)
    requires Sorted(r) && r != [] && Owner(r, t).ip != x
    ensures var left := Filter(r, OtherThan(x));
            left != [] && Sorted(left) && Owner(left, t) == Owner(r, t)
  {
    var left := Filter(r, OtherThan(x));
    FilterMember(r, OtherThan(x), Owner(r, t));
    FilterKeepsSorted(r, OtherThan(x));
    WalkDelete(r, t, x);
    WalkStartsAtOwner(r, t);
    WalkStartsAtOwner(left, t);
    var w := Walk(r, t);
    assert w == [w[0]] + w[1..];
    FilterAppend([w[0]], w[1..], OtherThan(x));
  }

  lemma {:induction false} FilterKeepsSorted(r: seq<Node>, p: Node -> bool)
    requires Sorted(r)
    ensures Sorted(Filter(r, p))
  {
    if r != [] {
      FilterKeepsSorted(r[1..], p);
      FilterMembers(r[1..], p);
      var rest := Filter(r[1..], p);
      forall i | 0 <= i < |rest| ensures r[0].token < rest[i].token {
        assert rest[i] in r[1..];
      }
    }
  }

  /** `NodeRing`: the sorted virtual nodes and the number of members that own them. */
  class NodeRing {
    var nodes: seq<Node>
    var nodeNum: int

    constructor ()
      ensures nodes == [] && nodeNum == 0
    {
      nodes := [];
      nodeNum := 0;
    }

    ghost predicate Valid()
      reads this
    {
      Sorted(nodes) && nodeNum == |Ips(nodes)|
    }

    /** `ownerOf`: binary search for the first token strictly above `t`, 0 when `t` wraps around. */
    method OwnerOf(t: Token) returns (ix: int)
      requires Sorted(nodes) && nodes != []
      ensures 0 <= ix < |nodes| && ix == OwnerIndex(nodes, t)
    {
      var l, r := 0, |nodes| - 1;
      if t >= nodes[r].token || t < nodes[0].token {
        return 0;
      }
      ix := -1;
      while l <= r
        invariant 0 <= l <= r + 1 <= |nodes|
        invariant forall j :: 0 <= j < l ==> nodes[j].token <= t
        invariant forall j :: r < j < |nodes| ==> nodes[j].token > t
        invariant ix == if r + 1 == |nodes| then -1 else r + 1
      {
        var md := l + (r - l) / 2;
        if t < nodes[md].token {
          ix := md;
          r := md - 1;
        } else {
          l := md + 1;
        }
      }
      OwnerIndexUnique(nodes, t, ix);
      if ix == -1 {
        ix := 0;
      }
    }

    /** `rangeOfRing`: the predecessor of the owner of `t` (cyclically) and the owner. */
    method RangeOfRing(t: Token) returns (pred: Node, owner: Node)
      requires Sorted(nodes) && nodes != []
      ensures owner == Owner(nodes, t) && pred == Predecessor(nodes, t)
    {
      var ix := OwnerOf(t);
      var px := if ix == 0 then |nodes| - 1 else ix - 1;
      return nodes[px], nodes[ix];
    }

    /**
     * `keyRing`: walks clockwise from the owner and collects nodes with new IPs.  It stops within one
     * revolution, and the result is the head of the preference list: one entry for `replica` below 2.
     */
    method KeyRing(t: Token, replica: int) returns (sync: seq<Node>)
      requires Valid() && nodes != []
      ensures sync == Replicas(nodes, t, if replica <= 1 then 1 else replica)
    {
      var ix := OwnerOf(t);
      WalkHeads(nodes, t, replica);
      if replica == 0 || nodeNum == 1 {
        return [nodes[ix]];
      }
      var syncNum := (if nodeNum < replica then nodeNum else replica) - 1;
      ghost var rot := VisitOrder(nodes, t);
      sync := Collect(nodes, ix, syncNum, rot);
    }
  }

  lemma WalkHeads(r: seq<Node>, t: Token, k: int)
    requires Sorted(r) && r != []
    ensures var n := |Ips(r)|;
            && |Walk(r, t)| == n && n > 0
            && Replicas(r, t, 1) == [Owner(r, t)]
            && (n <= k ==> Replicas(r, t, k) == Replicas(r, t, n))
  {
    WalkStartsAtOwner(r, t);
    WalkCoversEveryIp(r, t);
    TakeBounds(Walk(r, t), k);
  }

  lemma TakeBounds(w: seq<Node>, k: int)
    requires w != []
    ensures Take(w, 1) == [w[0]]
    ensures |w| <= k ==> Take(w, k) == Take(w, |w|)
  {
    assert w[..|w|] == w;
  }

  /** `FirstPerIp` of the first `k` nodes of `s`, by position. */
  ghost function FirstsOf(s: seq<Node>, k: nat): seq<Node>
    requires k <= |s|
  {
    if k == 0 then [] else Extend(FirstsOf(s, k - 1), s[k - 1])
  }

  lemma {:induction false} FirstsOfPrefix(s: seq<Node>, k: nat)
    requires k <= |s|
    ensures FirstsOf(s, k) == FirstPerIp(s[..k])
  {
    if k > 0 {
      FirstsOfPrefix(s, k - 1);
      assert s[..k][..k - 1] == s[..k - 1];
    }
  }

  lemma {:induction false} FirstsOfGrows(s: seq<Node>, k: nat, n: nat)
    requires k <= n <= |s|
    ensures FirstsOf(s, k) <= FirstsOf(s, n)
  {
    if k < n {
      FirstsOfGrows(s, k, n - 1);
    }
  }

  lemma VisitOrder(nodes: seq<Node>, t: Token) returns (rot: seq<Node>)
    requires Sorted(nodes) && nodes != []
    ensures Visits(nodes, OwnerIndex(nodes, t), rot)
    ensures FirstsOf(rot, |rot|) == Walk(nodes, t)
  {
    rot := Clockwise(nodes, t);
    ClockwiseIsRotation(nodes, t);
    RotationVisits(nodes, OwnerIndex(nodes, t));
    FirstsOfPrefix(rot, |rot|);
    assert rot[..|rot|] == rot;
  }

  /** `rot` lists `nodes` from position `start` on, wrapping at the end. */
  ghost predicate Visits(nodes: seq<Node>, start: nat, rot: seq<Node>) {
    && start < |nodes| == |rot|
    && forall i :: 0 <= i < |rot| ==> rot[i] == nodes[if start + i < |nodes| then start + i else start + i - |nodes|]
  }

  lemma RotationVisits(nodes: seq<Node>, start: nat)
    requires start < |nodes|
    ensures Visits(nodes, start, nodes[start..] + nodes[..start])
  {
  }

  /** The collecting loop of `keyRing`; `rot` is the order in which it visits `nodes`. */
  /** As long as fewer nodes have been collected than there are IPs, there is a node left to visit. */
  lemma MoreToSee(rot: seq<Node>, seen: nat, more: int)
    requires seen <= |rot| && |FirstsOf(rot, seen)| == 1 + more && more + 1 < |FirstsOf(rot, |rot|)|
    ensures seen < |rot|
  {
  }

  method Collect(nodes: seq<Node>, start: nat, more: int, ghost rot: seq<Node>) returns (sync: seq<Node>)
    requires Visits(nodes, start, rot)
    requires more < |FirstsOf(rot, |rot|)|
    ensures sync == Take(FirstsOf(rot, |rot|), if more < 0 then 1 else more + 1)
  {
    var ix, syncNum := start, more;
    ghost var seen := 1;
    sync := [nodes[ix]];
    assert sync == FirstsOf(rot, 1);
    ix := ix + 1;
    while syncNum > 0
      invariant 1 <= seen <= |rot| && 0 <= ix <= |nodes|
      invariant ix == if start + seen <= |nodes| then start + seen else start + seen - |nodes|
      invariant sync == FirstsOf(rot, seen)
      invariant if more < 0 then syncNum == more else 0 <= syncNum <= more
      invariant |sync| == 1 + (more - syncNum)
      decreases |rot| - seen
    {
      if ix == |nodes| {
        ix := 0;
      }
      MoreToSee(rot, seen, more - syncNum);
      var p := nodes[ix];
      assert p == rot[seen];
      var dup;
      sync, dup := AppendIfNew(sync, p);
      if !dup {
        syncNum := syncNum - 1;
      }
      ix := ix + 1;
      seen := seen + 1;
    }
    FirstsOfGrows(rot, seen, |rot|);
    assert sync == FirstsOf(rot, |rot|)[..|sync|];
  }

  /** The inner scan of `keyRing`: append `p` unless its IP is already collected. */
  method AppendIfNew(s: seq<Node>, p: Node) returns (r: seq<Node>, dup: bool)
    ensures r == Extend(s, p)
    ensures |r| == |s| + if dup then 0 else 1
  {
    dup := false;
    for i := 0 to |s|
      invariant !dup
      invariant forall j :: 0 <= j < i ==> s[j].ip != p.ip
    {
      if s[i].ip == p.ip {
        return s, true;
      }
    }
    r := s + [p];
  }

  function Predecessor(r: seq<Node>, t: Token): Node
    requires r != []
  {
    var ix := OwnerIndex(r, t);
    r[if ix == 0 then |r| - 1 else ix - 1]
  }
}
