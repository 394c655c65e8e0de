/**
 * Members joining and leaving: `member_hash_ring.go` and the ring half of `member_hash_ring_listener.go`.
 *
 * A node keeps two rings, the serving ring and the back ring, and updates them differently: the serving ring
 * appends all virtual nodes and sorts once, the back ring sorts after every insertion.
 */
module Membership {
  import opened Sequences
  import opened Ring
  import opened HandOff

  datatype Member = Member(name: string, ip: Ip, endpoint: string)

  function Decimal(n: nat): string {
    if n < 10 then ["0123456789"[n]] else Decimal(n / 10) + ["0123456789"[n % 10]]
  }

  /** The hash is a parameter: nothing below depends on which function it is. */
  type Hash = string -> Token

  function VNode(hash: Hash, m: Member, w: nat): Node {
    var name := m.name + "#" + Decimal(w);
    Node(name, m.ip, m.endpoint, hash(name))
  }

  function VNodes(hash: Hash, m: Member, weight: nat): (r: seq<Node>)
    ensures |r| == weight && forall w :: 0 <= w < weight ==> r[w] == VNode(hash, m, w)
  {
    if weight == 0 then [] else VNodes(hash, m, weight - 1) + [VNode(hash, m, weight - 1)]
  }

  // ---- the two rings as functions of the events ----

  function JoinServing(nodes: seq<Node>, added: seq<Node>): seq<Node> {
    Sort(nodes + added)
  }

  function JoinBack(nodes: seq<Node>, added: seq<Node>): seq<Node> {
    if nodes == [] then Sort(nodes + added) else InsertAll(nodes, Sort(added))
  }

  function Leave(nodes: seq<Node>, ip: Ip): seq<Node> {
    Sort(Filter(nodes, OtherThan(ip)))
  }

  lemma SortKeepsDistinct(nodes: seq<Node>, added: seq<Node>)
    requires Joins(nodes, added)
    ensures Joins(nodes, Sort(added)) && SameNodes(Sort(added), added)
    ensures DistinctTokens(nodes + added)
  {
    SortSorts(added);
    var s := Sort(added);
    forall i, j | 0 <= i < |s| && 0 <= j < |nodes| ensures nodes[j].token != s[i].token {
      assert s[i] in added;
    }
  }

  /** Sorting once and sorting after every insertion build the same ring. */
  lemma JoinsAgree(nodes: seq<Node>, added: seq<Node>)
    requires Joins(nodes, added)
    ensures JoinServing(nodes, added) == JoinBack(nodes, added)
    ensures Sorted(JoinBack(nodes, added))
    ensures forall n :: n in JoinBack(nodes, added) <==> n in nodes || n in added
  {
    SortKeepsDistinct(nodes, added);
    SortSorts(nodes + added);
    assert forall n :: n in nodes + added <==> n in nodes || n in added;
    if nodes != [] {
      InsertAllSorted(nodes, Sort(added));
      SortedUnique(JoinServing(nodes, added), JoinBack(nodes, added));
    }
  }

  lemma SortedIsDistinct(nodes: seq<Node>)
    requires Sorted(nodes)
    ensures DistinctTokens(nodes)
    ensures Sort(nodes) == nodes
  {
    SortSorts(nodes);
    SortedUnique(Sort(nodes), nodes);
  }

  lemma LeaveKeepsSorted(nodes: seq<Node>, ip: Ip)
    requires Sorted(nodes)
    ensures Leave(nodes, ip) == Filter(nodes, OtherThan(ip)) && Sorted(Leave(nodes, ip))
  {
    FilterKeepsSorted(nodes, OtherThan(ip));
    SortedIsDistinct(Filter(nodes, OtherThan(ip)));
  }

  /** A join followed by the leave of the same member restores the ring. */
  lemma LeaveUndoesJoin(nodes: seq<Node>, added: seq<Node>, ip: Ip)
    requires Joins(nodes, added) && !HasIp(nodes, ip)
    requires forall i :: 0 <= i < |added| ==> added[i].ip == ip
    ensures Leave(JoinServing(nodes, added), ip) == nodes
  {
    JoinsAgree(nodes, added);
    var joined := JoinServing(nodes, added);
    LeaveKeepsSorted(joined, ip);
    var left := Leave(joined, ip);
    FilterMembers(joined, OtherThan(ip));
    forall n ensures n in left <==> n in nodes {
      if n in left {
        assert n in joined && n.ip != ip;
      }
      if n in nodes {
        assert n in joined && OtherThan(ip)(n);
      }
    }
    SortedUnique(left, nodes);
  }

  /**
   * Minimal disruption on a join.  A replica list that does not take the joiner in is unchanged; one that does takes in
   * the joiner, keeps everybody else in order, and loses at most the last of its members.
   */
  lemma JoinDisturbsOneReplica(nodes: seq<Node>, added: seq<Node>, ip: Ip, t: Token, k: nat) returns (i: nat)
    requires Joins(nodes, added) && !HasIp(nodes, ip)
    requires forall j :: 0 <= j < |added| ==> added[j].ip == ip
    ensures var joined := JoinServing(nodes, added);
            var before, after := Replicas(nodes, t, k), Replicas(joined, t, k);
            if ip !in Ips(after) then after == before
            else (&& DropsOne(after, before, i, if k < |Walk(joined, t)| then [Walk(joined, t)[k]] else [])
                  && after[i].ip == ip)
  {
    var joined := JoinServing(nodes, added);
    JoinsAgree(nodes, added);
    LeaveUndoesJoin(nodes, added, ip);
    LeaveKeepsSorted(joined, ip);
    i := LeaveDisturbsOneReplica(joined, t, k, ip);
  }

  // ---- the ring is a function of the live members ----

  ghost predicate IsVNode(hash: Hash, weight: nat, live: seq<Member>, n: Node) {
    exists i, w :: 0 <= i < |live| && 0 <= w < weight && n == VNode(hash, live[i], w)
  }

  /** `nodes` is the sorted sequence of exactly the virtual nodes of `live`. */
  ghost predicate RingOf(hash: Hash, weight: nat, live: seq<Member>, nodes: seq<Node>) {
    Sorted(nodes) && forall n :: n in nodes <==> IsVNode(hash, weight, live, n)
  }

  ghost predicate DistinctIps(live: seq<Member>) {
    forall i, j :: 0 <= i < j < |live| ==> live[i].ip != live[j].ip
  }

  /** Nodes that saw the same members in any order of events hold the same ring. */
  lemma RingIgnoresEventOrder(hash: Hash, weight: nat, live: seq<Member>, live': seq<Member>,
                              a: seq<Node>, b: seq<Node>)
    requires RingOf(hash, weight, live, a) && RingOf(hash, weight, live', b)
    requires forall m :: m in live <==> m in live'
    ensures a == b
  {
    forall n ensures n in a <==> n in b {
      SameMembersSameVNodes(hash, weight, live, live', n);
      SameMembersSameVNodes(hash, weight, live', live, n);
    }
    SortedUnique(a, b);
  }

  lemma SameMembersSameVNodes(hash: Hash, weight: nat, live: seq<Member>, live': seq<Member>, n: Node)
    requires forall m :: m in live ==> m in live'
    ensures IsVNode(hash, weight, live, n) ==> IsVNode(hash, weight, live', n)
  {
    if IsVNode(hash, weight, live, n) {
      var i, w :| 0 <= i < |live| && 0 <= w < weight && n == VNode(hash, live[i], w);
      assert live[i] in live';
      var j :| 0 <= j < |live'| && live'[j] == live[i];
      assert n == VNode(hash, live'[j], w);
    }
  }

  lemma RingAfterJoin(hash: Hash, weight: nat, live: seq<Member>, nodes: seq<Node>, m: Member)
    requires RingOf(hash, weight, live, nodes) && Joins(nodes, VNodes(hash, m, weight))
    ensures RingOf(hash, weight, live + [m], JoinServing(nodes, VNodes(hash, m, weight)))
  {
    var added, live' := VNodes(hash, m, weight), live + [m];
    JoinsAgree(nodes, added);
    forall n ensures n in nodes || n in added <==> IsVNode(hash, weight, live', n) {
      if n in nodes {
        var i, w :| 0 <= i < |live| && 0 <= w < weight && n == VNode(hash, live[i], w);
        assert n == VNode(hash, live'[i], w);
      }
      if n in added {
        var w :| 0 <= w < weight && n == added[w];
        assert n == VNode(hash, live'[|live|], w);
      }
      if IsVNode(hash, weight, live', n) {
        var i, w :| 0 <= i < |live'| && 0 <= w < weight && n == VNode(hash, live'[i], w);
        if i < |live| {
          assert n == VNode(hash, live[i], w);
        } else {
          assert n == added[w];
        }
      }
    }
  }

  lemma RingAfterLeave(hash: Hash, weight: nat, live: seq<Member>, nodes: seq<Node>, k: nat)
    requires RingOf(hash, weight, live, nodes) && DistinctIps(live) && k < |live|
    ensures RingOf(hash, weight, live[..k] + live[k + 1..], Leave(nodes, live[k].ip))
  {
    var ip, live' := live[k].ip, live[..k] + live[k + 1..];
    LeaveKeepsSorted(nodes, ip);
    FilterMembers(nodes, OtherThan(ip));
    forall n ensures n in nodes && n.ip != ip <==> IsVNode(hash, weight, live', n) {
      VNodeWithout(hash, weight, live, k, n);
    }
  }

  lemma VNodeWithout(hash: Hash, weight: nat, live: seq<Member>, k: nat, n: Node)
    requires DistinctIps(live) && k < |live|
    ensures IsVNode(hash, weight, live[..k] + live[k + 1..], n)
       <==> IsVNode(hash, weight, live, n) && n.ip != live[k].ip
  {
    var live' := live[..k] + live[k + 1..];
    if IsVNode(hash, weight, live, n) && n.ip != live[k].ip {
      var i, w :| 0 <= i < |live| && 0 <= w < weight && n == VNode(hash, live[i], w);
      var i' := if i < k then i else i - 1;
      assert live'[i'] == live[i];
      assert n == VNode(hash, live'[i'], w);
    }
    if IsVNode(hash, weight, live', n) {
      var i, w :| 0 <= i < |live'| && 0 <= w < weight && n == VNode(hash, live'[i], w);
      var i' := if i < k then i else i + 1;
      assert live'[i] == live[i'];
      assert n == VNode(hash, live[i'], w);
    }
  }

  function OfIp(ip: Ip): Node -> bool {
    (n: Node) => n.ip == ip
  }

  lemma {:induction false} SortLength(s: seq<Node>)
    ensures |Sort(s)| == |s|
  {
    if s != [] {
      SortLength(s[..|s| - 1]);
    }
  }

  lemma {:induction false} DecimalInjective(a: nat, b: nat)
    requires Decimal(a) == Decimal(b)
    ensures a == b
  {
    var x, y := Decimal(a), Decimal(b);
    assert x[|x| - 1] == "0123456789"[a % 10] && y[|y| - 1] == "0123456789"[b % 10];
    DigitsDiffer(a % 10, b % 10);
    if a >= 10 && b >= 10 {
      assert x[..|x| - 1] == Decimal(a / 10) && y[..|y| - 1] == Decimal(b / 10);
      DecimalInjective(a / 10, b / 10);
    } else {
      DecimalNonEmpty(a / 10);
      DecimalNonEmpty(b / 10);
    }
  }

  lemma DecimalNonEmpty(n: nat)
    ensures |Decimal(n)| >= 1
  {
  }

  lemma DigitsDiffer(a: nat, b: nat)
    requires a < 10 && b < 10 && "0123456789"[a] == "0123456789"[b]
    ensures a == b
  {
  }

  /** The virtual nodes of a member on the ring have different tokens. */
  lemma OwnTokensDiffer(hash: Hash, weight: nat, live: seq<Member>, nodes: seq<Node>, k: nat)
    requires RingOf(hash, weight, live, nodes) && k < |live|
    ensures DistinctTokens(VNodes(hash, live[k], weight))
  {
    var own := VNodes(hash, live[k], weight);
    forall i, j | 0 <= i < j < |own| ensures own[i].token != own[j].token {
      assert IsVNode(hash, weight, live, own[i]) && IsVNode(hash, weight, live, own[j]);
      var a :| 0 <= a < |nodes| && nodes[a] == own[i];
      var b :| 0 <= b < |nodes| && nodes[b] == own[j];
      VNodesDiffer(hash, live[k], i, j);
    }
  }

  lemma VNodesDiffer(hash: Hash, m: Member, i: nat, j: nat)
    requires i != j
    ensures VNode(hash, m, i) != VNode(hash, m, j)
  {
    var a, b := VNode(hash, m, i).name, VNode(hash, m, j).name;
    assert a[|m.name| + 1..] == Decimal(i) && b[|m.name| + 1..] == Decimal(j);
    if Decimal(i) == Decimal(j) {
      DecimalInjective(i, j);
    }
  }

  /** A live member owns exactly its `weight` virtual nodes. */
  lemma MemberHasWeightNodes(hash: Hash, weight: nat, live: seq<Member>, nodes: seq<Node>, k: nat)
    requires RingOf(hash, weight, live, nodes) && DistinctIps(live) && k < |live|
    ensures Filter(nodes, OfIp(live[k].ip)) == Sort(VNodes(hash, live[k], weight))
    ensures |Filter(nodes, OfIp(live[k].ip))| == weight
  {
    var own, ip := VNodes(hash, live[k], weight), live[k].ip;
    OwnTokensDiffer(hash, weight, live, nodes, k);
    SortSorts(own);
    SortLength(own);
    FilterKeepsSorted(nodes, OfIp(ip));
    FilterMembers(nodes, OfIp(ip));
    var mine := Filter(nodes, OfIp(ip));
    forall n ensures n in mine <==> n in own {
      if n in mine {
        var i, w :| 0 <= i < |live| && 0 <= w < weight && n == VNode(hash, live[i], w);
        assert i == k && n == own[w];
      }
      if n in own {
        var w :| 0 <= w < weight && n == own[w];
        assert n == VNode(hash, live[k], w);
        assert IsVNode(hash, weight, live, n) && OfIp(ip)(n);
      }
    }
    SortedUnique(mine, Sort(own));
  }

  /**
   * What a replica list tells its reader: every entry is a virtual node of a live member, with the address and the
   * endpoint of that member, and the list names as many different members as were asked for, or all.
   */
  lemma ReplicasAreMembers(hash: Hash, weight: nat, live: seq<Member>, nodes: seq<Node>, t: Token, k: nat, i: nat)
    returns (m: nat)
    requires RingOf(hash, weight, live, nodes) && i < |Replicas(nodes, t, k)|
    ensures m < |live|
    ensures var n := Replicas(nodes, t, k)[i];
            n.ip == live[m].ip && n.endpoint == live[m].endpoint && live[m].name <= n.name
  {
    var n := Replicas(nodes, t, k)[i];
    WalkMembers(nodes, t, n);
    var j, w :| 0 <= j < |live| && 0 <= w < weight && n == VNode(hash, live[j], w);
    m := j;
  }

  // ---- names: the prefix test of localNode ----

  ghost predicate NoPrefixes(names: seq<string>) {
    forall i, j :: 0 <= i < |names| && 0 <= j < |names| && i != j ==> !(names[i] <= names[j])
  }

  /**
   * A virtual node passes `localNode` exactly if the local name is a prefix of its member's name, or goes on with `#`
   * and leading digits of the node's number.
   */
  lemma LocalIffNamePrefix(hash: Hash, m: Member, w: nat, local: string)
    ensures IsLocal(local, VNode(hash, m, w))
       <==> local <= m.name || (m.name + "#" <= local && local[|m.name| + 1..] <= Decimal(w))
  {
    var name := VNode(hash, m, w).name;
    var n := |m.name|;
    assert m.name == name[..n] && name[n] == '#' && name[n + 1..] == Decimal(w);
    if local <= name && n < |local| {
      assert local[..n + 1] == name[..n + 1] && m.name + "#" == name[..n + 1];
      assert local[n + 1..] == name[n + 1..][..|local| - n - 1];
    }
    if m.name + "#" <= local && local[n + 1..] <= Decimal(w) {
      assert local == (m.name + "#") + local[n + 1..];
      assert name == (m.name + "#") + Decimal(w);
    }
  }

  lemma LocalMeansOwn(hash: Hash, m: Member, w: nat, local: string)
    ensures m.name == local ==> IsLocal(local, VNode(hash, m, w))
    ensures !(local <= m.name) && !(m.name <= local) ==> !IsLocal(local, VNode(hash, m, w))
  {
    var name := VNode(hash, m, w).name;
    assert m.name <= name;
    if local <= name && !(local <= m.name) {
      assert m.name == name[..|m.name|] && local == name[..|local|];
      assert m.name == local[..|m.name|];
    }
  }

  lemma {:induction false} SortMembers(s: seq<Node>, n: Node)
    ensures n in Sort(s) <==> n in s
  {
    if s != [] {
      SortMembers(s[..|s| - 1], n);
      InsertMembers(Sort(s[..|s| - 1]), s[|s| - 1]);
      InLast(s, n);
    }
  }

  // ---- hand-off across the whole cluster ----

  /** A member joins a cluster; the names are arbitrary. */
  ghost predicate Joining(hash: Hash, weight: nat, live: seq<Member>, back: seq<Node>, joiner: Member) {
    && live != [] && weight > 0 && RingOf(hash, weight, live, back)
    && DistinctIps(live + [joiner]) && Joins(back, VNodes(hash, joiner, weight))
  }

  ghost predicate Cluster(hash: Hash, weight: nat, live: seq<Member>, back: seq<Node>, joiner: Member) {
    Joining(hash, weight, live, back, joiner) && NoPrefixes(Names(live + [joiner]))
  }

  function Names(live: seq<Member>): (r: seq<string>)
    ensures |r| == |live| && forall i :: 0 <= i < |live| ==> r[i] == live[i].name
  {
    if live == [] then [] else Names(live[..|live| - 1]) + [live[|live| - 1].name]
  }

  lemma LocalIffOwner(hash: Hash, weight: nat, live: seq<Member>, back: seq<Node>, joiner: Member, k: nat, n: Node)
    requires Cluster(hash, weight, live, back, joiner) && k < |live|
    ensures n in back ==> (IsLocal(live[k].name, n) <==> n.ip == live[k].ip)
    ensures n in VNodes(hash, joiner, weight) ==> !IsLocal(live[k].name, n) && n.ip == joiner.ip
  {
    var all := live + [joiner];
    assert all[k] == live[k] && all[|live|] == joiner;
    assert Names(all)[k] == live[k].name;
    if n in back {
      var i, w :| 0 <= i < |live| && 0 <= w < weight && n == VNode(hash, live[i], w);
      assert all[i] == live[i] && Names(all)[i] == live[i].name;
      LocalMeansOwn(hash, live[i], w, live[k].name);
    }
    if n in VNodes(hash, joiner, weight) {
      var w :| 0 <= w < weight && n == VNodes(hash, joiner, weight)[w];
      assert Names(all)[|live|] == joiner.name;
      LocalMeansOwn(hash, joiner, w, live[k].name);
    }
  }

  /**
   * When a member joins, member `k` emits exactly the tokens that pass from `k` to the joiner, each once.
   */
  lemma MemberHandsOffItsLoss(hash: Hash, weight: nat, live: seq<Member>, back: seq<Node>, joiner: Member,
                              k: nat, t: Token)
    requires Cluster(hash, weight, live, back, joiner) && k < |live|
    ensures back != [] && JoinBack(back, VNodes(hash, joiner, weight)) != []
    ensures Cover(Emitted(live[k].name, back, Sort(VNodes(hash, joiner, weight))), t)
         == if Owner(back, t).ip == live[k].ip
               && Owner(JoinBack(back, VNodes(hash, joiner, weight)), t).ip == joiner.ip then 1 else 0
  {
    var added := VNodes(hash, joiner, weight);
    RingNotEmpty(hash, weight, live, back, joiner);
    SortKeepsDistinct(back, added);
    var sorted, local := Sort(added), live[k].name;
    forall i | 0 <= i < |sorted| ensures !IsLocal(local, sorted[i]) {
      assert sorted[i] in added;
      LocalIffOwner(hash, weight, live, back, joiner, k, sorted[i]);
    }
    HandOffExact(local, back, sorted, t);
    LocalIffOwner(hash, weight, live, back, joiner, k, Owner(back, t));
    JoinerOwnsExactlyAdded(hash, weight, live, back, joiner, t);
  }

  lemma JoinerOwnsExactlyAdded(hash: Hash, weight: nat, live: seq<Member>, back: seq<Node>, joiner: Member, t: Token)
    requires Joining(hash, weight, live, back, joiner) && back != []
    ensures var added := VNodes(hash, joiner, weight);
            var after := JoinBack(back, added);
            after != [] && (Owner(after, t).ip == joiner.ip <==> Owner(after, t) in Sort(added))
  {
    var added := VNodes(hash, joiner, weight);
    JoinsAgree(back, added);
    SortKeepsDistinct(back, added);
    OwnerKeptOrTaken(back, Sort(added), t);
    var o := Owner(JoinBack(back, added), t);
    if o in Sort(added) {
      assert o in added;
      var w :| 0 <= w < weight && o == added[w];
    } else {
      assert o in back;
      var i, w :| 0 <= i < |live| && 0 <= w < weight && o == VNode(hash, live[i], w);
      var all := live + [joiner];
      assert all[i] == live[i] && all[|live|] == joiner;
    }
  }

  lemma RingNotEmpty(hash: Hash, weight: nat, live: seq<Member>, back: seq<Node>, joiner: Member)
    requires Joining(hash, weight, live, back, joiner)
    ensures back != [] && JoinBack(back, VNodes(hash, joiner, weight)) != []
  {
    assert IsVNode(hash, weight, live, VNode(hash, live[0], 0));
    assert VNode(hash, live[0], 0) in back;
    JoinsAgree(back, VNodes(hash, joiner, weight));
    assert VNode(hash, live[0], 0) in JoinBack(back, VNodes(hash, joiner, weight));
  }

  // ---- hand-off when names are prefixes of one another ----

  /** The token passes from the member to the joiner. */
  ghost predicate Moves(hash: Hash, weight: nat, back: seq<Node>, member: Member, joiner: Member, t: Token) {
    && back != [] && JoinBack(back, VNodes(hash, joiner, weight)) != []
    && Owner(back, t).ip == member.ip && Owner(JoinBack(back, VNodes(hash, joiner, weight)), t).ip == joiner.ip
  }

  /** The member emits the token once if it passes from it to the joiner, and not at all otherwise. */
  ghost predicate ExactAt(hash: Hash, weight: nat, back: seq<Node>, member: Member, joiner: Member, t: Token)
    requires back != []
  {
    Cover(Emitted(member.name, back, Sort(VNodes(hash, joiner, weight))), t)
    == if Moves(hash, weight, back, member, joiner, t) then 1 else 0
  }

  /**
   * The exact condition for any names: a member's hand-off is exact at a token if and only if, should the joiner gain
   * the token, the name test sends it on exactly when the member owned it.
   */
  lemma HandOffExactIff(hash: Hash, weight: nat, live: seq<Member>, back: seq<Node>, joiner: Member, k: nat, t: Token)
    requires Joining(hash, weight, live, back, joiner) && k < |live|
    ensures var sorted := Sort(VNodes(hash, joiner, weight));
            && back != [] && InsertAll(back, sorted) != []
            && (ExactAt(hash, weight, back, live[k], joiner, t)
                <==> (Owner(InsertAll(back, sorted), t) in sorted ==>
                        (NamesSend(live[k].name, back, sorted, t) <==> Owner(back, t).ip == live[k].ip)))
  {
    var added := VNodes(hash, joiner, weight);
    RingNotEmpty(hash, weight, live, back, joiner);
    SortKeepsDistinct(back, added);
    SortSorts(added);
    EmitsOwnedIff(live[k].name, back, Sort(added), t, Owner(back, t).ip == live[k].ip);
    JoinerOwnsExactlyAdded(hash, weight, live, back, joiner, t);
  }

  /** If no virtual node of the joiner passes for the member's own: exact iff the former owner passes only if it is. */
  lemma StrangerHandOffIff(hash: Hash, weight: nat, live: seq<Member>, back: seq<Node>, joiner: Member,
                           k: nat, t: Token)
    requires Joining(hash, weight, live, back, joiner) && k < |live|
    requires forall n :: n in VNodes(hash, joiner, weight) ==> !IsLocal(live[k].name, n)
    ensures var sorted := Sort(VNodes(hash, joiner, weight));
            && back != [] && InsertAll(back, sorted) != []
            && (ExactAt(hash, weight, back, live[k], joiner, t)
                <==> (Owner(InsertAll(back, sorted), t) in sorted ==>
                        (IsLocal(live[k].name, Owner(back, t)) <==> Owner(back, t).ip == live[k].ip)))
  {
    var added := VNodes(hash, joiner, weight);
    HandOffExactIff(hash, weight, live, back, joiner, k, t);
    SortMembers(added, Owner(InsertAll(back, Sort(added)), t));
    assert Sort(added) != [] ==> Sort(added)[0] in Sort(added);
    if Sort(added) != [] {
      SortMembers(added, Sort(added)[0]);
    }
  }

  /** If all of them do, the member emits nothing, which is exact iff it does not lose the token. */
  lemma NamesakeHandOffIff(hash: Hash, weight: nat, live: seq<Member>, back: seq<Node>, joiner: Member,
                           k: nat, t: Token)
    requires Joining(hash, weight, live, back, joiner) && k < |live|
    requires forall n :: n in VNodes(hash, joiner, weight) ==> IsLocal(live[k].name, n)
    ensures back != [] && Emitted(live[k].name, back, Sort(VNodes(hash, joiner, weight))) == []
    ensures ExactAt(hash, weight, back, live[k], joiner, t) <==> !Moves(hash, weight, back, live[k], joiner, t)
  {
    var sorted := Sort(VNodes(hash, joiner, weight));
    RingNotEmpty(hash, weight, live, back, joiner);
    forall i | 0 <= i < |sorted| ensures IsLocal(live[k].name, sorted[i]) {
      SortMembers(VNodes(hash, joiner, weight), sorted[i]);
    }
    JoinerEmitsNothing(live[k].name, back, sorted);
  }

  lemma OneVNode(hash: Hash, m: Member)
    ensures VNodes(hash, m, 1) == [VNode(hash, m, 0)] && VNode(hash, m, 0).name == m.name + "#0"
    ensures Sort(VNodes(hash, m, 1)) == [VNode(hash, m, 0)]
  {
    assert VNodes(hash, m, 0) == [];
    SortOne(VNode(hash, m, 0));
  }

  lemma SortOne(n: Node)
    ensures Sort([n]) == [n]
  {
    assert [n][..0] == [];
  }

  /** Whenever the name of `x` is a prefix of that of `y`, there is a ring on which `x` emits a range that `y` owns. */
  lemma PrefixNameEmitsForeignRange(x: Member, y: Member, joiner: Member) returns (hash: Hash, back: seq<Node>)
    requires x.name <= y.name && x.name != y.name && !(x.name <= joiner.name + "#0")
    requires DistinctIps([x, y, joiner])
    ensures Joining(hash, 1, [x, y], back, joiner) && back != []
    ensures Owner(back, 12).ip == y.ip && Cover(Emitted(x.name, back, Sort(VNodes(hash, joiner, 1))), 12) == 1
  {
    hash := (s: string) => if s == x.name + "#0" then 10 else if s == y.name + "#0" then 20 else 15;
    SuffixesDiffer(x.name, y.name);
    assert x.name <= x.name + "#0" && x.name <= y.name + "#0";
    OneVNode(hash, x);
    OneVNode(hash, y);
    OneVNode(hash, joiner);
    back := [VNode(hash, x, 0), VNode(hash, y, 0)];
    TwoAndJoiner(hash, x, y, joiner);
    ForeignStep(x.name, back[0], back[1], VNode(hash, joiner, 0));
  }

  lemma ForeignStep(local: string, a: Node, b: Node, n: Node)
    requires a.token == 10 && b.token == 20 && n.token == 15 && IsLocal(local, b) && !IsLocal(local, n)
    ensures Owner([a, b], 12) == b && Cover(Emitted(local, [a, b], [n]), 12) == 1
  {
    var back := [a, b];
    UpperBoundUnique(back, 15, 1);
    UpperBoundUnique(back, 12, 1);
    EmittedOne(local, back, n);
    assert StepRanges(local, back, n) == [RingRange(10, 15)];
    assert [RingRange(10, 15)][1..] == [];
  }

  lemma EmittedOne(local: string, back: seq<Node>, n: Node)
    requires back != []
    ensures Emitted(local, back, [n]) == StepRanges(local, back, n) && InsertAll(back, [n]) == Insert(back, n)
  {
    assert [n][1..] == [];
  }

  lemma SuffixesDiffer(a: string, b: string)
    requires a != b
    ensures a + "#0" != b + "#0"
  {
    assert a == (a + "#0")[..|a|];
    assert b == (b + "#0")[..|b|];
  }

  lemma TwoAndJoiner(hash: Hash, x: Member, y: Member, joiner: Member)
    requires VNode(hash, x, 0).token < VNode(hash, joiner, 0).token < VNode(hash, y, 0).token
    requires DistinctIps([x, y, joiner])
    ensures Joining(hash, 1, [x, y], [VNode(hash, x, 0), VNode(hash, y, 0)], joiner)
  {
    var live := [x, y];
    assert live[0] == x && live[1] == y && live + [joiner] == [x, y, joiner];
    assert IsVNode(hash, 1, live, VNode(hash, live[0], 0)) && IsVNode(hash, 1, live, VNode(hash, live[1], 0));
    OneVNode(hash, joiner);
  }

  /** Whenever the name of `x` is a prefix of the joiner's, there is a ring on which `x` keeps a range that it loses. */
  lemma PrefixNameKeepsLostRange(x: Member, joiner: Member) returns (hash: Hash, back: seq<Node>)
    requires x.name <= joiner.name && x.name != joiner.name && x.ip != joiner.ip
    ensures Joining(hash, 1, [x], back, joiner) && back != []
    ensures Moves(hash, 1, back, x, joiner, 5) && Emitted(x.name, back, Sort(VNodes(hash, joiner, 1))) == []
  {
    hash := (s: string) => if s == x.name + "#0" then 20 else 10;
    SuffixesDiffer(x.name, joiner.name);
    OneVNode(hash, x);
    OneVNode(hash, joiner);
    var own, n := VNode(hash, x, 0), VNode(hash, joiner, 0);
    back := [own];
    OneAndJoiner(hash, x, joiner);
    assert x.name <= joiner.name + "#0";
    LostStep(x.name, own, n);
  }

  lemma OneAndJoiner(hash: Hash, x: Member, joiner: Member)
    requires VNode(hash, x, 0).token != VNode(hash, joiner, 0).token && x.ip != joiner.ip
    ensures Joining(hash, 1, [x], [VNode(hash, x, 0)], joiner)
  {
    var live := [x];
    assert live[0] == x && IsVNode(hash, 1, live, VNode(hash, live[0], 0));
    OneVNode(hash, joiner);
  }

  lemma LostStep(local: string, own: Node, n: Node)
    requires own.token == 20 && n.token == 10 && IsLocal(local, n)
    ensures JoinBack([own], [n]) == [n, own]
    ensures Owner([own], 5) == own && Owner([n, own], 5) == n && Emitted(local, [own], [n]) == []
  {
    var back := [own];
    SortOne(n);
    UpperBoundUnique(back, 10, 0);
    UpperBoundUnique(back, 5, 0);
    UpperBoundUnique([n, own], 5, 0);
    EmittedOne(local, back, n);
    assert Insert(back, n) == [n, own];
  }

  /** The live member that owns a token. */
  lemma OwnerIsLive(hash: Hash, weight: nat, live: seq<Member>, back: seq<Node>, t: Token) returns (k: nat)
    requires RingOf(hash, weight, live, back) && back != []
    ensures k < |live| && live[k].ip == Owner(back, t).ip
  {
    assert Owner(back, t) in back;
    var i, w :| 0 <= i < |live| && 0 <= w < weight && Owner(back, t) == VNode(hash, live[i], w);
    k := i;
  }

  /**
   * Hand-off exactness over the cluster: every token the joiner gains lies in exactly one range of exactly one
   * member, its former owner, and no other token is handed over by anybody.
   */
  lemma ClusterHandsOffEveryGain(hash: Hash, weight: nat, live: seq<Member>, back: seq<Node>, joiner: Member, t: Token)
    returns (k: nat)
    requires Cluster(hash, weight, live, back, joiner)
    ensures back != [] && JoinBack(back, VNodes(hash, joiner, weight)) != []
    ensures k < |live| && live[k].ip == Owner(back, t).ip
    ensures var gained := Owner(JoinBack(back, VNodes(hash, joiner, weight)), t).ip == joiner.ip;
            forall j :: 0 <= j < |live| ==>
              Cover(Emitted(live[j].name, back, Sort(VNodes(hash, joiner, weight))), t)
              == if gained && j == k then 1 else 0
  {
    MemberHandsOffItsLoss(hash, weight, live, back, joiner, 0, t);
    k := OwnerIsLive(hash, weight, live, back, t);
    var all := live + [joiner];
    forall j | 0 <= j < |live|
      ensures Cover(Emitted(live[j].name, back, Sort(VNodes(hash, joiner, weight))), t)
           == if Owner(JoinBack(back, VNodes(hash, joiner, weight)), t).ip == joiner.ip && j == k then 1 else 0
    {
      MemberHandsOffItsLoss(hash, weight, live, back, joiner, j, t);
      assert all[j] == live[j] && all[k] == live[k];
    }
  }

  lemma AppendThen<T>(a: seq<T>, b: seq<T>, c: seq<T>)
    ensures (a + b) + c == a + (b + c)
  {
  }

  // ---- the listener ----

  /** The ring state of one node: `MemberHashRing`'s serving ring and the listener's back ring. */
  class RingListener {
    const hash: Hash
    const weight: nat
    const local: string
    const serving: NodeRing
    const backRing: NodeRing
    ghost var live: seq<Member>

    /** The twin rings are one and the same ring, that of the live members, and count them. */
    ghost predicate Valid()
      reads this, serving, backRing
    {
      && serving != backRing && weight > 0
      && DistinctIps(live)
      && RingOf(hash, weight, live, serving.nodes)
      && backRing.nodes == serving.nodes
      && backRing.nodeNum == serving.nodeNum == |live|
      && |Ips(serving.nodes)| == |live|
    }

    constructor (hash: Hash, weight: nat, local: string)
      requires weight > 0
      ensures Valid() && live == [] && fresh(serving) && fresh(backRing)
      ensures this.hash == hash && this.weight == weight && this.local == local
    {
      this.hash, this.weight, this.local, this.live := hash, weight, local, [];
      this.serving := new NodeRing();
      this.backRing := new NodeRing();
    }

    /** `OnAdd`: append the virtual nodes, sort once, count the member. */
    method OnAdd(m: Member) returns (added: seq<Node>)
      modifies serving
      ensures added == VNodes(hash, m, weight)
      ensures serving.nodes == JoinServing(old(serving.nodes), added)
      ensures serving.nodeNum == old(serving.nodeNum) + 1
    {
      added := [];
      for w := 0 to weight
        invariant added == VNodes(hash, m, w)
        invariant serving.nodes == old(serving.nodes) + added
        invariant serving.nodeNum == old(serving.nodeNum)
      {
        var v := VNode(hash, m, w);
        serving.nodes := serving.nodes + [v];
        added := added + [v];
      }
      serving.nodes := Sort(serving.nodes);
      serving.nodeNum := serving.nodeNum + 1;
    }

    /** One iteration of the loop in `balanceOnNodeAdded`. */
    method InsertOne(n: Node) returns (ranges: seq<RingRange>)
      requires Sorted(backRing.nodes) && backRing.nodes != []
      modifies backRing`nodes
      ensures backRing.nodes == Insert(old(backRing.nodes), n)
      ensures ranges == StepRanges(local, old(backRing.nodes), n)
    {
      ranges := [];
      if !IsLocal(local, n) {
        var pred, owner := backRing.RangeOfRing(n.token);
        if IsLocal(local, owner) {
          ranges := [RingRange(pred.token, n.token)];
        }
      }
      SortSnoc(backRing.nodes, n);
      backRing.nodes := Sort(backRing.nodes + [n]);
    }

    /** `balanceOnNodeAdded`: insert the sorted virtual nodes one by one and emit the ranges to hand over. */
    method BalanceOnNodeAdded(added: seq<Node>) returns (ranges: seq<RingRange>)
      requires Joins(backRing.nodes, added)
      requires backRing.nodeNum == 0 <==> backRing.nodes == []
      modifies backRing
      ensures backRing.nodes == JoinBack(old(backRing.nodes), added)
      ensures backRing.nodeNum == old(backRing.nodeNum) + 1
      ensures ranges == if old(backRing.nodes) == [] then [] else Emitted(local, old(backRing.nodes), Sort(added))
    {
      ranges := [];
      if backRing.nodeNum == 0 {
        backRing.nodes := Sort(backRing.nodes + added);
        backRing.nodeNum := backRing.nodeNum + 1;
        return;
      }
      var sorted := Sort(added);
      SortKeepsDistinct(backRing.nodes, added);
      ghost var before := backRing.nodes;
      for i := 0 to |sorted|
        invariant backRing.nodes != [] && Joins(backRing.nodes, sorted[i..])
        invariant InsertAll(backRing.nodes, sorted[i..]) == InsertAll(before, sorted)
        invariant ranges + Emitted(local, backRing.nodes, sorted[i..]) == Emitted(local, before, sorted)
        invariant backRing.nodeNum == old(backRing.nodeNum)
      {
        JoinUnfold(local, backRing.nodes, sorted, i);
        var emitted := InsertOne(sorted[i]);
        AppendThen(ranges, emitted, Emitted(local, backRing.nodes, sorted[i + 1..]));
        ranges := ranges + emitted;
      }
      backRing.nodeNum := backRing.nodeNum + 1;
    }

    /** A `NODE_ADDED` event. */
    method NodeAdded(m: Member) returns (ranges: seq<RingRange>)
      requires Valid()
      requires DistinctIps(live + [m]) && Joins(serving.nodes, VNodes(hash, m, weight))
      modifies this, serving, backRing
      ensures Valid() && live == old(live) + [m]
      ensures serving.nodes == JoinServing(old(serving.nodes), VNodes(hash, m, weight))
      ensures ranges == if old(live) == [] then []
                        else Emitted(local, old(serving.nodes), Sort(VNodes(hash, m, weight)))
    {
      LiveIffNodes(hash, weight, live, serving.nodes);
      RingAfterJoin(hash, weight, live, serving.nodes, m);
      JoinsAgree(serving.nodes, VNodes(hash, m, weight));
      JoinCountsMember(hash, weight, live, serving.nodes, m);
      var added := OnAdd(m);
      ranges := BalanceOnNodeAdded(added);
      live := live + [m];
    }

    /** `OnRemove`: delete the member's virtual nodes, sort, count. */
    method OnRemove(ip: Ip) returns (removed: seq<Node>)
      modifies serving
      ensures serving.nodes == Leave(old(serving.nodes), ip)
      ensures serving.nodeNum == old(serving.nodeNum) - 1
      ensures removed == Filter(old(serving.nodes), OfIp(ip))
    {
      removed := Filter(serving.nodes, OfIp(ip));
      serving.nodes := Sort(Filter(serving.nodes, OtherThan(ip)));
      serving.nodeNum := serving.nodeNum - 1;
    }

    /** `balanceOnNodeRemoved`: one deletion pass per removed virtual node, all for the same IP. */
    method BalanceOnNodeRemoved(removed: seq<Node>, ip: Ip)
      requires removed != [] && forall i :: 0 <= i < |removed| ==> removed[i].ip == ip
      modifies backRing
      ensures backRing.nodes == Leave(old(backRing.nodes), ip)
      ensures backRing.nodeNum == old(backRing.nodeNum) - 1
    {
      for i := 0 to |removed|
        invariant backRing.nodes == if i == 0 then old(backRing.nodes) else Filter(old(backRing.nodes), OtherThan(ip))
        invariant backRing.nodeNum == old(backRing.nodeNum)
      {
        FilterIdempotent(old(backRing.nodes), OtherThan(ip));
        backRing.nodes := Filter(backRing.nodes, OtherThan(removed[i].ip));
      }
      backRing.nodes := Sort(backRing.nodes);
      backRing.nodeNum := backRing.nodeNum - 1;
    }

    /** A `NODE_REMOVED` event for the live member at position `k`. */
    method NodeRemoved(ghost k: nat, ip: Ip)
      requires Valid() && k < |live| && live[k].ip == ip
      modifies this, serving, backRing
      ensures Valid() && live == old(live[..k] + live[k + 1..])
      ensures serving.nodes == Filter(old(serving.nodes), OtherThan(ip))
    {
      RingAfterLeave(hash, weight, live, serving.nodes, k);
      LeaveKeepsSorted(serving.nodes, ip);
      FilterKeepsOtherIps(serving.nodes, ip);
      MemberIsOnRing(hash, weight, live, serving.nodes, k);
      var removed := OnRemove(ip);
      BalanceOnNodeRemoved(removed, ip);
      live := live[..k] + live[k + 1..];
    }
  }

  lemma JoinUnfold(local: string, back: seq<Node>, added: seq<Node>, i: nat)
    requires back != [] && i < |added| && Joins(back, added[i..])
    ensures var next, rest := Insert(back, added[i]), added[i + 1..];
            && Joins(next, rest)
            && InsertAll(back, added[i..]) == InsertAll(next, rest)
            && Emitted(local, back, added[i..]) == StepRanges(local, back, added[i]) + Emitted(local, next, rest)
  {
    JoinStep(back, added[i..]);
    assert added[i..][1..] == added[i + 1..];
  }

  lemma SortSnoc(r: seq<Node>, n: Node)
    requires Sorted(r)
    ensures Sort(r + [n]) == Insert(r, n)
  {
    assert (r + [n])[..|r|] == r;
    SortedIsDistinct(r);
  }

  lemma LiveIffNodes(hash: Hash, weight: nat, live: seq<Member>, nodes: seq<Node>)
    requires RingOf(hash, weight, live, nodes) && weight > 0
    ensures live == [] <==> nodes == []
  {
    if live != [] {
      assert IsVNode(hash, weight, live, VNode(hash, live[0], 0));
    }
    if nodes != [] {
      assert nodes[0] in nodes;
    }
  }

  lemma MemberIsOnRing(hash: Hash, weight: nat, live: seq<Member>, nodes: seq<Node>, k: nat)
    requires RingOf(hash, weight, live, nodes) && weight > 0 && k < |live|
    ensures live[k].ip in Ips(nodes)
    ensures Filter(nodes, OfIp(live[k].ip)) != []
    ensures var mine := Filter(nodes, OfIp(live[k].ip)); forall i :: 0 <= i < |mine| ==> mine[i].ip == live[k].ip
  {
    var n := VNode(hash, live[k], 0);
    assert IsVNode(hash, weight, live, n);
    assert n in nodes;
    FilterMembers(nodes, OfIp(live[k].ip));
    assert OfIp(live[k].ip)(n);
    IpsMember(nodes, live[k].ip);
    var mine := Filter(nodes, OfIp(live[k].ip));
    forall i | 0 <= i < |mine| ensures mine[i].ip == live[k].ip {
      assert mine[i] in mine;
    }
  }

  lemma JoinCountsMember(hash: Hash, weight: nat, live: seq<Member>, nodes: seq<Node>, m: Member)
    requires RingOf(hash, weight, live, nodes) && weight > 0
    requires DistinctIps(live + [m]) && Joins(nodes, VNodes(hash, m, weight))
    ensures |Ips(JoinServing(nodes, VNodes(hash, m, weight)))| == |Ips(nodes)| + 1
  {
    var added := VNodes(hash, m, weight);
    var joined := JoinServing(nodes, added);
    JoinsAgree(nodes, added);
    IpsMember(nodes, m.ip);
    forall i | 0 <= i < |nodes| ensures nodes[i].ip != m.ip {
      assert nodes[i] in nodes;
      var j, w :| 0 <= j < |live| && 0 <= w < weight && nodes[i] == VNode(hash, live[j], w);
      assert (live + [m])[j] == live[j] && (live + [m])[|live|] == m;
    }
    forall ip ensures ip in Ips(joined) <==> ip in Ips(nodes) + {m.ip} {
      IpsOfJoin(nodes, added, joined, m.ip, ip);
    }
    assert Ips(joined) == Ips(nodes) + {m.ip};
  }

  lemma IpsOfJoin(nodes: seq<Node>, added: seq<Node>, joined: seq<Node>, own: Ip, ip: Ip)
    requires added != [] && forall i :: 0 <= i < |added| ==> added[i].ip == own
    requires forall n :: n in joined <==> n in nodes || n in added
    ensures ip in Ips(joined) <==> ip in Ips(nodes) || ip == own
  {
    IpsMember(joined, ip);
    IpsMember(nodes, ip);
    if i :| 0 <= i < |joined| && joined[i].ip == ip {
      assert joined[i] in nodes || joined[i] in added;
    }
    if i :| 0 <= i < |nodes| && nodes[i].ip == ip {
      assert nodes[i] in joined;
    }
    assert added[0] in joined;
  }
}
