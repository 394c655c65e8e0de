/**
 * Range hand-off when a member joins: `balanceOnNodeAdded` in `member_hash_ring_listener.go`.
 *
 * Every member keeps a second ring and inserts the joiner's virtual nodes one by one.  Each insertion splits
 * one arc; a member that owned the split arc tells the joiner to pull it.
 */
module HandOff {
  import opened Ring

  /** A cyclic range of tokens, `from` included and `to` excluded, with the meaning `pull` gives it. */
  datatype RingRange = RingRange(from: Token, to: Token)

  predicate InRange(t: Token, r: RingRange) {
    if r.from < r.to then r.from <= t < r.to else t >= r.from || t < r.to
  }

  predicate DistinctTokens(s: seq<Node>) {
    forall i, j :: 0 <= i < j < |s| ==> s[i].token != s[j].token
  }

  // ---- sorting ----

  /** `r` with `n` placed before the first larger token. */
  function Insert(r: seq<Node>, n: Node): seq<Node> {
    var u := UpperBound(r, n.token);
    r[..u] + [n] + r[u..]
  }

  /** Stands for `slices.SortFunc(_, cmp)`; `SortedUnique` shows that no other sort can differ. */
  function Sort(s: seq<Node>): seq<Node> {
    if s == [] then [] else Insert(Sort(s[..|s| - 1]), s[|s| - 1])
  }

  ghost predicate Fresh(r: seq<Node>, n: Node) {
    forall i :: 0 <= i < |r| ==> r[i].token != n.token
  }

  ghost predicate SameNodes(a: seq<Node>, b: seq<Node>) {
    forall n :: n in a <==> n in b
  }

  lemma InsertSorted(r: seq<Node>, n: Node)
    requires Sorted(r) && Fresh(r, n)
    ensures Sorted(Insert(r, n))
    ensures forall m :: m in Insert(r, n) <==> m in r || m == n
  {
    InsertMembers(r, n);
  }

  lemma InsertMembers(r: seq<Node>, n: Node)
    ensures forall m :: m in Insert(r, n) <==> m in r || m == n
  {
    var u := UpperBound(r, n.token);
    assert r == r[..u] + r[u..];
    assert forall m :: m in r <==> m in r[..u] || m in r[u..];
  }

  lemma {:induction false} SortSorts(s: seq<Node>)
    requires DistinctTokens(s)
    ensures Sorted(Sort(s)) && SameNodes(Sort(s), s)
  {
    if s != [] {
      var init, last := s[..|s| - 1], s[|s| - 1];
      SortSorts(init);
      var done := Sort(init);
      forall i | 0 <= i < |done| ensures done[i].token != last.token {
        assert done[i] in init;
      }
      InsertSorted(done, last);
      assert s == init + [last];
    }
  }

  lemma SortedAt(r: seq<Node>, n: Node, i: nat)
    requires Sorted(r) && n in r && i < |r| && r[i].token == n.token
    ensures n == r[i]
  {
    var j :| 0 <= j < |r| && r[j] == n;
  }

  /** Two sorted sequences of the same nodes are equal, so the choice of sorting algorithm is immaterial. */
  lemma {:induction false} SortedUnique(a: seq<Node>, b: seq<Node>)
    requires Sorted(a) && Sorted(b) && SameNodes(a, b)
    ensures a == b
  {
    EmptyTogether(a, b);
    if a != [] {
      LastsAgree(a, b);
      DropLast(a, b);
      SortedUnique(a[..|a| - 1], b[..|b| - 1]);
      assert a == a[..|a| - 1] + [a[|a| - 1]];
      assert b == b[..|b| - 1] + [b[|b| - 1]];
    }
  }

  lemma EmptyTogether(a: seq<Node>, b: seq<Node>)
    requires SameNodes(a, b)
    ensures a == [] <==> b == []
  {
    if a != [] {
      assert a[0] in b;
    }
    if b != [] {
      assert b[0] in a;
    }
  }

  lemma LastsAgree(a: seq<Node>, b: seq<Node>)
    requires Sorted(a) && Sorted(b) && SameNodes(a, b) && a != [] && b != []
    ensures a[|a| - 1] == b[|b| - 1]
  {
    var x, y := a[|a| - 1], b[|b| - 1];
    assert x in b && y in a;
    var k :| 0 <= k < |b| && b[k] == x;
    var l :| 0 <= l < |a| && a[l] == y;
    SortedAt(b, x, |b| - 1);
  }

  lemma DropLast(a: seq<Node>, b: seq<Node>)
    requires Sorted(a) && Sorted(b) && SameNodes(a, b) && a != [] && b != []
    requires a[|a| - 1] == b[|b| - 1]
    ensures SameNodes(a[..|a| - 1], b[..|b| - 1])
  {
    var x := a[|a| - 1];
    var a', b' := a[..|a| - 1], b[..|b| - 1];
    assert a == a' + [x] && b == b' + [x];
    assert x !in a' && x !in b';
    forall n ensures n in a' <==> n in b' {
      assert n in a <==> n in a' || n == x;
      assert n in b <==> n in b' || n == x;
    }
  }

  // ---- one insertion splits one arc ----

  lemma UpperBoundUnique(r: seq<Node>, t: Token, u: nat)
    requires Sorted(r) && u <= |r|
    requires forall j :: 0 <= j < u ==> r[j].token <= t
    requires u < |r| ==> r[u].token > t
    ensures UpperBound(r, t) == u
  {
  }

  lemma OwnerAfterInsert(r: seq<Node>, n: Node, t: Token)
    requires Sorted(r) && Fresh(r, n)
    ensures var i, u := UpperBound(r, n.token), UpperBound(r, t);
            UpperBound(Insert(r, n), t) == if t >= n.token then u + 1 else u
  {
    InsertSorted(r, n);
    var i, u := UpperBound(r, n.token), UpperBound(r, t);
    UpperBoundUnique(Insert(r, n), t, if t >= n.token then u + 1 else u);
  }

  /**
   * Inserting `n` takes exactly the tokens from its predecessor up to `n` away from one owner, the former owner
   * of `n`'s own token, and changes no other ownership.  Wrap-around included.
   */
  lemma InsertSplitsOneArc(r: seq<Node>, n: Node, t: Token)
    requires Sorted(r) && r != [] && Fresh(r, n)
    ensures var taken := RingRange(Predecessor(r, n.token).token, n.token);
            if InRange(t, taken) then Owner(Insert(r, n), t) == n && Owner(r, t) == Owner(r, n.token)
            else Owner(Insert(r, n), t) == Owner(r, t)
  {
    OwnerAfterInsert(r, n, t);
    var i, u := UpperBound(r, n.token), UpperBound(r, t);
    var pred := Predecessor(r, n.token);
    if i == 0 {
      assert pred == r[|r| - 1] && pred.token > n.token;
    } else {
      assert pred == r[i - 1] && pred.token < n.token;
    }
  }

  // ---- the ranges a member emits ----

  /** `localNode`: a prefix test on the node name. */
  predicate IsLocal(local: string, n: Node) {
    local <= n.name
  }

  /** What the member called `local` emits when `n` is inserted into `back`. */
  function StepRanges(local: string, back: seq<Node>, n: Node): seq<RingRange>
    requires back != []
  {
    if !IsLocal(local, n) && IsLocal(local, Owner(back, n.token))
    then [RingRange(Predecessor(back, n.token).token, n.token)]
    else []
  }

  function InsertAll(back: seq<Node>, added: seq<Node>): seq<Node>
    decreases |added|
  {
    if added == [] then back else InsertAll(Insert(back, added[0]), added[1..])
  }

  function Emitted(local: string, back: seq<Node>, added: seq<Node>): seq<RingRange>
    requires back != []
    decreases |added|
  {
    if added == [] then []
    else StepRanges(local, back, added[0]) + Emitted(local, Insert(back, added[0]), added[1..])
  }

  /** How many of the ranges hold `t`. */
  function Cover(ranges: seq<RingRange>, t: Token): nat {
    if ranges == [] then 0 else (if InRange(t, ranges[0]) then 1 else 0) + Cover(ranges[1..], t)
  }

  lemma {:induction false} CoverAppend(a: seq<RingRange>, b: seq<RingRange>, t: Token)
    ensures Cover(a + b, t) == Cover(a, t) + Cover(b, t)
  {
    if a == [] {
      assert a + b == b;
    } else {
      assert (a + b)[1..] == a[1..] + b;
      CoverAppend(a[1..], b, t);
    }
  }

  ghost predicate Joins(back: seq<Node>, added: seq<Node>) {
    && Sorted(back) && DistinctTokens(added)
    && forall i :: 0 <= i < |added| ==> Fresh(back, added[i])
  }

  lemma JoinStep(back: seq<Node>, added: seq<Node>)
    requires Joins(back, added) && added != []
    ensures Joins(Insert(back, added[0]), added[1..])
  {
    InsertSorted(back, added[0]);
    var next := Insert(back, added[0]);
    forall i, j | 0 <= i < |added[1..]| && 0 <= j < |next| ensures next[j].token != added[1..][i].token {
      assert next[j] in back || next[j] == added[0];
    }
  }

  lemma {:induction false} InsertAllSorted(back: seq<Node>, added: seq<Node>)
    requires Joins(back, added)
    ensures Sorted(InsertAll(back, added))
    ensures forall n :: n in InsertAll(back, added) <==> n in back || n in added
    decreases |added|
  {
    if added != [] {
      JoinStep(back, added);
      InsertSorted(back, added[0]);
      InsertAllSorted(Insert(back, added[0]), added[1..]);
      assert added == [added[0]] + added[1..];
    }
  }

  /** A token keeps its owner or passes to an inserted node. */
  lemma {:induction false} OwnerKeptOrTaken(back: seq<Node>, added: seq<Node>, t: Token)
    requires Joins(back, added) && back != []
    ensures InsertAll(back, added) != []
    ensures var o := Owner(InsertAll(back, added), t); o == Owner(back, t) || o in added
    decreases |added|
  {
    if added != [] {
      JoinStep(back, added);
      InsertSplitsOneArc(back, added[0], t);
      OwnerKeptOrTaken(Insert(back, added[0]), added[1..], t);
    }
  }

  /**
   * Hand-off exactness for one member.  The emitted ranges never overlap, and they hold exactly the tokens that
   * a local node owned before the join and a joining node owns after it.
   */
  lemma {:induction false} HandOffExact(local: string, back: seq<Node>, added: seq<Node>, t: Token)
    requires Joins(back, added) && back != []
    requires forall i :: 0 <= i < |added| ==> !IsLocal(local, added[i])
    ensures InsertAll(back, added) != []
    ensures Cover(Emitted(local, back, added), t)
         == if IsLocal(local, Owner(back, t)) && Owner(InsertAll(back, added), t) in added then 1 else 0
    decreases |added|
  {
    if added != [] {
      var next, rest := Insert(back, added[0]), added[1..];
      JoinStep(back, added);
      HandOffExact(local, next, rest, t);
      OwnerNotAdded(back, added, t);
      OwnerKeptOrTaken(next, rest, t);
      InSplit(added, Owner(InsertAll(back, added), t));
      if InRange(t, Taken(back, added[0])) {
        StrangerTakes(local, back, added, t);
      } else {
        FirstPasses(local, back, added, t);
      }
    }
  }

  lemma InSplit(s: seq<Node>, n: Node)
    requires s != []
    ensures n in s <==> n == s[0] || n in s[1..]
  {
    assert s == [s[0]] + s[1..];
  }

  lemma StrangerTakes(local: string, back: seq<Node>, added: seq<Node>, t: Token)
    requires Joins(back, added) && back != [] && added != [] && !IsLocal(local, added[0])
    requires InRange(t, Taken(back, added[0]))
    ensures Owner(Insert(back, added[0]), t) == added[0]
    ensures Cover(Emitted(local, back, added), t)
         == (if IsLocal(local, Owner(back, t)) then 1 else 0)
            + Cover(Emitted(local, Insert(back, added[0]), added[1..]), t)
  {
    var n, rest := added[0], added[1..];
    InsertSplitsOneArc(back, n, t);
    StepCover(local, back, n, t);
    CoverAppend(StepRanges(local, back, n), Emitted(local, Insert(back, n), rest), t);
  }

  lemma OwnerNotAdded(back: seq<Node>, added: seq<Node>, t: Token)
    requires Joins(back, added) && back != []
    ensures Owner(back, t) !in added
  {
    assert Owner(back, t) in back;
  }

  /** A member that joins never emits ranges for its own arrival. */
  lemma {:induction false} JoinerEmitsNothing(local: string, back: seq<Node>, added: seq<Node>)
    requires back != []
    requires forall i :: 0 <= i < |added| ==> IsLocal(local, added[i])
    ensures Emitted(local, back, added) == []
    decreases |added|
  {
    if added != [] {
      JoinerEmitsNothing(local, Insert(back, added[0]), added[1..]);
    }
  }

  // ---- hand-off for any names ----

  /** A token below a node that precedes all insertions keeps its owner and is not emitted. */
  lemma {:induction false} LaterInsertsKeep(local: string, back: seq<Node>, added: seq<Node>, t: Token)
    requires Joins(back, added) && Sorted(added) && UpperBound(back, t) < |back|
    requires forall i :: 0 <= i < |added| ==> added[i].token > back[UpperBound(back, t)].token
    ensures InsertAll(back, added) != [] && Owner(InsertAll(back, added), t) == Owner(back, t)
    ensures Cover(Emitted(local, back, added), t) == 0
    decreases |added|
  {
    if added != [] {
      var n, rest, u := added[0], added[1..], UpperBound(back, t);
      assert UpperBound(back, n.token) > u;
      assert !InRange(t, RingRange(Predecessor(back, n.token).token, n.token));
      JoinStep(back, added);
      InsertSplitsOneArc(back, n, t);
      OwnerAfterInsert(back, n, t);
      LaterInsertsKeep(local, Insert(back, n), rest, t);
      CoverAppend(StepRanges(local, back, n), Emitted(local, Insert(back, n), rest), t);
    }
  }

  /** The member takes `from` for its own and `to` for a stranger's node. */
  predicate Yields(local: string, from: Node, to: Node) {
    IsLocal(local, from) && !IsLocal(local, to)
  }

  function Taken(back: seq<Node>, n: Node): RingRange
    requires back != []
  {
    RingRange(Predecessor(back, n.token).token, n.token)
  }

  lemma FirstTakes(local: string, back: seq<Node>, added: seq<Node>, t: Token)
    requires Joins(back, added) && Sorted(added) && back != [] && added != []
    requires added[0].token > back[0].token && InRange(t, Taken(back, added[0]))
    ensures InsertAll(back, added) != [] && Owner(InsertAll(back, added), t) == added[0]
    ensures Cover(Emitted(local, back, added), t) == if Yields(local, Owner(back, t), added[0]) then 1 else 0
  {
    var n, rest := added[0], added[1..];
    JoinStep(back, added);
    InsertSplitsOneArc(back, n, t);
    OwnerAfterInsert(back, n, t);
    LaterInsertsKeep(local, Insert(back, n), rest, t);
    CoverAppend(StepRanges(local, back, n), Emitted(local, Insert(back, n), rest), t);
  }

  lemma FirstPasses(local: string, back: seq<Node>, added: seq<Node>, t: Token)
    requires Joins(back, added) && back != [] && added != [] && !InRange(t, Taken(back, added[0]))
    ensures Owner(Insert(back, added[0]), t) == Owner(back, t)
    ensures Cover(Emitted(local, back, added), t) == Cover(Emitted(local, Insert(back, added[0]), added[1..]), t)
  {
    var n, rest := added[0], added[1..];
    InsertSplitsOneArc(back, n, t);
    CoverAppend(StepRanges(local, back, n), Emitted(local, Insert(back, n), rest), t);
  }

  /** How often a token is emitted that passes from one node to another. */
  function Once(local: string, from: Node, to: Node, added: seq<Node>): nat {
    if to in added && Yields(local, from, to) then 1 else 0
  }

  lemma OnceLater(local: string, from: Node, to: Node, added: seq<Node>)
    requires added != [] && from !in added && (to == from || to in added[1..])
    ensures Once(local, from, to, added[1..]) == Once(local, from, to, added)
  {
    assert added == [added[0]] + added[1..];
  }

  /** Without insertions in front of the ring, a token changes hands at most once. */
  lemma {:induction false} ForwardCount(local: string, back: seq<Node>, added: seq<Node>, t: Token)
    requires Joins(back, added) && Sorted(added) && back != []
    requires added != [] ==> added[0].token > back[0].token
    ensures InsertAll(back, added) != []
    ensures Cover(Emitted(local, back, added), t)
         == Once(local, Owner(back, t), Owner(InsertAll(back, added), t), added)
    decreases |added|
  {
    if added != [] {
      if InRange(t, Taken(back, added[0])) {
        FirstTakes(local, back, added, t);
      } else {
        ForwardPasses(back, added, t);
        FirstPasses(local, back, added, t);
        ForwardCount(local, Insert(back, added[0]), added[1..], t);
        OnceLater(local, Owner(back, t), Owner(InsertAll(back, added), t), added);
      }
    }
  }

  lemma ForwardPasses(back: seq<Node>, added: seq<Node>, t: Token)
    requires Joins(back, added) && Sorted(added) && back != [] && added != [] && added[0].token > back[0].token
    requires !InRange(t, Taken(back, added[0]))
    ensures var next, rest := Insert(back, added[0]), added[1..];
            && Joins(next, rest) && Sorted(rest) && (rest != [] ==> rest[0].token > next[0].token)
            && Owner(back, t) !in added && InsertAll(back, added) != []
            && (Owner(InsertAll(back, added), t) == Owner(back, t) || Owner(InsertAll(back, added), t) in rest)
  {
    var next, rest := Insert(back, added[0]), added[1..];
    assert next[0] == back[0];
    JoinStep(back, added);
    InsertSplitsOneArc(back, added[0], t);
    OwnerKeptOrTaken(next, rest, t);
    OwnerNotAdded(back, added, t);
  }

  /** The first insertion goes in front of the ring and takes the token, and a later one takes it again. */
  predicate Detours(back: seq<Node>, added: seq<Node>, t: Token)
    requires back != []
  {
    && added != [] && added[0].token < back[0].token && InRange(t, Taken(back, added[0]))
    && InsertAll(back, added) != [] && Owner(InsertAll(back, added), t) != added[0]
  }

  /**
   * Hand-off for any names: how often a token is emitted depends only on which of its former owner, its new owner and,
   * if it went round by the front of the ring, the first joining node pass the name test.
   */
  lemma HandOffCount(local: string, back: seq<Node>, added: seq<Node>, t: Token)
    requires Joins(back, added) && Sorted(added) && back != []
    ensures InsertAll(back, added) != []
    ensures Cover(Emitted(local, back, added), t)
         == if Detours(back, added, t)
            then Once(local, Owner(back, t), added[0], added)
                 + Once(local, added[0], Owner(InsertAll(back, added), t), added)
            else Once(local, Owner(back, t), Owner(InsertAll(back, added), t), added)
  {
    if added == [] || added[0].token > back[0].token {
      ForwardCount(local, back, added, t);
    } else {
      FrontCount(local, back, added, t);
    }
  }

  /** The name test sends the token on its way to its new owner exactly once, possibly by the first joining node. */
  predicate NamesSend(local: string, back: seq<Node>, added: seq<Node>, t: Token)
    requires back != [] && InsertAll(back, added) != []
  {
    var from, to := Owner(back, t), Owner(InsertAll(back, added), t);
    if Detours(back, added, t) then Yields(local, from, added[0]) || Yields(local, added[0], to)
    else Yields(local, from, to)
  }

  /** Emitting a gained token once if it is owned and never otherwise comes down to the name test. */
  lemma EmitsOwnedIff(local: string, back: seq<Node>, added: seq<Node>, t: Token, owned: bool)
    requires Joins(back, added) && Sorted(added) && back != []
    ensures InsertAll(back, added) != []
    ensures Cover(Emitted(local, back, added), t)
            == (if Owner(InsertAll(back, added), t) in added && owned then 1 else 0)
       <==> (Owner(InsertAll(back, added), t) in added ==> (NamesSend(local, back, added, t) <==> owned))
  {
    HandOffCount(local, back, added, t);
    if Detours(back, added, t) {
      DetourEndsAtJoiner(back, added, t);
    }
  }

  lemma DetourEndsAtJoiner(back: seq<Node>, added: seq<Node>, t: Token)
    requires Joins(back, added) && Sorted(added) && back != [] && Detours(back, added, t)
    ensures Owner(InsertAll(back, added), t) in added && added[0] in added
  {
    FrontOwners(back, added, t);
    assert added == [added[0]] + added[1..];
  }

  lemma FrontCount(local: string, back: seq<Node>, added: seq<Node>, t: Token)
    requires Joins(back, added) && Sorted(added) && back != [] && added != [] && added[0].token <= back[0].token
    ensures InsertAll(back, added) != []
    ensures Cover(Emitted(local, back, added), t)
         == if Detours(back, added, t)
            then Once(local, Owner(back, t), added[0], added)
                 + Once(local, added[0], Owner(InsertAll(back, added), t), added)
            else Once(local, Owner(back, t), Owner(InsertAll(back, added), t), added)
  {
    var n, rest := added[0], added[1..];
    var next := Insert(back, n);
    FrontOwners(back, added, t);
    CoverAppend(StepRanges(local, back, n), Emitted(local, next, rest), t);
    StepCover(local, back, n, t);
    ForwardCount(local, next, rest, t);
    TwoPasses(local, Owner(back, t), Owner(next, t), Owner(InsertAll(back, added), t), added,
              InRange(t, Taken(back, n)));
  }

  lemma StepCover(local: string, back: seq<Node>, n: Node, t: Token)
    requires back != []
    ensures Cover(StepRanges(local, back, n), t)
         == if InRange(t, Taken(back, n)) && Yields(local, Owner(back, n.token), n) then 1 else 0
  {
  }

  lemma TwoPasses(local: string, from: Node, mid: Node, to: Node, added: seq<Node>, taken: bool)
    requires added != [] && from !in added && added[0] !in added[1..]
    requires mid == (if taken then added[0] else from) && (to == mid || to in added[1..])
    ensures (if taken && Yields(local, from, added[0]) then 1 else 0) + Once(local, mid, to, added[1..])
         == if taken && to != added[0] then Once(local, from, added[0], added) + Once(local, added[0], to, added)
            else Once(local, from, to, added)
  {
    assert added == [added[0]] + added[1..];
    assert added[0] in added && (to in added[1..] ==> to in added);
  }

  lemma FrontOwners(back: seq<Node>, added: seq<Node>, t: Token)
    requires Joins(back, added) && Sorted(added) && back != [] && added != [] && added[0].token <= back[0].token
    ensures var n, next, rest := added[0], Insert(back, added[0]), added[1..];
            && Joins(next, rest) && Sorted(rest) && (rest != [] ==> rest[0].token > next[0].token)
            && InsertAll(back, added) != [] && n !in rest && Owner(back, t) !in added
            && (if InRange(t, Taken(back, n)) then Owner(next, t) == n && Owner(back, t) == Owner(back, n.token)
                else Owner(next, t) == Owner(back, t))
            && (Owner(InsertAll(back, added), t) == Owner(next, t) || Owner(InsertAll(back, added), t) in rest)
            && added[0].token < back[0].token
  {
    var n, next, rest := added[0], Insert(back, added[0]), added[1..];
    assert UpperBound(back, n.token) == 0 && next[0] == n;
    JoinStep(back, added);
    InsertSplitsOneArc(back, n, t);
    OwnerKeptOrTaken(next, rest, t);
    OwnerNotAdded(back, added, t);
  }

  /** Ranges that hold every token at most once are pairwise disjoint. */
  lemma {:induction false} CoverAtMostOnceIsDisjoint(ranges: seq<RingRange>, i: nat, j: nat, t: Token)
    requires i < j < |ranges|
    requires Cover(ranges, t) <= 1
    ensures !(InRange(t, ranges[i]) && InRange(t, ranges[j]))
  {
    if i == 0 {
      if InRange(t, ranges[j]) {
        CoverHit(ranges[1..], j - 1, t);
      }
    } else {
      CoverAtMostOnceIsDisjoint(ranges[1..], i - 1, j - 1, t);
    }
  }

  lemma {:induction false} CoverHit(ranges: seq<RingRange>, i: nat, t: Token)
    requires i < |ranges| && InRange(t, ranges[i])
    ensures Cover(ranges, t) >= 1
  {
    if i > 0 {
      CoverHit(ranges[1..], i - 1, t);
    }
  }
}
