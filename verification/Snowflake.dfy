/**
 * Cluster-wide unique ids: 41 bits of milliseconds since the epoch, 10 bits of node number, 12 bits of sequence.
 * `int` is the two's-complement reading of the machine words; `Wrap` cuts results to 64 bits.
 */
module Snowflake {
  import opened Bytes
  import opened Rotation

  // ---- bits ----

  function Pow2(k: nat): (r: nat)
    ensures r > 0
  {
    if k == 0 then 1 else 2 * Pow2(k - 1)
  }

  function Shl(a: int, k: nat): int {
    a * Pow2(k)
  }

  /** Arithmetic shift: rounds down. */
  function Shr(a: int, k: nat): int {
    a / Pow2(k)
  }

  function Or(a: int, b: nat): int
    decreases b
  {
    if b == 0 then a else 2 * Or(a / 2, b / 2) + if a % 2 == 1 || b % 2 == 1 then 1 else 0
  }

  function And(a: int, b: nat): nat
    decreases b
  {
    if b == 0 then 0 else 2 * And(a / 2, b / 2) + if a % 2 == 1 && b % 2 == 1 then 1 else 0
  }

  /** The value of an `int64`. */
  function Wrap(a: int): int {
    (a + 0x8000_0000_0000_0000) % 0x1_0000_0000_0000_0000 - 0x8000_0000_0000_0000
  }

  /** Or of disjoint parts is a sum. */
  lemma {:induction false} OrAdds(hi: int, k: nat, lo: nat)
    requires lo < Pow2(k)
    ensures Or(Shl(hi, k), lo) == Shl(hi, k) + lo
  {
    if lo > 0 {
      var h := hi * Pow2(k - 1);
      assert Shl(hi, k) == 2 * h;
      OrAdds(hi, k - 1, lo / 2);
    }
  }

  /** A mask of low bits is a remainder. */
  lemma {:induction false} AndLow(a: int, k: nat)
    ensures And(a, Pow2(k) - 1) == a % Pow2(k)
    decreases k
  {
    if k > 0 {
      AndLow(a / 2, k - 1);
      HalvesMod(a, Pow2(k - 1));
    }
  }

  lemma HalvesMod(a: int, p: nat)
    requires p > 0
    ensures a % (2 * p) == 2 * (a / 2 % p) + a % 2
  {
    var q, r := (a / 2) / p, (a / 2) % p;
    assert a / 2 == q * p + r;
    assert a == 2 * (q * p) + (2 * r + a % 2);
    assert 2 * (q * p) == q * (2 * p);
    FloorMod(a, 2 * p, q, 2 * r + a % 2);
  }

  /** Quotient and remainder are unique, also for negative numbers. */
  lemma FloorMod(a: int, k: nat, q: int, m: nat)
    requires k > 0 && a == q * k + m && m < k
    ensures a % k == m && a / k == q
  {
    var d := a / k - q;
    assert a == (a / k) * k + a % k;
    assert d * k == m - a % k;
    MulAway(d, k);
  }

  /** A shifted mask selects the bits above the shift. */
  lemma {:induction false} AndShifted(a: int, b: nat, k: nat)
    ensures Shl(b, k) >= 0 && And(a, Shl(b, k)) == And(Shr(a, k), b) * Pow2(k)
    decreases k
  {
    if k == 0 {
      assert Shl(b, 0) == b && Shr(a, 0) == a;
    } else {
      var p, c, x := Pow2(k - 1), Shl(b, k - 1), And(Shr(a, k), b);
      AndShifted(a / 2, b, k - 1);
      assert Shr(a / 2, k - 1) == Shr(a, k) by { DivTwice(a, p); }
      assert Shl(b, k) == 2 * c by { Doubled(b, p); }
      AndEven(a, c);
      Doubled(x, p);
    }
  }

  lemma Doubled(x: int, p: nat)
    ensures x * (2 * p) == 2 * (x * p)
  {
  }

  lemma AndEven(a: int, c: nat)
    ensures And(a, 2 * c) == 2 * And(a / 2, c)
  {
  }

  lemma DivTwice(a: int, p: nat)
    requires p > 0
    ensures a / (2 * p) == a / 2 / p
  {
    var q, r := (a / 2) / p, (a / 2) % p;
    assert a / 2 == q * p + r;
    assert a == q * (2 * p) + (2 * r + a % 2);
    FloorMod(a, 2 * p, q, 2 * r + a % 2);
  }

  /** The low `k` bits. */
  function Low(a: int, k: nat): nat {
    a % Pow2(k)
  }

  /** The `width` bits above the low `k`. */
  function Field(a: int, k: nat, width: nat): nat {
    Low(Shr(a, k), width)
  }

  /** The low bits, by a mask. */
  function MaskLow(a: int, k: nat): (r: nat)
    ensures r == Low(a, k)
  {
    AndLow(a, k);
    And(a, Pow2(k) - 1)
  }

  /** A field, by a shifted mask. */
  function MaskField(a: int, k: nat, width: nat): (r: int)
    ensures r == Field(a, k, width)
  {
    AndShifted(a, Pow2(width) - 1, k);
    AndLow(Shr(a, k), width);
    FloorMod(And(a, Shl(Pow2(width) - 1, k)), Pow2(k), Field(a, k, width), 0);
    Shr(And(a, Shl(Pow2(width) - 1, k)), k)
  }

  lemma Powers()
    ensures Pow2(10) == 1024 && Pow2(12) == 4096 && Pow2(22) == 0x40_0000
  {
    assert Pow2(4) == 16;
    assert Pow2(8) == 256;
    assert Pow2(10) == 1024;
    assert Pow2(12) == 4096;
    assert Pow2(16) == 65536;
    assert Pow2(20) == 0x10_0000;
    assert Pow2(22) == 0x40_0000;
  }

  // ---- ids ----

  const MAX_NODE_ID: nat := 1023
  const MAX_SEQUENCE: nat := 4095

  /** Timestamp, node and sequence packed into one number. */
  function Compose(ts: int, node: nat, sequence: nat): int {
    Wrap(Or(Or(Shl(ts, 22), Shl(node, 12)), sequence))
  }

  /** `Parse`, without adding the epoch back. */
  function Parse(id: int): (int, nat, nat) {
    (Shr(id, 22), Field(id, 12, 10), Low(id, 12))
  }

  /** The bit budget of an id. */
  predicate Fits(ts: int, node: nat, sequence: nat) {
    0 <= ts < 0x200_0000_0000 && node <= MAX_NODE_ID && sequence <= MAX_SEQUENCE
  }

  lemma ComposeIs(ts: int, node: nat, sequence: nat)
    requires Fits(ts, node, sequence)
    ensures Compose(ts, node, sequence) == 0x40_0000 * ts + 4096 * node + sequence
  {
    Powers();
    OrAdds(ts, 22, Shl(node, 12));
    var high := 1024 * ts + node;
    assert Or(Shl(ts, 22), Shl(node, 12)) == Shl(high, 12);
    OrAdds(high, 12, sequence);
    WrapFits(0x40_0000 * ts + 4096 * node + sequence);
  }

  lemma WrapFits(a: int)
    requires -0x8000_0000_0000_0000 <= a < 0x8000_0000_0000_0000
    ensures Wrap(a) == a
  {
  }

  /** Parsing recovers what was packed. */
  lemma ParseUndoesCompose(ts: int, node: nat, sequence: nat)
    requires Fits(ts, node, sequence)
    ensures Parse(Compose(ts, node, sequence)) == (ts, node, sequence)
  {
    ComposeIs(ts, node, sequence);
    Powers();
    var id := Compose(ts, node, sequence);
    FloorMod(id, 0x40_0000, ts, 4096 * node + sequence);
    FloorMod(id, 4096, 1024 * ts + node, sequence);
    FloorMod(1024 * ts + node, 1024, ts, node);
  }

  /** Ids of different nodes never collide. */
  lemma NodesNeverCollide(ts: int, node: nat, sequence: nat, ts': int, node': nat, sequence': nat)
    requires Fits(ts, node, sequence) && Fits(ts', node', sequence') && node != node'
    ensures Compose(ts, node, sequence) != Compose(ts', node', sequence')
  {
    ParseUndoesCompose(ts, node, sequence);
    ParseUndoesCompose(ts', node', sequence');
  }

  /** Or with a shifted number touches only the bits above the shift. */
  lemma {:induction false} OrShifts(a: int, b: nat, k: nat, q: nat, r: nat)
    requires r < Pow2(k) && b == q * Pow2(k) + r
    ensures Or(Shl(a, k), b) == Shl(Or(a, q), k) + r
    decreases k
  {
    if k == 0 {
      assert Shl(a, 0) == a && Shl(Or(a, q), 0) == Or(a, q);
    } else {
      var p, c, o := Pow2(k - 1), Shl(a, k - 1), Or(a, q);
      Doubled(a, p);
      Doubled(q, p);
      Doubled(o, p);
      OrShifts(a, b / 2, k - 1, q, r / 2);
      OrEven(c, b);
    }
  }

  lemma OrEven(c: int, b: nat)
    ensures Or(2 * c, b) == 2 * Or(c, b / 2) + b % 2
  {
  }

  /**
   * At every timestamp, a node number above 1023 runs into the timestamp: its ids are those of another node at the same
   * or another time.  Together with `NodesNeverCollide`, 1023 is the exact limit.
   */
  lemma BigNodeCollides(ts: int, node: nat, sequence: nat)
    requires node > MAX_NODE_ID && sequence <= MAX_SEQUENCE
    ensures node % 1024 <= MAX_NODE_ID < node
    ensures Compose(ts, node, sequence) == Compose(Or(ts, node / 1024), node % 1024, sequence)
  {
    Powers();
    var high, low := Or(ts, node / 1024), node % 1024;
    OrShifts(ts, Shl(node, 12), 22, node / 1024, 4096 * low);
    OrAdds(high, 22, Shl(low, 12));
  }

  // ---- one generator ----

  /** `lastTimestamp` and `sequence`. */
  datatype Gen = Gen(last: int, sequence: nat)

  /** The clock readings of one call: the first, and the one on which the wait for the next millisecond ends. */
  datatype Call = Call(now: int, later: int)

  /** The sequence of this millisecond is used up. */
  predicate Spins(g: Gen, c: Call) {
    c.now == g.last && Low(g.sequence + 1, 12) == 0
  }

  /** `Id`: fails, and changes nothing, when the clock is behind the last id. */
  function Next(g: Gen, c: Call): Result<Gen> {
    if c.now < g.last then Err
    else if c.now == g.last then
      Ok(Gen(if Spins(g, c) then c.later else c.now, Low(g.sequence + 1, 12)))
    else Ok(Gen(c.now, 0))
  }

  lemma NextSequence(sequence: nat)
    requires sequence <= MAX_SEQUENCE
    ensures Low(sequence + 1, 12) == if sequence == MAX_SEQUENCE then 0 else sequence + 1
  {
    var p, low := Pow2(12), Low(sequence + 1, 12);
    Powers();
    NextBelow(sequence, p, low);
  }

  lemma NextBelow(sequence: nat, p: nat, low: nat)
    requires sequence < p && low == (sequence + 1) % p
    ensures low == if sequence == p - 1 then 0 else sequence + 1
  {
    if sequence < p - 1 {
      ModUnique(sequence + 1, p, 0, sequence + 1);
    } else {
      ModUnique(sequence + 1, p, 1, 0);
    }
  }

  function IdOf(g: Gen, node: nat): int {
    Compose(g.last, node, g.sequence)
  }

  /** Ids follow the order of timestamp and sequence. */
  lemma IdsFollowTime(g: Gen, h: Gen, node: nat)
    requires Fits(g.last, node, g.sequence) && Fits(h.last, node, h.sequence)
    ensures IdOf(g, node) < IdOf(h, node) <==> g.last < h.last || (g.last == h.last && g.sequence < h.sequence)
  {
    ComposeIs(g.last, node, g.sequence);
    ComposeIs(h.last, node, h.sequence);
  }

  lemma NextIs(g: Gen, c: Call)
    requires c.now >= g.last && g.sequence <= MAX_SEQUENCE
    ensures Spins(g, c) <==> c.now == g.last && g.sequence == MAX_SEQUENCE
    ensures Next(g, c) == Ok(if c.now > g.last then Gen(c.now, 0)
                             else if g.sequence == MAX_SEQUENCE then Gen(c.later, 0)
                             else Gen(c.now, g.sequence + 1))
  {
    NextSequence(g.sequence);
  }

  /** A new id is larger than the last one exactly unless the clock stepped back while waiting. */
  lemma NextIdIsLargerIff(g: Gen, c: Call, node: nat)
    requires Next(g, c).Ok? && (Spins(g, c) ==> c.later != g.last)
    requires Fits(g.last, node, g.sequence) && Fits(Next(g, c).value.last, node, 0)
    ensures Fits(Next(g, c).value.last, node, Next(g, c).value.sequence)
    ensures IdOf(g, node) < IdOf(Next(g, c).value, node) <==> (Spins(g, c) ==> c.later > g.last)
  {
    NextIs(g, c);
    IdsFollowTime(g, Next(g, c).value, node);
  }

  // ---- runs ----

  const FRESH: Gen := Gen(-1, 0)

  function RunGen(g: Gen, calls: seq<Call>): Gen {
    if calls == [] then g
    else
      var h := RunGen(g, calls[..|calls| - 1]);
      var r := Next(h, calls[|calls| - 1]);
      if r.Ok? then r.value else h
  }

  /** The ids issued, in order. */
  function Issued(g: Gen, node: nat, calls: seq<Call>): seq<int> {
    if calls == [] then []
    else
      var before, h := Issued(g, node, calls[..|calls| - 1]), RunGen(g, calls[..|calls| - 1]);
      var r := Next(h, calls[|calls| - 1]);
      if r.Ok? then before + [IdOf(r.value, node)] else before
  }

  /** Readings are within the budget, and no wait ends before the millisecond it waits to pass. */
  predicate Steady(g: Gen, calls: seq<Call>) {
    calls == [] ||
    var init, c := calls[..|calls| - 1], calls[|calls| - 1];
    && Steady(g, init)
    && 0 <= c.now < 0x200_0000_0000 && 0 <= c.later < 0x200_0000_0000
    && (Spins(RunGen(g, init), c) ==> c.later > RunGen(g, init).last)
  }

  ghost predicate Increasing(ids: seq<int>) {
    forall i, j :: 0 <= i < j < |ids| ==> ids[i] < ids[j]
  }

  /** Over every run whose clock does not step back during a wait, the ids strictly increase. */
  lemma {:induction false} IdsIncrease(node: nat, calls: seq<Call>)
    requires node <= MAX_NODE_ID && Steady(FRESH, calls)
    ensures Increasing(Issued(FRESH, node, calls))
    ensures var g, ids := RunGen(FRESH, calls), Issued(FRESH, node, calls);
            if ids == [] then g == FRESH
            else Fits(g.last, node, g.sequence) && ids[|ids| - 1] == IdOf(g, node)
  {
    if calls != [] {
      var init, c := calls[..|calls| - 1], calls[|calls| - 1];
      IdsIncrease(node, init);
      var g := RunGen(FRESH, init);
      if Next(g, c).Ok? && Issued(FRESH, node, init) != [] {
        NextIdIsLargerIff(g, c, node);
      }
    }
  }

  /** Every id issued by such a run carries the node of its generator. */
  lemma {:induction false} IssuedFit(node: nat, calls: seq<Call>, i: nat) returns (g: Gen)
    requires node <= MAX_NODE_ID && Steady(FRESH, calls) && i < |Issued(FRESH, node, calls)|
    ensures Fits(g.last, node, g.sequence) && Issued(FRESH, node, calls)[i] == IdOf(g, node)
  {
    var init := calls[..|calls| - 1];
    if i < |Issued(FRESH, node, init)| {
      g := IssuedFit(node, init, i);
    } else {
      IdsIncrease(node, calls);
      g := RunGen(FRESH, calls);
    }
  }

  /** Two generators with different node numbers never issue the same id. */
  lemma GeneratorsNeverCollide(node: nat, calls: seq<Call>, i: nat, node': nat, calls': seq<Call>, i': nat)
    requires node <= MAX_NODE_ID && Steady(FRESH, calls) && i < |Issued(FRESH, node, calls)|
    requires node' <= MAX_NODE_ID && Steady(FRESH, calls') && i' < |Issued(FRESH, node', calls')|
    requires node != node'
    ensures Issued(FRESH, node, calls)[i] != Issued(FRESH, node', calls')[i']
  {
    var g := IssuedFit(node, calls, i);
    var g' := IssuedFit(node', calls', i');
    NodesNeverCollide(g.last, node, g.sequence, g'.last, node', g'.sequence);
  }

  /** One call in millisecond `t`, then `n` in the next. */
  function Busy(t: nat, n: nat): seq<Call> {
    if n == 0 then [Call(t, t)] else Busy(t, n - 1) + [Call(t + 1, t + 1)]
  }

  lemma {:induction false} BusyRun(t: nat, n: nat, node: nat)
    requires n <= 4096
    ensures RunGen(FRESH, Busy(t, n)) == if n == 0 then Gen(t, 0) else Gen(t + 1, n - 1)
    ensures |Issued(FRESH, node, Busy(t, n))| == n + 1 && Issued(FRESH, node, Busy(t, n))[0] == Compose(t, node, 0)
  {
    var calls := Busy(t, n);
    if n == 0 {
      assert calls[..0] == [];
    } else {
      assert calls[..|calls| - 1] == Busy(t, n - 1);
      BusyRun(t, n - 1, node);
      NextIs(RunGen(FRESH, Busy(t, n - 1)), Call(t + 1, t + 1));
    }
  }

  /** A clock that steps back during a wait makes the generator repeat an id: a run that does so, for every node. */
  lemma SteppingBackRepeats(t: nat, node: nat)
    ensures var ids := Issued(FRESH, node, Busy(t, 4096) + [Call(t + 1, t)]);
            |ids| == 4098 && ids[0] == ids[4097]
  {
    BusyRun(t, 4096, node);
    var calls := Busy(t, 4096) + [Call(t + 1, t)];
    assert calls[..|calls| - 1] == Busy(t, 4096);
    NextIs(Gen(t + 1, MAX_SEQUENCE), Call(t + 1, t));
  }

  // ---- the generator object ----

  class Snowflake {
    const nodeId: nat
    const epochStart: int
    var lastTimestamp: int
    var sequence: nat

    ghost function State(): Gen
      reads this
    {
      Gen(lastTimestamp, sequence)
    }

    constructor (nodeId: nat, epochStart: int)
      ensures this.nodeId == nodeId && this.epochStart == epochStart && State() == FRESH
    {
      this.nodeId, this.epochStart := nodeId, epochStart;
      lastTimestamp, sequence := -1, 0;
    }

    method Bump()
      modifies `sequence
      ensures sequence == Low(old(sequence) + 1, 12)
    {
      sequence := MaskLow(sequence + 1, 12);
    }

    /**
     * `clock(i)` is the clock's `i`-th reading during the call; by reading `n` it has left the current millisecond.
     * The wait ends on reading `k`, the first that differs.
     */
    method Id(clock: nat -> int, ghost n: nat) returns (id: Result<int>, ghost k: nat)
      requires clock(n) - epochStart != lastTimestamp
      modifies this
      ensures var r := Next(old(State()), Call(clock(0) - epochStart, clock(k) - epochStart));
              if r.Ok? then State() == r.value && id == Ok(IdOf(r.value, nodeId))
              else State() == old(State()) && id == Err
      ensures k <= n && forall i :: 0 < i < k ==> clock(i) - epochStart == old(lastTimestamp)
      ensures k > 0 ==> clock(k) - epochStart != old(lastTimestamp)
    {
      var current, i := clock(0) - epochStart, 0;
      k := 0;
      if current < lastTimestamp {
        return Err, 0;
      }
      if current == lastTimestamp {
        Bump();
        if sequence == 0 {
          while current == lastTimestamp
            invariant 0 <= i <= n && current == clock(i) - epochStart && lastTimestamp == old(lastTimestamp)
            invariant forall j :: 0 <= j < i ==> clock(j) - epochStart == lastTimestamp
            decreases n - i
          {
            i := i + 1;
            current := clock(i) - epochStart;
          }
          k := i;
        }
      } else {
        sequence := 0;
      }
      lastTimestamp := current;
      id := Ok(Compose(current, nodeId, sequence));
    }

    method ParseId(id: int) returns (timestamp: int, node: int, number: int)
      ensures (timestamp - epochStart, node, number) == Parse(id)
    {
      timestamp := Shr(id, 22) + epochStart;
      node := MaskField(id, 12, 10);
      number := MaskLow(id, 12);
    }
  }
}
