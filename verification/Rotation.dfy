/** Rotations of a sequence and the remainders that index them. */
module Rotation {

  lemma MulAway(d: int, k: nat)
    requires k > 0
    ensures d >= 1 ==> d * k >= k
    ensures d <= -1 ==> d * k <= 0 - k
  {
  }

  lemma ModUnique(n: nat, k: nat, q: nat, m: nat)
    requires k > 0 && n == q * k + m && m < k
    ensures n % k == m && n / k == q
  {
    var d := n / k - q;
    assert n == (n / k) * k + n % k;
    assert d * k == m - n % k;
    MulAway(d, k);
  }

  lemma ModSucc(n: nat, k: nat)
    requires k > 0
    ensures (n + 1) % k == if n % k + 1 < k then n % k + 1 else 0
  {
    var q, m := n / k, n % k;
    assert n + 1 == q * k + (m + 1);
    if m + 1 < k {
      ModUnique(n + 1, k, q, m + 1);
    } else {
      assert n + 1 == (q + 1) * k + 0;
      ModUnique(n + 1, k, q + 1, 0);
    }
  }

  /** `w` turned left by `m`. */
  function Turned<T>(w: seq<T>, m: nat): (r: seq<T>)
    requires m <= |w|
    ensures |r| == |w| && (m < |w| ==> r[0] == w[m])
  {
    w[m..] + w[..m]
  }

  /** Moving the head to the tail turns by one more. */
  lemma TurnOnce<T>(w: seq<T>, n: nat)
    requires w != []
    ensures var r := Turned(w, n % |w|); r[1..] + [r[0]] == Turned(w, (n + 1) % |w|)
  {
    var m := n % |w|;
    var r := Turned(w, m);
    ModSucc(n, |w|);
    if m + 1 < |w| {
      assert r[1..] + [r[0]] == w[m + 1..] + w[..m + 1];
    } else {
      assert r[1..] + [r[0]] == w;
    }
  }

  /** Any `k` successive numbers hit every remainder once. */
  lemma OneInEachRound(n: nat, k: nat, m: nat) returns (j: nat)
    requires m < k
    ensures n <= j < n + k && j % k == m
    ensures forall i :: n <= i < n + k && i % k == m ==> i == j
  {
    var q, r := n / k, n % k;
    if r <= m {
      j := n + (m - r);
      assert j == q * k + m;
      ModUnique(j, k, q, m);
    } else {
      j := n + (k + m - r);
      assert j == (q + 1) * k + m;
      ModUnique(j, k, q + 1, m);
    }
    forall i | n <= i < n + k && i % k == m ensures i == j {
      SameRemainder(i, j, k);
    }
  }

  lemma SameRemainder(i: nat, j: nat, k: nat)
    requires k > 0 && i % k == j % k && i < j + k && j < i + k
    ensures i == j
  {
    var d := i / k - j / k;
    assert i - j == d * k by {
      assert i == (i / k) * k + i % k;
      assert j == (j / k) * k + j % k;
    }
    MulAway(d, k);
  }
}
