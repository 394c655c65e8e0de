/** Badger's ordered prefix scan: the keys that start with a prefix, in ascending byte order. */
module Scan {
  import opened Bytes

  /** Lexicographic order. */
  predicate Less(a: bytes, b: bytes) {
    b != [] && (a == [] || a[0] < b[0] || (a[0] == b[0] && Less(a[1..], b[1..])))
  }

  predicate Ascending(ks: seq<bytes>) {
    forall i, j :: 0 <= i < j < |ks| ==> Less(ks[i], ks[j])
  }

  lemma {:induction false} LessIrreflexive(a: bytes)
    ensures !Less(a, a)
  {
    if a != [] {
      LessIrreflexive(a[1..]);
    }
  }

  lemma {:induction false} LessTransitive(a: bytes, b: bytes, c: bytes)
    requires Less(a, b) && Less(b, c)
    ensures Less(a, c)
  {
    if a != [] && a[0] == b[0] && b[0] == c[0] {
      LessTransitive(a[1..], b[1..], c[1..]);
    }
  }

  lemma {:induction false} LessTotal(a: bytes, b: bytes)
    ensures a == b || Less(a, b) || Less(b, a)
  {
    if a != [] && b != [] && a[0] == b[0] {
      LessTotal(a[1..], b[1..]);
      assert a == [a[0]] + a[1..] && b == [b[0]] + b[1..];
    }
  }

  /** `ks` lists exactly the keys of `db` that start with `p`, in byte order. */
  ghost predicate IsScan(ks: seq<bytes>, keys: set<bytes>, p: bytes) {
    Ascending(ks) && forall k :: k in ks <==> k in keys && p <= k
  }

  /** There is only one such list. */
  lemma {:induction false} ScanUnique(a: seq<bytes>, b: seq<bytes>)
    requires Ascending(a) && Ascending(b) && forall k :: k in a <==> k in b
    ensures a == b
  {
    BothEmpty(a, b);
    if a != [] {
      FirstsAgree(a, b);
      DropFirst(a, b);
      ScanUnique(a[1..], b[1..]);
      assert a == [a[0]] + a[1..] && b == [b[0]] + b[1..];
    }
  }

  lemma BothEmpty(a: seq<bytes>, b: seq<bytes>)
    requires forall k :: k in a <==> k in b
    ensures a == [] <==> b == []
  {
    if a != [] {
      assert a[0] in b;
    }
    if b != [] {
      assert b[0] in a;
    }
  }

  lemma FirstsAgree(a: seq<bytes>, b: seq<bytes>)
    requires Ascending(a) && Ascending(b) && a != [] && b != [] && forall k :: k in a <==> k in b
    ensures a[0] == b[0]
  {
    assert a[0] in b && b[0] in a;
    var i :| 0 <= i < |b| && b[i] == a[0];
    var j :| 0 <= j < |a| && a[j] == b[0];
    if i > 0 && j > 0 {
      LessTransitive(a[0], b[0], a[0]);
      LessIrreflexive(a[0]);
      assert false;
    }
  }

  lemma DropFirst(a: seq<bytes>, b: seq<bytes>)
    requires Ascending(a) && Ascending(b) && a != [] && b != [] && a[0] == b[0]
    requires forall k :: k in a <==> k in b
    ensures forall k :: k in a[1..] <==> k in b[1..]
  {
    LessIrreflexive(a[0]);
    assert a[0] !in a[1..] && b[0] !in b[1..];
    forall k ensures k in a[1..] <==> k in b[1..] {
      assert k in a <==> k == a[0] || k in a[1..];
      assert k in b <==> k == b[0] || k in b[1..];
    }
  }

  /** `ks` with `k` in its place. */
  function Place(ks: seq<bytes>, k: bytes): seq<bytes> {
    if ks == [] || Less(k, ks[0]) then [k] + ks else [ks[0]] + Place(ks[1..], k)
  }

  lemma {:induction false} PlaceKeepsOrder(ks: seq<bytes>, k: bytes)
    requires Ascending(ks) && k !in ks
    ensures Ascending(Place(ks, k))
    ensures forall x :: x in Place(ks, k) <==> x in ks || x == k
  {
    if ks == [] {
    } else if Less(k, ks[0]) {
      forall j | 0 <= j < |ks| ensures Less(k, ks[j]) {
        if j > 0 {
          LessTransitive(k, ks[0], ks[j]);
        }
      }
    } else {
      PlaceKeepsOrder(ks[1..], k);
      LessTotal(ks[0], k);
      assert ks == [ks[0]] + ks[1..];
      var rest := Place(ks[1..], k);
      forall j | 0 <= j < |rest| ensures Less(ks[0], rest[j]) {
        assert rest[j] in ks[1..] || rest[j] == k;
      }
    }
  }

  /** Runs the scan. */
  method Seek(keys: set<bytes>, p: bytes) returns (ks: seq<bytes>)
    ensures IsScan(ks, keys, p)
  {
    ks := [];
    var rest := keys;
    while rest != {}
      invariant rest <= keys
      invariant IsScan(ks, keys - rest, p)
      decreases rest
    {
      var k :| k in rest;
      if p <= k {
        PlaceKeepsOrder(ks, k);
        ks := Place(ks, k);
      }
      rest := rest - {k};
    }
    assert keys - rest == keys;
  }

  // ---- numbers in byte order ----

  /** A common front does not matter. */
  lemma {:induction false} LessAfter(p: bytes, a: bytes, b: bytes)
    ensures Less(p + a, p + b) <==> Less(a, b)
  {
    if p == [] {
      assert p + a == a && p + b == b;
    } else {
      assert (p + a)[1..] == p[1..] + a && (p + b)[1..] == p[1..] + b;
      LessAfter(p[1..], a, b);
    }
  }

  lemma {:induction false} LessSnoc(x: bytes, c: byte, y: bytes, d: byte)
    requires |x| == |y|
    ensures Less(x + [c], y + [d]) <==> Less(x, y) || (x == y && c < d)
  {
    if x == [] {
      assert (x + [c])[1..] == [] && (y + [d])[1..] == [];
    } else {
      assert (x + [c])[1..] == x[1..] + [c] && (y + [d])[1..] == y[1..] + [d];
      LessSnoc(x[1..], c, y[1..], d);
      assert x == [x[0]] + x[1..] && y == [y[0]] + y[1..];
    }
  }

  /** Numbers of one width are scanned in their own order. */
  lemma {:induction false} NumbersInOrder(a: nat, b: nat, n: nat)
    requires a < Span(n) && b < Span(n)
    ensures Less(BigEndian(a, n), BigEndian(b, n)) <==> a < b
  {
    if n > 0 {
      NumbersInOrder(a / 256, b / 256, n - 1);
      UnsignedBigEndian(a / 256, n - 1);
      UnsignedBigEndian(b / 256, n - 1);
      LessSnoc(BigEndian(a / 256, n - 1), a % 256, BigEndian(b / 256, n - 1), b % 256);
    }
  }
}
