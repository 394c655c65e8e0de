/** What the per-transaction loops of the coordinator compute. */
module TccFacts {
  import opened Tcc

  /** The ids of the first `k` transactions. */
  function Ids(txns: seq<Txn>, k: nat): set<Id>
    requires k <= |txns|
  {
    if k == 0 then {} else Ids(txns, k - 1) + {txns[k - 1].id}
  }

  function TxnIds(job: Job): set<Id> {
    Ids(job.txns, |job.txns|)
  }

  ghost predicate DistinctTxns(txns: seq<Txn>) {
    forall i, j :: 0 <= i < j < |txns| ==> txns[i].id != txns[j].id
  }

  lemma {:induction false} InIds(txns: seq<Txn>, k: nat, x: Id)
    requires k <= |txns|
    ensures x in Ids(txns, k) <==> exists i :: 0 <= i < k && txns[i].id == x
  {
    if k > 0 {
      InIds(txns, k - 1, x);
      assert txns[k - 1].id in Ids(txns, k);
    }
  }

  lemma {:induction false} IdsCount(txns: seq<Txn>, k: nat)
    requires k <= |txns| && DistinctTxns(txns)
    ensures |Ids(txns, k)| == k
  {
    if k > 0 {
      IdsCount(txns, k - 1);
      InIds(txns, k - 1, txns[k - 1].id);
    }
  }

  lemma {:induction false} EnlistSpec(txns: seq<Txn>, k: nat)
    requires k <= |txns|
    ensures Enlist(txns, k).Keys == Ids(txns, k)
    ensures forall x :: x in Enlist(txns, k) ==> Enlist(txns, k)[x] == TxnRes(0, 0, false, 0, Reserving)
  {
    if k > 0 {
      EnlistSpec(txns, k - 1);
    }
  }

  lemma {:induction false} MarkSpec(joining: map<Id, TxnRes>, txns: seq<Txn>, state: State, k: nat)
    requires k <= |txns|
    ensures var m := Mark(joining, txns, state, k);
            && m.Keys == joining.Keys
            && (forall x :: x in joining ==>
                  m[x] == if x in Ids(txns, k) then joining[x].(state := state) else joining[x])
  {
    if k > 0 {
      MarkSpec(joining, txns, state, k - 1);
    }
  }

  lemma {:induction false} ArmKeys(timers: map<Id, Timer>, txns: seq<Txn>, retry: Retry, k: nat)
    requires k <= |txns|
    ensures Arm(timers, txns, retry, k).Keys == timers.Keys + Ids(txns, k)
    ensures forall x :: x in timers && x !in Ids(txns, k) ==> Arm(timers, txns, retry, k)[x] == timers[x]
  {
    if k > 0 {
      ArmKeys(timers, txns, retry, k - 1);
    }
  }

  lemma {:induction false} ArmAt(timers: map<Id, Timer>, txns: seq<Txn>, retry: Retry, k: nat, i: nat)
    requires i < k <= |txns| && DistinctTxns(txns)
    ensures txns[i].id in Arm(timers, txns, retry, k)
    ensures Arm(timers, txns, retry, k)[txns[i].id] == Timer(retry, txns[i].timeout, txns[i].retries)
  {
    if i < k - 1 {
      ArmAt(timers, txns, retry, k - 1, i);
    }
  }

  lemma {:induction false} CloseSpec(timers: map<Id, Timer>, txns: seq<Txn>, k: nat)
    requires k <= |txns|
    ensures Close(timers, txns, k) == timers - Ids(txns, k)
  {
    if k > 0 {
      CloseSpec(timers, txns, k - 1);
    }
  }

  lemma {:induction false} ReserveAsksAre(job: Id, txns: seq<Txn>, k: nat, o: Out)
    requires k <= |txns|
    ensures o in ReserveAsks(job, txns, k) <==> o.AskedReserve? && o.job == job && o.txn in Ids(txns, k)
  {
    if k > 0 {
      ReserveAsksAre(job, txns, k - 1, o);
    }
  }

  lemma {:induction false} FinishAsksAre(job: Id, txns: seq<Txn>, state: State, k: nat, o: Out)
    requires k <= |txns|
    ensures o in FinishAsks(job, txns, state, k)
       <==> o.AskedFinish? && o.job == job && o.state == state && o.txn in Ids(txns, k)
  {
    if k > 0 {
      FinishAsksAre(job, txns, state, k - 1, o);
    }
  }

  lemma {:induction false} ReserveAsksOnce(job: Id, txns: seq<Txn>, k: nat, o: Out)
    requires k <= |txns| && DistinctTxns(txns)
    ensures multiset(ReserveAsks(job, txns, k))[o]
         == if o.AskedReserve? && o.job == job && o.txn in Ids(txns, k) then 1 else 0
  {
    if k > 0 {
      ReserveAsksOnce(job, txns, k - 1, o);
      InIds(txns, k - 1, txns[k - 1].id);
    }
  }

  lemma {:induction false} FinishAsksOnce(job: Id, txns: seq<Txn>, state: State, k: nat, o: Out)
    requires k <= |txns| && DistinctTxns(txns)
    ensures multiset(FinishAsks(job, txns, state, k))[o]
         == if o.AskedFinish? && o.job == job && o.state == state && o.txn in Ids(txns, k) then 1 else 0
  {
    if k > 0 {
      FinishAsksOnce(job, txns, state, k - 1, o);
      InIds(txns, k - 1, txns[k - 1].id);
    }
  }

  lemma SubsetFull<T>(a: set<T>, b: set<T>)
    requires a <= b && |a| == |b|
    ensures a == b
  {
    assert b == a + (b - a);
    assert |b| == |a| + |b - a|;
  }
}
