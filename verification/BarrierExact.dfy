/** Exactly when the two-phase barrier survives cancels. */
module BarrierExact {
  import opened Tcc
  import opened TccFacts
  import opened Coordination
  import opened Barrier
  import opened Drive
  import opened Lone

  /** Nobody has been counted yet. */
  ghost predicate Uncounted(s: Sys, job: Job) {
    && job.id in s.v.jobs && s.v.jobs[job.id].confirmed == 0
    && Unconfirmed(s.v.jobs[job.id], job, 0) && Unfinished(s.v.jobs[job.id], job, 0)
  }

  /** The first transaction fails to reserve; the reservations of the others are on their way. */
  lemma FirstFails(pending: seq<Job>, s: Sys, p: nat) returns (s': Sys)
    requires WellPlanned(pending) && Ready(pending, s, p) && pending[p].txns != []
    ensures var job := pending[p];
            && Loaded(pending, s', job) && Uncounted(s', job)
            && Ack(job.id, job.txns[0].id, Canceled) in s'.acks && AckedFrom(s', job, 1, Confirmed)
            && Party(job.id, job.txns[0].id) !in s'.reserved
  {
    var job := pending[p];
    var x := job.txns[0].id;
    assert Untried(s, job);
    var s1 := LoadJob(pending, s, p);
    ReachedStep(pending, s1, HandleAsk(AskedReserve(job.id, x), false));
    var s2 := React(s1, AskedReserve(job.id, x), false);
    s' := ReserveRest(pending, s2, job, 1);
  }

  /** The cancel is handled: the counter is reset and the first transaction is asked to cancel. */
  lemma CancelResets(v: View, job: Job)
    requires Planned(v, job) && job.txns != []
    requires Unconfirmed(v.jobs[job.id], job, 0) && Unfinished(v.jobs[job.id], job, 0)
    ensures var v' := OnCanceled(v, job.id, job.txns[0].id);
            && v'.task.ended == v.task.ended
            && job.id in v'.jobs && v'.jobs[job.id].job == job && v'.jobs[job.id].confirmed == 0
            && Unconfirmed(v'.jobs[job.id], job, 0) && Unfinished(v'.jobs[job.id], job, 0)
            && AskedFinish(job.id, job.txns[0].id, Canceled) in v'.log
  {
    var r, x := v.jobs[job.id], job.txns[0].id;
    var r' := r.(canceled := true, joining := r.joining[x := r.joining[x].(canceled := true)]);
    MarkSpec(r'.joining, job.txns, Canceled, |job.txns|);
    InIds(job.txns, |job.txns|, x);
    FinishAsksAre(job.id, job.txns, Canceled, |job.txns|, AskedFinish(job.id, x, Canceled));
  }

  lemma CancelHandled(pending: seq<Job>, s: Sys, job: Job) returns (s': Sys)
    requires WellPlanned(pending) && Loaded(pending, s, job) && Uncounted(s, job) && job.txns != []
    requires Ack(job.id, job.txns[0].id, Canceled) in s.acks && AckedFrom(s, job, 1, Confirmed)
    ensures Loaded(pending, s', job) && Uncounted(s', job) && s'.reserved == s.reserved
    ensures Ack(job.id, job.txns[0].id, Finished) in s'.acks && AckedFrom(s', job, 1, Confirmed)
  {
    var s1 := DeliverAck(pending, s, job, 0, Canceled);
    CancelResets(s.v, job);
    var ask := AskedFinish(job.id, job.txns[0].id, Canceled);
    ReachedStep(pending, s1, HandleAsk(ask, true));
    s' := React(s1, ask, true);
  }

  /** The late reservations complete the count, and the transaction that never reserved confirms. */
  lemma LateReservations(pending: seq<Job>, s: Sys, job: Job) returns (s': Sys)
    requires WellPlanned(pending) && Loaded(pending, s, job) && Uncounted(s, job) && |job.txns| >= 2
    requires Ack(job.id, job.txns[0].id, Finished) in s.acks && AckedFrom(s, job, 1, Confirmed)
    ensures Reached(pending, s') && s'.reserved == s.reserved && Party(job.id, job.txns[0].id) in s'.confirmed
  {
    var s1 := DeliverAck(pending, s, job, 0, Finished);
    FinishCounts(s.v, job, 0);
    var s2 := ConfirmRest(pending, s1, job, 1);
    var ask := AskedFinish(job.id, job.txns[0].id, Confirmed);
    ReachedStep(pending, s2, HandleAsk(ask, true));
    s' := React(s2, ask, true);
  }

  /**
   * Every job with two or more transactions that can be reached has a run that breaks the barrier: the first
   * transaction cancels and finishes, which counts one, and the late reservations of the others bring the shared
   * counter to the number of parties, so the transaction that never reserved is confirmed.
   */
  lemma CancelBreaksTheBarrier(pending: seq<Job>, p: nat) returns (steps: seq<Step>)
    requires WellPlanned(pending) && p < |pending| && |pending[p].txns| >= 2
    requires forall q :: 0 <= q < p ==> pending[q].txns != []
    ensures var s, first := Run(Initial(pending), steps), Party(pending[p].id, pending[p].txns[0].id);
            first in s.confirmed && first !in s.reserved && !BarrierKept(s, pending[p])
  {
    var job := pending[p];
    var s := ReachJob(pending, p);
    s := FirstFails(pending, s, p);
    s := CancelHandled(pending, s, job);
    s := LateReservations(pending, s, job);
    steps :| Run(Initial(pending), steps) == s;
    InIds(job.txns, |job.txns|, job.txns[0].id);
  }

  /** What a submitter can check: at most one transaction, or a job without transactions in front. */
  predicate CancelProof(pending: seq<Job>, p: nat)
    requires p < |pending|
  {
    |pending[p].txns| <= 1 || exists q :: 0 <= q < p && pending[q].txns == []
  }

  /**
   * The exact condition: the barrier of job `p` holds in all runs, with any errors and cancels, if and only if the job
   * has at most one transaction or an earlier job has none, so that job `p` is never reached.
   */
  lemma BarrierHoldsIff(pending: seq<Job>, p: nat)
    requires WellPlanned(pending) && p < |pending|
    ensures (forall steps :: BarrierKept(Run(Initial(pending), steps), pending[p])) <==> CancelProof(pending, p)
  {
    if CancelProof(pending, p) {
      forall steps ensures BarrierKept(Run(Initial(pending), steps), pending[p]) {
        if |pending[p].txns| <= 1 {
          LoneJobKeepsBarrier(pending, steps, p);
        } else {
          var q :| 0 <= q < p && pending[q].txns == [];
          UnreachedJobKeepsBarrier(pending, steps, p, q);
        }
      }
    } else {
      var steps := CancelBreaksTheBarrier(pending, p);
    }
  }
}
