/** After a cancel the coordinator asks without limit. */
module Cancellation {
  import opened Tcc
  import opened TccFacts
  import opened Coordination
  import opened Retries
  import opened Drive
  import opened BarrierExact

  /** A cancel of the job is in flight, and the task can still handle it. */
  ghost predicate Cancelable(pending: seq<Job>, s: Sys, job: Job) {
    Loaded(pending, s, job) && job.txns != [] && Ack(job.id, job.txns[0].id, Canceled) in s.acks
  }

  function Cancels(s: Sys, job: Job): nat
    requires job.txns != []
  {
    Count(s.v.log, AskedFinish(job.id, job.txns[0].id, Canceled))
  }

  lemma CancelCounts(v: View, job: Job)
    requires Planned(v, job) && job.txns != []
    ensures var v' := OnCanceled(v, job.id, job.txns[0].id);
            && Count(v'.log, AskedFinish(job.id, job.txns[0].id, Canceled))
               == Count(v.log, AskedFinish(job.id, job.txns[0].id, Canceled)) + 1
            && v'.task.ended == v.task.ended && job.id in v'.jobs && v'.jobs[job.id].job == job
  {
    FinishAsksOnce(job.id, job.txns, Canceled, |job.txns|, AskedFinish(job.id, job.txns[0].id, Canceled));
  }

  /** Delivering the cancel again asks again. */
  lemma {:induction false} CancelAgain(pending: seq<Job>, s: Sys, job: Job, n: nat) returns (s': Sys)
    requires WellPlanned(pending) && Cancelable(pending, s, job)
    ensures Cancelable(pending, s', job) && Cancels(s', job) == Cancels(s, job) + n
  {
    s' := s;
    if n > 0 {
      var w := CancelAgain(pending, s, job, n - 1);
      s' := DeliverAck(pending, w, job, 0, Canceled);
      CancelCounts(w.v, job);
    }
  }

  /**
   * Once a cancel of its job has been handled, a transaction can be asked to cancel any number of times, whatever its
   * retries: for every reachable job with transactions and every `n` there is a run with at least `n` asks.
   */
  lemma CancelsAreNotBounded(pending: seq<Job>, p: nat, n: nat) returns (steps: seq<Step>)
    requires WellPlanned(pending) && p < |pending| && pending[p].txns != []
    requires forall q :: 0 <= q < p ==> pending[q].txns != []
    ensures Cancels(Run(Initial(pending), steps), pending[p]) >= n
  {
    var s := ReachJob(pending, p);
    s := FirstFails(pending, s, p);
    s := CancelAgain(pending, s, pending[p], n);
    steps :| Run(Initial(pending), steps) == s;
  }
}
