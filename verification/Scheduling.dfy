/**
 * The order in which the coordinator schedules the jobs of a task and ends it, for every sequence of events:
 * acknowledgements of any kind, duplicates, cancels, late timers.
 */
module Scheduling {
  import opened Tcc
  import opened TccFacts

  /** The jobs scheduled by a log, in order. */
  function Schedules(log: seq<Out>): seq<Id> {
    if log == [] then []
    else if log[|log| - 1].Scheduled? then Schedules(log[..|log| - 1]) + [log[|log| - 1].job]
    else Schedules(log[..|log| - 1])
  }

  /** The ids of the first `k` jobs. */
  function JobIds(pending: seq<Job>, k: nat): (r: seq<Id>)
    requires k <= |pending|
    ensures |r| == k && forall i :: 0 <= i < k ==> r[i] == pending[i].id
  {
    if k == 0 then [] else JobIds(pending, k - 1) + [pending[k - 1].id]
  }

  /** A cancel or the end of the task. */
  predicate Final(o: Out) {
    o.SawCancel? || o.Ended?
  }

  /** Nothing is scheduled after a cancel, and after the end nobody is asked but by a job that was still waiting. */
  ghost predicate Quiet(log: seq<Out>) {
    && (forall i, j :: 0 <= i < j < |log| && Final(log[i]) ==> !log[j].Scheduled?)
    && (forall i, j :: 0 <= i < j < |log| && log[i].Ended? ==> log[j].AskedReserve?)
  }

  /** The log has scheduled the first `k` jobs, in order, and nothing else. */
  ghost predicate ScheduledFirst(v: View, k: nat) {
    1 <= k <= |v.task.pending| && Schedules(v.log) == JobIds(v.task.pending, k)
  }

  ghost predicate Orderly(v: View, k: nat) {
    && ScheduledFirst(v, k)
    && (v.task.jobIndex < |v.task.pending| ==> k == v.task.jobIndex + 1)
    && (forall i :: 0 <= i < |v.log| && v.log[i].SawCancel? ==> v.task.jobIndex >= |v.task.pending|)
    && (forall i :: 0 <= i < |v.log| && v.log[i].Ended? ==> v.task.ended)
    && Quiet(v.log)
  }

  predicate Asks(os: seq<Out>) {
    forall i :: 0 <= i < |os| ==> os[i].AskedReserve? || os[i].AskedFinish?
  }

  lemma {:induction false} AsksScheduleNothing(log: seq<Out>, os: seq<Out>)
    requires Asks(os)
    ensures Schedules(log + os) == Schedules(log)
  {
    if os == [] {
      assert log + os == log;
    } else {
      assert (log + os)[..|log + os| - 1] == log + os[..|os| - 1];
      AsksScheduleNothing(log, os[..|os| - 1]);
    }
  }

  lemma ReserveAsksAreAsks(job: Id, txns: seq<Txn>)
    ensures Asks(ReserveAsks(job, txns, |txns|))
    ensures forall o :: o in ReserveAsks(job, txns, |txns|) ==> o.AskedReserve?
  {
    var os := ReserveAsks(job, txns, |txns|);
    forall o | o in os ensures o.AskedReserve? {
      ReserveAsksAre(job, txns, |txns|, o);
    }
    assert forall i :: 0 <= i < |os| ==> os[i] in os;
  }

  lemma FinishAsksAreAsks(job: Id, txns: seq<Txn>, state: State)
    ensures Asks(FinishAsks(job, txns, state, |txns|))
  {
    var os := FinishAsks(job, txns, state, |txns|);
    forall i | 0 <= i < |os| ensures os[i].AskedFinish? {
      assert os[i] in os;
      FinishAsksAre(job, txns, state, |txns|, os[i]);
    }
  }

  lemma ScheduleSnoc(log: seq<Out>, o: Out)
    ensures Schedules(log + [o]) == if o.Scheduled? then Schedules(log) + [o.job] else Schedules(log)
  {
    assert (log + [o])[..|log|] == log;
  }

  /** Asking transactions leaves the order alone. */
  lemma AskingIsOrderly(v: View, v': View, os: seq<Out>, k: nat)
    requires Orderly(v, k) && Asks(os)
    requires v.task.ended ==> forall i :: 0 <= i < |os| ==> os[i].AskedReserve?
    requires v'.task == v.task && v'.log == v.log + os
    ensures Orderly(v', k)
  {
    AsksScheduleNothing(v.log, os);
  }

  lemma EndingIsOrderly(v: View, k: nat)
    requires Orderly(v, k) && !v.task.ended
    ensures Orderly(End(v), k)
  {
    ScheduleSnoc(v.log, Ended);
  }

  lemma FinishingIsOrderly(v: View, r: JobRes, k: nat) returns (k': nat)
    requires Orderly(v, k) && !v.task.ended
    ensures Orderly(FinishJob(v, r), k')
    ensures k' == if v.task.jobIndex + 1 < |v.task.pending| then k + 1 else k
  {
    var w := v.(jobs := v.jobs[r.job.id := r], timers := v.timers - {r.job.id});
    var next := v.task.jobIndex + 1;
    if next < |v.task.pending| {
      ScheduleSnoc(v.log, Scheduled(v.task.pending[next].id));
      k' := k + 1;
    } else {
      EndingIsOrderly(w, k);
      k' := k;
    }
  }

  lemma CancelIsOrderly(v: View, v': View, o: Out, k: nat)
    requires Orderly(v, k) && !v.task.ended && o.SawCancel?
    requires v'.task == v.task.(jobIndex := |v.task.pending|, canceled := true) && v'.log == v.log + [o]
    ensures Orderly(v', k)
  {
    ScheduleSnoc(v.log, o);
  }

  /** The event is the completion that starts the next job. */
  predicate Advances(v: View, u: Update)
    requires Known(v, u)
  {
    && !v.task.ended && v.task.jobIndex + 1 < |v.task.pending|
    && u.Ack? && u.state == Finished && Join(v.jobs[u.job], u.txn, Finished).1
  }

  /** Every event keeps the order, and one job is added by a completion and by nothing else. */
  lemma HandleIsOrderly(v: View, u: Update, k: nat) returns (k': nat)
    requires Orderly(v, k) && Known(v, u)
    ensures Orderly(Handle(v, u), k') && k' == if Advances(v, u) then k + 1 else k
  {
    k' := k;
    if !v.task.ended {
      match u {
        case Ack(job, txn, Confirmed) => ConfirmIsOrderly(v, job, txn, k);
        case Ack(job, txn, Canceled) => CancelAckIsOrderly(v, job, txn, k);
        case Ack(job, txn, Finished) =>
          var w := v.(timers := v.timers - {txn});
          var (r, complete) := Join(v.jobs[job], txn, Finished);
          if complete {
            k' := FinishingIsOrderly(w, r, k);
          }
        case Ack(job, txn, Reserving) =>
        case TxnTimeout(job, txn) => TimeoutIsOrderly(v, job, txn, k);
        case JobTimeout(job) =>
          var r := v.jobs[job];
          EndingIsOrderly(v.(task := v.task.(canceled := true),
                             jobs := v.jobs[job := r.(canceled := true)],
                             timers := Close(v.timers - {job}, r.job.txns, |r.job.txns|)), k);
      }
    }
  }

  lemma ConfirmIsOrderly(v: View, job: Id, txn: Id, k: nat)
    requires Orderly(v, k) && !v.task.ended && job in v.jobs && txn in v.jobs[job].joining
    ensures Orderly(OnConfirmed(v, job, txn), k)
  {
    var (r, complete) := Join(v.jobs[job], txn, Confirmed);
    if complete {
      FinishAsksAreAsks(r.job.id, r.job.txns, Confirmed);
      AskingIsOrderly(v, OnConfirmed(v, job, txn), FinishAsks(r.job.id, r.job.txns, Confirmed, |r.job.txns|), k);
    }
  }

  lemma CancelAckIsOrderly(v: View, job: Id, txn: Id, k: nat)
    requires Orderly(v, k) && !v.task.ended && job in v.jobs && txn in v.jobs[job].joining
    ensures Orderly(OnCanceled(v, job, txn), k)
  {
    var w := v.(task := v.task.(jobIndex := |v.task.pending|, canceled := true),
                timers := v.timers - {txn}, log := v.log + [SawCancel(job, txn)]);
    CancelIsOrderly(v, w, SawCancel(job, txn), k);
    var j := v.jobs[job].job;
    FinishAsksAreAsks(j.id, j.txns, Canceled);
    AskingIsOrderly(w, OnCanceled(v, job, txn), FinishAsks(j.id, j.txns, Canceled, |j.txns|), k);
  }

  lemma TimeoutIsOrderly(v: View, job: Id, txn: Id, k: nat)
    requires Orderly(v, k) && !v.task.ended && job in v.jobs && txn in v.jobs[job].joining
    ensures Orderly(OnTxnTimeout(v, job, txn), k)
  {
    var v' := OnTxnTimeout(v, job, txn);
    var os := v'.log[|v.log|..];
    assert v'.log == v.log + os;
    AskingIsOrderly(v, v', os, k);
  }

  lemma StartIsOrderly(v: View, job: Job, k: nat)
    requires Orderly(v, k)
    ensures Orderly(Start(v, job), k)
  {
    ReserveAsksAreAsks(job.id, job.txns);
    AskingIsOrderly(v, Start(v, job), ReserveAsks(job.id, job.txns, |job.txns|), k);
  }

  lemma BeginIsOrderly(pending: seq<Job>)
    requires pending != []
    ensures Orderly(Begin(pending), 1)
  {
    ScheduleSnoc([], Scheduled(pending[0].id));
    assert Begin(pending).log == [] + [Scheduled(pending[0].id)];
    assert JobIds(pending, 1) == JobIds(pending, 0) + [pending[0].id];
  }
}
