/**
 * How a task goes on and how it ends.  In every run: a job that is done is followed by the next one or by the end of
 * the task; a task ends because its last job is done, because a job has been canceled, or because a job has timed out;
 * and an unfinished job keeps its timer.
 */
module Outcome {
  import opened Tcc
  import opened TccFacts
  import opened Scheduling
  import opened Coordination
  import opened Barrier

  // ---- what one event means for the task ----

  predicate IsCancel(u: Update) {
    u.Ack? && u.state == Canceled
  }

  /** The completion after which no job is left. */
  predicate CompletesLast(v: View, u: Update)
    requires Known(v, u)
  {
    && u.Ack? && u.state == Finished && Join(v.jobs[u.job], u.txn, Finished).1
    && v.task.jobIndex + 1 >= |v.task.pending|
  }

  /** An event ends the task exactly if a job times out or the last completion comes in. */
  lemma EndsIff(v: View, u: Update)
    requires Known(v, u) && Whole(v, u.job) && !v.task.ended
    ensures Handle(v, u).task.ended <==> u.JobTimeout? || CompletesLast(v, u)
    ensures Ended in Handle(v, u).log <==> Ended in v.log || Handle(v, u).task.ended
  {
    match u {
      case Ack(job, txn, Confirmed) =>
        var (r, complete) := Join(v.jobs[job], txn, Confirmed);
        if complete {
          FinishAsksAre(job, r.job.txns, Confirmed, |r.job.txns|, Ended);
        }
      case Ack(job, txn, Canceled) =>
        FinishAsksAre(job, v.jobs[job].job.txns, Canceled, |v.jobs[job].job.txns|, Ended);
      case Ack(job, txn, Finished) =>
      case Ack(job, txn, Reserving) =>
      case TxnTimeout(job, txn) =>
      case JobTimeout(job) =>
    }
  }

  /** The flags of a job: only a cancel marks a transaction, only cancels and job timeouts mark the job. */
  ghost predicate Marked(r: JobRes, r': JobRes, u: Update) {
    && r'.joining.Keys == r.joining.Keys
    && r'.canceled == (r.canceled || IsCancel(u) || u.JobTimeout?)
    && forall x :: x in r.joining ==> r'.joining[x].canceled == (r.joining[x].canceled || (IsCancel(u) && x == u.txn))
  }

  lemma ConfirmMarks(v: View, job: Id, txn: Id)
    requires Whole(v, job) && txn in v.jobs[job].joining
    ensures Marked(v.jobs[job], OnConfirmed(v, job, txn).jobs[job], Ack(job, txn, Confirmed))
  {
    var (r, complete) := Join(v.jobs[job], txn, Confirmed);
    MarkSpec(r.joining, r.job.txns, Confirmed, |r.job.txns|);
  }

  lemma CancelMarks(v: View, job: Id, txn: Id)
    requires Whole(v, job) && txn in v.jobs[job].joining
    ensures Marked(v.jobs[job], OnCanceled(v, job, txn).jobs[job], Ack(job, txn, Canceled))
  {
    var r := v.jobs[job];
    MarkSpec(r.joining[txn := r.joining[txn].(canceled := true)], r.job.txns, Canceled, |r.job.txns|);
  }

  lemma FlagsAfter(v: View, u: Update)
    requires Known(v, u) && Whole(v, u.job) && !v.task.ended
    ensures var v' := Handle(v, u);
            && u.job in v'.jobs && Marked(v.jobs[u.job], v'.jobs[u.job], u)
            && v'.task.canceled == (v.task.canceled || IsCancel(u) || u.JobTimeout?)
  {
    match u
    case Ack(job, txn, Confirmed) => ConfirmMarks(v, job, txn);
    case Ack(job, txn, Canceled) => CancelMarks(v, job, txn);
    case Ack(job, txn, Finished) =>
    case Ack(job, txn, Reserving) =>
    case TxnTimeout(job, txn) =>
    case JobTimeout(job) =>
  }

  /** Cancels are logged as they are handled. */
  lemma CancelsAfter(v: View, u: Update, o: Out)
    requires Known(v, u) && Whole(v, u.job) && !v.task.ended && o.SawCancel?
    ensures o in Handle(v, u).log <==> o in v.log || (IsCancel(u) && o == SawCancel(u.job, u.txn))
  {
    match u {
      case Ack(job, txn, Confirmed) =>
        var (r, complete) := Join(v.jobs[job], txn, Confirmed);
        FinishAsksAre(job, r.job.txns, Confirmed, |r.job.txns|, o);
      case Ack(job, txn, Canceled) =>
        FinishAsksAre(job, v.jobs[job].job.txns, Canceled, |v.jobs[job].job.txns|, o);
      case Ack(job, txn, Finished) =>
      case Ack(job, txn, Reserving) =>
      case TxnTimeout(job, txn) =>
      case JobTimeout(job) =>
    }
  }

  // ---- flags ----

  /** A transaction is marked as canceled exactly if its cancel has been handled; so is its job, or it has timed out. */
  ghost predicate JobFlags(v: View, j: Id)
    requires j in v.jobs
  {
    && (forall x :: x in v.jobs[j].joining ==> (v.jobs[j].joining[x].canceled <==> SawCancel(j, x) in v.log))
    && (!Untouched(v, j) ==> v.jobs[j].canceled)
    && (v.jobs[j].canceled ==> v.task.canceled && (Untouched(v, j) ==> v.task.ended))
  }

  ghost predicate Flags(v: View) {
    && (forall j :: j in v.jobs ==> JobFlags(v, j))
    && (v.task.canceled ==> exists j :: j in v.jobs && v.jobs[j].canceled)
    && (forall o :: o in v.log && o.SawCancel? ==> o.job in v.jobs)
    && (v.task.ended <==> Ended in v.log)
  }

  lemma OwnFlags(v: View, u: Update)
    requires Known(v, u) && Whole(v, u.job) && !v.task.ended && JobFlags(v, u.job)
    ensures u.job in Handle(v, u).jobs && JobFlags(Handle(v, u), u.job)
  {
    var v', j := Handle(v, u), u.job;
    FlagsAfter(v, u);
    EndsIff(v, u);
    forall x: Id ensures SawCancel(j, x) in v'.log <==> SawCancel(j, x) in v.log || (IsCancel(u) && x == u.txn) {
      CancelsAfter(v, u, SawCancel(j, x));
    }
  }

  lemma OtherFlags(v: View, u: Update, j: Id)
    requires Known(v, u) && Whole(v, u.job) && !v.task.ended && j in v.jobs && j != u.job && JobFlags(v, j)
    ensures j in Handle(v, u).jobs && JobFlags(Handle(v, u), j)
  {
    var v' := Handle(v, u);
    HandlePreserves(v, u);
    FlagsAfter(v, u);
    forall x: Id ensures SawCancel(j, x) in v'.log <==> SawCancel(j, x) in v.log {
      CancelsAfter(v, u, SawCancel(j, x));
    }
  }

  lemma UpdateKeepsFlags(s: Sys, u: Update)
    requires Linked(s) && Flags(s.v) && Known(s.v, u) && !s.v.task.ended
    ensures Flags(Handle(s.v, u))
  {
    var v, v' := s.v, Handle(s.v, u);
    LinkedWhole(s, u.job);
    HandlePreserves(v, u);
    FlagsAfter(v, u);
    EndsIff(v, u);
    forall j | j in v'.jobs ensures JobFlags(v', j) {
      if j == u.job {
        OwnFlags(v, u);
      } else {
        OtherFlags(v, u, j);
      }
    }
    forall o | o in v'.log && o.SawCancel? ensures o.job in v'.jobs {
      CancelsAfter(v, u, o);
    }
    if v'.task.canceled {
      SomeCanceled(v, v', u);
    }
  }

  lemma SomeCanceled(v: View, v': View, u: Update)
    requires Preserves(v, v', u.job) && v'.task.canceled
    requires v.task.canceled ==> exists j :: j in v.jobs && v.jobs[j].canceled
    requires v'.task.canceled == (v.task.canceled || IsCancel(u) || u.JobTimeout?)
    requires v'.jobs[u.job].canceled == (v.jobs[u.job].canceled || IsCancel(u) || u.JobTimeout?)
    ensures exists j :: j in v'.jobs && v'.jobs[j].canceled
  {
    if v'.jobs[u.job].canceled {
    } else {
      var j :| j in v.jobs && v.jobs[j].canceled;
      assert v'.jobs[j] == v.jobs[j];
    }
  }

  lemma StartLogsAsks(v: View, job: Job, o: Out)
    requires !IsAsk(o)
    ensures o in Start(v, job).log <==> o in v.log
  {
    ReserveAsksAre(job.id, job.txns, |job.txns|, o);
  }

  lemma StartFlags(v: View, job: Job, j: Id)
    requires job.id !in v.jobs && (forall o :: o in v.log && o.SawCancel? ==> o.job in v.jobs)
    requires j == job.id || (j in v.jobs && JobFlags(v, j))
    ensures JobFlags(Start(v, job), j)
  {
    forall x: Id ensures SawCancel(j, x) in Start(v, job).log <==> SawCancel(j, x) in v.log {
      StartLogsAsks(v, job, SawCancel(j, x));
    }
    if j == job.id {
      EnlistSpec(job.txns, |job.txns|);
      forall x: Id ensures SawCancel(j, x) !in v.log {
        assert SawCancel(j, x).SawCancel?;
      }
    }
  }

  lemma StartKeepsFlags(s: Sys, p: nat)
    requires Linked(s) && Flags(s.v) && Enabled(s, DeliverJob(p))
    ensures Flags(Start(s.v, s.v.task.pending[p]))
  {
    var v, job := s.v, s.v.task.pending[p];
    var v' := Start(v, job);
    forall j | j in v'.jobs ensures JobFlags(v', j) {
      StartFlags(v, job, j);
    }
    forall o | o in v'.log && o.SawCancel? ensures o.job in v'.jobs {
      StartLogsAsks(v, job, o);
    }
    StartLogsAsks(v, job, Ended);
    if v'.task.canceled {
      var j :| j in v.jobs && v.jobs[j].canceled;
      assert v'.jobs[j] == v.jobs[j];
    }
  }

  lemma {:induction false} RunKeepsFlags(pending: seq<Job>, steps: seq<Step>)
    requires WellPlanned(pending)
    ensures Flags(Run(Initial(pending), steps).v)
  {
    if steps != [] {
      RunKeepsFlags(pending, steps[..|steps| - 1]);
      RunStaysLinked(pending, steps[..|steps| - 1]);
      StepKeepsFlags(Run(Initial(pending), steps[..|steps| - 1]), steps[|steps| - 1]);
    }
  }

  lemma StepKeepsFlags(s: Sys, step: Step)
    requires Linked(s) && Flags(s.v)
    ensures Flags(Apply(s, step).v)
  {
    match step
    case DeliverJob(p) =>
      if Enabled(s, step) {
        StartKeepsFlags(s, p);
      }
    case DeliverUpdate(u) =>
      if Enabled(s, step) && !s.v.task.ended {
        UpdateKeepsFlags(s, u);
      }
    case HandleAsk(_, _) => assert Apply(s, step).v == s.v;
  }

  // ---- going on ----

  /** The job that the task is at. */
  function Current(v: View): Id
    requires v.task.jobIndex < |v.task.pending|
  {
    v.task.pending[v.task.jobIndex].id
  }

  /**
   * Until it ends or is canceled, a task is at a job that is not finished; if it was not canceled it ends with its last
   * job.
   */
  ghost predicate GoesOn(v: View) {
    !v.task.canceled ==>
      && v.task.jobIndex < |v.task.pending|
      && (!v.task.ended && Current(v) in v.jobs ==> !AllFinished(v.jobs[Current(v)]))
      && (v.task.ended ==>
            v.task.jobIndex + 1 == |v.task.pending| && Current(v) in v.jobs && AllFinished(v.jobs[Current(v)]))
  }

  /** Only a completion finishes a transaction. */
  lemma FinishedBefore(v: View, u: Update)
    requires Known(v, u) && Whole(v, u.job) && Sound(v.jobs[u.job]) && !v.task.ended
    requires !(u.Ack? && u.state == Finished) && !IsCancel(u)
    ensures u.job in Handle(v, u).jobs && Fin(Handle(v, u).jobs[u.job]) == Fin(v.jobs[u.job])
    ensures Handle(v, u).jobs[u.job].joining.Keys == v.jobs[u.job].joining.Keys
    ensures Handle(v, u).task.jobIndex == v.task.jobIndex
  {
    var v', j := Handle(v, u), u.job;
    match u {
      case Ack(job, txn, Confirmed) =>
        var (r, complete) := Join(v.jobs[job], txn, Confirmed);
        assert Fin(r) == Fin(v.jobs[job]);
        if complete {
          MarkKeepsCounts(r, Confirmed);
        }
      case Ack(job, txn, Finished) =>
      case Ack(job, txn, Canceled) =>
      case Ack(job, txn, Reserving) =>
      case TxnTimeout(job, txn) => assert Fin(v'.jobs[j]) == Fin(v.jobs[j]);
      case JobTimeout(job) => assert Fin(v'.jobs[j]) == Fin(v.jobs[j]);
    }
  }

  /** The completing acknowledgement belongs to the job that the task is at. */
  lemma CompletionIsCurrent(s: Sys, job: Id, txn: Id, k: nat)
    requires Inv(s, k) && Known(s.v, Ack(job, txn, Finished)) && Ack(job, txn, Finished) in s.acks
    requires Join(s.v.jobs[job], txn, Finished).1 && !s.v.task.ended && s.v.task.jobIndex < |s.v.task.pending|
    ensures job == Current(s.v)
  {
    NoCancelYet(s.v, job, k);
    CompletionIsDone(s, job, txn);
    UndoneIsCurrent(s, job, k);
    LinkedWhole(s, job);
  }

  ghost predicate CountsUp(r: JobRes, txn: Id)
    requires txn in r.joining
  {
    var (r', complete) := Join(r, txn, Finished);
    && SameParties(r, r') && Fin(r) <= Fin(r')
    && (complete ==> Fin(r') == r'.joining.Keys) && (!complete ==> r' == r || Fin(r') != r'.joining.Keys)
  }

  /** A completion of an untouched job completes it exactly if it is the last. */
  lemma CompletionCounts(s: Sys, job: Id, txn: Id)
    requires Linked(s) && JobsOk(s) && Honest(s) && AsksGuarded(s.v) && Untouched(s.v, job)
    requires Known(s.v, Ack(job, txn, Finished)) && Ack(job, txn, Finished) in s.acks
    ensures CountsUp(s.v.jobs[job], txn)
  {
    LinkedSound(s, job);
    FinishedMeansConfirmed(s, job, txn);
    assert JobOk(s.v.jobs[job], s.v.timers, s.reserved, s.confirmed);
    JoinCompletion(s.v.jobs[job], txn);
  }

  lemma FinishGoesOn(s: Sys, job: Id, txn: Id, k: nat)
    requires Inv(s, k) && Known(s.v, Ack(job, txn, Finished)) && Ack(job, txn, Finished) in s.acks
    requires !s.v.task.ended && !s.v.task.canceled && GoesOn(s.v) && Whole(s.v, job)
    ensures GoesOn(OnFinished(s.v, job, txn))
  {
    NoCancelYet(s.v, job, k);
    CompletionCounts(s, job, txn);
    if Join(s.v.jobs[job], txn, Finished).1 {
      LastCompletionGoesOn(s, job, txn, k);
    } else {
      CountGoesOn(s.v, job, txn);
    }
  }

  lemma LastCompletionGoesOn(s: Sys, job: Id, txn: Id, k: nat)
    requires Inv(s, k) && Known(s.v, Ack(job, txn, Finished)) && Ack(job, txn, Finished) in s.acks
    requires !s.v.task.ended && !s.v.task.canceled && s.v.task.jobIndex < |s.v.task.pending| && Whole(s.v, job)
    requires var (r, complete) := Join(s.v.jobs[job], txn, Finished); complete && Fin(r) == r.joining.Keys
    ensures GoesOn(OnFinished(s.v, job, txn))
  {
    CompletionIsCurrent(s, job, txn, k);
    if s.v.task.jobIndex + 1 < |s.v.task.pending| {
      NextIsNotLoaded(s, k);
    }
    CompletionGoesOn(s.v, job, txn);
  }

  lemma NextIsNotLoaded(s: Sys, k: nat)
    requires Inv(s, k) && s.v.task.jobIndex + 1 < |s.v.task.pending|
    ensures s.v.task.pending[s.v.task.jobIndex + 1].id !in s.v.jobs
  {
  }

  lemma CompletionGoesOn(v: View, job: Id, txn: Id)
    requires Whole(v, job) && txn in v.jobs[job].joining && !v.task.ended && !v.task.canceled
    requires v.task.jobIndex < |v.task.pending| && job == Current(v)
    requires v.task.jobIndex + 1 < |v.task.pending| ==> v.task.pending[v.task.jobIndex + 1].id !in v.jobs
    requires var (r, complete) := Join(v.jobs[job], txn, Finished); complete && Fin(r) == r.joining.Keys
    ensures GoesOn(OnFinished(v, job, txn))
  {
    var r := Join(v.jobs[job], txn, Finished).0;
    assert txn in r.joining && txn in Fin(r);
  }

  lemma CountGoesOn(v: View, job: Id, txn: Id)
    requires Whole(v, job) && txn in v.jobs[job].joining && !v.task.ended && !v.task.canceled && GoesOn(v)
    requires var (r, complete) := Join(v.jobs[job], txn, Finished);
             !complete && (r == v.jobs[job] || Fin(r) != r.joining.Keys)
    ensures GoesOn(OnFinished(v, job, txn))
  {
  }

  lemma UpdateGoesOn(s: Sys, u: Update, k: nat)
    requires Inv(s, k) && Enabled(s, DeliverUpdate(u)) && !s.v.task.ended && GoesOn(s.v)
    ensures GoesOn(Handle(s.v, u))
  {
    LinkedSound(s, u.job);
    FlagsAfter(s.v, u);
    if !Handle(s.v, u).task.canceled {
      if u.Ack? && u.state == Finished {
        FinishGoesOn(s, u.job, u.txn, k);
      } else {
        QuietGoesOn(s.v, u);
      }
    }
  }

  lemma QuietGoesOn(v: View, u: Update)
    requires Known(v, u) && Whole(v, u.job) && Sound(v.jobs[u.job]) && !v.task.ended && GoesOn(v)
    requires !(u.Ack? && u.state == Finished) && !v.task.canceled && !Handle(v, u).task.canceled
    ensures GoesOn(Handle(v, u))
  {
    FlagsAfter(v, u);
    FinishedBefore(v, u);
    HandlePreserves(v, u);
    EndsIff(v, u);
    SameGoesOn(v, Handle(v, u), u.job);
  }

  lemma SameGoesOn(v: View, v': View, j: Id)
    requires GoesOn(v) && Preserves(v, v', j) && v'.task.jobIndex == v.task.jobIndex
    requires !v.task.ended && !v'.task.ended && !v.task.canceled
    requires Fin(v'.jobs[j]) == Fin(v.jobs[j]) && v'.jobs[j].joining.Keys == v.jobs[j].joining.Keys
    ensures GoesOn(v')
  {
  }

  lemma StartGoesOn(s: Sys, p: nat)
    requires Linked(s) && Enabled(s, DeliverJob(p)) && GoesOn(s.v)
    ensures GoesOn(Start(s.v, s.v.task.pending[p]))
  {
    var job := s.v.task.pending[p];
    EnlistSpec(job.txns, |job.txns|);
    assert Fin(Start(s.v, job).jobs[job.id]) == {};
  }

  lemma StepGoesOn(s: Sys, step: Step, k: nat)
    requires Inv(s, k) && GoesOn(s.v)
    ensures GoesOn(Apply(s, step).v)
  {
    match step
    case DeliverJob(p) =>
      if Enabled(s, step) {
        StartGoesOn(s, p);
      }
    case DeliverUpdate(u) =>
      if Enabled(s, step) && !s.v.task.ended {
        UpdateGoesOn(s, u, k);
      }
    case HandleAsk(_, _) => assert Apply(s, step).v == s.v;
  }

  lemma {:induction false} RunGoesOn(pending: seq<Job>, steps: seq<Step>)
    requires WellPlanned(pending)
    ensures GoesOn(Run(Initial(pending), steps).v)
  {
    if steps != [] {
      RunGoesOn(pending, steps[..|steps| - 1]);
      var k := RunKeepsInv(pending, steps[..|steps| - 1]);
      StepGoesOn(Run(Initial(pending), steps[..|steps| - 1]), steps[|steps| - 1], k);
    }
  }

  lemma {:induction false} SchedulesIn(log: seq<Out>, j: Id)
    requires j in Schedules(log)
    ensures Scheduled(j) in log
  {
    var init, last := log[..|log| - 1], log[|log| - 1];
    if last != Scheduled(j) {
      SchedulesIn(init, j);
    }
  }

  /**
   * In every run in which no job has been canceled or has timed out, a job that is done is followed by the next one,
   * and the task has ended if and only if its last job is done.
   */
  lemma NextFollowsDone(pending: seq<Job>, steps: seq<Step>, p: nat)
    requires WellPlanned(pending) && p < |pending|
    requires !Run(Initial(pending), steps).v.task.canceled && JobDone(Run(Initial(pending), steps), pending[p])
    ensures var v := Run(Initial(pending), steps).v;
            if p + 1 < |pending| then Scheduled(pending[p + 1].id) in v.log else v.task.ended
  {
    var s := Run(Initial(pending), steps);
    var k := RunKeepsInv(pending, steps);
    RunStaysLinked(pending, steps);
    RunGoesOn(pending, steps);
    assert p < k;
    if p + 1 < k {
      assert JobIds(pending, k)[p + 1] == pending[p + 1].id;
      SchedulesIn(s.v.log, pending[p + 1].id);
    } else {
      DoneIsFinished(s, p);
    }
  }

  lemma DoneIsFinished(s: Sys, p: nat)
    requires Linked(s) && p < |s.v.task.pending| && JobDone(s, s.v.task.pending[p])
    ensures AllFinished(s.v.jobs[s.v.task.pending[p].id])
  {
    var job := s.v.task.pending[p];
    DoneParties(s, p);
    InIds(job.txns, |job.txns|, job.txns[0].id);
  }

  /**
   * In every run, a task ends only if all its jobs are done, or a cancel of one of its jobs has been handled, or one
   * of its jobs, which is then marked, has timed out.
   */
  lemma EndsOnlyWhenDone(pending: seq<Job>, steps: seq<Step>)
    requires WellPlanned(pending) && Run(Initial(pending), steps).v.task.ended
    ensures var s := Run(Initial(pending), steps);
            || (forall p :: 0 <= p < |pending| ==> JobDone(s, pending[p]))
            || (exists j :: j in s.v.jobs && s.v.jobs[j].canceled)
  {
    var s := Run(Initial(pending), steps);
    var k := RunKeepsInv(pending, steps);
    RunStaysLinked(pending, steps);
    RunGoesOn(pending, steps);
    RunKeepsFlags(pending, steps);
    EndMeansDone(s, k);
  }

  lemma EndMeansDone(s: Sys, k: nat)
    requires Inv(s, k) && GoesOn(s.v) && Flags(s.v) && s.v.task.ended
    ensures || (forall p :: 0 <= p < |s.v.task.pending| ==> JobDone(s, s.v.task.pending[p]))
            || (exists j :: j in s.v.jobs && s.v.jobs[j].canceled)
  {
    if !s.v.task.canceled {
      forall p | 0 <= p < |s.v.task.pending| ensures JobDone(s, s.v.task.pending[p]) {
        EachIsDone(s, k, p);
      }
    }
  }

  lemma EachIsDone(s: Sys, k: nat, p: nat)
    requires Inv(s, k) && GoesOn(s.v) && s.v.task.ended && !s.v.task.canceled && p < |s.v.task.pending|
    ensures JobDone(s, s.v.task.pending[p])
  {
    if p + 1 == |s.v.task.pending| {
      LastIsDone(s, k);
    } else {
      assert p < k - 1;
    }
  }

  lemma LastIsDone(s: Sys, k: nat)
    requires Inv(s, k) && s.v.task.jobIndex + 1 == |s.v.task.pending| && Current(s.v) in s.v.jobs
    requires AllFinished(s.v.jobs[Current(s.v)])
    ensures JobDone(s, s.v.task.pending[|s.v.task.pending| - 1])
  {
    var p := |s.v.task.pending| - 1;
    NoCancelYet(s.v, Current(s.v), k);
    assert JobOk(s.v.jobs[Current(s.v)], s.v.timers, s.reserved, s.confirmed);
    LoadedIsPlanned(s, p);
    LinkedSound(s, Current(s.v));
  }

  // ---- job timers ----

  /** A job that is not finished keeps its timer, which never retries, until the task ends. */
  ghost predicate JobTimed(v: View, j: Id)
    requires j in v.jobs
  {
    && (j in v.timers ==> v.timers[j] == Timer(None, 0, 0))
    && (j !in v.timers && Untouched(v, j) && !v.task.ended ==> AllFinished(v.jobs[j]))
  }

  ghost predicate AllTimed(v: View) {
    forall j :: j in v.jobs ==> JobTimed(v, j)
  }

  /** The job's own timer is touched by its completion and its timeout, and by nothing else. */
  lemma JobTimerAfter(v: View, u: Update)
    requires Known(v, u) && Whole(v, u.job) && Sound(v.jobs[u.job]) && !v.task.ended
    ensures var v', j := Handle(v, u), u.job;
            && (j in v'.timers ==> j in v.timers && v'.timers[j] == v.timers[j])
            && (j in v.timers && j !in v'.timers ==>
                  u.JobTimeout? || (u.Ack? && u.state == Finished && Join(v.jobs[j], u.txn, Finished).1))
  {
    var r, j := v.jobs[u.job], u.job;
    match u {
      case Ack(job, txn, Confirmed) => ArmKeys(v.timers - {txn}, r.job.txns, AskFinish, |r.job.txns|);
      case Ack(job, txn, Canceled) => ArmKeys(v.timers - {txn}, r.job.txns, AskFinish, |r.job.txns|);
      case Ack(job, txn, Finished) =>
      case Ack(job, txn, Reserving) =>
      case TxnTimeout(job, txn) =>
      case JobTimeout(job) => CloseSpec(v.timers - {job}, r.job.txns, |r.job.txns|);
    }
  }

  lemma OwnTimed(s: Sys, u: Update)
    requires Linked(s) && JobsOk(s) && Honest(s) && AsksGuarded(s.v)
    requires Enabled(s, DeliverUpdate(u)) && !s.v.task.ended && JobTimed(s.v, u.job)
    ensures u.job in Handle(s.v, u).jobs && JobTimed(Handle(s.v, u), u.job)
  {
    LinkedSound(s, u.job);
    HandlePreserves(s.v, u);
    JobTimerAfter(s.v, u);
    if Untouched(Handle(s.v, u), u.job) && !Handle(s.v, u).task.ended && u.job !in Handle(s.v, u).timers {
      UntouchedBefore(s.v, Handle(s.v, u), u.job);
      if u.Ack? && u.state == Finished {
        CompletionTimed(s, u.job, u.txn);
      } else {
        QuietTimed(s.v, u);
      }
    }
  }

  lemma CompletionTimed(s: Sys, job: Id, txn: Id)
    requires Linked(s) && JobsOk(s) && Honest(s) && AsksGuarded(s.v) && Untouched(s.v, job) && !s.v.task.ended
    requires Known(s.v, Ack(job, txn, Finished)) && Ack(job, txn, Finished) in s.acks
    requires Whole(s.v, job) && Sound(s.v.jobs[job])
    requires JobTimed(s.v, job) && job !in Handle(s.v, Ack(job, txn, Finished)).timers
    ensures var v' := Handle(s.v, Ack(job, txn, Finished)); job in v'.jobs && AllFinished(v'.jobs[job])
  {
    CompletionCounts(s, job, txn);
    FinishTimed(s.v, job, txn);
  }

  lemma QuietTimed(v: View, u: Update)
    requires Known(v, u) && Whole(v, u.job) && Sound(v.jobs[u.job]) && !v.task.ended && Untouched(v, u.job)
    requires !(u.Ack? && u.state == Finished) && JobTimed(v, u.job)
    requires !Handle(v, u).task.ended && u.job !in Handle(v, u).timers && Untouched(Handle(v, u), u.job)
    ensures u.job in Handle(v, u).jobs && AllFinished(Handle(v, u).jobs[u.job])
  {
    if IsCancel(u) {
      CancelTouches(v, u.job, u.txn);
    } else {
      JobTimerAfter(v, u);
      EndsIff(v, u);
      FinishedBefore(v, u);
    }
  }

  lemma FinishTimed(v: View, job: Id, txn: Id)
    requires Whole(v, job) && Sound(v.jobs[job]) && txn in v.jobs[job].joining && !v.task.ended
    requires Untouched(v, job) && JobTimed(v, job) && job !in Handle(v, Ack(job, txn, Finished)).timers
    requires CountsUp(v.jobs[job], txn)
    ensures var v' := Handle(v, Ack(job, txn, Finished)); job in v'.jobs && AllFinished(v'.jobs[job])
  {
    var (r, complete) := Join(v.jobs[job], txn, Finished);
    JobTimerAfter(v, Ack(job, txn, Finished));
    assert OnFinished(v, job, txn).jobs[job] == r;
    assert txn in r.joining;
  }

  lemma OtherTimed(s: Sys, u: Update, j: Id)
    requires Linked(s) && Known(s.v, u) && !s.v.task.ended && j in s.v.jobs && j != u.job && JobTimed(s.v, j)
    ensures j in Handle(s.v, u).jobs && JobTimed(Handle(s.v, u), j)
  {
    LinkedSound(s, u.job);
    HandlePreserves(s.v, u);
    HandleFrames(s.v, u);
    JobsApart(s, j, u.job);
    if Untouched(Handle(s.v, u), j) {
      UntouchedBefore(s.v, Handle(s.v, u), j);
    }
  }

  lemma UpdateTimed(s: Sys, u: Update, k: nat)
    requires Inv(s, k) && Enabled(s, DeliverUpdate(u)) && !s.v.task.ended && AllTimed(s.v)
    ensures AllTimed(Handle(s.v, u))
  {
    LinkedWhole(s, u.job);
    HandlePreserves(s.v, u);
    forall j | j in Handle(s.v, u).jobs ensures JobTimed(Handle(s.v, u), j) {
      assert JobTimed(s.v, j);
      if j == u.job {
        OwnTimed(s, u);
      } else {
        OtherTimed(s, u, j);
      }
    }
  }

  lemma StartTimed(s: Sys, p: nat)
    requires Linked(s) && Enabled(s, DeliverJob(p)) && AllTimed(s.v)
    ensures AllTimed(Start(s.v, s.v.task.pending[p]))
  {
    var job, v' := s.v.task.pending[p], Start(s.v, s.v.task.pending[p]);
    ArmKeys(s.v.timers[job.id := Timer(None, 0, 0)], job.txns, AskReserve, |job.txns|);
    forall j | j in v'.jobs ensures JobTimed(v', j) {
      if j != job.id {
        JobNotPlanned(s, p, j);
        assert JobTimed(s.v, j);
        if Untouched(v', j) {
          UntouchedBefore(s.v, v', j);
        }
      }
    }
  }

  lemma StepTimed(s: Sys, step: Step, k: nat)
    requires Inv(s, k) && AllTimed(s.v)
    ensures AllTimed(Apply(s, step).v)
  {
    match step
    case DeliverJob(p) =>
      if Enabled(s, step) {
        StartTimed(s, p);
      }
    case DeliverUpdate(u) =>
      if Enabled(s, step) && !s.v.task.ended {
        UpdateTimed(s, u, k);
      }
    case HandleAsk(_, _) => assert Apply(s, step).v == s.v;
  }

  /**
   * In every run, a loaded job of which no cancel has been handled has a timer, which will end the task, until all its
   * transactions have finished or the task has ended.
   */
  lemma {:induction false} UnfinishedJobsAreTimed(pending: seq<Job>, steps: seq<Step>)
    requires WellPlanned(pending)
    ensures AllTimed(Run(Initial(pending), steps).v)
  {
    if steps != [] {
      UnfinishedJobsAreTimed(pending, steps[..|steps| - 1]);
      var k := RunKeepsInv(pending, steps[..|steps| - 1]);
      StepTimed(Run(Initial(pending), steps[..|steps| - 1]), steps[|steps| - 1], k);
    }
  }

  /** A job timeout ends the task and leaves no timer of the job. */
  lemma TimeoutClosesTimers(s: Sys, j: Id)
    requires Linked(s) && j in s.v.jobs && !s.v.task.ended
    ensures var v' := Handle(s.v, JobTimeout(j));
            v'.task.ended && v'.timers.Keys == s.v.timers.Keys - TxnIds(s.v.jobs[j].job) - {j}
  {
    CloseSpec(s.v.timers - {j}, s.v.jobs[j].job.txns, |s.v.jobs[j].job.txns|);
  }
}
