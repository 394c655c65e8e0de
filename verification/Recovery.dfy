/**
 * Whether lost asks to confirm are recovered.  The coordinator closes the timer of a transaction on every
 * acknowledgement, so a reservation that is acknowledged again in the second phase stops the retries of the confirm.
 */
module Recovery {
  import opened Tcc
  import opened TccFacts
  import opened Coordination
  import opened Barrier
  import opened Retries
  import opened Drive
  import opened Lone

  /** A transaction that has not finished keeps its timer until it has been asked to confirm as often as it may. */
  ghost predicate KeepsConfirming(v: View, j: Id, t: Txn) {
    j in v.jobs && Reserved(v.jobs[j]) && t.id !in Fin(v.jobs[j]) && t.id !in v.timers && !v.task.ended ==>
      t.timeout == 0 || Confirms(v, j, t.id) == 1 + t.retries
  }

  /** The step acknowledges a reservation of the second phase again. */
  ghost predicate Repeats(s: Sys, step: Step, j: Id, x: Id) {
    step == DeliverUpdate(Ack(j, x, Confirmed)) && j in s.v.jobs && Reserved(s.v.jobs[j])
  }

  // ---- one event ----

  lemma ConfirmKeeps(v: View, job: Id, x: Id, t: Txn)
    requires Whole(v, job) && Sound(v.jobs[job]) && x in v.jobs[job].joining && Counted(v.jobs[job])
    requires t in v.jobs[job].job.txns && KeepsConfirming(v, job, t)
    requires Reserved(v.jobs[job]) ==> x != t.id
    ensures KeepsConfirming(OnConfirmed(v, job, x), job, t)
  {
    var r := v.jobs[job];
    JoinReservation(r, x);
    TxnIn(r, t);
    var (r', complete) := Join(r, x, Confirmed);
    if complete {
      var i :| 0 <= i < |r.job.txns| && r.job.txns[i] == t;
      ArmAt(v.timers - {x}, r.job.txns, AskFinish, |r.job.txns|, i);
    }
  }

  lemma FinishKeeps(v: View, job: Id, x: Id, t: Txn)
    requires Whole(v, job) && Sound(v.jobs[job]) && x in v.jobs[job].joining && Counted(v.jobs[job])
    requires Reserved(v.jobs[job]) && t in v.jobs[job].job.txns && KeepsConfirming(v, job, t)
    ensures KeepsConfirming(OnFinished(v, job, x), job, t)
  {
    TxnIn(v.jobs[job], t);
    JoinCompletion(v.jobs[job], x);
    FinishAsksNobody(v, job, x);
    assert Confirms(OnFinished(v, job, x), job, t.id) == Confirms(v, job, t.id);
  }

  lemma TimeoutKeeps(v: View, job: Id, x: Id, t: Txn)
    requires Whole(v, job) && Sound(v.jobs[job]) && x in v.jobs[job].joining
    requires Budget(v, job, t) && KeepsConfirming(v, job, t)
    ensures KeepsConfirming(OnTxnTimeout(v, job, x), job, t)
  {
    var v' := OnTxnTimeout(v, job, x);
    assert Conf(v'.jobs[job]) == Conf(v.jobs[job]) && Fin(v'.jobs[job]) == Fin(v.jobs[job]);
    assert Confirms(v', job, t.id) >= Confirms(v, job, t.id);
    if x != t.id {
      assert Confirms(v', job, t.id) == Confirms(v, job, t.id);
    }
  }

  lemma OwnKeeps(v: View, u: Update, t: Txn, reserved: set<Party>, confirmed: set<Party>)
    requires Known(v, u) && !v.task.ended && !(u.Ack? && u.state == Canceled)
    requires u.Ack? && u.state == Finished ==> Reserved(v.jobs[u.job])
    requires Whole(v, u.job) && Sound(v.jobs[u.job]) && JobOk(v.jobs[u.job], v.timers, reserved, confirmed)
    requires t in v.jobs[u.job].job.txns && Budget(v, u.job, t) && KeepsConfirming(v, u.job, t)
    requires Reserved(v.jobs[u.job]) ==> u != Ack(u.job, t.id, Confirmed)
    ensures KeepsConfirming(Handle(v, u), u.job, t)
  {
    match u
    case Ack(job, txn, Confirmed) => ConfirmKeeps(v, job, txn, t);
    case Ack(job, txn, Finished) => FinishKeeps(v, job, txn, t);
    case Ack(job, txn, Reserving) =>
    case Ack(job, txn, Canceled) =>
    case TxnTimeout(job, txn) => TimeoutKeeps(v, job, txn, t);
    case JobTimeout(job) =>
  }

  lemma UpdateKeepsConfirming(s: Sys, u: Update, j: Id, t: Txn)
    requires Linked(s) && JobsOk(s) && Honest(s) && AsksGuarded(s.v) && AllInBudget(s)
    requires Enabled(s, DeliverUpdate(u)) && !s.v.task.ended && !Repeats(s, DeliverUpdate(u), j, t.id)
    requires j in s.v.jobs && t in s.v.jobs[j].job.txns && KeepsConfirming(s.v, j, t)
    requires Untouched(s.v, j) && Untouched(Handle(s.v, u), j)
    ensures KeepsConfirming(Handle(s.v, u), j, t)
  {
    LinkedSound(s, j);
    if j != u.job {
      OtherKeeps(s, u, j, t);
    } else if u.Ack? && u.state == Canceled {
      CancelTouches(s.v, u.job, u.txn);
    } else {
      if u.Ack? && u.state == Finished {
        FinishedMeansConfirmed(s, u.job, u.txn);
      }
      OwnKeeps(s.v, u, t, s.reserved, s.confirmed);
    }
  }

  lemma OtherKeeps(s: Sys, u: Update, j: Id, t: Txn)
    requires Linked(s) && Known(s.v, u) && !s.v.task.ended && j in s.v.jobs && j != u.job
    requires t in s.v.jobs[j].job.txns && KeepsConfirming(s.v, j, t)
    ensures KeepsConfirming(Handle(s.v, u), j, t)
  {
    LinkedSound(s, u.job);
    LinkedSound(s, j);
    HandlePreserves(s.v, u);
    HandleFrames(s.v, u);
    JobsApart(s, u.job, j);
    JobsApart(s, j, u.job);
    TxnIn(s.v.jobs[j], t);
    HandleAsksItsJob(s.v, u, AskedFinish(j, t.id, Confirmed));
    assert Confirms(Handle(s.v, u), j, t.id) == Confirms(s.v, j, t.id);
  }

  // ---- runs ----

  lemma StartKeepsConfirming(s: Sys, p: nat, j: Id, t: Txn)
    requires Linked(s) && Enabled(s, DeliverJob(p)) && KeepsConfirming(s.v, j, t)
    requires j in s.v.jobs ==> t in s.v.jobs[j].job.txns
    requires s.v.task.pending[p].id == j ==> t in s.v.task.pending[p].txns
    ensures KeepsConfirming(Start(s.v, s.v.task.pending[p]), j, t)
  {
    var job, v' := s.v.task.pending[p], Start(s.v, s.v.task.pending[p]);
    if j == job.id {
      var i :| 0 <= i < |job.txns| && job.txns[i] == t;
      ArmAt(s.v.timers[job.id := Timer(None, 0, 0)], job.txns, AskReserve, |job.txns|, i);
    } else if j in s.v.jobs {
      LinkedSound(s, j);
      TxnIn(s.v.jobs[j], t);
      StartedApart(s, p, j);
      ReserveAsksAre(job.id, job.txns, |job.txns|, AskedFinish(j, t.id, Confirmed));
      assert Confirms(v', j, t.id) == Confirms(s.v, j, t.id);
    }
  }

  lemma StepKeepsConfirming(s: Sys, step: Step, p: nat, t: Txn)
    requires Linked(s) && JobsOk(s) && Honest(s) && AsksGuarded(s.v) && AllInBudget(s)
    requires p < |s.v.task.pending| && t in s.v.task.pending[p].txns
    requires KeepsConfirming(s.v, s.v.task.pending[p].id, t) && !Repeats(s, step, s.v.task.pending[p].id, t.id)
    requires Untouched(s.v, s.v.task.pending[p].id) && Untouched(Apply(s, step).v, s.v.task.pending[p].id)
    ensures KeepsConfirming(Apply(s, step).v, s.v.task.pending[p].id, t)
  {
    var j := s.v.task.pending[p].id;
    if j in s.v.jobs {
      LoadedIsPlanned(s, p);
    }
    if Enabled(s, step) {
      match step
      case DeliverJob(q) => StartKeepsConfirming(s, q, j, t);
      case DeliverUpdate(u) =>
        LinkedSound(s, u.job);
        HandlePreserves(s.v, u);
        if j in s.v.jobs && !s.v.task.ended {
          UpdateKeepsConfirming(s, u, j, t);
        }
      case HandleAsk(_, _) =>
    }
  }

  /** No step of the run acknowledges the reservation of `x` again in the second phase. */
  ghost predicate NoRepeats(pending: seq<Job>, steps: seq<Step>, j: Id, x: Id)
    requires pending != []
  {
    forall i :: 0 <= i < |steps| ==> !Repeats(Run(Initial(pending), steps[..i]), steps[i], j, x)
  }

  lemma StepGrowsLog(s: Sys, step: Step)
    requires Linked(s)
    ensures s.v.log <= Apply(s, step).v.log
  {
    if Enabled(s, step) && step.DeliverUpdate? {
      LinkedWhole(s, step.u.job);
      HandlePreserves(s.v, step.u);
    }
  }

  /**
   * In every run in which the reservation of a transaction is not acknowledged again in the second phase, and no
   * cancel of its job is handled, it is asked to confirm again until it has finished or its retries are used up.
   */
  lemma {:induction false} ConfirmsAreRecovered(pending: seq<Job>, steps: seq<Step>, p: nat, i: nat)
    requires WellPlanned(pending) && p < |pending| && i < |pending[p].txns|
    requires Untouched(Run(Initial(pending), steps).v, pending[p].id)
    requires NoRepeats(pending, steps, pending[p].id, pending[p].txns[i].id)
    ensures KeepsConfirming(Run(Initial(pending), steps).v, pending[p].id, pending[p].txns[i])
  {
    if steps != [] {
      var init, last := steps[..|steps| - 1], steps[|steps| - 1];
      var s := Run(Initial(pending), init);
      RunStaysLinked(pending, init);
      StepGrowsLog(s, last);
      UntouchedBefore(s.v, Apply(s, last).v, pending[p].id);
      forall k | 0 <= k < |init|
        ensures !Repeats(Run(Initial(pending), init[..k]), init[k], pending[p].id, pending[p].txns[i].id)
      {
        assert init[..k] == steps[..k];
      }
      ConfirmsAreRecovered(pending, init, p, i);
      var k := RunKeepsInv(pending, init);
      RunStaysInBudget(pending, init);
      StepKeepsConfirming(s, last, p, pending[p].txns[i]);
    }
  }

  // ---- the failing runs, and the exact condition ----

  ghost predicate RecoversAt(pending: seq<Job>, steps: seq<Step>, p: nat, i: nat)
    requires pending != [] && p < |pending| && i < |pending[p].txns|
  {
    var v := Run(Initial(pending), steps).v;
    Untouched(v, pending[p].id) ==> KeepsConfirming(v, pending[p].id, pending[p].txns[i])
  }

  /** In the second phase, with all timers armed, everybody has been asked to confirm once. */
  lemma AskedOnce(pending: seq<Job>, s: Sys, p: nat, i: nat)
    requires WellPlanned(pending) && p < |pending| && i < |pending[p].txns| && Loaded(pending, s, pending[p])
    requires s.v.task.jobIndex < |pending| && AskedToConfirm(s.v.log, pending[p]) && Armed(s.v.timers, pending[p])
    ensures Untouched(s.v, pending[p].id) && Reserved(s.v.jobs[pending[p].id])
    ensures Confirms(s.v, pending[p].id, pending[p].txns[i].id) == 1
  {
    var steps: seq<Step> :| Run(Initial(pending), steps) == s;
    var k := RunKeepsInv(pending, steps);
    RunStaysLinked(pending, steps);
    NoCancelYet(s.v, pending[p].id, k);
    assert AskedFinish(pending[p].id, pending[p].txns[i].id, Confirmed) in s.v.log;
    RetriesAreAsks(pending, steps, p, i);
  }

  /** The reservation is acknowledged again: the timer is closed and nothing else happens. */
  lemma RepeatClosesTimer(v: View, job: Job, i: nat)
    requires Planned(v, job) && i < |job.txns| && Reserved(v.jobs[job.id])
    ensures OnConfirmed(v, job.id, job.txns[i].id) == v.(timers := v.timers - {job.txns[i].id})
  {
    assert job.txns[i].id in Conf(v.jobs[job.id]);
  }

  /** Every reachable job with something to retry has a run in which its confirm is not retried. */
  lemma RepeatStopsRetries(pending: seq<Job>, p: nat, i: nat) returns (steps: seq<Step>)
    requires WellPlanned(pending) && p < |pending| && i < |pending[p].txns|
    requires pending[p].txns[i].retries > 0 && pending[p].txns[i].timeout > 0
    requires forall q :: 0 <= q < p ==> pending[q].txns != []
    ensures !RecoversAt(pending, steps, p, i)
  {
    var job := pending[p];
    var s := ReachJob(pending, p);
    s := FirstPhase(pending, s, p);
    AskedOnce(pending, s, p, i);
    var s' := DeliverAck(pending, s, job, i, Confirmed);
    RepeatClosesTimer(s.v, job, i);
    assert job.txns[i].id !in Fin(s'.v.jobs[job.id]);
    assert Confirms(s'.v, job.id, job.txns[i].id) == 1;
    steps :| Run(Initial(pending), steps) == s';
  }

  /** What a submitter can check: there is nothing to retry, or the job is never reached. */
  predicate NothingToLose(pending: seq<Job>, p: nat, i: nat)
    requires p < |pending| && i < |pending[p].txns|
  {
    || pending[p].txns[i].retries == 0 || pending[p].txns[i].timeout == 0
    || exists q :: 0 <= q < p && pending[q].txns == []
  }

  lemma NothingIsLost(pending: seq<Job>, steps: seq<Step>, p: nat, i: nat)
    requires WellPlanned(pending) && p < |pending| && i < |pending[p].txns| && NothingToLose(pending, p, i)
    ensures RecoversAt(pending, steps, p, i)
  {
    var v := Run(Initial(pending), steps).v;
    if q :| 0 <= q < p && pending[q].txns == [] {
      UnreachedJobKeepsBarrier(pending, steps, p, q);
    } else if Untouched(v, pending[p].id) && pending[p].id in v.jobs {
      RetriesAreAsks(pending, steps, p, i);
    }
  }

  /**
   * The exact condition: asks to confirm are retried in all runs, however often the network repeats a message, if and
   * only if there is nothing to retry or the job is never reached.
   */
  lemma ConfirmsAreRecoveredIff(pending: seq<Job>, p: nat, i: nat)
    requires WellPlanned(pending) && p < |pending| && i < |pending[p].txns|
    ensures (forall steps :: RecoversAt(pending, steps, p, i)) <==> NothingToLose(pending, p, i)
  {
    if NothingToLose(pending, p, i) {
      forall steps ensures RecoversAt(pending, steps, p, i) {
        NothingIsLost(pending, steps, p, i);
      }
    } else {
      var steps := RepeatStopsRetries(pending, p, i);
    }
  }
}
