/** Jobs with a single transaction keep the two-phase barrier in every run, also after cancels. */
module Lone {
  import opened Tcc
  import opened TccFacts
  import opened Coordination
  import opened Barrier

  /** The only transaction is marked or asked to confirm only if it has reserved. */
  ghost predicate LoneOk(v: View, r: JobRes, reserved: set<Party>)
    requires |r.job.txns| == 1
  {
    var x := r.job.txns[0].id;
    && (x in r.joining && r.joining[x].state == Confirmed ==> Party(r.job.id, x) in reserved)
    && (AskedFinish(r.job.id, x, Confirmed) in v.log ==> Party(r.job.id, x) in reserved)
  }

  ghost predicate LonesOk(s: Sys) {
    forall j :: j in s.v.jobs && |s.v.jobs[j].job.txns| == 1 ==> LoneOk(s.v, s.v.jobs[j], s.reserved)
  }

  lemma LoneTxn(r: JobRes, x: Id)
    requires Sound(r) && |r.job.txns| == 1 && x in r.joining
    ensures x == r.job.txns[0].id
  {
    InIds(r.job.txns, 1, x);
  }

  // ---- the job of the event ----

  lemma CancelKeepsLone(v: View, job: Id, x: Id, reserved: set<Party>)
    requires Whole(v, job) && Sound(v.jobs[job]) && |v.jobs[job].job.txns| == 1 && x in v.jobs[job].joining
    requires LoneOk(v, v.jobs[job], reserved)
    ensures var v' := OnCanceled(v, job, x);
            SameParties(v.jobs[job], v'.jobs[job]) && LoneOk(v', v'.jobs[job], reserved)
  {
    var v', r := OnCanceled(v, job, x), v.jobs[job];
    var r' := r.(canceled := true, joining := r.joining[x := r.joining[x].(canceled := true)]);
    LoneTxn(r, x);
    MarkKeepsCounts(r', Canceled);
    FinishAsksAre(job, r.job.txns, Canceled, 1, AskedFinish(job, x, Confirmed));
  }

  lemma FinishKeepsLone(v: View, job: Id, x: Id, reserved: set<Party>)
    requires Whole(v, job) && |v.jobs[job].job.txns| == 1 && x in v.jobs[job].joining
    requires LoneOk(v, v.jobs[job], reserved)
    ensures var v' := OnFinished(v, job, x);
            SameParties(v.jobs[job], v'.jobs[job]) && LoneOk(v', v'.jobs[job], reserved)
  {
    var (r, complete) := Join(v.jobs[job], x, Finished);
    if complete {
      FinishJobEffect(v.(timers := v.timers - {x}), r);
    }
  }

  lemma TimeoutKeepsLone(v: View, job: Id, x: Id, reserved: set<Party>)
    requires Whole(v, job) && Sound(v.jobs[job]) && |v.jobs[job].job.txns| == 1 && x in v.jobs[job].joining
    requires LoneOk(v, v.jobs[job], reserved)
    ensures var v' := OnTxnTimeout(v, job, x);
            SameParties(v.jobs[job], v'.jobs[job]) && LoneOk(v', v'.jobs[job], reserved)
  {
    LoneTxn(v.jobs[job], x);
  }

  lemma UpdateKeepsLone(s: Sys, u: Update)
    requires Linked(s) && Honest(s) && Enabled(s, DeliverUpdate(u)) && !s.v.task.ended
    requires |s.v.jobs[u.job].job.txns| == 1 && LoneOk(s.v, s.v.jobs[u.job], s.reserved)
    ensures var v' := Handle(s.v, u);
            && u.job in v'.jobs && SameParties(s.v.jobs[u.job], v'.jobs[u.job])
            && LoneOk(v', v'.jobs[u.job], s.reserved)
  {
    LinkedSound(s, u.job);
    HandlePreserves(s.v, u);
    match u {
      case Ack(job, txn, Confirmed) => LoneTxn(s.v.jobs[job], txn);
      case Ack(job, txn, Canceled) => CancelKeepsLone(s.v, job, txn, s.reserved);
      case Ack(job, txn, Finished) => FinishKeepsLone(s.v, job, txn, s.reserved);
      case Ack(_, _, Reserving) =>
      case TxnTimeout(job, txn) => TimeoutKeepsLone(s.v, job, txn, s.reserved);
      case JobTimeout(_) =>
    }
  }

  // ---- steps and runs ----

  lemma UpdateKeepsLones(s: Sys, u: Update)
    requires Linked(s) && Honest(s) && LonesOk(s) && Enabled(s, DeliverUpdate(u))
    ensures LonesOk(Apply(s, DeliverUpdate(u)))
  {
    var v' := Handle(s.v, u);
    if !s.v.task.ended {
      LinkedSound(s, u.job);
      HandlePreserves(s.v, u);
      forall j | j in v'.jobs && |v'.jobs[j].job.txns| == 1 ensures LoneOk(v', v'.jobs[j], s.reserved) {
        assert SameParties(s.v.jobs[j], v'.jobs[j]);
        LinkedSound(s, j);
        if j == u.job {
          UpdateKeepsLone(s, u);
        } else {
          OtherKeepsLone(s.v, v', u.job, j, s.reserved);
        }
      }
    }
  }

  lemma OtherKeepsLone(v: View, v': View, job: Id, j: Id, reserved: set<Party>)
    requires Preserves(v, v', job) && j in v.jobs && j != job && v.jobs[j].job.id == j
    requires |v.jobs[j].job.txns| == 1 && LoneOk(v, v.jobs[j], reserved)
    ensures LoneOk(v', v'.jobs[j], reserved)
  {
    var ask := AskedFinish(j, v.jobs[j].job.txns[0].id, Confirmed);
    assert IsAsk(ask);
  }

  lemma StartKeepsLones(s: Sys, p: nat)
    requires Linked(s) && LonesOk(s) && Enabled(s, DeliverJob(p))
    ensures LonesOk(Apply(s, DeliverJob(p)))
  {
    var job, v' := s.v.task.pending[p], Start(s.v, s.v.task.pending[p]);
    EnlistSpec(job.txns, |job.txns|);
    forall j | j in v'.jobs && |v'.jobs[j].job.txns| == 1 ensures LoneOk(v', v'.jobs[j], s.reserved) {
      var ask := AskedFinish(v'.jobs[j].job.id, v'.jobs[j].job.txns[0].id, Confirmed);
      ReserveAsksAre(job.id, job.txns, |job.txns|, ask);
      assert ask in v'.log ==> ask in s.v.log;
      assert IsAsk(ask);
      if j == job.id {
        assert ask in s.v.log ==> Known(s.v, Ack(ask.job, ask.txn, Confirmed));
      } else {
        assert LoneOk(s.v, s.v.jobs[j], s.reserved);
      }
    }
  }

  lemma StepKeepsLones(s: Sys, step: Step)
    requires Linked(s) && Honest(s) && LonesOk(s)
    ensures LonesOk(Apply(s, step))
  {
    if Enabled(s, step) {
      match step {
        case DeliverJob(p) => StartKeepsLones(s, p);
        case DeliverUpdate(u) => UpdateKeepsLones(s, u);
        case HandleAsk(ask, succeeds) =>
          ReactIsHonest(s, ask, succeeds);
          forall j | j in s.v.jobs && |s.v.jobs[j].job.txns| == 1
            ensures LoneOk(s.v, s.v.jobs[j], React(s, ask, succeeds).reserved)
          {
            assert LoneOk(s.v, s.v.jobs[j], s.reserved);
          }
      }
    }
  }

  lemma {:induction false} RunKeepsLones(pending: seq<Job>, steps: seq<Step>)
    requires WellPlanned(pending)
    ensures LonesOk(Run(Initial(pending), steps))
  {
    if steps != [] {
      RunKeepsLones(pending, steps[..|steps| - 1]);
      var k := RunKeepsInv(pending, steps[..|steps| - 1]);
      StepKeepsLones(Run(Initial(pending), steps[..|steps| - 1]), steps[|steps| - 1]);
    }
  }

  /** A job with at most one transaction keeps the barrier in every run, whatever is canceled. */
  lemma LoneJobKeepsBarrier(pending: seq<Job>, steps: seq<Step>, p: nat)
    requires WellPlanned(pending) && p < |pending| && |pending[p].txns| <= 1
    ensures BarrierKept(Run(Initial(pending), steps), pending[p])
  {
    RunKeepsLones(pending, steps);
    RunStaysLinked(pending, steps);
    var k := RunKeepsInv(pending, steps);
    LoneBarrier(Run(Initial(pending), steps), p);
  }

  lemma LoneBarrier(s: Sys, p: nat)
    requires Linked(s) && Honest(s) && LonesOk(s)
    requires p < |s.v.task.pending| && |s.v.task.pending[p].txns| <= 1
    ensures BarrierKept(s, s.v.task.pending[p])
  {
    var job := s.v.task.pending[p];
    AskedIsLoaded(s, p);
    forall x, y | AskedFinish(job.id, x, Confirmed) in s.v.log && y in TxnIds(job)
      ensures Party(job.id, y) in s.reserved
    {
      InIds(job.txns, |job.txns|, x);
      InIds(job.txns, |job.txns|, y);
      assert LoneOk(s.v, s.v.jobs[job.id], s.reserved);
    }
  }

  /** Whatever has been asked to confirm, or has confirmed, is a transaction of a loaded job. */
  lemma AskedIsLoaded(s: Sys, p: nat)
    requires Linked(s) && Honest(s) && p < |s.v.task.pending|
    ensures var job := s.v.task.pending[p];
            && (forall x :: Party(job.id, x) in s.confirmed ==> AskedFinish(job.id, x, Confirmed) in s.v.log)
            && (forall x :: AskedFinish(job.id, x, Confirmed) in s.v.log ==>
                  job.id in s.v.jobs && s.v.jobs[job.id].job == job && x in TxnIds(job))
  {
    var job := s.v.task.pending[p];
    forall x | AskedFinish(job.id, x, Confirmed) in s.v.log
      ensures job.id in s.v.jobs && s.v.jobs[job.id].job == job && x in TxnIds(job)
    {
      assert IsAsk(AskedFinish(job.id, x, Confirmed));
      assert Known(s.v, Ack(job.id, x, Confirmed));
      LoadedIsPlanned(s, p);
      LinkedSound(s, job.id);
    }
  }

  /** A job behind one without transactions is never reached, and keeps the barrier for want of asks. */
  lemma UnreachedJobKeepsBarrier(pending: seq<Job>, steps: seq<Step>, p: nat, q: nat)
    requires WellPlanned(pending) && q < p < |pending| && pending[q].txns == []
    ensures BarrierKept(Run(Initial(pending), steps), pending[p])
    ensures pending[p].id !in Run(Initial(pending), steps).v.jobs
  {
    var s := Run(Initial(pending), steps);
    RunStaysLinked(pending, steps);
    var k := RunKeepsInv(pending, steps);
    assert !JobDone(s, s.v.task.pending[q]);
    AskedIsLoaded(s, p);
  }
}
