/** Building runs: how to bring a task to any of its jobs, and a job to its second phase. */
module Drive {
  import opened Tcc
  import opened TccFacts
  import opened Coordination
  import opened Barrier

  // ---- reachable states ----

  ghost predicate Reached(pending: seq<Job>, s: Sys)
    requires pending != []
  {
    exists steps: seq<Step> :: Run(Initial(pending), steps) == s
  }

  lemma ReachedStart(pending: seq<Job>)
    requires pending != []
    ensures Reached(pending, Initial(pending))
  {
    assert Run(Initial(pending), []) == Initial(pending);
  }

  lemma ReachedStep(pending: seq<Job>, s: Sys, step: Step)
    requires pending != [] && Reached(pending, s)
    ensures Reached(pending, Apply(s, step))
  {
    var a: seq<Step> :| Run(Initial(pending), a) == s;
    assert (a + [step])[..|a|] == a;
    assert Run(Initial(pending), a + [step]) == Apply(s, step);
  }

  lemma ReachedLinked(pending: seq<Job>, s: Sys)
    requires WellPlanned(pending) && Reached(pending, s)
    ensures Linked(s) && s.v.task.pending == pending
  {
    var a: seq<Step> :| Run(Initial(pending), a) == s;
    RunStaysLinked(pending, a);
  }

  // ---- a job under way ----

  ghost predicate Loaded(pending: seq<Job>, s: Sys, job: Job) {
    && pending != [] && Reached(pending, s) && !s.v.task.ended && job in pending
    && job.id in s.v.jobs && s.v.jobs[job.id].job == job
  }

  /** The transactions from the `i`-th on have not acknowledged the reservation; or not the completion. */
  ghost predicate Unconfirmed(r: JobRes, job: Job, i: nat) {
    forall k :: i <= k < |job.txns| ==> job.txns[k].id in r.joining && r.joining[job.txns[k].id].confirmed == 0
  }

  ghost predicate Unfinished(r: JobRes, job: Job, i: nat) {
    forall k :: i <= k < |job.txns| ==> job.txns[k].id in r.joining && r.joining[job.txns[k].id].finished == 0
  }

  ghost predicate AckedFrom(s: Sys, job: Job, i: nat, state: State) {
    forall k :: i <= k < |job.txns| ==> Ack(job.id, job.txns[k].id, state) in s.acks
  }

  ghost predicate AskedToConfirm(log: seq<Out>, job: Job) {
    forall k :: 0 <= k < |job.txns| ==> AskedFinish(job.id, job.txns[k].id, Confirmed) in log
  }

  /** Every transaction has a fresh timer that asks it to finish. */
  ghost predicate Armed(timers: map<Id, Timer>, job: Job) {
    forall k :: 0 <= k < |job.txns| ==>
      job.txns[k].id in timers
      && timers[job.txns[k].id] == Timer(AskFinish, job.txns[k].timeout, job.txns[k].retries)
  }

  /** The resource of a job as the plan has it. */
  ghost predicate Planned(v: View, job: Job) {
    && Whole(v, job.id) && Sound(v.jobs[job.id]) && v.jobs[job.id].job == job
    && forall k :: 0 <= k < |job.txns| ==> job.txns[k].id in v.jobs[job.id].joining
  }

  lemma LoadedPlanned(pending: seq<Job>, s: Sys, job: Job)
    requires WellPlanned(pending) && Loaded(pending, s, job)
    ensures Planned(s.v, job)
  {
    ReachedLinked(pending, s);
    LinkedSound(s, job.id);
    forall k | 0 <= k < |job.txns| ensures job.txns[k].id in s.v.jobs[job.id].joining {
      InIds(job.txns, |job.txns|, job.txns[k].id);
    }
  }

  lemma AllAskedToConfirm(v: View, r: JobRes)
    requires DistinctTxns(r.job.txns)
    ensures AskedToConfirm(AskAllToFinish(v, r, Confirmed).log, r.job)
    ensures Armed(AskAllToFinish(v, r, Confirmed).timers, r.job)
  {
    var txns := r.job.txns;
    forall k | 0 <= k < |txns|
      ensures AskedFinish(r.job.id, txns[k].id, Confirmed) in AskAllToFinish(v, r, Confirmed).log
      ensures var timers := AskAllToFinish(v, r, Confirmed).timers;
              txns[k].id in timers && timers[txns[k].id] == Timer(AskFinish, txns[k].timeout, txns[k].retries)
    {
      ArmAt(v.timers, txns, AskFinish, |txns|, k);
      InIds(txns, |txns|, txns[k].id);
      FinishAsksAre(r.job.id, txns, Confirmed, |txns|, AskedFinish(r.job.id, txns[k].id, Confirmed));
    }
  }

  /** Delivering an acknowledgement that is in flight. */
  lemma DeliverAck(pending: seq<Job>, s: Sys, job: Job, i: nat, state: State) returns (s': Sys)
    requires WellPlanned(pending) && Loaded(pending, s, job) && i < |job.txns|
    requires Ack(job.id, job.txns[i].id, state) in s.acks
    ensures Planned(s.v, job) && s' == s.(v := Handle(s.v, Ack(job.id, job.txns[i].id, state)))
    ensures Reached(pending, s')
  {
    LoadedPlanned(pending, s, job);
    s' := Apply(s, DeliverUpdate(Ack(job.id, job.txns[i].id, state)));
    ReachedStep(pending, s, DeliverUpdate(Ack(job.id, job.txns[i].id, state)));
  }

  // ---- the reservation acknowledgements, from the i-th on ----

  /** One reservation counted, and it is not the last. */
  lemma ConfirmCounts(v: View, job: Job, i: nat)
    requires Planned(v, job) && i + 1 < |job.txns| && v.jobs[job.id].confirmed == i
    requires Unconfirmed(v.jobs[job.id], job, i)
    ensures var v' := OnConfirmed(v, job.id, job.txns[i].id);
            && v'.task == v.task && job.id in v'.jobs && v'.jobs[job.id].job == job
            && v'.jobs[job.id].confirmed == i + 1 && Unconfirmed(v'.jobs[job.id], job, i + 1)
            && (Unfinished(v.jobs[job.id], job, 0) ==> Unfinished(v'.jobs[job.id], job, 0))
  {
  }

  /** The last reservation: everybody is asked to confirm. */
  lemma ConfirmCompletes(v: View, job: Job, i: nat)
    requires Planned(v, job) && i + 1 == |job.txns| && v.jobs[job.id].confirmed == i
    requires Unconfirmed(v.jobs[job.id], job, i)
    ensures var v' := OnConfirmed(v, job.id, job.txns[i].id);
            && v'.task == v.task && AskedToConfirm(v'.log, job) && Armed(v'.timers, job)
            && job.id in v'.jobs && v'.jobs[job.id].job == job && v'.jobs[job.id].confirmed == 0
            && (Unfinished(v.jobs[job.id], job, 0) ==> Unfinished(v'.jobs[job.id], job, 0))
  {
    var (r, complete) := Join(v.jobs[job.id], job.txns[i].id, Confirmed);
    AllAskedToConfirm(v.(timers := v.timers - {job.txns[i].id}), r);
    MarkSpec(r.joining, job.txns, Confirmed, |job.txns|);
  }

  /** What the reservations from the `i`-th on lead to. */
  lemma {:induction false} ConfirmRest(pending: seq<Job>, s: Sys, job: Job, i: nat) returns (s': Sys)
    requires WellPlanned(pending) && Loaded(pending, s, job) && i < |job.txns| && s.v.jobs[job.id].confirmed == i
    requires Unconfirmed(s.v.jobs[job.id], job, i) && AckedFrom(s, job, i, Confirmed)
    ensures Loaded(pending, s', job) && s' == s.(v := s'.v) && s'.v.task == s.v.task
    ensures AskedToConfirm(s'.v.log, job) && Armed(s'.v.timers, job) && s'.v.jobs[job.id].confirmed == 0
    ensures Unfinished(s.v.jobs[job.id], job, 0) ==> Unfinished(s'.v.jobs[job.id], job, 0)
    decreases |job.txns| - i
  {
    s' := DeliverAck(pending, s, job, i, Confirmed);
    if i + 1 == |job.txns| {
      ConfirmCompletes(s.v, job, i);
    } else {
      ConfirmCounts(s.v, job, i);
      s' := ConfirmRest(pending, s', job, i + 1);
    }
  }

  // ---- the completion acknowledgements ----

  lemma FinishCounts(v: View, job: Job, i: nat)
    requires Planned(v, job) && i + 1 < |job.txns| && v.jobs[job.id].confirmed == i
    requires Unfinished(v.jobs[job.id], job, i)
    ensures var v' := OnFinished(v, job.id, job.txns[i].id);
            && v'.task == v.task && job.id in v'.jobs && v'.jobs[job.id].job == job
            && v'.jobs[job.id].confirmed == i + 1 && Unfinished(v'.jobs[job.id], job, i + 1)
            && (Unconfirmed(v.jobs[job.id], job, i) ==> Unconfirmed(v'.jobs[job.id], job, i + 1))
  {
  }

  /** The task has moved on to its next job. */
  ghost predicate MovedOn(v: View, v': View) {
    && v.task.jobIndex + 1 < |v.task.pending| && v'.task == v.task.(jobIndex := v.task.jobIndex + 1)
    && v'.log != [] && v'.log[|v'.log| - 1] == Scheduled(v.task.pending[v.task.jobIndex + 1].id)
  }

  /** The last completion schedules the next job. */
  lemma FinishCompletes(v: View, job: Job, i: nat)
    requires Planned(v, job) && i + 1 == |job.txns| && v.jobs[job.id].confirmed == i
    requires Unfinished(v.jobs[job.id], job, i) && v.task.jobIndex + 1 < |v.task.pending|
    ensures MovedOn(v, OnFinished(v, job.id, job.txns[i].id))
  {
  }

  lemma {:induction false} FinishRest(pending: seq<Job>, s: Sys, job: Job, i: nat) returns (s': Sys)
    requires WellPlanned(pending) && Loaded(pending, s, job) && i < |job.txns| && s.v.jobs[job.id].confirmed == i
    requires Unfinished(s.v.jobs[job.id], job, i) && AckedFrom(s, job, i, Finished)
    requires s.v.task.jobIndex + 1 < |s.v.task.pending|
    ensures Reached(pending, s') && s' == s.(v := s'.v) && MovedOn(s.v, s'.v)
    decreases |job.txns| - i
  {
    s' := DeliverAck(pending, s, job, i, Finished);
    if i + 1 == |job.txns| {
      FinishCompletes(s.v, job, i);
    } else {
      FinishCounts(s.v, job, i);
      s' := FinishRest(pending, s', job, i + 1);
    }
  }

  // ---- participants ----

  /** Only parties of `job` from the `i`-th on are new in `reserved`. */
  ghost predicate ReservesFrom(s: Sys, s': Sys, job: Job, i: nat) {
    forall q :: q in s'.reserved ==>
      q in s.reserved || exists k :: i <= k < |job.txns| && q == Party(job.id, job.txns[k].id)
  }

  /** The transactions from the `i`-th on reserve. */
  lemma {:induction false} ReserveRest(pending: seq<Job>, s: Sys, job: Job, i: nat) returns (s': Sys)
    requires pending != [] && Reached(pending, s) && i <= |job.txns|
    requires forall k :: i <= k < |job.txns| ==> AskedReserve(job.id, job.txns[k].id) in s.v.log
    ensures Reached(pending, s') && s'.v == s.v && s'.delivered == s.delivered && s.acks <= s'.acks
    ensures AckedFrom(s', job, i, Confirmed) && ReservesFrom(s, s', job, i)
    decreases |job.txns| - i
  {
    s' := s;
    if i < |job.txns| {
      var ask := AskedReserve(job.id, job.txns[i].id);
      ReachedStep(pending, s, HandleAsk(ask, true));
      var s1 := React(s, ask, true);
      s' := ReserveRest(pending, s1, job, i + 1);
      assert Ack(job.id, job.txns[i].id, Confirmed) in s1.acks;
      ReservesMore(s, s1, s', job, i);
    }
  }

  lemma ReservesMore(s: Sys, s1: Sys, s': Sys, job: Job, i: nat)
    requires i < |job.txns| && s1.reserved == s.reserved + {Party(job.id, job.txns[i].id)}
    requires ReservesFrom(s1, s', job, i + 1)
    ensures ReservesFrom(s, s', job, i)
  {
  }

  /** The transactions from the `i`-th on confirm. */
  lemma {:induction false} ConfirmedRest(pending: seq<Job>, s: Sys, job: Job, i: nat) returns (s': Sys)
    requires pending != [] && Reached(pending, s) && i <= |job.txns| && AskedToConfirm(s.v.log, job)
    ensures Reached(pending, s') && s'.v == s.v && s'.delivered == s.delivered && s.acks <= s'.acks
    ensures AckedFrom(s', job, i, Finished) && s'.reserved == s.reserved
    decreases |job.txns| - i
  {
    s' := s;
    if i < |job.txns| {
      var ask := AskedFinish(job.id, job.txns[i].id, Confirmed);
      ReachedStep(pending, s, HandleAsk(ask, true));
      var s1 := React(s, ask, true);
      s' := ConfirmedRest(pending, s1, job, i + 1);
      assert Ack(job.id, job.txns[i].id, Finished) in s1.acks;
    }
  }

  // ---- from job to job ----

  /** Job `p` is the current one, waiting in the channel, and nothing has happened to it or to later jobs. */
  ghost predicate Ready(pending: seq<Job>, s: Sys, p: nat) {
    && pending != [] && Reached(pending, s) && !s.v.task.ended && s.v.task.pending == pending
    && s.v.task.jobIndex == p < |pending| && Scheduled(pending[p].id) in s.v.log
    && (forall q :: p <= q < |pending| ==> Untried(s, pending[q]))
  }

  ghost predicate Untried(s: Sys, job: Job) {
    job.id !in s.delivered && forall x :: Party(job.id, x) !in s.reserved
  }

  /** Job `p` leaves the channel. */
  lemma LoadJob(pending: seq<Job>, s: Sys, p: nat) returns (s': Sys)
    requires Ready(pending, s, p)
    ensures var job := pending[p];
            && Loaded(pending, s', job) && s'.v.task == s.v.task
            && s'.delivered == s.delivered + {job.id} && s'.reserved == s.reserved
            && s'.v.jobs[job.id].confirmed == 0
            && Unconfirmed(s'.v.jobs[job.id], job, 0) && Unfinished(s'.v.jobs[job.id], job, 0)
            && forall k :: 0 <= k < |job.txns| ==> AskedReserve(job.id, job.txns[k].id) in s'.v.log
  {
    var job := pending[p];
    assert Untried(s, job);
    ReachedStep(pending, s, DeliverJob(p));
    s' := Apply(s, DeliverJob(p));
    EnlistSpec(job.txns, |job.txns|);
    forall k | 0 <= k < |job.txns|
      ensures AskedReserve(job.id, job.txns[k].id) in s'.v.log && job.txns[k].id in s'.v.jobs[job.id].joining
    {
      InIds(job.txns, |job.txns|, job.txns[k].id);
      ReserveAsksAre(job.id, job.txns, |job.txns|, AskedReserve(job.id, job.txns[k].id));
    }
  }

  /** All transactions reserve, and are asked to confirm. */
  lemma FirstPhase(pending: seq<Job>, s: Sys, p: nat) returns (s': Sys)
    requires WellPlanned(pending) && Ready(pending, s, p) && pending[p].txns != []
    ensures var job := pending[p];
            && Loaded(pending, s', job) && s'.v.task == s.v.task
            && s'.delivered == s.delivered + {job.id} && ReservesFrom(s, s', job, 0)
            && AskedToConfirm(s'.v.log, job) && Armed(s'.v.timers, job) && AckedFrom(s', job, 0, Confirmed)
            && s'.v.jobs[job.id].confirmed == 0 && Unfinished(s'.v.jobs[job.id], job, 0)
  {
    var s1 := LoadJob(pending, s, p);
    var s2 := ReserveRest(pending, s1, pending[p], 0);
    s' := ConfirmRest(pending, s2, pending[p], 0);
  }

  /** All transactions confirm, and the next job is scheduled. */
  lemma SecondPhase(pending: seq<Job>, s: Sys, job: Job) returns (s': Sys)
    requires WellPlanned(pending) && Loaded(pending, s, job) && job.txns != [] && AskedToConfirm(s.v.log, job)
    requires s.v.jobs[job.id].confirmed == 0 && Unfinished(s.v.jobs[job.id], job, 0)
    requires s.v.task.jobIndex + 1 < |s.v.task.pending|
    ensures Reached(pending, s') && MovedOn(s.v, s'.v)
    ensures s'.delivered == s.delivered && s'.reserved == s.reserved
  {
    var s1 := ConfirmedRest(pending, s, job, 0);
    s' := FinishRest(pending, s1, job, 0);
  }

  lemma UntriedStays(s: Sys, s': Sys, job: Job, other: Job)
    requires Untried(s, other) && other.id != job.id
    requires s'.delivered == s.delivered + {job.id} && ReservesFrom(s, s', job, 0)
    ensures Untried(s', other)
  {
  }

  /** A job with transactions can be completed, and the next one is ready. */
  lemma CompleteJob(pending: seq<Job>, s: Sys, p: nat) returns (s': Sys)
    requires WellPlanned(pending) && Ready(pending, s, p) && pending[p].txns != [] && p + 1 < |pending|
    ensures Ready(pending, s', p + 1)
  {
    var s1 := FirstPhase(pending, s, p);
    s' := SecondPhase(pending, s1, pending[p]);
    forall q | p + 1 <= q < |pending| ensures Untried(s', pending[q]) {
      UntriedStays(s, s', pending[p], pending[q]);
    }
  }

  /** Every job that has only jobs with transactions before it can be reached. */
  lemma {:induction false} ReachJob(pending: seq<Job>, p: nat) returns (s: Sys)
    requires WellPlanned(pending) && p < |pending|
    requires forall q :: 0 <= q < p ==> pending[q].txns != []
    ensures Ready(pending, s, p)
  {
    if p == 0 {
      s := Initial(pending);
      ReachedStart(pending);
    } else {
      s := ReachJob(pending, p - 1);
      s := CompleteJob(pending, s, p - 1);
    }
  }
}
