/**
 * The two-phase barrier.  Until a cancel of its job has been handled, confirm handlers run only after every
 * transaction of the job has reserved; and in every run whatsoever a job is scheduled only after every transaction
 * of each earlier job has finished.  Losses, duplicates, reorderings, errors and late timers are all allowed.
 */
module Barrier {
  import opened Tcc
  import opened TccFacts
  import opened Scheduling
  import opened Coordination

  // ---- the counter of a job ----

  function Conf(r: JobRes): set<Id> {
    set x | x in r.joining && r.joining[x].confirmed > 0
  }

  function Fin(r: JobRes): set<Id> {
    set x | x in r.joining && r.joining[x].finished > 0
  }

  /** All transactions have acknowledged the reservation. */
  ghost predicate Reserved(r: JobRes) {
    Conf(r) == r.joining.Keys
  }

  /** The shared counter counts reservations until all are in, and from then on completions. */
  ghost predicate Counted(r: JobRes) {
    if Reserved(r) then r.confirmed == |Fin(r)| else r.confirmed == |Conf(r)| && Fin(r) == {}
  }

  /** A transaction's timer retries what its phase asks for, and is gone once the answer is in. */
  ghost predicate TimerFits(r: JobRes, x: Id, tm: Timer) {
    && x !in Fin(r)
    && if Reserved(r) then tm.retry == AskFinish else tm.retry == AskReserve && x !in Conf(r)
  }

  ghost predicate JobOk(r: JobRes, timers: map<Id, Timer>, reserved: set<Party>, confirmed: set<Party>) {
    && Counted(r)
    && (forall x :: x in Conf(r) ==> Party(r.job.id, x) in reserved)
    && (forall x :: x in Fin(r) ==> Party(r.job.id, x) in confirmed)
    && (forall x :: x in r.joining && x in timers ==> TimerFits(r, x, timers[x]))
    && (Reserved(r) ==> forall x :: x in r.joining && x !in Fin(r) ==> r.joining[x].state == Confirmed)
    && (AllFinished(r) ==> r.job.id !in timers)
  }

  ghost predicate AllFinished(r: JobRes) {
    Fin(r) == r.joining.Keys && Fin(r) != {}
  }

  /** `r` is a resource of a well-formed job. */
  ghost predicate Sound(r: JobRes) {
    && r.joining.Keys == TxnIds(r.job) && r.joinParties == |r.job.txns|
    && DistinctTxns(r.job.txns) && r.job.id !in TxnIds(r.job)
  }

  lemma PartiesCount(r: JobRes)
    requires Sound(r)
    ensures r.joinParties == |r.joining.Keys|
  {
    IdsCount(r.job.txns, |r.job.txns|);
  }

  // ---- acknowledgements ----

  lemma ConfGrows(r: JobRes, x: Id)
    requires x in r.joining && x !in Conf(r)
    ensures var r' := Join(r, x, Confirmed).0;
            SameParties(r, r') && Conf(r') == Conf(r) + {x} && Fin(r') == Fin(r) && r'.confirmed == r.confirmed + 1
  {
  }

  /** A reservation is counted once; it completes the phase exactly when it is the last. */
  lemma JoinReservation(r: JobRes, x: Id)
    requires Sound(r) && Counted(r) && x in r.joining
    ensures var (r', complete) := Join(r, x, Confirmed);
            && SameParties(r, r')
            && (x in Conf(r) ==> r' == r && !complete)
            && (x !in Conf(r) ==> Conf(r') == Conf(r) + {x} && Fin(r') == {} && r'.confirmed == |Conf(r')|)
            && (x !in Conf(r) ==> (complete <==> Reserved(r')) && r'.joining[x].state == Confirmed)
  {
    if x !in Conf(r) {
      var r' := Join(r, x, Confirmed).0;
      ConfGrows(r, x);
      PartiesCount(r);
      if |Conf(r')| == |r'.joining.Keys| {
        SubsetFull(Conf(r'), r'.joining.Keys);
      }
    }
  }

  lemma FinGrows(r: JobRes, x: Id)
    requires x in r.joining && x !in Fin(r)
    ensures var r' := Join(r, x, Finished).0;
            SameParties(r, r') && Fin(r') == Fin(r) + {x} && Conf(r') == Conf(r) && r'.confirmed == r.confirmed + 1
  {
  }

  /** So is a completion, in the second phase. */
  lemma JoinCompletion(r: JobRes, x: Id)
    requires Sound(r) && Counted(r) && Reserved(r) && x in r.joining
    ensures var (r', complete) := Join(r, x, Finished);
            && SameParties(r, r') && Reserved(r') && Counted(r')
            && (x in Fin(r) ==> r' == r && !complete)
            && (x !in Fin(r) ==> Fin(r') == Fin(r) + {x} && (complete <==> Fin(r') == r'.joining.Keys))
            && (x !in Fin(r) ==> r'.joining[x].state == Finished)
  {
    if x !in Fin(r) {
      var r' := Join(r, x, Finished).0;
      FinGrows(r, x);
      PartiesCount(r);
      if |Fin(r')| == |r'.joining.Keys| {
        SubsetFull(Fin(r'), r'.joining.Keys);
      }
    }
  }

  lemma MarkKeepsCounts(r: JobRes, state: State)
    requires Sound(r)
    ensures var r' := r.(confirmed := 0, joining := Mark(r.joining, r.job.txns, state, |r.job.txns|));
            && SameParties(r, r') && Conf(r') == Conf(r) && Fin(r') == Fin(r)
            && forall x :: x in r'.joining ==> r'.joining[x].state == state
  {
    MarkSpec(r.joining, r.job.txns, state, |r.job.txns|);
  }

  // ---- what a handler does to its job, whatever the state ----

  ghost predicate TimersAlike(timers: map<Id, Timer>, timers': map<Id, Timer>, own: set<Id>) {
    forall x :: x !in own ==> (x in timers <==> x in timers') && (x in timers ==> timers[x] == timers'[x])
  }

  /** Completions are never forgotten and other jobs keep their timers. */
  ghost predicate Frames(v: View, v': View, job: Id) {
    && job in v.jobs && job in v'.jobs
    && Fin(v.jobs[job]) <= Fin(v'.jobs[job])
    && TimersAlike(v.timers, v'.timers, TxnIds(v.jobs[job].job) + {job})
  }

  lemma AskAllFrames(v: View, r: JobRes, state: State)
    requires Sound(r) && r.job.id in v.jobs && SameParties(v.jobs[r.job.id], r) && Fin(v.jobs[r.job.id]) <= Fin(r)
    ensures Frames(v, AskAllToFinish(v, r, state), r.job.id)
  {
    MarkKeepsCounts(r, state);
    ArmKeys(v.timers, r.job.txns, AskFinish, |r.job.txns|);
  }

  lemma JoinFrames(r: JobRes, x: Id, state: State)
    requires x in r.joining
    ensures var r' := Join(r, x, state).0; SameParties(r, r') && Fin(r) <= Fin(r') && Conf(r) <= Conf(r')
  {
  }

  lemma ConfirmFrames(v: View, job: Id, x: Id)
    requires Whole(v, job) && Sound(v.jobs[job]) && x in v.jobs[job].joining
    ensures Frames(v, OnConfirmed(v, job, x), job)
  {
    JoinFrames(v.jobs[job], x, Confirmed);
    var (r, complete) := Join(v.jobs[job], x, Confirmed);
    if complete {
      AskAllFrames(v.(timers := v.timers - {x}), r, Confirmed);
    }
  }

  lemma FinishFrames(v: View, job: Id, x: Id)
    requires Whole(v, job) && Sound(v.jobs[job]) && x in v.jobs[job].joining
    ensures Frames(v, OnFinished(v, job, x), job)
  {
    JoinFrames(v.jobs[job], x, Finished);
    var (r, complete) := Join(v.jobs[job], x, Finished);
    if complete {
      FinishJobEffect(v.(timers := v.timers - {x}), r);
    }
  }

  lemma CancelFrames(v: View, job: Id, x: Id)
    requires Whole(v, job) && Sound(v.jobs[job]) && x in v.jobs[job].joining
    ensures Frames(v, OnCanceled(v, job, x), job)
  {
    var r := v.jobs[job];
    var r' := r.(canceled := true, joining := r.joining[x := r.joining[x].(canceled := true)]);
    assert Fin(r') == Fin(r);
    AskAllFrames(v.(task := v.task.(jobIndex := |v.task.pending|, canceled := true),
                    timers := v.timers - {x}, log := v.log + [SawCancel(job, x)]), r', Canceled);
  }

  lemma StopFrames(v: View, job: Id)
    requires Whole(v, job) && Sound(v.jobs[job])
    ensures Frames(v, OnJobTimeout(v, job), job)
  {
    var r := v.jobs[job];
    CloseSpec(v.timers - {job}, r.job.txns, |r.job.txns|);
    assert Fin(r.(canceled := true)) == Fin(r);
  }

  lemma HandleFrames(v: View, u: Update)
    requires Known(v, u) && Whole(v, u.job) && Sound(v.jobs[u.job]) && !v.task.ended
    ensures Frames(v, Handle(v, u), u.job)
  {
    match u
    case Ack(job, txn, Confirmed) => ConfirmFrames(v, job, txn);
    case Ack(job, txn, Canceled) => CancelFrames(v, job, txn);
    case Ack(job, txn, Finished) => FinishFrames(v, job, txn);
    case Ack(job, txn, Reserving) =>
    case TxnTimeout(job, txn) =>
    case JobTimeout(job) => StopFrames(v, job);
  }

  lemma FinishJobEffect(v: View, r: JobRes)
    ensures var v' := FinishJob(v, r);
            && v'.jobs == v.jobs[r.job.id := r] && v'.timers == v.timers - {r.job.id}
            && (forall o :: o in v'.log && o !in v.log ==> !o.AskedFinish? && !o.SawCancel?)
  {
  }

  // ---- what it does to a job in order ----

  /** The job stays in order, never leaves a phase, and is asked to finish only in the second. */
  ghost predicate Keeps(v: View, v': View, job: Id, reserved: set<Party>, confirmed: set<Party>) {
    && job in v.jobs && job in v'.jobs && JobOk(v'.jobs[job], v'.timers, reserved, confirmed)
    && (Reserved(v.jobs[job]) ==> Reserved(v'.jobs[job]))
    && (forall o :: o in v'.log && o !in v.log && o.AskedFinish? ==> o.state == Confirmed && Reserved(v'.jobs[job]))
  }

  lemma ConfirmKeepsJob(v: View, job: Id, x: Id, reserved: set<Party>, confirmed: set<Party>)
    requires Whole(v, job) && Sound(v.jobs[job]) && x in v.jobs[job].joining
    requires JobOk(v.jobs[job], v.timers, reserved, confirmed) && Party(job, x) in reserved
    ensures Keeps(v, OnConfirmed(v, job, x), job, reserved, confirmed)
  {
    var r := v.jobs[job];
    JoinReservation(r, x);
    var (r', complete) := Join(r, x, Confirmed);
    if complete {
      CompleteReservation(v.(timers := v.timers - {x}), r', reserved, confirmed);
    }
  }

  lemma CompleteReservation(v: View, r: JobRes, reserved: set<Party>, confirmed: set<Party>)
    requires Sound(r) && Reserved(r) && Fin(r) == {}
    requires forall x :: x in Conf(r) ==> Party(r.job.id, x) in reserved
    ensures var v' := AskAllToFinish(v, r, Confirmed);
            && r.job.id in v'.jobs && JobOk(v'.jobs[r.job.id], v'.timers, reserved, confirmed)
            && Reserved(v'.jobs[r.job.id])
            && (forall o :: o in v'.log && o !in v.log ==> o.AskedFinish? && o.state == Confirmed)
  {
    var v', n := AskAllToFinish(v, r, Confirmed), |r.job.txns|;
    MarkKeepsCounts(r, Confirmed);
    FinishTimers(v.timers, r.job);
    SecondPhaseBegins(v'.jobs[r.job.id], v'.timers, reserved, confirmed);
    forall o | o in v'.log && o !in v.log ensures o.AskedFinish? && o.state == Confirmed {
      FinishAsksAre(r.job.id, r.job.txns, Confirmed, n, o);
    }
  }

  lemma FinishTimers(timers: map<Id, Timer>, job: Job)
    requires DistinctTxns(job.txns)
    ensures forall x :: x in TxnIds(job) && x in Arm(timers, job.txns, AskFinish, |job.txns|) ==>
              Arm(timers, job.txns, AskFinish, |job.txns|)[x].retry == AskFinish
  {
    var n := |job.txns|;
    forall x | x in TxnIds(job) && x in Arm(timers, job.txns, AskFinish, n)
      ensures Arm(timers, job.txns, AskFinish, n)[x].retry == AskFinish
    {
      InIds(job.txns, n, x);
      var i :| 0 <= i < n && job.txns[i].id == x;
      ArmAt(timers, job.txns, AskFinish, n, i);
    }
  }

  lemma SecondPhaseBegins(r: JobRes, timers: map<Id, Timer>, reserved: set<Party>, confirmed: set<Party>)
    requires Reserved(r) && Fin(r) == {} && r.confirmed == 0
    requires forall x :: x in Conf(r) ==> Party(r.job.id, x) in reserved
    requires forall x :: x in r.joining ==> r.joining[x].state == Confirmed
    requires forall x :: x in r.joining && x in timers ==> timers[x].retry == AskFinish
    ensures JobOk(r, timers, reserved, confirmed)
  {
  }

  lemma FinishKeepsJob(v: View, job: Id, x: Id, reserved: set<Party>, confirmed: set<Party>)
    requires Whole(v, job) && Sound(v.jobs[job]) && x in v.jobs[job].joining && Reserved(v.jobs[job])
    requires JobOk(v.jobs[job], v.timers, reserved, confirmed) && Party(job, x) in confirmed
    ensures Keeps(v, OnFinished(v, job, x), job, reserved, confirmed)
  {
    var r, w := v.jobs[job], v.(timers := v.timers - {x});
    JoinCompletion(r, x);
    var (r', complete) := Join(r, x, Finished);
    if complete {
      FinishJobEffect(w, r');
      CompletionKeepsOk(r, x, v.timers, w.timers - {job}, reserved, confirmed);
    } else {
      CompletionKeepsOk(r, x, v.timers, w.timers, reserved, confirmed);
    }
  }

  lemma CompletionKeepsOk(r: JobRes, x: Id, timers: map<Id, Timer>, timers': map<Id, Timer>,
                          reserved: set<Party>, confirmed: set<Party>)
    requires Sound(r) && x in r.joining && Reserved(r)
    requires JobOk(r, timers, reserved, confirmed) && Party(r.job.id, x) in confirmed
    requires x !in timers' && forall y :: y in timers' ==> y in timers && timers'[y] == timers[y]
    requires Join(r, x, Finished).1 ==> r.job.id !in timers'
    ensures JobOk(Join(r, x, Finished).0, timers', reserved, confirmed)
  {
    JoinCompletion(r, x);
  }

  lemma TimeoutKeepsJob(v: View, job: Id, x: Id, reserved: set<Party>, confirmed: set<Party>)
    requires Whole(v, job) && Sound(v.jobs[job]) && x in v.jobs[job].joining
    requires JobOk(v.jobs[job], v.timers, reserved, confirmed)
    ensures Keeps(v, OnTxnTimeout(v, job, x), job, reserved, confirmed)
  {
    var r, v' := v.jobs[job], OnTxnTimeout(v, job, x);
    RetryKeepsOk(r, v'.jobs[job], v.timers, v'.timers, reserved, confirmed);
  }

  /** Retry counters and timer budgets are no part of the order. */
  lemma RetryKeepsOk(r: JobRes, r': JobRes, timers: map<Id, Timer>, timers': map<Id, Timer>,
                     reserved: set<Party>, confirmed: set<Party>)
    requires JobOk(r, timers, reserved, confirmed) && SameParties(r, r') && r'.confirmed == r.confirmed
    requires forall x :: x in r.joining ==> r'.joining[x] == r.joining[x].(retried := r'.joining[x].retried)
    requires forall x :: x in timers' ==> x in timers && timers'[x].retry == timers[x].retry
    ensures Conf(r') == Conf(r) && Fin(r') == Fin(r) && JobOk(r', timers', reserved, confirmed)
  {
    assert Conf(r') == Conf(r) && Fin(r') == Fin(r);
  }

  lemma StopKeepsJob(v: View, job: Id, reserved: set<Party>, confirmed: set<Party>)
    requires Whole(v, job) && Sound(v.jobs[job]) && JobOk(v.jobs[job], v.timers, reserved, confirmed)
    ensures Keeps(v, OnJobTimeout(v, job), job, reserved, confirmed)
  {
    var r := v.jobs[job];
    CloseSpec(v.timers - {job}, r.job.txns, |r.job.txns|);
    RetryKeepsOk(r, r.(canceled := true), v.timers, OnJobTimeout(v, job).timers, reserved, confirmed);
  }

  // ---- the invariant of all runs ----

  /** No cancel of the job has been handled. */
  ghost predicate Untouched(v: View, job: Id) {
    forall x: Id :: SawCancel(job, x) !in v.log
  }

  ghost predicate JobsOk(s: Sys) {
    forall j :: j in s.v.jobs && Untouched(s.v, j) ==> JobOk(s.v.jobs[j], s.v.timers, s.reserved, s.confirmed)
  }

  /** Participants report success only of what their handlers did, and those run only when asked to. */
  ghost predicate Honest(s: Sys) {
    && (forall a :: a in s.acks && a.Ack? && a.state == Confirmed ==> Party(a.job, a.txn) in s.reserved)
    && (forall a :: a in s.acks && a.Ack? && a.state == Finished ==>
          Party(a.job, a.txn) in s.confirmed || Party(a.job, a.txn) in s.canceled)
    && (forall p :: p in s.confirmed ==> AskedFinish(p.job, p.txn, Confirmed) in s.v.log)
    && (forall p :: p in s.canceled ==> AskedFinish(p.job, p.txn, Canceled) in s.v.log)
  }

  /** Transactions of untouched jobs are asked to finish only with a confirm, and only when all have reserved. */
  ghost predicate AsksGuarded(v: View) {
    forall o :: o in v.log && o.AskedFinish? && Untouched(v, o.job) ==>
      o.state == Confirmed && o.job in v.jobs && Reserved(v.jobs[o.job])
  }

  /**
   * There are transactions and every one has finished, after its confirm handler ran.  A job without transactions is
   * never done: nobody acknowledges anything.
   */
  ghost predicate JobDone(s: Sys, job: Job) {
    && job.txns != []
    && job.id in s.v.jobs && Fin(s.v.jobs[job.id]) == s.v.jobs[job.id].joining.Keys
    && forall x :: x in s.v.jobs[job.id].joining ==> Party(job.id, x) in s.confirmed
  }

  /** Of the `k` scheduled jobs all but the last are done; the others are not loaded. */
  ghost predicate InStep(s: Sys, k: nat) {
    && (forall p :: 0 <= p < k - 1 && p < |s.v.task.pending| ==> JobDone(s, s.v.task.pending[p]))
    && (forall p :: k <= p < |s.v.task.pending| ==> s.v.task.pending[p].id !in s.v.jobs)
  }

  ghost predicate Inv(s: Sys, k: nat) {
    Linked(s) && JobsOk(s) && Honest(s) && AsksGuarded(s.v) && InStep(s, k) && Orderly(s.v, k)
  }

  lemma LinkedSound(s: Sys, j: Id)
    requires Linked(s) && j in s.v.jobs
    ensures Whole(s.v, j) && Sound(s.v.jobs[j])
  {
    assert Fits(s.v.task.pending, j, s.v.jobs[j]);
    var p :| 0 <= p < |s.v.task.pending| && s.v.task.pending[p] == s.v.jobs[j].job;
  }

  /** Timers of different jobs never meet. */
  lemma JobsApart(s: Sys, a: Id, b: Id)
    requires Linked(s) && a in s.v.jobs && b in s.v.jobs && a != b
    ensures TxnIds(s.v.jobs[a].job) !! TxnIds(s.v.jobs[b].job)
    ensures a !in TxnIds(s.v.jobs[b].job)
  {
    assert Fits(s.v.task.pending, a, s.v.jobs[a]) && Fits(s.v.task.pending, b, s.v.jobs[b]);
    var p :| 0 <= p < |s.v.task.pending| && s.v.task.pending[p] == s.v.jobs[a].job;
    var q :| 0 <= q < |s.v.task.pending| && s.v.task.pending[q] == s.v.jobs[b].job;
  }

  // ---- updates ----

  lemma UntouchedBefore(v: View, v': View, job: Id)
    requires v.log <= v'.log && Untouched(v', job)
    ensures Untouched(v, job)
  {
    assert forall o :: o in v.log ==> o in v'.log;
  }

  lemma UpdateKeeps(s: Sys, u: Update)
    requires Linked(s) && JobsOk(s) && Honest(s) && AsksGuarded(s.v)
    requires Enabled(s, DeliverUpdate(u)) && !s.v.task.ended && Untouched(Handle(s.v, u), u.job)
    requires Preserves(s.v, Handle(s.v, u), u.job)
    ensures Keeps(s.v, Handle(s.v, u), u.job, s.reserved, s.confirmed)
  {
    LinkedSound(s, u.job);
    UntouchedBefore(s.v, Handle(s.v, u), u.job);
    match u {
      case Ack(job, txn, Confirmed) => ConfirmKeepsJob(s.v, job, txn, s.reserved, s.confirmed);
      case Ack(job, txn, Finished) =>
        FinishedMeansConfirmed(s, job, txn);
        FinishKeepsJob(s.v, job, txn, s.reserved, s.confirmed);
      case TxnTimeout(job, txn) => TimeoutKeepsJob(s.v, job, txn, s.reserved, s.confirmed);
      case JobTimeout(job) => StopKeepsJob(s.v, job, s.reserved, s.confirmed);
      case Ack(_, _, Reserving) =>
      case Ack(job, txn, Canceled) => CancelTouches(s.v, job, txn);
    }
  }

  lemma CancelTouches(v: View, job: Id, txn: Id)
    requires job in v.jobs && txn in v.jobs[job].joining
    ensures !Untouched(OnCanceled(v, job, txn), job)
  {
    var log := OnCanceled(v, job, txn).log;
    assert log[|v.log|] == SawCancel(job, txn);
    assert SawCancel(job, txn) in log;
  }

  lemma FinishedMeansConfirmed(s: Sys, job: Id, txn: Id)
    requires Honest(s) && AsksGuarded(s.v) && Untouched(s.v, job) && Ack(job, txn, Finished) in s.acks
    ensures Party(job, txn) in s.confirmed && job in s.v.jobs && Reserved(s.v.jobs[job])
  {
    assert Party(job, txn) in s.canceled ==> AskedFinish(job, txn, Canceled) in s.v.log;
    assert Party(job, txn) in s.confirmed ==> AskedFinish(job, txn, Confirmed) in s.v.log;
  }

  /** A handler that keeps its own job in order keeps all of them. */
  lemma OthersStay(s: Sys, v': View, job: Id)
    requires Linked(s) && JobsOk(s) && Preserves(s.v, v', job) && Frames(s.v, v', job)
    requires Untouched(v', job) ==> Keeps(s.v, v', job, s.reserved, s.confirmed)
    ensures JobsOk(s.(v := v'))
  {
    forall j | j in v'.jobs && Untouched(v', j) ensures JobOk(v'.jobs[j], v'.timers, s.reserved, s.confirmed) {
      if j != job {
        UntouchedBefore(s.v, v', j);
        JobsApart(s, job, j);
        JobsApart(s, j, job);
        LinkedSound(s, j);
        assert JobOk(s.v.jobs[j], s.v.timers, s.reserved, s.confirmed);
      }
    }
  }

  lemma AsksStayGuarded(s: Sys, v': View, job: Id)
    requires AsksGuarded(s.v) && Preserves(s.v, v', job)
    requires Untouched(v', job) ==> Keeps(s.v, v', job, s.reserved, s.confirmed)
    ensures AsksGuarded(v')
  {
    forall o | o in v'.log && o.AskedFinish? && Untouched(v', o.job)
      ensures o.state == Confirmed && o.job in v'.jobs && Reserved(v'.jobs[o.job])
    {
      UntouchedBefore(s.v, v', o.job);
      if o !in s.v.log {
        assert IsAsk(o);
      }
    }
  }

  lemma HonestStays(s: Sys, v': View)
    requires Honest(s) && s.v.log <= v'.log
    ensures Honest(s.(v := v'))
  {
    forall p | p in s.confirmed ensures AskedFinish(p.job, p.txn, Confirmed) in v'.log {
      assert AskedFinish(p.job, p.txn, Confirmed) in s.v.log;
    }
    forall p | p in s.canceled ensures AskedFinish(p.job, p.txn, Canceled) in v'.log {
      assert AskedFinish(p.job, p.txn, Canceled) in s.v.log;
    }
  }

  // ---- moving on to the next job ----

  lemma StaysDone(s: Sys, v': View, job: Id, done: Job)
    requires JobDone(s, done) && Preserves(s.v, v', job) && Frames(s.v, v', job)
    ensures JobDone(s.(v := v'), done)
  {
    assert SameParties(s.v.jobs[done.id], v'.jobs[done.id]);
  }

  lemma SameJobInStep(s: Sys, v': View, job: Id, k: nat)
    requires InStep(s, k) && Preserves(s.v, v', job) && Frames(s.v, v', job)
    ensures InStep(s.(v := v'), k)
  {
    forall p | 0 <= p < k - 1 && p < |v'.task.pending| ensures JobDone(s.(v := v'), v'.task.pending[p]) {
      StaysDone(s, v', job, s.v.task.pending[p]);
    }
  }

  lemma CompletionFinishesAll(v: View, job: Id, txn: Id, reserved: set<Party>, confirmed: set<Party>)
    requires Whole(v, job) && Sound(v.jobs[job]) && txn in v.jobs[job].joining && Reserved(v.jobs[job])
    requires JobOk(v.jobs[job], v.timers, reserved, confirmed) && Party(job, txn) in confirmed
    requires Join(v.jobs[job], txn, Finished).1
    ensures var r, r' := v.jobs[job], OnFinished(v, job, txn).jobs[job];
            && Fin(r) != r.joining.Keys && Fin(r') == r'.joining.Keys
            && forall x :: x in r'.joining ==> Party(job, x) in confirmed
  {
    JoinCompletion(v.jobs[job], txn);
    FinishKeepsJob(v, job, txn, reserved, confirmed);
  }

  /** A completing acknowledgement makes its job done, which it was not before. */
  lemma CompletionIsDone(s: Sys, job: Id, txn: Id)
    requires Linked(s) && JobsOk(s) && Honest(s) && AsksGuarded(s.v) && Untouched(s.v, job)
    requires Known(s.v, Ack(job, txn, Finished)) && Ack(job, txn, Finished) in s.acks
    requires Join(s.v.jobs[job], txn, Finished).1 && !s.v.task.ended
    ensures var r := s.v.jobs[job];
            !JobDone(s, r.job) && JobDone(s.(v := Handle(s.v, Ack(job, txn, Finished))), r.job)
  {
    LinkedSound(s, job);
    FinishedMeansConfirmed(s, job, txn);
    LastCompletion(s, job, txn);
  }

  lemma LastCompletion(s: Sys, job: Id, txn: Id)
    requires Whole(s.v, job) && Sound(s.v.jobs[job]) && txn in s.v.jobs[job].joining && Reserved(s.v.jobs[job])
    requires JobOk(s.v.jobs[job], s.v.timers, s.reserved, s.confirmed) && Party(job, txn) in s.confirmed
    requires Join(s.v.jobs[job], txn, Finished).1 && !s.v.task.ended
    ensures var r := s.v.jobs[job];
            !JobDone(s, r.job) && JobDone(s.(v := Handle(s.v, Ack(job, txn, Finished))), r.job)
  {
    InIds(s.v.jobs[job].job.txns, |s.v.jobs[job].job.txns|, txn);
    CompletionFinishesAll(s.v, job, txn, s.reserved, s.confirmed);
  }

  /** A job that is loaded and not done is the last one scheduled. */
  lemma UndoneIsCurrent(s: Sys, job: Id, k: nat)
    requires Linked(s) && InStep(s, k) && job in s.v.jobs && !JobDone(s, s.v.jobs[job].job)
    ensures 1 <= k <= |s.v.task.pending| && s.v.task.pending[k - 1] == s.v.jobs[job].job
  {
    assert Fits(s.v.task.pending, job, s.v.jobs[job]);
    var q :| 0 <= q < |s.v.task.pending| && s.v.task.pending[q] == s.v.jobs[job].job;
    assert !JobDone(s, s.v.task.pending[q]);
  }

  lemma UpdateInStep(s: Sys, v': View, job: Id, k: nat, advances: bool)
    requires InStep(s, k) && Preserves(s.v, v', job) && Frames(s.v, v', job)
    requires advances ==> 1 <= k <= |s.v.task.pending| && JobDone(s.(v := v'), s.v.task.pending[k - 1])
    ensures InStep(s.(v := v'), if advances then k + 1 else k)
  {
    SameJobInStep(s, v', job, k);
    if advances {
      NextJobInStep(s.(v := v'), k);
    }
  }

  lemma NextJobInStep(s: Sys, k: nat)
    requires InStep(s, k) && 1 <= k <= |s.v.task.pending| && JobDone(s, s.v.task.pending[k - 1])
    ensures InStep(s, k + 1)
  {
  }

  lemma InvCarries(s: Sys, v': View, job: Id)
    requires Linked(s) && JobsOk(s) && Honest(s) && AsksGuarded(s.v)
    requires Preserves(s.v, v', job) && Frames(s.v, v', job)
    requires Untouched(v', job) ==> Keeps(s.v, v', job, s.reserved, s.confirmed)
    ensures JobsOk(s.(v := v')) && Honest(s.(v := v')) && AsksGuarded(v')
  {
    OthersStay(s, v', job);
    AsksStayGuarded(s, v', job);
    HonestStays(s, v');
  }

  lemma UpdateKeepsJobs(s: Sys, u: Update)
    requires Linked(s) && JobsOk(s) && Honest(s) && AsksGuarded(s.v)
    requires Enabled(s, DeliverUpdate(u)) && !s.v.task.ended
    ensures var v' := Handle(s.v, u); JobsOk(s.(v := v')) && Honest(s.(v := v')) && AsksGuarded(v')
  {
    LinkedSound(s, u.job);
    HandlePreserves(s.v, u);
    HandleFrames(s.v, u);
    if Untouched(Handle(s.v, u), u.job) {
      UpdateKeeps(s, u);
    }
    InvCarries(s, Handle(s.v, u), u.job);
  }

  /** The completion that starts the next job finds the current one done. */
  lemma AdvanceIsDone(s: Sys, job: Id, txn: Id, k: nat)
    requires Inv(s, k) && Known(s.v, Ack(job, txn, Finished)) && Ack(job, txn, Finished) in s.acks
    requires Advances(s.v, Ack(job, txn, Finished))
    ensures 1 <= k <= |s.v.task.pending|
    ensures JobDone(s.(v := Handle(s.v, Ack(job, txn, Finished))), s.v.task.pending[k - 1])
  {
    NoCancelYet(s.v, job, k);
    CompletionIsDone(s, job, txn);
    UndoneIsCurrent(s, job, k);
  }

  lemma NoCancelYet(v: View, job: Id, k: nat)
    requires Orderly(v, k) && v.task.jobIndex < |v.task.pending|
    ensures Untouched(v, job)
  {
  }

  lemma UpdateKeepsStep(s: Sys, u: Update, k: nat)
    requires Linked(s) && InStep(s, k) && Known(s.v, u) && !s.v.task.ended
    requires Advances(s.v, u) ==>
               1 <= k <= |s.v.task.pending| && JobDone(s.(v := Handle(s.v, u)), s.v.task.pending[k - 1])
    ensures InStep(s.(v := Handle(s.v, u)), if Advances(s.v, u) then k + 1 else k)
  {
    LinkedSound(s, u.job);
    HandlePreserves(s.v, u);
    HandleFrames(s.v, u);
    UpdateInStep(s, Handle(s.v, u), u.job, k, Advances(s.v, u));
  }

  lemma AdvanceKeepsStep(s: Sys, u: Update, k: nat)
    requires Inv(s, k) && Enabled(s, DeliverUpdate(u)) && Advances(s.v, u)
    ensures InStep(s.(v := Handle(s.v, u)), k + 1)
  {
    assert u == Ack(u.job, u.txn, Finished);
    AdvanceIsDone(s, u.job, u.txn, k);
    UpdateKeepsStep(s, u, k);
  }

  lemma LiveUpdateKeepsInv(s: Sys, u: Update, k: nat) returns (k': nat)
    requires Inv(s, k) && Enabled(s, DeliverUpdate(u)) && !s.v.task.ended
    ensures Inv(s.(v := Handle(s.v, u)), k')
  {
    if Advances(s.v, u) {
      AdvanceKeepsStep(s, u, k);
    } else {
      UpdateKeepsStep(s, u, k);
    }
    UpdateStaysLinked(s, u);
    UpdateKeepsJobs(s, u);
    k' := HandleIsOrderly(s.v, u, k);
  }

  lemma UpdateKeepsInv(s: Sys, u: Update, k: nat) returns (k': nat)
    requires Inv(s, k) && Enabled(s, DeliverUpdate(u))
    ensures Inv(Apply(s, DeliverUpdate(u)), k')
  {
    if s.v.task.ended {
      k' := k;
      assert Apply(s, DeliverUpdate(u)) == s;
    } else {
      k' := LiveUpdateKeepsInv(s, u, k);
    }
  }

  // ---- a job leaves the channel ----

  lemma {:induction false} InSchedules(log: seq<Out>, j: Id)
    requires Scheduled(j) in log
    ensures j in Schedules(log)
  {
    if log[|log| - 1] != Scheduled(j) {
      assert Scheduled(j) in log[..|log| - 1];
      InSchedules(log[..|log| - 1], j);
    }
  }

  /** Only the last scheduled job can still be waiting in the channel. */
  lemma ScheduledIsDue(s: Sys, p: nat, k: nat)
    requires InStep(s, k) && Orderly(s.v, k) && WellPlanned(s.v.task.pending)
    requires p < |s.v.task.pending| && Scheduled(s.v.task.pending[p].id) in s.v.log
    ensures p < k
    ensures s.v.task.pending[p].id !in s.v.jobs ==> p == k - 1
  {
    var v := s.v;
    InSchedules(v.log, v.task.pending[p].id);
    var ids := JobIds(v.task.pending, k);
    var i :| 0 <= i < |ids| && ids[i] == v.task.pending[p].id;
    assert i == p;
    assert p < k - 1 ==> JobDone(s, v.task.pending[p]);
  }

  lemma StartedJobOk(s: Sys, p: nat)
    requires Linked(s) && Enabled(s, DeliverJob(p))
    ensures var s', job := Apply(s, DeliverJob(p)), s.v.task.pending[p];
            JobOk(s'.v.jobs[job.id], s'.v.timers, s.reserved, s.confirmed)
  {
    var s', job := Apply(s, DeliverJob(p)), s.v.task.pending[p];
    var r, n := s'.v.jobs[job.id], |job.txns|;
    EnlistSpec(job.txns, n);
    assert Conf(r) == {} && Fin(r) == {};
    forall x | x in r.joining && x in s'.v.timers ensures TimerFits(r, x, s'.v.timers[x]) {
      InIds(job.txns, n, x);
      var i :| 0 <= i < n && job.txns[i].id == x;
      ArmAt(s.v.timers[job.id := Timer(None, 0, 0)], job.txns, AskReserve, n, i);
      assert x !in Conf(r);
    }
  }

  lemma JobNotPlanned(s: Sys, p: nat, j: Id)
    requires Linked(s) && p < |s.v.task.pending| && j in s.v.jobs && j != s.v.task.pending[p].id
    ensures TxnIds(s.v.task.pending[p]) !! s.v.jobs[j].joining.Keys && j !in TxnIds(s.v.task.pending[p])
    ensures s.v.task.pending[p].id !in s.v.jobs[j].joining
  {
    assert Fits(s.v.task.pending, j, s.v.jobs[j]);
    var q :| 0 <= q < |s.v.task.pending| && s.v.task.pending[q] == s.v.jobs[j].job;
    assert TxnIds(s.v.task.pending[p]) !! TxnIds(s.v.task.pending[q]);
  }

  lemma StartedApart(s: Sys, p: nat, j: Id)
    requires Linked(s) && Enabled(s, DeliverJob(p)) && j in s.v.jobs && j != s.v.task.pending[p].id
    ensures var v' := Start(s.v, s.v.task.pending[p]);
            v'.jobs[j] == s.v.jobs[j]
            && (j in s.v.timers <==> j in v'.timers)
            && forall x :: x in s.v.jobs[j].joining ==>
                 (x in s.v.timers <==> x in v'.timers) && (x in s.v.timers ==> s.v.timers[x] == v'.timers[x])
  {
    var job := s.v.task.pending[p];
    JobNotPlanned(s, p, j);
    ArmKeys(s.v.timers[job.id := Timer(None, 0, 0)], job.txns, AskReserve, |job.txns|);
  }

  lemma StartKeepsJobs(s: Sys, p: nat)
    requires Linked(s) && JobsOk(s) && Enabled(s, DeliverJob(p))
    ensures JobsOk(Apply(s, DeliverJob(p)))
  {
    var s' := Apply(s, DeliverJob(p));
    StartedJobOk(s, p);
    forall j | j in s'.v.jobs && Untouched(s'.v, j)
      ensures JobOk(s'.v.jobs[j], s'.v.timers, s.reserved, s.confirmed)
    {
      if j != s.v.task.pending[p].id {
        UntouchedBefore(s.v, s'.v, j);
        StartedApart(s, p, j);
        assert JobOk(s.v.jobs[j], s.v.timers, s.reserved, s.confirmed);
      }
    }
  }

  lemma StartKeepsAsks(s: Sys, p: nat)
    requires Linked(s) && AsksGuarded(s.v) && Enabled(s, DeliverJob(p))
    ensures AsksGuarded(Apply(s, DeliverJob(p)).v)
  {
    var v', job := Start(s.v, s.v.task.pending[p]), s.v.task.pending[p];
    forall o | o in v'.log && o.AskedFinish? && Untouched(v', o.job)
      ensures o.state == Confirmed && o.job in v'.jobs && Reserved(v'.jobs[o.job])
    {
      ReserveAsksAre(job.id, job.txns, |job.txns|, o);
      assert o in s.v.log;
      UntouchedBefore(s.v, v', o.job);
    }
  }

  lemma StartKeepsInv(s: Sys, p: nat, k: nat)
    requires Inv(s, k) && Enabled(s, DeliverJob(p))
    ensures Inv(Apply(s, DeliverJob(p)), k)
  {
    var s', job := Apply(s, DeliverJob(p)), s.v.task.pending[p];
    StartStaysLinked(s, p);
    StartIsOrderly(s.v, job, k);
    ScheduledIsDue(s, p, k);
    StartKeepsJobs(s, p);
    StartKeepsAsks(s, p);
    HonestStays(s, s'.v);
    forall q | 0 <= q < k - 1 ensures JobDone(s', s.v.task.pending[q]) {
      assert JobDone(s, s.v.task.pending[q]);
    }
  }

  // ---- a participant reacts ----

  lemma MoreHandlersRan(r: JobRes, timers: map<Id, Timer>, reserved: set<Party>, confirmed: set<Party>,
                        reserved': set<Party>, confirmed': set<Party>)
    requires JobOk(r, timers, reserved, confirmed) && reserved <= reserved' && confirmed <= confirmed'
    ensures JobOk(r, timers, reserved', confirmed')
  {
  }

  lemma ReactIsHonest(s: Sys, ask: Out, succeeds: bool)
    requires Honest(s) && Enabled(s, HandleAsk(ask, succeeds))
    ensures var s' := React(s, ask, succeeds);
            Honest(s') && s'.v == s.v && s.reserved <= s'.reserved && s.confirmed <= s'.confirmed
  {
  }

  lemma ReactKeepsInv(s: Sys, ask: Out, succeeds: bool, k: nat)
    requires Inv(s, k) && Enabled(s, HandleAsk(ask, succeeds))
    ensures Inv(Apply(s, HandleAsk(ask, succeeds)), k)
  {
    var s' := React(s, ask, succeeds);
    ReactStaysLinked(s, ask, succeeds);
    ReactIsHonest(s, ask, succeeds);
    forall j | j in s'.v.jobs && Untouched(s'.v, j)
      ensures JobOk(s'.v.jobs[j], s'.v.timers, s'.reserved, s'.confirmed)
    {
      MoreHandlersRan(s.v.jobs[j], s.v.timers, s.reserved, s.confirmed, s'.reserved, s'.confirmed);
    }
    forall p | 0 <= p < k - 1 ensures JobDone(s', s.v.task.pending[p]) {
      assert JobDone(s, s.v.task.pending[p]);
    }
  }

  // ---- runs ----

  lemma StartInv(pending: seq<Job>)
    requires WellPlanned(pending)
    ensures Inv(Initial(pending), 1)
  {
    RunStaysLinked(pending, []);
    BeginIsOrderly(pending);
  }

  lemma {:induction false} RunKeepsInv(pending: seq<Job>, steps: seq<Step>) returns (k: nat)
    requires WellPlanned(pending)
    ensures Inv(Run(Initial(pending), steps), k)
  {
    if steps == [] {
      StartInv(pending);
      k := 1;
    } else {
      k := RunKeepsInv(pending, steps[..|steps| - 1]);
      var s, step := Run(Initial(pending), steps[..|steps| - 1]), steps[|steps| - 1];
      if Enabled(s, step) {
        match step {
          case DeliverJob(p) => StartKeepsInv(s, p, k);
          case DeliverUpdate(u) => k := UpdateKeepsInv(s, u, k);
          case HandleAsk(ask, succeeds) => ReactKeepsInv(s, ask, succeeds, k);
        }
      }
    }
  }

  /** The job has been asked to confirm, or some participant of it has confirmed, only if all of it has reserved. */
  ghost predicate BarrierKept(s: Sys, job: Job) {
    (exists x :: AskedFinish(job.id, x, Confirmed) in s.v.log || Party(job.id, x) in s.confirmed) ==>
      forall x :: x in TxnIds(job) ==> Party(job.id, x) in s.reserved
  }

  /**
   * The two-phase barrier.  In every run, as long as no cancel of the job has been handled, the job is asked to
   * confirm, and confirm handlers run, only if every transaction of it has reserved; and it is not asked to cancel.
   */
  lemma ConfirmWaitsForAllReservations(pending: seq<Job>, steps: seq<Step>, p: nat)
    requires WellPlanned(pending) && p < |pending|
    requires Untouched(Run(Initial(pending), steps).v, pending[p].id)
    ensures BarrierKept(Run(Initial(pending), steps), pending[p])
    ensures forall x :: AskedFinish(pending[p].id, x, Canceled) !in Run(Initial(pending), steps).v.log
  {
    var k := RunKeepsInv(pending, steps);
    RunStaysLinked(pending, steps);
    UntouchedKeepsBarrier(Run(Initial(pending), steps), p);
  }

  lemma UntouchedKeepsBarrier(s: Sys, p: nat)
    requires Linked(s) && JobsOk(s) && Honest(s) && AsksGuarded(s.v)
    requires p < |s.v.task.pending| && Untouched(s.v, s.v.task.pending[p].id)
    ensures BarrierKept(s, s.v.task.pending[p])
  {
    var job := s.v.task.pending[p];
    assert forall x :: Party(job.id, x) in s.confirmed ==> AskedFinish(job.id, x, Confirmed) in s.v.log;
    if x :| AskedFinish(job.id, x, Confirmed) in s.v.log {
      LoadedIsPlanned(s, p);
      assert JobOk(s.v.jobs[job.id], s.v.timers, s.reserved, s.confirmed);
      LinkedSound(s, job.id);
    }
  }

  /** A loaded job is the planned job with its id. */
  lemma LoadedIsPlanned(s: Sys, p: nat)
    requires Linked(s) && p < |s.v.task.pending| && s.v.task.pending[p].id in s.v.jobs
    ensures s.v.jobs[s.v.task.pending[p].id].job == s.v.task.pending[p]
  {
    var job := s.v.task.pending[p];
    assert Fits(s.v.task.pending, job.id, s.v.jobs[job.id]);
    var q :| 0 <= q < |s.v.task.pending| && s.v.task.pending[q] == s.v.jobs[job.id].job;
  }

  /**
   * In every run, also with errors and cancels, a job is scheduled only when every transaction of every earlier job
   * has acknowledged `TCC_FINISHED` and its confirm handler has run.
   */
  lemma NextJobWaitsForCompletion(pending: seq<Job>, steps: seq<Step>, p: nat, q: nat)
    requires WellPlanned(pending)
    requires p < q < |pending| && Scheduled(pending[q].id) in Run(Initial(pending), steps).v.log
    ensures var s := Run(Initial(pending), steps);
            && JobDone(s, pending[p])
            && forall x :: x in TxnIds(pending[p]) ==> Party(pending[p].id, x) in s.confirmed
  {
    var k := RunKeepsInv(pending, steps);
    RunStaysLinked(pending, steps);
    var s := Run(Initial(pending), steps);
    ScheduledIsDue(s, q, k);
    assert JobDone(s, s.v.task.pending[p]);
    DoneParties(s, p);
  }

  /** A finished job has no timer left, neither its own nor one of its transactions. */
  lemma FinishedJobHasNoTimer(pending: seq<Job>, steps: seq<Step>, p: nat)
    requires WellPlanned(pending) && p < |pending|
    requires Untouched(Run(Initial(pending), steps).v, pending[p].id)
    requires JobDone(Run(Initial(pending), steps), pending[p])
    ensures var timers := Run(Initial(pending), steps).v.timers;
            pending[p].id !in timers && forall x :: x in TxnIds(pending[p]) ==> x !in timers
  {
    var k := RunKeepsInv(pending, steps);
    RunStaysLinked(pending, steps);
    DoneHasNoTimer(Run(Initial(pending), steps), p);
  }

  lemma DoneHasNoTimer(s: Sys, p: nat)
    requires Linked(s) && JobsOk(s) && p < |s.v.task.pending|
    requires Untouched(s.v, s.v.task.pending[p].id) && JobDone(s, s.v.task.pending[p])
    ensures s.v.task.pending[p].id !in s.v.timers
    ensures forall x :: x in TxnIds(s.v.task.pending[p]) ==> x !in s.v.timers
  {
    var job := s.v.task.pending[p];
    DoneParties(s, p);
    LinkedSound(s, job.id);
    assert JobOk(s.v.jobs[job.id], s.v.timers, s.reserved, s.confirmed);
    assert job.txns[|job.txns| - 1].id in TxnIds(job);
  }

  lemma DoneParties(s: Sys, p: nat)
    requires Linked(s) && p < |s.v.task.pending| && JobDone(s, s.v.task.pending[p])
    ensures s.v.jobs[s.v.task.pending[p].id].joining.Keys == TxnIds(s.v.task.pending[p])
  {
    LoadedIsPlanned(s, p);
    LinkedSound(s, s.v.task.pending[p].id);
  }
}
