/**
 * The manager keeps the jobs and timers of all tasks in shared maps.  Running the single-task machine of `Tcc` on the
 * shared maps is the same as running it on the part that belongs to the task, and no other task notices.
 */
module Isolation {
  import opened Tcc

  /** The entries of `m` that belong to task `t`. */
  function Part<T>(m: map<Id, T>, owner: Id -> Id, t: Id): map<Id, T> {
    map x | x in m && owner(x) == t :: m[x]
  }

  /** What a view over the whole maps holds for task `t`. */
  function Restrict(g: View, owner: Id -> Id, t: Id): View {
    g.(jobs := Part(g.jobs, owner, t), timers := Part(g.timers, owner, t))
  }

  /** The ids of a job and its transactions belong to task `t`. */
  ghost predicate OwnJob(job: Job, owner: Id -> Id, t: Id) {
    owner(job.id) == t && forall i :: 0 <= i < |job.txns| ==> owner(job.txns[i].id) == t
  }

  ghost predicate OwnJobs(jobs: map<Id, JobRes>, owner: Id -> Id) {
    forall j :: j in jobs ==>
      && jobs[j].job.id == j && OwnJob(jobs[j].job, owner, owner(j))
      && forall x :: x in jobs[j].joining ==> owner(x) == owner(j)
  }

  lemma PartUpdate<T>(m: map<Id, T>, owner: Id -> Id, t: Id, x: Id, e: T)
    ensures Part(m[x := e], owner, t) == if owner(x) == t then Part(m, owner, t)[x := e] else Part(m, owner, t)
  {
  }

  lemma PartRemove<T>(m: map<Id, T>, owner: Id -> Id, t: Id, x: Id)
    ensures Part(m - {x}, owner, t) == if owner(x) == t then Part(m, owner, t) - {x} else Part(m, owner, t)
  {
  }

  lemma {:induction false} PartArm(m: map<Id, Timer>, txns: seq<Txn>, retry: Retry, k: nat,
                                   owner: Id -> Id, o: Id, t: Id)
    requires k <= |txns| && forall i :: 0 <= i < |txns| ==> owner(txns[i].id) == o
    ensures Part(Arm(m, txns, retry, k), owner, t)
         == if o == t then Arm(Part(m, owner, t), txns, retry, k) else Part(m, owner, t)
  {
    if k > 0 {
      PartArm(m, txns, retry, k - 1, owner, o, t);
      PartUpdate(Arm(m, txns, retry, k - 1), owner, t, txns[k - 1].id,
                 Timer(retry, txns[k - 1].timeout, txns[k - 1].retries));
    }
  }

  lemma {:induction false} PartClose(m: map<Id, Timer>, txns: seq<Txn>, k: nat, owner: Id -> Id, o: Id, t: Id)
    requires k <= |txns| && forall i :: 0 <= i < |txns| ==> owner(txns[i].id) == o
    ensures Part(Close(m, txns, k), owner, t)
         == if o == t then Close(Part(m, owner, t), txns, k) else Part(m, owner, t)
  {
    if k > 0 {
      PartClose(m, txns, k - 1, owner, o, t);
      PartRemove(Close(m, txns, k - 1), owner, t, txns[k - 1].id);
    }
  }

  // ---- one operation on the whole maps is the same operation on the task's part ----

  /** From `g` to `g'` the part of `o` becomes `mine`, and no other part changes. */
  ghost predicate OnlyFor(g: View, g': View, owner: Id -> Id, o: Id, mine: View) {
    && Restrict(g', owner, o) == mine
    && (forall t :: t != o ==> Part(g'.jobs, owner, t) == Part(g.jobs, owner, t))
    && (forall t :: t != o ==> Part(g'.timers, owner, t) == Part(g.timers, owner, t))
  }

  lemma StartIsLocal(g: View, job: Job, owner: Id -> Id, o: Id)
    requires OwnJob(job, owner, o)
    ensures OnlyFor(g, Start(g, job), owner, o, Start(Restrict(g, owner, o), job))
  {
    var n := |job.txns|;
    var r := JobRes(job, n, 0, false, Enlist(job.txns, n));
    forall t ensures Part(Start(g, job).timers, owner, t)
                  == if t == o then Start(Restrict(g, owner, o), job).timers else Part(g.timers, owner, t)
    {
      PartUpdate(g.timers, owner, t, job.id, Timer(None, 0, 0));
      PartArm(g.timers[job.id := Timer(None, 0, 0)], job.txns, AskReserve, n, owner, o, t);
    }
    forall t ensures Part(Start(g, job).jobs, owner, t)
                  == if t == o then Start(Restrict(g, owner, o), job).jobs else Part(g.jobs, owner, t)
    {
      PartUpdate(g.jobs, owner, t, job.id, r);
    }
  }

  lemma AskAllIsLocal(g: View, r: JobRes, state: State, owner: Id -> Id, o: Id)
    requires OwnJob(r.job, owner, o)
    ensures OnlyFor(g, AskAllToFinish(g, r, state), owner, o, AskAllToFinish(Restrict(g, owner, o), r, state))
  {
    var n := |r.job.txns|;
    var r' := r.(confirmed := 0, joining := Mark(r.joining, r.job.txns, state, n));
    forall t ensures Part(AskAllToFinish(g, r, state).timers, owner, t)
                  == if t == o then Arm(Part(g.timers, owner, o), r.job.txns, AskFinish, n)
                     else Part(g.timers, owner, t)
    {
      PartArm(g.timers, r.job.txns, AskFinish, n, owner, o, t);
    }
    forall t ensures Part(g.jobs[r.job.id := r'], owner, t)
                  == if t == o then Part(g.jobs, owner, t)[r.job.id := r'] else Part(g.jobs, owner, t)
    {
      PartUpdate(g.jobs, owner, t, r.job.id, r');
    }
  }

  /** Closing one's own timer. */
  lemma CloseIsLocal(g: View, x: Id, owner: Id -> Id, o: Id)
    requires owner(x) == o
    ensures OnlyFor(g, g.(timers := g.timers - {x}), owner, o,
                    Restrict(g, owner, o).(timers := Part(g.timers, owner, o) - {x}))
  {
    forall t ensures Part(g.timers - {x}, owner, t)
                  == if t == o then Part(g.timers, owner, t) - {x} else Part(g.timers, owner, t)
    {
      PartRemove(g.timers, owner, t, x);
    }
  }

  lemma PutIsLocal(g: View, r: JobRes, owner: Id -> Id, o: Id)
    requires owner(r.job.id) == o
    ensures OnlyFor(g, g.(jobs := g.jobs[r.job.id := r]), owner, o,
                    Restrict(g, owner, o).(jobs := Part(g.jobs, owner, o)[r.job.id := r]))
  {
    forall t ensures Part(g.jobs[r.job.id := r], owner, t)
                  == if t == o then Part(g.jobs, owner, t)[r.job.id := r] else Part(g.jobs, owner, t)
    {
      PartUpdate(g.jobs, owner, t, r.job.id, r);
    }
  }

  lemma ConfirmIsLocal(g: View, job: Id, txn: Id, owner: Id -> Id, o: Id)
    requires OwnJobs(g.jobs, owner) && job in g.jobs && txn in g.jobs[job].joining && owner(job) == o
    ensures OnlyFor(g, OnConfirmed(g, job, txn), owner, o, OnConfirmed(Restrict(g, owner, o), job, txn))
  {
    var h := g.(timers := g.timers - {txn});
    var (r, complete) := Join(g.jobs[job], txn, Confirmed);
    CloseIsLocal(g, txn, owner, o);
    if complete {
      AskAllIsLocal(h, r, Confirmed, owner, o);
    } else {
      PutIsLocal(h, r, owner, o);
    }
  }

  lemma FinishIsLocal(g: View, job: Id, txn: Id, owner: Id -> Id, o: Id)
    requires OwnJobs(g.jobs, owner) && job in g.jobs && txn in g.jobs[job].joining && owner(job) == o
    ensures OnlyFor(g, OnFinished(g, job, txn), owner, o, OnFinished(Restrict(g, owner, o), job, txn))
  {
    var h := g.(timers := g.timers - {txn});
    var (r, complete) := Join(g.jobs[job], txn, Finished);
    CloseIsLocal(g, txn, owner, o);
    PutIsLocal(h, r, owner, o);
    if complete {
      CloseIsLocal(h.(jobs := h.jobs[job := r]), job, owner, o);
    }
  }

  lemma CancelIsLocal(g: View, job: Id, txn: Id, owner: Id -> Id, o: Id)
    requires OwnJobs(g.jobs, owner) && job in g.jobs && txn in g.jobs[job].joining && owner(job) == o
    ensures OnlyFor(g, OnCanceled(g, job, txn), owner, o, OnCanceled(Restrict(g, owner, o), job, txn))
  {
    var r := g.jobs[job];
    var r' := r.(canceled := true, joining := r.joining[txn := r.joining[txn].(canceled := true)]);
    var h := g.(task := g.task.(jobIndex := |g.task.pending|, canceled := true),
                timers := g.timers - {txn}, log := g.log + [SawCancel(job, txn)]);
    CloseIsLocal(g, txn, owner, o);
    AskAllIsLocal(h, r', Canceled, owner, o);
  }

  /** Replacing one's own timer. */
  lemma RearmIsLocal(g: View, x: Id, tm: Timer, owner: Id -> Id, o: Id)
    requires owner(x) == o
    ensures OnlyFor(g, g.(timers := g.timers[x := tm]), owner, o,
                    Restrict(g, owner, o).(timers := Part(g.timers, owner, o)[x := tm]))
  {
    forall t ensures Part(g.timers[x := tm], owner, t)
                  == if t == o then Part(g.timers, owner, t)[x := tm] else Part(g.timers, owner, t)
    {
      PartUpdate(g.timers, owner, t, x, tm);
    }
  }

  lemma RetryIsLocal(g: View, job: Id, txn: Id, owner: Id -> Id, o: Id)
    requires job in g.jobs && g.jobs[job].job.id == job && txn in g.jobs[job].joining && owner(job) == owner(txn) == o
    requires txn in g.timers && g.timers[txn].delay > 0 && g.timers[txn].left > 0
    ensures OnlyFor(g, OnTxnTimeout(g, job, txn), owner, o, OnTxnTimeout(Restrict(g, owner, o), job, txn))
  {
    var tm, r := g.timers[txn], g.jobs[job];
    var r' := r.(joining := r.joining[txn := r.joining[txn].(retried := r.joining[txn].retried + 1)]);
    RearmIsLocal(g, txn, tm.(left := tm.left - 1), owner, o);
    PutIsLocal(g, r', owner, o);
  }

  lemma TimeoutIsLocal(g: View, job: Id, txn: Id, owner: Id -> Id, o: Id)
    requires OwnJobs(g.jobs, owner) && job in g.jobs && txn in g.jobs[job].joining && owner(job) == o
    ensures OnlyFor(g, OnTxnTimeout(g, job, txn), owner, o, OnTxnTimeout(Restrict(g, owner, o), job, txn))
  {
    if txn in g.timers {
      if g.timers[txn].delay > 0 && g.timers[txn].left > 0 {
        RetryIsLocal(g, job, txn, owner, o);
      } else {
        CloseIsLocal(g, txn, owner, o);
      }
    }
  }

  lemma StopIsLocal(g: View, job: Id, owner: Id -> Id, o: Id)
    requires OwnJobs(g.jobs, owner) && job in g.jobs && owner(job) == o
    ensures OnlyFor(g, OnJobTimeout(g, job), owner, o, OnJobTimeout(Restrict(g, owner, o), job))
  {
    var r := g.jobs[job];
    PutIsLocal(g, r.(canceled := true), owner, o);
    forall t ensures Part(OnJobTimeout(g, job).timers, owner, t)
                  == if t == o then Close(Part(g.timers, owner, o) - {job}, r.job.txns, |r.job.txns|)
                     else Part(g.timers, owner, t)
    {
      PartRemove(g.timers, owner, t, job);
      PartClose(g.timers - {job}, r.job.txns, |r.job.txns|, owner, o, t);
    }
  }

  /** Every event of task `o` acts on the part of `o` as the single-task machine does, and on no other part. */
  lemma HandleIsLocal(g: View, u: Update, owner: Id -> Id, o: Id)
    requires OwnJobs(g.jobs, owner) && Known(g, u) && owner(u.job) == o
    ensures Known(Restrict(g, owner, o), u)
    ensures OnlyFor(g, Handle(g, u), owner, o, Handle(Restrict(g, owner, o), u))
  {
    if !g.task.ended {
      match u
      case Ack(job, txn, Confirmed) => ConfirmIsLocal(g, job, txn, owner, o);
      case Ack(job, txn, Canceled) => CancelIsLocal(g, job, txn, owner, o);
      case Ack(job, txn, Finished) => FinishIsLocal(g, job, txn, owner, o);
      case Ack(job, txn, Reserving) =>
      case TxnTimeout(job, txn) => TimeoutIsLocal(g, job, txn, owner, o);
      case JobTimeout(job) => StopIsLocal(g, job, owner, o);
    }
  }
}
