/**
 * The task manager: an event loop over the maps that hold many tasks, their jobs and their timers.
 *
 * Each method is proved against the single-task machine of `Tcc`; by `Isolation` an event changes the view of its own
 * task as that machine says and leaves the view of every other task alone.
 */
module Manager {
  import opened Tcc
  import opened TccFacts
  import opened Isolation
  import opened Options
  import Coordination

  /** A submitted task: the optional validator job goes first. */
  datatype Task = Task(id: Id, validator: Option<Job>, jobs: seq<Job>)

  function Queue(task: Task): seq<Job> {
    (if task.validator.Some? then [task.validator.value] else []) + task.jobs
  }

  function JobSet(pending: seq<Job>, k: nat): set<Id>
    requires k <= |pending|
  {
    if k == 0 then {} else JobSet(pending, k - 1) + {pending[k - 1].id}
  }

  lemma {:induction false} InJobSet(pending: seq<Job>, k: nat, p: nat)
    requires p < k <= |pending|
    ensures pending[p].id in JobSet(pending, k)
  {
    if p < k - 1 {
      InJobSet(pending, k - 1, p);
    }
  }

  lemma {:induction false} JobSetOwned(pending: seq<Job>, k: nat, owner: Id -> Id, t: Id)
    requires k <= |pending| && forall p :: 0 <= p < |pending| ==> owner(pending[p].id) == t
    ensures forall x :: x in JobSet(pending, k) ==> owner(x) == t
  {
    if k > 0 {
      JobSetOwned(pending, k - 1, owner, t);
    }
  }

  /** A job and transaction ids are told apart by `isJob`. */
  ghost predicate Kinds(job: Job, isJob: Id -> bool) {
    isJob(job.id) && forall i :: 0 <= i < |job.txns| ==> !isJob(job.txns[i].id)
  }

  /** Job timers carry no retry. */
  ghost predicate PlainJobTimers(timers: map<Id, Timer>, isJob: Id -> bool) {
    forall x :: x in timers && isJob(x) ==> timers[x] == Timer(Retry.None, 0, 0)
  }

  lemma ArmKeepsJobTimers(timers: map<Id, Timer>, job: Job, retry: Retry, isJob: Id -> bool)
    requires Kinds(job, isJob) && PlainJobTimers(timers, isJob)
    ensures PlainJobTimers(Arm(timers, job.txns, retry, |job.txns|), isJob)
  {
    ArmKeys(timers, job.txns, retry, |job.txns|);
    forall x | x in Arm(timers, job.txns, retry, |job.txns|) && isJob(x)
      ensures x !in Ids(job.txns, |job.txns|)
    {
      InIds(job.txns, |job.txns|, x);
    }
  }

  lemma HandleKeepsJobTimers(g: View, u: Update, isJob: Id -> bool)
    requires Known(g, u) && Kinds(g.jobs[u.job].job, isJob) && PlainJobTimers(g.timers, isJob)
    ensures PlainJobTimers(Handle(g, u).timers, isJob)
  {
    if !g.task.ended {
      var job := g.jobs[u.job].job;
      match u {
        case Ack(_, txn, Confirmed) => ArmKeepsJobTimers(g.timers - {txn}, job, AskFinish, isJob);
        case Ack(_, txn, Canceled) => ArmKeepsJobTimers(g.timers - {txn}, job, AskFinish, isJob);
        case Ack(_, _, Finished) =>
        case Ack(_, _, Reserving) =>
        case TxnTimeout(_, _) =>
        case JobTimeout(j) => CloseSpec(g.timers - {j}, job.txns, |job.txns|);
      }
    }
  }

  /** A loaded job and its transactions belong to one task, and its parties are its transactions. */
  ghost predicate ValidJob(j: Id, r: JobRes, owner: Id -> Id, isJob: Id -> bool) {
    && r.job.id == j && r.joining.Keys == TxnIds(r.job)
    && OwnJob(r.job, owner, owner(j)) && Kinds(r.job, isJob)
  }

  ghost predicate ValidJobs(tjs: map<Id, JobRes>, owner: Id -> Id, isJob: Id -> bool) {
    forall j :: j in tjs ==> ValidJob(j, tjs[j], owner, isJob)
  }

  ghost predicate ValidTasks(trs: map<Id, TaskRes>, owner: Id -> Id) {
    forall t, p :: t in trs && 0 <= p < |trs[t].pending| ==> owner(trs[t].pending[p].id) == t
  }

  lemma JobsOwned(tjs: map<Id, JobRes>, owner: Id -> Id, isJob: Id -> bool)
    requires ValidJobs(tjs, owner, isJob)
    ensures OwnJobs(tjs, owner)
  {
    forall j | j in tjs
      ensures tjs[j].job.id == j && OwnJob(tjs[j].job, owner, owner(j))
      ensures forall x :: x in tjs[j].joining ==> owner(x) == owner(j)
    {
      assert ValidJob(j, tjs[j], owner, isJob);
      forall x | x in tjs[j].joining ensures owner(x) == owner(j) {
        InIds(tjs[j].job.txns, |tjs[j].job.txns|, x);
      }
    }
  }

  /** Every event keeps the jobs and the job timers valid, and the plan as it is. */
  lemma HandleStaysValid(g: View, u: Update, owner: Id -> Id, isJob: Id -> bool)
    requires Known(g, u) && ValidJobs(g.jobs, owner, isJob) && PlainJobTimers(g.timers, isJob)
    ensures ValidJobs(Handle(g, u).jobs, owner, isJob)
    ensures PlainJobTimers(Handle(g, u).timers, isJob) && Handle(g, u).task.pending == g.task.pending
  {
    var g' := Handle(g, u);
    assert ValidJob(u.job, g.jobs[u.job], owner, isJob);
    Coordination.HandlePreserves(g, u);
    HandleKeepsJobTimers(g, u, isJob);
    forall j | j in g'.jobs ensures ValidJob(j, g'.jobs[j], owner, isJob) {
      assert ValidJob(j, g.jobs[j], owner, isJob);
      assert Coordination.SameParties(g.jobs[j], g'.jobs[j]);
    }
  }

  ghost predicate Owned<T>(m: map<Id, T>, owner: Id -> Id, tasks: set<Id>) {
    forall x :: x in m ==> owner(x) in tasks
  }

  lemma ArmOwned(timers: map<Id, Timer>, job: Job, retry: Retry, owner: Id -> Id, t: Id, tasks: set<Id>)
    requires OwnJob(job, owner, t) && t in tasks && Owned(timers, owner, tasks)
    ensures Owned(Arm(timers, job.txns, retry, |job.txns|), owner, tasks)
  {
    ArmKeys(timers, job.txns, retry, |job.txns|);
    forall x | x in Arm(timers, job.txns, retry, |job.txns|) ensures owner(x) in tasks {
      if x !in timers {
        InIds(job.txns, |job.txns|, x);
      }
    }
  }

  /** Events make the manager hold nothing of another task. */
  lemma HandleOwned(g: View, u: Update, owner: Id -> Id, isJob: Id -> bool, tasks: set<Id>)
    requires Known(g, u) && ValidJobs(g.jobs, owner, isJob) && owner(u.job) in tasks
    requires Owned(g.jobs, owner, tasks) && Owned(g.timers, owner, tasks)
    ensures Owned(Handle(g, u).jobs, owner, tasks) && Owned(Handle(g, u).timers, owner, tasks)
  {
    assert ValidJob(u.job, g.jobs[u.job], owner, isJob);
    Coordination.HandlePreserves(g, u);
    if !g.task.ended {
      var job := g.jobs[u.job].job;
      match u {
        case Ack(_, txn, Confirmed) => ArmOwned(g.timers - {txn}, job, AskFinish, owner, owner(u.job), tasks);
        case Ack(_, txn, Canceled) => ArmOwned(g.timers - {txn}, job, AskFinish, owner, owner(u.job), tasks);
        case Ack(_, _, Finished) =>
        case Ack(_, _, Reserving) =>
        case TxnTimeout(_, _) =>
        case JobTimeout(j) => CloseSpec(g.timers - {j}, job.txns, |job.txns|);
      }
    }
  }

  /** All loaded jobs of the task are in its queue. */
  ghost predicate AllQueued(tjs: map<Id, JobRes>, pending: seq<Job>, owner: Id -> Id, t: Id) {
    forall j :: j in tjs && owner(j) == t ==> exists p :: 0 <= p < |pending| && pending[p].id == j
  }

  /** Removing the queued jobs of a task touches no other task, and removes all its jobs if all are queued. */
  lemma ClearTakesOneTask(tjs: map<Id, JobRes>, pending: seq<Job>, owner: Id -> Id, isJob: Id -> bool, t: Id)
    requires ValidJobs(tjs, owner, isJob) && forall p :: 0 <= p < |pending| ==> owner(pending[p].id) == t
    ensures var tjs' := tjs - JobSet(pending, |pending|);
            && ValidJobs(tjs', owner, isJob)
            && (AllQueued(tjs, pending, owner, t) ==> Part(tjs', owner, t) == map[])
            && forall x :: x != t ==> Part(tjs', owner, x) == Part(tjs, owner, x)
  {
    var n := |pending|;
    JobSetOwned(pending, n, owner, t);
    if AllQueued(tjs, pending, owner, t) {
      forall j | j in tjs && owner(j) == t ensures j in JobSet(pending, n) {
        var p :| 0 <= p < n && pending[p].id == j;
        InJobSet(pending, n, p);
      }
    }
    forall j | j in tjs - JobSet(pending, n) ensures ValidJob(j, tjs[j], owner, isJob) {
      assert ValidJob(j, tjs[j], owner, isJob);
    }
  }

  /**
   * A transaction timer fires although its job is not loaded: the retry goes on with the state that the timer's closure
   * has captured.
   */
  function OrphanTimeout(v: View, job: Id, txn: Id, captured: State): View {
    if txn !in v.timers then v
    else if v.timers[txn].delay > 0 && v.timers[txn].left > 0 then
      var tm := v.timers[txn];
      v.(timers := v.timers[txn := tm.(left := tm.left - 1)],
         log := v.log + match tm.retry
                        case None => []
                        case AskReserve => [AskedReserve(job, txn)]
                        case AskFinish => [AskedFinish(job, txn, captured)])
    else v.(timers := v.timers - {txn})
  }

  /** Timers and asks are those of a loaded job; only the count of its retries is missing. */
  lemma OrphanAsksAlike(v: View, job: Id, txn: Id)
    requires job in v.jobs && txn in v.jobs[job].joining
    ensures var v', captured := OnTxnTimeout(v, job, txn), v.jobs[job].joining[txn].state;
            OrphanTimeout(v.(jobs := map[]), job, txn, captured) == v'.(jobs := map[])
  {
  }

  lemma OrphanIsLocal(g: View, job: Id, txn: Id, captured: State, owner: Id -> Id, o: Id)
    requires owner(txn) == o
    ensures OnlyFor(g, OrphanTimeout(g, job, txn, captured), owner, o,
                    OrphanTimeout(Restrict(g, owner, o), job, txn, captured))
  {
    if txn in g.timers {
      var tm := g.timers[txn];
      if tm.delay > 0 && tm.left > 0 {
        RearmIsLocal(g, txn, tm.(left := tm.left - 1), owner, o);
      } else {
        CloseIsLocal(g, txn, owner, o);
      }
    }
  }

  /** The code follows a missing entry: the event names no loaded job, or no transaction of it, and needs one. */
  predicate Stray(v: View, u: Update) {
    && !v.task.ended && !Known(v, u)
    && match u
       case Ack(_, _, state) => state != Reserving
       case TxnTimeout(job, txn) =>
         job in v.jobs && txn in v.timers && v.timers[txn].delay > 0 && v.timers[txn].left > 0
       case JobTimeout(_) => false
  }

  /** Every event that does not stray: timers of jobs that are not loaded are retried or dropped. */
  function Absorb(v: View, u: Update, captured: State): View {
    if v.task.ended then v
    else if Known(v, u) then Handle(v, u)
    else match u
      case Ack(_, _, _) => v
      case TxnTimeout(job, txn) => OrphanTimeout(v, job, txn, captured)
      case JobTimeout(job) => v.(timers := v.timers - {job})
  }

  /** A timer that fires for a job that is not loaded is closed, or has asked its transaction once more. */
  lemma UnknownTimerIsSpent(v: View, u: Update, captured: State)
    requires !v.task.ended && !Known(v, u) && !Stray(v, u) && !u.Ack?
    ensures var v', x := Absorb(v, u, captured), if u.JobTimeout? then u.job else u.txn;
            && (x in v'.timers ==> u.TxnTimeout? && x in v.timers && v'.timers[x].left + 1 == v.timers[x].left)
            && (x in v'.timers && v.timers[x].retry != Retry.None ==> |v'.log| == |v.log| + 1)
            && (x !in v'.timers ==> v'.log == v.log)
            && v'.task == v.task && v'.jobs == v.jobs
  {
  }

  class TaskManager {
    var trs: map<Id, TaskRes>
    var tjs: map<Id, JobRes>
    var tms: map<Id, Timer>
    /** What has been sent for each task, in order. */
    var outbox: map<Id, seq<Out>>

    /** Ids are unique in the cluster: each belongs to one task, and is a job id or not. */
    ghost const owner: Id -> Id
    ghost const isJob: Id -> bool

    constructor (ghost owner: Id -> Id, ghost isJob: Id -> bool)
      ensures Valid() && trs == map[] && tjs == map[] && tms == map[] && outbox == map[]
      ensures this.owner == owner && this.isJob == isJob
    {
      trs, tjs, tms, outbox := map[], map[], map[], map[];
      this.owner, this.isJob := owner, isJob;
    }

    /** Also: whatever is held belongs to a task that has been admitted. */
    ghost predicate Valid()
      reads this
    {
      && ValidJobs(tjs, owner, isJob) && ValidTasks(trs, owner) && trs.Keys <= outbox.Keys
      && PlainJobTimers(tms, isJob)
      && Owned(tjs, owner, outbox.Keys) && Owned(tms, owner, outbox.Keys)
    }

    ghost predicate Resident(t: Id)
      reads this
    {
      t in trs && t in outbox
    }

    /** The single-task machine over the shared maps. */
    ghost function Shared(t: Id): View
      reads this
      requires Resident(t)
    {
      View(trs[t], tjs, tms, outbox[t])
    }

    /** What the manager holds for task `t`. */
    ghost function ViewOf(t: Id): View
      reads this
      requires Resident(t)
    {
      Restrict(Shared(t), owner, t)
    }

    twostate predicate OthersKept(t: Id)
      reads this
    {
      forall x :: x != t ==>
        && (x in trs <==> x in old(trs)) && (x in trs ==> trs[x] == old(trs[x]))
        && (x in outbox <==> x in old(outbox)) && (x in outbox ==> outbox[x] == old(outbox[x]))
    }

    // ---- timers ----

    method CloseTimer(x: Id)
      modifies `tms
      ensures tms == old(tms) - {x}
    {
      if x !in tms {
        return;
      }
      tms := tms - {x};
    }

    /** `timeout` of a transaction's timer. */
    method TimeoutTxn(t: Id, job: Id, txn: Id)
      requires Resident(t) && job in tjs && txn in tjs[job].joining
      modifies this
      ensures Resident(t) && Shared(t) == OnTxnTimeout(old(Shared(t)), job, txn) && OthersKept(t)
    {
      if txn !in tms {
        return;
      }
      var tm := tms[txn];
      if tm.delay > 0 && tm.left > 0 {
        var r, state := tjs[job], tjs[job].joining[txn].state;
        tjs := tjs[job := r.(joining := r.joining[txn := r.joining[txn].(retried := r.joining[txn].retried + 1)])];
        tms := tms[txn := tm.(left := tm.left - 1)];
        match tm.retry {
          case None => {}
          case AskReserve => outbox := outbox[t := outbox[t] + [AskedReserve(job, txn)]];
          case AskFinish => outbox := outbox[t := outbox[t] + [AskedFinish(job, txn, state)]];
        }
        return;
      }
      tms := tms - {txn};
    }

    /** `timeout` of a job's timer, which never retries. */
    method TimeoutJob(job: Id)
      requires PlainJobTimers(tms, isJob) && isJob(job)
      modifies `tms
      ensures tms == old(tms) - {job}
    {
      if job !in tms {
        return;
      }
      assert tms[job].delay == 0 && tms[job].left == 0;
      tms := tms - {job};
    }

    // ---- the branches of the event loop ----

    /**
     * A task arrives: `NewTaskResource` and `set`.  A resident task with the same id is overwritten and its jobs and
     * timers stay; a new task starts as the single-task machine does.
     */
    method Admit(task: Task)
      requires Valid() && task.jobs != []
      requires forall p :: 0 <= p < |Queue(task)| ==> owner(Queue(task)[p].id) == task.id
      modifies this
      ensures Valid() && Resident(task.id) && OthersKept(task.id) && tjs == old(tjs) && tms == old(tms)
      ensures var tr, sent := trs[task.id], outbox[task.id];
              && tr.jobIndex == 0 && !tr.canceled && !tr.ended
              && (task.validator.Some? ==> tr.pending == [task.validator.value] + task.jobs)
              && (task.validator.None? ==> tr.pending == task.jobs)
              && sent == (if task.id in old(outbox) then old(outbox[task.id]) else []) + [Scheduled(tr.pending[0].id)]
      ensures task.id !in old(outbox) ==> ViewOf(task.id) == Begin(Queue(task))
      ensures forall x :: x != task.id && Resident(x) ==> ViewOf(x) == old(ViewOf(x))
    {
      var pending: seq<Job> := [];
      if task.validator.Some? {
        pending := pending + [task.validator.value];
      }
      pending := pending + task.jobs;
      assert pending == Queue(task);
      var sent := if task.id in outbox then outbox[task.id] else [];
      trs := trs[task.id := TaskRes(pending, 0, false, false)];
      outbox := outbox[task.id := sent + [Scheduled(pending[0].id)]];
      assert task.id !in old(outbox) ==> Part(tjs, owner, task.id) == map[] && Part(tms, owner, task.id) == map[];
    }

    /** `start`: arm the timers, then ask every transaction to reserve. */
    method StartTxns(t: Id, job: Job)
      requires Resident(t)
      modifies this
      ensures Resident(t) && Shared(t) == Start(old(Shared(t)), job) && OthersKept(t)
    {
      ghost var armed := tms[job.id := Timer(Retry.None, 0, 0)];
      var n, joining := |job.txns|, map[];
      tms := tms[job.id := Timer(Retry.None, 0, 0)];
      for i := 0 to n
        invariant joining == Enlist(job.txns, i)
        invariant tms == Arm(armed, job.txns, AskReserve, i)
        invariant trs == old(trs) && tjs == old(tjs) && outbox == old(outbox)
      {
        var tc := job.txns[i];
        joining := joining[tc.id := TxnRes(0, 0, false, 0, Reserving)];
        tms := tms[tc.id := Timer(AskReserve, tc.timeout, tc.retries)];
      }
      tjs := tjs[job.id := JobRes(job, n, 0, false, joining)];
      AskReserves(t, job);
    }

    method AskReserves(t: Id, job: Job)
      requires t in outbox
      modifies `outbox
      ensures outbox == old(outbox)[t := old(outbox[t]) + ReserveAsks(job.id, job.txns, |job.txns|)]
    {
      ghost var sent := outbox[t];
      assert sent + [] == sent;
      for i := 0 to |job.txns|
        invariant outbox == old(outbox)[t := old(outbox[t]) + ReserveAsks(job.id, job.txns, i)]
      {
        outbox := outbox[t := outbox[t] + [AskedReserve(job.id, job.txns[i].id)]];
        assert outbox[t] == sent + ReserveAsks(job.id, job.txns, i + 1);
      }
    }

    /**
     * A scheduled job leaves the channel: `NewJobResource` and `start`.  If its task has been cleared the code
     * follows a missing entry, which is reported and stops the manager.
     */
    method StartJob(t: Id, job: Job) returns (ok: bool)
      requires Valid() && OwnJob(job, owner, t) && Kinds(job, isJob)
      modifies this
      ensures ok <==> t in old(trs)
      ensures !ok ==> trs == old(trs) && tjs == old(tjs) && tms == old(tms) && outbox == old(outbox)
      ensures Valid() && OthersKept(t) && (t in trs <==> t in old(trs))
      ensures ok ==> ViewOf(t) == Start(old(ViewOf(t)), job)
      ensures forall x :: x != t && Resident(x) ==> ViewOf(x) == old(ViewOf(x))
    {
      ok := t in trs;
      if ok {
        StartResident(t, job);
      }
    }

    method StartResident(t: Id, job: Job)
      requires Valid() && Resident(t) && OwnJob(job, owner, t) && Kinds(job, isJob)
      modifies this
      ensures Valid() && Resident(t) && OthersKept(t)
      ensures ViewOf(t) == Start(old(ViewOf(t)), job)
      ensures forall x :: x != t && Resident(x) ==> ViewOf(x) == old(ViewOf(x))
    {
      StartIsLocal(Shared(t), job, owner, t);
      ArmKeepsJobTimers(tms[job.id := Timer(Retry.None, 0, 0)], job, AskReserve, isJob);
      ArmOwned(tms[job.id := Timer(Retry.None, 0, 0)], job, AskReserve, owner, t, outbox.Keys);
      EnlistSpec(job.txns, |job.txns|);
      StartTxns(t, job);
      assert outbox.Keys == old(outbox).Keys;
      forall j | j in tjs ensures ValidJob(j, tjs[j], owner, isJob) {
        assert j != job.id ==> ValidJob(j, old(tjs[j]), owner, isJob);
      }
    }

    /** `confirmed`: every transaction has reserved. */
    method Confirmed(t: Id, job: Id)
      requires Resident(t) && job in tjs && tjs[job].job.id == job
      modifies this
      ensures Resident(t) && OthersKept(t)
      ensures Shared(t) == AskAllToFinish(old(Shared(t)), old(tjs[job]), State.Confirmed)
    {
      var r, j := tjs[job], tjs[job].job;
      var joining := r.joining;
      ghost var sent := outbox[t];
      assert sent + [] == sent;
      for i := 0 to |j.txns|
        invariant joining == Mark(r.joining, j.txns, State.Confirmed, i)
        invariant tms == Arm(old(tms), j.txns, AskFinish, i)
        invariant outbox == old(outbox)[t := old(outbox[t]) + FinishAsks(job, j.txns, State.Confirmed, i)]
        invariant trs == old(trs) && tjs == old(tjs)
      {
        var tc := j.txns[i];
        if tc.id in joining {
          joining := joining[tc.id := joining[tc.id].(state := State.Confirmed)];
        }
        tms := tms[tc.id := Timer(AskFinish, tc.timeout, tc.retries)];
        outbox := outbox[t := outbox[t] + [AskedFinish(job, tc.id, State.Confirmed)]];
        assert outbox[t] == sent + FinishAsks(job, j.txns, State.Confirmed, i + 1);
      }
      tjs := tjs[job := r.(confirmed := 0, joining := joining)];
    }

    /** The loop of `canceled`: close each timer and arm a new one. */
    method AskCancels(t: Id, r: JobRes)
      requires Resident(t)
      modifies this
      ensures Resident(t) && Shared(t) == AskAllToFinish(old(Shared(t)), r, State.Canceled) && OthersKept(t)
    {
      var j, joining := r.job, r.joining;
      ghost var sent := outbox[t];
      assert sent + [] == sent;
      for i := 0 to |j.txns|
        invariant joining == Mark(r.joining, j.txns, State.Canceled, i)
        invariant tms == Arm(old(tms), j.txns, AskFinish, i)
        invariant outbox == old(outbox)[t := old(outbox[t]) + FinishAsks(j.id, j.txns, State.Canceled, i)]
        invariant trs == old(trs) && tjs == old(tjs)
      {
        var tc := j.txns[i];
        CloseTimer(tc.id);
        if tc.id in joining {
          joining := joining[tc.id := joining[tc.id].(state := State.Canceled)];
        }
        tms := tms[tc.id := Timer(AskFinish, tc.timeout, tc.retries)];
        outbox := outbox[t := outbox[t] + [AskedFinish(j.id, tc.id, State.Canceled)]];
        assert outbox[t] == sent + FinishAsks(j.id, j.txns, State.Canceled, i + 1);
      }
      tjs := tjs[j.id := r.(confirmed := 0, joining := joining)];
    }

    /** `canceled`: give up the remaining jobs and cancel every transaction of this one. */
    method Canceled(t: Id, job: Id, txn: Id)
      requires Resident(t) && job in tjs && tjs[job].job.id == job && txn in tjs[job].joining && txn !in tms
      modifies this
      ensures Resident(t) && Shared(t) == OnCanceled(old(Shared(t)), job, txn) && OthersKept(t)
    {
      var r := tjs[job];
      trs := trs[t := trs[t].(jobIndex := |trs[t].pending|, canceled := true)];
      outbox := outbox[t := outbox[t] + [SawCancel(job, txn)]];
      assert tms - {txn} == tms;
      AskCancels(t, r.(canceled := true, joining := r.joining[txn := r.joining[txn].(canceled := true)]));
    }

    /** `end`. */
    method EndTask(t: Id)
      requires Resident(t)
      modifies `trs, `outbox
      ensures Resident(t) && Shared(t) == End(old(Shared(t))) && OthersKept(t)
    {
      trs := trs[t := trs[t].(ended := true)];
      outbox := outbox[t := outbox[t] + [Ended]];
    }

    /** `finished`: the job is complete. */
    method Finished(t: Id, job: Id)
      requires Resident(t) && job in tjs && tjs[job].job.id == job
      modifies this
      ensures Resident(t) && Shared(t) == FinishJob(old(Shared(t)), old(tjs[job])) && OthersKept(t)
    {
      CloseTimer(job);
      assert tjs[job := tjs[job]] == tjs;
      var task := trs[t];
      if task.jobIndex + 1 < |task.pending| {
        trs := trs[t := task.(jobIndex := task.jobIndex + 1)];
        outbox := outbox[t := outbox[t] + [Scheduled(task.pending[task.jobIndex + 1].id)]];
        return;
      }
      EndTask(t);
    }

    /** `stop`: the job has timed out. */
    method Stop(t: Id, job: Id)
      requires Resident(t) && job in tjs && tjs[job].job.id == job && job !in tms
      modifies this
      ensures Resident(t) && Shared(t) == OnJobTimeout(old(Shared(t)), job) && OthersKept(t)
    {
      var r := tjs[job];
      assert tms - {job} == tms;
      tjs := tjs[job := r.(canceled := true)];
      trs := trs[t := trs[t].(canceled := true, ended := true)];
      for i := 0 to |r.job.txns|
        invariant tms == Close(old(tms), r.job.txns, i)
        invariant tjs == old(tjs)[job := r.(canceled := true)] && outbox == old(outbox)
        invariant trs == old(trs)[t := old(trs[t]).(canceled := true, ended := true)]
      {
        CloseTimer(r.job.txns[i].id);
      }
      EndTask(t);
    }

    /** `join` of a job resource: count an acknowledgement once; does it complete the phase? */
    method JoinAck(job: Id, txn: Id, state: State) returns (complete: bool)
      requires job in tjs && txn in tjs[job].joining
      modifies `tjs
      ensures tjs == old(tjs)[job := Join(old(tjs[job]), txn, state).0]
      ensures complete == Join(old(tjs[job]), txn, state).1
    {
      var r := tjs[job];
      var tc := r.joining[txn];
      match state {
        case Confirmed =>
          if tc.confirmed > 0 {
            assert tjs[job := r] == tjs;
            return false;
          }
          tc := tc.(state := State.Confirmed, confirmed := tc.confirmed + 1);
        case Finished =>
          if tc.finished > 0 {
            assert tjs[job := r] == tjs;
            return false;
          }
          tc := tc.(state := State.Finished, finished := tc.finished + 1);
        case _ =>
          assert tjs[job := r] == tjs;
          return false;
      }
      r := r.(confirmed := r.confirmed + 1, joining := r.joining[txn := tc]);
      tjs := tjs[job := r];
      return r.joinParties == r.confirmed;
    }

    /** The switch of the updates branch, for a resident task that has not ended. */
    method Dispatch(t: Id, u: Update)
      requires PlainJobTimers(tms, isJob) && Resident(t) && !trs[t].ended && Known(Shared(t), u)
      requires tjs[u.job].job.id == u.job && isJob(u.job)
      modifies this
      ensures Resident(t) && Shared(t) == Handle(old(Shared(t)), u) && OthersKept(t)
    {
      match u {
        case Ack(job, txn, Confirmed) => OnConfirmedAck(t, job, txn);
        case Ack(job, txn, Canceled) => OnCanceledAck(t, job, txn);
        case Ack(job, txn, Finished) => OnFinishedAck(t, job, txn);
        case Ack(_, _, Reserving) =>
        case TxnTimeout(job, txn) => TimeoutTxn(t, job, txn);
        case JobTimeout(job) => OnJobTimer(t, job);
      }
    }

    method OnCanceledAck(t: Id, job: Id, txn: Id)
      requires Resident(t) && job in tjs && tjs[job].job.id == job && txn in tjs[job].joining
      modifies this
      ensures Resident(t) && Shared(t) == OnCanceled(old(Shared(t)), job, txn) && OthersKept(t)
    {
      CloseTimer(txn);
      assert tms - {txn} == tms;
      Canceled(t, job, txn);
    }

    method OnJobTimer(t: Id, job: Id)
      requires PlainJobTimers(tms, isJob) && isJob(job)
      requires Resident(t) && job in tjs && tjs[job].job.id == job
      modifies this
      ensures Resident(t) && Shared(t) == OnJobTimeout(old(Shared(t)), job) && OthersKept(t)
    {
      TimeoutJob(job);
      assert tms - {job} == tms;
      Stop(t, job);
    }

    method OnConfirmedAck(t: Id, job: Id, txn: Id)
      requires Resident(t) && job in tjs && tjs[job].job.id == job && txn in tjs[job].joining
      modifies this
      ensures Resident(t) && Shared(t) == OnConfirmed(old(Shared(t)), job, txn) && OthersKept(t)
    {
      CloseTimer(txn);
      var complete := JoinAck(job, txn, State.Confirmed);
      if complete {
        ghost var g := Shared(t);
        Confirmed(t, job);
        SameJobs(old(tjs), job, g.jobs[job], Shared(t).jobs[job]);
      }
    }

    method OnFinishedAck(t: Id, job: Id, txn: Id)
      requires Resident(t) && job in tjs && tjs[job].job.id == job && txn in tjs[job].joining
      modifies this
      ensures Resident(t) && Shared(t) == OnFinished(old(Shared(t)), job, txn) && OthersKept(t)
    {
      CloseTimer(txn);
      var complete := JoinAck(job, txn, State.Finished);
      if complete {
        Finished(t, job);
        assert tjs == old(tjs)[job := Join(old(tjs[job]), txn, State.Finished).0];
      }
    }

    lemma SameJobs(jobs: map<Id, JobRes>, job: Id, r: JobRes, r': JobRes)
      ensures jobs[job := r][job := r'] == jobs[job := r']
    {
    }

    /** One event on the shared maps. */
    method UpdateShared(t: Id, u: Update)
      requires Valid() && owner(u.job) == t && isJob(u.job) && t in trs && Known(Shared(t), u)
      modifies this
      ensures Valid() && OthersKept(t) && t in trs && Shared(t) == Handle(old(Shared(t)), u)
    {
      HandleStaysValid(Shared(t), u, owner, isJob);
      HandleOwned(Shared(t), u, owner, isJob, outbox.Keys);
      if trs[t].ended {
        return;
      }
      assert ValidJob(u.job, tjs[u.job], owner, isJob);
      Dispatch(t, u);
      assert trs == old(trs)[t := trs[t]];
      assert outbox.Keys == old(outbox).Keys;
    }

    /** An event of a resident task that names a loaded job: the view changes as the single-task machine says. */
    method UpdateResident(t: Id, u: Update)
      requires Valid() && owner(u.job) == t && isJob(u.job) && t in trs && Known(Shared(t), u) && Known(ViewOf(t), u)
      modifies this
      ensures Valid() && OthersKept(t) && t in trs
      ensures ViewOf(t) == Handle(old(ViewOf(t)), u)
      ensures forall x :: x != t && x in trs ==> ViewOf(x) == old(ViewOf(x))
    {
      JobsOwned(tjs, owner, isJob);
      HandleIsLocal(Shared(t), u, owner, t);
      UpdateShared(t, u);
    }

    /** A transaction timer of a job that is not loaded. */
    method TimeoutOrphan(t: Id, job: Id, txn: Id, captured: State)
      requires Valid() && Resident(t) && !isJob(txn) && owner(txn) == t
      modifies this
      ensures Valid() && Resident(t) && OthersKept(t)
      ensures ViewOf(t) == OrphanTimeout(old(ViewOf(t)), job, txn, captured)
      ensures forall x :: x != t && x in trs ==> ViewOf(x) == old(ViewOf(x))
    {
      OrphanIsLocal(Shared(t), job, txn, captured, owner, t);
      if txn !in tms {
        return;
      }
      var tm := tms[txn];
      if tm.delay > 0 && tm.left > 0 {
        tms := tms[txn := tm.(left := tm.left - 1)];
        match tm.retry {
          case None => {}
          case AskReserve => outbox := outbox[t := outbox[t] + [AskedReserve(job, txn)]];
          case AskFinish => outbox := outbox[t := outbox[t] + [AskedFinish(job, txn, captured)]];
        }
        assert Shared(t) == OrphanTimeout(old(Shared(t)), job, txn, captured);
        return;
      }
      tms := tms - {txn};
    }

    /**
     * The updates branch of the loop.  An event changes the view of its own task as `Absorb` says, and no other view;
     * events of tasks that are not resident change nothing.  Where the code follows a missing entry this is reported
     * and stops the manager.
     */
    method OnUpdate(t: Id, u: Update, captured: State) returns (ok: bool)
      requires Valid() && owner(u.job) == t && isJob(u.job)
      requires u.TxnTimeout? ==> !isJob(u.txn) && owner(u.txn) == t
      modifies this
      ensures ok <==> !(t in old(trs) && old(Stray(ViewOf(t), u)))
      ensures Valid() && OthersKept(t) && (t in trs <==> t in old(trs))
      ensures ok && t in trs ==> ViewOf(t) == Absorb(old(ViewOf(t)), u, captured)
      ensures ok ==> forall x :: x != t && x in trs ==> ViewOf(x) == old(ViewOf(x))
    {
      ok := true;
      if t !in trs || trs[t].ended {
        return;
      }
      if u.job in tjs && (u.JobTimeout? || u.txn in tjs[u.job].joining) {
        UpdateResident(t, u);
        return;
      }
      ok := UpdateUnknown(t, u, captured);
    }

    /** The event names no loaded job, or no transaction of it. */
    method UpdateUnknown(t: Id, u: Update, captured: State) returns (ok: bool)
      requires Valid() && owner(u.job) == t && t in trs && !trs[t].ended && !Known(ViewOf(t), u)
      requires isJob(u.job) && (u.TxnTimeout? ==> !isJob(u.txn) && owner(u.txn) == t)
      modifies this
      ensures ok <==> !old(Stray(ViewOf(t), u))
      ensures Valid() && OthersKept(t) && t in trs
      ensures ok ==> ViewOf(t) == Absorb(old(ViewOf(t)), u, captured)
      ensures ok ==> forall x :: x != t && x in trs ==> ViewOf(x) == old(ViewOf(x))
    {
      ok := true;
      match u {
        case Ack(_, _, Reserving) =>
        case Ack(_, txn, _) =>
          CloseTimer(txn);
          ok := false;
        case TxnTimeout(job, txn) =>
          if job in tjs && txn in tms && tms[txn].delay > 0 && tms[txn].left > 0 {
            ok := false;
          } else {
            TimeoutOrphan(t, job, txn, captured);
          }
        case JobTimeout(job) =>
          CloseIsLocal(Shared(t), job, owner, t);
          TimeoutJob(job);
      }
    }

    /** `clearResource`: forget a task and its queued jobs; no other task notices. */
    method ClearResource(t: Id)
      requires Valid()
      modifies this
      ensures Valid() && OthersKept(t) && t !in trs && tms == old(tms) && outbox == old(outbox)
      ensures t in old(trs) && old(AllQueued(tjs, trs[t].pending, owner, t)) ==> Part(tjs, owner, t) == map[]
      ensures t !in old(trs) ==> tjs == old(tjs)
      ensures forall x :: x != t && x in trs ==> ViewOf(x) == old(ViewOf(x))
    {
      if t !in trs {
        return;
      }
      var pending := trs[t].pending;
      ClearTakesOneTask(tjs, pending, owner, isJob, t);
      trs := trs - {t};
      DropJobs(pending);
    }

    method DropJobs(pending: seq<Job>)
      modifies `tjs
      ensures tjs == old(tjs) - JobSet(pending, |pending|)
    {
      for i := 0 to |pending|
        invariant tjs == old(tjs) - JobSet(pending, i)
      {
        tjs := tjs - {pending[i].id};
      }
    }
  }
}
