/**
 * The try-confirm-cancel protocol as a state machine: the coordinator's handling of one task
 * (`task_manager.go`, `job_resource.go`) written as functions of its events.
 *
 * `Coordination` adds the network and the participants, `TaskManager` the maps that hold many tasks at once.
 */
module Tcc {

  type Id = nat

  /** `TCC_RESERVING`, `TCC_CONFIRMED`, `TCC_CANCELED` and `TCC_FINISHED`. */
  datatype State = Reserving | Confirmed | Canceled | Finished

  datatype Txn = Txn(id: Id, timeout: nat, retries: nat)
  datatype Job = Job(id: Id, txns: seq<Txn>)

  /** What a timer does when it fires with retries left. */
  datatype Retry = None | AskReserve | AskFinish

  /** `Timeout`: the retry action, the delay of the next retry and the retries left. */
  datatype Timer = Timer(retry: Retry, delay: nat, left: nat)

  /** `TransactionResource`; `state` is the shared `Meta.State` of the transaction. */
  datatype TxnRes = TxnRes(confirmed: nat, finished: nat, canceled: bool, retried: nat, state: State)

  /** `JobResource`; one counter serves both phases. */
  datatype JobRes = JobRes(job: Job, joinParties: nat, confirmed: nat, canceled: bool, joining: map<Id, TxnRes>)

  /** `TaskResource`; `ended` is `Meta.State == TCC_FINISHED`. */
  datatype TaskRes = TaskRes(pending: seq<Job>, jobIndex: nat, canceled: bool, ended: bool)

  /** What the coordinator does to the outside, in order. */
  datatype Out =
    | Scheduled(job: Id)
    | AskedReserve(job: Id, txn: Id)
    | AskedFinish(job: Id, txn: Id, state: State)
    | SawCancel(job: Id, txn: Id)
    | Ended

  /** Everything the manager holds about one task, and what it has done for it. */
  datatype View = View(task: TaskRes, jobs: map<Id, JobRes>, timers: map<Id, Timer>, log: seq<Out>)

  // ---- loops over the transactions of a job: the first `k` of them ----

  function Arm(timers: map<Id, Timer>, txns: seq<Txn>, retry: Retry, k: nat): map<Id, Timer>
    requires k <= |txns|
  {
    if k == 0 then timers
    else Arm(timers, txns, retry, k - 1)[txns[k - 1].id := Timer(retry, txns[k - 1].timeout, txns[k - 1].retries)]
  }

  function Close(timers: map<Id, Timer>, txns: seq<Txn>, k: nat): map<Id, Timer>
    requires k <= |txns|
  {
    if k == 0 then timers else Close(timers, txns, k - 1) - {txns[k - 1].id}
  }

  function Enlist(txns: seq<Txn>, k: nat): map<Id, TxnRes>
    requires k <= |txns|
  {
    if k == 0 then map[] else Enlist(txns, k - 1)[txns[k - 1].id := TxnRes(0, 0, false, 0, Reserving)]
  }

  function Mark(joining: map<Id, TxnRes>, txns: seq<Txn>, state: State, k: nat): map<Id, TxnRes>
    requires k <= |txns|
  {
    if k == 0 then joining
    else
      var m := Mark(joining, txns, state, k - 1);
      if txns[k - 1].id in m then m[txns[k - 1].id := m[txns[k - 1].id].(state := state)] else m
  }

  function ReserveAsks(job: Id, txns: seq<Txn>, k: nat): seq<Out>
    requires k <= |txns|
  {
    if k == 0 then [] else ReserveAsks(job, txns, k - 1) + [AskedReserve(job, txns[k - 1].id)]
  }

  function FinishAsks(job: Id, txns: seq<Txn>, state: State, k: nat): seq<Out>
    requires k <= |txns|
  {
    if k == 0 then [] else FinishAsks(job, txns, state, k - 1) + [AskedFinish(job, txns[k - 1].id, state)]
  }

  // ---- the handlers ----

  /** `set`: queue the jobs and schedule the first. */
  function Begin(pending: seq<Job>): View
    requires pending != []
  {
    View(TaskRes(pending, 0, false, false), map[], map[], [Scheduled(pending[0].id)])
  }

  /** A job leaves the jobs channel: `NewJobResource` and `start`. */
  function Start(v: View, job: Job): View {
    var n := |job.txns|;
    v.(jobs := v.jobs[job.id := JobRes(job, n, 0, false, Enlist(job.txns, n))],
       timers := Arm(v.timers[job.id := Timer(None, 0, 0)], job.txns, AskReserve, n),
       log := v.log + ReserveAsks(job.id, job.txns, n))
  }

  /** `join` for a `TCC_CONFIRMED` or `TCC_FINISHED` acknowledgement: does it complete the phase? */
  function Join(r: JobRes, txn: Id, state: State): (JobRes, bool)
    requires txn in r.joining
  {
    var t := r.joining[txn];
    if state == Confirmed && t.confirmed == 0 then
      var r' := r.(confirmed := r.confirmed + 1,
                   joining := r.joining[txn := t.(confirmed := 1, state := Confirmed)]);
      (r', r'.joinParties == r'.confirmed)
    else if state == Finished && t.finished == 0 then
      var r' := r.(confirmed := r.confirmed + 1,
                   joining := r.joining[txn := t.(finished := 1, state := Finished)]);
      (r', r'.joinParties == r'.confirmed)
    else (r, false)
  }

  /** `confirmed`: reset the counter and ask every transaction to finish. */
  function AskAllToFinish(v: View, r: JobRes, state: State): View {
    var n := |r.job.txns|;
    v.(jobs := v.jobs[r.job.id := r.(confirmed := 0, joining := Mark(r.joining, r.job.txns, state, n))],
       timers := Arm(v.timers, r.job.txns, AskFinish, n),
       log := v.log + FinishAsks(r.job.id, r.job.txns, state, n))
  }

  /** `end`. */
  function End(v: View): View {
    v.(task := v.task.(ended := true), log := v.log + [Ended])
  }

  /** `finished`: close the job timer; schedule the next job or end the task. */
  function FinishJob(v: View, r: JobRes): View {
    var v' := v.(jobs := v.jobs[r.job.id := r], timers := v.timers - {r.job.id});
    var next := v.task.jobIndex + 1;
    if next < |v.task.pending|
    then v'.(task := v.task.(jobIndex := next), log := v.log + [Scheduled(v.task.pending[next].id)])
    else End(v')
  }

  function OnConfirmed(v: View, job: Id, txn: Id): View
    requires job in v.jobs && txn in v.jobs[job].joining
  {
    var v' := v.(timers := v.timers - {txn});
    var (r, complete) := Join(v.jobs[job], txn, Confirmed);
    if complete then AskAllToFinish(v', r, Confirmed) else v'.(jobs := v.jobs[job := r])
  }

  function OnFinished(v: View, job: Id, txn: Id): View
    requires job in v.jobs && txn in v.jobs[job].joining
  {
    var v' := v.(timers := v.timers - {txn});
    var (r, complete) := Join(v.jobs[job], txn, Finished);
    if complete then FinishJob(v', r) else v'.(jobs := v.jobs[job := r])
  }

  /** `canceled`: give up the remaining jobs and ask every transaction of this one to cancel. */
  function OnCanceled(v: View, job: Id, txn: Id): View
    requires job in v.jobs && txn in v.jobs[job].joining
  {
    var r := v.jobs[job];
    var r' := r.(canceled := true, joining := r.joining[txn := r.joining[txn].(canceled := true)]);
    var v' := v.(task := v.task.(jobIndex := |v.task.pending|, canceled := true),
                 timers := v.timers - {txn},
                 log := v.log + [SawCancel(job, txn)]);
    AskAllToFinish(v', r', Canceled)
  }

  /** `timeout` for a transaction: retry while retries are left, then drop the timer. */
  function OnTxnTimeout(v: View, job: Id, txn: Id): View
    requires job in v.jobs && txn in v.jobs[job].joining
  {
    if txn !in v.timers then v
    else if v.timers[txn].delay > 0 && v.timers[txn].left > 0 then
      var tm, r := v.timers[txn], v.jobs[job];
      var t := r.joining[txn];
      v.(jobs := v.jobs[job := r.(joining := r.joining[txn := t.(retried := t.retried + 1)])],
         timers := v.timers[txn := tm.(left := tm.left - 1)],
         log := v.log + match tm.retry
                        case None => []
                        case AskReserve => [AskedReserve(job, txn)]
                        case AskFinish => [AskedFinish(job, txn, t.state)])
    else v.(timers := v.timers - {txn})
  }

  /** `timeout` for a job, whose timer never retries, and `stop`. */
  function OnJobTimeout(v: View, job: Id): View
    requires job in v.jobs
  {
    var r := v.jobs[job];
    End(v.(task := v.task.(canceled := true),
           jobs := v.jobs[job := r.(canceled := true)],
           timers := Close(v.timers - {job}, r.job.txns, |r.job.txns|)))
  }

  // ---- one turn of the event loop for a resident task ----

  datatype Update = Ack(job: Id, txn: Id, state: State) | TxnTimeout(job: Id, txn: Id) | JobTimeout(job: Id)

  /** The event names a loaded job, and a transaction of it. */
  predicate Known(v: View, u: Update) {
    u.job in v.jobs && (u.JobTimeout? || u.txn in v.jobs[u.job].joining)
  }

  /** The updates branch of `Wait`: ended tasks ignore everything. */
  function Handle(v: View, u: Update): View
    requires Known(v, u)
  {
    if v.task.ended then v
    else match u
      case Ack(job, txn, Confirmed) => OnConfirmed(v, job, txn)
      case Ack(job, txn, Canceled) => OnCanceled(v, job, txn)
      case Ack(job, txn, Finished) => OnFinished(v, job, txn)
      case Ack(job, txn, Reserving) => v
      case TxnTimeout(job, txn) => OnTxnTimeout(v, job, txn)
      case JobTimeout(job) => OnJobTimeout(v, job)
  }
}
