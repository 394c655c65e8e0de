/**
 * One task under coordination: the coordinator, its participants and an unreliable network between them.
 *
 * Messages are kept in growing sets and logs and may be delivered any number of times, in any order, or never.
 * Timers may fire at any moment once their job has started, also after they were stopped.
 */
module Coordination {
  import opened Tcc
  import opened TccFacts
  import opened Scheduling

  /** A transaction and the job it belongs to. */
  datatype Party = Party(job: Id, txn: Id)

  /**
   * `delivered`: jobs that have left the jobs channel.  `acks`: replies sent by participants.
   * The last three record whose reserve, confirm and cancel handlers have succeeded.
   */
  datatype Sys = Sys(v: View, delivered: set<Id>, acks: set<Update>,
                     reserved: set<Party>, confirmed: set<Party>, canceled: set<Party>)

  datatype Step =
    | DeliverJob(p: nat)
    | DeliverUpdate(u: Update)
    | HandleAsk(ask: Out, succeeds: bool)

  function Initial(pending: seq<Job>): Sys
    requires pending != []
  {
    Sys(Begin(pending), {}, {}, {}, {}, {})
  }

  // ---- the participant: handleTranstion and OnTransaction ----

  datatype Handler = Reserve | Confirm | Cancel | Unsupported

  /** `OnTransaction`: which handler the state of a message selects. */
  function HandlerFor(state: State): Handler {
    match state
    case Reserving => Reserve
    case Confirmed => Confirm
    case Canceled => Cancel
    case Finished => Unsupported
  }

  function AskState(ask: Out): State
    requires ask.AskedReserve? || ask.AskedFinish?
  {
    if ask.AskedReserve? then Reserving else ask.state
  }

  /** `handleTranstion`: run the handler and reply; an error or an unsupported state replies with a cancel. */
  function React(s: Sys, ask: Out, succeeds: bool): Sys
    requires ask.AskedReserve? || ask.AskedFinish?
  {
    var party, handler := Party(ask.job, ask.txn), HandlerFor(AskState(ask));
    if !succeeds || handler == Unsupported then s.(acks := s.acks + {Ack(ask.job, ask.txn, Canceled)})
    else match handler
      case Reserve => s.(reserved := s.reserved + {party}, acks := s.acks + {Ack(ask.job, ask.txn, Confirmed)})
      case Confirm => s.(confirmed := s.confirmed + {party}, acks := s.acks + {Ack(ask.job, ask.txn, Finished)})
      case Cancel => s.(canceled := s.canceled + {party}, acks := s.acks + {Ack(ask.job, ask.txn, Finished)})
  }

  // ---- runs ----

  predicate Enabled(s: Sys, step: Step) {
    match step
    case DeliverJob(p) =>
      p < |s.v.task.pending| && Scheduled(s.v.task.pending[p].id) in s.v.log && s.v.task.pending[p].id !in s.delivered
    case DeliverUpdate(u) => (u in s.acks || u.TxnTimeout? || u.JobTimeout?) && Known(s.v, u)
    case HandleAsk(ask, _) => ask in s.v.log && (ask.AskedReserve? || ask.AskedFinish?)
  }

  /** Steps that are not enabled change nothing. */
  function Apply(s: Sys, step: Step): Sys {
    if !Enabled(s, step) then s
    else match step
      case DeliverJob(p) =>
        var job := s.v.task.pending[p];
        s.(v := Start(s.v, job), delivered := s.delivered + {job.id})
      case DeliverUpdate(u) => s.(v := Handle(s.v, u))
      case HandleAsk(ask, succeeds) => React(s, ask, succeeds)
  }

  function Run(s: Sys, steps: seq<Step>): Sys {
    if steps == [] then s else Apply(Run(s, steps[..|steps| - 1]), steps[|steps| - 1])
  }

  /** Every ask is answered, once, and by what its handler did: an error or an unknown state by a cancel. */
  lemma EveryAskIsAnswered(s: Sys, ask: Out, succeeds: bool)
    requires Enabled(s, HandleAsk(ask, succeeds))
    ensures var s' := Apply(s, HandleAsk(ask, succeeds));
            && s'.v == s.v && s'.delivered == s.delivered
            && (ask.AskedReserve? && succeeds ==> s'.acks == s.acks + {Ack(ask.job, ask.txn, Confirmed)})
            && (ask.AskedFinish? && succeeds && (ask.state == Confirmed || ask.state == Canceled) ==>
                  s'.acks == s.acks + {Ack(ask.job, ask.txn, Finished)})
            && (!succeeds || (ask.AskedFinish? && ask.state == Finished) ==>
                  && s'.acks == s.acks + {Ack(ask.job, ask.txn, Canceled)}
                  && s'.reserved == s.reserved && s'.confirmed == s.confirmed && s'.canceled == s.canceled)
  {
  }

  // ---- the plan ----

  /** Ids are unique: over jobs, over transactions, and between the two. */
  ghost predicate WellPlanned(pending: seq<Job>) {
    && pending != []
    && (forall p, q :: 0 <= p < q < |pending| ==> pending[p].id != pending[q].id)
    && (forall p :: 0 <= p < |pending| ==> DistinctTxns(pending[p].txns))
    && (forall p, q :: 0 <= p < q < |pending| ==> TxnIds(pending[p]) !! TxnIds(pending[q]))
    && (forall p, q :: 0 <= p < |pending| && 0 <= q < |pending| ==> pending[p].id !in TxnIds(pending[q]))
  }

  /** `r` is the resource of the planned job with id `j`. */
  ghost predicate Fits(pending: seq<Job>, j: Id, r: JobRes) {
    && r.job in pending && r.job.id == j
    && r.joining.Keys == TxnIds(r.job) && r.joinParties == |r.job.txns|
  }

  predicate IsAsk(o: Out) {
    o.AskedReserve? || o.AskedFinish?
  }

  /** Everything in flight names a loaded job and a transaction of it. */
  ghost predicate Linked(s: Sys) {
    && WellPlanned(s.v.task.pending)
    && (forall j :: j in s.v.jobs ==> Fits(s.v.task.pending, j, s.v.jobs[j]))
    && s.v.jobs.Keys == s.delivered
    && (forall j :: j in s.delivered ==> Scheduled(j) in s.v.log)
    && (forall o :: o in s.v.log && IsAsk(o) ==> Known(s.v, Ack(o.job, o.txn, Confirmed)))
    && (forall a :: a in s.acks ==> a.Ack? && Known(s.v, a))
  }

  // ---- what a handler leaves alone ----

  /** Same plan, same jobs with the same parties; the log grows by asks to transactions of `job` and by markers. */
  ghost predicate Preserves(v: View, v': View, job: Id) {
    && job in v.jobs
    && v'.task.pending == v.task.pending
    && v'.jobs.Keys == v.jobs.Keys
    && (forall j :: j in v.jobs ==> SameParties(v.jobs[j], v'.jobs[j]) && (j != job ==> v'.jobs[j] == v.jobs[j]))
    && v.log <= v'.log
    && (forall o :: o in v'.log && IsAsk(o) && o !in v.log ==> o.job == job && o.txn in v.jobs[job].joining)
  }

  ghost predicate SameParties(a: JobRes, b: JobRes) {
    a.job == b.job && a.joinParties == b.joinParties && a.joining.Keys == b.joining.Keys
  }

  ghost predicate Whole(v: View, job: Id) {
    job in v.jobs && v.jobs[job].job.id == job && v.jobs[job].joining.Keys == TxnIds(v.jobs[job].job)
  }

  lemma AskAllPreserves(v: View, r: JobRes, state: State)
    requires Whole(v, r.job.id) && SameParties(v.jobs[r.job.id], r)
    ensures Preserves(v, AskAllToFinish(v, r, state), r.job.id)
  {
    var v', txns := AskAllToFinish(v, r, state), r.job.txns;
    MarkSpec(r.joining, txns, state, |txns|);
    forall o | o in v'.log && IsAsk(o) && o !in v.log
      ensures o.job == r.job.id && o.txn in v.jobs[r.job.id].joining
    {
      FinishAsksAre(r.job.id, txns, state, |txns|, o);
    }
  }

  lemma PreservesThen(v: View, w: View, v': View, job: Id)
    requires Preserves(v, w, job) && Preserves(w, v', job)
    ensures Preserves(v, v', job)
  {
  }

  lemma ConfirmPreserves(v: View, job: Id, txn: Id)
    requires Whole(v, job) && txn in v.jobs[job].joining
    ensures Preserves(v, OnConfirmed(v, job, txn), job)
  {
    var w := v.(timers := v.timers - {txn});
    var (r, complete) := Join(v.jobs[job], txn, Confirmed);
    if complete {
      AskAllPreserves(w, r, Confirmed);
    }
  }

  lemma CancelPreserves(v: View, job: Id, txn: Id)
    requires Whole(v, job) && txn in v.jobs[job].joining
    ensures Preserves(v, OnCanceled(v, job, txn), job)
  {
    var r := v.jobs[job];
    var r' := r.(canceled := true, joining := r.joining[txn := r.joining[txn].(canceled := true)]);
    var w := v.(task := v.task.(jobIndex := |v.task.pending|, canceled := true),
                timers := v.timers - {txn}, log := v.log + [SawCancel(job, txn)]);
    AskAllPreserves(w, r', Canceled);
    PreservesThen(v, w, OnCanceled(v, job, txn), job);
  }

  lemma HandlePreserves(v: View, u: Update)
    requires Known(v, u) && Whole(v, u.job)
    ensures Preserves(v, Handle(v, u), u.job)
  {
    if !v.task.ended {
      match u {
        case Ack(job, txn, Confirmed) => ConfirmPreserves(v, job, txn);
        case Ack(job, txn, Canceled) => CancelPreserves(v, job, txn);
        case Ack(job, txn, Finished) => FinishPreserves(v, job, txn);
        case Ack(job, txn, Reserving) =>
        case TxnTimeout(job, txn) => TimeoutPreserves(v, job, txn);
        case JobTimeout(job) =>
      }
    }
  }

  lemma FinishPreserves(v: View, job: Id, txn: Id)
    requires Whole(v, job) && txn in v.jobs[job].joining
    ensures Preserves(v, OnFinished(v, job, txn), job)
  {
    var (r, complete) := Join(v.jobs[job], txn, Finished);
    if complete {
      FinishJobPreserves(v.(timers := v.timers - {txn}), r);
    }
  }

  lemma FinishJobPreserves(v: View, r: JobRes)
    requires r.job.id in v.jobs && SameParties(v.jobs[r.job.id], r)
    ensures Preserves(v, FinishJob(v, r), r.job.id)
  {
  }

  lemma TimeoutPreserves(v: View, job: Id, txn: Id)
    requires Whole(v, job) && txn in v.jobs[job].joining
    ensures Preserves(v, OnTxnTimeout(v, job, txn), job)
  {
  }

  // ---- every run stays linked ----

  lemma LinkedWhole(s: Sys, j: Id)
    requires Linked(s) && j in s.v.jobs
    ensures Whole(s.v, j)
  {
  }

  lemma UpdateStaysLinked(s: Sys, u: Update)
    requires Linked(s) && Known(s.v, u)
    ensures Linked(s.(v := Handle(s.v, u)))
  {
    LinkedWhole(s, u.job);
    HandlePreserves(s.v, u);
    var v' := Handle(s.v, u);
    forall j | j in s.delivered ensures Scheduled(j) in v'.log {
      assert Scheduled(j) in s.v.log;
    }
    forall o | o in v'.log && IsAsk(o) ensures Known(v', Ack(o.job, o.txn, Confirmed)) {
      if o in s.v.log {
        assert Known(s.v, Ack(o.job, o.txn, Confirmed));
      }
    }
    forall j | j in v'.jobs ensures Fits(v'.task.pending, j, v'.jobs[j]) {
      assert Fits(s.v.task.pending, j, s.v.jobs[j]) && SameParties(s.v.jobs[j], v'.jobs[j]);
    }
  }

  lemma StartStaysLinked(s: Sys, p: nat)
    requires Linked(s) && Enabled(s, DeliverJob(p))
    ensures Linked(Apply(s, DeliverJob(p)))
  {
    var job, s' := s.v.task.pending[p], Apply(s, DeliverJob(p));
    var n := |job.txns|;
    EnlistSpec(job.txns, n);
    forall o | o in s'.v.log && IsAsk(o) ensures Known(s'.v, Ack(o.job, o.txn, Confirmed)) {
      if o in s.v.log {
        assert Known(s.v, Ack(o.job, o.txn, Confirmed));
      } else {
        ReserveAsksAre(job.id, job.txns, n, o);
      }
    }
  }

  lemma ReactStaysLinked(s: Sys, ask: Out, succeeds: bool)
    requires Linked(s) && Enabled(s, HandleAsk(ask, succeeds))
    ensures Linked(React(s, ask, succeeds))
  {
    assert IsAsk(ask);
    assert Known(s.v, Ack(ask.job, ask.txn, Confirmed));
  }

  lemma StepStaysLinked(s: Sys, step: Step)
    requires Linked(s)
    ensures Linked(Apply(s, step))
  {
    if Enabled(s, step) {
      match step
      case DeliverJob(p) => StartStaysLinked(s, p);
      case DeliverUpdate(u) => UpdateStaysLinked(s, u);
      case HandleAsk(ask, succeeds) => ReactStaysLinked(s, ask, succeeds);
    }
  }

  /**
   * In every run, with any losses, duplicates, reorderings, errors and timeouts, each acknowledgement names a
   * loaded job and one of its transactions: the coordinator never dereferences a missing entry.
   */
  lemma {:induction false} RunStaysLinked(pending: seq<Job>, steps: seq<Step>)
    requires WellPlanned(pending)
    ensures Linked(Run(Initial(pending), steps))
    ensures Run(Initial(pending), steps).v.task.pending == pending
  {
    if steps != [] {
      var init := steps[..|steps| - 1];
      RunStaysLinked(pending, init);
      var s, step := Run(Initial(pending), init), steps[|steps| - 1];
      StepStaysLinked(s, step);
      if step.DeliverUpdate? && Enabled(s, step) {
        LinkedWhole(s, step.u.job);
        HandlePreserves(s.v, step.u);
      }
    }
  }

  /**
   * In every run the jobs scheduled are the first `k` of the plan, in order and without repetition; nothing is
   * scheduled after a cancel or after the end; the task ends at most once; and after the end nobody is asked, except to
   * reserve for a job that was still in the channel.
   */
  lemma {:induction false} RunSchedulesInOrder(pending: seq<Job>, steps: seq<Step>) returns (k: nat)
    requires WellPlanned(pending)
    ensures Orderly(Run(Initial(pending), steps).v, k)
    ensures var jobs := Schedules(Run(Initial(pending), steps).v.log);
            k <= |pending| && jobs == JobIds(pending, k) && forall i, j :: 0 <= i < j < k ==> jobs[i] != jobs[j]
  {
    RunStaysLinked(pending, steps);
    if steps == [] {
      BeginIsOrderly(pending);
      k := 1;
    } else {
      k := RunSchedulesInOrder(pending, steps[..|steps| - 1]);
      k := StepIsOrderly(Run(Initial(pending), steps[..|steps| - 1]), steps[|steps| - 1], k);
    }
  }

  lemma StepIsOrderly(s: Sys, step: Step, k: nat) returns (k': nat)
    requires Orderly(s.v, k)
    ensures Orderly(Apply(s, step).v, k')
  {
    k' := k;
    if Enabled(s, step) {
      match step {
        case DeliverJob(p) => StartIsOrderly(s.v, s.v.task.pending[p], k);
        case DeliverUpdate(u) => k' := HandleIsOrderly(s.v, u, k);
        case HandleAsk(_, _) =>
      }
    }
  }
}
