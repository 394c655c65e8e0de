/**
 * How often the coordinator asks.  Until a cancel of its job has been handled, each transaction is asked to reserve,
 * and asked to confirm, at most once more than its retries, and every retry that is used up asks again; after a
 * cancel there is no such bound.
 */
module Retries {
  import opened Tcc
  import opened TccFacts
  import opened Coordination
  import opened Barrier

  function Count(log: seq<Out>, o: Out): nat {
    multiset(log)[o]
  }

  function Reserves(v: View, j: Id, x: Id): nat {
    Count(v.log, AskedReserve(j, x))
  }

  function Confirms(v: View, j: Id, x: Id): nat {
    Count(v.log, AskedFinish(j, x, Confirmed))
  }

  /** The asks of the phase that the job is in. */
  ghost function PhaseAsks(v: View, j: Id, x: Id): nat
    requires j in v.jobs
  {
    if Reserved(v.jobs[j]) then Confirms(v, j, x) else Reserves(v, j, x)
  }

  /** Every retry has asked exactly once; the first ask of each phase is no retry. */
  ghost predicate RetriesAsk(v: View, j: Id, t: Txn)
    requires j in v.jobs
  {
    var r := v.jobs[j];
    && t.id in r.joining && (Reserved(r) || Confirms(v, j, t.id) == 0)
    && Reserves(v, j, t.id) + Confirms(v, j, t.id) == r.joining[t.id].retried + (if Reserved(r) then 2 else 1)
    && 1 <= Reserves(v, j, t.id) <= 1 + t.retries && 1 <= PhaseAsks(v, j, t.id) <= 1 + t.retries
  }

  /** The asks of the phase and the retries left on the timer add up to one more than the retries. */
  ghost predicate TimerBalances(v: View, j: Id, t: Txn)
    requires j in v.jobs
  {
    t.id in v.timers ==>
      v.timers[t.id].left + PhaseAsks(v, j, t.id) == 1 + t.retries && v.timers[t.id].delay == t.timeout
  }

  /** A transaction that has not reserved keeps its timer until it has been asked as often as it may. */
  ghost predicate KeepsAsking(v: View, j: Id, t: Txn)
    requires j in v.jobs
  {
    !Reserved(v.jobs[j]) && t.id !in Conf(v.jobs[j]) && t.id !in v.timers && !v.task.ended ==>
      t.timeout == 0 || Reserves(v, j, t.id) == 1 + t.retries
  }

  ghost predicate Budget(v: View, j: Id, t: Txn) {
    j in v.jobs && RetriesAsk(v, j, t) && TimerBalances(v, j, t) && KeepsAsking(v, j, t)
  }

  ghost predicate InBudget(v: View, j: Id)
    requires j in v.jobs
  {
    forall i :: 0 <= i < |v.jobs[j].job.txns| ==> Budget(v, j, v.jobs[j].job.txns[i])
  }

  // ---- one event, one transaction ----

  lemma TxnIn(r: JobRes, t: Txn)
    requires Sound(r) && t in r.job.txns
    ensures t.id in r.joining && t.id != r.job.id
  {
    InIds(r.job.txns, |r.job.txns|, t.id);
  }

  ghost predicate SameAsks(log: seq<Out>, log': seq<Out>) {
    forall o :: IsAsk(o) ==> Count(log', o) == Count(log, o)
  }

  /** Asking nobody keeps the account, as long as only timers of transactions that have answered are closed. */
  lemma QuietBudget(v: View, v': View, j: Id, t: Txn)
    requires j in v.jobs && j in v'.jobs && t.id in v'.jobs[j].joining && Budget(v, j, t)
    requires v'.jobs[j].joining[t.id].retried == v.jobs[j].joining[t.id].retried
    requires Reserved(v.jobs[j]) == Reserved(v'.jobs[j]) && Conf(v.jobs[j]) <= Conf(v'.jobs[j])
    requires SameAsks(v.log, v'.log) && (v.task.ended ==> v'.task.ended)
    requires t.id in v'.timers ==> t.id in v.timers && v'.timers[t.id] == v.timers[t.id]
    requires t.id in v.timers && t.id !in v'.timers ==>
               Reserved(v.jobs[j]) || t.id in Conf(v'.jobs[j]) || v'.task.ended
               || v.timers[t.id].delay == 0 || v.timers[t.id].left == 0
    ensures Budget(v', j, t)
  {
    assert Reserves(v', j, t.id) == Reserves(v, j, t.id) && Confirms(v', j, t.id) == Confirms(v, j, t.id);
  }

  lemma ConfirmBudget(v: View, job: Id, x: Id, t: Txn)
    requires Whole(v, job) && Sound(v.jobs[job]) && x in v.jobs[job].joining && Counted(v.jobs[job])
    requires t in v.jobs[job].job.txns && Budget(v, job, t)
    ensures Budget(OnConfirmed(v, job, x), job, t)
  {
    var r := v.jobs[job];
    JoinReservation(r, x);
    var (r', complete) := Join(r, x, Confirmed);
    TxnIn(r, t);
    if complete {
      AllAskedBudget(v.(timers := v.timers - {x}), r', t);
    } else {
      assert r'.joining[t.id].retried == r.joining[t.id].retried;
      QuietBudget(v, OnConfirmed(v, job, x), job, t);
    }
  }

  lemma AllAskedBudget(v: View, r: JobRes, t: Txn)
    requires Sound(r) && Reserved(r) && t in r.job.txns && t.id in r.joining
    requires 1 <= Reserves(v, r.job.id, t.id) == 1 + r.joining[t.id].retried <= 1 + t.retries
    requires Confirms(v, r.job.id, t.id) == 0
    ensures Budget(AskAllToFinish(v, r, Confirmed), r.job.id, t)
  {
    var n, v' := |r.job.txns|, AskAllToFinish(v, r, Confirmed);
    FinishAsksOnce(r.job.id, r.job.txns, Confirmed, n, AskedFinish(r.job.id, t.id, Confirmed));
    FinishAsksOnce(r.job.id, r.job.txns, Confirmed, n, AskedReserve(r.job.id, t.id));
    MarkKeepsCounts(r, Confirmed);
    MarkSpec(r.joining, r.job.txns, Confirmed, n);
    InIds(r.job.txns, n, t.id);
    var i :| 0 <= i < n && r.job.txns[i] == t;
    ArmAt(v.timers, r.job.txns, AskFinish, n, i);
    assert Confirms(v', r.job.id, t.id) == 1 && Reserves(v', r.job.id, t.id) == Reserves(v, r.job.id, t.id);
  }

  lemma FinishBudget(v: View, job: Id, x: Id, t: Txn)
    requires Whole(v, job) && Sound(v.jobs[job]) && x in v.jobs[job].joining && Reserved(v.jobs[job])
    requires t in v.jobs[job].job.txns && Budget(v, job, t)
    ensures Budget(OnFinished(v, job, x), job, t)
  {
    var (r', complete) := Join(v.jobs[job], x, Finished);
    TxnIn(v.jobs[job], t);
    assert Conf(r') == Conf(v.jobs[job]);
    assert r'.joining[t.id].retried == v.jobs[job].joining[t.id].retried;
    FinishAsksNobody(v, job, x);
    QuietBudget(v, OnFinished(v, job, x), job, t);
  }

  lemma FinishAsksNobody(v: View, job: Id, x: Id)
    requires Whole(v, job) && x in v.jobs[job].joining
    ensures var v' := OnFinished(v, job, x);
            && SameAsks(v.log, v'.log) && v'.jobs == v.jobs[job := Join(v.jobs[job], x, Finished).0]
            && (v.task.ended ==> v'.task.ended)
            && forall y :: y in v'.timers ==> y in v.timers && v'.timers[y] == v.timers[y]
  {
  }

  lemma TimeoutBudget(v: View, job: Id, x: Id, t: Txn)
    requires Whole(v, job) && Sound(v.jobs[job]) && x in v.jobs[job].joining
    requires t in v.jobs[job].job.txns && Budget(v, job, t)
    requires x in v.timers ==> TimerFits(v.jobs[job], x, v.timers[x])
    requires Reserved(v.jobs[job]) && x !in Fin(v.jobs[job]) ==> v.jobs[job].joining[x].state == Confirmed
    ensures Budget(OnTxnTimeout(v, job, x), job, t)
  {
    var v' := OnTxnTimeout(v, job, x);
    assert Conf(v'.jobs[job]) == Conf(v.jobs[job]);
    if x in v.timers && v.timers[x].delay > 0 && v.timers[x].left > 0 {
      RetryBudget(v, job, x, t);
    } else {
      QuietBudget(v, v', job, t);
    }
  }

  /** A timer with retries left: one retry is used up, and one ask is sent. */
  lemma RetryBudget(v: View, job: Id, x: Id, t: Txn)
    requires Whole(v, job) && x in v.jobs[job].joining && Budget(v, job, t)
    requires x in v.timers && v.timers[x].delay > 0 && v.timers[x].left > 0 && TimerFits(v.jobs[job], x, v.timers[x])
    requires Reserved(v.jobs[job]) ==> v.jobs[job].joining[x].state == Confirmed
    requires Conf(OnTxnTimeout(v, job, x).jobs[job]) == Conf(v.jobs[job])
    ensures Budget(OnTxnTimeout(v, job, x), job, t)
  {
    var v', second := OnTxnTimeout(v, job, x), Reserved(v.jobs[job]);
    var ask := if second then AskedFinish(job, x, Confirmed) else AskedReserve(job, x);
    assert v'.log == v.log + [ask];
    assert Reserves(v', job, t.id) == Reserves(v, job, t.id) + if t.id == x && !second then 1 else 0;
    assert Confirms(v', job, t.id) == Confirms(v, job, t.id) + if t.id == x && second then 1 else 0;
  }

  lemma StopBudget(v: View, job: Id, t: Txn)
    requires Whole(v, job) && Budget(v, job, t)
    ensures Budget(OnJobTimeout(v, job), job, t)
  {
    var r := v.jobs[job];
    CloseSpec(v.timers - {job}, r.job.txns, |r.job.txns|);
    assert Conf(r.(canceled := true)) == Conf(r);
    QuietBudget(v, OnJobTimeout(v, job), job, t);
  }

  lemma OwnBudget(v: View, u: Update, t: Txn, reserved: set<Party>, confirmed: set<Party>)
    requires Known(v, u) && !v.task.ended && !(u.Ack? && u.state == Canceled)
    requires u.Ack? && u.state == Finished ==> Reserved(v.jobs[u.job])
    requires Whole(v, u.job) && Sound(v.jobs[u.job]) && JobOk(v.jobs[u.job], v.timers, reserved, confirmed)
    requires t in v.jobs[u.job].job.txns && Budget(v, u.job, t)
    ensures Budget(Handle(v, u), u.job, t)
  {
    match u
    case Ack(job, txn, Confirmed) => ConfirmBudget(v, job, txn, t);
    case Ack(job, txn, Finished) => FinishBudget(v, job, txn, t);
    case Ack(job, txn, Reserving) =>
    case Ack(job, txn, Canceled) =>
    case TxnTimeout(job, txn) => TimeoutBudget(v, job, txn, t);
    case JobTimeout(job) => StopBudget(v, job, t);
  }

  lemma UpdateBudget(s: Sys, u: Update, t: Txn)
    requires Linked(s) && JobsOk(s) && Honest(s) && AsksGuarded(s.v)
    requires Enabled(s, DeliverUpdate(u)) && !s.v.task.ended
    requires Untouched(s.v, u.job) && !(u.Ack? && u.state == Canceled)
    requires t in s.v.jobs[u.job].job.txns && Budget(s.v, u.job, t)
    ensures Budget(Handle(s.v, u), u.job, t)
  {
    LinkedSound(s, u.job);
    if u.Ack? && u.state == Finished {
      FinishedMeansConfirmed(s, u.job, u.txn);
    }
    OwnBudget(s.v, u, t, s.reserved, s.confirmed);
  }

  // ---- other jobs ----

  /** A handler asks only the transactions of its own job. */
  lemma HandleAsksItsJob(v: View, u: Update, o: Out)
    requires Known(v, u) && Whole(v, u.job) && IsAsk(o) && o.job != u.job
    ensures Count(Handle(v, u).log, o) == Count(v.log, o)
  {
    if !v.task.ended {
      match u {
        case Ack(job, txn, Confirmed) =>
          var (r, complete) := Join(v.jobs[job], txn, Confirmed);
          if complete {
            OthersNotAsked(v.log, r.job, Confirmed, o);
          }
        case Ack(job, txn, Canceled) =>
          OthersNotAsked(v.log + [SawCancel(job, txn)], v.jobs[job].job, Canceled, o);
        case Ack(job, txn, Finished) =>
        case Ack(job, txn, Reserving) =>
        case TxnTimeout(job, txn) =>
        case JobTimeout(job) =>
      }
    }
  }

  lemma OthersNotAsked(log: seq<Out>, job: Job, state: State, o: Out)
    requires IsAsk(o) && o.job != job.id
    ensures Count(log + FinishAsks(job.id, job.txns, state, |job.txns|), o) == Count(log, o)
  {
    FinishAsksAre(job.id, job.txns, state, |job.txns|, o);
    assert o !in FinishAsks(job.id, job.txns, state, |job.txns|);
  }

  lemma OtherBudget(s: Sys, u: Update, j: Id, t: Txn)
    requires Linked(s) && Known(s.v, u) && !s.v.task.ended && j in s.v.jobs && j != u.job
    requires t in s.v.jobs[j].job.txns && Budget(s.v, j, t)
    ensures Budget(Handle(s.v, u), j, t)
  {
    LinkedSound(s, u.job);
    LinkedSound(s, j);
    HandlePreserves(s.v, u);
    HandleFrames(s.v, u);
    JobsApart(s, u.job, j);
    JobsApart(s, j, u.job);
    TxnIn(s.v.jobs[j], t);
    ApartBudget(s.v, Handle(s.v, u), u, j, t);
  }

  lemma ApartBudget(v: View, v': View, u: Update, j: Id, t: Txn)
    requires Known(v, u) && Whole(v, u.job) && v' == Handle(v, u) && j != u.job && Budget(v, j, t)
    requires j in v'.jobs && v'.jobs[j] == v.jobs[j] && !v.task.ended
    requires (t.id in v.timers <==> t.id in v'.timers) && (t.id in v.timers ==> v.timers[t.id] == v'.timers[t.id])
    ensures Budget(v', j, t)
  {
    HandleAsksItsJob(v, u, AskedReserve(j, t.id));
    HandleAsksItsJob(v, u, AskedFinish(j, t.id, Confirmed));
    SameBudget(v, v', j, t);
  }

  // ---- runs ----

  ghost predicate AllInBudget(s: Sys) {
    forall j :: j in s.v.jobs && Untouched(s.v, j) ==> InBudget(s.v, j)
  }

  lemma UpdateKeepsBudget(s: Sys, u: Update)
    requires Linked(s) && JobsOk(s) && Honest(s) && AsksGuarded(s.v) && AllInBudget(s)
    requires Enabled(s, DeliverUpdate(u))
    ensures AllInBudget(s.(v := Handle(s.v, u)))
  {
    var v' := Handle(s.v, u);
    if !s.v.task.ended {
      LinkedSound(s, u.job);
      HandlePreserves(s.v, u);
      forall j, i | j in v'.jobs && Untouched(v', j) && 0 <= i < |v'.jobs[j].job.txns|
        ensures Budget(v', j, v'.jobs[j].job.txns[i])
      {
        assert SameParties(s.v.jobs[j], v'.jobs[j]);
        UntouchedBefore(s.v, v', j);
        UpdateBudgetAt(s, u, j, i);
      }
    }
  }

  lemma UpdateBudgetAt(s: Sys, u: Update, j: Id, i: nat)
    requires Linked(s) && JobsOk(s) && Honest(s) && AsksGuarded(s.v)
    requires Enabled(s, DeliverUpdate(u)) && !s.v.task.ended
    requires j in s.v.jobs && Untouched(s.v, j) && InBudget(s.v, j) && Untouched(Handle(s.v, u), j)
    requires i < |s.v.jobs[j].job.txns|
    ensures Budget(Handle(s.v, u), j, s.v.jobs[j].job.txns[i])
  {
    var t := s.v.jobs[j].job.txns[i];
    assert Budget(s.v, j, t);
    if j != u.job {
      OtherBudget(s, u, j, t);
    } else if u.Ack? && u.state == Canceled {
      CancelTouches(s.v, u.job, u.txn);
    } else {
      UpdateBudget(s, u, t);
    }
  }

  lemma StartKeepsBudget(s: Sys, p: nat)
    requires Linked(s) && AllInBudget(s) && Enabled(s, DeliverJob(p))
    ensures AllInBudget(Apply(s, DeliverJob(p)))
  {
    var v', job := Start(s.v, s.v.task.pending[p]), s.v.task.pending[p];
    forall j, i | j in v'.jobs && Untouched(v', j) && 0 <= i < |v'.jobs[j].job.txns|
      ensures Budget(v', j, v'.jobs[j].job.txns[i])
    {
      if j == job.id {
        StartedBudget(s, p, i);
      } else {
        UntouchedBefore(s.v, v', j);
        StartedOther(s, p, j, i);
      }
    }
  }

  lemma StartedBudget(s: Sys, p: nat, i: nat)
    requires Linked(s) && Enabled(s, DeliverJob(p)) && i < |s.v.task.pending[p].txns|
    ensures var job := s.v.task.pending[p]; Budget(Start(s.v, job), job.id, job.txns[i])
  {
    var v', job := Start(s.v, s.v.task.pending[p]), s.v.task.pending[p];
    var n, x := |job.txns|, job.txns[i].id;
    NotYetAsked(s, AskedReserve(job.id, x));
    NotYetAsked(s, AskedFinish(job.id, x, Confirmed));
    ReserveAsksOnce(job.id, job.txns, n, AskedReserve(job.id, x));
    ReserveAsksOnce(job.id, job.txns, n, AskedFinish(job.id, x, Confirmed));
    ArmAt(s.v.timers[job.id := Timer(None, 0, 0)], job.txns, AskReserve, n, i);
    EnlistSpec(job.txns, n);
    InIds(job.txns, n, x);
    assert x !in Conf(v'.jobs[job.id]) && x in v'.jobs[job.id].joining;
    assert Reserves(v', job.id, x) == 1 && Confirms(v', job.id, x) == 0;
  }

  lemma NotYetAsked(s: Sys, o: Out)
    requires Linked(s) && IsAsk(o) && o.job !in s.v.jobs
    ensures Count(s.v.log, o) == 0
  {
    assert o in s.v.log ==> Known(s.v, Ack(o.job, o.txn, Confirmed));
  }

  lemma StartedOther(s: Sys, p: nat, j: Id, i: nat)
    requires Linked(s) && Enabled(s, DeliverJob(p)) && j in s.v.jobs && j != s.v.task.pending[p].id
    requires InBudget(s.v, j) && i < |s.v.jobs[j].job.txns|
    ensures Budget(Start(s.v, s.v.task.pending[p]), j, s.v.jobs[j].job.txns[i])
  {
    var job, t := s.v.task.pending[p], s.v.jobs[j].job.txns[i];
    LinkedSound(s, j);
    TxnIn(s.v.jobs[j], t);
    StartedApart(s, p, j);
    ReserveAsksAre(job.id, job.txns, |job.txns|, AskedReserve(j, t.id));
    ReserveAsksAre(job.id, job.txns, |job.txns|, AskedFinish(j, t.id, Confirmed));
    assert Budget(s.v, j, t);
    SameBudget(s.v, Start(s.v, job), j, t);
  }

  /** Nothing has changed for the transaction. */
  lemma SameBudget(v: View, v': View, j: Id, t: Txn)
    requires Budget(v, j, t) && j in v'.jobs && v'.jobs[j] == v.jobs[j] && (v.task.ended ==> v'.task.ended)
    requires Reserves(v', j, t.id) == Reserves(v, j, t.id) && Confirms(v', j, t.id) == Confirms(v, j, t.id)
    requires (t.id in v.timers <==> t.id in v'.timers) && (t.id in v.timers ==> v.timers[t.id] == v'.timers[t.id])
    ensures Budget(v', j, t)
  {
  }

  lemma StepKeepsBudget(s: Sys, step: Step)
    requires Linked(s) && JobsOk(s) && Honest(s) && AsksGuarded(s.v) && AllInBudget(s)
    ensures AllInBudget(Apply(s, step))
  {
    if Enabled(s, step) {
      match step
      case DeliverJob(p) => StartKeepsBudget(s, p);
      case DeliverUpdate(u) => UpdateKeepsBudget(s, u);
      case HandleAsk(ask, succeeds) => assert Apply(s, step).v == s.v;
    }
  }

  lemma {:induction false} RunStaysInBudget(pending: seq<Job>, steps: seq<Step>)
    requires WellPlanned(pending)
    ensures AllInBudget(Run(Initial(pending), steps))
  {
    if steps != [] {
      RunStaysInBudget(pending, steps[..|steps| - 1]);
      var k := RunKeepsInv(pending, steps[..|steps| - 1]);
      StepKeepsBudget(Run(Initial(pending), steps[..|steps| - 1]), steps[|steps| - 1]);
    }
  }

  /**
   * In every run, until a cancel of the job has been handled, a transaction is asked to reserve at most
   * `retries + 1` times and to confirm at most `retries + 1` times, and is not asked to confirm before the whole job
   * has reserved.
   */
  lemma AsksAreBounded(pending: seq<Job>, steps: seq<Step>, p: nat, i: nat)
    requires WellPlanned(pending) && p < |pending| && i < |pending[p].txns|
    requires Untouched(Run(Initial(pending), steps).v, pending[p].id)
    ensures var s, job, t := Run(Initial(pending), steps), pending[p], pending[p].txns[i];
            && Reserves(s.v, job.id, t.id) <= t.retries + 1
            && Confirms(s.v, job.id, t.id) <= t.retries + 1
            && (Confirms(s.v, job.id, t.id) > 0 ==>
                  forall x :: x in TxnIds(job) ==> Party(job.id, x) in s.reserved)
  {
    RunStaysLinked(pending, steps);
    ConfirmWaitsForAllReservations(pending, steps, p);
    var s, job, t := Run(Initial(pending), steps), pending[p].id, pending[p].txns[i];
    assert Confirms(s.v, job, t.id) > 0 ==> AskedFinish(job, t.id, Confirmed) in s.v.log;
    if job in s.v.jobs {
      RetriesAreAsks(pending, steps, p, i);
    } else {
      NotYetAsked(s, AskedReserve(job, t.id));
      NotYetAsked(s, AskedFinish(job, t.id, Confirmed));
    }
  }

  /**
   * In every run, once the job is loaded and until a cancel of it has been handled, the account of each of its
   * transactions is balanced: every retry has asked exactly once, in the phase of the job; the asks of the phase and
   * the retries left on the timer add up to one more than the retries; and a transaction that has not reserved is
   * asked again until that is used up.
   */
  lemma RetriesAreAsks(pending: seq<Job>, steps: seq<Step>, p: nat, i: nat)
    requires WellPlanned(pending) && p < |pending| && i < |pending[p].txns|
    requires var v := Run(Initial(pending), steps).v; Untouched(v, pending[p].id) && pending[p].id in v.jobs
    ensures Budget(Run(Initial(pending), steps).v, pending[p].id, pending[p].txns[i])
  {
    RunStaysLinked(pending, steps);
    RunStaysInBudget(pending, steps);
    LoadedIsPlanned(Run(Initial(pending), steps), p);
  }

  /**
   * What a firing timer does, told from the asks so far: as long as the transaction may be asked again, it is asked
   * once more and keeps its timer; after that, or with a zero timeout, the timer is closed and nobody is asked.
   */
  lemma FiringAsksOrCloses(s: Sys, j: Id, t: Txn)
    requires Linked(s) && JobsOk(s) && Untouched(s.v, j) && !s.v.task.ended
    requires j in s.v.jobs && t in s.v.jobs[j].job.txns && Budget(s.v, j, t) && t.id in s.v.timers
    ensures Known(s.v, TxnTimeout(j, t.id)) && AsksOrCloses(s.v, Handle(s.v, TxnTimeout(j, t.id)), j, t)
  {
    LinkedSound(s, j);
    TxnIn(s.v.jobs[j], t);
    assert JobOk(s.v.jobs[j], s.v.timers, s.reserved, s.confirmed);
    FiringAt(s.v, j, t);
  }

  ghost predicate AsksOrCloses(v: View, v': View, j: Id, t: Txn)
    requires j in v.jobs
  {
    if t.timeout > 0 && PhaseAsks(v, j, t.id) < 1 + t.retries
    then t.id in v'.timers && j in v'.jobs && PhaseAsks(v', j, t.id) == PhaseAsks(v, j, t.id) + 1
    else t.id !in v'.timers && v'.log == v.log
  }

  lemma FiringAt(v: View, j: Id, t: Txn)
    requires Whole(v, j) && t.id in v.jobs[j].joining && Budget(v, j, t) && t.id in v.timers
    requires TimerFits(v.jobs[j], t.id, v.timers[t.id])
    requires Reserved(v.jobs[j]) ==> v.jobs[j].joining[t.id].state == Confirmed
    ensures AsksOrCloses(v, OnTxnTimeout(v, j, t.id), j, t)
  {
    var v' := OnTxnTimeout(v, j, t.id);
    assert Conf(v'.jobs[j]) == Conf(v.jobs[j]);
    if t.timeout > 0 && PhaseAsks(v, j, t.id) < 1 + t.retries {
      RetryBudget(v, j, t.id, t);
      assert v'.timers[t.id].left + 1 == v.timers[t.id].left;
    }
  }
}
