/**
 * Who is asked.  In every run, with any cancels, the transactions of a job are asked in rounds: each round asks every
 * one of them exactly once, and apart from that each is asked once for every retry.  Every cancel that is handled makes
 * a round that asks all of them to cancel.
 */
module Rounds {
  import opened Tcc
  import opened TccFacts
  import opened Coordination
  import opened Barrier

  // ---- counting in the log ----

  function Tally(log: seq<Out>, p: Out -> bool): nat {
    if log == [] then 0 else Tally(log[..|log| - 1], p) + if p(log[|log| - 1]) then 1 else 0
  }

  lemma {:induction false} TallyAppend(a: seq<Out>, b: seq<Out>, p: Out -> bool)
    ensures Tally(a + b, p) == Tally(a, p) + Tally(b, p)
  {
    if b == [] {
      assert a + b == a;
    } else {
      assert (a + b)[..|a + b| - 1] == a + b[..|b| - 1];
      TallyAppend(a, b[..|b| - 1], p);
    }
  }

  lemma {:induction false} TallyNone(log: seq<Out>, p: Out -> bool)
    requires forall o :: o in log ==> !p(o)
    ensures Tally(log, p) == 0
  {
    if log != [] {
      assert log[|log| - 1] in log;
      TallyNone(log[..|log| - 1], p);
    }
  }

  lemma {:induction false} TallySome(log: seq<Out>, p: Out -> bool, o: Out)
    requires o in log && p(o)
    ensures Tally(log, p) > 0
  {
    if log[|log| - 1] != o {
      TallySome(log[..|log| - 1], p, o);
    }
  }

  /** Asks of any kind to one transaction. */
  function AskTo(j: Id, x: Id): Out -> bool {
    (o: Out) => IsAsk(o) && o.job == j && o.txn == x
  }

  function CancelAskTo(j: Id, x: Id): Out -> bool {
    (o: Out) => o == AskedFinish(j, x, Canceled)
  }

  /** Handled cancels of the job. */
  function CancelOf(j: Id): Out -> bool {
    (o: Out) => o.SawCancel? && o.job == j
  }

  lemma {:induction false} ReserveRound(job: Id, txns: seq<Txn>, k: nat, x: Id)
    requires k <= |txns| && DistinctTxns(txns)
    ensures var os := ReserveAsks(job, txns, k);
            && Tally(os, AskTo(job, x)) == (if x in Ids(txns, k) then 1 else 0)
            && Tally(os, CancelAskTo(job, x)) == 0 && Tally(os, CancelOf(job)) == 0
  {
    if k > 0 {
      ReserveRound(job, txns, k - 1, x);
      InIds(txns, k - 1, txns[k - 1].id);
      var os := ReserveAsks(job, txns, k);
      assert os[..|os| - 1] == ReserveAsks(job, txns, k - 1);
    }
  }

  lemma {:induction false} FinishRound(job: Id, txns: seq<Txn>, state: State, k: nat, x: Id)
    requires k <= |txns| && DistinctTxns(txns)
    ensures var os := FinishAsks(job, txns, state, k);
            && Tally(os, AskTo(job, x)) == (if x in Ids(txns, k) then 1 else 0)
            && Tally(os, CancelAskTo(job, x)) == (if state == Canceled && x in Ids(txns, k) then 1 else 0)
            && Tally(os, CancelOf(job)) == 0
  {
    if k > 0 {
      FinishRound(job, txns, state, k - 1, x);
      InIds(txns, k - 1, txns[k - 1].id);
      var os := FinishAsks(job, txns, state, k);
      assert os[..|os| - 1] == FinishAsks(job, txns, state, k - 1);
    }
  }

  // ---- the invariant of a job ----

  /** After `n` rounds: one ask for every round and one for every retry, and a cancel for every handled cancel. */
  ghost predicate AskedAlike(log: seq<Out>, r: JobRes, n: nat) {
    && Tally(log, CancelOf(r.job.id)) < n
    && forall x :: x in r.joining ==>
         && Tally(log, AskTo(r.job.id, x)) == r.joining[x].retried + n
         && Tally(log, CancelAskTo(r.job.id, x)) >= Tally(log, CancelOf(r.job.id))
  }

  /** The timer of a transaction asks it for something, after its timeout and no more often than it may. */
  ghost predicate TimerAsks(timers: map<Id, Timer>, t: Txn) {
    t.id in timers ==>
      timers[t.id].retry != None && timers[t.id].delay == t.timeout && timers[t.id].left <= t.retries
  }

  ghost predicate TimersAsk(timers: map<Id, Timer>, job: Job) {
    forall t :: t in job.txns ==> TimerAsks(timers, t)
  }

  ghost predicate InRounds(v: View, j: Id, n: nat) {
    j in v.jobs && AskedAlike(v.log, v.jobs[j], n) && TimersAsk(v.timers, v.jobs[j].job)
  }

  // ---- what one event adds to the log ----

  /** No asks and no cancels. */
  ghost predicate Silent(os: seq<Out>) {
    forall o :: o in os ==> !IsAsk(o) && !o.SawCancel?
  }

  lemma SilentTally(log: seq<Out>, os: seq<Out>, j: Id, x: Id)
    requires Silent(os)
    ensures Tally(log + os, AskTo(j, x)) == Tally(log, AskTo(j, x))
    ensures Tally(log + os, CancelAskTo(j, x)) == Tally(log, CancelAskTo(j, x))
    ensures Tally(log + os, CancelOf(j)) == Tally(log, CancelOf(j))
  {
    TallyAppend(log, os, AskTo(j, x));
    TallyAppend(log, os, CancelAskTo(j, x));
    TallyAppend(log, os, CancelOf(j));
    TallyNone(os, AskTo(j, x));
    TallyNone(os, CancelAskTo(j, x));
    TallyNone(os, CancelOf(j));
  }

  lemma SilentAlike(log: seq<Out>, os: seq<Out>, r: JobRes, r': JobRes, n: nat)
    requires AskedAlike(log, r, n) && Silent(os) && SameParties(r, r')
    requires forall x :: x in r.joining ==> r'.joining[x].retried == r.joining[x].retried
    ensures AskedAlike(log + os, r', n)
  {
    SilentTally(log, os, r.job.id, 0);
    forall x | x in r'.joining
      ensures Tally(log + os, AskTo(r.job.id, x)) == r'.joining[x].retried + n
      ensures Tally(log + os, CancelAskTo(r.job.id, x)) >= Tally(log + os, CancelOf(r.job.id))
    {
      SilentTally(log, os, r.job.id, x);
    }
  }

  /** Another round: everybody is asked once. */
  lemma RoundAlike(log: seq<Out>, r: JobRes, r': JobRes, state: State, n: nat)
    requires AskedAlike(log, r, n) && Sound(r) && SameParties(r, r')
    requires forall x :: x in r.joining ==> r'.joining[x].retried == r.joining[x].retried
    ensures AskedAlike(log + FinishAsks(r.job.id, r.job.txns, state, |r.job.txns|), r', n + 1)
  {
    var j, os := r.job.id, FinishAsks(r.job.id, r.job.txns, state, |r.job.txns|);
    TallyAppend(log, os, CancelOf(j));
    FinishRound(j, r.job.txns, state, |r.job.txns|, 0);
    forall x | x in r'.joining
      ensures Tally(log + os, AskTo(j, x)) == r'.joining[x].retried + n + 1
      ensures Tally(log + os, CancelAskTo(j, x)) >= Tally(log + os, CancelOf(j))
    {
      TallyAppend(log, os, AskTo(j, x));
      TallyAppend(log, os, CancelAskTo(j, x));
      FinishRound(j, r.job.txns, state, |r.job.txns|, x);
    }
  }

  lemma CancelRound(log: seq<Out>, r: JobRes, r': JobRes, txn: Id, n: nat)
    requires AskedAlike(log, r, n) && Sound(r) && SameParties(r, r')
    requires forall x :: x in r.joining ==> r'.joining[x].retried == r.joining[x].retried
    ensures AskedAlike(log + [SawCancel(r.job.id, txn)] + FinishAsks(r.job.id, r.job.txns, Canceled, |r.job.txns|),
                       r', n + 1)
  {
    var j, os := r.job.id, FinishAsks(r.job.id, r.job.txns, Canceled, |r.job.txns|);
    var mid := log + [SawCancel(j, txn)];
    assert mid[..|mid| - 1] == log;
    TallyAppend(mid, os, CancelOf(j));
    FinishRound(j, r.job.txns, Canceled, |r.job.txns|, 0);
    forall x | x in r'.joining
      ensures Tally(mid + os, AskTo(j, x)) == r'.joining[x].retried + n + 1
      ensures Tally(mid + os, CancelAskTo(j, x)) >= Tally(mid + os, CancelOf(j))
    {
      TallyAppend(mid, os, AskTo(j, x));
      TallyAppend(mid, os, CancelAskTo(j, x));
      FinishRound(j, r.job.txns, Canceled, |r.job.txns|, x);
    }
  }

  /** A retry asks one transaction once. */
  lemma RetryAlike(log: seq<Out>, r: JobRes, txn: Id, o: Out, n: nat)
    requires AskedAlike(log, r, n) && txn in r.joining && AskTo(r.job.id, txn)(o)
    ensures var tr := r.joining[txn].(retried := r.joining[txn].retried + 1);
            AskedAlike(log + [o], r.(joining := r.joining[txn := tr]), n)
  {
    assert (log + [o])[..|log|] == log;
  }

  lemma ArmedAsk(timers: map<Id, Timer>, job: Job, retry: Retry)
    requires DistinctTxns(job.txns) && retry != None
    ensures TimersAsk(Arm(timers, job.txns, retry, |job.txns|), job)
  {
    forall t | t in job.txns ensures TimerAsks(Arm(timers, job.txns, retry, |job.txns|), t) {
      var i :| 0 <= i < |job.txns| && job.txns[i] == t;
      ArmAt(timers, job.txns, retry, |job.txns|, i);
    }
  }

  lemma ClosedAsk(timers: map<Id, Timer>, timers': map<Id, Timer>, job: Job)
    requires TimersAsk(timers, job) && forall x :: x in timers' ==> x in timers && timers'[x] == timers[x]
    ensures TimersAsk(timers', job)
  {
    forall t | t in job.txns ensures TimerAsks(timers', t) {
      assert TimerAsks(timers, t);
    }
  }

  // ---- the job of the event ----

  ghost predicate SameRetried(r: JobRes, r': JobRes) {
    SameParties(r, r') && forall x :: x in r.joining ==> r'.joining[x].retried == r.joining[x].retried
  }

  lemma JoinSameRetried(r: JobRes, x: Id, state: State)
    requires x in r.joining
    ensures SameRetried(r, Join(r, x, state).0)
  {
  }

  lemma MarkSameRetried(r: JobRes, state: State)
    ensures SameRetried(r, r.(confirmed := 0, joining := Mark(r.joining, r.job.txns, state, |r.job.txns|)))
  {
    MarkSpec(r.joining, r.job.txns, state, |r.job.txns|);
  }

  lemma QuietRounds(v: View, v': View, os: seq<Out>, j: Id, n: nat)
    requires InRounds(v, j, n) && j in v'.jobs && SameRetried(v.jobs[j], v'.jobs[j])
    requires v'.log == v.log + os && Silent(os)
    requires forall x :: x in v'.timers ==> x in v.timers && v'.timers[x] == v.timers[x]
    ensures InRounds(v', j, n)
  {
    SilentAlike(v.log, os, v.jobs[j], v'.jobs[j], n);
    ClosedAsk(v.timers, v'.timers, v.jobs[j].job);
  }

  lemma ConfirmRounds(v: View, j: Id, x: Id, n: nat) returns (n': nat)
    requires Whole(v, j) && Sound(v.jobs[j]) && x in v.jobs[j].joining && InRounds(v, j, n)
    ensures InRounds(OnConfirmed(v, j, x), j, n')
  {
    n' := n;
    var v' := OnConfirmed(v, j, x);
    JoinSameRetried(v.jobs[j], x, Confirmed);
    var (r, complete) := Join(v.jobs[j], x, Confirmed);
    if complete {
      n' := n + 1;
      MarkSameRetried(r, Confirmed);
      RoundAlike(v.log, v.jobs[j], v'.jobs[j], Confirmed, n);
      ArmedAsk(v.timers - {x}, r.job, AskFinish);
    } else {
      assert v.log + [] == v.log;
      QuietRounds(v, v', [], j, n);
    }
  }

  lemma CancelRounds(v: View, j: Id, x: Id, n: nat)
    requires Whole(v, j) && Sound(v.jobs[j]) && x in v.jobs[j].joining && InRounds(v, j, n)
    ensures InRounds(OnCanceled(v, j, x), j, n + 1)
  {
    var r, v' := v.jobs[j], OnCanceled(v, j, x);
    var r' := r.(canceled := true, joining := r.joining[x := r.joining[x].(canceled := true)]);
    MarkSameRetried(r', Canceled);
    CancelRound(v.log, r, v'.jobs[j], x, n);
    ArmedAsk(v.timers - {x}, r.job, AskFinish);
  }

  lemma FinishRounds(v: View, j: Id, x: Id, n: nat)
    requires Whole(v, j) && x in v.jobs[j].joining && InRounds(v, j, n)
    ensures InRounds(OnFinished(v, j, x), j, n)
  {
    var v' := OnFinished(v, j, x);
    JoinSameRetried(v.jobs[j], x, Finished);
    var os := v'.log[|v.log|..];
    assert v'.log == v.log + os && Silent(os);
    QuietRounds(v, v', os, j, n);
  }

  lemma TimeoutRounds(v: View, j: Id, x: Id, n: nat)
    requires Whole(v, j) && Sound(v.jobs[j]) && x in v.jobs[j].joining && InRounds(v, j, n)
    ensures InRounds(OnTxnTimeout(v, j, x), j, n)
  {
    var r, v' := v.jobs[j], OnTxnTimeout(v, j, x);
    if x in v.timers && v.timers[x].delay > 0 && v.timers[x].left > 0 {
      TimerIsAsk(v.timers, r, x);
      RetryRounds(v, j, x, n);
    } else {
      assert v.log + [] == v.log;
      QuietRounds(v, v', [], j, n);
    }
  }

  lemma TimerIsAsk(timers: map<Id, Timer>, r: JobRes, x: Id)
    requires Sound(r) && TimersAsk(timers, r.job) && x in r.joining && x in timers
    ensures timers[x].retry != None
  {
    InIds(r.job.txns, |r.job.txns|, x);
    var i :| 0 <= i < |r.job.txns| && r.job.txns[i].id == x;
    assert TimerAsks(timers, r.job.txns[i]);
  }

  lemma RetryRounds(v: View, j: Id, x: Id, n: nat)
    requires Whole(v, j) && x in v.jobs[j].joining && InRounds(v, j, n)
    requires x in v.timers && v.timers[x].delay > 0 && v.timers[x].left > 0 && v.timers[x].retry != None
    ensures InRounds(OnTxnTimeout(v, j, x), j, n)
  {
    var r := v.jobs[j];
    var o := if v.timers[x].retry == AskReserve then AskedReserve(j, x) else AskedFinish(j, x, r.joining[x].state);
    RetryAlike(v.log, r, x, o, n);
    RetriedAsk(v.timers, r.job, x);
  }

  lemma RetriedAsk(timers: map<Id, Timer>, job: Job, x: Id)
    requires TimersAsk(timers, job) && x in timers && timers[x].left > 0
    ensures TimersAsk(timers[x := timers[x].(left := timers[x].left - 1)], job)
  {
    forall t | t in job.txns ensures TimerAsks(timers[x := timers[x].(left := timers[x].left - 1)], t) {
      assert TimerAsks(timers, t);
    }
  }

  lemma StopRounds(v: View, j: Id, n: nat)
    requires Whole(v, j) && InRounds(v, j, n)
    ensures InRounds(OnJobTimeout(v, j), j, n)
  {
    var r, v' := v.jobs[j], OnJobTimeout(v, j);
    CloseSpec(v.timers - {j}, r.job.txns, |r.job.txns|);
    QuietRounds(v, v', [Ended], j, n);
  }

  lemma OwnRounds(v: View, u: Update, n: nat) returns (n': nat)
    requires Known(v, u) && Whole(v, u.job) && Sound(v.jobs[u.job]) && !v.task.ended && InRounds(v, u.job, n)
    ensures InRounds(Handle(v, u), u.job, n')
  {
    n' := n;
    match u {
      case Ack(job, txn, Confirmed) => n' := ConfirmRounds(v, job, txn, n);
      case Ack(job, txn, Canceled) =>
        CancelRounds(v, job, txn, n);
        n' := n + 1;
      case Ack(job, txn, Finished) => FinishRounds(v, job, txn, n);
      case Ack(job, txn, Reserving) =>
      case TxnTimeout(job, txn) => TimeoutRounds(v, job, txn, n);
      case JobTimeout(job) => StopRounds(v, job, n);
    }
  }

  // ---- other jobs ----

  /** Asks and cancels only of `job`. */
  ghost predicate Only(os: seq<Out>, job: Id) {
    forall o :: o in os && (IsAsk(o) || o.SawCancel?) ==> o.job == job
  }

  /** What an event adds to the log. */
  lemma HandleAppends(v: View, u: Update) returns (os: seq<Out>)
    requires Known(v, u) && Whole(v, u.job)
    ensures Handle(v, u).log == v.log + os && Only(os, u.job)
  {
    os := [];
    assert v.log + [] == v.log;
    if !v.task.ended {
      match u {
        case Ack(job, txn, Confirmed) =>
          var (r, complete) := Join(v.jobs[job], txn, Confirmed);
          if complete {
            os := FinishAsks(job, r.job.txns, Confirmed, |r.job.txns|);
            AsksOnly(job, r.job.txns, Confirmed);
          }
        case Ack(job, txn, Canceled) => os := CancelAppends(v, job, txn);
        case Ack(job, txn, Finished) => os := OnFinished(v, job, txn).log[|v.log|..];
        case Ack(job, txn, Reserving) =>
        case TxnTimeout(job, txn) => os := OnTxnTimeout(v, job, txn).log[|v.log|..];
        case JobTimeout(job) => os := [Ended];
      }
    }
  }

  lemma CancelAppends(v: View, job: Id, txn: Id) returns (os: seq<Out>)
    requires Whole(v, job) && txn in v.jobs[job].joining
    ensures OnCanceled(v, job, txn).log == v.log + os && Only(os, job)
  {
    var asks := FinishAsks(job, v.jobs[job].job.txns, Canceled, |v.jobs[job].job.txns|);
    AsksOnly(job, v.jobs[job].job.txns, Canceled);
    os := [SawCancel(job, txn)] + asks;
  }

  lemma AsksOnly(job: Id, txns: seq<Txn>, state: State)
    ensures Only(FinishAsks(job, txns, state, |txns|), job)
  {
    forall o | o in FinishAsks(job, txns, state, |txns|) ensures o.AskedFinish? && o.job == job {
      FinishAsksAre(job, txns, state, |txns|, o);
    }
  }

  lemma OthersAlike(log: seq<Out>, os: seq<Out>, job: Id, r: JobRes, n: nat)
    requires AskedAlike(log, r, n) && Only(os, job) && r.job.id != job
    ensures AskedAlike(log + os, r, n)
  {
    var j := r.job.id;
    TallyAppend(log, os, CancelOf(j));
    TallyNone(os, CancelOf(j));
    forall x | x in r.joining
      ensures Tally(log + os, AskTo(j, x)) == r.joining[x].retried + n
      ensures Tally(log + os, CancelAskTo(j, x)) >= Tally(log + os, CancelOf(j))
    {
      TallyAppend(log, os, AskTo(j, x));
      TallyAppend(log, os, CancelAskTo(j, x));
      TallyNone(os, AskTo(j, x));
      TallyNone(os, CancelAskTo(j, x));
    }
  }

  lemma ApartAsk(timers: map<Id, Timer>, timers': map<Id, Timer>, own: set<Id>, job: Job)
    requires TimersAsk(timers, job) && TimersAlike(timers, timers', own) && TxnIds(job) !! own
    ensures TimersAsk(timers', job)
  {
    forall t | t in job.txns ensures TimerAsks(timers', t) {
      InIds(job.txns, |job.txns|, t.id);
      assert TimerAsks(timers, t);
    }
  }

  lemma OtherRounds(s: Sys, u: Update, j: Id, n: nat)
    requires Linked(s) && Known(s.v, u) && !s.v.task.ended && j != u.job && InRounds(s.v, j, n)
    ensures InRounds(Handle(s.v, u), j, n)
  {
    LinkedSound(s, u.job);
    LinkedSound(s, j);
    HandlePreserves(s.v, u);
    HandleFrames(s.v, u);
    JobsApart(s, u.job, j);
    var os := HandleAppends(s.v, u);
    OthersAlike(s.v.log, os, u.job, s.v.jobs[j], n);
    JobsApart(s, j, u.job);
    JobsApart(s, u.job, j);
    ApartAsk(s.v.timers, Handle(s.v, u).timers, TxnIds(s.v.jobs[u.job].job) + {u.job}, s.v.jobs[j].job);
  }

  // ---- runs ----

  ghost predicate AllInRounds(v: View) {
    && (forall j :: j in v.jobs ==> exists n :: InRounds(v, j, n))
    && (forall o :: o in v.log && o.SawCancel? ==> o.job in v.jobs)
  }

  lemma UpdateKeepsRounds(s: Sys, u: Update)
    requires Linked(s) && AllInRounds(s.v) && Known(s.v, u)
    ensures AllInRounds(Handle(s.v, u))
  {
    var v' := Handle(s.v, u);
    if !s.v.task.ended {
      LinkedSound(s, u.job);
      HandlePreserves(s.v, u);
      var os := HandleAppends(s.v, u);
      forall j | j in v'.jobs ensures exists n :: InRounds(v', j, n) {
        var n :| InRounds(s.v, j, n);
        if j == u.job {
          n := OwnRounds(s.v, u, n);
        } else {
          OtherRounds(s, u, j, n);
        }
        assert InRounds(v', j, n);
      }
    }
  }

  lemma StartedAlike(s: Sys, p: nat)
    requires Linked(s) && AllInRounds(s.v) && Enabled(s, DeliverJob(p))
    ensures InRounds(Start(s.v, s.v.task.pending[p]), s.v.task.pending[p].id, 1)
  {
    var job, v' := s.v.task.pending[p], Start(s.v, s.v.task.pending[p]);
    var n := |job.txns|;
    EnlistSpec(job.txns, n);
    ArmedAsk(s.v.timers[job.id := Timer(None, 0, 0)], job, AskReserve);
    NeverMentioned(s, job.id, 0);
    TallyAppend(s.v.log, ReserveAsks(job.id, job.txns, n), CancelOf(job.id));
    ReserveRound(job.id, job.txns, n, 0);
    forall x | x in v'.jobs[job.id].joining
      ensures Tally(v'.log, AskTo(job.id, x)) == 1 && Tally(v'.log, CancelAskTo(job.id, x)) >= 0
    {
      NeverMentioned(s, job.id, x);
      TallyAppend(s.v.log, ReserveAsks(job.id, job.txns, n), AskTo(job.id, x));
      ReserveRound(job.id, job.txns, n, x);
    }
  }

  lemma NeverMentioned(s: Sys, j: Id, x: Id)
    requires Linked(s) && AllInRounds(s.v) && j !in s.v.jobs
    ensures Tally(s.v.log, AskTo(j, x)) == 0 && Tally(s.v.log, CancelOf(j)) == 0
  {
    forall o | o in s.v.log ensures !AskTo(j, x)(o) && !CancelOf(j)(o) {
      assert IsAsk(o) ==> Known(s.v, Ack(o.job, o.txn, Confirmed));
    }
    TallyNone(s.v.log, AskTo(j, x));
    TallyNone(s.v.log, CancelOf(j));
  }

  lemma StartedRounds(s: Sys, p: nat, j: Id, n: nat)
    requires Linked(s) && Enabled(s, DeliverJob(p)) && j != s.v.task.pending[p].id && InRounds(s.v, j, n)
    ensures InRounds(Start(s.v, s.v.task.pending[p]), j, n)
  {
    var job, v' := s.v.task.pending[p], Start(s.v, s.v.task.pending[p]);
    LinkedSound(s, j);
    JobNotPlanned(s, p, j);
    var os := ReserveAsks(job.id, job.txns, |job.txns|);
    forall o | o in os ensures o.AskedReserve? && o.job == job.id {
      ReserveAsksAre(job.id, job.txns, |job.txns|, o);
    }
    OthersAlike(s.v.log, os, job.id, s.v.jobs[j], n);
    ArmKeys(s.v.timers[job.id := Timer(None, 0, 0)], job.txns, AskReserve, |job.txns|);
    ApartAsk(s.v.timers, v'.timers, TxnIds(job) + {job.id}, s.v.jobs[j].job);
  }

  lemma StartKeepsRounds(s: Sys, p: nat)
    requires Linked(s) && AllInRounds(s.v) && Enabled(s, DeliverJob(p))
    ensures AllInRounds(Start(s.v, s.v.task.pending[p]))
  {
    var job, v' := s.v.task.pending[p], Start(s.v, s.v.task.pending[p]);
    forall o | o in v'.log && o.SawCancel? ensures o.job in v'.jobs {
      ReserveAsksAre(job.id, job.txns, |job.txns|, o);
    }
    forall j | j in v'.jobs ensures exists n :: InRounds(v', j, n) {
      if j == job.id {
        StartedAlike(s, p);
        assert InRounds(v', j, 1);
      } else {
        var n :| InRounds(s.v, j, n);
        StartedRounds(s, p, j, n);
        assert InRounds(v', j, n);
      }
    }
  }

  lemma {:induction false} RunStaysInRounds(pending: seq<Job>, steps: seq<Step>)
    requires WellPlanned(pending)
    ensures AllInRounds(Run(Initial(pending), steps).v)
  {
    if steps != [] {
      var init, step := steps[..|steps| - 1], steps[|steps| - 1];
      RunStaysInRounds(pending, init);
      RunStaysLinked(pending, init);
      StepKeepsRounds(Run(Initial(pending), init), step);
    }
  }

  lemma StepKeepsRounds(s: Sys, step: Step)
    requires Linked(s) && AllInRounds(s.v)
    ensures AllInRounds(Apply(s, step).v)
  {
    match step
    case DeliverJob(p) => JobStepKeepsRounds(s, p);
    case DeliverUpdate(u) => UpdateStepKeepsRounds(s, u);
    case HandleAsk(_, _) => assert Apply(s, step).v == s.v;
  }

  lemma JobStepKeepsRounds(s: Sys, p: nat)
    requires Linked(s) && AllInRounds(s.v)
    ensures AllInRounds(Apply(s, DeliverJob(p)).v)
  {
    if Enabled(s, DeliverJob(p)) {
      StartKeepsRounds(s, p);
    }
  }

  lemma UpdateStepKeepsRounds(s: Sys, u: Update)
    requires Linked(s) && AllInRounds(s.v)
    ensures AllInRounds(Apply(s, DeliverUpdate(u)).v)
  {
    if Enabled(s, DeliverUpdate(u)) {
      UpdateKeepsRounds(s, u);
    }
  }

  /**
   * In every run, whatever is canceled, a loaded job has been through some number of rounds, more than the cancels
   * of it that were handled.  Each of its transactions has been asked exactly once for every round and once for every
   * retry, and has been asked to cancel at least once for every cancel handled.
   */
  lemma EveryoneIsAskedAlike(pending: seq<Job>, steps: seq<Step>, p: nat) returns (rounds: nat)
    requires WellPlanned(pending) && p < |pending|
    requires pending[p].id in Run(Initial(pending), steps).v.jobs
    ensures var v, j := Run(Initial(pending), steps).v, pending[p].id;
            && Tally(v.log, CancelOf(j)) < rounds
            && forall x :: x in TxnIds(pending[p]) ==>
                 && x in v.jobs[j].joining
                 && Tally(v.log, AskTo(j, x)) == rounds + v.jobs[j].joining[x].retried
                 && Tally(v.log, CancelAskTo(j, x)) >= Tally(v.log, CancelOf(j))
  {
    var s := Run(Initial(pending), steps);
    RunStaysInRounds(pending, steps);
    RunStaysLinked(pending, steps);
    LoadedIsPlanned(s, p);
    LinkedSound(s, pending[p].id);
    rounds :| InRounds(s.v, pending[p].id, rounds);
  }

  /** Once a cancel of a job has been handled, every transaction of it has been asked to cancel. */
  lemma CancelReachesEveryone(pending: seq<Job>, steps: seq<Step>, p: nat, x: Id, y: Id)
    requires WellPlanned(pending) && p < |pending|
    requires SawCancel(pending[p].id, x) in Run(Initial(pending), steps).v.log && y in TxnIds(pending[p])
    ensures AskedFinish(pending[p].id, y, Canceled) in Run(Initial(pending), steps).v.log
  {
    var v, j := Run(Initial(pending), steps).v, pending[p].id;
    RunStaysInRounds(pending, steps);
    var n := EveryoneIsAskedAlike(pending, steps, p);
    TallySome(v.log, CancelOf(j), SawCancel(j, x));
    if AskedFinish(j, y, Canceled) !in v.log {
      TallyNone(v.log, CancelAskTo(j, y));
    }
  }

  /** Every transaction of the job is in the given state and has a fresh timer that asks it to finish. */
  ghost predicate Told(v: View, job: Job, state: State) {
    job.id in v.jobs && forall t :: t in job.txns ==>
      && t.id in v.jobs[job.id].joining && v.jobs[job.id].joining[t.id].state == state
      && t.id in v.timers && v.timers[t.id] == Timer(AskFinish, t.timeout, t.retries)
  }

  lemma AskAllTells(v: View, r: JobRes, state: State)
    requires Sound(r)
    ensures Told(AskAllToFinish(v, r, state), r.job, state)
  {
    var n := |r.job.txns|;
    MarkSpec(r.joining, r.job.txns, state, n);
    forall t | t in r.job.txns
      ensures var m := Mark(r.joining, r.job.txns, state, n); t.id in m && m[t.id].state == state
      ensures t.id in Arm(v.timers, r.job.txns, AskFinish, n)
      ensures Arm(v.timers, r.job.txns, AskFinish, n)[t.id] == Timer(AskFinish, t.timeout, t.retries)
    {
      InIds(r.job.txns, n, t.id);
      var i :| 0 <= i < n && r.job.txns[i] == t;
      ArmAt(v.timers, r.job.txns, AskFinish, n, i);
    }
  }

  /**
   * A cancel gives up the jobs that are left and puts every transaction of the job, whatever it had answered before,
   * into the canceled state with all its retries; so what its timer repeats is the cancel.
   */
  lemma CancelTellsEveryone(s: Sys, u: Update)
    requires Linked(s) && Known(s.v, u) && !s.v.task.ended && u.Ack? && u.state == Canceled
    ensures var v' := Handle(s.v, u);
            Told(v', s.v.jobs[u.job].job, Canceled) && v'.task.jobIndex == |v'.task.pending|
  {
    LinkedSound(s, u.job);
    var r := s.v.jobs[u.job];
    AskAllTells(s.v.(task := s.v.task.(jobIndex := |s.v.task.pending|, canceled := true),
                     timers := s.v.timers - {u.txn}, log := s.v.log + [SawCancel(u.job, u.txn)]),
                r.(canceled := true, joining := r.joining[u.txn := r.joining[u.txn].(canceled := true)]), Canceled);
  }

  /** The reservation that completes the first phase does the same with the confirmed state. */
  lemma LastReservationTellsEveryone(s: Sys, u: Update)
    requires Linked(s) && Known(s.v, u) && !s.v.task.ended && u.Ack? && u.state == Confirmed
    requires Join(s.v.jobs[u.job], u.txn, Confirmed).1
    ensures Told(Handle(s.v, u), s.v.jobs[u.job].job, Confirmed)
    ensures Handle(s.v, u).jobs[u.job].confirmed == 0
  {
    LinkedSound(s, u.job);
    AskAllTells(s.v.(timers := s.v.timers - {u.txn}), Join(s.v.jobs[u.job], u.txn, Confirmed).0, Confirmed);
  }
}
