/**
 * Jobs that outlive their task.  A late timer of a completed job can end the task while the next job still waits in the
 * jobs channel; once the task is cleared, taking that job from the channel follows a missing entry.
 */
module Leftover {
  import opened Tcc
  import opened Coordination
  import opened Barrier
  import opened Drive

  /** The run ends the task and leaves job `p` in the channel. */
  ghost predicate LeavesJob(pending: seq<Job>, steps: seq<Step>, p: nat)
    requires pending != []
  {
    var s := Run(Initial(pending), steps);
    s.v.task.ended && Enabled(s, DeliverJob(p))
  }

  lemma RunSnoc(s: Sys, steps: seq<Step>, step: Step)
    ensures Run(s, steps + [step]) == Apply(Run(s, steps), step)
  {
    assert (steps + [step])[..|steps + [step]| - 1] == steps;
  }

  /** A job timeout ends the task and takes nothing from the channel. */
  lemma TimeoutLeaves(s: Sys, j: Id, p: nat)
    requires j in s.v.jobs && !s.v.task.ended && Enabled(s, DeliverJob(p))
    ensures var s' := Apply(s, DeliverUpdate(JobTimeout(j))); s'.v.task.ended && Enabled(s', DeliverJob(p))
  {
  }

  /** Whenever job `p` can be reached and is not the first, the timer of the job before it can leave it behind. */
  lemma LateTimerLeavesJob(pending: seq<Job>, p: nat) returns (steps: seq<Step>)
    requires WellPlanned(pending) && 0 < p < |pending|
    requires forall q :: 0 <= q < p ==> pending[q].txns != []
    ensures LeavesJob(pending, steps, p)
  {
    var s := ReachJob(pending, p);
    var before: seq<Step> :| Run(Initial(pending), before) == s;
    NextJobWaitsForCompletion(pending, before, p - 1, p);
    TimeoutLeaves(s, pending[p - 1].id, p);
    steps := before + [DeliverUpdate(JobTimeout(pending[p - 1].id))];
    RunSnoc(Initial(pending), before, DeliverUpdate(JobTimeout(pending[p - 1].id)));
  }

  /** A task ends only after a job of it has been loaded. */
  lemma {:induction false} EndedIsLoaded(pending: seq<Job>, steps: seq<Step>)
    requires pending != []
    ensures var v := Run(Initial(pending), steps).v; v.task.ended ==> v.jobs != map[]
  {
    if steps != [] {
      var init, step := steps[..|steps| - 1], steps[|steps| - 1];
      EndedIsLoaded(pending, init);
      StepKeepsLoaded(Run(Initial(pending), init), step);
    }
  }

  lemma StepKeepsLoaded(s: Sys, step: Step)
    requires s.v.task.ended ==> s.v.jobs != map[]
    ensures Apply(s, step).v.task.ended ==> Apply(s, step).v.jobs != map[]
  {
    if Enabled(s, step) {
      match step
      case DeliverJob(p) =>
        assert s.v.task.pending[p].id in Apply(s, step).v.jobs;
      case DeliverUpdate(u) => HandleKeepsLoaded(s.v, u);
      case HandleAsk(_, _) =>
    }
  }

  lemma HandleKeepsLoaded(v: View, u: Update)
    requires Known(v, u)
    ensures u.job in Handle(v, u).jobs
  {
  }

  /** The first job never outlives its task: nothing else has been loaded while it waits. */
  lemma FirstJobIsTaken(s: Sys, k: nat)
    requires Linked(s) && InStep(s, k) && s.v.jobs != map[]
    ensures s.v.task.pending[0].id in s.delivered
  {
    var j :| j in s.v.jobs;
    assert Fits(s.v.task.pending, j, s.v.jobs[j]);
    var q :| 0 <= q < |s.v.task.pending| && s.v.task.pending[q] == s.v.jobs[j].job;
    assert q < k;
    if q > 0 {
      assert JobDone(s, s.v.task.pending[0]);
    }
  }

  lemma LeftJobIsLater(pending: seq<Job>, steps: seq<Step>, p: nat)
    requires WellPlanned(pending) && LeavesJob(pending, steps, p)
    ensures 0 < p < |pending| && pending[0].txns != []
  {
    var s := Run(Initial(pending), steps);
    var k := RunKeepsInv(pending, steps);
    RunStaysLinked(pending, steps);
    EndedIsLoaded(pending, steps);
    FirstJobIsTaken(s, k);
    NextJobWaitsForCompletion(pending, steps, 0, p);
  }

  /**
   * The exact condition: some run ends the task and leaves a job in the channel if and only if the plan has a second
   * job and the first one has transactions.
   */
  lemma JobOutlivesTaskIff(pending: seq<Job>)
    requires WellPlanned(pending)
    ensures (exists steps, p :: LeavesJob(pending, steps, p)) <==> |pending| >= 2 && pending[0].txns != []
  {
    if |pending| >= 2 && pending[0].txns != [] {
      var steps := LateTimerLeavesJob(pending, 1);
      assert LeavesJob(pending, steps, 1);
    }
    if steps, p :| LeavesJob(pending, steps, p) {
      LeftJobIsLater(pending, steps, p);
    }
  }
}
